/** Hierarchical resolution of optical threshold policies (threshold_cache.py, lines 30-63). */
module Thresholds {
  import opened Prelude

  datatype Scope = Onu | PonPort | Olt | Global

  datatype Severity = Info | Warning | Critical

  datatype Policy = Policy(
    id: Id, scope: Scope, scopeId: Option<Id>, metric: string,
    min: Option<real>, max: Option<real>, severity: Severity, active: bool)

  datatype Effective = Effective(
    metric: string, policyId: Id, scope: Scope, scopeId: Option<Id>,
    min: Option<real>, max: Option<real>, severity: Severity)

  // One entry per metric; None says that no policy applies.
  type ThresholdMap = map<string, Option<Effective>>

  const SUPPORTED_METRICS: set<string> :=
    {"rx_power_dbm", "tx_power_dbm", "temperature", "voltage", "bias_current", "distance_m"}

  const SCOPE_PRIORITY: seq<Scope> := [Onu, PonPort, Olt, Global]

  function Rank(s: Scope): nat {
    match s
    case Onu => 0
    case PonPort => 1
    case Olt => 2
    case Global => 3
  }

  function ToEffective(p: Policy): Effective {
    Effective(p.metric, p.id, p.scope, p.scopeId, p.min, p.max, p.severity)
  }

  // ---------- The hierarchy, stated without an algorithm ----------

  /** Policy i governs the metric: no listed policy is more specific, and none as specific comes earlier. */
  ghost predicate Governs(policies: seq<Policy>, metric: string, i: nat) {
    && i < |policies|
    && policies[i].metric == metric
    && forall j | 0 <= j < |policies| && policies[j].metric == metric ::
         Rank(policies[i].scope) < Rank(policies[j].scope)
         || (policies[i].scope == policies[j].scope && i <= j)
  }

  ghost predicate Unregulated(policies: seq<Policy>, metric: string) {
    forall p | p in policies :: p.metric != metric
  }

  /** The effective threshold has the policy's own limits, severity and identity. */
  ghost predicate TakenFrom(e: Effective, p: Policy) {
    && e.metric == p.metric && e.policyId == p.id && e.scope == p.scope && e.scopeId == p.scopeId
    && e.min == p.min && e.max == p.max && e.severity == p.severity
  }

  /** The meaning of one resolved metric. */
  ghost predicate IsEffective(policies: seq<Policy>, metric: string, r: Option<Effective>) {
    match r
    case None => Unregulated(policies, metric)
    case Some(e) => exists i: nat :: Governs(policies, metric, i) && TakenFrom(e, policies[i])
  }

  /** At most one value has that meaning. */
  lemma EffectiveIsUnique(policies: seq<Policy>, metric: string, r1: Option<Effective>, r2: Option<Effective>)
    requires IsEffective(policies, metric, r1) && IsEffective(policies, metric, r2)
    ensures r1 == r2
  {
    if r1.Some? && r2.Some? {
      var i: nat :| Governs(policies, metric, i) && TakenFrom(r1.value, policies[i]);
      var j: nat :| Governs(policies, metric, j) && TakenFrom(r2.value, policies[j]);
      assert i == j;
    }
  }

  // ---------- The resolver ----------

  /** First policy listed for a (metric, scope) pair. */
  function FirstAt(policies: seq<Policy>, metric: string, scope: Scope): Option<Policy> {
    if policies == [] then None
    else
      var n := |policies| - 1;
      var earlier := FirstAt(policies[..n], metric, scope);
      if earlier.None? && policies[n].metric == metric && policies[n].scope == scope then Some(policies[n])
      else earlier
  }

  /** First hit when the scopes are tried from the given priority down. */
  function Choose(policies: seq<Policy>, metric: string, from: nat): Option<Effective>
    decreases |SCOPE_PRIORITY| - from
  {
    if from >= |SCOPE_PRIORITY| then None
    else
      match FirstAt(policies, metric, SCOPE_PRIORITY[from])
      case Some(p) => Some(ToEffective(p))
      case None => Choose(policies, metric, from + 1)
  }

  function Resolve(policies: seq<Policy>): ThresholdMap {
    map m | m in SUPPORTED_METRICS :: Choose(policies, m, 0)
  }

  lemma {:induction false} FirstAtMeaning(policies: seq<Policy>, metric: string, scope: Scope)
    ensures match FirstAt(policies, metric, scope)
            case None => forall j | 0 <= j < |policies| :: policies[j].metric != metric || policies[j].scope != scope
            case Some(p) =>
              && p.metric == metric && p.scope == scope
              && exists i :: 0 <= i < |policies| && policies[i] == p &&
                   forall j | 0 <= j < i :: policies[j].metric != metric || policies[j].scope != scope
  {
    if policies != [] {
      var n := |policies| - 1;
      FirstAtMeaning(policies[..n], metric, scope);
      var earlier := FirstAt(policies[..n], metric, scope);
      if earlier.Some? {
        var i :| 0 <= i < n && policies[..n][i] == earlier.value
          && forall j | 0 <= j < i :: policies[..n][j].metric != metric || policies[..n][j].scope != scope;
        assert policies[i] == earlier.value;
        assert forall j | 0 <= j < i :: policies[j] == policies[..n][j];
      } else {
        assert forall j | 0 <= j < n :: policies[j] == policies[..n][j];
      }
    }
  }

  lemma {:induction false} ChooseMeaning(policies: seq<Policy>, metric: string, from: nat)
    requires forall j | 0 <= j < |policies| && policies[j].metric == metric :: from <= Rank(policies[j].scope)
    ensures IsEffective(policies, metric, Choose(policies, metric, from))
    decreases |SCOPE_PRIORITY| - from
  {
    if from < |SCOPE_PRIORITY| {
      var scope := SCOPE_PRIORITY[from];
      assert Rank(scope) == from;
      FirstAtMeaning(policies, metric, scope);
      match FirstAt(policies, metric, scope) {
        case Some(p) =>
          var i :| 0 <= i < |policies| && policies[i] == p
            && forall j | 0 <= j < i :: policies[j].metric != metric || policies[j].scope != scope;
          assert Governs(policies, metric, i) && TakenFrom(ToEffective(p), policies[i]);
        case None =>
          forall j | 0 <= j < |policies| && policies[j].metric == metric
            ensures from + 1 <= Rank(policies[j].scope)
          {
            assert policies[j].scope != scope;
          }
          ChooseMeaning(policies, metric, from + 1);
      }
    }
  }

  /** Resolution covers every supported metric and agrees with the hierarchy on each. */
  lemma ResolveMeetsHierarchy(policies: seq<Policy>)
    ensures Resolve(policies).Keys == SUPPORTED_METRICS
    ensures forall m | m in SUPPORTED_METRICS :: IsEffective(policies, m, Resolve(policies)[m])
  {
    forall m | m in SUPPORTED_METRICS
      ensures IsEffective(policies, m, Resolve(policies)[m])
    {
      ChooseMeaning(policies, m, 0);
    }
  }

  // ---------- Order and less specific policies do not matter ----------

  /** One policy per (metric, scope), which the partial unique index provides. */
  ghost predicate OnePerScope(policies: seq<Policy>) {
    forall i, j | 0 <= i < j < |policies| ::
      policies[i].metric != policies[j].metric || policies[i].scope != policies[j].scope
  }

  ghost predicate SameRows(a: seq<Policy>, b: seq<Policy>) {
    forall p :: p in a <==> p in b
  }

  lemma EffectiveIgnoresOrder(a: seq<Policy>, b: seq<Policy>, metric: string, r: Option<Effective>)
    requires OnePerScope(a) && OnePerScope(b) && SameRows(a, b)
    requires IsEffective(a, metric, r)
    ensures IsEffective(b, metric, r)
  {
    if r.Some? {
      var i: nat :| Governs(a, metric, i) && TakenFrom(r.value, a[i]);
      assert a[i] in b;
      var j: nat :| j < |b| && b[j] == a[i];
      forall k | 0 <= k < |b| && b[k].metric == metric
        ensures Rank(b[j].scope) < Rank(b[k].scope) || (b[j].scope == b[k].scope && j <= k)
      {
        assert b[k] in a;
        var l: nat :| l < |a| && a[l] == b[k];
        assert b[j].scope == b[k].scope ==> j == k;
      }
      assert Governs(b, metric, j);
    }
  }

  lemma ResolveIgnoresOrder(a: seq<Policy>, b: seq<Policy>)
    requires OnePerScope(a) && OnePerScope(b) && SameRows(a, b)
    ensures Resolve(a) == Resolve(b)
  {
    ResolveMeetsHierarchy(a);
    ResolveMeetsHierarchy(b);
    forall m | m in SUPPORTED_METRICS
      ensures Resolve(a)[m] == Resolve(b)[m]
    {
      EffectiveIgnoresOrder(a, b, m, Resolve(a)[m]);
      EffectiveIsUnique(b, m, Resolve(a)[m], Resolve(b)[m]);
    }
  }

  /** Once a metric is resolved, appending policies that are not more specific leaves it alone. */
  lemma LessSpecificIrrelevant(policies: seq<Policy>, extra: seq<Policy>, metric: string)
    requires metric in SUPPORTED_METRICS
    requires Resolve(policies)[metric].Some?
    requires forall p | p in extra && p.metric == metric :: Rank(Resolve(policies)[metric].value.scope) <= Rank(p.scope)
    ensures Resolve(policies + extra)[metric] == Resolve(policies)[metric]
  {
    ResolveMeetsHierarchy(policies);
    ResolveMeetsHierarchy(policies + extra);
    var e := Resolve(policies)[metric].value;
    var i: nat :| Governs(policies, metric, i) && TakenFrom(e, policies[i]);
    StillGoverns(policies, extra, metric, i);
    EffectiveIsUnique(policies + extra, metric, Resolve(policies)[metric], Resolve(policies + extra)[metric]);
  }

  lemma StillGoverns(policies: seq<Policy>, extra: seq<Policy>, metric: string, i: nat)
    requires Governs(policies, metric, i)
    requires forall p | p in extra && p.metric == metric :: Rank(policies[i].scope) <= Rank(p.scope)
    ensures Governs(policies + extra, metric, i)
  {
    var all := policies + extra;
    forall j | 0 <= j < |all| && all[j].metric == metric
      ensures Rank(all[i].scope) < Rank(all[j].scope) || (all[i].scope == all[j].scope && i <= j)
    {
      if j >= |policies| {
        assert all[j] in extra;
      }
    }
  }

  // ---------- The query behind a resolution ----------

  /** Rows the chain query selects (signal_reading_worker.py, lines 331-345). */
  predicate InChain(p: Policy, onu: Id, ponPort: Id, olt: Id) {
    && p.active
    && match p.scope
       case Onu => p.scopeId == Some(onu)
       case PonPort => p.scopeId == Some(ponPort)
       case Olt => p.scopeId == Some(olt)
       case Global => true
  }

  /** Any listing of the selected rows; the query states no order. */
  ghost predicate IsQueryResult(rows: seq<Policy>, table: set<Policy>, onu: Id, ponPort: Id, olt: Id) {
    && (forall p :: p in rows <==> p in table && InChain(p, onu, ponPort, olt))
    && (forall i, j | 0 <= i < j < |rows| :: rows[i] != rows[j])
  }

  /** uq_optical_threshold_policy_scope, and global policies carry no scope id. */
  ghost predicate TableConstraints(table: set<Policy>) {
    && (forall p, q | p in table && q in table && p.active && q.active
          && p.scope == q.scope && p.scopeId == q.scopeId && p.metric == q.metric :: p == q)
    && (forall p | p in table && p.scope.Global? :: p.scopeId.None?)
  }

  /** The thresholds of an ONU are a function of the table: the row order of the query is irrelevant. */
  lemma QueryOrderIrrelevant(table: set<Policy>, onu: Id, ponPort: Id, olt: Id, a: seq<Policy>, b: seq<Policy>)
    requires TableConstraints(table)
    requires IsQueryResult(a, table, onu, ponPort, olt) && IsQueryResult(b, table, onu, ponPort, olt)
    ensures Resolve(a) == Resolve(b)
  {
    forall rows: seq<Policy> | rows == a || rows == b
      ensures OnePerScope(rows)
    {
      forall i, j | 0 <= i < j < |rows|
        ensures rows[i].metric != rows[j].metric || rows[i].scope != rows[j].scope
      {
        assert rows[i] in rows && rows[j] in rows;
      }
    }
    assert SameRows(a, b);
    ResolveIgnoresOrder(a, b);
  }

  /** An active policy for the metric at this scope. */
  ghost predicate Applies(p: Policy, metric: string, scope: Scope, scopeId: Option<Id>) {
    p.active && p.metric == metric && p.scope == scope && (scope == Global || p.scopeId == scopeId)
  }

  ghost predicate SomeApplies(table: set<Policy>, metric: string, scope: Scope, scopeId: Option<Id>) {
    exists p :: p in table && Applies(p, metric, scope, scopeId)
  }

  /** The policy in force: that of the ONU, else of its PON port, else of its OLT, else the global one. */
  ghost predicate InForce(p: Policy, table: set<Policy>, metric: string, onu: Id, ponPort: Id, olt: Id) {
    && p in table
    && (|| Applies(p, metric, Onu, Some(onu))
        || (Applies(p, metric, PonPort, Some(ponPort)) && !SomeApplies(table, metric, Onu, Some(onu)))
        || (Applies(p, metric, Olt, Some(olt)) && !SomeApplies(table, metric, Onu, Some(onu)) && !SomeApplies(table, metric, PonPort, Some(ponPort)))
        || (Applies(p, metric, Global, None) && !SomeApplies(table, metric, Onu, Some(onu)) && !SomeApplies(table, metric, PonPort, Some(ponPort))
            && !SomeApplies(table, metric, Olt, Some(olt))))
  }

  /** The chain query finds what applies to the ONU, at whatever scope. */
  lemma ChainMeaning(p: Policy, onu: Id, ponPort: Id, olt: Id)
    ensures InChain(p, onu, ponPort, olt) <==>
            || Applies(p, p.metric, Onu, Some(onu)) || Applies(p, p.metric, PonPort, Some(ponPort))
            || Applies(p, p.metric, Olt, Some(olt)) || Applies(p, p.metric, Global, None)
  {
  }

  lemma GoverningIsInForce(table: set<Policy>, rows: seq<Policy>, onu: Id, ponPort: Id, olt: Id, metric: string, i: nat)
    requires IsQueryResult(rows, table, onu, ponPort, olt) && Governs(rows, metric, i)
    ensures InForce(rows[i], table, metric, onu, ponPort, olt)
  {
    assert rows[i] in rows;
    ChainMeaning(rows[i], onu, ponPort, olt);
    forall p | p in table && p.metric == metric && InChain(p, onu, ponPort, olt)
      ensures Rank(rows[i].scope) <= Rank(p.scope)
    {
      assert p in rows;
      var j: nat :| j < |rows| && rows[j] == p;
    }
    forall p | p in table && p.metric == metric
      ensures InChain(p, onu, ponPort, olt) <==>
              || Applies(p, metric, Onu, Some(onu)) || Applies(p, metric, PonPort, Some(ponPort))
              || Applies(p, metric, Olt, Some(olt)) || Applies(p, metric, Global, None)
    {
      ChainMeaning(p, onu, ponPort, olt);
    }
  }

  /** End to end: what the resolver makes of any listing of the chain query is the table's policy in force for this ONU. */
  lemma ResolvesPolicyInForce(table: set<Policy>, rows: seq<Policy>, onu: Id, ponPort: Id, olt: Id, metric: string)
    requires IsQueryResult(rows, table, onu, ponPort, olt) && metric in SUPPORTED_METRICS
    ensures match Resolve(rows)[metric]
            case Some(e) => exists p :: InForce(p, table, metric, onu, ponPort, olt) && TakenFrom(e, p)
            case None =>
              && !SomeApplies(table, metric, Onu, Some(onu)) && !SomeApplies(table, metric, PonPort, Some(ponPort))
              && !SomeApplies(table, metric, Olt, Some(olt)) && !SomeApplies(table, metric, Global, None)
  {
    ResolveMeetsHierarchy(rows);
    if Resolve(rows)[metric].Some? {
      var i: nat :| Governs(rows, metric, i) && TakenFrom(Resolve(rows)[metric].value, rows[i]);
      GoverningIsInForce(table, rows, onu, ponPort, olt, metric, i);
    } else {
      forall p | p in table && p.metric == metric
        ensures !InChain(p, onu, ponPort, olt)
      {
        assert p in rows <==> InChain(p, onu, ponPort, olt);
      }
      forall p | p in table && p.metric == metric
        ensures !Applies(p, metric, Onu, Some(onu)) && !Applies(p, metric, PonPort, Some(ponPort))
                && !Applies(p, metric, Olt, Some(olt)) && !Applies(p, metric, Global, None)
      {
        ChainMeaning(p, onu, ponPort, olt);
      }
    }
  }

  // ---------- The two loops ----------

  method ResolvePoliciesForOnu(policies: seq<Policy>) returns (out: ThresholdMap)
    ensures out == Resolve(policies)
    ensures out.Keys == SUPPORTED_METRICS
    ensures forall m | m in SUPPORTED_METRICS :: IsEffective(policies, m, out[m])
  {
    var byMetricScope: map<(string, Scope), Policy> := map[];
    for i := 0 to |policies|
      invariant forall m, s :: FirstAt(policies[..i], m, s) ==
                               if (m, s) in byMetricScope then Some(byMetricScope[(m, s)]) else None
    {
      assert policies[..i + 1][..i] == policies[..i];
      var key := (policies[i].metric, policies[i].scope);
      if key !in byMetricScope {
        byMetricScope := byMetricScope[key := policies[i]];
      }
    }
    assert policies[..|policies|] == policies;

    out := map[];
    var todo := SUPPORTED_METRICS;
    while todo != {}
      invariant todo <= SUPPORTED_METRICS
      invariant out == map m | m in SUPPORTED_METRICS && m !in todo :: Choose(policies, m, 0)
    {
      var metric :| metric in todo;
      var chosen: Option<Effective> := None;
      for s := 0 to |SCOPE_PRIORITY|
        invariant chosen.None?
        invariant Choose(policies, metric, 0) == Choose(policies, metric, s)
      {
        var key := (metric, SCOPE_PRIORITY[s]);
        assert FirstAt(policies, metric, SCOPE_PRIORITY[s]) ==
               if key in byMetricScope then Some(byMetricScope[key]) else None;
        if key in byMetricScope {
          chosen := Some(ToEffective(byMetricScope[key]));
          break;
        }
      }
      assert chosen == Choose(policies, metric, 0);
      out := out[metric := chosen];
      todo := todo - {metric};
    }
    ResolveMeetsHierarchy(policies);
  }
}
