/** The planning loops over cache and catalogue produce what the events of the order protocol carry. */
module OrderBridge {
  import opened Prelude
  import opened TtlLog
  import opened CommandCaching
  import opened Commands
  import opened Orders
  import opened Saga
  import opened OrderProtocol

  /** The listing that answered each position. */
  function Rows(at: seq<nat>, sources: seq<Fetch>): map<nat, seq<CommandRow>>
    requires |sources| == |at|
  {
    if at == [] then map[]
    else
      var n := |at| - 1;
      Rows(at[..n], sources[..n])[at[n] := sources[n].rows]
  }

  lemma {:induction false} RowsAt(at: seq<nat>, sources: seq<Fetch>)
    requires |sources| == |at| && forall i, j | 0 <= i < j < |at| :: at[i] != at[j]
    ensures forall k | 0 <= k < |at| :: at[k] in Rows(at, sources) && Rows(at, sources)[at[k]] == sources[k].rows
  {
    if at != [] {
      RowsAt(at[..|at| - 1], sources[..|at| - 1]);
    }
  }

  /** The sources answer the given keys, from listings of those keys. */
  ghost predicate AnswersKeys(sources: seq<Fetch>, keys: seq<CommandKey>) {
    && |sources| == |keys|
    && forall i | 0 <= i < |keys| :: sources[i].key == keys[i] && IsListed(sources[i].rows, keys[i].manufacturer, keys[i].key)
  }

  /** For the keys that a pass did not come to: what a query would have listed. */
  function Rest(keys: seq<CommandKey>, listings: seq<seq<CommandRow>>, from: nat): (rest: seq<Fetch>)
    requires from <= |keys| == |listings|
    ensures |rest| == |keys| - from
    ensures forall i | from <= i < |keys| :: rest[i - from] == Fetch(keys[i], listings[i], 0.0)
  {
    seq(|keys| - from, i requires 0 <= i < |keys| - from => Fetch(keys[from + i], listings[from + i], 0.0))
  }

  /** The queries that answered a pass, and those that it did not come to. */
  ghost function AllSources(fetches: seq<Fetch>, ttl: Time, keys: seq<CommandKey>, listings: seq<seq<CommandRow>>, whens: seq<Instants>)
    : (sources: seq<Fetch>)
    requires |whens| <= |keys| == |listings|
    ensures |sources| == |keys|
  {
    PassSources(fetches, ttl, keys, listings, whens) + Rest(keys, listings, |whens|)
  }

  /** What the loops demand of the cache's history and of the listings, and ensure about the instants. */
  ghost predicate IsPass(fetches: seq<Fetch>, ttl: Time, keys: seq<CommandKey>, listings: seq<seq<CommandRow>>, whens: seq<Instants>) {
    && (forall f | f in fetches :: IsListed(f.rows, f.key.manufacturer, f.key.key))
    && ListedFor(keys, listings) && ttl > 0.0 && |whens| <= |keys| && InOrder(whens)
  }

  /** A pass answers the keys it comes to from listings of those keys. */
  lemma PassAnswersKeys(fetches: seq<Fetch>, ttl: Time, keys: seq<CommandKey>, listings: seq<seq<CommandRow>>, whens: seq<Instants>)
    requires IsPass(fetches, ttl, keys, listings, whens)
    ensures AnswersKeys(AllSources(fetches, ttl, keys, listings, whens), keys)
  {
    forall i | 0 <= i < |keys|
      ensures var source := AllSources(fetches, ttl, keys, listings, whens)[i];
              source.key == keys[i] && IsListed(source.rows, keys[i].manufacturer, keys[i].key)
    {
      if i < |whens| {
        PassSourceIsListed(fetches, ttl, keys, listings, whens, i);
      }
    }
  }

  function Upto(n: nat): (at: seq<nat>)
    ensures |at| == n && forall i | 0 <= i < n :: at[i] == i
  {
    if n == 0 then [] else Upto(n - 1) + [n - 1]
  }

  /** The listings of a sight are those of the sources, each at its position. */
  ghost predicate Saw(sight: Sight, model: Option<Id>, at: seq<nat>, sources: seq<Fetch>)
    requires |at| == |sources|
  {
    sight.model == model && forall k | 0 <= k < |at| :: at[k] in sight.listings && sight.listings[at[k]] == sources[k].rows
  }

  /** Listings at the positions of the steps answer them as the sources do. */
  lemma PlanAgrees(t: Template, model: Option<Id>, sources: seq<Fetch>, sight: Sight)
    requires AnswersKeys(sources, PlanKeys(t, model)) && Saw(sight, model, Upto(|t.steps|), sources)
    ensures PlanLookups(t, sight) == Answers(sources)
  {
    forall i | 0 <= i < |sources|
      ensures PlanLookups(t, sight)[i] == Answers(sources)[i]
    {
      assert Upto(|t.steps|)[i] == i;
      assert sources[i].key == PlanKeys(t, model)[i];
      assert AnswerAt(sight, i, sources[i].key) == AnswerOf(sources[i]);
    }
  }

  /** The plan of phase 1 is the one the protocol derives from the listings that answered. */
  lemma PlanHandsOver(t: Template, model: Option<Id>, sources: seq<Fetch>, vars: Variables) returns (sight: Sight)
    requires AnswersKeys(sources, PlanKeys(t, model))
    ensures Saw(sight, model, Upto(|t.steps|), sources)
    ensures PlanFrom(t.steps, sources, vars) == BuildPlan(t.steps, PlanLookups(t, sight), vars)
  {
    sight := Sight(model, Rows(Upto(|t.steps|), sources));
    RowsAt(Upto(|t.steps|), sources);
    PlanAgrees(t, model, sources, sight);
    PlanOfAnswers(t.steps, sources, vars);
  }

  lemma PlanOfAnswers(steps: seq<StepDef>, sources: seq<Fetch>, vars: Variables)
    requires |sources| == |steps|
    ensures PlanFrom(steps, sources, vars) == BuildPlan(steps, Answers(sources), vars)
  {
    PlanFromIsBuildPlan(steps, sources, vars);
    assert steps[..|sources|] == steps;
  }

  /** A plan that has failed is not changed by the steps that follow. */
  lemma {:induction false} FailureStays(steps: seq<StepDef>, sources: seq<Fetch>, n: nat, vars: Variables)
    requires n <= |sources| <= |steps| && !PlanFrom(steps, sources[..n], vars).Plan?
    ensures PlanFrom(steps, sources, vars) == PlanFrom(steps, sources[..n], vars)
    decreases |sources|
  {
    if n == |sources| {
      assert sources[..n] == sources;
    } else {
      var m := |sources| - 1;
      assert sources[..m][..n] == sources[..n];
      FailureStays(steps, sources[..m], n, vars);
    }
  }

  /**
   * Whatever PlanSteps returns, complete or stopped at a failing step, is the plan that the protocol derives from the
   * listings that answered.
   */
  lemma PassPlans(t: Template, model: Option<Id>, vars: Variables, listings: seq<seq<CommandRow>>, fetches: seq<Fetch>, ttl: Time,
                  whens: seq<Instants>) returns (sight: Sight)
    requires IsPass(fetches, ttl, PlanKeys(t, model), listings, whens)
    requires PlanFrom(t.steps, PassSources(fetches, ttl, PlanKeys(t, model), listings, whens), vars).Plan? ==> |whens| == |t.steps|
    ensures Saw(sight, model, Upto(|t.steps|), AllSources(fetches, ttl, PlanKeys(t, model), listings, whens))
    ensures PlanFrom(t.steps, PassSources(fetches, ttl, PlanKeys(t, model), listings, whens), vars) ==
            BuildPlan(t.steps, PlanLookups(t, sight), vars)
  {
    var keys := PlanKeys(t, model);
    var sources := PassSources(fetches, ttl, keys, listings, whens);
    PassAnswersKeys(fetches, ttl, keys, listings, whens);
    sight := PlanHandsOver(t, model, AllSources(fetches, ttl, keys, listings, whens), vars);
    if |whens| < |t.steps| {
      assert AllSources(fetches, ttl, keys, listings, whens)[..|whens|] == sources;
      FailureStays(t.steps, AllSources(fetches, ttl, keys, listings, whens), |whens|, vars);
    } else {
      assert AllSources(fetches, ttl, keys, listings, whens) == sources;
    }
  }

  lemma FetchesAreListed(log: seq<Write<CommandKey, Option<Resolved>>>, fetches: seq<Fetch>)
    requires Fetched(log, fetches)
    ensures forall f | f in fetches :: IsListed(f.rows, f.key.manufacturer, f.key.key)
  {
    forall f | f in fetches
      ensures IsListed(f.rows, f.key.manufacturer, f.key.key)
    {
      var i :| 0 <= i < |fetches| && fetches[i] == f;
      assert log[i] == Write.Put(map[fetches[i].key := AnswerOf(fetches[i])], fetches[i].at);
    }
  }

  /** What phase 1 hands to the later phases: commands and step keys, a refusal, or an error. */
  datatype Examined =
    | Planned(commands: seq<Command>, keys: map<nat, string>)
    | TurnedDown
    | Errored

  function ExaminedAs(verdict: Verdict): Examined {
    match verdict
    case Usable(ctx) => Planned(ctx.commands, KeysOf(ctx))
    case Refusable => TurnedDown
    case Broke => Errored
  }

  /** The checks that precede the planning loop. */
  predicate MayPlan(order: Order, t: Template) {
    t.active && forall name | name in t.required :: name in order.snapshot
  }

  function ExaminedPlan(plan: Plan, keys: map<nat, string>, portFound: bool): Examined {
    match plan
    case Plan(commands) => if portFound then Planned(commands, keys) else TurnedDown
    case Invalid => TurnedDown
    case Crashed => Errored
  }

  lemma ExamineMeans(order: Order, t: Template, sight: Sight, portFound: bool)
    ensures ExaminedAs(Examine(order, Readout(Some(t), sight, portFound))) ==
            if !MayPlan(order, t) then TurnedDown
            else ExaminedPlan(BuildPlan(t.steps, PlanLookups(t, sight), Context(t.commandVars, order.snapshot)), StepKeys(t.steps), portFound)
  {
    assert (exists name :: name in t.required && name !in order.snapshot) <==> !forall name | name in t.required :: name in order.snapshot;
  }

  /**
   * Phase 1 after the lock: the verdict is the one that the protocol's Validate event carries, for the listings that
   * answered the planning loop.
   */
  method ExamineOrder(cache: CommandCache, clock: Clock, order: Order, t: Template, model: Option<Id>, portFound: bool,
                      listings: seq<seq<CommandRow>>, ghost fetches: seq<Fetch>)
    returns (found: Examined, ghost sight: Sight)
    requires cache.Valid() && cache.seen <= clock.now && Fetched(cache.log, fetches)
    requires ListedFor(PlanKeys(t, model), listings)
    modifies cache, clock
    ensures cache.Valid() && cache.seen <= clock.now
    ensures found == ExaminedAs(Examine(order, Readout(Some(t), sight, portFound))) && sight.model == model
  {
    sight := Sight(model, map[]);
    if !MayPlan(order, t) {
      ExamineMeans(order, t, sight, portFound);
      return TurnedDown, sight;
    }
    var vars := Context(t.commandVars, order.snapshot);
    ghost var ttl := cache.ttl;
    FetchesAreListed(cache.log, fetches);
    var plan, keys;
    ghost var whens;
    plan, keys, whens := PlanSteps(cache, clock, t, model, vars, listings, fetches);
    sight := PassPlans(t, model, vars, listings, fetches, ttl, whens);
    ExamineMeans(order, t, sight, portFound);
    found := ExaminedPlan(plan, keys, portFound);
  }

  lemma {:induction false} LookupsFromMeaning(wanted: seq<nat>, sources: seq<Fetch>)
    requires |sources| == |wanted| && forall i, j | 0 <= i < j < |wanted| :: wanted[i] != wanted[j]
    ensures forall k | 0 <= k < |wanted| :: LookupAt(LookupsFrom(wanted, sources), wanted[k]) == AnswerOf(sources[k])
  {
    PartialLookups(wanted, sources);
  }

  lemma {:induction false} PartialLookups(wanted: seq<nat>, sources: seq<Fetch>)
    requires |sources| <= |wanted| && forall i, j | 0 <= i < j < |wanted| :: wanted[i] != wanted[j]
    ensures forall k | 0 <= k < |sources| :: LookupAt(LookupsFrom(wanted, sources), wanted[k]) == AnswerOf(sources[k])
    decreases |sources|
  {
    if sources != [] {
      PartialLookups(wanted, sources[..|sources| - 1]);
    }
  }

  lemma WantedSteps(results: seq<StepResult>, keys: Keys, rollbackMap: RollbackMap)
    ensures Falling(Wanted(Reverse(Positions(results, true)), keys, rollbackMap))
    ensures forall i | i in Wanted(Reverse(Positions(results, true)), keys, rollbackMap) :: 1 <= i <= |results| && Mapped(keys, rollbackMap, i)
  {
    UndoneMeaning(results, keys, rollbackMap, Wanted(Reverse(Positions(results, true)), keys, rollbackMap));
  }

  /** The rollback plan of phase 4 is the one the protocol derives from the listings that answered. */
  lemma UndoHandsOver(ctx: Ctx, results: seq<StepResult>, t: Template, model: Option<Id>, sources: seq<Fetch>, vars: Variables)
    returns (sight: Sight)
    requires var wanted := Wanted(Reverse(Positions(results, true)), KeysOf(ctx), ctx.template.rollbackMap);
             AnswersKeys(sources, UndoKeys(t, model, KeysOf(ctx), ctx.template.rollbackMap, wanted))
    ensures var wanted := Wanted(Reverse(Positions(results, true)), KeysOf(ctx), ctx.template.rollbackMap);
            && |sources| == |wanted| && Saw(sight, model, wanted, sources)
            && UndoPlan(ctx, results, t, sight, vars) ==
               RollbackPlanFor(Positions(results, true), KeysOf(ctx), ctx.template.rollbackMap, LookupsFrom(wanted, sources), vars)
  {
    var wanted := Wanted(Reverse(Positions(results, true)), KeysOf(ctx), ctx.template.rollbackMap);
    sight := Sight(model, Rows(wanted, sources));
    WantedSteps(results, KeysOf(ctx), ctx.template.rollbackMap);
    RowsAt(wanted, sources);
    UndoAgrees(ctx, results, t, model, wanted, sources);
    ScanFrame(wanted, KeysOf(ctx), ctx.template.rollbackMap, UndoAnswers(ctx, results, t, sight), LookupsFrom(wanted, sources), vars);
  }

  lemma UndoAgrees(ctx: Ctx, results: seq<StepResult>, t: Template, model: Option<Id>, wanted: seq<nat>, sources: seq<Fetch>)
    requires AnswersKeys(sources, UndoKeys(t, model, KeysOf(ctx), ctx.template.rollbackMap, wanted))
    requires Falling(wanted) && (forall i | i in wanted :: 1 <= i <= |results|)
    ensures forall i | i in wanted ::
              LookupAt(UndoAnswers(ctx, results, t, Sight(model, Rows(wanted, sources))), i) == LookupAt(LookupsFrom(wanted, sources), i)
  {
    var sight := Sight(model, Rows(wanted, sources));
    RowsAt(wanted, sources);
    LookupsFromMeaning(wanted, sources);
    UndoLookupsMeaning(t, sight, KeysOf(ctx), ctx.template.rollbackMap, |results|);
    forall i | i in wanted
      ensures LookupAt(UndoAnswers(ctx, results, t, sight), i) == LookupAt(LookupsFrom(wanted, sources), i)
    {
      var k :| 0 <= k < |wanted| && wanted[k] == i;
      var key := KeyFor(t, model, RollbackKey(KeysOf(ctx), ctx.template.rollbackMap, i));
      assert sources[k].key == key;
      assert AnswerAt(sight, i, key) == AnswerOf(sources[k]);
    }
  }

  lemma {:induction false} LookupsDomain(wanted: seq<nat>, sources: seq<Fetch>)
    requires |sources| <= |wanted|
    ensures forall i | i in LookupsFrom(wanted, sources) :: exists k :: 0 <= k < |sources| && wanted[k] == i
    decreases |sources|
  {
    if sources != [] {
      LookupsDomain(wanted, sources[..|sources| - 1]);
    }
  }

  /** A rendering error that ended the loop is there for every continuation of the pass. */
  lemma {:induction false} ErrorStays(wanted: seq<nat>, keys: Keys, rollbackMap: RollbackMap, sources: seq<Fetch>, more: seq<Fetch>, vars: Variables)
    requires |sources| + |more| <= |wanted| && Falling(wanted)
    requires forall i | i in wanted :: Mapped(keys, rollbackMap, i)
    requires ScanWanted(wanted, keys, rollbackMap, LookupsFrom(wanted, sources), vars).Threw?
    ensures ScanWanted(wanted, keys, rollbackMap, LookupsFrom(wanted, sources + more), vars).Threw?
  {
    var some, all := LookupsFrom(wanted, sources), LookupsFrom(wanted, sources + more);
    ScanThrows(wanted, keys, rollbackMap, some, vars);
    ScanThrows(wanted, keys, rollbackMap, all, vars);
    var i :| i in wanted && Breaks(some, i, vars);
    LookupsDomain(wanted, sources);
    var k :| 0 <= k < |sources| && wanted[k] == i;
    PartialLookups(wanted, sources);
    PartialLookups(wanted, sources + more);
    assert LookupAt(all, i) == LookupAt(some, i) && Breaks(all, i, vars);
  }

  /** The steps that phase 4 undoes, in its order. */
  function ToVisit(ctx: Ctx, results: seq<StepResult>): seq<nat> {
    Wanted(Reverse(Positions(results, true)), KeysOf(ctx), ctx.template.rollbackMap)
  }

  function VisitKeys(ctx: Ctx, results: seq<StepResult>, t: Template, model: Option<Id>): (keys: seq<CommandKey>)
    ensures |keys| == |ToVisit(ctx, results)|
  {
    UndoKeys(t, model, KeysOf(ctx), ctx.template.rollbackMap, ToVisit(ctx, results))
  }

  /** The plan that phase 4 makes of the answers it has got. */
  function PlanOfPass(ctx: Ctx, results: seq<StepResult>, sources: seq<Fetch>, vars: Variables): RollbackPlan
    requires |sources| <= |ToVisit(ctx, results)|
  {
    RollbackPlanFor(Positions(results, true), KeysOf(ctx), ctx.template.rollbackMap, LookupsFrom(ToVisit(ctx, results), sources), vars)
  }

  /** The plan of a complete pass, or of one that a rendering error ended, does not depend on what would have followed. */
  lemma {:induction false} PlanStays(ctx: Ctx, results: seq<StepResult>, sources: seq<Fetch>, more: seq<Fetch>, vars: Variables)
    requires |sources| + |more| == |ToVisit(ctx, results)|
    requires PlanOfPass(ctx, results, sources, vars).Raised? || more == []
    ensures PlanOfPass(ctx, results, sources + more, vars) == PlanOfPass(ctx, results, sources, vars)
  {
    if more == [] {
      assert sources + more == sources;
    } else {
      WantedSteps(results, KeysOf(ctx), ctx.template.rollbackMap);
      ErrorStays(ToVisit(ctx, results), KeysOf(ctx), ctx.template.rollbackMap, sources, more, vars);
    }
  }

  /**
   * Whatever PlanRollback returns, complete or ended by a rendering error, is the plan that the protocol derives from the
   * listings that answered.
   */
  lemma PassPlansUndo(ctx: Ctx, results: seq<StepResult>, t: Template, model: Option<Id>, vars: Variables,
                      listings: seq<seq<CommandRow>>, fetches: seq<Fetch>, ttl: Time, whens: seq<Instants>) returns (sight: Sight)
    requires IsPass(fetches, ttl, VisitKeys(ctx, results, t, model), listings, whens)
    requires var sources := PassSources(fetches, ttl, VisitKeys(ctx, results, t, model), listings, whens);
             PlanOfPass(ctx, results, sources, vars).Raised? || |whens| == |ToVisit(ctx, results)|
    ensures Saw(sight, model, ToVisit(ctx, results), AllSources(fetches, ttl, VisitKeys(ctx, results, t, model), listings, whens))
    ensures PlanOfPass(ctx, results, PassSources(fetches, ttl, VisitKeys(ctx, results, t, model), listings, whens), vars) ==
            UndoPlan(ctx, results, t, sight, vars)
  {
    var keys := VisitKeys(ctx, results, t, model);
    var sources := PassSources(fetches, ttl, keys, listings, whens);
    PassAnswersKeys(fetches, ttl, keys, listings, whens);
    sight := UndoHandsOver(ctx, results, t, model, AllSources(fetches, ttl, keys, listings, whens), vars);
    PlanStays(ctx, results, sources, Rest(keys, listings, |whens|), vars);
  }

  /**
   * The planning of phase 4, for the order and the template as they are then: the plan is the one that the protocol's
   * PlanUndo event leads to, for the listings that answered the loop.
   */
  method PlanCompensation(cache: CommandCache, clock: Clock, order: Order, ctx: Ctx, results: seq<StepResult>, t: Template,
                          model: Option<Id>, listings: seq<seq<CommandRow>>, ghost fetches: seq<Fetch>, ghost s: State, ghost o: Id)
    returns (plan: RollbackPlan, ghost sight: Sight)
    requires cache.Valid() && cache.seen <= clock.now && Fetched(cache.log, fetches)
    requires ListedFor(VisitKeys(ctx, results, t, model), listings)
    requires o in s.orders && s.orders[o] == order
    modifies cache, clock
    ensures cache.Valid() && cache.seen <= clock.now
    ensures plan == PlanNow(s, Compensating(o, ctx, results), Some(t), sight) && sight.model == model
  {
    sight := Sight(model, map[]);
    if !t.active {
      return Raised, sight;
    }
    var vars := Context(t.commandVars, order.snapshot);
    ghost var ttl := cache.ttl;
    FetchesAreListed(cache.log, fetches);
    PositionsMeaning(results, true);
    ghost var whens;
    plan, whens := PlanRollback(cache, clock, t, model, vars, Positions(results, true), KeysOf(ctx), ctx.template.rollbackMap,
                                listings, fetches);
    sight := PassPlansUndo(ctx, results, t, model, vars, listings, fetches, ttl, whens);
  }
}
