/** Optical alerts: the upsert of the reading worker and the two operator transitions. */
module Alerts {
  import opened Prelude

  datatype Status = Open | Acknowledged | Resolved

  datatype Subject = Subject(onu: Id, metric: string)

  datatype Alert = Alert(
    subject: Subject, policy: Id, value: real, status: Status, triggeredAt: Time, resolvedAt: Option<Time>)

  datatype Violation = Violation(subject: Subject, policy: Id, value: real, at: Time)

  datatype Event =
    | Violated(v: Violation)
    | AcknowledgeRequest(id: nat)
    | ResolveRequest(id: nat, at: Time)

  datatype Reply = Done | NotFound | InvalidTransition

  // ---------- The table; a row's id is its position ----------

  /** The partial unique index uq_optical_alert_open. */
  ghost predicate OpenUnique(rows: seq<Alert>) {
    forall i, j | 0 <= i < j < |rows| && rows[i].status.Open? && rows[j].status.Open? ::
      rows[i].subject != rows[j].subject
  }

  function FindOpen(rows: seq<Alert>, s: Subject): (r: Option<nat>)
    ensures r.Some? ==> r.value < |rows| && rows[r.value].subject == s && rows[r.value].status.Open?
    ensures r.None? ==> forall i | 0 <= i < |rows| :: rows[i].subject != s || !rows[i].status.Open?
  {
    if rows == [] then None
    else
      var n := |rows| - 1;
      if rows[n].subject == s && rows[n].status.Open? then Some(n) else FindOpen(rows[..n], s)
  }

  /** INSERT ... ON CONFLICT (onu_id, metric_name) WHERE status = 'open' DO UPDATE SET value. */
  function Upsert(rows: seq<Alert>, v: Violation): seq<Alert> {
    match FindOpen(rows, v.subject)
    case Some(i) => rows[i := rows[i].(value := v.value)]
    case None => rows + [Alert(v.subject, v.policy, v.value, Open, v.at, None)]
  }

  function Acknowledge(rows: seq<Alert>, id: nat): (seq<Alert>, Reply) {
    if id >= |rows| then (rows, NotFound)
    else
      match rows[id].status
      case Acknowledged => (rows, Done)
      case Resolved => (rows, InvalidTransition)
      case Open => (rows[id := rows[id].(status := Acknowledged)], Done)
  }

  function Resolve(rows: seq<Alert>, id: nat, at: Time): (seq<Alert>, Reply) {
    if id >= |rows| then (rows, NotFound)
    else if rows[id].status.Resolved? then (rows, Done)
    else (rows[id := rows[id].(status := Resolved, resolvedAt := Some(at))], Done)
  }

  function Step(rows: seq<Alert>, e: Event): seq<Alert> {
    match e
    case Violated(v) => Upsert(rows, v)
    case AcknowledgeRequest(id) => Acknowledge(rows, id).0
    case ResolveRequest(id, at) => Resolve(rows, id, at).0
  }

  function Run(events: seq<Event>): seq<Alert> {
    if events == [] then []
    else Step(Run(events[..|events| - 1]), events[|events| - 1])
  }

  // ---------- The simple map the table refines ----------

  /** The request makes the open alert of the subject leave the open state. */
  predicate Leaves(rows: seq<Alert>, e: Event, s: Subject) {
    && !e.Violated?
    && e.id < |rows|
    && rows[e.id].subject == s
    && rows[e.id].status.Open?
  }

  /** The violations of a subject since its alert last left the open state. */
  function Spell(events: seq<Event>, s: Subject): seq<Violation> {
    if events == [] then []
    else
      var front := events[..|events| - 1];
      var e := events[|events| - 1];
      if e.Violated? && e.v.subject == s then Spell(front, s) + [e.v]
      else if Leaves(Run(front), e, s) then []
      else Spell(front, s)
  }

  /** The alert a spell of violations calls for. */
  function AlertOf(spell: seq<Violation>): Alert
    requires spell != []
  {
    Alert(spell[0].subject, spell[0].policy, spell[|spell| - 1].value, Open, spell[0].at, None)
  }

  ghost predicate WellFormed(rows: seq<Alert>) {
    && OpenUnique(rows)
    && forall i | 0 <= i < |rows| :: rows[i].resolvedAt.Some? <==> rows[i].status.Resolved?
  }

  lemma StepKeepsWellFormed(rows: seq<Alert>, e: Event)
    requires WellFormed(rows)
    ensures WellFormed(Step(rows, e))
  {
  }

  lemma {:induction false} RunWellFormed(events: seq<Event>)
    ensures WellFormed(Run(events))
  {
    if events != [] {
      RunWellFormed(events[..|events| - 1]);
      StepKeepsWellFormed(Run(events[..|events| - 1]), events[|events| - 1]);
    }
  }

  lemma FindOpenUnique(rows: seq<Alert>, s: Subject, i: nat)
    requires OpenUnique(rows) && i < |rows| && rows[i].subject == s && rows[i].status.Open?
    ensures FindOpen(rows, s) == Some(i)
  {
    var r := FindOpen(rows, s);
    assert r.Some?;
    assert r.value == i;
  }

  /** One request, seen from one subject: its open alert appears, is revalued, leaves, or stays as it is. */
  lemma StepOnSubject(rows: seq<Alert>, e: Event, s: Subject)
    requires WellFormed(rows)
    ensures var was := FindOpen(rows, s);
            var now := FindOpen(Step(rows, e), s);
            if e.Violated? && e.v.subject == s then
              now.Some? && Step(rows, e)[now.value] ==
                if was.Some? then rows[was.value].(value := e.v.value)
                else Alert(s, e.v.policy, e.v.value, Open, e.v.at, None)
            else if Leaves(rows, e, s) then now.None?
            else now == was && (now.Some? ==> Step(rows, e)[now.value] == rows[was.value])
  {
    var next := Step(rows, e);
    StepKeepsWellFormed(rows, e);
    var was := FindOpen(rows, s);
    if e.Violated? && e.v.subject == s {
      FindOpenUnique(next, s, if was.Some? then was.value else |rows|);
    } else if Leaves(rows, e, s) {
      FindOpenUnique(rows, s, e.id);
    } else if was.Some? {
      FindOpenUnique(next, s, was.value);
    }
  }

  /** Refinement: the open alert of a subject is the one its current spell calls for, and there is one iff the spell is not empty. */
  lemma {:induction false} OpenAlertIsSpell(events: seq<Event>, s: Subject)
    ensures FindOpen(Run(events), s).Some? <==> Spell(events, s) != []
    ensures FindOpen(Run(events), s).Some? ==> Run(events)[FindOpen(Run(events), s).value] == AlertOf(Spell(events, s))
    ensures forall k | 0 <= k < |Spell(events, s)| :: Spell(events, s)[k].subject == s
  {
    if events != [] {
      var front := events[..|events| - 1];
      OpenAlertIsSpell(front, s);
      RunWellFormed(front);
      StepOnSubject(Run(front), events[|events| - 1], s);
    }
  }

  // ---------- Nothing moves backwards ----------

  function Stage(s: Status): nat {
    match s
    case Open => 0
    case Acknowledged => 1
    case Resolved => 2
  }

  /** What a row keeps while the table changes. */
  ghost predicate Grows(before: Alert, after: Alert) {
    && after.subject == before.subject
    && after.policy == before.policy
    && after.triggeredAt == before.triggeredAt
    && Stage(before.status) <= Stage(after.status)
    && (!before.status.Open? ==> after.value == before.value)
    && (before.status.Resolved? ==> after == before)
  }

  /** No row disappears, and each one grows. */
  ghost predicate AllGrow(before: seq<Alert>, after: seq<Alert>) {
    |before| <= |after| && forall i | 0 <= i < |before| :: Grows(before[i], after[i])
  }

  lemma AllGrowTransitive(a: seq<Alert>, b: seq<Alert>, c: seq<Alert>)
    requires AllGrow(a, b) && AllGrow(b, c)
    ensures AllGrow(a, c)
  {
    forall i | 0 <= i < |a|
      ensures Grows(a[i], c[i])
    {
      assert Grows(a[i], b[i]) && Grows(b[i], c[i]);
    }
  }

  lemma RunSnoc(events: seq<Event>, e: Event)
    ensures Run(events + [e]) == Step(Run(events), e)
  {
    assert (events + [e])[..|events|] == events;
  }

  /** Over any continuation no row disappears, moves back, or changes its value after leaving the open state. */
  lemma {:induction false} RowsOnlyGrow(events: seq<Event>, more: seq<Event>)
    ensures AllGrow(Run(events), Run(events + more))
  {
    if more == [] {
      assert events + more == events;
    } else {
      var n := |more| - 1;
      RowsOnlyGrow(events, more[..n]);
      assert events + more == events + more[..n] + [more[n]];
      RunSnoc(events + more[..n], more[n]);
      StepGrows(Run(events + more[..n]), more[n]);
      AllGrowTransitive(Run(events), Run(events + more[..n]), Run(events + more));
    }
  }

  lemma StepGrows(rows: seq<Alert>, e: Event)
    ensures AllGrow(rows, Step(rows, e))
  {
  }

  // ---------- What the requests have made of a row ----------

  /** The k-th event resolves row i, which is there by then. */
  ghost predicate ResolvedBy(events: seq<Event>, i: nat, k: nat, at: Time) {
    k < |events| && i < |Run(events[..k])| && events[k] == ResolveRequest(i, at)
  }

  ghost predicate AcknowledgedBy(events: seq<Event>, i: nat, k: nat) {
    k < |events| && i < |Run(events[..k])| && events[k] == AcknowledgeRequest(i)
  }

  ghost predicate EverResolved(events: seq<Event>, i: nat) {
    exists k: nat, at :: ResolvedBy(events, i, k, at)
  }

  ghost predicate EverAcknowledged(events: seq<Event>, i: nat) {
    exists k: nat :: AcknowledgedBy(events, i, k)
  }

  /** The k-th event is the first to resolve row i. */
  ghost predicate FirstResolvedBy(events: seq<Event>, i: nat, k: nat, at: Time) {
    ResolvedBy(events, i, k, at) && forall j: nat, time | j < k :: !ResolvedBy(events, i, j, time)
  }

  lemma {:induction false} PrefixIsShorter(events: seq<Event>, k: nat)
    requires k <= |events|
    ensures |Run(events[..k])| <= |Run(events)|
  {
    assert events == events[..k] + events[k..];
    RowsOnlyGrow(events[..k], events[k..]);
  }

  lemma {:induction false} BySnoc(front: seq<Event>, e: Event, i: nat, k: nat, at: Time)
    ensures ResolvedBy(front + [e], i, k, at) <==>
            ResolvedBy(front, i, k, at) || (k == |front| && i < |Run(front)| && e == ResolveRequest(i, at))
    ensures AcknowledgedBy(front + [e], i, k) <==>
            AcknowledgedBy(front, i, k) || (k == |front| && i < |Run(front)| && e == AcknowledgeRequest(i))
  {
    if k <= |front| {
      assert (front + [e])[..k] == front[..k];
      assert front[..|front|] == front;
    }
  }

  lemma {:induction false} ResolvedSnoc(front: seq<Event>, e: Event, i: nat)
    ensures EverResolved(front + [e], i) <==> EverResolved(front, i) || (i < |Run(front)| && e.ResolveRequest? && e.id == i)
  {
    forall k: nat, at
      ensures ResolvedBy(front + [e], i, k, at) <==>
              ResolvedBy(front, i, k, at) || (k == |front| && i < |Run(front)| && e == ResolveRequest(i, at))
    {
      BySnoc(front, e, i, k, at);
    }
    if i < |Run(front)| && e.ResolveRequest? && e.id == i {
      assert ResolvedBy(front + [e], i, |front|, e.at);
    }
  }

  lemma {:induction false} AcknowledgedSnoc(front: seq<Event>, e: Event, i: nat)
    ensures EverAcknowledged(front + [e], i) <==> EverAcknowledged(front, i) || (i < |Run(front)| && e == AcknowledgeRequest(i))
  {
    forall k: nat
      ensures AcknowledgedBy(front + [e], i, k) <==>
              AcknowledgedBy(front, i, k) || (k == |front| && i < |Run(front)| && e == AcknowledgeRequest(i))
    {
      BySnoc(front, e, i, k, 0.0);
    }
    if i < |Run(front)| && e == AcknowledgeRequest(i) {
      assert AcknowledgedBy(front + [e], i, |front|);
    }
  }

  lemma {:induction false} NewRowUntouched(events: seq<Event>, i: nat)
    requires i >= |Run(events)|
    ensures !EverResolved(events, i) && !EverAcknowledged(events, i)
  {
    forall k: nat | k < |events|
      ensures i >= |Run(events[..k])|
    {
      PrefixIsShorter(events, k);
    }
  }

  /** A row is resolved once it has been asked to be, acknowledged if only that was asked, and open if neither was. */
  lemma {:induction false} StatusFollowsRequests(events: seq<Event>, i: nat)
    requires i < |Run(events)|
    ensures Run(events)[i].status ==
            if EverResolved(events, i) then Resolved else if EverAcknowledged(events, i) then Acknowledged else Open
  {
    var front, e := events[..|events| - 1], events[|events| - 1];
    assert events == front + [e];
    ResolvedSnoc(front, e, i);
    AcknowledgedSnoc(front, e, i);
    if i < |Run(front)| {
      StatusFollowsRequests(front, i);
    } else {
      NewRowUntouched(front, i);
    }
  }

  /** Its resolution time is that of the first request to resolve it. */
  lemma {:induction false} ResolvedAtFirstRequest(events: seq<Event>, i: nat, k: nat, at: Time)
    requires i < |Run(events)| && FirstResolvedBy(events, i, k, at)
    ensures Run(events)[i].status == Resolved && Run(events)[i].resolvedAt == Some(at)
  {
    var front, e := events[..|events| - 1], events[|events| - 1];
    assert events == front + [e];
    BySnoc(front, e, i, k, at);
    if k < |front| {
      assert i < |Run(front)| by { PrefixIsShorter(front, k); assert front[..k] == events[..k]; }
      forall j: nat, time | j < k
        ensures !ResolvedBy(front, i, j, time)
      {
        BySnoc(front, e, i, j, time);
      }
      ResolvedAtFirstRequest(front, i, k, at);
    } else {
      forall j: nat, time
        ensures !ResolvedBy(front, i, j, time)
      {
        BySnoc(front, e, i, j, time);
      }
      StatusFollowsRequests(front, i);
    }
  }

  // ---------- The table as the services update it ----------

  class AlertTable {
    var rows: seq<Alert>
    ghost var events: seq<Event>

    ghost predicate Valid()
      reads this
    {
      rows == Run(events)
    }

    constructor ()
      ensures Valid() && events == []
    {
      rows := [];
      events := [];
    }

    method UpsertOpenAlert(v: Violation)
      requires Valid()
      modifies this
      ensures Valid() && events == old(events) + [Violated(v)]
      ensures rows == Upsert(old(rows), v)
    {
      var open := FindOpen(rows, v.subject);
      if open.Some? {
        rows := rows[open.value := rows[open.value].(value := v.value)];
      } else {
        rows := rows + [Alert(v.subject, v.policy, v.value, Open, v.at, None)];
      }
      events := events + [Violated(v)];
      assert events[..|events| - 1] == old(events);
    }

    method AcknowledgeAlert(id: nat) returns (reply: Reply)
      requires Valid()
      modifies this
      ensures Valid() && events == old(events) + [AcknowledgeRequest(id)]
      ensures (rows, reply) == Acknowledge(old(rows), id)
      ensures reply == if id >= |old(rows)| then NotFound else if old(rows)[id].status == Resolved then InvalidTransition else Done
    {
      if id >= |rows| {
        reply := NotFound;
      } else if rows[id].status.Acknowledged? {
        reply := Done;
      } else if rows[id].status.Resolved? {
        reply := InvalidTransition;
      } else {
        rows := rows[id := rows[id].(status := Acknowledged)];
        reply := Done;
      }
      events := events + [AcknowledgeRequest(id)];
      assert events[..|events| - 1] == old(events);
    }

    method ResolveAlert(id: nat, at: Time) returns (reply: Reply)
      requires Valid()
      modifies this
      ensures Valid() && events == old(events) + [ResolveRequest(id, at)]
      ensures (rows, reply) == Resolve(old(rows), id, at)
      ensures reply == if id >= |old(rows)| then NotFound else Done
    {
      if id >= |rows| {
        reply := NotFound;
      } else if rows[id].status.Resolved? {
        reply := Done;
      } else {
        rows := rows[id := rows[id].(status := Resolved, resolvedAt := Some(at))];
        reply := Done;
      }
      events := events + [ResolveRequest(id, at)];
      assert events[..|events| - 1] == old(events);
    }
  }
}
