/** When the terminal status of an order is final. */
module OrderFinality {
  import opened Prelude
  import opened Commands
  import opened Orders
  import opened Saga
  import opened OrderProtocol
  import opened OrderOutcomes
  import opened OrderDelivery
  import CommandCaching

  ghost predicate SomethingToUndo(ctx: Ctx, results: seq<StepResult>) {
    exists i :: ToUndo(ctx, results, i)
  }

  /** A failed order is brought back by whatever has not failed yet, unless its outcome is bound to be FAILED. */
  ghost predicate Revives(w: Worker) {
    match w
    case Validated(_, _) => true
    case Started(_, _) => true
    case Answered(_, ctx, results) =>
      if Verdicts(ctx, results).needsRollback then SomethingToUndo(ctx, results) else !Verdicts(ctx, results).status.Failed?
    case Compensating(_, ctx, results) => SomethingToUndo(ctx, results)
    case Prepared(_, _, _, _) => true
    case Finishing(_, final) => final != Failed
    case _ => false
  }

  /** Any other status is overwritten by whatever can still fail, or is bound to write another one. */
  predicate Overwrites(w: Worker, status: Status) {
    match w
    case Finishing(_, final) => final != status || final == RolledBack
    case Materializing(_) => false
    case Escaped(_) => false
    case Done => false
    case _ => true
  }

  /** The delivery can still write another status over the order's. */
  ghost predicate Threatens(w: Worker, o: Id, status: Status) {
    !w.Done? && w.order == o && if status.Failed? then Revives(w) else Overwrites(w, status)
  }

  ghost predicate Settled(s: State, o: Id)
    requires o in s.orders
  {
    forall d | d in s.workers :: !Threatens(s.workers[d], o, s.orders[o].status)
  }

  /** No new delivery of the order reaches a worker. */
  predicate Undelivered(events: seq<Event>, o: Id) {
    forall e | e in events :: e.Deliver? ==> e.order != o
  }

  ghost predicate Final(s: State, o: Id)
    requires o in s.orders
  {
    forall events: seq<Event> | Undelivered(events, o) ::
      o in Run(s, events).orders && Run(s, events).orders[o].status == s.orders[o].status
  }

  ghost predicate Kept(s: State, t: State, o: Id) {
    && o in s.orders && o in t.orders && t.orders[o].status == s.orders[o].status
    && (forall d | d in t.workers :: Threatens(t.workers[d], o, t.orders[o].status) ==>
          d in s.workers && Threatens(s.workers[d], o, s.orders[o].status))
  }

  ghost predicate Quiet(s: State, o: Id) {
    o in s.orders && !Active(s.orders[o].status) && Settled(s, o)
  }

  /** The step of a delivery of another order. */
  lemma ElsewhereKeeps(s: State, t: State, d: Id, o: Id)
    requires Quiet(s, o) && Progress(s, t, d) && d in s.workers && !s.workers[d].Done? && s.workers[d].order != o
    ensures Kept(s, t, o)
  {
  }

  lemma ValidateKeeps(s: State, d: Id, readout: Readout, o: Id)
    requires Quiet(s, o) && d in s.workers && s.workers[d] == Received(o)
    ensures Kept(s, DoValidate(s, d, readout), o)
  {
    assert DoValidate(s, d, readout) == Move(s, d, AfterInconclusive(s, o, readout));
  }

  lemma MarkFinishedKeeps(s: State, d: Id, ok: bool, o: Id)
    requires Quiet(s, o) && d in s.workers && s.workers[d].Finishing? && s.workers[d].order == o
    ensures Kept(s, DoMarkFinished(s, d, ok), o)
  {
  }

  lemma MarkFailedKeeps(s: State, d: Id, ok: bool, o: Id)
    requires Quiet(s, o) && d in s.workers && s.workers[d] == Failing(o)
    ensures Kept(s, DoMarkFailed(s, d, ok), o)
  {
  }

  lemma MaterializeKeeps(s: State, d: Id, newOnu: Id, ok: bool, o: Id)
    requires Quiet(s, o)
    ensures Kept(s, DoMaterialize(s, d, newOnu, ok), o)
  {
  }

  lemma PersistKeeps(s: State, d: Id, ok: bool, o: Id)
    requires Quiet(s, o) && d in s.workers && s.workers[d].Answered? && s.workers[d].order == o
    ensures Kept(s, DoPersist(s, d, ok), o)
  {
    var w := s.workers[d];
    assert !Threatens(w, o, s.orders[o].status);
    assert !Threatens(AfterPersist(o, w.ctx, w.results), o, s.orders[o].status);
  }

  lemma PlanUndoKeeps(s: State, d: Id, template: Option<Template>, sight: Sight, o: Id)
    requires Quiet(s, o) && d in s.workers && s.workers[d].Compensating? && s.workers[d].order == o
    ensures Kept(s, DoPlanUndo(s, d, template, sight), o)
  {
    var w := s.workers[d];
    assert !Threatens(w, o, s.orders[o].status);
    if template.Some? {
      SendableIff(w, template.value, sight, UndoVars(s, o, template));
    }
    assert !GoesOut(PlanNow(s, w, template, sight));
    assert DoPlanUndo(s, d, template, sight) == Abandon(s, d, o, w.ctx, w.results);
  }

  lemma WorkerKeeps(s: State, e: Event, o: Id)
    requires Quiet(s, o) && OfWorker(e)
    ensures Kept(s, ExecWorker(s, e), o)
  {
    if e.d in s.workers && !s.workers[e.d].Done? {
      if s.workers[e.d].order != o {
        WorkerProgress(s, e);
        ElsewhereKeeps(s, ExecWorker(s, e), e.d, o);
      } else {
        OwnKeeps(s, e, o);
      }
    }
  }

  /** A delivery of the order itself that does not threaten its status. */
  lemma OwnKeeps(s: State, e: Event, o: Id)
    requires Quiet(s, o) && OfWorker(e) && e.d in s.workers && !s.workers[e.d].Done? && s.workers[e.d].order == o
    ensures Kept(s, ExecWorker(s, e), o)
  {
    var w := s.workers[e.d];
    assert !Threatens(w, o, s.orders[o].status);
    if e.Validate? && w.Received? { ValidateKeeps(s, e.d, e.readout, o); }
    else if e.MarkFinished? && w.Finishing? { MarkFinishedKeeps(s, e.d, e.ok, o); }
    else if e.MarkFailed? && w.Failing? { MarkFailedKeeps(s, e.d, e.ok, o); }
    else if e.Persist? && w.Answered? { PersistKeeps(s, e.d, e.ok, o); }
    else if e.PlanUndo? && w.Compensating? { PlanUndoKeeps(s, e.d, e.template, e.sight, o); }
    else if e.Materialize? { MaterializeKeeps(s, e.d, e.newOnu, e.ok, o); }
  }

  lemma CancelKeeps(s: State, p: Id, o: Id)
    requires Quiet(s, o)
    ensures Kept(s, DoCancel(s, p), o)
  {
  }

  lemma DeliverKeeps(s: State, d: Id, p: Id, o: Id)
    requires Quiet(s, o) && (p != o || s.orders[o].status == Failed)
    ensures Kept(s, DoDeliver(s, d, p), o)
  {
  }

  lemma CrashKeeps(s: State, d: Id, o: Id)
    requires Quiet(s, o)
    ensures Kept(s, DoCrash(s, d), o)
  {
  }

  lemma StepKeepsSettled(s: State, e: Event, o: Id)
    requires Quiet(s, o) && (e.Deliver? ==> e.order != o || s.orders[o].status == Failed)
    ensures Kept(s, Exec(s, e), o)
  {
    if OfWorker(e) { WorkerKeeps(s, e, o); }
    else if e.Insert? { InsertKeepsStatus(s, e.r, e.id, o); }
    else if e.Cancel? { CancelKeeps(s, e.order, o); }
    else if e.Deliver? { DeliverKeeps(s, e.d, e.order, o); }
    else if e.Crash? { CrashKeeps(s, e.d, o); }
  }

  lemma InsertKeepsStatus(s: State, r: Id, id: Id, o: Id)
    requires o in s.orders
    ensures var t := DoInsert(s, r, id); o in t.orders && t.orders[o] == s.orders[o] && t.workers == s.workers
  {
    if Inserting(s, r, id) && CreationOf(s, r).Created? {
      EnterEvolves(s, r, id);
    }
  }

  lemma {:induction false} RunKeepsSettled(s: State, events: seq<Event>, o: Id)
    requires o in s.orders && !Active(s.orders[o].status) && Settled(s, o)
    requires Undelivered(events, o) || s.orders[o].status == Failed
    ensures o in Run(s, events).orders && Run(s, events).orders[o].status == s.orders[o].status
    decreases |events|
  {
    if events != [] {
      assert events[0] in events;
      StepKeepsSettled(s, events[0], o);
      assert Undelivered(events, o) ==> Undelivered(events[1..], o);
      RunKeepsSettled(Exec(s, events[0]), events[1..], o);
    }
  }

  /** How the delivery gets to its failure exit; only the closing steps have none. */
  function Stumble(d: Id, w: Worker): Event {
    match w
    case Received(_) => Validate(d, Unreadable)
    case Validated(_, _) => MarkRunning(d, false)
    case Started(_, _) => Provision(d, Reply([], true))
    case Answered(_, _, _) => Persist(d, false)
    case Compensating(_, _, _) => PlanUndo(d, None, Sight(None, map[]))
    case Prepared(_, _, _, _) => Deprovision(d, Reply([], true), true)
    case _ => MarkFinished(d, false)
  }

  predicate Stumbled(s: State, d: Id, o: Id, rows: Rows) {
    s.orders == rows && d in s.workers && s.workers[d] == Failing(o)
  }

  lemma EarlyStumble(s: State, d: Id)
    requires d in s.workers && (s.workers[d].Received? || s.workers[d].Validated? || s.workers[d].Started?)
    ensures Stumbled(ExecWorker(s, Stumble(d, s.workers[d])), d, s.workers[d].order, s.orders)
  {
  }

  lemma LateStumble(s: State, d: Id)
    requires d in s.workers
    requires s.workers[d].Answered? || s.workers[d].Compensating? || s.workers[d].Prepared?
             || (s.workers[d].Finishing? && s.workers[d].status == RolledBack)
    ensures Stumbled(ExecWorker(s, Stumble(d, s.workers[d])), d, s.workers[d].order, s.orders)
  {
    if s.workers[d].Answered? || s.workers[d].Finishing? { WriteStumble(s, d); } else { RollbackStumble(s, d); }
  }

  lemma WriteStumble(s: State, d: Id)
    requires d in s.workers && (s.workers[d].Answered? || (s.workers[d].Finishing? && s.workers[d].status == RolledBack))
    ensures Stumbled(ExecWorker(s, Stumble(d, s.workers[d])), d, s.workers[d].order, s.orders)
  {
  }

  lemma RollbackStumble(s: State, d: Id)
    requires d in s.workers && (s.workers[d].Compensating? || s.workers[d].Prepared?)
    ensures Stumbled(ExecWorker(s, Stumble(d, s.workers[d])), d, s.workers[d].order, s.orders)
  {
  }

  lemma FailingLands(s: State, d: Id, o: Id)
    requires o in s.orders && d in s.workers && s.workers[d] == Failing(o)
    ensures o in DoMarkFailed(s, d, true).orders && DoMarkFailed(s, d, true).orders[o].status == Failed
  {
  }

  lemma FinishingLands(s: State, d: Id, o: Id)
    requires o in s.orders && d in s.workers && s.workers[d].Finishing? && s.workers[d].order == o
    ensures o in DoMarkFinished(s, d, true).orders && DoMarkFinished(s, d, true).orders[o].status == s.workers[d].status
  {
  }

  lemma RunOne(s: State, e: Event)
    ensures Run(s, [e]) == Exec(s, e)
  {
    assert Run(s, [e]) == Run(Exec(s, e), []);
  }

  lemma RunTwo(s: State, e: Event, f: Event)
    ensures Run(s, [e, f]) == Exec(Exec(s, e), f)
  {
    assert [e, f][1..] == [f];
    RunOne(Exec(s, e), f);
  }

  lemma FailAfter(s: State, e: Event, d: Id, o: Id)
    requires o in s.orders && Stumbled(Exec(s, e), d, o, s.orders)
    ensures var t := Run(s, [e, MarkFailed(d, true)]); o in t.orders && t.orders[o].status == Failed
  {
    RunTwo(s, e, MarkFailed(d, true));
    FailingLands(Exec(s, e), d, o);
  }

  lemma WorkerEvent(s: State, e: Event)
    requires OfWorker(e)
    ensures Exec(s, e) == ExecWorker(s, e)
  {
  }

  /** A threat can be carried out without any new delivery. */
  lemma ThreatCanStrike(s: State, d: Id, o: Id) returns (events: seq<Event>)
    requires o in s.orders && !Active(s.orders[o].status) && s.orders[o].status != Failed
    requires d in s.workers && Threatens(s.workers[d], o, s.orders[o].status)
    ensures Undelivered(events, o)
    ensures o in Run(s, events).orders && Run(s, events).orders[o].status != s.orders[o].status
  {
    var w := s.workers[d];
    if w.Failing? || (w.Finishing? && w.status != s.orders[o].status) {
      events := ClosingStrikes(s, d, o);
    } else {
      events := [Stumble(d, w), MarkFailed(d, true)];
      StumbleStrikes(s, d, o);
    }
  }

  lemma ClosingStrikes(s: State, d: Id, o: Id) returns (events: seq<Event>)
    requires o in s.orders && s.orders[o].status != Failed && d in s.workers
    requires s.workers[d] == Failing(o) || (s.workers[d].Finishing? && s.workers[d].order == o && s.workers[d].status != s.orders[o].status)
    ensures Undelivered(events, o)
    ensures o in Run(s, events).orders && Run(s, events).orders[o].status != s.orders[o].status
  {
    if s.workers[d].Failing? {
      events := [MarkFailed(d, true)];
      RunOne(s, MarkFailed(d, true));
      FailingLands(s, d, o);
    } else {
      events := [MarkFinished(d, true)];
      RunOne(s, MarkFinished(d, true));
      FinishingLands(s, d, o);
    }
  }

  lemma StumbleStrikes(s: State, d: Id, o: Id)
    requires o in s.orders && d in s.workers && !s.workers[d].Done? && s.workers[d].order == o
    requires var w := s.workers[d];
             || w.Received? || w.Validated? || w.Started? || w.Answered? || w.Compensating? || w.Prepared?
             || (w.Finishing? && w.status == RolledBack)
    ensures var t := Run(s, [Stumble(d, s.workers[d]), MarkFailed(d, true)]); o in t.orders && t.orders[o].status == Failed
  {
    var w := s.workers[d];
    if w.Received? || w.Validated? || w.Started? { EarlyStumble(s, d); } else { LateStumble(s, d); }
    WorkerEvent(s, Stumble(d, w));
    FailAfter(s, Stumble(d, w), d, o);
  }

  // ---------- Reviving a failed order ----------

  /** The events, none of which delivers the order anew, give it a status other than FAILED. */
  ghost predicate Revived(s: State, o: Id, events: seq<Event>) {
    Undelivered(events, o) && o in Run(s, events).orders && Run(s, events).orders[o].status != Failed
  }

  lemma Prepend(s: State, e: Event, rest: seq<Event>, o: Id)
    requires OfWorker(e) && Revived(ExecWorker(s, e), o, rest)
    ensures Revived(s, o, [e] + rest)
  {
    RunStep(s, e, rest);
  }

  lemma FinishingRevives(s: State, d: Id, o: Id, final: FinalStatus) returns (events: seq<Event>)
    requires Stands(s, d, Finishing(o, final)) && final != Failed
    ensures Revived(s, o, events)
  {
    events := [MarkFinished(d, true)] + [];
    var _ := MarkFinishedRun(s, d, o, final, []);
  }

  lemma PreparedRevives(s: State, d: Id, o: Id, ctx: Ctx, results: seq<StepResult>, undo: Undo) returns (events: seq<Event>)
    requires Stands(s, d, Prepared(o, ctx, results, undo))
    ensures Revived(s, o, events)
  {
    var reply := Reply([], false);
    DeprovisionLands(s, d, o, ctx, results, undo, reply);
    var rest := FinishingRevives(DoDeprovision(s, d, reply, true), d, o, RolledBack);
    Prepend(s, Deprovision(d, reply, true), rest, o);
    events := [Deprovision(d, reply, true)] + rest;
  }

  /** A catalogue row that renders whatever the variables. */
  function Blank(key: string): CommandRow {
    CommandRow(0, 0, None, key, None, true, [], None, 0, false)
  }

  /** Listings in which every step up to n finds such a row for its rollback command. */
  function Everything(ctx: Ctx, n: nat): map<nat, seq<CommandRow>> {
    if n == 0 then map[] else Everything(ctx, n - 1)[n := [Blank(RollbackKey(KeysOf(ctx), ctx.template.rollbackMap, n))]]
  }

  lemma BlankAnswers(key: string)
    ensures IsListed([Blank(key)], 0, key) && Query([Blank(key)], None, None) == Some(Build(Blank(key)))
  {
    var rows := [Blank(key)];
    assert Window(rows) == rows && Serves(rows[0], None, None);
    assert FirstServing(rows, None, None) == Some(rows[0]);
  }

  lemma {:induction false} EverythingResolves(t: Template, ctx: Ctx, n: nat, i: nat, vars: Variables)
    requires 1 <= i <= n && t.manufacturer == 0 && t.version.None?
    ensures Resolvable(t, Sight(None, Everything(ctx, n)), ctx, i, vars)
  {
    if i < n {
      EverythingResolves(t, ctx, n - 1, i, vars);
    } else {
      BlankAnswers(RollbackKey(KeysOf(ctx), ctx.template.rollbackMap, n));
    }
  }

  lemma CompensatingRevives(s: State, d: Id, o: Id, ctx: Ctx, results: seq<StepResult>) returns (events: seq<Event>)
    requires Stands(s, d, Compensating(o, ctx, results)) && SomethingToUndo(ctx, results)
    ensures Revived(s, o, events)
  {
    var undo := EverythingUndoes(s, d, o, ctx, results);
    PlanUndoLands(s, d, o, ctx, results, undo.template, undo.sight, undo);
    var rest := PreparedRevives(DoPlanUndo(s, d, Some(undo.template), undo.sight), d, o, ctx, results, undo);
    Prepend(s, PlanUndo(d, Some(undo.template), undo.sight), rest, o);
    events := [PlanUndo(d, Some(undo.template), undo.sight)] + rest;
  }

  /** Some template and catalogue let the compensation go out. */
  lemma EverythingUndoes(s: State, d: Id, o: Id, ctx: Ctx, results: seq<StepResult>) returns (undo: Undo)
    requires Stands(s, d, Compensating(o, ctx, results)) && SomethingToUndo(ctx, results)
    ensures CanUndo(s, o, ctx, results, undo.template, undo.sight, undo)
  {
    var template := Template(true, 0, None, [], [], map[], map[]);
    var sight := Sight(None, Everything(ctx, |results|));
    var vars := Context(template.commandVars, s.orders[o].snapshot);
    forall i | ToUndo(ctx, results, i)
      ensures Resolvable(template, sight, ctx, i, vars)
    {
      EverythingResolves(template, ctx, |results|, i, vars);
    }
    SendableIff(s.workers[d], template, sight, vars);
    undo := Undo(UndoPlan(ctx, results, template, sight, vars).commands, template, sight, vars);
  }

  lemma AnsweredRevives(s: State, d: Id, o: Id, ctx: Ctx, results: seq<StepResult>) returns (events: seq<Event>)
    requires Stands(s, d, Answered(o, ctx, results)) && Revives(Answered(o, ctx, results))
    ensures Revived(s, o, events)
  {
    var t := DoPersist(s, d, true);
    assert Stands(t, d, AfterPersist(o, ctx, results));
    var rest;
    if Verdicts(ctx, results).needsRollback {
      rest := CompensatingRevives(t, d, o, ctx, results);
    } else {
      rest := FinishingRevives(t, d, o, Verdicts(ctx, results).status);
    }
    Prepend(s, Persist(d, true), rest, o);
    events := [Persist(d, true)] + rest;
  }

  lemma StartedRevives(s: State, d: Id, o: Id, ctx: Ctx) returns (events: seq<Event>)
    requires Stands(s, d, Started(o, ctx))
    ensures Revived(s, o, events)
  {
    ProvisionLands(s, d, o, ctx, []);
    VerdictsMean(ctx, []);
    var rest := AnsweredRevives(DoProvision(s, d, Reply([], false)), d, o, ctx, []);
    Prepend(s, Provision(d, Reply([], false)), rest, o);
    events := [Provision(d, Reply([], false))] + rest;
  }

  lemma ValidatedRevives(s: State, d: Id, o: Id, ctx: Ctx) returns (events: seq<Event>)
    requires Stands(s, d, Validated(o, ctx)) && !Clashes(s.orders, o)
    ensures Revived(s, o, events)
  {
    MarkRunningLands(s, d, o, ctx);
    var rest := StartedRevives(DoMarkRunning(s, d, true), d, o, ctx);
    Prepend(s, MarkRunning(d, true), rest, o);
    events := [MarkRunning(d, true)] + rest;
  }

  lemma UnusedId(ids: set<Id>) returns (x: Id)
    ensures forall i | i in ids :: i < x
  {
    x := 0;
    var todo := ids;
    while todo != {}
      invariant todo <= ids && forall i | i in ids && i !in todo :: i < x
    {
      var i :| i in todo;
      x := if i < x then x else i + 1;
      todo := todo - {i};
    }
  }

  /** The active order that stands in the way can be failed by a delivery of its own. */
  lemma ClearTheWay(s: State, d: Id, o: Id, ctx: Ctx, q: Id, x: Id) returns (t: State)
    requires Stands(s, d, Validated(o, ctx)) && !Active(s.orders[o].status) && OneActivePerOnu(s.orders)
    requires q in s.orders && q != o && s.orders[q].onu == s.orders[o].onu && s.orders[o].onu.Some? && Active(s.orders[q].status)
    requires x !in s.workers
    ensures t == s.(workers := s.workers[x := Done], orders := WithStatus(s.orders, q, Failed))
    ensures t == DoMarkFailed(DoValidate(DoDeliver(s, x, q), x, Unreadable), x, true)
    ensures Stands(t, d, Validated(o, ctx)) && !Clashes(t.orders, o)
  {
    t := s.(workers := s.workers[x := Done], orders := WithStatus(s.orders, q, Failed));
    var a := DoDeliver(s, x, q);
    var b := DoValidate(a, x, Unreadable);
    assert b == Move(a, x, Failing(q));
    assert a.workers[x := Failing(q)][x := Done] == s.workers[x := Done];
  }

  lemma RunDeliver(s: State, x: Id, q: Id, rest: seq<Event>)
    ensures Run(s, [Deliver(x, q)] + rest) == Run(DoDeliver(s, x, q), rest)
  {
    assert ([Deliver(x, q)] + rest)[1..] == rest;
  }

  lemma FailedByThen(a: State, x: Id, t: State, rest: seq<Event>, o: Id)
    requires t == DoMarkFailed(DoValidate(a, x, Unreadable), x, true) && Revived(t, o, rest)
    ensures Revived(a, o, [Validate(x, Unreadable)] + ([MarkFailed(x, true)] + rest))
  {
    Prepend(DoValidate(a, x, Unreadable), MarkFailed(x, true), rest, o);
    Prepend(a, Validate(x, Unreadable), [MarkFailed(x, true)] + rest, o);
  }

  lemma BlockedRevives(s: State, d: Id, o: Id, ctx: Ctx) returns (events: seq<Event>)
    requires Stands(s, d, Validated(o, ctx)) && Clashes(s.orders, o)
    requires !Active(s.orders[o].status) && OneActivePerOnu(s.orders)
    ensures Revived(s, o, events)
  {
    var q :| q in s.orders && q != o && s.orders[q].onu == s.orders[o].onu && Active(s.orders[q].status);
    var x := UnusedId(s.workers.Keys);
    assert x !in s.workers;
    var t := ClearTheWay(s, d, o, ctx, q, x);
    var rest := ValidatedRevives(t, d, o, ctx);
    var a := DoDeliver(s, x, q);
    FailedByThen(a, x, t, rest, o);
    RunDeliver(s, x, q, [Validate(x, Unreadable)] + ([MarkFailed(x, true)] + rest));
    events := [Deliver(x, q)] + ([Validate(x, Unreadable)] + ([MarkFailed(x, true)] + rest));
  }

  lemma ThreatRevives(s: State, d: Id, o: Id) returns (events: seq<Event>)
    requires o in s.orders && s.orders[o].status == Failed && OneActivePerOnu(s.orders)
    requires d in s.workers && Threatens(s.workers[d], o, Failed)
    ensures Revived(s, o, events)
  {
    match s.workers[d]
    case Validated(_, ctx) =>
      if Clashes(s.orders, o) { events := BlockedRevives(s, d, o, ctx); } else { events := ValidatedRevives(s, d, o, ctx); }
    case Started(_, ctx) => events := StartedRevives(s, d, o, ctx);
    case Answered(_, ctx, results) => events := AnsweredRevives(s, d, o, ctx, results);
    case Compensating(_, ctx, results) => events := CompensatingRevives(s, d, o, ctx, results);
    case Prepared(_, ctx, results, undo) => events := PreparedRevives(s, d, o, ctx, results, undo);
    case Finishing(_, final) => events := FinishingRevives(s, d, o, final);
  }

  /**
   * Terminal statuses are not final under every interleaving. Without new deliveries of the order, its terminal status
   * is final exactly when no delivery in flight threatens it.
   */
  lemma FinalIffSettled(s: State, o: Id)
    requires o in s.orders && !Active(s.orders[o].status) && OneActivePerOnu(s.orders)
    ensures Final(s, o) <==> Settled(s, o)
  {
    if Settled(s, o) {
      forall events: seq<Event> | Undelivered(events, o)
        ensures o in Run(s, events).orders && Run(s, events).orders[o].status == s.orders[o].status
      {
        RunKeepsSettled(s, events, o);
      }
    } else {
      var d :| d in s.workers && Threatens(s.workers[d], o, s.orders[o].status);
      var events;
      if s.orders[o].status == Failed { events := ThreatRevives(s, d, o); } else { events := ThreatCanStrike(s, d, o); }
      assert !Final(s, o);
    }
  }

  // ---------- With new deliveries ----------

  /** The status stays what it is in every continuation, new deliveries of the order included. */
  ghost predicate Irrevocable(s: State, o: Id)
    requires o in s.orders
  {
    forall events: seq<Event> :: o in Run(s, events).orders && Run(s, events).orders[o].status == s.orders[o].status
  }

  /** A new delivery can always fail before it has read the order, and so make it FAILED. */
  lemma DeliveryFails(s: State, o: Id) returns (events: seq<Event>)
    requires o in s.orders
    ensures o in Run(s, events).orders && Run(s, events).orders[o].status == Failed
  {
    var x := UnusedId(s.workers.Keys);
    assert x !in s.workers;
    var a := DoDeliver(s, x, o);
    var e := Validate(x, Unreadable);
    EarlyStumble(a, x);
    WorkerEvent(a, e);
    FailAfter(a, e, x, o);
    RunDeliver(s, x, o, [e, MarkFailed(x, true)]);
    events := [Deliver(x, o)] + [e, MarkFailed(x, true)];
  }

  /** With duplicate deliveries, FAILED is the only status that can be final, exactly when no delivery in flight revives the order. */
  lemma IrrevocableIff(s: State, o: Id)
    requires o in s.orders && !Active(s.orders[o].status) && OneActivePerOnu(s.orders)
    ensures Irrevocable(s, o) <==>
            s.orders[o].status == Failed && forall d | d in s.workers && s.workers[d] != Done && s.workers[d].order == o :: !Revives(s.workers[d])
  {
    if s.orders[o].status != Failed {
      var events := DeliveryFails(s, o);
      assert !Irrevocable(s, o);
    } else if Settled(s, o) {
      forall events: seq<Event>
        ensures o in Run(s, events).orders && Run(s, events).orders[o].status == s.orders[o].status
      {
        RunKeepsSettled(s, events, o);
      }
    } else {
      var d :| d in s.workers && Threatens(s.workers[d], o, Failed);
      var events := ThreatRevives(s, d, o);
      assert !Irrevocable(s, o);
    }
  }

  // ---------- Leaving the terminal statuses ----------

  /** No delivery in flight is about to set the order running. */
  predicate NotStarting(s: State, p: Id) {
    forall d | d in s.workers && s.workers[d].Validated? :: s.workers[d].order != p
  }

  ghost predicate Ended(s: State, p: Id) {
    p in s.orders && !Active(s.orders[p].status) && NotStarting(s, p)
  }

  lemma ElsewhereEnds(s: State, t: State, d: Id, p: Id)
    requires Ended(s, p) && Progress(s, t, d) && d in s.workers && !s.workers[d].Done? && s.workers[d].order != p
    ensures Ended(t, p)
  {
  }

  lemma ValidateEnds(s: State, d: Id, readout: Readout, p: Id)
    requires Ended(s, p) && d in s.workers && s.workers[d] == Received(p)
    ensures Ended(DoValidate(s, d, readout), p)
  {
    assert DoValidate(s, d, readout) == Move(s, d, AfterInconclusive(s, p, readout));
  }

  lemma MaterializeEnds(s: State, d: Id, newOnu: Id, ok: bool, p: Id)
    requires Ended(s, p)
    ensures Ended(DoMaterialize(s, d, newOnu, ok), p)
  {
  }

  lemma ProvisionEnds(s: State, d: Id, reply: Reply, p: Id)
    requires Ended(s, p)
    ensures Ended(DoProvision(s, d, reply), p)
  {
  }

  lemma PersistEnds(s: State, d: Id, ok: bool, p: Id)
    requires Ended(s, p)
    ensures Ended(DoPersist(s, d, ok), p)
  {
  }

  lemma PlanUndoEnds(s: State, d: Id, template: Option<Template>, sight: Sight, p: Id)
    requires Ended(s, p)
    ensures Ended(DoPlanUndo(s, d, template, sight), p)
  {
  }

  lemma DeprovisionEnds(s: State, d: Id, reply: Reply, recorded: bool, p: Id)
    requires Ended(s, p)
    ensures Ended(DoDeprovision(s, d, reply, recorded), p)
  {
  }

  lemma MarkFinishedEnds(s: State, d: Id, ok: bool, p: Id)
    requires Ended(s, p)
    ensures Ended(DoMarkFinished(s, d, ok), p)
  {
  }

  lemma MarkFailedEnds(s: State, d: Id, ok: bool, p: Id)
    requires Ended(s, p)
    ensures Ended(DoMarkFailed(s, d, ok), p)
  {
  }

  lemma OwnEnds(s: State, e: Event, p: Id)
    requires Ended(s, p) && OfWorker(e) && e.d in s.workers && !s.workers[e.d].Done? && s.workers[e.d].order == p
    ensures Ended(ExecWorker(s, e), p)
  {
    match e
    case Validate(d, readout) => if s.workers[d].Received? { ValidateEnds(s, d, readout, p); }
    case MarkRunning(_, _) =>
    case Provision(d, reply) => ProvisionEnds(s, d, reply, p);
    case Persist(d, ok) => PersistEnds(s, d, ok, p);
    case PlanUndo(d, template, sight) => PlanUndoEnds(s, d, template, sight, p);
    case Deprovision(d, reply, recorded) => DeprovisionEnds(s, d, reply, recorded, p);
    case MarkFinished(d, ok) => MarkFinishedEnds(s, d, ok, p);
    case MarkFailed(d, ok) => MarkFailedEnds(s, d, ok, p);
    case Materialize(d, newOnu, ok) => MaterializeEnds(s, d, newOnu, ok, p);
  }

  lemma StepKeepsEnded(s: State, e: Event, p: Id)
    requires Ended(s, p)
    ensures Ended(Exec(s, e), p)
  {
    if OfWorker(e) { WorkerEnds(s, e, p); }
    else if e.Insert? { InsertKeepsStatus(s, e.r, e.id, p); }
    else if e.Cancel? { CancelEnds(s, e.order, p); }
    else if e.Deliver? { DeliverEnds(s, e.d, e.order, p); }
    else if e.Crash? { CrashEnds(s, e.d, p); }
  }

  lemma WorkerEnds(s: State, e: Event, p: Id)
    requires Ended(s, p) && OfWorker(e)
    ensures Ended(ExecWorker(s, e), p)
  {
    if e.d in s.workers && !s.workers[e.d].Done? {
      if s.workers[e.d].order == p {
        OwnEnds(s, e, p);
      } else {
        WorkerProgress(s, e);
        ElsewhereEnds(s, ExecWorker(s, e), e.d, p);
      }
    }
  }

  lemma DeliverEnds(s: State, d: Id, o: Id, p: Id)
    requires Ended(s, p)
    ensures Ended(DoDeliver(s, d, o), p)
  {
  }

  lemma CrashEnds(s: State, d: Id, p: Id)
    requires Ended(s, p)
    ensures Ended(DoCrash(s, d), p)
  {
  }

  lemma CancelEnds(s: State, o: Id, p: Id)
    requires Ended(s, p)
    ensures Ended(DoCancel(s, o), p)
  {
  }

  lemma {:induction false} RunKeepsEnded(s: State, events: seq<Event>, p: Id)
    requires Ended(s, p)
    ensures Ended(Run(s, events), p)
    decreases |events|
  {
    if events != [] {
      StepKeepsEnded(s, events[0], p);
      RunKeepsEnded(Exec(s, events[0]), events[1..], p);
    }
  }

  ghost predicate TerminalForever(s: State, p: Id) {
    forall events: seq<Event> :: p in Run(s, events).orders && !Active(Run(s, events).orders[p].status)
  }

  lemma StartMarkRuns(s: State, d: Id, p: Id, ctx: Ctx) returns (events: seq<Event>)
    requires Stands(s, d, Validated(p, ctx)) && !Clashes(s.orders, p)
    ensures p in Run(s, events).orders && Run(s, events).orders[p].status == Running
  {
    MarkRunningLands(s, d, p, ctx);
    var t := MarkRunningRun(s, d, p, ctx, []);
    events := [MarkRunning(d, true)] + [];
    assert t == DoMarkRunning(s, d, true) by { RunStep(s, MarkRunning(d, true), []); }
  }

  lemma UnreadableRun(a: State, x: Id, rest: seq<Event>)
    ensures Run(a, [Validate(x, Unreadable)] + ([MarkFailed(x, true)] + rest)) ==
            Run(DoMarkFailed(DoValidate(a, x, Unreadable), x, true), rest)
  {
    var b := DoValidate(a, x, Unreadable);
    RunStep(a, Validate(x, Unreadable), [MarkFailed(x, true)] + rest);
    RunStep(b, MarkFailed(x, true), rest);
  }

  lemma ClearRun(s: State, x: Id, q: Id, t: State, rest: seq<Event>)
    requires t == DoMarkFailed(DoValidate(DoDeliver(s, x, q), x, Unreadable), x, true)
    ensures Run(s, [Deliver(x, q)] + ([Validate(x, Unreadable)] + ([MarkFailed(x, true)] + rest))) == Run(t, rest)
  {
    RunDeliver(s, x, q, [Validate(x, Unreadable)] + ([MarkFailed(x, true)] + rest));
    UnreadableRun(DoDeliver(s, x, q), x, rest);
  }

  lemma ValidatedRuns(s: State, d: Id, p: Id, ctx: Ctx) returns (events: seq<Event>)
    requires Stands(s, d, Validated(p, ctx)) && !Active(s.orders[p].status) && OneActivePerOnu(s.orders)
    ensures p in Run(s, events).orders && Run(s, events).orders[p].status == Running
  {
    if !Clashes(s.orders, p) {
      events := StartMarkRuns(s, d, p, ctx);
    } else {
      var q :| q in s.orders && q != p && s.orders[q].onu == s.orders[p].onu && Active(s.orders[q].status);
      var x := UnusedId(s.workers.Keys);
      assert x !in s.workers;
      var t := ClearTheWay(s, d, p, ctx, q, x);
      var rest := StartMarkRuns(t, d, p, ctx);
      ClearRun(s, x, q, t, rest);
      events := [Deliver(x, q)] + ([Validate(x, Unreadable)] + ([MarkFailed(x, true)] + rest));
    }
  }

  /**
   * A terminal order stays terminal in every continuation exactly when no delivery in flight has validated it and not yet
   * marked it running. For the source of a retry this decides whether it is still terminal when the retry is inserted.
   */
  lemma TerminalForeverIff(s: State, p: Id)
    requires p in s.orders && !Active(s.orders[p].status) && OneActivePerOnu(s.orders)
    ensures TerminalForever(s, p) <==> NotStarting(s, p)
  {
    if NotStarting(s, p) {
      forall events: seq<Event>
        ensures p in Run(s, events).orders && !Active(Run(s, events).orders[p].status)
      {
        RunKeepsEnded(s, events, p);
      }
    } else {
      var d :| d in s.workers && s.workers[d].Validated? && s.workers[d].order == p;
      var events := ValidatedRuns(s, d, p, s.workers[d].ctx);
      assert !TerminalForever(s, p);
    }
  }

  // ---------- A cancellation overwritten ----------

  lemma CancelLands(s: State, o: Id)
    requires o in s.orders && s.orders[o].status.Pending?
    ensures var t := DoCancel(s, o);
            t.workers == s.workers && o in t.canceled && o in t.orders && t.orders[o].status == Status.Canceled
  {
  }
}
