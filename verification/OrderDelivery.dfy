/** What an undisturbed delivery achieves: the counterpart of the safety results. */
module OrderDelivery {
  import opened Prelude
  import opened Commands
  import opened Orders
  import opened Saga
  import opened OrderProtocol

  /** The delivery stands at w, working on an existing order. */
  predicate Stands(s: State, d: Id, w: Worker) {
    d in s.workers && s.workers[d] == w && !w.Done? && w.order in s.orders
  }

  /** The order's status, when the order exists. */
  predicate Ends(s: State, o: Id, status: Status) {
    o in s.orders && s.orders[o].status == status
  }

  lemma RunStep(s: State, e: Event, rest: seq<Event>)
    requires OfWorker(e)
    ensures Run(s, [e] + rest) == Run(ExecWorker(s, e), rest)
  {
    assert ([e] + rest)[1..] == rest;
  }

  lemma ValidateRun(s: State, d: Id, o: Id, readout: Readout, ctx: Ctx, rest: seq<Event>) returns (t: State)
    requires Stands(s, d, Received(o)) && Lockable(s, o) && !Clashes(s.orders, o)
    requires readout.Readout? && Examine(s.orders[o], readout) == Usable(ctx)
    ensures Run(s, [Validate(d, readout)] + rest) == Run(t, rest)
    ensures Stands(t, d, Validated(o, ctx)) && !Clashes(t.orders, o) && StepsOf(t, o) == StepsOf(s, o)
    ensures t.sent == s.sent && t.undone == s.undone && t.orders[o].snapshot == s.orders[o].snapshot
  {
    t := DoValidate(s, d, readout);
    ValidateLands(s, d, o, readout, ctx);
    RunStep(s, Validate(d, readout), rest);
  }

  lemma MarkRunningRun(s: State, d: Id, o: Id, ctx: Ctx, rest: seq<Event>) returns (t: State)
    requires Stands(s, d, Validated(o, ctx)) && !Clashes(s.orders, o)
    ensures Run(s, [MarkRunning(d, true)] + rest) == Run(t, rest)
    ensures Stands(t, d, Started(o, ctx)) && StepsOf(t, o) == StepsOf(s, o)
    ensures t.sent == s.sent && t.undone == s.undone && t.orders[o].snapshot == s.orders[o].snapshot
  {
    t := DoMarkRunning(s, d, true);
    MarkRunningLands(s, d, o, ctx);
    RunStep(s, MarkRunning(d, true), rest);
  }

  lemma ProvisionRun(s: State, d: Id, o: Id, ctx: Ctx, results: seq<StepResult>, rest: seq<Event>) returns (t: State)
    requires Stands(s, d, Started(o, ctx))
    ensures Run(s, [Provision(d, Reply(results, false))] + rest) == Run(t, rest)
    ensures Stands(t, d, Answered(o, ctx, results)) && t.orders == s.orders && StepsOf(t, o) == StepsOf(s, o)
    ensures t.sent == s.sent + [o] && t.undone == s.undone && StageOf(t, o) == Sent(ctx, Reply(results, false))
  {
    t := DoProvision(s, d, Reply(results, false));
    ProvisionLands(s, d, o, ctx, results);
    RunStep(s, Provision(d, Reply(results, false)), rest);
  }

  lemma PersistRun(s: State, d: Id, o: Id, ctx: Ctx, results: seq<StepResult>, rest: seq<Event>) returns (t: State)
    requires Stands(s, d, Answered(o, ctx, results)) && StepsOf(s, o) == []
    ensures Run(s, [Persist(d, true)] + rest) == Run(t, rest)
    ensures Stands(t, d, AfterPersist(o, ctx, results)) && t.orders == s.orders
    ensures StepsOf(t, o) == RowsFor(KeysOf(ctx), results) && t.sent == s.sent && t.undone == s.undone && StageOf(t, o) == StageOf(s, o)
  {
    t := DoPersist(s, d, true);
    PersistLands(s, d, o, ctx, results);
    RunStep(s, Persist(d, true), rest);
  }

  lemma PlanUndoRun(s: State, d: Id, o: Id, ctx: Ctx, results: seq<StepResult>, template: Template, sight: Sight, undo: Undo,
                    rest: seq<Event>) returns (t: State)
    requires Stands(s, d, Compensating(o, ctx, results)) && CanUndo(s, o, ctx, results, template, sight, undo)
    ensures Run(s, [PlanUndo(d, Some(template), sight)] + rest) == Run(t, rest)
    ensures Stands(t, d, Prepared(o, ctx, results, undo)) && StepsOf(t, o) == StepsOf(s, o)
    ensures t.sent == s.sent && t.undone == s.undone
  {
    t := DoPlanUndo(s, d, Some(template), sight);
    PlanUndoLands(s, d, o, ctx, results, template, sight, undo);
    RunStep(s, PlanUndo(d, Some(template), sight), rest);
  }

  lemma DeprovisionRun(s: State, d: Id, o: Id, ctx: Ctx, results: seq<StepResult>, undo: Undo, reply: Reply, rest: seq<Event>)
    returns (t: State)
    requires Stands(s, d, Prepared(o, ctx, results, undo)) && !reply.raised && AllOk(reply.results)
    ensures Run(s, [Deprovision(d, reply, true)] + rest) == Run(t, rest)
    ensures Stands(t, d, Finishing(o, RolledBack)) && StepsOf(t, o) == StepsOf(s, o) && StageOf(t, o) == Undone(ctx, results, undo, reply)
    ensures t.sent == s.sent && t.undone == s.undone + [o]
  {
    t := DoDeprovision(s, d, reply, true);
    DeprovisionLands(s, d, o, ctx, results, undo, reply);
    RunStep(s, Deprovision(d, reply, true), rest);
  }

  lemma MarkFinishedRun(s: State, d: Id, o: Id, status: FinalStatus, rest: seq<Event>) returns (t: State)
    requires Stands(s, d, Finishing(o, status))
    ensures Run(s, [MarkFinished(d, true)] + rest) == Run(t, rest)
    ensures Ends(t, o, status) && StepsOf(t, o) == StepsOf(s, o) && StageOf(t, o) == StageOf(s, o)
    ensures t.sent == s.sent && t.undone == s.undone
    ensures d in t.workers && t.workers[d] == (if status == Success then Materializing(o) else Done)
  {
    t := DoMarkFinished(s, d, true);
    FinishLands(s, d, o, status);
    RunStep(s, MarkFinished(d, true), rest);
  }

  /** The closing update fails. */
  lemma FailedFinishRun(s: State, d: Id, o: Id, status: FinalStatus, rest: seq<Event>) returns (t: State)
    requires Stands(s, d, Finishing(o, status)) && !status.RolledBack?
    ensures Run(s, [MarkFinished(d, false)] + rest) == Run(t, rest)
    ensures Stands(t, d, Escaped(o)) && t.orders == s.orders
  {
    t := DoMarkFinished(s, d, false);
    RunStep(s, MarkFinished(d, false), rest);
  }

  lemma ValidateLands(s: State, d: Id, o: Id, readout: Readout, ctx: Ctx)
    requires Stands(s, d, Received(o)) && Lockable(s, o) && !Clashes(s.orders, o)
    requires readout.Readout? && Examine(s.orders[o], readout) == Usable(ctx)
    ensures var t := DoValidate(s, d, readout);
            && Stands(t, d, Validated(o, ctx)) && Ends(t, o, Validating) && StepsOf(t, o) == StepsOf(s, o)
            && !Clashes(t.orders, o) && t.sent == s.sent && t.undone == s.undone && t.orders[o].snapshot == s.orders[o].snapshot
  {
    assert DoValidate(s, d, readout) == Take(s, d, o, ctx);
  }

  lemma MarkRunningLands(s: State, d: Id, o: Id, ctx: Ctx)
    requires Stands(s, d, Validated(o, ctx)) && !Clashes(s.orders, o)
    ensures var t := DoMarkRunning(s, d, true);
            && Stands(t, d, Started(o, ctx)) && Ends(t, o, Running) && StepsOf(t, o) == StepsOf(s, o)
            && t.sent == s.sent && t.undone == s.undone && t.orders[o].snapshot == s.orders[o].snapshot
  {
  }

  lemma ProvisionLands(s: State, d: Id, o: Id, ctx: Ctx, results: seq<StepResult>)
    requires Stands(s, d, Started(o, ctx))
    ensures var t := DoProvision(s, d, Reply(results, false));
            && Stands(t, d, Answered(o, ctx, results)) && t.orders == s.orders && StepsOf(t, o) == StepsOf(s, o)
            && t.sent == s.sent + [o] && t.undone == s.undone && StageOf(t, o) == Sent(ctx, Reply(results, false))
  {
  }

  lemma PersistLands(s: State, d: Id, o: Id, ctx: Ctx, results: seq<StepResult>)
    requires Stands(s, d, Answered(o, ctx, results)) && StepsOf(s, o) == []
    ensures var t := DoPersist(s, d, true);
            && Stands(t, d, AfterPersist(o, ctx, results)) && t.orders == s.orders
            && StepsOf(t, o) == RowsFor(KeysOf(ctx), results) && t.sent == s.sent && t.undone == s.undone && StageOf(t, o) == StageOf(s, o)
  {
    assert [] + RowsFor(KeysOf(ctx), results) == RowsFor(KeysOf(ctx), results);
  }

  lemma FinishLands(s: State, d: Id, o: Id, status: FinalStatus)
    requires Stands(s, d, Finishing(o, status))
    ensures var t := DoMarkFinished(s, d, true);
            && Ends(t, o, status) && StepsOf(t, o) == StepsOf(s, o) && StageOf(t, o) == StageOf(s, o)
            && t.sent == s.sent && t.undone == s.undone
            && d in t.workers && t.workers[d] == (if status == Success then Materializing(o) else Done)
  {
  }

  /** The events of an undisturbed delivery up to the stored steps. */
  function Outset(d: Id, readout: Readout, results: seq<StepResult>, rest: seq<Event>): seq<Event> {
    [Validate(d, readout)] + ([MarkRunning(d, true)] + ([Provision(d, Reply(results, false))] + ([Persist(d, true)] + rest)))
  }

  lemma Launch(s: State, d: Id, o: Id, readout: Readout, ctx: Ctx, results: seq<StepResult>, rest: seq<Event>) returns (t: State)
    requires Stands(s, d, Received(o)) && Lockable(s, o) && StepsOf(s, o) == [] && !Clashes(s.orders, o)
    requires readout.Readout? && Examine(s.orders[o], readout) == Usable(ctx)
    ensures Run(s, Outset(d, readout, results, rest)) == Run(t, rest)
    ensures Stands(t, d, AfterPersist(o, ctx, results)) && StepsOf(t, o) == RowsFor(KeysOf(ctx), results)
    ensures t.sent == s.sent + [o] && t.undone == s.undone && t.orders[o].snapshot == s.orders[o].snapshot
    ensures StageOf(t, o) == Sent(ctx, Reply(results, false))
  {
    var tail := [Provision(d, Reply(results, false))] + ([Persist(d, true)] + rest);
    var a := ValidateRun(s, d, o, readout, ctx, [MarkRunning(d, true)] + tail);
    var b := MarkRunningRun(a, d, o, ctx, tail);
    var c := ProvisionRun(b, d, o, ctx, results, [Persist(d, true)] + rest);
    t := PersistRun(c, d, o, ctx, results, rest);
  }

  /**
   * An undisturbed delivery of a pending order whose plan is usable sends the plan, stores one row per result and ends
   * the order as its results are judged; only SUCCESS goes on to materialisation.
   */
  lemma UndisturbedDelivery(s: State, d: Id, o: Id, readout: Readout, ctx: Ctx, results: seq<StepResult>)
    requires Stands(s, d, Received(o)) && s.orders[o].status == Pending && StepsOf(s, o) == [] && !Contended(s.orders, o)
    requires readout.Readout? && Examine(s.orders[o], readout) == Usable(ctx)
    requires !Verdicts(ctx, results).needsRollback
    ensures var t := Run(s, Outset(d, readout, results, [MarkFinished(d, true)] + []));
            && Ends(t, o, Verdicts(ctx, results).status) && StepsOf(t, o) == RowsFor(KeysOf(ctx), results)
            && StageOf(t, o) == Sent(ctx, Reply(results, false)) && t.sent == s.sent + [o] && t.undone == s.undone
            && d in t.workers && (t.workers[d] == Materializing(o) <==> Verdicts(ctx, results).status == Success)
  {
    ContendedIff(s.orders, o);
    var a := Launch(s, d, o, readout, ctx, results, [MarkFinished(d, true)] + []);
    var _ := MarkFinishedRun(a, d, o, Verdicts(ctx, results).status, []);
  }

  lemma PlanUndoLands(s: State, d: Id, o: Id, ctx: Ctx, results: seq<StepResult>, template: Template, sight: Sight, undo: Undo)
    requires Stands(s, d, Compensating(o, ctx, results)) && CanUndo(s, o, ctx, results, template, sight, undo)
    ensures var t := DoPlanUndo(s, d, Some(template), sight);
            && Stands(t, d, Prepared(o, ctx, results, undo)) && t.sent == s.sent && t.undone == s.undone
            && StepsOf(t, o) == StepsOf(s, o)
  {
  }

  lemma DeprovisionLands(s: State, d: Id, o: Id, ctx: Ctx, results: seq<StepResult>, undo: Undo, reply: Reply)
    requires Stands(s, d, Prepared(o, ctx, results, undo)) && !reply.raised && AllOk(reply.results)
    ensures var t := DoDeprovision(s, d, reply, true);
            && Stands(t, d, Finishing(o, RolledBack)) && StepsOf(t, o) == StepsOf(s, o)
            && StageOf(t, o) == Undone(ctx, results, undo, reply)
            && t.sent == s.sent && t.undone == s.undone + [o]
  {
  }

  predicate CanUndo(s: State, o: Id, ctx: Ctx, results: seq<StepResult>, template: Template, sight: Sight, undo: Undo)
    requires o in s.orders
  {
    && template.active && undo.template == template && undo.sight == sight && undo.vars == Context(template.commandVars, s.orders[o].snapshot)
    && UndoPlan(ctx, results, template, sight, undo.vars) == Ready(undo.commands) && undo.commands != []
  }

  /** The events that compensate. */
  function Compensation(d: Id, template: Template, sight: Sight, reply: Reply): seq<Event> {
    [PlanUndo(d, Some(template), sight)] + ([Deprovision(d, reply, true)] + ([MarkFinished(d, true)] + []))
  }

  /** An undisturbed delivery that has to roll back, and can, sends the rollback plan once and ends ROLLED_BACK. */
  lemma UndisturbedRollback(s: State, d: Id, o: Id, readout: Readout, ctx: Ctx, results: seq<StepResult>,
                            template: Template, sight: Sight, undo: Undo, reply: Reply)
    requires Stands(s, d, Received(o)) && s.orders[o].status == Pending && StepsOf(s, o) == [] && !Contended(s.orders, o)
    requires readout.Readout? && Examine(s.orders[o], readout) == Usable(ctx)
    requires Verdicts(ctx, results).needsRollback && CanUndo(s, o, ctx, results, template, sight, undo)
    requires !reply.raised && AllOk(reply.results)
    ensures var t := Run(s, Outset(d, readout, results, Compensation(d, template, sight, reply)));
            && Ends(t, o, RolledBack) && StepsOf(t, o) == RowsFor(KeysOf(ctx), results)
            && StageOf(t, o) == Undone(ctx, results, undo, reply)
            && t.sent == s.sent + [o] && t.undone == s.undone + [o]
  {
    ContendedIff(s.orders, o);
    var a := Launch(s, d, o, readout, ctx, results, Compensation(d, template, sight, reply));
    var b := PlanUndoRun(a, d, o, ctx, results, template, sight, undo, [Deprovision(d, reply, true)] + ([MarkFinished(d, true)] + []));
    var c := DeprovisionRun(b, d, o, ctx, results, undo, reply, [MarkFinished(d, true)] + []);
    var _ := MarkFinishedRun(c, d, o, RolledBack, []);
  }

  /** The events that compensate in vain. */
  function FailedCompensation(d: Id, template: Template, sight: Sight, reply: Reply, recorded: bool): seq<Event> {
    [PlanUndo(d, Some(template), sight)] + ([Deprovision(d, reply, recorded)] + ([MarkFailed(d, true)] + []))
  }

  lemma FailedUndoLands(s: State, d: Id, o: Id, ctx: Ctx, results: seq<StepResult>, undo: Undo, reply: Reply, recorded: bool)
    requires Stands(s, d, Prepared(o, ctx, results, undo))
    requires reply.raised || !recorded || exists i :: 0 <= i < |reply.results| && !reply.results[i].success
    ensures var t := DoDeprovision(s, d, reply, recorded);
            && Stands(t, d, Failing(o)) && StepsOf(t, o) == StepsOf(s, o) && StageOf(t, o) == Undone(ctx, results, undo, reply)
            && t.sent == s.sent && t.undone == s.undone + [o]
  {
    if i :| 0 <= i < |reply.results| && !reply.results[i].success {
      assert reply.results[i] in reply.results;
    }
  }

  lemma MarkFailedLands(s: State, d: Id, o: Id)
    requires Stands(s, d, Failing(o))
    ensures var t := DoMarkFailed(s, d, true);
            && Ends(t, o, Failed) && StepsOf(t, o) == StepsOf(s, o) && StageOf(t, o) == StageOf(s, o)
            && t.sent == s.sent && t.undone == s.undone && d in t.workers && t.workers[d] == Done
  {
  }

  /**
   * A rollback call that raises, whose row cannot be written, or that reports a failed command: the delivery takes its
   * failure exit, and the order ends FAILED with the rollback plan in its history.
   */
  lemma UndisturbedFailedRollback(s: State, d: Id, o: Id, readout: Readout, ctx: Ctx, results: seq<StepResult>,
                                  template: Template, sight: Sight, undo: Undo, reply: Reply, recorded: bool)
    requires Stands(s, d, Received(o)) && s.orders[o].status == Pending && StepsOf(s, o) == [] && !Contended(s.orders, o)
    requires readout.Readout? && Examine(s.orders[o], readout) == Usable(ctx)
    requires Verdicts(ctx, results).needsRollback && CanUndo(s, o, ctx, results, template, sight, undo)
    requires reply.raised || !recorded || exists i :: 0 <= i < |reply.results| && !reply.results[i].success
    ensures var t := Run(s, Outset(d, readout, results, FailedCompensation(d, template, sight, reply, recorded)));
            && Ends(t, o, Failed) && StepsOf(t, o) == RowsFor(KeysOf(ctx), results)
            && StageOf(t, o) == Undone(ctx, results, undo, reply) && d in t.workers && t.workers[d] == Done
            && t.sent == s.sent + [o] && t.undone == s.undone + [o]
  {
    ContendedIff(s.orders, o);
    var a := Launch(s, d, o, readout, ctx, results, FailedCompensation(d, template, sight, reply, recorded));
    var b := PlanUndoRun(a, d, o, ctx, results, template, sight, undo, [Deprovision(d, reply, recorded)] + ([MarkFailed(d, true)] + []));
    var _ := FailedUndoRun(b, d, o, ctx, results, undo, reply, recorded);
  }

  lemma FailedUndoRun(s: State, d: Id, o: Id, ctx: Ctx, results: seq<StepResult>, undo: Undo, reply: Reply, recorded: bool)
    returns (t: State)
    requires Stands(s, d, Prepared(o, ctx, results, undo))
    requires reply.raised || !recorded || exists i :: 0 <= i < |reply.results| && !reply.results[i].success
    ensures t == Run(s, [Deprovision(d, reply, recorded)] + ([MarkFailed(d, true)] + []))
    ensures Ends(t, o, Failed) && StepsOf(t, o) == StepsOf(s, o) && StageOf(t, o) == Undone(ctx, results, undo, reply)
    ensures d in t.workers && t.workers[d] == Done && t.sent == s.sent && t.undone == s.undone + [o]
  {
    var a := FailedUndoStep(s, d, o, ctx, results, undo, reply, recorded, [MarkFailed(d, true)] + []);
    t := MarkFailedRun(a, d, o);
  }

  lemma FailedUndoStep(s: State, d: Id, o: Id, ctx: Ctx, results: seq<StepResult>, undo: Undo, reply: Reply, recorded: bool, rest: seq<Event>)
    returns (t: State)
    requires Stands(s, d, Prepared(o, ctx, results, undo))
    requires reply.raised || !recorded || exists i :: 0 <= i < |reply.results| && !reply.results[i].success
    ensures Run(s, [Deprovision(d, reply, recorded)] + rest) == Run(t, rest)
    ensures Stands(t, d, Failing(o)) && StepsOf(t, o) == StepsOf(s, o) && StageOf(t, o) == Undone(ctx, results, undo, reply)
    ensures t.sent == s.sent && t.undone == s.undone + [o]
  {
    t := DoDeprovision(s, d, reply, recorded);
    FailedUndoLands(s, d, o, ctx, results, undo, reply, recorded);
    RunStep(s, Deprovision(d, reply, recorded), rest);
  }

  lemma MarkFailedRun(s: State, d: Id, o: Id) returns (t: State)
    requires Stands(s, d, Failing(o))
    ensures t == Run(s, [MarkFailed(d, true)] + [])
    ensures Ends(t, o, Failed) && StepsOf(t, o) == StepsOf(s, o) && StageOf(t, o) == StageOf(s, o)
    ensures t.sent == s.sent && t.undone == s.undone && d in t.workers && t.workers[d] == Done
  {
    MarkFailedLands(s, d, o);
    RunStep(s, MarkFailed(d, true), []);
    t := DoMarkFailed(s, d, true);
  }

  // ---------- An undisturbed request ----------

  predicate AtPoint(s: State, r: Id, req: Request, p: Point) {
    r in s.sessions && s.sessions[r] == Session(req, p)
  }

  /** V5 lets the request pass. */
  predicate RetryAllowed(rows: Rows, req: Request) {
    req.retryOf.None? || (req.retryOf.value in rows && rows[req.retryOf.value].status in {Success, Failed, RolledBack, Partial, Status.Canceled})
  }

  ghost predicate LiveWith(s: State, u: Id, serial: string) {
    u in s.onus && s.onus[u].live && s.onus[u].serial == serial
  }

  /** The ONU that V6 finds: a live one with the serial, or none while an active pending ONU waits on the port. */
  ghost predicate Recognisable(s: State, req: Request, onu: Option<Id>) {
    match onu
    case Some(u) => LiveWith(s, u, req.serial)
    case None =>
      && (forall u :: !LiveWith(s, u, req.serial))
      && exists k :: k in s.pendings && k.pon == req.pon && k.serial == req.serial && s.pendings[k].state in {Detected, Waiting}
  }

  lemma ReadRun(s: State, r: Id, req: Request, p: Point, rest: seq<Event>) returns (t: State)
    requires AtPoint(s, r, req, p)
    ensures t == PutSession(s, r, Session(req, NextPoint(s, Session(req, p))))
    ensures Run(s, [Read(r)] + rest) == Run(t, rest)
  {
    t := PutSession(s, r, Session(req, NextPoint(s, Session(req, p))));
    assert DoRead(s, r) == t;
    assert ([Read(r)] + rest)[1..] == rest;
  }

  lemma InsertRun(s: State, r: Id, id: Id) returns (t: State)
    ensures t == DoInsert(s, r, id) == Run(s, [Insert(r, id)] + [])
  {
    t := DoInsert(s, r, id);
    assert ([Insert(r, id)] + [])[1..] == [];
    assert Run(s, [Insert(r, id)] + []) == Run(Exec(s, Insert(r, id)), []);
  }

  lemma SerialPoint(s: State, req: Request)
    ensures (exists onu :: Recognisable(s, req, onu)) <==> AfterSerial(s, req).Recognised?
    ensures AfterSerial(s, req).Recognised? ==> Recognisable(s, req, AfterSerial(s, req).onu)
    ensures !AfterSerial(s, req).Recognised? ==> AfterSerial(s, req) == Closed(Rejected)
  {
    assert forall u :: LiveWith(s, u, req.serial) <==> IsLive(s.onus, u, req.serial);
    if onu :| Recognisable(s, req, onu) && onu.None? {
      var k :| k in s.pendings && k.pon == req.pon && k.serial == req.serial && s.pendings[k].state in {Detected, Waiting};
      assert ActivePending(s, PendingKey(k.olt, req.pon, req.serial));
    }
    if LiveOnu(s.onus, req.serial).None? && exists olt :: ActivePending(s, PendingKey(olt, req.pon, req.serial)) {
      var olt :| ActivePending(s, PendingKey(olt, req.pon, req.serial));
      var k := PendingKey(olt, req.pon, req.serial);
      assert k in s.pendings && s.pendings[k].state in {Detected, Waiting};
      assert Recognisable(s, req, None);
    }
    if LiveOnu(s.onus, req.serial).Some? {
      assert Recognisable(s, req, LiveOnu(s.onus, req.serial));
    }
  }

  function Asking(r: Id, id: Id): seq<Event> {
    [Read(r)] + ([Read(r)] + ([Read(r)] + ([Read(r)] + ([Insert(r, id)] + []))))
  }

  /**
   * An undisturbed request with a free key, an allowed retry source and a recognised serial creates the order it asks
   * for: pending, with its key and hash, on the recognised ONU, the serial in its snapshot; nothing else changes.
   */
  lemma UndisturbedRequest(s: State, r: Id, id: Id, req: Request)
    requires AtPoint(s, r, req, Submitted) && (forall o | o in s.orders :: s.orders[o].key != req.key) && RetryAllowed(s.orders, req)
    requires exists onu :: Recognisable(s, req, onu)
    requires forall u | LiveWith(s, u, req.serial) :: !Busy(s.orders, u)
    requires id !in s.orders && id !in s.stages && id !in s.steps
    ensures var t := Run(s, Asking(r, id));
            && AtPoint(t, r, req, Closed(Accepted(id, false)))
            && id in t.orders && t.orders == s.orders[id := t.orders[id]]
            && t.orders[id].status == Pending && t.orders[id].key == req.key && t.orders[id].hash == Some(req.hash)
            && t.orders[id].olt == req.olt && t.orders[id].pon == req.pon && t.orders[id].retryOf == req.retryOf
            && Overlaid(t.orders[id].snapshot, req.fields, map["serial" := req.serial])
            && Recognisable(s, req, t.orders[id].onu)
  {
    BusyIff(s.orders);
    var f, onu := ReadsClear(s, r, req, [Insert(r, id)] + []);
    ClearedEnters(f, r, id, req, onu);
    var t := InsertRun(f, r, id);
    EntersAsAsked(s, req, onu);
  }

  lemma EntersAsAsked(s: State, req: Request, onu: Option<Id>)
    ensures var order := NewOrder(s, req, onu);
            && order.status == Pending && order.key == req.key && order.hash == Some(req.hash)
            && order.olt == req.olt && order.pon == req.pon && order.retryOf == req.retryOf && order.onu == onu
            && Overlaid(order.snapshot, req.fields, map["serial" := req.serial])
  {
  }

  /** The four reads of an undisturbed request. */
  lemma ReadsClear(s: State, r: Id, req: Request, rest: seq<Event>) returns (t: State, onu: Option<Id>)
    requires AtPoint(s, r, req, Submitted) && !HasKey(s.orders, req.key) && RetryAllowed(s.orders, req)
    requires exists u :: Recognisable(s, req, u)
    requires forall u | LiveWith(s, u, req.serial) :: !HasActive(s.orders, u)
    ensures Run(s, [Read(r)] + ([Read(r)] + ([Read(r)] + ([Read(r)] + rest)))) == Run(t, rest)
    ensures t == s.(sessions := t.sessions) && AtPoint(t, r, req, Cleared(onu)) && Recognisable(s, req, onu)
    ensures forall q | q in s.sessions && q != r :: q in t.sessions && t.sessions[q] == s.sessions[q]
    ensures t.sessions.Keys == s.sessions.Keys
  {
    SerialPoint(s, req);
    onu := AfterSerial(s, req).onu;
    var b := ReadsOn(s, r, req, [Read(r)] + ([Read(r)] + rest));
    SameTablesSameSerial(s, b, req);
    var c := ReadRun(b, r, req, RetryChecked, [Read(r)] + rest);
    t := ReadRun(c, r, req, Recognised(onu), rest);
  }

  /** The reads of V0 and V5. */
  lemma ReadsOn(s: State, r: Id, req: Request, rest: seq<Event>) returns (t: State)
    requires AtPoint(s, r, req, Submitted) && !HasKey(s.orders, req.key) && RetryAllowed(s.orders, req)
    ensures t == PutSession(s, r, Session(req, RetryChecked)) && Run(s, [Read(r)] + ([Read(r)] + rest)) == Run(t, rest)
  {
    var a := ReadRun(s, r, req, Submitted, [Read(r)] + rest);
    t := ReadRun(a, r, req, KeyFree, rest);
    assert t.sessions == s.sessions[r := Session(req, RetryChecked)];
  }

  /** A cleared request with a free key and an idle ONU creates the order it asks for. */
  lemma ClearedEnters(s: State, r: Id, id: Id, req: Request, onu: Option<Id>)
    requires AtPoint(s, r, req, Cleared(onu)) && !HasKey(s.orders, req.key)
    requires onu.Some? ==> !HasActive(s.orders, onu.value)
    requires id !in s.orders && id !in s.stages && id !in s.steps
    ensures var t := DoInsert(s, r, id);
            && t == Enter(s, r, id) && AtPoint(t, r, req, Closed(Accepted(id, false)))
            && id in t.orders && t.orders == s.orders[id := NewOrder(s, req, onu)]
  {
    assert CreationOf(s, r).Created?;
  }

  lemma SameTablesSameSerial(s: State, t: State, req: Request)
    requires t == s.(sessions := t.sessions)
    ensures AfterSerial(t, req) == AfterSerial(s, req)
  {
    assert forall olt :: ActivePending(t, PendingKey(olt, req.pon, req.serial)) <==> ActivePending(s, PendingKey(olt, req.pon, req.serial));
  }
}
