/** What every run of the order protocol keeps: commands sent, statuses, step rows, compensation. */
module OrderSafety {
  import opened Prelude
  import opened CommandCaching
  import opened Commands
  import opened Orders
  import opened Saga
  import opened OrderProtocol

  // ---------- The invariant ----------

  /** The plan is what the template's steps resolved and rendered to, for this order's snapshot. */
  ghost predicate Planned(ctx: Ctx, order: Order) {
    && ctx.vars == Context(ctx.template.commandVars, order.snapshot)
    && BuildPlan(ctx.template.steps, PlanLookups(ctx.template, ctx.sight), ctx.vars) == Plan(ctx.commands)
  }

  ghost predicate Recorded(ctx: Ctx, results: seq<StepResult>, steps: seq<StepRow>) {
    steps == RowsFor(KeysOf(ctx), results)
  }

  /** The rollback plan is what the template's rollback entries resolved and rendered to, for this order's snapshot. */
  ghost predicate UndoReady(ctx: Ctx, results: seq<StepResult>, undo: Undo, order: Order) {
    && undo.vars == Context(undo.template.commandVars, order.snapshot)
    && UndoPlan(ctx, results, undo.template, undo.sight, undo.vars) == Ready(undo.commands)
    && undo.commands != []
  }

  /** The outcome that phase 3 may finish an order with. */
  ghost predicate Concludes(ctx: Ctx, results: seq<StepResult>, status: Status) {
    var outcome := Verdicts(ctx, results);
    !outcome.needsRollback && outcome.status == status
  }

  /** What the history of an order says about its row and its step rows. */
  ghost predicate Fits(stage: Stage, order: Order, steps: seq<StepRow>) {
    match stage
    case Archived => !order.status.Pending?
    case Fresh => (order.status.Pending? || order.status.Failed?) && steps == []
    case Withdrawn => (order.status.Canceled? || order.status.Failed?) && steps == []
    case Refused => order.status.Failed? && steps == [RefusalRow()]
    case Claimed(ctx) =>
      && Planned(ctx, order) && steps == []
      && (order.status.Validating? || order.status.Running? || order.status.Failed?)
    case Sent(ctx, reply) =>
      && Planned(ctx, order)
      && (steps == [] || (!reply.raised && Recorded(ctx, reply.results, steps)))
      && (|| order.status.Running? || order.status.Failed?
          || (!reply.raised && Recorded(ctx, reply.results, steps) && Concludes(ctx, reply.results, order.status)))
    case Abandoned(ctx, results) =>
      && Planned(ctx, order) && Recorded(ctx, results, steps) && Verdicts(ctx, results).needsRollback
      && (order.status.Running? || order.status.Failed?)
    case Undone(ctx, results, undo, reply) =>
      && Planned(ctx, order) && Recorded(ctx, results, steps) && UndoReady(ctx, results, undo, order)
      && Verdicts(ctx, results).needsRollback
      && (|| order.status.Running? || order.status.Failed?
          || (order.status.RolledBack? && !reply.raised && AllOk(reply.results)))
  }

  /** Past phase 1 and not yet done with the order's history. */
  predicate Engaged(w: Worker) {
    w.Validated? || w.Started? || w.Answered? || w.Compensating? || w.Prepared? || w.Finishing?
  }

  /** What the local variables of an engaged worker say about the order's history. */
  ghost predicate Agrees(w: Worker, stage: Stage, order: Order, steps: seq<StepRow>)
    requires Engaged(w)
  {
    match w
    case Validated(_, ctx) => stage == Claimed(ctx)
    case Started(_, ctx) => stage == Claimed(ctx) && !order.status.Validating?
    case Answered(_, ctx, results) => stage == Sent(ctx, Reply(results, false)) && steps == []
    case Compensating(_, ctx, results) =>
      stage == Sent(ctx, Reply(results, false)) && Recorded(ctx, results, steps) && Verdicts(ctx, results).needsRollback
    case Prepared(_, ctx, results, undo) =>
      && stage == Sent(ctx, Reply(results, false)) && Recorded(ctx, results, steps) && Verdicts(ctx, results).needsRollback
      && UndoReady(ctx, results, undo, order)
    case Finishing(_, final) =>
      || (stage.Sent? && !stage.reply.raised && Recorded(stage.ctx, stage.reply.results, steps)
          && Concludes(stage.ctx, stage.reply.results, final))
      || (stage.Undone? && !stage.reply.raised && AllOk(stage.reply.results) && final == RolledBack)
  }

  ghost predicate Holds(s: State, d: Id)
    requires d in s.workers && Engaged(s.workers[d])
  {
    var o := s.workers[d].order;
    && o in s.orders && o in s.claims && s.claims[o] == d
    && Agrees(s.workers[d], StageOf(s, o), s.orders[o], StepsOf(s, o))
  }

  predicate WasSent(stage: Stage) {
    stage.Sent? || stage.Abandoned? || stage.Undone?
  }

  ghost predicate Distinct(ids: seq<Id>) {
    forall i, j | 0 <= i < j < |ids| :: ids[i] != ids[j]
  }

  ghost predicate OrdersFit(s: State) {
    forall o | o in s.orders :: Fits(StageOf(s, o), s.orders[o], StepsOf(s, o))
  }

  ghost predicate WorkersHold(s: State) {
    forall d | d in s.workers && Engaged(s.workers[d]) :: Holds(s, d)
  }

  ghost predicate LogsFit(s: State) {
    && Distinct(s.sent) && (forall o | o in s.sent :: o in s.orders && WasSent(StageOf(s, o)))
    && Distinct(s.undone) && (forall o | o in s.undone :: o in s.orders && StageOf(s, o).Undone?)
    && (forall o | o in s.canceled :: o in s.orders && StageOf(s, o).Withdrawn?)
  }

  /** Every stage past the device call was reached through it. */
  ghost predicate StagesLogged(s: State) {
    && (forall o | o in s.orders && WasSent(StageOf(s, o)) :: o in s.sent)
    && (forall o | o in s.orders && StageOf(s, o).Undone? :: o in s.undone)
  }

  ghost predicate Inv(s: State) {
    OrdersFit(s) && WorkersHold(s) && LogsFit(s) && StagesLogged(s)
  }

  /** Any tables, before any delivery, request or call of the run. */
  ghost predicate Start(s: State) {
    && s.workers == map[] && s.sessions == map[] && s.claims == map[]
    && s.sent == [] && s.undone == [] && s.canceled == {} && s.born == []
    && (forall o | o in s.orders ::
          StageOf(s, o) == (if s.orders[o].status.Pending? then Fresh else Archived)
          && (s.orders[o].status.Pending? ==> StepsOf(s, o) == []))
  }

  // ---------- Steps that touch one order ----------

  /** Nothing but order o and the worker of delivery d may differ. */
  ghost predicate Local(s: State, t: State, o: Id, d: Id) {
    o in s.orders && LocalTo(s, t, o) && OnlyAt(s.workers, t.workers, d)
  }

  /** No other delivery is engaged on the order that d holds, or on one that is still fresh. */
  ghost predicate Alone(s: State, o: Id, d: Id) {
    forall e | e in s.workers && e != d && Engaged(s.workers[e]) :: s.workers[e].order != o
  }

  lemma HolderIsAlone(s: State, d: Id)
    requires WorkersHold(s) && d in s.workers && Engaged(s.workers[d])
    ensures Alone(s, s.workers[d].order, d)
  {
    forall e | e in s.workers && e != d && Engaged(s.workers[e])
      ensures s.workers[e].order != s.workers[d].order
    {
      assert Holds(s, e) && Holds(s, d);
    }
  }

  lemma FreshIsFree(s: State, o: Id, d: Id)
    requires WorkersHold(s) && StageOf(s, o).Fresh?
    ensures Alone(s, o, d)
  {
    forall e | e in s.workers && e != d && Engaged(s.workers[e])
      ensures s.workers[e].order != o
    {
      assert Holds(s, e);
    }
  }

  lemma LocalLeavesOthers(s: State, t: State, o: Id, p: Id)
    requires LocalTo(s, t, o) && p != o
    ensures p in s.orders <==> p in t.orders
    ensures p in s.orders ==> t.orders[p] == s.orders[p]
    ensures StageOf(t, p) == StageOf(s, p) && StepsOf(t, p) == StepsOf(s, p)
    ensures p in s.claims <==> p in t.claims
    ensures p in s.claims ==> t.claims[p] == s.claims[p]
  {
  }

  lemma LocalKeepsOrders(s: State, t: State, o: Id, d: Id)
    requires OrdersFit(s) && Local(s, t, o, d) && Fits(StageOf(t, o), t.orders[o], StepsOf(t, o))
    ensures OrdersFit(t)
  {
    forall p | p in t.orders && p != o
      ensures Fits(StageOf(t, p), t.orders[p], StepsOf(t, p))
    {
      LocalLeavesOthers(s, t, o, p);
    }
  }

  lemma LocalKeepsWorkers(s: State, t: State, o: Id, d: Id)
    requires WorkersHold(s) && Local(s, t, o, d) && Alone(s, o, d)
    requires d in t.workers && Engaged(t.workers[d]) ==> Holds(t, d)
    ensures WorkersHold(t)
  {
    forall e | e in t.workers && Engaged(t.workers[e]) && e != d
      ensures Holds(t, e)
    {
      assert Holds(s, e);
      LocalLeavesOthers(s, t, o, s.workers[e].order);
    }
  }

  /** A local step on an order nobody else holds keeps the tables consistent if its own order and worker are. */
  lemma LocalKeeps(s: State, t: State, o: Id, d: Id)
    requires OrdersFit(s) && WorkersHold(s) && Local(s, t, o, d) && Alone(s, o, d)
    requires Fits(StageOf(t, o), t.orders[o], StepsOf(t, o))
    requires d in t.workers && Engaged(t.workers[d]) ==> Holds(t, d)
    ensures OrdersFit(t) && WorkersHold(t)
  {
    LocalKeepsOrders(s, t, o, d);
    LocalKeepsWorkers(s, t, o, d);
  }

  /** The logs stay right when the step neither sends, nor undoes, nor cancels. */
  lemma QuietKeepsLogs(s: State, t: State, o: Id, d: Id)
    requires LogsFit(s) && StagesLogged(s) && Local(s, t, o, d)
    requires t.sent == s.sent && t.undone == s.undone && t.canceled == s.canceled
    requires WasSent(StageOf(t, o)) == WasSent(StageOf(s, o)) && StageOf(t, o).Undone? == StageOf(s, o).Undone?
    requires StageOf(s, o).Withdrawn? ==> StageOf(t, o).Withdrawn?
    ensures LogsFit(t) && StagesLogged(t)
  {
    assert forall p | p in s.orders && p != o :: StageOf(t, p) == StageOf(s, p);
  }

  /** What a worker's step must establish about its own order, apart from the logs. */
  ghost predicate Steps(s: State, t: State, o: Id, d: Id) {
    && Local(s, t, o, d)
    && Fits(StageOf(t, o), t.orders[o], StepsOf(t, o))
    && (d in t.workers && Engaged(t.workers[d]) ==> Holds(t, d))
  }

  ghost predicate Quiet(s: State, t: State, o: Id) {
    && t.sent == s.sent && t.undone == s.undone && t.canceled == s.canceled
    && WasSent(StageOf(t, o)) == WasSent(StageOf(s, o)) && StageOf(t, o).Undone? == StageOf(s, o).Undone?
    && (StageOf(s, o).Withdrawn? ==> StageOf(t, o).Withdrawn?)
  }

  /** A local step by the only delivery engaged on the order, which neither sends, nor undoes, nor cancels. */
  lemma QuietKeepsInv(s: State, t: State, o: Id, d: Id)
    requires Inv(s) && Alone(s, o, d) && Steps(s, t, o, d) && Quiet(s, t, o)
    ensures Inv(t)
  {
    LocalKeeps(s, t, o, d);
    QuietKeepsLogs(s, t, o, d);
  }

  /** A worker that is not engaged afterwards needs nothing. */
  lemma IdleKeepsInv(s: State, d: Id, w: Worker)
    requires Inv(s) && !Engaged(w)
    ensures Inv(Move(s, d, w))
  {
    var t := Move(s, d, w);
    forall e | e in t.workers && Engaged(t.workers[e])
      ensures Holds(t, e)
    {
      assert Holds(s, e);
    }
    assert forall o :: StageOf(t, o) == StageOf(s, o) && StepsOf(t, o) == StepsOf(s, o);
  }

  lemma RefuseSteps(s: State, d: Id, o: Id)
    requires d in s.workers && Lockable(s, o) && StageOf(s, o).Fresh? && StepsOf(s, o) == []
    ensures Steps(s, Refuse(s, d, o), o, d) && Quiet(s, Refuse(s, d, o), o)
  {
    RefuseIsLocal(s, d, o);
  }

  lemma TakeSteps(s: State, d: Id, o: Id, ctx: Ctx)
    requires d in s.workers && Lockable(s, o) && StageOf(s, o).Fresh? && StepsOf(s, o) == [] && Planned(ctx, s.orders[o])
    ensures Steps(s, Take(s, d, o, ctx), o, d) && Quiet(s, Take(s, d, o, ctx), o)
  {
    TakeIsLocal(s, d, o, ctx);
  }

  lemma ExaminePlans(order: Order, readout: Readout)
    ensures Examine(order, readout).Usable? ==> Planned(Examine(order, readout).ctx, order)
  {
  }

  lemma RefuseKeepsInv(s: State, d: Id, o: Id)
    requires Inv(s) && d in s.workers && Lockable(s, o)
    ensures Inv(Refuse(s, d, o))
  {
    assert Fits(StageOf(s, o), s.orders[o], StepsOf(s, o));
    FreshIsFree(s, o, d);
    RefuseSteps(s, d, o);
    QuietKeepsInv(s, Refuse(s, d, o), o, d);
  }

  lemma TakeKeepsInv(s: State, d: Id, o: Id, ctx: Ctx)
    requires Inv(s) && d in s.workers && Lockable(s, o) && Planned(ctx, s.orders[o])
    ensures Inv(Take(s, d, o, ctx))
  {
    assert Fits(StageOf(s, o), s.orders[o], StepsOf(s, o));
    FreshIsFree(s, o, d);
    TakeSteps(s, d, o, ctx);
    QuietKeepsInv(s, Take(s, d, o, ctx), o, d);
  }

  lemma ValidateKeepsInv(s: State, d: Id, readout: Readout)
    requires Inv(s)
    ensures Inv(DoValidate(s, d, readout))
  {
    if d in s.workers && s.workers[d].Received? {
      var o := s.workers[d].order;
      if Conclusive(s, o, readout) {
        ExaminePlans(s.orders[o], readout);
        var verdict := Examine(s.orders[o], readout);
        if verdict.Usable? { TakeKeepsInv(s, d, o, verdict.ctx); } else { RefuseKeepsInv(s, d, o); }
      } else {
        IdleKeepsInv(s, d, AfterInconclusive(s, o, readout));
      }
    }
  }

  // ---------- The worker's steps ----------

  lemma MarkRunningSteps(s: State, d: Id, ok: bool)
    requires d in s.workers && s.workers[d].Validated? && Holds(s, d)
    requires var o := s.workers[d].order; Fits(StageOf(s, o), s.orders[o], StepsOf(s, o))
    ensures var o := s.workers[d].order;
            var t := DoMarkRunning(s, d, ok);
            Steps(s, t, o, d) && Quiet(s, t, o)
  {
    MarkRunningProgress(s, d, ok);
  }

  lemma MarkRunningKeepsInv(s: State, d: Id, ok: bool)
    requires Inv(s)
    ensures Inv(DoMarkRunning(s, d, ok))
  {
    if d in s.workers && s.workers[d].Validated? {
      var o := s.workers[d].order;
      assert Holds(s, d);
      MarkRunningSteps(s, d, ok);
      HolderIsAlone(s, d);
      QuietKeepsInv(s, DoMarkRunning(s, d, ok), o, d);
    }
  }

  lemma ProvisionSteps(s: State, d: Id, reply: Reply)
    requires d in s.workers && s.workers[d].Started? && Holds(s, d)
    requires var o := s.workers[d].order; Fits(StageOf(s, o), s.orders[o], StepsOf(s, o))
    ensures var o := s.workers[d].order;
            var t := DoProvision(s, d, reply);
            Steps(s, t, o, d)
  {
    ProvisionProgress(s, d, reply);
  }

  lemma ProvisionKeepsInv(s: State, d: Id, reply: Reply)
    requires Inv(s)
    ensures Inv(DoProvision(s, d, reply))
  {
    if d in s.workers && s.workers[d].Started? {
      var o := s.workers[d].order;
      assert Holds(s, d);
      ProvisionSteps(s, d, reply);
      HolderIsAlone(s, d);
      LocalKeeps(s, DoProvision(s, d, reply), o, d);
      SendKeepsLogs(s, DoProvision(s, d, reply), o, d);
    }
  }

  lemma SendKeepsLogs(s: State, t: State, o: Id, d: Id)
    requires LogsFit(s) && StagesLogged(s) && Local(s, t, o, d) && StageOf(s, o).Claimed? && StageOf(t, o).Sent?
    requires t.sent == s.sent + [o] && t.undone == s.undone && t.canceled == s.canceled
    ensures LogsFit(t) && StagesLogged(t)
  {
    assert forall p | p in s.orders && p != o :: StageOf(t, p) == StageOf(s, p);
    assert o !in s.sent && o !in s.undone && o !in s.canceled;
    assert o == t.sent[|s.sent|];
  }

  lemma UndoKeepsLogs(s: State, t: State, o: Id, d: Id)
    requires LogsFit(s) && StagesLogged(s) && Local(s, t, o, d) && StageOf(s, o).Sent? && StageOf(t, o).Undone?
    requires t.sent == s.sent && t.undone == s.undone + [o] && t.canceled == s.canceled
    ensures LogsFit(t) && StagesLogged(t)
  {
    assert forall p | p in s.orders && p != o :: StageOf(t, p) == StageOf(s, p);
    assert o !in s.undone && o !in s.canceled;
    assert o == t.undone[|s.undone|];
  }

  lemma PersistFits(w: Worker, stage: Stage, order: Order, steps: seq<StepRow>)
    requires w.Answered? && Agrees(w, stage, order, steps) && Fits(stage, order, steps)
    ensures var rows := steps + RowsFor(KeysOf(w.ctx), w.results);
            Fits(stage, order, rows) && Agrees(AfterPersist(w.order, w.ctx, w.results), stage, order, rows)
  {
    assert steps + RowsFor(KeysOf(w.ctx), w.results) == RowsFor(KeysOf(w.ctx), w.results);
  }

  lemma PersistSteps(s: State, d: Id, ok: bool)
    requires d in s.workers && s.workers[d].Answered? && Holds(s, d)
    requires var o := s.workers[d].order; Fits(StageOf(s, o), s.orders[o], StepsOf(s, o))
    ensures var o := s.workers[d].order;
            var t := DoPersist(s, d, ok);
            Steps(s, t, o, d) && Quiet(s, t, o)
  {
    PersistProgress(s, d, ok);
    var o := s.workers[d].order;
    PersistFits(s.workers[d], StageOf(s, o), s.orders[o], StepsOf(s, o));
  }

  lemma PersistKeepsInv(s: State, d: Id, ok: bool)
    requires Inv(s)
    ensures Inv(DoPersist(s, d, ok))
  {
    if d in s.workers && s.workers[d].Answered? {
      var o := s.workers[d].order;
      assert Holds(s, d);
      PersistSteps(s, d, ok);
      HolderIsAlone(s, d);
      QuietKeepsInv(s, DoPersist(s, d, ok), o, d);
    }
  }

  lemma AbandonFits(w: Worker, stage: Stage, order: Order, steps: seq<StepRow>)
    requires w.Compensating? && Agrees(w, stage, order, steps) && Fits(stage, order, steps)
    ensures order.status.Running? || order.status.Failed?
    ensures Fits(Abandoned(w.ctx, w.results), order, steps)
  {
  }

  lemma PlanUndoSteps(s: State, d: Id, template: Option<Template>, sight: Sight)
    requires d in s.workers && s.workers[d].Compensating? && Holds(s, d)
    requires var o := s.workers[d].order; Fits(StageOf(s, o), s.orders[o], StepsOf(s, o))
    ensures var o := s.workers[d].order;
            var t := DoPlanUndo(s, d, template, sight);
            Steps(s, t, o, d) && Quiet(s, t, o)
  {
    PlanUndoProgress(s, d, template, sight);
    var o := s.workers[d].order;
    AbandonFits(s.workers[d], StageOf(s, o), s.orders[o], StepsOf(s, o));
  }

  lemma PlanUndoKeepsInv(s: State, d: Id, template: Option<Template>, sight: Sight)
    requires Inv(s)
    ensures Inv(DoPlanUndo(s, d, template, sight))
  {
    if d in s.workers && s.workers[d].Compensating? {
      var o := s.workers[d].order;
      assert Holds(s, d);
      PlanUndoSteps(s, d, template, sight);
      HolderIsAlone(s, d);
      QuietKeepsInv(s, DoPlanUndo(s, d, template, sight), o, d);
    }
  }

  lemma UndoneFits(w: Worker, stage: Stage, order: Order, steps: seq<StepRow>, reply: Reply)
    requires w.Prepared? && Agrees(w, stage, order, steps) && Fits(stage, order, steps)
    ensures Fits(Undone(w.ctx, w.results, w.undo, reply), order, steps)
  {
  }

  lemma DeprovisionSteps(s: State, d: Id, reply: Reply, recorded: bool)
    requires d in s.workers && s.workers[d].Prepared? && Holds(s, d)
    requires var o := s.workers[d].order; Fits(StageOf(s, o), s.orders[o], StepsOf(s, o))
    ensures var o := s.workers[d].order;
            var t := DoDeprovision(s, d, reply, recorded);
            Steps(s, t, o, d)
  {
    DeprovisionProgress(s, d, reply, recorded);
    var o := s.workers[d].order;
    UndoneFits(s.workers[d], StageOf(s, o), s.orders[o], StepsOf(s, o), reply);
  }

  lemma DeprovisionKeepsInv(s: State, d: Id, reply: Reply, recorded: bool)
    requires Inv(s)
    ensures Inv(DoDeprovision(s, d, reply, recorded))
  {
    if d in s.workers && s.workers[d].Prepared? {
      var o := s.workers[d].order;
      assert Holds(s, d);
      DeprovisionSteps(s, d, reply, recorded);
      HolderIsAlone(s, d);
      LocalKeeps(s, DoDeprovision(s, d, reply, recorded), o, d);
      UndoKeepsLogs(s, DoDeprovision(s, d, reply, recorded), o, d);
    }
  }

  lemma FinishFits(w: Worker, stage: Stage, order: Order, steps: seq<StepRow>)
    requires w.Finishing? && Agrees(w, stage, order, steps) && Fits(stage, order, steps)
    ensures Fits(stage, order.(status := w.status), steps)
  {
  }

  lemma MarkFinishedSteps(s: State, d: Id, ok: bool)
    requires d in s.workers && s.workers[d].Finishing? && Holds(s, d)
    requires var o := s.workers[d].order; Fits(StageOf(s, o), s.orders[o], StepsOf(s, o))
    ensures var o := s.workers[d].order;
            var t := DoMarkFinished(s, d, ok);
            Steps(s, t, o, d) && Quiet(s, t, o)
  {
    MarkFinishedProgress(s, d, ok);
    var o := s.workers[d].order;
    FinishFits(s.workers[d], StageOf(s, o), s.orders[o], StepsOf(s, o));
  }

  lemma MarkFinishedKeepsInv(s: State, d: Id, ok: bool)
    requires Inv(s)
    ensures Inv(DoMarkFinished(s, d, ok))
  {
    if d in s.workers && s.workers[d].Finishing? {
      var o := s.workers[d].order;
      assert Holds(s, d);
      MarkFinishedSteps(s, d, ok);
      HolderIsAlone(s, d);
      QuietKeepsInv(s, DoMarkFinished(s, d, ok), o, d);
    }
  }

  /** FAILED fits every history, whoever writes it. */
  lemma MarkFailedKeepsInv(s: State, d: Id, ok: bool)
    requires Inv(s)
    ensures Inv(DoMarkFailed(s, d, ok))
  {
    if d in s.workers && s.workers[d].Failing? {
      IdleKeepsInv(s, d, Done);
      var m := Move(s, d, Done);
      var o := s.workers[d].order;
      if ok && o in s.orders {
        RowKeepsInv(m, o, s.orders[o].(status := Failed));
      }
    }
  }

  lemma RowFits(stage: Stage, row: Order, next: Order, steps: seq<StepRow>)
    requires Fits(stage, row, steps)
    requires next.snapshot == row.snapshot && (next.status == Failed || next.status == row.status)
    ensures Fits(stage, next, steps)
  {
  }

  /** An order's row may change to FAILED, or in the columns its history does not mention. */
  lemma RowKeepsInv(s: State, o: Id, row: Order)
    requires Inv(s) && o in s.orders
    requires row.snapshot == s.orders[o].snapshot && (row.status == Failed || row.status == s.orders[o].status)
    ensures Inv(s.(orders := s.orders[o := row]))
  {
    RowFits(StageOf(s, o), s.orders[o], row, StepsOf(s, o));
    RowKeepsTables(s, o, row);
    RowKeepsLogs(s, o, row);
  }

  lemma RowKeepsTables(s: State, o: Id, row: Order)
    requires OrdersFit(s) && WorkersHold(s) && o in s.orders && Fits(StageOf(s, o), row, StepsOf(s, o))
    requires row.snapshot == s.orders[o].snapshot && (row.status == Failed || row.status == s.orders[o].status)
    ensures OrdersFit(s.(orders := s.orders[o := row])) && WorkersHold(s.(orders := s.orders[o := row]))
  {
    var t := s.(orders := s.orders[o := row]);
    assert forall p :: StageOf(t, p) == StageOf(s, p) && StepsOf(t, p) == StepsOf(s, p);
    forall e | e in t.workers && Engaged(t.workers[e])
      ensures Holds(t, e)
    {
      assert Holds(s, e);
    }
  }

  lemma RowKeepsLogs(s: State, o: Id, row: Order)
    requires LogsFit(s) && StagesLogged(s) && o in s.orders
    ensures LogsFit(s.(orders := s.orders[o := row])) && StagesLogged(s.(orders := s.orders[o := row]))
  {
    var t := s.(orders := s.orders[o := row]);
    assert forall p :: StageOf(t, p) == StageOf(s, p) && (p in t.orders <==> p in s.orders);
  }

  lemma CancelKeepsTables(s: State, o: Id)
    requires OrdersFit(s) && WorkersHold(s) && Lockable(s, o)
    ensures OrdersFit(DoCancel(s, o)) && WorkersHold(DoCancel(s, o)) && StageOf(s, o).Fresh?
  {
    var t := DoCancel(s, o);
    assert Fits(StageOf(s, o), s.orders[o], StepsOf(s, o));
    assert LocalTo(s, t, o);
    forall p | p in t.orders && p != o
      ensures Fits(StageOf(t, p), t.orders[p], StepsOf(t, p))
    {
      LocalLeavesOthers(s, t, o, p);
    }
    forall e | e in t.workers && Engaged(t.workers[e])
      ensures Holds(t, e)
    {
      assert Holds(s, e);
      LocalLeavesOthers(s, t, o, s.workers[e].order);
    }
  }

  lemma CancelKeepsLogs(s: State, o: Id)
    requires LogsFit(s) && StagesLogged(s) && Lockable(s, o) && StageOf(s, o).Fresh?
    ensures LogsFit(DoCancel(s, o)) && StagesLogged(DoCancel(s, o))
  {
    var t := DoCancel(s, o);
    assert t.orders.Keys == s.orders.Keys && t.sent == s.sent && t.undone == s.undone && t.canceled == s.canceled + {o};
    assert forall p | p != o :: StageOf(t, p) == StageOf(s, p);
    assert StageOf(t, o).Withdrawn? && o !in s.sent && o !in s.undone;
  }

  lemma CancelKeepsInv(s: State, o: Id)
    requires Inv(s)
    ensures Inv(DoCancel(s, o))
  {
    if o in s.orders && s.orders[o].status.Pending? {
      CancelKeepsTables(s, o);
      CancelKeepsLogs(s, o);
    }
  }

  lemma AppendKeepsInv(s: State, t: State, id: Id)
    requires Inv(s) && id !in s.orders && id !in s.stages && id !in s.steps
    requires id in t.orders && t.orders == s.orders[id := t.orders[id]] && t.orders[id].status.Pending?
    requires t.stages == s.stages[id := Fresh] && t.steps == s.steps[id := []] && t.claims == s.claims
    requires t.workers == s.workers && t.sent == s.sent && t.undone == s.undone && t.canceled == s.canceled
    ensures Inv(t)
  {
    assert forall o | o in s.orders :: StageOf(t, o) == StageOf(s, o) && StepsOf(t, o) == StepsOf(s, o);
    AppendHolds(s, t);
  }

  /** Where nothing of the old orders has changed, the deliveries hold what they held. */
  lemma AppendHolds(s: State, t: State)
    requires WorkersHold(s) && t.workers == s.workers && t.claims == s.claims
    requires forall o | o in s.orders ::
               o in t.orders && t.orders[o] == s.orders[o] && StageOf(t, o) == StageOf(s, o) && StepsOf(t, o) == StepsOf(s, o)
    ensures WorkersHold(t)
  {
    forall e | e in t.workers && Engaged(t.workers[e])
      ensures Holds(t, e)
    {
      assert Holds(s, e);
    }
  }

  lemma EnterKeepsInv(s: State, r: Id, id: Id)
    requires Inv(s) && Inserting(s, r, id)
    ensures Inv(Enter(s, r, id))
  {
    AppendKeepsInv(s, Enter(s, r, id), id);
  }

  lemma InsertKeepsInv(s: State, r: Id, id: Id)
    requires Inv(s)
    ensures Inv(DoInsert(s, r, id))
  {
    if Inserting(s, r, id) {
      if CreationOf(s, r).Created? { EnterKeepsInv(s, r, id); } else { SideKeepsInv(s, RefuseInsert(s, r)); }
    }
  }

  /** The rest of the state does not matter. */
  lemma SideKeepsInv(s: State, t: State)
    requires Inv(s)
    requires t.orders == s.orders && t.steps == s.steps && t.stages == s.stages && t.claims == s.claims
    requires t.workers == s.workers && t.sent == s.sent && t.undone == s.undone && t.canceled == s.canceled
    ensures Inv(t)
  {
    assert forall o :: StageOf(t, o) == StageOf(s, o) && StepsOf(t, o) == StepsOf(s, o);
    forall e | e in t.workers && Engaged(t.workers[e])
      ensures Holds(t, e)
    {
      assert Holds(s, e);
    }
  }

  lemma MaterializeKeepsInv(s: State, d: Id, newOnu: Id, ok: bool)
    requires Inv(s)
    ensures Inv(DoMaterialize(s, d, newOnu, ok))
  {
    if d in s.workers && s.workers[d].Materializing? {
      var o := s.workers[d].order;
      if ok && o in s.orders {
        var t := MaterializeOrder(s, o, newOnu);
        if t.orders != s.orders {
          RowKeepsInv(s, o, s.orders[o].(onu := Some(newOnu)));
        }
        SideKeepsInv(s.(orders := t.orders), t);
        IdleKeepsInv(t, d, Done);
      } else {
        IdleKeepsInv(s, d, Done);
      }
    }
  }

  lemma AsideKeepsInv(s: State, e: Event)
    requires Inv(s) && Aside(e)
    ensures Inv(ExecAside(s, e))
  {
    SideKeepsInv(s, ExecAside(s, e));
  }

  lemma WorkerKeepsInv(s: State, e: Event)
    requires Inv(s) && OfWorker(e)
    ensures Inv(ExecWorker(s, e))
  {
    match e
    case Validate(d, readout) => ValidateKeepsInv(s, d, readout);
    case MarkRunning(d, ok) => MarkRunningKeepsInv(s, d, ok);
    case Provision(d, reply) => ProvisionKeepsInv(s, d, reply);
    case Persist(d, ok) => PersistKeepsInv(s, d, ok);
    case PlanUndo(d, template, sight) => PlanUndoKeepsInv(s, d, template, sight);
    case Deprovision(d, reply, recorded) => DeprovisionKeepsInv(s, d, reply, recorded);
    case MarkFinished(d, ok) => MarkFinishedKeepsInv(s, d, ok);
    case MarkFailed(d, ok) => MarkFailedKeepsInv(s, d, ok);
    case Materialize(d, newOnu, ok) => MaterializeKeepsInv(s, d, newOnu, ok);
  }

  lemma StepKeepsInv(s: State, e: Event)
    requires Inv(s)
    ensures Inv(Exec(s, e))
  {
    if Aside(e) { AsideKeepsInv(s, e); }
    else if OfWorker(e) { WorkerKeepsInv(s, e); }
    else if e.Insert? { InsertKeepsInv(s, e.r, e.id); }
    else if e.Cancel? { CancelKeepsInv(s, e.order); }
    else if e.d in s.workers { if e.Crash? { IdleKeepsInv(s, e.d, Done); } }
    else if e.Deliver? { IdleKeepsInv(s, e.d, Received(e.order)); }
  }

  lemma {:induction false} RunKeepsInv(s: State, events: seq<Event>)
    requires Inv(s)
    ensures Inv(Run(s, events))
    decreases |events|
  {
    if events != [] {
      StepKeepsInv(s, events[0]);
      RunKeepsInv(Exec(s, events[0]), events[1..]);
    }
  }

  lemma StartHasInv(s: State)
    requires Start(s)
    ensures Inv(s)
  {
  }
}
