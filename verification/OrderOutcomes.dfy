/** What the order protocol guarantees in every reachable state. */
module OrderOutcomes {
  import opened Prelude
  import opened CommandCaching
  import opened Commands
  import opened Orders
  import opened Saga
  import opened OrderProtocol
  import opened OrderSafety

  // ---------- Commands are sent at most once ----------

  /**
   * Over every interleaving of duplicate deliveries, failures and cancellations: the plan of an order goes to a device
   * at most once, its rollback plan at most once and only after the plan, and a canceled order sends nothing.
   */
  lemma SentAtMostOnce(s: State, events: seq<Event>)
    requires Start(s)
    ensures var t := Run(s, events);
            && Distinct(t.sent) && Distinct(t.undone)
            && (forall o | o in t.undone :: o in t.sent)
            && (forall o | o in t.canceled :: o !in t.sent && StepsOf(t, o) == [])
  {
    StartHasInv(s);
    RunKeepsInv(s, events);
    var t := Run(s, events);
    forall o | o in t.canceled
      ensures o !in t.sent && StepsOf(t, o) == []
    {
      assert Fits(StageOf(t, o), t.orders[o], StepsOf(t, o));
    }
  }

  /** The histories that no later step changes. */
  predicate Frozen(stage: Stage) {
    stage.Archived? || stage.Withdrawn? || stage.Refused? || stage.Abandoned? || stage.Undone?
  }

  lemma FrozenIsSettled(s: State, o: Id)
    requires Inv(s) && o in s.orders && Frozen(StageOf(s, o))
    ensures !s.orders[o].status.Pending?
  {
    assert Fits(StageOf(s, o), s.orders[o], StepsOf(s, o));
  }

  lemma ProgressKeepsFrozen(s: State, t: State, o: Id, d: Id)
    requires Inv(s) && o in s.orders && Frozen(StageOf(s, o)) && Progress(s, t, d)
    ensures StageOf(t, o) == StageOf(s, o)
  {
    FrozenIsSettled(s, o);
    if d in s.workers && Engaged(s.workers[d]) {
      assert Holds(s, d);
    }
  }

  lemma OthersKeepHistory(s: State, e: Event, o: Id)
    requires !OfWorker(e) && o in s.orders && !s.orders[o].status.Pending?
    ensures StageOf(Exec(s, e), o) == StageOf(s, o)
  {
    if e.Insert? { InsertKeepsHistory(s, e.r, e.id, o); }
  }

  lemma InsertKeepsHistory(s: State, r: Id, id: Id, o: Id)
    requires o in s.orders
    ensures StageOf(DoInsert(s, r, id), o) == StageOf(s, o)
  {
  }

  lemma StepKeepsFrozen(s: State, e: Event, o: Id)
    requires Inv(s) && o in s.orders && Frozen(StageOf(s, o))
    ensures StageOf(Exec(s, e), o) == StageOf(s, o)
  {
    FrozenIsSettled(s, o);
    if OfWorker(e) {
      WorkerProgress(s, e);
      ProgressKeepsFrozen(s, Exec(s, e), o, e.d);
    } else {
      OthersKeepHistory(s, e, o);
    }
  }

  /** Once canceled, refused, abandoned or rolled back, an order has no further history. */
  lemma {:induction false} FrozenForever(s: State, events: seq<Event>, o: Id)
    requires Inv(s) && o in s.orders && Frozen(StageOf(s, o))
    ensures StageOf(Run(s, events), o) == StageOf(s, o)
    decreases |events|
  {
    if events != [] {
      StepKeepsInv(s, events[0]);
      StepKeepsFrozen(s, events[0], o);
      StepEvolves(s, events[0]);
      FrozenForever(Exec(s, events[0]), events[1..], o);
    }
  }

  /**
   * A confirmed cancellation prevails over every delivery, earlier or later: in any continuation no command was or is
   * sent for the order, no step row is stored, and the only status that can take the place of CANCELED is FAILED.
   */
  lemma CancelPrevails(s: State, events: seq<Event>, o: Id, more: seq<Event>)
    requires Start(s) && o in Run(s, events).canceled
    ensures var t := Run(Run(s, events), more);
            && o in t.orders && o !in t.sent && o !in t.undone && StepsOf(t, o) == []
            && (t.orders[o].status.Canceled? || t.orders[o].status.Failed?)
  {
    StartHasInv(s);
    RunKeepsInv(s, events);
    var m := Run(s, events);
    FrozenForever(m, more, o);
    RunKeepsInv(m, more);
    RunEvolves(m, more);
    var t := Run(m, more);
    assert Fits(StageOf(t, o), t.orders[o], StepsOf(t, o));
  }

  // ---------- What was sent ----------

  /** The command renders the row that the catalogue query prefers, among those listed for the key, for this OLT's model. */
  ghost predicate RendersRow(c: Command, sight: Sight, i: nat, key: CommandKey, vars: Variables) {
    && i in sight.listings && IsListed(sight.listings[i], key.manufacturer, key.key)
    && exists r :: FromCatalogue(r, sight.listings[i], key) && RendersAs(c, key.key, r, vars)
  }

  lemma AnswerRendersRow(sight: Sight, i: nat, key: CommandKey, c: Command, vars: Variables)
    requires AnswerAt(sight, i, key).Some? && RendersAs(c, key.key, AnswerAt(sight, i, key).value, vars)
    ensures RendersRow(c, sight, i, key, vars)
  {
    AnswerIsFromCatalogue(Fetch(key, sight.listings[i], 0.0));
  }

  /** The i-th command renders a preferred catalogue row of the i-th step's command key. */
  ghost predicate RendersTemplate(ctx: Ctx) {
    && |ctx.commands| == |ctx.template.steps|
    && forall i | 0 <= i < |ctx.commands| ::
         RendersRow(ctx.commands[i], ctx.sight, i, StepKey(ctx, i), ctx.vars)
  }

  /** The catalogue key of a step's command. */
  function StepKey(ctx: Ctx, i: nat): CommandKey
    requires i < |ctx.template.steps|
  {
    CommandKey(ctx.template.manufacturer, ctx.sight.model, ctx.template.steps[i].commandKey, ctx.template.version)
  }

  lemma PlanRenders(ctx: Ctx)
    requires BuildPlan(ctx.template.steps, PlanLookups(ctx.template, ctx.sight), ctx.vars) == Plan(ctx.commands)
    ensures RendersTemplate(ctx)
  {
    PlanMeaning(ctx.template.steps, PlanLookups(ctx.template, ctx.sight), ctx.vars);
    forall i | 0 <= i < |ctx.commands|
      ensures RendersRow(ctx.commands[i], ctx.sight, i, StepKey(ctx, i), ctx.vars)
    {
      assert PlanLookups(ctx.template, ctx.sight)[i] == AnswerAt(ctx.sight, i, StepKey(ctx, i));
      AnswerRendersRow(ctx.sight, i, StepKey(ctx, i), ctx.commands[i], ctx.vars);
    }
  }

  lemma PlannedRenders(ctx: Ctx, order: Order)
    requires Planned(ctx, order)
    ensures RendersTemplate(ctx)
  {
    PlanRenders(ctx);
  }

  predicate HasCtx(stage: Stage) {
    stage.Claimed? || stage.Sent? || stage.Abandoned? || stage.Undone?
  }

  /** Whatever was sent for an order was planned from every step of one valid template and from the order's snapshot. */
  lemma SentPlansRenderTemplates(s: State, events: seq<Event>, o: Id)
    requires Start(s) && o in Run(s, events).sent
    ensures var t := Run(s, events);
            && o in t.orders && HasCtx(StageOf(t, o))
            && RendersTemplate(StageOf(t, o).ctx)
            && Overlaid(StageOf(t, o).ctx.vars, StageOf(t, o).ctx.template.commandVars, t.orders[o].snapshot)
  {
    StartHasInv(s);
    RunKeepsInv(s, events);
    var t := Run(s, events);
    assert Fits(StageOf(t, o), t.orders[o], StepsOf(t, o));
    PlannedRenders(StageOf(t, o).ctx, t.orders[o]);
    ContextOverlays(StageOf(t, o).ctx.template.commandVars, t.orders[o].snapshot);
  }

  /** The rows are numbered 1..n and carry the template's step keys. */
  ghost predicate FollowsTemplate(rows: seq<StepRow>, t: Template) {
    && |rows| == |t.steps|
    && forall i | 0 <= i < |rows| :: rows[i].order == i + 1 && rows[i].key == t.steps[i].stepKey && rows[i].phase == Execution
  }

  lemma RowsFollowTemplate(t: Template, results: seq<StepResult>)
    requires IsValidTemplate(t) && |results| == |t.steps|
    ensures FollowsTemplate(RowsFor(StepKeys(t.steps), results), t)
  {
    StepKeysDomain(t.steps);
    RowsMeaning(StepKeys(t.steps), results);
    forall i | 0 <= i < |results|
      ensures RowsFor(StepKeys(t.steps), results)[i].key == t.steps[i].stepKey
    {
      assert i + 1 in StepKeys(t.steps) && StepKeys(t.steps)[i + 1] == t.steps[i].stepKey;
    }
  }

  /** The adapter's contract: one result per command. */
  ghost predicate OneResultEach(stage: Stage) {
    && (stage.Sent? ==> |stage.reply.results| == |stage.ctx.commands|)
    && (stage.Abandoned? ==> |stage.results| == |stage.ctx.commands|)
    && (stage.Undone? ==> |stage.results| == |stage.ctx.commands| && |stage.reply.results| == |stage.undo.commands|)
  }

  /** The order's template satisfies what the schema's validators check before a template is stored. */
  ghost predicate TemplateStored(stage: Stage) {
    WasSent(stage) ==> IsValidTemplate(stage.ctx.template)
  }

  /**
   * Persisted step rows, whatever the adapter replies: none, only the refusal, or one per result of the one device call,
   * numbered from 1, with the template's key of its position.
   */
  lemma StepRowsFollowResults(s: State, events: seq<Event>, o: Id)
    requires Start(s) && o in Run(s, events).orders && !StageOf(Run(s, events), o).Archived?
    ensures var t := Run(s, events);
            var stage := StageOf(t, o);
            || StepsOf(t, o) == []
            || (StepsOf(t, o) == [RefusalRow()] && o !in t.sent && t.orders[o].status.Failed?)
            || (o in t.sent && WasSent(stage) && StepsOf(t, o) == RowsFor(KeysOf(stage.ctx), ResultsOf(stage)))
  {
    StartHasInv(s);
    RunKeepsInv(s, events);
    var t := Run(s, events);
    assert Fits(StageOf(t, o), t.orders[o], StepsOf(t, o));
  }

  function ResultsOf(stage: Stage): seq<StepResult>
    requires WasSent(stage)
  {
    if stage.Sent? then stage.reply.results else stage.results
  }

  /** Persisted step rows: none, only the refusal, or exactly those of the template; rows of the template need a device call. */
  lemma StepRowsShape(s: State, events: seq<Event>, o: Id)
    requires Start(s) && o in Run(s, events).orders
    requires !StageOf(Run(s, events), o).Archived?
    requires OneResultEach(StageOf(Run(s, events), o)) && TemplateStored(StageOf(Run(s, events), o))
    ensures var t := Run(s, events);
            || StepsOf(t, o) == []
            || (StepsOf(t, o) == [RefusalRow()] && o !in t.sent && t.orders[o].status.Failed?)
            || (o in t.sent && WasSent(StageOf(t, o)) && FollowsTemplate(StepsOf(t, o), StageOf(t, o).ctx.template))
  {
    StartHasInv(s);
    RunKeepsInv(s, events);
    var t := Run(s, events);
    var stage := StageOf(t, o);
    assert Fits(stage, t.orders[o], StepsOf(t, o));
    if WasSent(stage) {
      PlannedRenders(stage.ctx, t.orders[o]);
      RowsFollowTemplate(stage.ctx.template, if stage.Sent? then stage.reply.results else stage.results);
    }
  }

  // ---------- What a status means ----------

  ghost predicate SomeFailed(results: seq<StepResult>) {
    exists i :: 0 <= i < |results| && !results[i].success
  }

  ghost predicate SomeSucceeded(results: seq<StepResult>) {
    exists i :: 0 <= i < |results| && results[i].success
  }

  /** A failed step has a rollback entry. */
  ghost predicate FailureCovered(ctx: Ctx, results: seq<StepResult>) {
    exists i :: 0 <= i < |results| && !results[i].success && KeyAt(KeysOf(ctx), i + 1) in ctx.template.rollbackMap
  }

  ghost predicate Tells(status: Status, stage: Stage) {
    match status
    case Pending => stage.Fresh?
    case Validating => stage.Claimed?
    case Canceled => stage.Withdrawn?
    case Success => stage.Sent? && !stage.reply.raised && !SomeFailed(stage.reply.results)
    case Partial =>
      && stage.Sent? && !stage.reply.raised
      && SomeFailed(stage.reply.results) && SomeSucceeded(stage.reply.results)
      && !FailureCovered(stage.ctx, stage.reply.results)
    case RolledBack =>
      && stage.Undone? && FailureCovered(stage.ctx, stage.results)
      && !stage.reply.raised && !SomeFailed(stage.reply.results)
    case _ => true
  }

  lemma FittingStatusTells(stage: Stage, order: Order, steps: seq<StepRow>)
    requires Fits(stage, order, steps) && !stage.Archived?
    ensures Tells(order.status, stage)
  {
    if stage.Sent? {
      VerdictsMean(stage.ctx, stage.reply.results);
    } else if stage.Undone? {
      VerdictsMean(stage.ctx, stage.results);
    }
  }

  /** The judgement of phase 3 in terms of the results. */
  lemma VerdictsMean(ctx: Ctx, results: seq<StepResult>)
    ensures var outcome := Verdicts(ctx, results);
            && (outcome.needsRollback <==> FailureCovered(ctx, results))
            && (outcome.status == Success <==> !SomeFailed(results))
            && (outcome.status == Partial <==> !FailureCovered(ctx, results) && SomeFailed(results) && SomeSucceeded(results))
            && (outcome.status.Success? || outcome.status.Partial? || outcome.status.Failed?)
  {
    OutcomeJudges(KeysOf(ctx), ctx.template.rollbackMap, results, Verdicts(ctx, results));
  }

  /** What the status of an order that is not archived says about the device calls made for it. */
  lemma StatusTellsTruth(s: State, events: seq<Event>, o: Id)
    requires Start(s) && o in Run(s, events).orders && !StageOf(Run(s, events), o).Archived?
    ensures var t := Run(s, events);
            && Tells(t.orders[o].status, StageOf(t, o))
            && (o in t.sent <==> WasSent(StageOf(t, o)))
            && (o in t.undone <==> StageOf(t, o).Undone?)
  {
    StartHasInv(s);
    RunKeepsInv(s, events);
    var t := Run(s, events);
    FittingStatusTells(StageOf(t, o), t.orders[o], StepsOf(t, o));
  }

  // ---------- Compensation ----------

  /** Step i succeeded and the template's rollback map has an entry for it. */
  ghost predicate ToUndo(ctx: Ctx, results: seq<StepResult>, i: nat) {
    && 1 <= i <= |results| && results[i - 1].success
    && i <= |ctx.template.steps| && ctx.template.steps[i - 1].stepKey in ctx.template.rollbackMap
  }

  lemma ToUndoIff(ctx: Ctx, results: seq<StepResult>)
    ensures forall i :: ToUndo(ctx, results, i) <==> MustUndo(results, KeysOf(ctx), ctx.template.rollbackMap, i)
  {
    StepKeysDomain(ctx.template.steps);
  }

  /**
   * A rollback plan that was sent consists of the rendered rollback entries of the successful steps that have one, in
   * strictly decreasing step order; all of them resolved.
   */
  lemma SentRollbackIsExact(s: State, events: seq<Event>, o: Id) returns (order: seq<nat>)
    requires Start(s) && o in Run(s, events).undone
    ensures var t := Run(s, events);
            var stage := StageOf(t, o);
            && o in t.orders && stage.Undone?
            && |order| == |stage.undo.commands| > 0
            && (forall a, b | 0 <= a < b < |order| :: order[a] > order[b])
            && (forall i :: i in order <==> ToUndo(stage.ctx, stage.results, i))
            && Overlaid(stage.undo.vars, stage.undo.template.commandVars, t.orders[o].snapshot)
            && (forall k | 0 <= k < |order| ::
                  RendersRow(stage.undo.commands[k], stage.undo.sight, order[k], UndoKey(stage.ctx, stage.undo, order[k]), stage.undo.vars))
  {
    StartHasInv(s);
    RunKeepsInv(s, events);
    var t := Run(s, events);
    var stage := StageOf(t, o);
    assert Fits(stage, t.orders[o], StepsOf(t, o));
    order := UndoneRenders(stage.ctx, stage.results, stage.undo, t.orders[o]);
    ContextOverlays(stage.undo.template.commandVars, t.orders[o].snapshot);
  }

  /** The catalogue key of a step's rollback command. */
  function UndoKey(ctx: Ctx, undo: Undo, i: nat): CommandKey {
    CommandKey(undo.template.manufacturer, undo.sight.model,
               if 1 <= i <= |ctx.template.steps| && ctx.template.steps[i - 1].stepKey in ctx.template.rollbackMap
               then ctx.template.rollbackMap[ctx.template.steps[i - 1].stepKey] else "",
               undo.template.version)
  }

  lemma UndoKeyIs(ctx: Ctx, undo: Undo, i: nat)
    ensures UndoKey(ctx, undo, i) == KeyFor(undo.template, undo.sight.model, RollbackKey(KeysOf(ctx), ctx.template.rollbackMap, i))
  {
    StepKeysDomain(ctx.template.steps);
  }

  lemma UndoneRenders(ctx: Ctx, results: seq<StepResult>, undo: Undo, row: Order) returns (order: seq<nat>)
    requires UndoReady(ctx, results, undo, row)
    ensures |order| == |undo.commands| > 0
    ensures forall a, b | 0 <= a < b < |order| :: order[a] > order[b]
    ensures forall i :: i in order <==> ToUndo(ctx, results, i)
    ensures forall k | 0 <= k < |order| :: RendersRow(undo.commands[k], undo.sight, order[k], UndoKey(ctx, undo, order[k]), undo.vars)
  {
    var lookups := UndoAnswers(ctx, results, undo.template, undo.sight);
    order := RollbackPlanMeaning(results, KeysOf(ctx), ctx.template.rollbackMap, lookups, undo.vars);
    UndoLookupsMeaning(undo.template, undo.sight, KeysOf(ctx), ctx.template.rollbackMap, |results|);
    ToUndoIff(ctx, results);
    forall k | 0 <= k < |order|
      ensures RendersRow(undo.commands[k], undo.sight, order[k], UndoKey(ctx, undo, order[k]), undo.vars)
    {
      assert order[k] in order && ToUndo(ctx, results, order[k]);
      UndoKeyIs(ctx, undo, order[k]);
      assert Compensates(undo.commands[k], order[k], KeysOf(ctx), ctx.template.rollbackMap, lookups, undo.vars);
      AnswerRendersRow(undo.sight, order[k], UndoKey(ctx, undo, order[k]), undo.commands[k], undo.vars);
    }
  }

  /** The rollback plan of a compensating delivery can be sent: something to undo, and all of it resolves and renders. */
  ghost predicate Sendable(w: Worker, t: Template, sight: Sight, vars: Variables)
    requires w.Compensating?
  {
    && (exists i :: ToUndo(w.ctx, w.results, i))
    && (forall i | ToUndo(w.ctx, w.results, i) :: Resolvable(t, sight, w.ctx, i, vars))
  }

  /** The catalogue answers the step's rollback command, and the answer renders. */
  predicate Resolvable(t: Template, sight: Sight, ctx: Ctx, i: nat, vars: Variables) {
    var answer := AnswerAt(sight, i, KeyFor(t, sight.model, RollbackKey(KeysOf(ctx), ctx.template.rollbackMap, i)));
    answer.Some? && Renderable(answer.value.template, vars)
  }

  lemma SendableIff(w: Worker, t: Template, sight: Sight, vars: Variables)
    requires w.Compensating?
    ensures Sendable(w, t, sight, vars) <==> GoesOut(UndoPlan(w.ctx, w.results, t, sight, vars))
  {
    var lookups := UndoAnswers(w.ctx, w.results, t, sight);
    var undone := RollbackPlanMeaning(w.results, KeysOf(w.ctx), w.ctx.template.rollbackMap, lookups, vars);
    UndoLookupsMeaning(t, sight, KeysOf(w.ctx), w.ctx.template.rollbackMap, |w.results|);
    ToUndoIff(w.ctx, w.results);
    assert undone != [] ==> undone[0] in undone;
    assert forall i :: ToUndo(w.ctx, w.results, i) <==> i in undone;
    assert forall i | ToUndo(w.ctx, w.results, i) :: Resolves(lookups, i, vars) <==> Resolvable(t, sight, w.ctx, i, vars);
  }

  /**
   * Planning leads to a device call exactly when the plan is sendable. Otherwise the delivery takes its failure exit,
   * which makes the order FAILED, and the order's history is closed.
   */
  lemma PlanningDecides(s: State, d: Id, template: Template, sight: Sight, vars: Variables)
    requires d in s.workers && s.workers[d].Compensating? && s.workers[d].order in s.orders && template.active
    requires Overlaid(vars, template.commandVars, s.orders[s.workers[d].order].snapshot)
    ensures var w := s.workers[d];
            var t := DoPlanUndo(s, d, Some(template), sight);
            if Sendable(w, template, sight, vars) then t.workers[d].Prepared?
            else
              && t.workers[d] == Failing(w.order) && StageOf(t, w.order).Abandoned? && t.undone == s.undone
              && w.order in DoMarkFailed(t, d, true).orders && DoMarkFailed(t, d, true).orders[w.order].status.Failed?
  {
    ContextOverlays(template.commandVars, s.orders[s.workers[d].order].snapshot);
    SendableIff(s.workers[d], template, sight, vars);
  }

  /** After a closed compensation no rollback command is ever sent, and the order is RUNNING or FAILED. */
  lemma AbandonedForever(s: State, events: seq<Event>, o: Id)
    requires Inv(s) && o in s.orders && StageOf(s, o).Abandoned?
    ensures var t := Run(s, events);
            o in t.orders && o !in t.undone && (t.orders[o].status.Running? || t.orders[o].status.Failed?)
  {
    FrozenForever(s, events, o);
    RunKeepsInv(s, events);
    RunEvolves(s, events);
    var t := Run(s, events);
    assert Fits(StageOf(t, o), t.orders[o], StepsOf(t, o));
  }

  /** Every rollback command that was sent came back, and came back successful. */
  ghost predicate AllReported(stage: Stage)
    requires stage.Undone?
  {
    forall k | 0 <= k < |stage.undo.commands| :: ReportedOk(stage.reply.results, k)
  }

  predicate ReportedOk(results: seq<StepResult>, k: nat) {
    k < |results| && results[k].success
  }

  /**
   * ROLLED_BACK means that every rollback command was reported successful exactly when the reply has at least one result
   * per command: the worker does not compare the lengths.
   */
  lemma RolledBackReportsAllIff(s: State, events: seq<Event>, o: Id)
    requires Start(s) && o in Run(s, events).orders
    requires Run(s, events).orders[o].status.RolledBack? && !StageOf(Run(s, events), o).Archived?
    ensures var stage := StageOf(Run(s, events), o);
            stage.Undone? && (AllReported(stage) <==> |stage.undo.commands| <= |stage.reply.results|)
  {
    StatusTellsTruth(s, events, o);
    var stage := StageOf(Run(s, events), o);
    assert AllOk(stage.reply.results);
    ReportedIff(stage);
  }

  lemma ReportedIff(stage: Stage)
    requires stage.Undone? && AllOk(stage.reply.results)
    ensures AllReported(stage) <==> |stage.undo.commands| <= |stage.reply.results|
  {
    if |stage.undo.commands| <= |stage.reply.results| {
      assert forall k | 0 <= k < |stage.undo.commands| :: stage.reply.results[k] in stage.reply.results;
    } else {
      assert !ReportedOk(stage.reply.results, |stage.reply.results|);
    }
  }

  /** Every command of the plan was reported successful. */
  ghost predicate AllCommandsReported(stage: Stage)
    requires stage.Sent?
  {
    forall k | 0 <= k < |stage.ctx.commands| :: ReportedOk(stage.reply.results, k)
  }

  /** SUCCESS as well means that every command was reported successful exactly when the reply is not shorter than the plan. */
  lemma SuccessReportsAllIff(s: State, events: seq<Event>, o: Id)
    requires Start(s) && o in Run(s, events).orders
    requires Run(s, events).orders[o].status.Success? && !StageOf(Run(s, events), o).Archived?
    ensures var stage := StageOf(Run(s, events), o);
            stage.Sent? && (AllCommandsReported(stage) <==> |stage.ctx.commands| <= |stage.reply.results|)
  {
    StatusTellsTruth(s, events, o);
    var stage := StageOf(Run(s, events), o);
    CommandsReportedIff(stage);
  }

  lemma CommandsReportedIff(stage: Stage)
    requires stage.Sent? && !SomeFailed(stage.reply.results)
    ensures AllCommandsReported(stage) <==> |stage.ctx.commands| <= |stage.reply.results|
  {
    if |stage.ctx.commands| > |stage.reply.results| {
      assert !ReportedOk(stage.reply.results, |stage.reply.results|);
    }
  }

  /** The texts that took effect on the device on behalf of an order, in sending order. */
  function Footprint(stage: Stage): seq<string>
    requires stage.Undone? && |stage.results| == |stage.ctx.commands| && |stage.reply.results| == |stage.undo.commands|
  {
    Effective(stage.ctx.commands, stage.results) + Effective(stage.undo.commands, stage.reply.results)
  }

  lemma {:induction false} ReplayAppend<D>(apply: (string, D) -> D, a: seq<string>, b: seq<string>, d: D)
    ensures Replay(apply, a + b, d) == Replay(apply, b, Replay(apply, a, d))
  {
    if a == [] {
      assert a + b == b;
    } else {
      assert (a + b)[1..] == a[1..] + b;
      ReplayAppend(apply, a[1..], b, apply(a[0], d));
    }
  }

  /**
   * Saga correctness over whole runs: whenever an order is ROLLED_BACK, the device is exactly as it was before the order,
   * given the adapter's contract, rollback commands that undo their steps, and a rollback map that covers them all.
   */
  lemma RolledBackRestores<D(!new)>(s: State, events: seq<Event>, o: Id, apply: (string, D) -> D, d: D)
    requires Start(s) && o in Run(s, events).orders
    requires Run(s, events).orders[o].status.RolledBack? && !StageOf(Run(s, events), o).Archived?
    requires OneResultEach(StageOf(Run(s, events), o))
    requires var stage := StageOf(Run(s, events), o);
             stage.Undone? ==>
               && AllMapped(stage.results, KeysOf(stage.ctx), stage.ctx.template.rollbackMap)
               && Undoes(apply, stage.ctx.commands,
                         Wanted(Reverse(Positions(stage.results, true)), KeysOf(stage.ctx), stage.ctx.template.rollbackMap),
                         stage.undo.commands)
    ensures var stage := StageOf(Run(s, events), o);
            stage.Undone? && |stage.results| == |stage.ctx.commands| && |stage.reply.results| == |stage.undo.commands|
            && Replay(apply, Footprint(stage), d) == d
  {
    StartHasInv(s);
    RunKeepsInv(s, events);
    var t := Run(s, events);
    var stage := StageOf(t, o);
    assert Fits(stage, t.orders[o], StepsOf(t, o));
    UndoneRestores(stage, t.orders[o], apply, d);
  }

  lemma UndoneRestores<D(!new)>(stage: Stage, order: Order, apply: (string, D) -> D, d: D)
    requires stage.Undone? && OneResultEach(stage) && UndoReady(stage.ctx, stage.results, stage.undo, order) && AllOk(stage.reply.results)
    requires AllMapped(stage.results, KeysOf(stage.ctx), stage.ctx.template.rollbackMap)
    requires Undoes(apply, stage.ctx.commands,
                    Wanted(Reverse(Positions(stage.results, true)), KeysOf(stage.ctx), stage.ctx.template.rollbackMap),
                    stage.undo.commands)
    ensures Replay(apply, Footprint(stage), d) == d
  {
    SagaRestores(apply, stage.ctx.commands, stage.results, KeysOf(stage.ctx), stage.ctx.template.rollbackMap,
                 UndoAnswers(stage.ctx, stage.results, stage.undo.template, stage.undo.sight), stage.undo.vars, stage.undo.commands, stage.reply.results, d);
    ReplayAppend(apply, Effective(stage.ctx.commands, stage.results), Effective(stage.undo.commands, stage.reply.results), d);
  }
}
