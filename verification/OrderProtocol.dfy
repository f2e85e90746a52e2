/**
 * The provisioning order protocol: requests, cancellation, broker deliveries (possibly duplicated), device calls.
 * Each event is one transaction, one read of a request, or one device call; a list of events is an interleaving.
 */
module OrderProtocol {
  import opened Prelude
  import opened CommandCaching
  import opened Commands
  import opened Orders
  import opened Saga

  // ---------- State ----------

  datatype Onu = Onu(serial: string, live: bool)

  datatype PendingKey = PendingKey(olt: Id, pon: Id, serial: string)

  datatype PendingState = Detected | Waiting | Resolved

  datatype PendingOnu = PendingOnu(state: PendingState, model: Option<Id>, linked: Option<Id>)

  /**
   * What a planning pass sees of the catalogue: the OLT's model and, step by step, the listing that answered, made by
   * the query then or less than a TTL before.
   */
  datatype Sight = Sight(model: Option<Id>, listings: map<nat, seq<CommandRow>>)

  /** What phase 1 hands to the later phases, with what explains the plan. */
  datatype Ctx = Ctx(template: Template, sight: Sight, vars: Variables, commands: seq<Command>)

  datatype Reply = Reply(results: seq<StepResult>, raised: bool)   // raised: the results never reach the worker

  datatype Undo = Undo(commands: seq<Command>, template: Template, sight: Sight, vars: Variables)

  type FinalStatus = s: Status | !Active(s) witness Failed

  /** Where the worker of one delivery stands, with its local variables. */
  datatype Worker =
    | Received(order: Id)
    | Validated(order: Id, ctx: Ctx)
    | Started(order: Id, ctx: Ctx)
    | Answered(order: Id, ctx: Ctx, results: seq<StepResult>)
    | Compensating(order: Id, ctx: Ctx, results: seq<StepResult>)
    | Prepared(order: Id, ctx: Ctx, results: seq<StepResult>, undo: Undo)
    | Finishing(order: Id, status: FinalStatus)
    | Failing(order: Id)
    | Materializing(order: Id)
    | Escaped(order: Id)             // an exception left run_provisioning_order_sync
    | Done

  /** What has happened to an order; Archived stands for orders older than the run. */
  datatype Stage =
    | Archived
    | Fresh
    | Withdrawn
    | Refused
    | Claimed(ctx: Ctx)
    | Sent(ctx: Ctx, reply: Reply)
    | Abandoned(ctx: Ctx, results: seq<StepResult>)
    | Undone(ctx: Ctx, results: seq<StepResult>, undo: Undo, reply: Reply)

  datatype Request = Request(
    key: string, hash: string, olt: Id, pon: Id, serial: string, fields: map<string, string>, retryOf: Option<Id>)

  datatype Answer =
    | Accepted(order: Id, reused: bool)
    | KeyMismatch
    | ActiveOrder           // ProvisioningOrderActiveConflict
    | Untranslated          // a database error that the service passes on as it is
    | Rejected              // any other error of the service

  /** How far create_order has come. */
  datatype Point =
    | Submitted
    | KeyFree
    | RetryChecked
    | Recognised(onu: Option<Id>)
    | Cleared(onu: Option<Id>)
    | Closed(answer: Answer)

  datatype Session = Session(req: Request, at: Point)

  datatype State = State(
    orders: Rows,
    steps: map<Id, seq<StepRow>>,
    onus: map<Id, Onu>,
    pendings: map<PendingKey, PendingOnu>,
    sessions: map<Id, Session>,
    workers: map<Id, Worker>,
    stages: map<Id, Stage>,
    claims: map<Id, Id>,             // the delivery that took an order through phase 1
    sent: seq<Id>,                   // orders whose plan went to a device, in order
    undone: seq<Id>,                 // orders whose rollback plan went to a device, in order
    canceled: set<Id>,               // orders whose cancellation was confirmed
    born: seq<(Id, Id)>,             // (order, ONU) pairs of the ONUs inserted by materialisation
    clock: nat)

  function StageOf(s: State, o: Id): Stage {
    if o in s.stages then s.stages[o] else Archived
  }

  function StepsOf(s: State, o: Id): seq<StepRow> {
    if o in s.steps then s.steps[o] else []
  }

  /** What phase 1 reads; Unreadable stands for an OLT lock held elsewhere and for every unexpected error. */
  datatype Readout =
    | Readout(template: Option<Template>, sight: Sight, portFound: bool)
    | Unreadable

  datatype Event =
    | Submit(r: Id, req: Request)
    | Read(r: Id)
    | Insert(r: Id, id: Id)
    | Reject(r: Id)
    | Cancel(order: Id)
    | Deliver(d: Id, order: Id)
    | Validate(d: Id, readout: Readout)
    | MarkRunning(d: Id, ok: bool)
    | Provision(d: Id, reply: Reply)
    | Persist(d: Id, ok: bool)
    | PlanUndo(d: Id, template: Option<Template>, sight: Sight)
    | Deprovision(d: Id, reply: Reply, recorded: bool)
    | MarkFinished(d: Id, ok: bool)
    | MarkFailed(d: Id, ok: bool)
    | Materialize(d: Id, newOnu: Id, ok: bool)
    | Crash(d: Id)
    | InstallOnu(onu: Id, serial: string)
    | RemoveOnu(onu: Id)
    | Discover(key: PendingKey, model: Option<Id>)

  // ---------- Requests ----------

  function PutSession(s: State, r: Id, x: Session): State {
    s.(sessions := s.sessions[r := x])
  }

  /** V6: the live ONU with this serial, else an active pending ONU on this port. */
  ghost predicate IsLive(onus: map<Id, Onu>, u: Id, serial: string) {
    u in onus && onus[u].live && onus[u].serial == serial
  }

  predicate ActivePending(s: State, key: PendingKey) {
    key in s.pendings && !s.pendings[key].state.Resolved?
  }

  function SnapshotOf(req: Request): map<string, string> {
    req.fields["serial" := req.serial]
  }

  function NewOrder(s: State, req: Request, onu: Option<Id>): Order {
    Order(req.key, Some(req.hash), Pending, req.olt, req.pon, SnapshotOf(req), onu, req.retryOf, s.clock)
  }

  /** V0 and _resolve_idempotent_hit. */
  ghost function AfterKey(rows: Rows, req: Request): Point {
    if !HasKey(rows, req.key) then KeyFree
    else
      match Hit(rows, req.key, req.hash)
      case Reused(o) => Closed(Accepted(o, true))
      case _ => Closed(KeyMismatch)
  }

  /** V5: the retried order must exist and be terminal now. */
  function AfterRetry(rows: Rows, req: Request): Point {
    if req.retryOf.None? || (req.retryOf.value in rows && !Active(rows[req.retryOf.value].status)) then RetryChecked
    else Closed(Rejected)
  }

  ghost function LiveOnu(onus: map<Id, Onu>, serial: string): Option<Id> {
    if u :| IsLive(onus, u, serial) then Some(u) else None
  }

  ghost function AfterSerial(s: State, req: Request): Point {
    if LiveOnu(s.onus, req.serial).Some? then Recognised(LiveOnu(s.onus, req.serial))
    else if exists olt :: ActivePending(s, PendingKey(olt, req.pon, req.serial)) then Recognised(None)
    else Closed(Rejected)
  }

  /** V8: no active order on the recognised ONU. */
  function AfterActive(rows: Rows, onu: Option<Id>): Point {
    if onu.Some? && HasActive(rows, onu.value) then Closed(ActiveOrder) else Cleared(onu)
  }

  /** The next read of create_order; after the last one only the insert remains. */
  ghost function NextPoint(s: State, x: Session): Point {
    match x.at
    case Submitted => AfterKey(s.orders, x.req)
    case KeyFree => AfterRetry(s.orders, x.req)
    case RetryChecked => AfterSerial(s, x.req)
    case Recognised(onu) => AfterActive(s.orders, onu)
    case _ => x.at
  }

  ghost function DoRead(s: State, r: Id): State {
    if r !in s.sessions then s else PutSession(s, r, s.sessions[r].(at := NextPoint(s, s.sessions[r])))
  }

  /** The request is about to insert; id is a new row id. */
  predicate Inserting(s: State, r: Id, id: Id) {
    r in s.sessions && s.sessions[r].at.Cleared? && id !in s.orders && id !in s.stages && id !in s.steps
  }

  ghost function CreationOf(s: State, r: Id): Creation
    requires r in s.sessions && s.sessions[r].at.Cleared?
  {
    CreationFor(s.orders, s.sessions[r].req.key, s.sessions[r].req.hash, s.sessions[r].at.onu)
  }

  function Enter(s: State, r: Id, id: Id): State
    requires Inserting(s, r, id)
  {
    s.(sessions := s.sessions[r := s.sessions[r].(at := Closed(Accepted(id, false)))],
       orders := s.orders[id := NewOrder(s, s.sessions[r].req, s.sessions[r].at.onu)],
       stages := s.stages[id := Fresh], steps := s.steps[id := []], clock := s.clock + 1)
  }

  /** The handler of the insert's integrity error, told apart by the name of the violated index. */
  function RefusalAnswer(creation: Creation): Answer {
    match creation
    case Reused(o) => if ViolatedConstraint(INDEX_KEY) == Some(UQ_IDEMPOTENCY) then Accepted(o, true) else Untranslated
    case Mismatch => if ViolatedConstraint(INDEX_KEY) == Some(UQ_IDEMPOTENCY) then KeyMismatch else Untranslated
    case ActiveConflict => if ViolatedConstraint(INDEX_ACTIVE) == Some(UQ_PROV_ACTIVE) then ActiveOrder else Untranslated
    case Created => Rejected
  }

  lemma RefusalAnswers()
    ensures forall o :: RefusalAnswer(Reused(o)) == Accepted(o, true)
    ensures RefusalAnswer(Mismatch) == KeyMismatch && RefusalAnswer(ActiveConflict) == Untranslated
  {
    IndexNames();
  }

  ghost function RefuseInsert(s: State, r: Id): State
    requires r in s.sessions && s.sessions[r].at.Cleared?
  {
    PutSession(s, r, s.sessions[r].(at := Closed(RefusalAnswer(CreationOf(s, r)))))
  }

  ghost function DoInsert(s: State, r: Id, id: Id): State {
    if !Inserting(s, r, id) then s
    else if CreationOf(s, r).Created? then Enter(s, r, id)
    else RefuseInsert(s, r)
  }

  /** Any other error of the service. */
  function DoReject(s: State, r: Id): State {
    if r !in s.sessions || s.sessions[r].at.Closed? then s else PutSession(s, r, s.sessions[r].(at := Closed(Rejected)))
  }

  function DoCancel(s: State, o: Id): State {
    if !CancelReplyFor(s.orders, o).Canceled? then s
    else s.(orders := WithStatus(s.orders, o, Status.Canceled), stages := s.stages[o := Withdrawn], canceled := s.canceled + {o})
  }

  // ---------- The worker ----------

  /** The worker's next step may add to the history of its order. */
  predicate MakesHistory(s: State, w: Worker) {
    || (w.Received? && w.order in s.orders && s.orders[w.order].status.Pending?)
    || w.Started? || w.Compensating? || w.Prepared?
  }

  /** Nothing of an order other than o changes, and the row of o moves on. */
  ghost predicate LocalTo(s: State, t: State, o: Id) {
    && RowStep(s.orders, t.orders, o)
    && OnlyAt(s.stages, t.stages, o) && OnlyAt(s.steps, t.steps, o) && OnlyAt(s.claims, t.claims, o)
  }

  /** Only the worker of d may move, and it stays with its order. */
  ghost predicate WorkerStep(a: map<Id, Worker>, b: map<Id, Worker>, d: Id) {
    || b == a
    || (d in a && !a[d].Done? && d in b && b == a[d := b[d]] && (b[d].Done? || b[d].order == a[d].order))
  }

  /** The frame of a delivery's step: its own worker, and what belongs to its order. */
  ghost predicate Progress(s: State, t: State, d: Id) {
    && t.sessions == s.sessions && t.clock == s.clock && t.canceled == s.canceled && WorkerStep(s.workers, t.workers, d)
    && (|| (t.orders == s.orders && t.stages == s.stages && t.steps == s.steps && t.claims == s.claims)
        || (d in s.workers && !s.workers[d].Done? && LocalTo(s, t, s.workers[d].order)
            && (t.stages == s.stages || MakesHistory(s, s.workers[d]))))
  }

  function Move(s: State, d: Id, to: Worker): State {
    s.(workers := s.workers[d := to])
  }

  datatype Verdict = Usable(ctx: Ctx) | Refusable | Broke

  /** The answer for a key: what the listing of that key gives; without one the catalogue has nothing. */
  function AnswerAt(sight: Sight, i: nat, key: CommandKey): Option<Resolved> {
    if i in sight.listings && IsListed(sight.listings[i], key.manufacturer, key.key) then Query(sight.listings[i], key.model, key.version)
    else None
  }

  function PlanLookups(t: Template, sight: Sight): (list: seq<Option<Resolved>>)
    ensures |list| == |t.steps|
    ensures forall i | 0 <= i < |t.steps| :: list[i] == AnswerAt(sight, i, KeyFor(t, sight.model, t.steps[i].commandKey))
  {
    seq(|t.steps|, i requires 0 <= i < |t.steps| => AnswerAt(sight, i, KeyFor(t, sight.model, t.steps[i].commandKey)))
  }

  /** The answers for the rollback commands of the first n steps. */
  function UndoLookups(t: Template, sight: Sight, keys: Keys, rollbackMap: RollbackMap, n: nat): Lookups {
    if n == 0 then map[]
    else
      UndoLookups(t, sight, keys, rollbackMap, n - 1)[n := AnswerAt(sight, n, KeyFor(t, sight.model, RollbackKey(keys, rollbackMap, n)))]
  }

  lemma {:induction false} UndoLookupsMeaning(t: Template, sight: Sight, keys: Keys, rollbackMap: RollbackMap, n: nat)
    ensures forall i: nat | 1 <= i <= n ::
              LookupAt(UndoLookups(t, sight, keys, rollbackMap, n), i) ==
              AnswerAt(sight, i, KeyFor(t, sight.model, RollbackKey(keys, rollbackMap, i)))
  {
    if n > 0 {
      UndoLookupsMeaning(t, sight, keys, rollbackMap, n - 1);
    }
  }

  /** Phase 1 after the lock. */
  function Examine(order: Order, readout: Readout): Verdict {
    match readout
    case Unreadable => Broke
    case Readout(None, _, _) => Refusable
    case Readout(Some(t), sight, portFound) =>
      if !t.active || exists name :: name in t.required && name !in order.snapshot then Refusable
      else
        var vars := Context(t.commandVars, order.snapshot);
        match BuildPlan(t.steps, PlanLookups(t, sight), vars)
        case Plan(commands) => if portFound then Usable(Ctx(t, sight, vars, commands)) else Refusable
        case Invalid => Refusable
        case Crashed => Broke
  }

  const VALIDATION_STEP := "__validation__"

  function RefusalRow(): StepRow {
    StepRow(0, VALIDATION_STEP, Validation, false)
  }

  /** _mark_validation_failure_in_session, in the transaction that holds the lock. */
  function Refuse(s: State, d: Id, o: Id): State {
    s.(workers := s.workers[d := Done], orders := WithStatus(s.orders, o, Failed),
       stages := s.stages[o := Refused], steps := s.steps[o := StepsOf(s, o) + [RefusalRow()]])
  }

  function Take(s: State, d: Id, o: Id, ctx: Ctx): State {
    s.(workers := s.workers[d := Validated(o, ctx)], orders := WithStatus(s.orders, o, Validating),
       stages := s.stages[o := Claimed(ctx)], claims := s.claims[o := d])
  }

  function Conclude(s: State, d: Id, o: Id, verdict: Verdict): State {
    if verdict.Usable? then Take(s, d, o, verdict.ctx) else Refuse(s, d, o)
  }

  predicate Lockable(s: State, o: Id) {
    o in s.orders && s.orders[o].status.Pending?
  }

  /** The lock is taken and what phase 1 read leads to a commit. */
  predicate Conclusive(s: State, o: Id, readout: Readout) {
    readout.Readout? && Lockable(s, o) && !Examine(s.orders[o], readout).Broke?
  }

  /** Without a commit: an error, or an order that is missing or no longer PENDING. */
  function AfterInconclusive(s: State, o: Id, readout: Readout): Worker {
    if readout.Unreadable? || Lockable(s, o) then Failing(o) else Done
  }

  function DoValidate(s: State, d: Id, readout: Readout): State {
    if d !in s.workers || !s.workers[d].Received? then s
    else
      var o := s.workers[d].order;
      if !Conclusive(s, o, readout) then Move(s, d, AfterInconclusive(s, o, readout))
      else Conclude(s, d, o, Examine(s.orders[o], readout))
  }

  function DoMarkRunning(s: State, d: Id, ok: bool): State {
    if d !in s.workers || !s.workers[d].Validated? then s
    else
      var o := s.workers[d].order;
      var done := ok && !Clashes(s.orders, o);
      s.(workers := s.workers[d := if done then Started(o, s.workers[d].ctx) else Failing(o)],
         orders := if done then WithStatus(s.orders, o, Running) else s.orders)
  }

  function DoProvision(s: State, d: Id, reply: Reply): State {
    if d !in s.workers || !s.workers[d].Started? then s
    else
      var o := s.workers[d].order;
      var ctx := s.workers[d].ctx;
      s.(workers := s.workers[d := if reply.raised then Failing(o) else Answered(o, ctx, reply.results)],
         sent := s.sent + [o], stages := s.stages[o := Sent(ctx, reply)])
  }

  function KeysOf(ctx: Ctx): Keys {
    StepKeys(ctx.template.steps)
  }

  function Verdicts(ctx: Ctx, results: seq<StepResult>): Outcome {
    OutcomeOf(KeysOf(ctx), ctx.template.rollbackMap, results)
  }

  function AfterPersist(o: Id, ctx: Ctx, results: seq<StepResult>): Worker {
    var outcome := Verdicts(ctx, results);
    if outcome.needsRollback then Compensating(o, ctx, results) else Finishing(o, outcome.status)
  }

  function DoPersist(s: State, d: Id, ok: bool): State {
    if d !in s.workers || !s.workers[d].Answered? then s
    else
      var o := s.workers[d].order;
      var ctx := s.workers[d].ctx;
      var results := s.workers[d].results;
      s.(workers := s.workers[d := if ok then AfterPersist(o, ctx, results) else Failing(o)],
         steps := if ok then s.steps[o := StepsOf(s, o) + RowsFor(KeysOf(ctx), results)] else s.steps)
  }

  /** What the rollback resolution answers, step by step; t is the template as it is at the rollback. */
  function UndoAnswers(ctx: Ctx, results: seq<StepResult>, t: Template, sight: Sight): Lookups {
    UndoLookups(t, sight, KeysOf(ctx), ctx.template.rollbackMap, |results|)
  }

  function UndoPlan(ctx: Ctx, results: seq<StepResult>, t: Template, sight: Sight, vars: Variables): RollbackPlan {
    RollbackPlanFor(Positions(results, true), KeysOf(ctx), ctx.template.rollbackMap, UndoAnswers(ctx, results, t, sight), vars)
  }

  /** The rollback is rendered with the template as it is now. */
  function UndoVars(s: State, o: Id, template: Option<Template>): Variables {
    if template.Some? && o in s.orders then Context(template.value.commandVars, s.orders[o].snapshot) else map[]
  }

  /** A plan that is not ready, or has nothing to send, ends the order without another device call. */
  predicate GoesOut(plan: RollbackPlan) {
    plan.Ready? && plan.commands != []
  }

  /** An inactive or missing template is an error of the rollback phase. */
  function PlanNow(s: State, w: Worker, template: Option<Template>, sight: Sight): RollbackPlan
    requires w.Compensating?
  {
    if template.Some? && template.value.active then UndoPlan(w.ctx, w.results, template.value, sight, UndoVars(s, w.order, template)) else Raised
  }

  function DoPlanUndo(s: State, d: Id, template: Option<Template>, sight: Sight): (t: State)
    ensures t == s.(workers := t.workers, stages := t.stages)
  {
    if d !in s.workers || !s.workers[d].Compensating? then s
    else
      var w := s.workers[d];
      var plan := PlanNow(s, w, template, sight);
      if GoesOut(plan)
      then Move(s, d, Prepared(w.order, w.ctx, w.results, Undo(plan.commands, template.value, sight, UndoVars(s, w.order, template))))
      else Abandon(s, d, w.order, w.ctx, w.results)
  }

  function Abandon(s: State, d: Id, o: Id, ctx: Ctx, results: seq<StepResult>): State {
    s.(workers := s.workers[d := Failing(o)], stages := s.stages[o := Abandoned(ctx, results)])
  }

  function AfterUndo(o: Id, reply: Reply, recorded: bool): Worker {
    if !reply.raised && recorded && AllOk(reply.results) then Finishing(o, RolledBack) else Failing(o)
  }

  /** The rollback call; recorded says whether its row could be written. */
  function DoDeprovision(s: State, d: Id, reply: Reply, recorded: bool): State {
    if d !in s.workers || !s.workers[d].Prepared? then s
    else
      var w := s.workers[d];
      s.(workers := s.workers[d := AfterUndo(w.order, reply, recorded)],
         undone := s.undone + [w.order], stages := s.stages[w.order := Undone(w.ctx, w.results, w.undo, reply)])
  }

  /** Only the rollback phase catches an error of this update; elsewhere the exception leaves the delivery. */
  function AfterFinish(o: Id, status: FinalStatus, ok: bool): Worker {
    if !ok then (if status.RolledBack? then Failing(o) else Escaped(o))
    else if status.Success? then Materializing(o)
    else Done
  }

  function DoMarkFinished(s: State, d: Id, ok: bool): State {
    if d !in s.workers || !s.workers[d].Finishing? then s
    else
      var o := s.workers[d].order;
      var status := s.workers[d].status;
      s.(workers := s.workers[d := AfterFinish(o, status, ok)],
         orders := if ok then WithStatus(s.orders, o, status) else s.orders)
  }

  function DoMarkFailed(s: State, d: Id, ok: bool): State {
    if d !in s.workers || !s.workers[d].Failing? then s
    else
      var o := s.workers[d].order;
      s.(workers := s.workers[d := Done], orders := if ok then WithStatus(s.orders, o, Failed) else s.orders)
  }

  // ---------- Materialisation ----------

  function PendingOf(order: Order, serial: string): PendingKey {
    PendingKey(order.olt, order.pon, serial)
  }

  function ResolvePending(s: State, key: PendingKey, linked: Option<Id>): State
    requires key in s.pendings
  {
    s.(pendings := s.pendings[key := s.pendings[key].(state := PendingState.Resolved, linked := linked)])
  }

  function MaterializeOrder(s: State, o: Id, newOnu: Id): (t: State)
    requires o in s.orders
    ensures t == s.(onus := t.onus, pendings := t.pendings, born := t.born, orders := t.orders)
    ensures t.orders == s.orders || t.orders == s.orders[o := s.orders[o].(onu := Some(newOnu))]
  {
    var order := s.orders[o];
    var serial := SerialOf(order);
    if serial.None? || !ActivePending(s, PendingOf(order, serial.value)) then s
    else
      var key := PendingOf(order, serial.value);
      if order.onu.Some? then ResolvePending(s, key, order.onu)
      else if s.pendings[key].model.None? then ResolvePending(s, key, s.pendings[key].linked)
      else if newOnu in s.onus || exists u :: u in s.onus && s.onus[u].live && s.onus[u].serial == serial.value then s
      else
        ResolvePending(s, key, Some(newOnu)).(
          onus := s.onus[newOnu := Onu(serial.value, true)],
          orders := s.orders[o := order.(onu := Some(newOnu))],
          born := s.born + [(o, newOnu)])
  }

  /** _try_materialize_onu: one transaction, whose errors are swallowed. */
  function DoMaterialize(s: State, d: Id, newOnu: Id, ok: bool): State {
    if d !in s.workers || !s.workers[d].Materializing? then s
    else
      var o := s.workers[d].order;
      Move(if ok && o in s.orders then MaterializeOrder(s, o, newOnu) else s, d, Done)
  }

  // ---------- The rest of the system ----------

  function DoInstall(s: State, onu: Id, serial: string): State {
    if onu in s.onus || exists u :: u in s.onus && s.onus[u].live && s.onus[u].serial == serial then s
    else s.(onus := s.onus[onu := Onu(serial, true)])
  }

  function DoRemove(s: State, onu: Id): State {
    if onu in s.onus then s.(onus := s.onus[onu := s.onus[onu].(live := false)]) else s
  }

  /** _upsert_pending_onu: a known ONU keeps its state and its link. */
  function Seen(s: State, key: PendingKey, model: Option<Id>): PendingOnu {
    if key !in s.pendings then PendingOnu(Detected, model, None)
    else s.pendings[key].(model := if model.Some? then model else s.pendings[key].model)
  }

  function DoDiscover(s: State, key: PendingKey, model: Option<Id>): State {
    s.(pendings := s.pendings[key := Seen(s, key, model)])
  }

  /** A delivery id is used once; the same order may be delivered any number of times. */
  function DoDeliver(s: State, d: Id, o: Id): State {
    if d in s.workers then s else Move(s, d, Received(o))
  }

  function DoCrash(s: State, d: Id): State {
    if d in s.workers && !s.workers[d].Escaped? then Move(s, d, Done) else s
  }

  predicate Aside(e: Event) {
    e.Submit? || e.Read? || e.Reject? || e.InstallOnu? || e.RemoveOnu? || e.Discover?
  }

  predicate OfWorker(e: Event) {
    !Aside(e) && !e.Insert? && !e.Cancel? && !e.Deliver? && !e.Crash?
  }

  /** The reads of a request, and the inventory: no order is touched. */
  ghost function ExecAside(s: State, e: Event): (t: State)
    requires Aside(e)
    ensures t == s.(sessions := t.sessions, onus := t.onus, pendings := t.pendings)
  {
    match e
    case Submit(r, req) => if r in s.sessions then s else PutSession(s, r, Session(req, Submitted))
    case Read(r) => DoRead(s, r)
    case Reject(r) => DoReject(s, r)
    case InstallOnu(onu, serial) => DoInstall(s, onu, serial)
    case RemoveOnu(onu) => DoRemove(s, onu)
    case Discover(key, model) => DoDiscover(s, key, model)
  }

  /** The step of a delivery. */
  function ExecWorker(s: State, e: Event): State
    requires OfWorker(e)
  {
    match e
    case Validate(d, readout) => DoValidate(s, d, readout)
    case MarkRunning(d, ok) => DoMarkRunning(s, d, ok)
    case Provision(d, reply) => DoProvision(s, d, reply)
    case Persist(d, ok) => DoPersist(s, d, ok)
    case PlanUndo(d, template, sight) => DoPlanUndo(s, d, template, sight)
    case Deprovision(d, reply, recorded) => DoDeprovision(s, d, reply, recorded)
    case MarkFinished(d, ok) => DoMarkFinished(s, d, ok)
    case MarkFailed(d, ok) => DoMarkFailed(s, d, ok)
    case Materialize(d, newOnu, ok) => DoMaterialize(s, d, newOnu, ok)
  }

  ghost function Exec(s: State, e: Event): State {
    if Aside(e) then ExecAside(s, e)
    else if OfWorker(e) then ExecWorker(s, e)
    else if e.Insert? then DoInsert(s, e.r, e.id)
    else if e.Cancel? then DoCancel(s, e.order)
    else if e.Deliver? then DoDeliver(s, e.d, e.order)
    else DoCrash(s, e.d)
  }

  ghost function Run(s: State, events: seq<Event>): State
    decreases |events|
  {
    if events == [] then s else Run(Exec(s, events[0]), events[1..])
  }

  // ---------- The frame of a delivery's step ----------

  lemma RefuseIsLocal(s: State, d: Id, o: Id)
    requires Lockable(s, o)
    ensures LocalTo(s, Refuse(s, d, o), o) && OnlyAt(s.workers, Refuse(s, d, o).workers, d)
  {
  }

  lemma TakeIsLocal(s: State, d: Id, o: Id, ctx: Ctx)
    requires Lockable(s, o)
    ensures LocalTo(s, Take(s, d, o, ctx), o) && OnlyAt(s.workers, Take(s, d, o, ctx).workers, d)
  {
  }

  lemma ConcludeProgress(s: State, d: Id, o: Id, verdict: Verdict)
    requires Lockable(s, o) && d in s.workers && s.workers[d] == Received(o)
    ensures Progress(s, Conclude(s, d, o, verdict), d)
  {
    if verdict.Usable? { TakeIsLocal(s, d, o, verdict.ctx); } else { RefuseIsLocal(s, d, o); }
  }

  lemma ValidateProgress(s: State, d: Id, readout: Readout)
    ensures Progress(s, DoValidate(s, d, readout), d)
  {
    if d in s.workers && s.workers[d].Received? {
      var o := s.workers[d].order;
      if Conclusive(s, o, readout) {
        ConcludeProgress(s, d, o, Examine(s.orders[o], readout));
      } else {
        RowProgress(s, d, AfterInconclusive(s, o, readout), s.orders);
      }
    }
  }

  /** A step that moves the worker and at most its order's row. */
  lemma RowProgress(s: State, d: Id, w: Worker, rows: Rows)
    requires d in s.workers && !s.workers[d].Done? && (w.Done? || w.order == s.workers[d].order)
    requires RowStep(s.orders, rows, s.workers[d].order)
    ensures Progress(s, s.(workers := s.workers[d := w], orders := rows), d)
  {
  }

  lemma MarkRunningProgress(s: State, d: Id, ok: bool)
    ensures Progress(s, DoMarkRunning(s, d, ok), d)
  {
    if d in s.workers && s.workers[d].Validated? {
      RowProgress(s, d, DoMarkRunning(s, d, ok).workers[d], DoMarkRunning(s, d, ok).orders);
    }
  }

  /** A device call moves the worker, its order's history and the logs. */
  lemma StagesProgress(s: State, t: State, d: Id)
    requires d in s.workers && !s.workers[d].Done? && MakesHistory(s, s.workers[d])
    requires t == s.(workers := t.workers, stages := t.stages, sent := t.sent, undone := t.undone)
    requires WorkerStep(s.workers, t.workers, d) && OnlyAt(s.stages, t.stages, s.workers[d].order)
    ensures Progress(s, t, d)
  {
  }

  lemma ProvisionProgress(s: State, d: Id, reply: Reply)
    ensures Progress(s, DoProvision(s, d, reply), d)
  {
    if d in s.workers && s.workers[d].Started? {
      StagesProgress(s, DoProvision(s, d, reply), d);
    }
  }

  /** A step that moves the worker and at most its order's step rows. */
  lemma StepsProgress(s: State, d: Id, w: Worker, steps: map<Id, seq<StepRow>>)
    requires d in s.workers && !s.workers[d].Done? && (w.Done? || w.order == s.workers[d].order)
    requires OnlyAt(s.steps, steps, s.workers[d].order)
    ensures Progress(s, s.(workers := s.workers[d := w], steps := steps), d)
  {
  }

  lemma PersistProgress(s: State, d: Id, ok: bool)
    ensures Progress(s, DoPersist(s, d, ok), d)
  {
    if d in s.workers && s.workers[d].Answered? {
      StepsProgress(s, d, DoPersist(s, d, ok).workers[d], DoPersist(s, d, ok).steps);
    }
  }

  lemma AbandonProgress(s: State, d: Id, o: Id, ctx: Ctx, results: seq<StepResult>)
    requires d in s.workers && s.workers[d].Compensating? && s.workers[d].order == o
    ensures Progress(s, Abandon(s, d, o, ctx, results), d)
  {
  }

  lemma PlanUndoProgress(s: State, d: Id, template: Option<Template>, sight: Sight)
    ensures Progress(s, DoPlanUndo(s, d, template, sight), d)
  {
    if d in s.workers && s.workers[d].Compensating? {
      var w := s.workers[d];
      if GoesOut(PlanNow(s, w, template, sight)) {
        var undo := Undo(PlanNow(s, w, template, sight).commands, template.value, sight, UndoVars(s, w.order, template));
        assert DoPlanUndo(s, d, template, sight) == Move(s, d, Prepared(w.order, w.ctx, w.results, undo));
      } else {
        AbandonProgress(s, d, w.order, w.ctx, w.results);
      }
    }
  }

  lemma DeprovisionProgress(s: State, d: Id, reply: Reply, recorded: bool)
    ensures Progress(s, DoDeprovision(s, d, reply, recorded), d)
  {
    if d in s.workers && s.workers[d].Prepared? {
      StagesProgress(s, DoDeprovision(s, d, reply, recorded), d);
    }
  }

  lemma MarkFinishedProgress(s: State, d: Id, ok: bool)
    ensures Progress(s, DoMarkFinished(s, d, ok), d)
  {
    if d in s.workers && s.workers[d].Finishing? {
      RowProgress(s, d, AfterFinish(s.workers[d].order, s.workers[d].status, ok), DoMarkFinished(s, d, ok).orders);
    }
  }

  lemma MarkFailedProgress(s: State, d: Id, ok: bool)
    ensures Progress(s, DoMarkFailed(s, d, ok), d)
  {
    if d in s.workers && s.workers[d].Failing? {
      RowProgress(s, d, Done, DoMarkFailed(s, d, ok).orders);
    }
  }

  lemma MaterializeProgress(s: State, d: Id, newOnu: Id, ok: bool)
    ensures Progress(s, DoMaterialize(s, d, newOnu, ok), d)
  {
  }

  lemma WorkerProgress(s: State, e: Event)
    requires OfWorker(e)
    ensures Progress(s, ExecWorker(s, e), e.d)
  {
    match e
    case Validate(d, readout) => ValidateProgress(s, d, readout);
    case MarkRunning(d, ok) => MarkRunningProgress(s, d, ok);
    case Provision(d, reply) => ProvisionProgress(s, d, reply);
    case Persist(d, ok) => PersistProgress(s, d, ok);
    case PlanUndo(d, template, sight) => PlanUndoProgress(s, d, template, sight);
    case Deprovision(d, reply, recorded) => DeprovisionProgress(s, d, reply, recorded);
    case MarkFinished(d, ok) => MarkFinishedProgress(s, d, ok);
    case MarkFailed(d, ok) => MarkFailedProgress(s, d, ok);
    case Materialize(d, newOnu, ok) => MaterializeProgress(s, d, newOnu, ok);
  }

  // ---------- Rows move on ----------

  lemma RowStepEvolves(a: Rows, b: Rows, o: Id)
    requires RowStep(a, b, o)
    ensures Evolves(a, b) && a.Keys == b.Keys
  {
  }

  lemma EnterEvolves(s: State, r: Id, id: Id)
    requires Inserting(s, r, id)
    ensures Evolves(s.orders, Enter(s, r, id).orders) && Enter(s, r, id).orders.Keys == s.orders.Keys + {id}
    ensures forall o | o in s.orders :: Enter(s, r, id).orders[o] == s.orders[o]
  {
  }

  lemma InsertEvolves(s: State, r: Id, id: Id)
    ensures Evolves(s.orders, DoInsert(s, r, id).orders)
  {
    if Inserting(s, r, id) {
      if CreationOf(s, r).Created? { EnterEvolves(s, r, id); } else { assert RefuseInsert(s, r).orders == s.orders; }
    }
  }

  /** A delivery's step keeps the set of orders and moves their rows on. */
  lemma WorkerEvolves(s: State, e: Event)
    requires OfWorker(e)
    ensures Evolves(s.orders, ExecWorker(s, e).orders) && ExecWorker(s, e).orders.Keys == s.orders.Keys
  {
    WorkerProgress(s, e);
    ProgressEvolves(s, ExecWorker(s, e), e.d);
  }

  lemma ProgressEvolves(s: State, t: State, d: Id)
    requires Progress(s, t, d)
    ensures Evolves(s.orders, t.orders) && t.orders.Keys == s.orders.Keys
  {
    if t.orders != s.orders {
      RowStepEvolves(s.orders, t.orders, s.workers[d].order);
    }
  }

  lemma CancelEvolves(s: State, o: Id)
    ensures Evolves(s.orders, DoCancel(s, o).orders) && DoCancel(s, o).orders.Keys == s.orders.Keys
  {
    RowStepEvolves(s.orders, DoCancel(s, o).orders, o);
  }

  /** What is neither a read, nor an insert, nor inventory moves rows on and leaves requests alone. */
  lemma RestEvolves(s: State, e: Event)
    requires !Aside(e) && !e.Insert?
    ensures var t := Exec(s, e);
            Evolves(s.orders, t.orders) && t.orders.Keys == s.orders.Keys && t.sessions == s.sessions && t.clock == s.clock
  {
    if OfWorker(e) {
      WorkerEvolves(s, e);
      WorkerProgress(s, e);
    } else if e.Cancel? {
      CancelEvolves(s, e.order);
    }
  }

  lemma EnterTouches(s: State, r: Id, id: Id)
    requires Inserting(s, r, id)
    ensures var t := Enter(s, r, id); t.pendings == s.pendings && OnlyAt(s.sessions, t.sessions, r)
  {
  }

  lemma InsertTouches(s: State, r: Id, id: Id)
    ensures var t := DoInsert(s, r, id); t.pendings == s.pendings && OnlyAt(s.sessions, t.sessions, r)
  {
    if Inserting(s, r, id) && CreationOf(s, r).Created? {
      EnterTouches(s, r, id);
    }
  }

  lemma StepEvolves(s: State, e: Event)
    ensures Evolves(s.orders, Exec(s, e).orders)
  {
    if e.Insert? { InsertEvolves(s, e.r, e.id); } else if !Aside(e) { RestEvolves(s, e); }
  }

  /** No order disappears, returns to PENDING or changes more than its status and a missing ONU. */
  lemma {:induction false} RunEvolves(s: State, events: seq<Event>)
    ensures Evolves(s.orders, Run(s, events).orders)
    decreases |events|
  {
    if events != [] {
      StepEvolves(s, events[0]);
      RunEvolves(Exec(s, events[0]), events[1..]);
      EvolvesTransitive(s.orders, Exec(s, events[0]).orders, Run(s, events).orders);
    }
  }

  lemma EvolvesTransitive(a: Rows, b: Rows, c: Rows)
    requires Evolves(a, b) && Evolves(b, c)
    ensures Evolves(a, c)
  {
    forall o | o in a
      ensures o in c && Continues(a[o], c[o])
    {
      assert Continues(a[o], b[o]) && Continues(b[o], c[o]);
    }
  }
}
