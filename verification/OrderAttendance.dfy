/** How a delivery ends, and that no order is left behind while every write gets through. */
module OrderAttendance {
  import opened Prelude
  import opened CommandCaching
  import opened Commands
  import opened Orders
  import opened Saga
  import opened OrderProtocol
  import opened OrderSafety
  import opened OrderOutcomes
  import opened OrderDelivery

  // ---------- How a delivery ends ----------

  /** The ways in which a step of its own ends a delivery. */
  ghost predicate Concluded(s: State, e: Event, t: State, w: Worker) {
    match w
    case Received(o) => e.Validate? && e.readout.Readout? && (o !in s.orders || s.orders[o].status != Pending || Ends(t, o, Failed))
    case Finishing(o, final) => e.MarkFinished? && e.ok && final != Success && (o in s.orders ==> Ends(t, o, final))
    case Failing(o) => e.MarkFailed? && (e.ok && o in s.orders ==> Ends(t, o, Failed))
    case Materializing(_) => e.Materialize?
    case _ => false
  }

  lemma ValidateConcludes(s: State, d: Id, readout: Readout)
    requires d in s.workers && s.workers[d].Received?
    ensures var t := DoValidate(s, d, readout);
            d in t.workers && (t.workers[d].Done? ==> Concluded(s, Validate(d, readout), t, s.workers[d]))
  {
    var o := s.workers[d].order;
    if Conclusive(s, o, readout) {
      assert DoValidate(s, d, readout) == Conclude(s, d, o, Examine(s.orders[o], readout));
    }
  }

  lemma CallGoesOn(s: State, e: Event)
    requires (e.Provision? || e.Persist?) && e.d in s.workers
    ensures e.d in ExecWorker(s, e).workers && (ExecWorker(s, e).workers[e.d].Done? ==> s.workers[e.d].Done?)
  {
  }

  lemma UndoGoesOn(s: State, e: Event)
    requires (e.PlanUndo? || e.Deprovision?) && e.d in s.workers
    ensures e.d in ExecWorker(s, e).workers && (ExecWorker(s, e).workers[e.d].Done? ==> s.workers[e.d].Done?)
  {
  }

  lemma RunningGoesOn(s: State, d: Id, ok: bool)
    requires d in s.workers && !s.workers[d].Done?
    ensures d in DoMarkRunning(s, d, ok).workers && !DoMarkRunning(s, d, ok).workers[d].Done?
  {
  }

  lemma FinishConcludes(s: State, d: Id, ok: bool)
    requires d in s.workers && !s.workers[d].Done?
    ensures var t := DoMarkFinished(s, d, ok);
            d in t.workers && (t.workers[d].Done? ==> Concluded(s, MarkFinished(d, ok), t, s.workers[d]))
  {
  }

  lemma FailureConcludes(s: State, d: Id, ok: bool)
    requires d in s.workers && !s.workers[d].Done?
    ensures var t := DoMarkFailed(s, d, ok);
            d in t.workers && (t.workers[d].Done? ==> Concluded(s, MarkFailed(d, ok), t, s.workers[d]))
  {
  }

  lemma MaterializeConcludes(s: State, e: Event)
    requires e.Materialize? && e.d in s.workers && !s.workers[e.d].Done?
    ensures var t := ExecWorker(s, e);
            e.d in t.workers && (t.workers[e.d].Done? ==> Concluded(s, e, t, s.workers[e.d]))
  {
  }

  /**
   * A step of its own ends a delivery only as follows: phase 1 refuses the order or finds it no longer pending, a closing
   * status other than SUCCESS is written, the failure is marked, or materialisation is over. A rollback call that reports
   * a failure, in particular, does not end it.
   */
  lemma DoneOnlyBy(s: State, e: Event)
    requires OfWorker(e) && e.d in s.workers && !s.workers[e.d].Done?
    ensures var t := Exec(s, e); e.d in t.workers && (t.workers[e.d].Done? ==> Concluded(s, e, t, s.workers[e.d]))
  {
    match e
    case Validate(d, readout) => if s.workers[d].Received? { ValidateConcludes(s, d, readout); }
    case Materialize(_, _, _) => MaterializeConcludes(s, e);
    case MarkRunning(d, ok) => RunningGoesOn(s, d, ok);
    case MarkFinished(d, ok) => FinishConcludes(s, d, ok);
    case MarkFailed(d, ok) => FailureConcludes(s, d, ok);
    case _ => if e.PlanUndo? || e.Deprovision? { UndoGoesOn(s, e); } else { CallGoesOn(s, e); }
  }

  // ---------- What does not get through leaves no trace ----------

  /** A transaction of the delivery that fails: an error of the database while it reads or writes. */
  predicate Fails(e: Event) {
    (e.Validate? && e.readout.Unreadable?) || ((e.MarkRunning? || e.Persist? || e.MarkFinished? || e.MarkFailed? || e.Materialize?) && !e.ok)
  }

  /** Where the delivery stands after its transaction has failed. */
  predicate AfterFailure(w: Worker, next: Worker) {
    match w
    case Received(o) => next == Failing(o)
    case Validated(o, _) => next == Failing(o)
    case Answered(o, _, _) => next == Failing(o)
    case Finishing(o, final) => next == if final == RolledBack then Failing(o) else Escaped(o)
    case Failing(_) => next == Done
    case Materializing(_) => next == Done
    case _ => next == w
  }

  ghost predicate Traceless(s: State, t: State, d: Id)
    requires d in s.workers
  {
    t == s || (d in t.workers && t == s.(workers := s.workers[d := t.workers[d]]) && AfterFailure(s.workers[d], t.workers[d]))
  }

  /** A transaction that fails changes nothing but where its delivery stands. */
  lemma FailureLeavesNoTrace(s: State, e: Event)
    requires Fails(e) && e.d in s.workers
    ensures Traceless(s, Exec(s, e), e.d)
  {
    if e.MarkFinished? || e.MarkFailed? || e.Materialize? { FailedClosing(s, e); } else { FailedMidway(s, e); }
  }

  lemma FailedMidway(s: State, e: Event)
    requires Fails(e) && e.d in s.workers && (e.Validate? || e.MarkRunning? || e.Persist?)
    ensures Traceless(s, ExecWorker(s, e), e.d)
  {
    match e
    case Validate(d, _) => FailedValidate(s, d);
    case MarkRunning(d, _) => FailedMarkRunning(s, d);
    case Persist(d, _) => FailedPersist(s, d);
  }

  lemma FailedClosing(s: State, e: Event)
    requires Fails(e) && e.d in s.workers && (e.MarkFinished? || e.MarkFailed? || e.Materialize?)
    ensures Traceless(s, ExecWorker(s, e), e.d)
  {
    match e
    case MarkFinished(d, _) => FailedFinish(s, d);
    case MarkFailed(d, _) => FailedFailure(s, d);
    case Materialize(d, newOnu, _) => FailedMaterialize(s, d, newOnu);
  }

  lemma FailedValidate(s: State, d: Id)
    requires d in s.workers
    ensures Traceless(s, DoValidate(s, d, Unreadable), d)
  {
  }

  lemma FailedMarkRunning(s: State, d: Id)
    requires d in s.workers
    ensures Traceless(s, DoMarkRunning(s, d, false), d)
  {
  }

  lemma FailedPersist(s: State, d: Id)
    requires d in s.workers
    ensures Traceless(s, DoPersist(s, d, false), d)
  {
  }

  lemma FailedFinish(s: State, d: Id)
    requires d in s.workers
    ensures Traceless(s, DoMarkFinished(s, d, false), d)
  {
  }

  lemma FailedFailure(s: State, d: Id)
    requires d in s.workers
    ensures Traceless(s, DoMarkFailed(s, d, false), d)
  {
  }

  lemma FailedMaterialize(s: State, d: Id, newOnu: Id)
    requires d in s.workers
    ensures Traceless(s, DoMaterialize(s, d, newOnu, false), d)
  {
  }

  /** A crash ends the delivery where it stands; what it has written stays. */
  lemma CrashEnds(s: State, d: Id)
    requires d in s.workers && !s.workers[d].Escaped?
    ensures Exec(s, Crash(d)) == s.(workers := s.workers[d := Done])
  {
  }

  // ---------- No order is left behind ----------

  /** No delivery crashes, and the failure mark and the closing update get through. */
  predicate Untroubled(e: Event) {
    !e.Crash? && (e.MarkFailed? ==> e.ok) && (e.MarkFinished? ==> e.ok)
  }

  /** The delivery still has something to write about the order. */
  predicate AtWork(w: Worker, o: Id) {
    match w
    case Validated(p, _) => p == o
    case Started(p, _) => p == o
    case Answered(p, _, _) => p == o
    case Compensating(p, _, _) => p == o
    case Prepared(p, _, _, _) => p == o
    case Finishing(p, _) => p == o
    case Failing(p) => p == o
    case _ => false
  }

  /** The delivery that took the order is still at work on it. */
  predicate Attended(s: State, o: Id) {
    o in s.claims && s.claims[o] in s.workers && AtWork(s.workers[s.claims[o]], o)
  }

  predicate Underway(s: State, o: Id) {
    o in s.orders && !StageOf(s, o).Archived? && s.orders[o].status in {Validating, Running}
  }

  ghost predicate AllAttended(s: State) {
    forall o | Underway(s, o) :: Attended(s, o)
  }

  /** The step of a delivery that works on another order. */
  lemma ElsewhereAttended(s: State, t: State, d: Id, o: Id)
    requires Inv(s) && AllAttended(s) && Progress(s, t, d) && Underway(t, o)
    requires d in s.workers && !s.workers[d].Done? && s.workers[d].order != o
    ensures Attended(t, o)
  {
    assert o in s.orders && t.orders[o] == s.orders[o] && StageOf(t, o) == StageOf(s, o);
    assert Underway(s, o);
    assert s.claims[o] != d;
    assert t.claims == s.claims || (o in t.claims && t.claims[o] == s.claims[o]);
  }

  lemma ValidateAttended(s: State, d: Id, readout: Readout, o: Id)
    requires Inv(s) && AllAttended(s) && d in s.workers && s.workers[d] == Received(o) && Underway(DoValidate(s, d, readout), o)
    ensures Attended(DoValidate(s, d, readout), o)
  {
    if Conclusive(s, o, readout) {
      ConcludeAttended(s, d, o, Examine(s.orders[o], readout));
    } else {
      var t := Move(s, d, AfterInconclusive(s, o, readout));
      assert DoValidate(s, d, readout) == t && Underway(s, o);
      assert s.claims[o] != d;
    }
  }

  lemma ConcludeAttended(s: State, d: Id, o: Id, verdict: Verdict)
    requires d in s.workers && Lockable(s, o) && Underway(Conclude(s, d, o, verdict), o)
    ensures Attended(Conclude(s, d, o, verdict), o)
  {
  }

  /** An engaged delivery is the one that took the order. */
  lemma EngagedClaims(s: State, d: Id)
    requires Inv(s) && d in s.workers && Engaged(s.workers[d])
    ensures var o := s.workers[d].order; o in s.claims && s.claims[o] == d && o in s.orders
  {
    assert Holds(s, d);
  }

  /** The step is none at all, or one after which an engaged delivery is still at work on its order. */
  ghost predicate WorksOn(s: State, t: State, d: Id)
    requires d in s.workers && !s.workers[d].Done?
  {
    && t.claims == s.claims && d in t.workers
    && (t == s || (Engaged(s.workers[d]) && AtWork(t.workers[d], s.workers[d].order)))
  }

  lemma RunningWorksOn(s: State, d: Id, ok: bool)
    requires d in s.workers && !s.workers[d].Done?
    ensures WorksOn(s, DoMarkRunning(s, d, ok), d)
  {
  }

  lemma ProvisionWorksOn(s: State, d: Id, reply: Reply)
    requires d in s.workers && !s.workers[d].Done?
    ensures WorksOn(s, DoProvision(s, d, reply), d)
  {
  }

  lemma PersistWorksOn(s: State, d: Id, ok: bool)
    requires d in s.workers && !s.workers[d].Done?
    ensures WorksOn(s, DoPersist(s, d, ok), d)
  {
  }

  lemma PlanUndoWorksOn(s: State, d: Id, template: Option<Template>, sight: Sight)
    requires d in s.workers && !s.workers[d].Done?
    ensures WorksOn(s, DoPlanUndo(s, d, template, sight), d)
  {
    if s.workers[d].Compensating? {
      var w := s.workers[d];
      var plan := PlanNow(s, w, template, sight);
      if GoesOut(plan) {
        assert DoPlanUndo(s, d, template, sight) ==
               Move(s, d, Prepared(w.order, w.ctx, w.results, Undo(plan.commands, template.value, sight, UndoVars(s, w.order, template))));
      } else {
        assert DoPlanUndo(s, d, template, sight) == Abandon(s, d, w.order, w.ctx, w.results);
      }
    }
  }

  lemma DeprovisionWorksOn(s: State, d: Id, reply: Reply, recorded: bool)
    requires d in s.workers && !s.workers[d].Done?
    ensures WorksOn(s, DoDeprovision(s, d, reply, recorded), d)
  {
  }

  lemma WorkGoesOn(s: State, t: State, d: Id, o: Id)
    requires Inv(s) && AllAttended(s) && d in s.workers && !s.workers[d].Done? && s.workers[d].order == o
    requires WorksOn(s, t, d) && Underway(t, o)
    ensures Attended(t, o)
  {
    if t != s {
      EngagedClaims(s, d);
    }
  }

  lemma FinishAttended(s: State, d: Id, o: Id)
    requires AllAttended(s) && d in s.workers && !s.workers[d].Done? && s.workers[d].order == o
    requires Underway(DoMarkFinished(s, d, true), o)
    ensures Attended(DoMarkFinished(s, d, true), o)
  {
    assert Underway(s, o);
  }

  lemma FailureAttended(s: State, d: Id, o: Id)
    requires AllAttended(s) && d in s.workers && !s.workers[d].Done? && s.workers[d].order == o
    requires Underway(DoMarkFailed(s, d, true), o)
    ensures Attended(DoMarkFailed(s, d, true), o)
  {
    assert Underway(s, o);
  }

  lemma MaterializeKeepsStatus(s: State, o: Id, newOnu: Id, p: Id)
    requires o in s.orders && p in MaterializeOrder(s, o, newOnu).orders
    ensures p in s.orders && MaterializeOrder(s, o, newOnu).orders[p].status == s.orders[p].status
  {
  }

  lemma MaterializeAttended(s: State, d: Id, newOnu: Id, ok: bool, o: Id)
    requires AllAttended(s) && d in s.workers && !s.workers[d].Done? && s.workers[d].order == o
    requires Underway(DoMaterialize(s, d, newOnu, ok), o)
    ensures Attended(DoMaterialize(s, d, newOnu, ok), o)
  {
    if s.workers[d].Materializing? && ok && o in s.orders {
      MaterializeKeepsStatus(s, o, newOnu, o);
    }
    assert Underway(s, o);
  }

  lemma OwnAttended(s: State, e: Event, o: Id)
    requires Inv(s) && AllAttended(s) && OfWorker(e) && Untroubled(e)
    requires e.d in s.workers && !s.workers[e.d].Done? && s.workers[e.d].order == o && Underway(ExecWorker(s, e), o)
    ensures Attended(ExecWorker(s, e), o)
  {
    match e
    case Validate(d, readout) =>
      if s.workers[d].Received? { ValidateAttended(s, d, readout, o); }
    case MarkFinished(d, _) => FinishAttended(s, d, o);
    case MarkFailed(d, _) => FailureAttended(s, d, o);
    case Materialize(d, newOnu, ok) => MaterializeAttended(s, d, newOnu, ok, o);
    case MarkRunning(d, ok) =>
      RunningWorksOn(s, d, ok);
      WorkGoesOn(s, DoMarkRunning(s, d, ok), d, o);
    case Provision(d, reply) =>
      ProvisionWorksOn(s, d, reply);
      WorkGoesOn(s, DoProvision(s, d, reply), d, o);
    case Persist(d, ok) =>
      PersistWorksOn(s, d, ok);
      WorkGoesOn(s, DoPersist(s, d, ok), d, o);
    case PlanUndo(d, template, sight) =>
      PlanUndoWorksOn(s, d, template, sight);
      WorkGoesOn(s, DoPlanUndo(s, d, template, sight), d, o);
    case Deprovision(d, reply, recorded) =>
      DeprovisionWorksOn(s, d, reply, recorded);
      WorkGoesOn(s, DoDeprovision(s, d, reply, recorded), d, o);
  }

  lemma WorkerAttended(s: State, e: Event)
    requires Inv(s) && AllAttended(s) && OfWorker(e) && Untroubled(e)
    ensures AllAttended(ExecWorker(s, e))
  {
    forall o | Underway(ExecWorker(s, e), o)
      ensures Attended(ExecWorker(s, e), o)
    {
      WorkerProgress(s, e);
      if e.d in s.workers && !s.workers[e.d].Done? {
        if s.workers[e.d].order == o { OwnAttended(s, e, o); } else { ElsewhereAttended(s, ExecWorker(s, e), e.d, o); }
      } else {
        assert ExecWorker(s, e) == s by { IdleStep(s, e); }
      }
    }
  }

  lemma IdleStep(s: State, e: Event)
    requires OfWorker(e) && (e.d !in s.workers || s.workers[e.d].Done?)
    ensures ExecWorker(s, e) == s
  {
  }

  lemma InsertAttended(s: State, r: Id, id: Id)
    requires AllAttended(s)
    ensures AllAttended(DoInsert(s, r, id))
  {
    if Inserting(s, r, id) {
      if CreationOf(s, r).Created? { EnterAttended(s, r, id); } else { SessionAttended(s, RefuseInsert(s, r)); }
    }
  }

  lemma SessionAttended(s: State, t: State)
    requires AllAttended(s) && t == s.(sessions := t.sessions)
    ensures AllAttended(t)
  {
    forall o | Underway(t, o)
      ensures Attended(t, o)
    {
      assert Underway(s, o);
    }
  }

  lemma EnterAttended(s: State, r: Id, id: Id)
    requires AllAttended(s) && Inserting(s, r, id)
    ensures AllAttended(Enter(s, r, id))
  {
    var t := Enter(s, r, id);
    forall o | Underway(t, o)
      ensures Attended(t, o)
    {
      assert o != id && Underway(s, o);
    }
  }

  lemma CancelAttended(s: State, p: Id)
    requires AllAttended(s)
    ensures AllAttended(DoCancel(s, p))
  {
    var t := DoCancel(s, p);
    forall o | Underway(t, o)
      ensures Attended(t, o)
    {
      assert Underway(s, o);
    }
  }

  lemma DeliverAttended(s: State, d: Id, p: Id)
    requires AllAttended(s)
    ensures AllAttended(DoDeliver(s, d, p))
  {
    var t := DoDeliver(s, d, p);
    forall o | Underway(t, o)
      ensures Attended(t, o)
    {
      assert Underway(s, o);
    }
  }

  lemma AsideAttended(s: State, e: Event)
    requires AllAttended(s) && Aside(e)
    ensures AllAttended(ExecAside(s, e))
  {
    var t := ExecAside(s, e);
    forall o | Underway(t, o)
      ensures Attended(t, o)
    {
      assert Underway(s, o);
    }
  }

  lemma StepAttended(s: State, e: Event)
    requires Inv(s) && AllAttended(s) && Untroubled(e)
    ensures AllAttended(Exec(s, e))
  {
    if Aside(e) { AsideAttended(s, e); }
    else if OfWorker(e) { WorkerAttended(s, e); }
    else if e.Insert? { InsertAttended(s, e.r, e.id); }
    else if e.Cancel? { CancelAttended(s, e.order); }
    else { DeliverAttended(s, e.d, e.order); }
  }

  lemma {:induction false} RunAttended(s: State, events: seq<Event>)
    requires Inv(s) && AllAttended(s) && forall e | e in events :: Untroubled(e)
    ensures AllAttended(Run(s, events))
    decreases |events|
  {
    if events != [] {
      StepAttended(s, events[0]);
      StepKeepsInv(s, events[0]);
      RunAttended(Exec(s, events[0]), events[1..]);
    }
  }

  /**
   * While no delivery crashes and no closing write is lost, an order of the run that is VALIDATING or RUNNING has the
   * delivery that took it still at work: whatever the device and the catalogue answer, no finished delivery leaves its
   * order behind, and so no ONU stays blocked.
   */
  lemma NoneLeftBehind(s: State, events: seq<Event>, o: Id)
    requires Start(s) && forall e | e in events :: !e.Crash? && (e.MarkFailed? || e.MarkFinished? ==> e.ok)
    requires var t := Run(s, events); o in t.orders && !StageOf(t, o).Archived? && t.orders[o].status in {Validating, Running}
    ensures var t := Run(s, events);
            && o in t.claims && t.claims[o] in t.workers
            && !t.workers[t.claims[o]].Done? && !t.workers[t.claims[o]].Materializing? && !t.workers[t.claims[o]].Escaped?
            && t.workers[t.claims[o]].order == o
  {
    StartHasInv(s);
    assert forall p :: !Underway(s, p);
    RunAttended(s, events);
    assert Underway(Run(s, events), o);
  }
}
