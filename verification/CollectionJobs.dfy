/**
 * The collection job protocol: creation, broker deliveries (possibly duplicated), the stale job detector.
 * Each event is one transaction or one adapter call; a list of events is an interleaving.
 */
module CollectionJobs {
  import opened Prelude

  datatype Status = Pending | Running | Success | Failed | Partial | Cancelled

  predicate Active(s: Status) {
    s.Pending? || s.Running?
  }

  datatype Job = Job(olt: Id, jobType: string, status: Status, createdAt: Time, startedAt: Option<Time>)

  /** Where the worker of one delivery stands. */
  datatype Delivery =
    | Received(job: Id)
    | Loaded(job: Id)
    | Collected(job: Id)
    | Persisted(job: Id, unknown: nat)
    | Failing(job: Id)
    | Escaped(job: Id)     // an exception has left the worker
    | Done

  datatype State = State(
    jobs: map<Id, Job>,
    deliveries: map<Id, Delivery>,
    calls: seq<Id>,                 // jobs for which the adapter was called, in order
    stale: map<Id, set<Id>>)        // detector run -> rows it has selected and not updated yet

  datatype Event =
    | Create(id: Id, olt: Id, jobType: string, at: Time)
    | Deliver(d: Id, job: Id)
    | LoadAndMarkRunning(d: Id, ok: bool, at: Time)
    | CallAdapter(d: Id, ok: bool)
    | PersistReadings(d: Id, ok: bool, unknown: nat)
    | MarkFinished(d: Id, ok: bool)
    | MarkFailed(d: Id, ok: bool)
    | Crash(d: Id)
    | SelectStale(detector: Id, cutoff: Time)
    | FailStale(detector: Id)

  // ---------- Transactions ----------

  predicate HasActive(jobs: map<Id, Job>, olt: Id, jobType: string) {
    exists id :: id in jobs && jobs[id].olt == olt && jobs[id].jobType == jobType && Active(jobs[id].status)
  }

  /** A job of this kind has not come to an end. */
  ghost predicate Busy(jobs: map<Id, Job>, olt: Id, jobType: string) {
    exists id :: id in jobs && jobs[id].olt == olt && jobs[id].jobType == jobType && jobs[id].status in {Pending, Running}
  }

  lemma BusyIff(jobs: map<Id, Job>, olt: Id, jobType: string)
    ensures HasActive(jobs, olt, jobType) <==> Busy(jobs, olt, jobType)
  {
    if id :| id in jobs && jobs[id].olt == olt && jobs[id].jobType == jobType && Active(jobs[id].status) {
      assert jobs[id].status in {Pending, Running};
    }
    if id :| id in jobs && jobs[id].olt == olt && jobs[id].jobType == jobType && jobs[id].status in {Pending, Running} {
      assert Active(jobs[id].status);
    }
  }

  function SetStatus(jobs: map<Id, Job>, id: Id, status: Status): map<Id, Job> {
    if id in jobs then jobs[id := jobs[id].(status := status)] else jobs
  }

  predicate Claimable(jobs: map<Id, Job>, id: Id) {
    id in jobs && jobs[id].status.Pending?
  }

  function StartJob(jobs: map<Id, Job>, id: Id, at: Time): map<Id, Job>
    requires id in jobs
  {
    jobs[id := jobs[id].(status := Running, startedAt := Some(at))]
  }

  function FailJobs(jobs: map<Id, Job>, ids: set<Id>): map<Id, Job> {
    map id | id in jobs :: if id in ids then jobs[id].(status := Failed) else jobs[id]
  }

  function FinalStatus(unknown: nat): Status {
    if unknown > 0 then Partial else Success
  }

  predicate IsStale(job: Job, cutoff: Time) {
    || (job.status.Running? && job.startedAt.Some? && job.startedAt.value < cutoff)
    || (job.status.Pending? && job.createdAt < cutoff)
  }

  function Move(s: State, d: Id, to: Delivery): State {
    s.(deliveries := s.deliveries[d := to])
  }

  function Exec(s: State, e: Event): State {
    match e
    case Create(id, olt, jobType, at) =>
      // uq_collection_job_running rejects the insert while another job is active.
      if id in s.jobs || HasActive(s.jobs, olt, jobType) then s
      else s.(jobs := s.jobs[id := Job(olt, jobType, Pending, at, None)])
    case Deliver(d, job) =>
      if d in s.deliveries then s else Move(s, d, Received(job))
    case LoadAndMarkRunning(d, ok, at) =>
      if d !in s.deliveries || !s.deliveries[d].Received? then s
      else
        var job := s.deliveries[d].job;
        // An error may strike before the job has been read; a lock held elsewhere, after.
        if !ok then Move(s, d, Failing(job))
        else if !Claimable(s.jobs, job) then Move(s, d, Done)
        else Move(s, d, Loaded(job)).(jobs := StartJob(s.jobs, job, at))
    case CallAdapter(d, ok) =>
      if d !in s.deliveries || !s.deliveries[d].Loaded? then s
      else
        var job := s.deliveries[d].job;
        Move(s, d, if ok then Collected(job) else Failing(job)).(calls := s.calls + [job])
    case PersistReadings(d, ok, unknown) =>
      if d !in s.deliveries || !s.deliveries[d].Collected? then s
      else
        var job := s.deliveries[d].job;
        Move(s, d, if ok then Persisted(job, unknown) else Failing(job))
    case MarkFinished(d, ok) =>
      // The closing update stands outside every try block.
      if d !in s.deliveries || !s.deliveries[d].Persisted? then s
      else if !ok then Move(s, d, Escaped(s.deliveries[d].job))
      else
        var w := s.deliveries[d];
        Move(s, d, Done).(jobs := SetStatus(s.jobs, w.job, FinalStatus(w.unknown)))
    case MarkFailed(d, ok) =>
      // Best effort: an error while writing is logged and swallowed.
      if d !in s.deliveries || !s.deliveries[d].Failing? then s
      else
        var job := s.deliveries[d].job;
        Move(s, d, Done).(jobs := if ok then SetStatus(s.jobs, job, Failed) else s.jobs)
    case Crash(d) =>
      if d !in s.deliveries || s.deliveries[d].Escaped? then s else Move(s, d, Done)
    case SelectStale(detector, cutoff) =>
      s.(stale := s.stale[detector := set id | id in s.jobs && IsStale(s.jobs[id], cutoff)])
    case FailStale(detector) =>
      if detector !in s.stale then s
      else s.(stale := s.stale - {detector}, jobs := FailJobs(s.jobs, s.stale[detector]))
  }

  function Run(s: State, events: seq<Event>): State
    decreases |events|
  {
    if events == [] then s else Run(Exec(s, events[0]), events[1..])
  }

  // ---------- What every run keeps ----------

  ghost predicate OneActivePerKind(jobs: map<Id, Job>) {
    forall i, j | i in jobs && j in jobs && i != j && Active(jobs[i].status) && Active(jobs[j].status) ::
      jobs[i].olt != jobs[j].olt || jobs[i].jobType != jobs[j].jobType
  }

  ghost predicate Started(s: State, job: Id) {
    job in s.jobs && !s.jobs[job].status.Pending?
  }

  ghost predicate Inv(s: State) {
    && OneActivePerKind(s.jobs)
    && (forall i | 0 <= i < |s.calls| :: Started(s, s.calls[i]))
    && (forall i, j | 0 <= i < j < |s.calls| :: s.calls[i] != s.calls[j])
    && (forall d | d in s.deliveries && s.deliveries[d].Loaded? ::
          Started(s, s.deliveries[d].job) && s.deliveries[d].job !in s.calls)
    && (forall d, e | d in s.deliveries && e in s.deliveries && d != e && s.deliveries[d].Loaded? && s.deliveries[e].Loaded? ::
          s.deliveries[d].job != s.deliveries[e].job)
  }

  /** Any table that meets the unique index, before any delivery is seen. */
  ghost predicate Start(s: State) {
    OneActivePerKind(s.jobs) && s.deliveries == map[] && s.calls == [] && s.stale == map[]
  }

  lemma LoadKeepsInv(s: State, d: Id, ok: bool, at: Time)
    requires Inv(s)
    ensures Inv(Exec(s, LoadAndMarkRunning(d, ok, at)))
  {
  }

  lemma CallKeepsInv(s: State, d: Id, ok: bool)
    requires Inv(s)
    ensures Inv(Exec(s, CallAdapter(d, ok)))
  {
  }

  lemma CreateKeepsIndex(jobs: map<Id, Job>, id: Id, job: Job)
    requires OneActivePerKind(jobs) && id !in jobs && !HasActive(jobs, job.olt, job.jobType)
    ensures OneActivePerKind(jobs[id := job])
  {
  }

  /** No job is activated and nobody gets past loading or calls the adapter. */
  lemma CalmKeepsInv(s: State, s': State)
    requires Inv(s) && s'.calls == s.calls
    requires forall d | d in s'.deliveries && s'.deliveries[d].Loaded? :: d in s.deliveries && s'.deliveries[d] == s.deliveries[d]
    requires forall j | Started(s, j) :: Started(s', j)
    requires OneActivePerKind(s'.jobs)
    ensures Inv(s')
  {
  }

  lemma MarkKeepsIndex(jobs: map<Id, Job>, id: Id, status: Status)
    requires OneActivePerKind(jobs) && !Active(status)
    ensures OneActivePerKind(SetStatus(jobs, id, status))
  {
  }

  lemma CreateKeepsInv(s: State, id: Id, olt: Id, jobType: string, at: Time)
    requires Inv(s)
    ensures Inv(Exec(s, Create(id, olt, jobType, at)))
  {
    if id !in s.jobs && !HasActive(s.jobs, olt, jobType) {
      CreateKeepsIndex(s.jobs, id, Job(olt, jobType, Pending, at, None));
      CalmKeepsInv(s, Exec(s, Create(id, olt, jobType, at)));
    }
  }

  lemma FinishKeepsInv(s: State, d: Id, ok: bool)
    requires Inv(s)
    ensures Inv(Exec(s, MarkFinished(d, ok)))
  {
    if d in s.deliveries && s.deliveries[d].Persisted? {
      MarkKeepsIndex(s.jobs, s.deliveries[d].job, FinalStatus(s.deliveries[d].unknown));
      CalmKeepsInv(s, Exec(s, MarkFinished(d, ok)));
    }
  }

  lemma FailKeepsInv(s: State, d: Id, ok: bool)
    requires Inv(s)
    ensures Inv(Exec(s, MarkFailed(d, ok)))
  {
    if d in s.deliveries && s.deliveries[d].Failing? {
      MarkKeepsIndex(s.jobs, s.deliveries[d].job, Failed);
      CalmKeepsInv(s, Exec(s, MarkFailed(d, ok)));
    }
  }

  lemma StaleKeepsInv(s: State, detector: Id)
    requires Inv(s)
    ensures Inv(Exec(s, FailStale(detector)))
  {
    if detector in s.stale {
      FailKeepsIndex(s.jobs, s.stale[detector]);
      CalmKeepsInv(s, Exec(s, FailStale(detector)));
    }
  }

  /** The remaining events change no job. */
  lemma OtherKeepsInv(s: State, e: Event)
    requires Inv(s) && (e.Deliver? || e.PersistReadings? || e.Crash? || e.SelectStale?)
    ensures Inv(Exec(s, e))
  {
    CalmKeepsInv(s, Exec(s, e));
  }

  lemma FailKeepsIndex(jobs: map<Id, Job>, ids: set<Id>)
    requires OneActivePerKind(jobs)
    ensures OneActivePerKind(FailJobs(jobs, ids))
  {
  }

  lemma StepKeepsInv(s: State, e: Event)
    requires Inv(s)
    ensures Inv(Exec(s, e))
  {
    match e
    case LoadAndMarkRunning(d, ok, at) => LoadKeepsInv(s, d, ok, at);
    case CallAdapter(d, ok) => CallKeepsInv(s, d, ok);
    case Create(id, olt, jobType, at) => CreateKeepsInv(s, id, olt, jobType, at);
    case MarkFinished(d, ok) => FinishKeepsInv(s, d, ok);
    case MarkFailed(d, ok) => FailKeepsInv(s, d, ok);
    case FailStale(detector) => StaleKeepsInv(s, detector);
    case _ => OtherKeepsInv(s, e);
  }

  lemma {:induction false} RunKeepsInv(s: State, events: seq<Event>)
    requires Inv(s)
    ensures Inv(Run(s, events))
    decreases |events|
  {
    if events != [] {
      StepKeepsInv(s, events[0]);
      RunKeepsInv(Exec(s, events[0]), events[1..]);
    }
  }

  /** Over every interleaving: one active job per OLT and kind, and at most one adapter call per job. */
  lemma JobSafety(s: State, events: seq<Event>)
    requires Start(s)
    ensures var jobs := Run(s, events).jobs;
            forall i, j | i in jobs && j in jobs && jobs[i].olt == jobs[j].olt && jobs[i].jobType == jobs[j].jobType
                          && jobs[i].status in {Pending, Running} && jobs[j].status in {Pending, Running} :: i == j
    ensures forall i, j | 0 <= i < j < |Run(s, events).calls| :: Run(s, events).calls[i] != Run(s, events).calls[j]
  {
    RunKeepsInv(s, events);
  }

  /** A job that has left the active statuses never comes back to them. */
  lemma {:induction false} NeverActiveAgain(s: State, events: seq<Event>, job: Id)
    requires job in s.jobs && s.jobs[job].status !in {Pending, Running}
    ensures job in Run(s, events).jobs && Run(s, events).jobs[job].status !in {Pending, Running}
    decreases |events|
  {
    if events != [] {
      NeverActiveAgain(Exec(s, events[0]), events[1..], job);
    }
  }

  // ---------- What undisturbed runs achieve ----------

  /** A detector's selection and its updates, undisturbed: exactly the slow and the forgotten jobs become FAILED. */
  lemma DetectorFailsStale(s: State, k: Id, cutoff: Time)
    ensures var t := Run(s, [SelectStale(k, cutoff)] + [FailStale(k)]);
            && t.jobs.Keys == s.jobs.Keys && t.deliveries == s.deliveries && t.calls == s.calls && t.stale == s.stale - {k}
            && forall id | id in s.jobs ::
                 var job := s.jobs[id];
                 t.jobs[id] == if (job.status == Running && job.startedAt.Some? && job.startedAt.value < cutoff)
                                  || (job.status == Pending && job.createdAt < cutoff)
                               then job.(status := Failed) else job
  {
    RunCons(s, SelectStale(k, cutoff), [FailStale(k)]);
    RunOne(Exec(s, SelectStale(k, cutoff)), FailStale(k));
  }

  /** The events of an undisturbed delivery. */
  function Undisturbed(d: Id, at: Time, unknown: nat): seq<Event> {
    [LoadAndMarkRunning(d, true, at)] + ([CallAdapter(d, true)] + ([PersistReadings(d, true, unknown)] + [MarkFinished(d, true)]))
  }

  /** An undisturbed delivery of a pending job calls the adapter once and ends PARTIAL exactly when a serial was unknown. */
  lemma UndisturbedDelivery(s: State, d: Id, id: Id, at: Time, unknown: nat)
    requires Stands(s, d, Received(id)) && id in s.jobs && s.jobs[id].status == Pending
    ensures var t := Run(s, Undisturbed(d, at, unknown));
            && id in t.jobs && t.jobs == s.jobs[id := t.jobs[id]]
            && t.jobs[id] == s.jobs[id].(status := if unknown == 0 then Success else Partial, startedAt := Some(at))
            && t.calls == s.calls + [id] && Stands(t, d, Done)
  {
    var a := Exec(s, LoadAndMarkRunning(d, true, at));
    var b := Exec(a, CallAdapter(d, true));
    var c := Exec(b, PersistReadings(d, true, unknown));
    RunCons(s, LoadAndMarkRunning(d, true, at), [CallAdapter(d, true)] + ([PersistReadings(d, true, unknown)] + [MarkFinished(d, true)]));
    RunCons(a, CallAdapter(d, true), [PersistReadings(d, true, unknown)] + [MarkFinished(d, true)]);
    RunCons(b, PersistReadings(d, true, unknown), [MarkFinished(d, true)]);
    RunOne(c, MarkFinished(d, true));
  }

  /** Where the delivery stands after its transaction or its call has failed. */
  predicate AfterFailure(w: Delivery, next: Delivery) {
    match w
    case Received(job) => next == Failing(job)
    case Loaded(job) => next == Failing(job)
    case Collected(job) => next == Failing(job)
    case Persisted(job, _) => next == Escaped(job)
    case Failing(_) => next == Done
    case _ => next == w
  }

  /** What fails, or crashes, changes no job: only where the delivery stands, and the log of calls when it was a call. */
  lemma FailureLeavesNoTrace(s: State, e: Event)
    requires (e.LoadAndMarkRunning? || e.CallAdapter? || e.PersistReadings? || e.MarkFinished? || e.MarkFailed?) && !e.ok
    requires e.d in s.deliveries
    ensures var t := Exec(s, e);
            && t == s.(deliveries := t.deliveries, calls := t.calls) && e.d in t.deliveries
            && t.deliveries == s.deliveries[e.d := t.deliveries[e.d]]
            && (t == s || AfterFailure(s.deliveries[e.d], t.deliveries[e.d]))
            && t.calls == if e.CallAdapter? && s.deliveries[e.d].Loaded? then s.calls + [s.deliveries[e.d].job] else s.calls
  {
  }

  lemma CrashEnds(s: State, d: Id)
    requires d in s.deliveries && !s.deliveries[d].Escaped?
    ensures Exec(s, Crash(d)) == s.(deliveries := s.deliveries[d := Done])
  {
  }

  // ---------- No job is left behind ----------

  /** The delivery still has something to write about the job. */
  predicate AtWork(w: Delivery, id: Id) {
    w == Loaded(id) || w == Collected(id) || (w.Persisted? && w.job == id) || w == Failing(id)
  }

  ghost predicate Attended(s: State, id: Id) {
    exists d :: d in s.deliveries && AtWork(s.deliveries[d], id)
  }

  lemma StepAttended(s: State, e: Event, id: Id)
    requires !e.Crash? && (e.MarkFailed? || e.MarkFinished? ==> e.ok)
    requires id in Exec(s, e).jobs && Exec(s, e).jobs[id].status == Running
    ensures (id in s.jobs && s.jobs[id].status == Running && !Attended(s, id)) || Attended(Exec(s, e), id)
  {
    var t := Exec(s, e);
    if id in s.jobs && s.jobs[id].status == Running {
      if d :| d in s.deliveries && AtWork(s.deliveries[d], id) {
        assert d in t.deliveries && AtWork(t.deliveries[d], id);
      }
    } else {
      assert e.LoadAndMarkRunning? && AtWork(t.deliveries[e.d], id);
    }
  }

  /** While no delivery crashes and no closing write is lost, every job that got to RUNNING has a delivery still at work. */
  lemma {:induction false} NoneLeftBehind(s: State, events: seq<Event>, id: Id)
    requires forall e | e in events :: !e.Crash? && (e.MarkFailed? || e.MarkFinished? ==> e.ok)
    requires id in Run(s, events).jobs && Run(s, events).jobs[id].status == Running
    ensures (id in s.jobs && s.jobs[id].status == Running && !Attended(s, id)) || Attended(Run(s, events), id)
    decreases |events|
  {
    if events != [] {
      var front, e := events[..|events| - 1], events[|events| - 1];
      assert events == front + [e] && e in events;
      RunSnoc(s, front, e);
      StepAttended(Run(s, front), e, id);
      if id in Run(s, front).jobs && Run(s, front).jobs[id].status == Running {
        NoneLeftBehind(s, front, id);
      }
    }
  }

  // ---------- When a terminal status is final ----------

  /** The delivery can still write another status over the job's. */
  predicate Threatens(w: Delivery, job: Id, status: Status) {
    match w
    case Received(j) => j == job && status != Failed
    case Loaded(j) => j == job
    case Collected(j) => j == job
    case Persisted(j, unknown) => j == job && FinalStatus(unknown) != status
    case Failing(j) => j == job && status != Failed
    case Escaped(_) => false
    case Done => false
  }

  /** No delivery in flight and no pending detector update can change the job's status. */
  ghost predicate Settled(s: State, job: Id)
    requires job in s.jobs
  {
    && (forall d | d in s.deliveries :: !Threatens(s.deliveries[d], job, s.jobs[job].status))
    && (s.jobs[job].status != Failed ==> forall k | k in s.stale :: job !in s.stale[k])
  }

  /** No new delivery of the job reaches a worker. */
  predicate Undelivered(events: seq<Event>, job: Id) {
    forall e | e in events :: e.Deliver? ==> e.job != job
  }

  lemma StepKeepsSettled(s: State, e: Event, job: Id)
    requires job in s.jobs && !Active(s.jobs[job].status) && Settled(s, job)
    requires e.Deliver? ==> e.job != job || s.jobs[job].status == Failed
    ensures var s' := Exec(s, e); job in s'.jobs && s'.jobs[job].status == s.jobs[job].status && Settled(s', job)
  {
  }

  lemma {:induction false} RunKeepsSettled(s: State, events: seq<Event>, job: Id)
    requires job in s.jobs && !Active(s.jobs[job].status) && Settled(s, job)
    requires Undelivered(events, job) || s.jobs[job].status == Failed
    ensures job in Run(s, events).jobs && Run(s, events).jobs[job].status == s.jobs[job].status
    decreases |events|
  {
    if events != [] {
      assert events[0] in events;
      assert Undelivered(events, job) ==> Undelivered(events[1..], job);
      StepKeepsSettled(s, events[0], job);
      RunKeepsSettled(Exec(s, events[0]), events[1..], job);
    }
  }

  lemma RunOne(s: State, e: Event)
    ensures Run(s, [e]) == Exec(s, e)
  {
    assert Run(s, [e]) == Run(Exec(s, e), []);
  }

  lemma RunCons(s: State, e: Event, rest: seq<Event>)
    ensures Run(s, [e] + rest) == Run(Exec(s, e), rest)
  {
    assert ([e] + rest)[1..] == rest;
  }

  predicate Ends(s: State, job: Id, status: Status) {
    job in s.jobs && s.jobs[job].status == status
  }

  predicate Stands(s: State, d: Id, w: Delivery) {
    d in s.deliveries && s.deliveries[d] == w
  }

  lemma FailingLands(s: State, d: Id, job: Id)
    requires job in s.jobs && Stands(s, d, Failing(job))
    ensures Ends(Run(s, [MarkFailed(d, true)]), job, Failed)
  {
    RunOne(s, MarkFailed(d, true));
  }

  lemma PersistedLands(s: State, d: Id, job: Id, unknown: nat)
    requires job in s.jobs && Stands(s, d, Persisted(job, unknown))
    ensures Ends(Run(s, [MarkFinished(d, true)]), job, FinalStatus(unknown))
  {
    RunOne(s, MarkFinished(d, true));
  }

  /** From a collection on, a delivery can still finish. */
  lemma CollectedLands(s: State, d: Id, job: Id)
    requires job in s.jobs && Stands(s, d, Collected(job))
    ensures Ends(Run(s, [PersistReadings(d, true, 0)] + [MarkFinished(d, true)]), job, Success)
  {
    RunCons(s, PersistReadings(d, true, 0), [MarkFinished(d, true)]);
    PersistedLands(Exec(s, PersistReadings(d, true, 0)), d, job, 0);
  }

  lemma LoadedLands(s: State, d: Id, job: Id)
    requires job in s.jobs && Stands(s, d, Loaded(job))
    ensures Ends(Run(s, [CallAdapter(d, true)] + ([PersistReadings(d, true, 0)] + [MarkFinished(d, true)])), job, Success)
  {
    RunCons(s, CallAdapter(d, true), [PersistReadings(d, true, 0)] + [MarkFinished(d, true)]);
    CollectedLands(Exec(s, CallAdapter(d, true)), d, job);
  }

  /** What makes an unfinished delivery fail. */
  function Mishap(d: Id, w: Delivery): Event {
    match w
    case Received(_) => LoadAndMarkRunning(d, false, 0.0)
    case Loaded(_) => CallAdapter(d, false)
    case _ => PersistReadings(d, false, 0)
  }

  lemma MishapLands(s: State, d: Id, job: Id)
    requires job in s.jobs && d in s.deliveries && s.deliveries[d] in {Received(job), Loaded(job), Collected(job)}
    ensures Ends(Run(s, [Mishap(d, s.deliveries[d])] + [MarkFailed(d, true)]), job, Failed)
  {
    var e := Mishap(d, s.deliveries[d]);
    RunCons(s, e, [MarkFailed(d, true)]);
    FailingLands(Exec(s, e), d, job);
  }

  /** A threat can be carried out without any new delivery. */
  lemma ThreatCanStrike(s: State, d: Id, job: Id) returns (events: seq<Event>)
    requires job in s.jobs && d in s.deliveries && Threatens(s.deliveries[d], job, s.jobs[job].status)
    ensures Undelivered(events, job)
    ensures job in Run(s, events).jobs && Run(s, events).jobs[job].status != s.jobs[job].status
  {
    var w := s.deliveries[d];
    if w.Persisted? {
      events := [MarkFinished(d, true)];
      PersistedLands(s, d, job, w.unknown);
    } else if w.Failing? {
      events := [MarkFailed(d, true)];
      FailingLands(s, d, job);
    } else if s.jobs[job].status != Failed {
      events := [Mishap(d, w)] + [MarkFailed(d, true)];
      MishapLands(s, d, job);
    } else if w.Loaded? {
      events := [CallAdapter(d, true)] + ([PersistReadings(d, true, 0)] + [MarkFinished(d, true)]);
      LoadedLands(s, d, job);
    } else {
      events := [PersistReadings(d, true, 0)] + [MarkFinished(d, true)];
      CollectedLands(s, d, job);
    }
  }

  lemma StaleStrikes(s: State, k: Id, job: Id)
    requires job in s.jobs && k in s.stale && job in s.stale[k]
    ensures Ends(Run(s, [FailStale(k)]), job, Failed)
  {
    RunOne(s, FailStale(k));
  }

  /** The status stays what it is in every continuation without new deliveries of the job. */
  ghost predicate Final(s: State, job: Id)
    requires job in s.jobs
  {
    forall events: seq<Event> | Undelivered(events, job) ::
      job in Run(s, events).jobs && Run(s, events).jobs[job].status == s.jobs[job].status
  }

  /**
   * Terminal statuses are not final in general. Without new deliveries, the status of a job is final exactly when neither
   * a delivery in flight nor a detector that has selected the job can overwrite it.
   */
  lemma FinalIffSettled(s: State, job: Id)
    requires job in s.jobs && !Active(s.jobs[job].status)
    ensures Final(s, job) <==> Settled(s, job)
  {
    if Settled(s, job) {
      forall events: seq<Event> | Undelivered(events, job)
        ensures job in Run(s, events).jobs && Run(s, events).jobs[job].status == s.jobs[job].status
      {
        RunKeepsSettled(s, events, job);
      }
    } else if d :| d in s.deliveries && Threatens(s.deliveries[d], job, s.jobs[job].status) {
      var events := ThreatCanStrike(s, d, job);
      assert !Final(s, job);
    } else {
      var k :| k in s.stale && job in s.stale[k];
      StaleStrikes(s, k, job);
      assert Undelivered([FailStale(k)], job);
    }
  }

  lemma UnusedId(ids: set<Id>) returns (x: Id)
    ensures forall i | i in ids :: i < x
  {
    x := 0;
    var todo := ids;
    while todo != {}
      invariant todo <= ids && forall i | i in ids && i !in todo :: i < x
    {
      var i :| i in todo;
      x := if i < x then x else i + 1;
      todo := todo - {i};
    }
  }

  /** A duplicate delivery can always fail before it has read the job, and so make it FAILED. */
  lemma DeliveryFails(s: State, job: Id) returns (events: seq<Event>)
    requires job in s.jobs
    ensures Ends(Run(s, events), job, Failed)
  {
    var x := UnusedId(s.deliveries.Keys);
    assert x !in s.deliveries;
    var t := Exec(s, Deliver(x, job));
    RunCons(s, Deliver(x, job), [Mishap(x, Received(job))] + [MarkFailed(x, true)]);
    MishapLands(t, x, job);
    events := [Deliver(x, job)] + ([Mishap(x, Received(job))] + [MarkFailed(x, true)]);
  }

  /** The status stays what it is in every continuation, new deliveries of the job included. */
  ghost predicate Irrevocable(s: State, job: Id)
    requires job in s.jobs
  {
    forall events: seq<Event> :: job in Run(s, events).jobs && Run(s, events).jobs[job].status == s.jobs[job].status
  }

  /** With duplicate deliveries, FAILED is the only status that can be final, exactly when no delivery is past loading. */
  lemma IrrevocableIff(s: State, job: Id)
    requires job in s.jobs && !Active(s.jobs[job].status)
    ensures Irrevocable(s, job) <==>
            s.jobs[job].status == Failed && forall d | d in s.deliveries :: !Threatens(s.deliveries[d], job, Failed)
  {
    if s.jobs[job].status != Failed {
      var events := DeliveryFails(s, job);
      assert !Irrevocable(s, job);
    } else if d :| d in s.deliveries && Threatens(s.deliveries[d], job, Failed) {
      var events := ThreatCanStrike(s, d, job);
      assert !Irrevocable(s, job);
    } else {
      forall events: seq<Event>
        ensures job in Run(s, events).jobs && Run(s, events).jobs[job].status == s.jobs[job].status
      {
        RunKeepsSettled(s, events, job);
      }
    }
  }

  /** A job created, delivered and marked running. */
  function Loading(olt: Id, at: Time): seq<Event> {
    [Create(1, olt, "signal_reading", at)] + ([Deliver(7, 1)] + [LoadAndMarkRunning(7, true, at)])
  }

  function Nothing(): State {
    State(map[], map[], [], map[])
  }

  lemma LoadingRun(olt: Id, at: Time, rest: seq<Event>) returns (s: State)
    ensures Run(Nothing(), Loading(olt, at) + rest) == Run(s, rest)
    ensures s == State(map[1 := Job(olt, "signal_reading", Running, at, Some(at))], map[7 := Loaded(1)], [], map[])
  {
    var a := Exec(Nothing(), Create(1, olt, "signal_reading", at));
    var b := Exec(a, Deliver(7, 1));
    s := Exec(b, LoadAndMarkRunning(7, true, at));
    assert Loading(olt, at) + rest == [Create(1, olt, "signal_reading", at)] + ([Deliver(7, 1)] + ([LoadAndMarkRunning(7, true, at)] + rest));
    RunCons(Nothing(), Create(1, olt, "signal_reading", at), [Deliver(7, 1)] + ([LoadAndMarkRunning(7, true, at)] + rest));
    RunCons(a, Deliver(7, 1), [LoadAndMarkRunning(7, true, at)] + rest);
    RunCons(b, LoadAndMarkRunning(7, true, at), rest);
    assert s.deliveries == map[7 := Loaded(1)];
    assert s.jobs == map[1 := Job(olt, "signal_reading", Running, at, Some(at))];
  }

  function Finishing(): seq<Event> {
    [CallAdapter(7, true)] + ([PersistReadings(7, true, 0)] + [MarkFinished(7, true)])
  }

  function Detecting(at: Time, rest: seq<Event>): seq<Event> {
    [SelectStale(3, at + 1.0)] + ([FailStale(3)] + rest)
  }

  lemma DetectingRun(s: State, at: Time, rest: seq<Event>) returns (t: State)
    requires Stands(s, 7, Loaded(1)) && 1 in s.jobs && s.jobs[1].status == Running && s.jobs[1].startedAt == Some(at)
    ensures Run(s, Detecting(at, rest)) == Run(t, rest) && Ends(t, 1, Failed) && Stands(t, 7, Loaded(1))
  {
    var a := Exec(s, SelectStale(3, at + 1.0));
    t := Exec(a, FailStale(3));
    RunCons(s, SelectStale(3, at + 1.0), [FailStale(3)] + rest);
    RunCons(a, FailStale(3), rest);
  }

  /** A run in which the detector fails a slow job and its worker then reports success. */
  lemma FailedThenSuccess(olt: Id, at: Time)
    ensures Start(Nothing())
    ensures Ends(Run(Nothing(), Loading(olt, at) + Detecting(at, [])), 1, Failed)
    ensures Ends(Run(Nothing(), Loading(olt, at) + Detecting(at, Finishing())), 1, Success)
  {
    var s := LoadingRun(olt, at, Detecting(at, []));
    var t := DetectingRun(s, at, []);
    var u := LoadingRun(olt, at, Detecting(at, Finishing()));
    var v := DetectingRun(u, at, Finishing());
    LoadedLands(v, 7, 1);
  }

  /** A run in which a job that succeeded is failed by a duplicate delivery that could not read it. */
  lemma SuccessThenFailed(olt: Id, at: Time)
    ensures Start(Nothing())
    ensures Ends(Run(Nothing(), Loading(olt, at) + Finishing()), 1, Success)
    ensures exists more :: Ends(Run(Run(Nothing(), Loading(olt, at) + Finishing()), more), 1, Failed)
  {
    var s := LoadingRun(olt, at, Finishing());
    LoadedLands(s, 7, 1);
    var more := DeliveryFails(Run(Nothing(), Loading(olt, at) + Finishing()), 1);
  }

  // ---------- An exception leaves the worker ----------

  /** At the k-th event the closing update of the delivery fails. */
  ghost predicate ClosingFails(s: State, events: seq<Event>, d: Id, k: nat) {
    && k < |events| && events[k] == MarkFinished(d, false)
    && var m := Run(s, events[..k]); d in m.deliveries && m.deliveries[d].Persisted?
  }

  predicate HasEscaped(s: State, d: Id) {
    d in s.deliveries && s.deliveries[d].Escaped?
  }

  lemma {:induction false} RunSnoc(s: State, events: seq<Event>, e: Event)
    ensures Run(s, events + [e]) == Exec(Run(s, events), e)
    decreases |events|
  {
    if events == [] {
      RunOne(s, e);
    } else {
      assert (events + [e])[0] == events[0] && (events + [e])[1..] == events[1..] + [e];
      RunSnoc(Exec(s, events[0]), events[1..], e);
    }
  }

  lemma StepEscapes(s: State, e: Event, d: Id)
    ensures HasEscaped(Exec(s, e), d) <==>
            HasEscaped(s, d) || (e == MarkFinished(d, false) && d in s.deliveries && s.deliveries[d].Persisted?)
  {
  }

  lemma ClosingFailsSnoc(s: State, front: seq<Event>, e: Event, d: Id, k: nat)
    ensures ClosingFails(s, front + [e], d, k) <==>
            || ClosingFails(s, front, d, k)
            || (k == |front| && e == MarkFinished(d, false)
                && d in Run(s, front).deliveries && Run(s, front).deliveries[d].Persisted?)
  {
    if k <= |front| {
      assert (front + [e])[..k] == front[..k];
      assert front[..|front|] == front;
    }
  }

  /**
   * Over every run: an exception leaves the worker of a delivery exactly when its closing update fails after the readings
   * were stored; the errors of all three phases are caught.
   */
  lemma {:induction false} EscapesIff(s: State, events: seq<Event>, d: Id)
    requires !HasEscaped(s, d)
    ensures HasEscaped(Run(s, events), d) <==> exists k: nat :: ClosingFails(s, events, d, k)
    decreases |events|
  {
    if events != [] {
      var front, e := events[..|events| - 1], events[|events| - 1];
      var m := Run(s, front);
      assert events == front + [e];
      RunSnoc(s, front, e);
      EscapesIff(s, front, d);
      StepEscapes(m, e, d);
      if k: nat :| ClosingFails(s, front, d, k) {
        ClosingFailsSnoc(s, front, e, d, k);
      }
      if k: nat :| ClosingFails(s, events, d, k) {
        ClosingFailsSnoc(s, front, e, d, k);
      }
      ClosingFailsSnoc(s, front, e, d, |front|);
    }
  }

  /** A run in which the readings are stored, the closing update fails, and the job stays RUNNING. */
  lemma EscapeRun(olt: Id, at: Time)
    ensures var t := Run(Nothing(), Loading(olt, at) + ([CallAdapter(7, true)] + ([PersistReadings(7, true, 0)] + [MarkFinished(7, false)])));
            HasEscaped(t, 7) && Ends(t, 1, Running)
  {
    var tail := [PersistReadings(7, true, 0)] + [MarkFinished(7, false)];
    var s := LoadingRun(olt, at, [CallAdapter(7, true)] + tail);
    var a := Exec(s, CallAdapter(7, true));
    RunCons(s, CallAdapter(7, true), tail);
    RunCons(a, PersistReadings(7, true, 0), [MarkFinished(7, false)]);
    RunOne(Exec(a, PersistReadings(7, true, 0)), MarkFinished(7, false));
  }

  // ---------- The table ----------

  datatype Claim = Claimed | NotPending | LockUnavailable | Errored

  /** What the database does during phase 1: nothing unusual, the OLT's lock is held, or any other error. */
  datatype Attempt = Smooth | LockHeld | Broken

  class JobTable {
    var jobs: map<Id, Job>

    ghost predicate Valid()
      reads this
    {
      OneActivePerKind(jobs)
    }

    constructor ()
      ensures Valid() && jobs == map[]
    {
      jobs := map[];
    }

    /** The insert of a new job; the unique index refuses a second active one. */
    method Insert(id: Id, olt: Id, jobType: string, at: Time) returns (ok: bool)
      requires Valid() && id !in jobs
      modifies this
      ensures Valid()
      ensures ok <==> !Busy(old(jobs), olt, jobType)
      ensures jobs == if ok then old(jobs)[id := Job(olt, jobType, Pending, at, None)] else old(jobs)
    {
      BusyIff(jobs, olt, jobType);
      ok := !HasActive(jobs, olt, jobType);
      if ok {
        jobs := jobs[id := Job(olt, jobType, Pending, at, None)];
      }
    }

    /** Lock, load and mark running; an error may strike whatever the job's status, and rolls the transaction back. */
    method LoadAndMarkRunning(id: Id, attempt: Attempt, at: Time) returns (claim: Claim)
      requires Valid()
      modifies this
      ensures Valid()
      ensures claim == if attempt.Broken? then Errored
                       else if id !in old(jobs) || old(jobs)[id].status != Pending then NotPending
                       else if attempt.LockHeld? then LockUnavailable
                       else Claimed
      ensures jobs == if claim.Claimed? then old(jobs)[id := old(jobs)[id].(status := Running, startedAt := Some(at))] else old(jobs)
    {
      if attempt == Broken {
        return Errored;
      }
      if id !in jobs || jobs[id].status != Pending {
        return NotPending;
      }
      if attempt == LockHeld {
        return LockUnavailable;
      }
      jobs := jobs[id := jobs[id].(status := Running, startedAt := Some(at))];
      claim := Claimed;
    }

    /** _mark_failed and _mark_finished: the row is updated whatever its status. */
    method Finish(id: Id, status: Status)
      requires Valid() && !Active(status)
      modifies this
      ensures Valid()
      ensures jobs == SetStatus(old(jobs), id, status)
    {
      jobs := SetStatus(jobs, id, status);
    }

    /** The updates of detect_stale_jobs for the rows its query returned. */
    method FailStale(rows: seq<Id>)
      requires Valid()
      modifies this
      ensures Valid()
      ensures jobs == FailJobs(old(jobs), set id | id in rows)
      ensures jobs.Keys == old(jobs).Keys
      ensures forall id | id in jobs :: jobs[id] == if id in rows then old(jobs)[id].(status := Failed) else old(jobs)[id]
    {
      for i := 0 to |rows|
        invariant Valid()
        invariant jobs == FailJobs(old(jobs), set id | id in rows[..i])
      {
        assert rows[..i + 1] == rows[..i] + [rows[i]];
        jobs := SetStatus(jobs, rows[i], Failed);
      }
      assert rows[..|rows|] == rows;
    }
  }
}
