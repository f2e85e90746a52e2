/** Runs from a start state in which the protocol does what its documentation leaves out, and exactly when it does. */
module OrderRuns {
  import opened Prelude
  import opened CommandCaching
  import opened Commands
  import opened Orders
  import opened Saga
  import opened OrderProtocol
  import opened OrderSafety
  import opened OrderOutcomes
  import opened OrderDelivery
  import opened OrderFinality

  // ---------- From a start state ----------

  /** A pending order of a start state that phase 1 can plan, on an ONU that no other active order names. */
  ghost predicate Plannable(s: State, o: Id, readout: Readout, ctx: Ctx) {
    && Start(s) && Lockable(s, o) && !Clashes(s.orders, o)
    && readout.Readout? && Examine(s.orders[o], readout) == Usable(ctx)
  }

  lemma FirstDelivery(s: State, d: Id, o: Id, rest: seq<Event>) returns (t: State)
    requires Start(s) && Lockable(s, o)
    ensures t == s.(workers := map[d := Received(o)])
    ensures Run(s, [Deliver(d, o)] + rest) == Run(t, rest) && Stands(t, d, Received(o)) && StepsOf(t, o) == []
  {
    t := s.(workers := map[d := Received(o)]);
    RunDeliver(s, d, o, rest);
    assert DoDeliver(s, d, o) == t;
  }

  // ---------- A cancellation overwritten ----------

  function CanceledMidway(o: Id, rest: seq<Event>): seq<Event> {
    [Deliver(7, o)] + ([Validate(7, Unreadable)] + ([Cancel(o)] + rest))
  }

  lemma CancelRun(b: State, o: Id, rest: seq<Event>) returns (t: State)
    requires Lockable(b, o)
    ensures t == DoCancel(b, o) && Run(b, [Cancel(o)] + rest) == Run(t, rest)
  {
    t := DoCancel(b, o);
    assert ([Cancel(o)] + rest)[1..] == rest;
  }

  lemma UnreadableStep(a: State, d: Id, o: Id, rest: seq<Event>) returns (t: State)
    requires Stands(a, d, Received(o))
    ensures t == Move(a, d, Failing(o)) && Run(a, [Validate(d, Unreadable)] + rest) == Run(t, rest)
  {
    t := Move(a, d, Failing(o));
    assert DoValidate(a, d, Unreadable) == t;
    RunStep(a, Validate(d, Unreadable), rest);
  }

  lemma CanceledMidwayRun(s: State, o: Id, rest: seq<Event>) returns (t: State)
    requires Start(s) && Lockable(s, o)
    ensures Run(s, CanceledMidway(o, rest)) == Run(t, rest)
    ensures o in t.canceled && Ends(t, o, Status.Canceled) && Stands(t, 7, Failing(o))
  {
    var a := FirstDelivery(s, 7, o, [Validate(7, Unreadable)] + ([Cancel(o)] + rest));
    var b := UnreadableStep(a, 7, o, [Cancel(o)] + rest);
    CancelLands(b, o);
    t := CancelRun(b, o, rest);
  }

  lemma FailingRun(u: State, d: Id, o: Id)
    requires Stands(u, d, Failing(o))
    ensures Ends(Run(u, [MarkFailed(d, true)] + []), o, Failed)
  {
    FailingLands(u, d, o);
    RunStep(u, MarkFailed(d, true), []);
  }

  lemma StartingRun(u: State, d: Id, o: Id, ctx: Ctx)
    requires Stands(u, d, Validated(o, ctx)) && !Clashes(u.orders, o)
    ensures Ends(Run(u, [MarkRunning(d, true)] + []), o, Running)
  {
    MarkRunningLands(u, d, o, ctx);
    RunStep(u, MarkRunning(d, true), []);
  }

  /** From any start state with a pending order: a confirmed cancellation, one event later overwritten with FAILED. */
  lemma CanceledThenFailed(s: State, o: Id)
    requires Start(s) && Lockable(s, o)
    ensures var t := Run(s, CanceledMidway(o, [])); o in t.canceled && Ends(t, o, Status.Canceled)
    ensures Ends(Run(s, CanceledMidway(o, [MarkFailed(7, true)] + [])), o, Failed)
  {
    var t := CanceledMidwayRun(s, o, []);
    var u := CanceledMidwayRun(s, o, [MarkFailed(7, true)] + []);
    FailingRun(u, 7, o);
  }

  // ---------- A failed order runs again ----------

  /** Two deliveries: the second fails while it reads, the first validates, then the second writes FAILED. */
  function FailedMidway(o: Id, readout: Readout, rest: seq<Event>): seq<Event> {
    [Deliver(7, o)] + ([Deliver(8, o)] + ([Validate(8, Unreadable)] + ([Validate(7, readout)] + ([MarkFailed(8, true)] + rest))))
  }

  /** A second delivery that fails before it reads the order. */
  lemma SecondFails(a: State, o: Id, rest: seq<Event>) returns (c: State)
    requires 8 !in a.workers
    ensures c == a.(workers := c.workers) && c.workers == a.workers[8 := Failing(o)]
    ensures Run(a, [Deliver(8, o)] + ([Validate(8, Unreadable)] + rest)) == Run(c, rest)
  {
    var b := DoDeliver(a, 8, o);
    RunDeliver(a, 8, o, [Validate(8, Unreadable)] + rest);
    c := Move(b, 8, Failing(o));
    assert DoValidate(b, 8, Unreadable) == c;
    assert c.workers == a.workers[8 := Failing(o)];
    RunStep(b, Validate(8, Unreadable), rest);
  }

  lemma BothStand(s: State, a: State, c: State, o: Id)
    requires o in s.orders && a == s.(workers := map[7 := Received(o)])
    requires c == a.(workers := c.workers) && c.workers == a.workers[8 := Failing(o)]
    ensures c == s.(workers := c.workers) && Stands(c, 7, Received(o)) && Stands(c, 8, Failing(o))
  {
  }

  lemma FailedMidwayRun(s: State, o: Id, readout: Readout, ctx: Ctx, rest: seq<Event>) returns (t: State)
    requires Plannable(s, o, readout, ctx)
    ensures Run(s, FailedMidway(o, readout, rest)) == Run(t, rest)
    ensures Ends(t, o, Failed) && Stands(t, 7, Validated(o, ctx)) && !Clashes(t.orders, o)
    ensures t == s.(workers := t.workers, orders := WithStatus(s.orders, o, Failed), stages := t.stages, claims := t.claims)
    ensures t.stages == s.stages[o := Claimed(ctx)]
  {
    var tail := [Validate(7, readout)] + ([MarkFailed(8, true)] + rest);
    var a := FirstDelivery(s, 7, o, [Deliver(8, o)] + ([Validate(8, Unreadable)] + tail));
    var c := SecondFails(a, o, tail);
    BothStand(s, a, c, o);
    t := FailedAfterValidation(s, c, o, readout, ctx, rest);
  }

  lemma ValidateTakes(s: State, d: Id, o: Id, readout: Readout, ctx: Ctx)
    requires Stands(s, d, Received(o)) && Lockable(s, o) && readout.Readout? && Examine(s.orders[o], readout) == Usable(ctx)
    ensures DoValidate(s, d, readout) == Take(s, d, o, ctx)
  {
  }

  lemma LastStatusWins(rows: Rows, o: Id, first: Status, last: Status)
    ensures WithStatus(WithStatus(rows, o, first), o, last) == WithStatus(rows, o, last)
  {
    if o in rows {
      var x := rows[o].(status := first);
      assert rows[o := x][o := x.(status := last)] == rows[o := rows[o].(status := last)];
    }
  }

  lemma StatusKeepsClash(rows: Rows, o: Id, status: Status)
    ensures Clashes(WithStatus(rows, o, status), o) <==> Clashes(rows, o)
  {
    if o in rows {
      var after := WithStatus(rows, o, status);
      assert after[o].onu == rows[o].onu && forall p | p != o :: (p in after <==> p in rows) && (p in rows ==> after[p] == rows[p]);
      if p :| p in rows && p != o && rows[p].onu == rows[o].onu && Active(rows[p].status) {
        assert after[p] == rows[p];
      }
    }
  }

  lemma TakenThenFailed(s: State, c: State, o: Id, ctx: Ctx) returns (t: State)
    requires o in s.orders && c == s.(workers := c.workers) && Stands(c, 7, Received(o)) && Stands(c, 8, Failing(o))
    ensures t == DoMarkFailed(Take(c, 7, o, ctx), 8, true)
    ensures t == s.(workers := t.workers, orders := WithStatus(s.orders, o, Failed), stages := t.stages, claims := t.claims)
    ensures t.stages == s.stages[o := Claimed(ctx)] && Ends(t, o, Failed) && Stands(t, 7, Validated(o, ctx))
    ensures Stands(Take(c, 7, o, ctx), 8, Failing(o))
  {
    t := DoMarkFailed(Take(c, 7, o, ctx), 8, true);
    LastStatusWins(s.orders, o, Validating, Failed);
  }

  lemma MarkFailedGoes(e: State, d: Id, rest: seq<Event>)
    ensures Run(e, [MarkFailed(d, true)] + rest) == Run(DoMarkFailed(e, d, true), rest)
  {
    RunStep(e, MarkFailed(d, true), rest);
  }

  lemma ValidateRunTakes(c: State, d: Id, o: Id, readout: Readout, ctx: Ctx, rest: seq<Event>)
    requires Stands(c, d, Received(o)) && Lockable(c, o) && readout.Readout? && Examine(c.orders[o], readout) == Usable(ctx)
    ensures Run(c, [Validate(d, readout)] + rest) == Run(Take(c, d, o, ctx), rest)
  {
    ValidateTakes(c, d, o, readout, ctx);
    RunStep(c, Validate(d, readout), rest);
  }

  lemma FailedAfterValidation(s: State, c: State, o: Id, readout: Readout, ctx: Ctx, rest: seq<Event>) returns (t: State)
    requires Lockable(s, o) && !Clashes(s.orders, o) && c == s.(workers := c.workers)
    requires readout.Readout? && Examine(s.orders[o], readout) == Usable(ctx)
    requires Stands(c, 7, Received(o)) && Stands(c, 8, Failing(o))
    ensures Run(c, [Validate(7, readout)] + ([MarkFailed(8, true)] + rest)) == Run(t, rest)
    ensures Ends(t, o, Failed) && Stands(t, 7, Validated(o, ctx)) && !Clashes(t.orders, o)
    ensures t == s.(workers := t.workers, orders := WithStatus(s.orders, o, Failed), stages := t.stages, claims := t.claims)
    ensures t.stages == s.stages[o := Claimed(ctx)]
  {
    ValidateRunTakes(c, 7, o, readout, ctx, [MarkFailed(8, true)] + rest);
    t := TakenThenFailed(s, c, o, ctx);
    MarkFailedGoes(Take(c, 7, o, ctx), 8, rest);
    StatusKeepsClash(s.orders, o, Failed);
  }

  /** From any start state with a plannable order: the order is FAILED, and one event later RUNNING. */
  lemma FailedThenRunning(s: State, o: Id, readout: Readout, ctx: Ctx)
    requires Plannable(s, o, readout, ctx)
    ensures Ends(Run(s, FailedMidway(o, readout, [])), o, Failed)
    ensures Ends(Run(s, FailedMidway(o, readout, [MarkRunning(7, true)] + [])), o, Running)
  {
    var t := FailedMidwayRun(s, o, readout, ctx, []);
    var u := FailedMidwayRun(s, o, readout, ctx, [MarkRunning(7, true)] + []);
    StartingRun(u, 7, o, ctx);
  }

  // ---------- A retry of an order that runs again ----------

  function RetriedMidway(o: Id, readout: Readout, r: Id, req: Request, id: Id): seq<Event> {
    FailedMidway(o, readout, RetryEvents(r, req, id))
  }

  function RetryEvents(r: Id, req: Request, id: Id): seq<Event> {
    [Submit(r, req)] + ([Read(r)] + ([Read(r)] + ([MarkRunning(7, true)] + ([Read(r)] + ([Read(r)] + ([Insert(r, id)] + []))))))
  }

  /** The request can create an order that retries o, unless o itself gets in the way. */
  ghost predicate Retryable(s: State, o: Id, req: Request, onu: Option<Id>) {
    && req.retryOf == Some(o) && !HasKey(s.orders, req.key)
    && onu == LiveOnu(s.onus, req.serial) && (onu.None? ==> exists olt :: ActivePending(s, PendingKey(olt, req.pon, req.serial)))
    && (onu.Some? ==> !HasActive(s.orders, onu.value) && o in s.orders && s.orders[o].onu != onu)
  }

  lemma SubmitRun(s: State, r: Id, req: Request, rest: seq<Event>) returns (t: State)
    requires r !in s.sessions
    ensures t == PutSession(s, r, Session(req, Submitted)) && Run(s, [Submit(r, req)] + rest) == Run(t, rest)
  {
    t := PutSession(s, r, Session(req, Submitted));
    assert ([Submit(r, req)] + rest)[1..] == rest;
  }

  /** The last two reads and the insert. */
  lemma ReadsInsert(s: State, r: Id, req: Request, onu: Option<Id>, id: Id) returns (t: State)
    requires AtPoint(s, r, req, RetryChecked) && !HasKey(s.orders, req.key)
    requires AfterSerial(s, req) == Recognised(onu) && (onu.Some? ==> !HasActive(s.orders, onu.value))
    requires id !in s.orders && id !in s.stages && id !in s.steps
    ensures t == Run(s, [Read(r)] + ([Read(r)] + ([Insert(r, id)] + [])))
    ensures id in t.orders && t.orders == s.orders[id := t.orders[id]] && t.orders[id].retryOf == req.retryOf
    ensures AtPoint(t, r, req, Closed(Accepted(id, false)))
  {
    var a := ReadRun(s, r, req, RetryChecked, [Read(r)] + ([Insert(r, id)] + []));
    var b := ReadRun(a, r, req, Recognised(onu), [Insert(r, id)] + []);
    ClearedEnters(b, r, id, req, onu);
    t := InsertRun(b, r, id);
  }

  /** Setting the retried order's status changes neither the keys nor the activity of another ONU. */
  lemma StatusIsAside(rows: Rows, o: Id, status: Status, key: string, onu: Option<Id>)
    requires o in rows && !HasKey(rows, key)
    requires onu.Some? ==> !HasActive(rows, onu.value) && rows[o].onu != onu
    ensures !HasKey(WithStatus(rows, o, status), key)
    ensures onu.Some? ==> !HasActive(WithStatus(rows, o, status), onu.value)
  {
  }

  /** The request reads its source FAILED, and inserts its order while the source is RUNNING. */
  lemma RetryOfRunning(s: State, o: Id, readout: Readout, ctx: Ctx, r: Id, req: Request, onu: Option<Id>, id: Id)
    requires Plannable(s, o, readout, ctx) && Retryable(s, o, req, onu)
    requires id !in s.orders && id !in s.stages && id !in s.steps
    ensures var t := Run(s, RetriedMidway(o, readout, r, req, id));
            && id in t.orders && t.orders[id].retryOf == Some(o) && AtPoint(t, r, req, Closed(Accepted(id, false)))
            && Ends(t, o, Running)
  {
    var m := FailedMidwayRun(s, o, readout, ctx, RetryEvents(r, req, id));
    RetryFromFailed(s, m, o, ctx, r, req, onu, id);
  }

  lemma FailedIsAllowed(rows: Rows, o: Id, req: Request)
    requires req.retryOf == Some(o) && o in rows
    ensures RetryAllowed(WithStatus(rows, o, Failed), req)
  {
  }

  lemma RetryFromFailed(s: State, m: State, o: Id, ctx: Ctx, r: Id, req: Request, onu: Option<Id>, id: Id)
    requires Start(s) && Retryable(s, o, req, onu) && o in s.orders
    requires m == s.(workers := m.workers, orders := WithStatus(s.orders, o, Failed), stages := m.stages, claims := m.claims)
    requires Stands(m, 7, Validated(o, ctx)) && !Clashes(m.orders, o)
    requires id !in s.orders && id !in m.stages && id !in s.steps
    ensures var t := Run(m, RetryEvents(r, req, id));
            && id in t.orders && t.orders[id].retryOf == Some(o) && AtPoint(t, r, req, Closed(Accepted(id, false)))
            && Ends(t, o, Running)
  {
    var tail := [MarkRunning(7, true)] + ([Read(r)] + ([Read(r)] + ([Insert(r, id)] + [])));
    StatusIsAside(s.orders, o, Failed, req.key, onu);
    FailedIsAllowed(s.orders, o, req);
    var a := SubmitRun(m, r, req, [Read(r)] + ([Read(r)] + tail));
    var b := ReadsOn(a, r, req, tail);
    RetryGoesOn(s, b, o, ctx, r, req, onu, id);
  }

  lemma SourceRuns(b: State, o: Id, ctx: Ctx)
    requires Stands(b, 7, Validated(o, ctx)) && !Clashes(b.orders, o)
    ensures var c := DoMarkRunning(b, 7, true); c == b.(workers := c.workers, orders := WithStatus(b.orders, o, Running))
  {
  }

  /** Recognition depends on the inventory only. */
  lemma SameInventory(s: State, c: State, req: Request, onu: Option<Id>)
    requires c.onus == s.onus && c.pendings == s.pendings && onu == LiveOnu(s.onus, req.serial)
    requires onu.None? ==> exists olt :: ActivePending(s, PendingKey(olt, req.pon, req.serial))
    ensures AfterSerial(c, req) == Recognised(onu)
  {
    assert forall olt :: ActivePending(c, PendingKey(olt, req.pon, req.serial)) <==> ActivePending(s, PendingKey(olt, req.pon, req.serial));
  }

  /** From the retry check on: the source is set running, and the request goes on undisturbed. */
  lemma RetryGoesOn(s: State, b: State, o: Id, ctx: Ctx, r: Id, req: Request, onu: Option<Id>, id: Id)
    requires Retryable(s, o, req, onu) && o in s.orders && b.orders == WithStatus(s.orders, o, Failed)
    requires b.onus == s.onus && b.pendings == s.pendings && AtPoint(b, r, req, RetryChecked)
    requires Stands(b, 7, Validated(o, ctx)) && !Clashes(b.orders, o)
    requires id !in s.orders && id !in b.stages && id !in b.steps
    ensures var t := Run(b, [MarkRunning(7, true)] + ([Read(r)] + ([Read(r)] + ([Insert(r, id)] + []))));
            && id in t.orders && t.orders[id].retryOf == Some(o) && AtPoint(t, r, req, Closed(Accepted(id, false)))
            && Ends(t, o, Running)
  {
    var c := DoMarkRunning(b, 7, true);
    RunStep(b, MarkRunning(7, true), [Read(r)] + ([Read(r)] + ([Insert(r, id)] + [])));
    SourceRuns(b, o, ctx);
    LastStatusWins(s.orders, o, Failed, Running);
    StatusIsAside(s.orders, o, Running, req.key, onu);
    SameInventory(s, c, req, onu);
    var t := ReadsInsert(c, r, req, onu, id);
  }

  // ---------- Two requests for one ONU ----------

  /** Two requests that, read one after the other, are both cleared for the ONU that has their serial. */
  ghost predicate Racing(s: State, u: Id, p: Request, q: Request) {
    && Start(s) && LiveOnu(s.onus, p.serial) == LiveOnu(s.onus, q.serial) == Some(u) && !HasActive(s.orders, u)
    && p.key != q.key && !HasKey(s.orders, p.key) && !HasKey(s.orders, q.key)
    && RetryAllowed(s.orders, p) && RetryAllowed(s.orders, q)
  }

  function FourReads(r: Id, rest: seq<Event>): seq<Event> {
    [Read(r)] + ([Read(r)] + ([Read(r)] + ([Read(r)] + rest)))
  }

  function Race(p: Request, q: Request, i: Id, j: Id): seq<Event> {
    [Submit(1, p)] + ([Submit(2, q)] + FourReads(1, FourReads(2, [Insert(1, i)] + ([Insert(2, j)] + []))))
  }

  lemma ReadsCleared(s: State, r: Id, req: Request, u: Id, rest: seq<Event>) returns (t: State)
    requires AtPoint(s, r, req, Submitted) && !HasKey(s.orders, req.key) && RetryAllowed(s.orders, req)
    requires LiveOnu(s.onus, req.serial) == Some(u) && !HasActive(s.orders, u)
    ensures t == PutSession(s, r, Session(req, Cleared(Some(u)))) && Run(s, FourReads(r, rest)) == Run(t, rest)
  {
    var a := ReadsOn(s, r, req, [Read(r)] + ([Read(r)] + rest));
    t := ReadsFree(a, r, req, u, rest);
    assert t.sessions == s.sessions[r := Session(req, Cleared(Some(u)))];
  }

  /** The last two reads, when the ONU is there and free. */
  lemma ReadsFree(s: State, r: Id, req: Request, u: Id, rest: seq<Event>) returns (t: State)
    requires AtPoint(s, r, req, RetryChecked) && LiveOnu(s.onus, req.serial) == Some(u) && !HasActive(s.orders, u)
    ensures t == PutSession(s, r, Session(req, Cleared(Some(u)))) && Run(s, [Read(r)] + ([Read(r)] + rest)) == Run(t, rest)
  {
    var a := ReadRun(s, r, req, RetryChecked, [Read(r)] + rest);
    t := ReadRun(a, r, req, Recognised(Some(u)), rest);
    assert t.sessions == s.sessions[r := Session(req, Cleared(Some(u)))];
  }

  /**
   * Two requests for one ONU that read before either inserts: the first gets its order, the second the database error as
   * it is, because the service looks for the index under another name. Read in turn, the second would get ActiveOrder.
   */
  lemma RaceIsUntranslated(s: State, u: Id, p: Request, q: Request, i: Id, j: Id)
    requires Racing(s, u, p, q) && i != j
    requires i !in s.orders && i !in s.stages && i !in s.steps && j !in s.orders && j !in s.stages && j !in s.steps
    ensures var t := Run(s, Race(p, q, i, j));
            && AtPoint(t, 1, p, Closed(Accepted(i, false))) && AtPoint(t, 2, q, Closed(Untranslated))
            && i in t.orders && t.orders == s.orders[i := t.orders[i]] && t.orders[i].onu == Some(u)
  {
    var rest := FourReads(1, FourReads(2, [Insert(1, i)] + ([Insert(2, j)] + [])));
    var a := SubmitRun(s, 1, p, [Submit(2, q)] + rest);
    var b := SubmitRun(a, 2, q, rest);
    RaceFromSubmitted(s, b, u, p, q, i, j);
  }

  lemma RaceFromSubmitted(s: State, b: State, u: Id, p: Request, q: Request, i: Id, j: Id)
    requires Racing(s, u, p, q) && i != j && b == s.(sessions := b.sessions)
    requires i !in s.orders && i !in s.stages && i !in s.steps && j !in s.orders && j !in s.stages && j !in s.steps
    requires AtPoint(b, 1, p, Submitted) && AtPoint(b, 2, q, Submitted)
    ensures var t := Run(b, FourReads(1, FourReads(2, [Insert(1, i)] + ([Insert(2, j)] + []))));
            && AtPoint(t, 1, p, Closed(Accepted(i, false))) && AtPoint(t, 2, q, Closed(Untranslated))
            && i in t.orders && t.orders == s.orders[i := t.orders[i]] && t.orders[i].onu == Some(u)
  {
    var inserts := [Insert(1, i)] + ([Insert(2, j)] + []);
    var c := ReadsCleared(b, 1, p, u, FourReads(2, inserts));
    var d := ReadsCleared(c, 2, q, u, inserts);
    RaceFromCleared(d, u, p, q, i, j);
  }

  lemma RaceFromCleared(d: State, u: Id, p: Request, q: Request, i: Id, j: Id)
    requires !HasActive(d.orders, u) && p.key != q.key && !HasKey(d.orders, p.key) && !HasKey(d.orders, q.key) && i != j
    requires i !in d.orders && i !in d.stages && i !in d.steps && j !in d.orders && j !in d.stages && j !in d.steps
    requires AtPoint(d, 1, p, Cleared(Some(u))) && AtPoint(d, 2, q, Cleared(Some(u)))
    ensures var t := Run(d, [Insert(1, i)] + ([Insert(2, j)] + []));
            && AtPoint(t, 1, p, Closed(Accepted(i, false))) && AtPoint(t, 2, q, Closed(Untranslated))
            && i in t.orders && t.orders == d.orders[i := t.orders[i]] && t.orders[i].onu == Some(u)
  {
    var e := FirstEnters(d, u, p, q, i, j);
    InsertThen(d, 1, i, [Insert(2, j)] + []);
    SecondIsRefused(e, q, u, i, j);
  }

  lemma InsertThen(s: State, r: Id, id: Id, rest: seq<Event>)
    ensures Run(s, [Insert(r, id)] + rest) == Run(DoInsert(s, r, id), rest)
  {
    assert ([Insert(r, id)] + rest)[1..] == rest;
  }

  /** The first insert goes through and leaves the other request cleared. */
  lemma FirstEnters(d: State, u: Id, p: Request, q: Request, i: Id, j: Id) returns (e: State)
    requires !HasActive(d.orders, u) && p.key != q.key && !HasKey(d.orders, p.key) && !HasKey(d.orders, q.key) && i != j
    requires i !in d.orders && i !in d.stages && i !in d.steps && j !in d.orders && j !in d.stages && j !in d.steps
    requires AtPoint(d, 1, p, Cleared(Some(u))) && AtPoint(d, 2, q, Cleared(Some(u)))
    ensures e == DoInsert(d, 1, i) && AtPoint(e, 1, p, Closed(Accepted(i, false))) && AtPoint(e, 2, q, Cleared(Some(u)))
    ensures i in e.orders && e.orders == d.orders[i := e.orders[i]] && e.orders[i].onu == Some(u) && Active(e.orders[i].status)
    ensures !HasKey(e.orders, q.key) && j !in e.orders && j !in e.stages && j !in e.steps
  {
    ClearedEnters(d, 1, i, p, Some(u));
    e := DoInsert(d, 1, i);
  }

  lemma SecondIsRefused(e: State, q: Request, u: Id, i: Id, j: Id)
    requires AtPoint(e, 2, q, Cleared(Some(u))) && !HasKey(e.orders, q.key)
    requires i in e.orders && e.orders[i].onu == Some(u) && Active(e.orders[i].status)
    requires j !in e.orders && j !in e.stages && j !in e.steps
    ensures Run(e, [Insert(2, j)] + []) == PutSession(e, 2, Session(q, Closed(Untranslated)))
  {
    assert HasActive(e.orders, u);
    assert CreationOf(e, 2) == ActiveConflict;
    RefusalAnswers();
    var t := InsertRun(e, 2, j);
  }

  // ---------- An exception leaves the worker ----------

  /**
   * An exception leaves run_provisioning_order_sync exactly when the closing update of a status other than ROLLED_BACK
   * fails; every other error is caught.
   */
  lemma EscapesIff(s: State, e: Event, d: Id)
    requires OfWorker(e) && e.d == d && d in s.workers && !s.workers[d].Escaped?
    ensures d in ExecWorker(s, e).workers
    ensures ExecWorker(s, e).workers[d].Escaped? <==>
            e.MarkFinished? && !e.ok && s.workers[d].Finishing? && s.workers[d].status != RolledBack
  {
    match e
    case Validate(_, readout) => if s.workers[d].Received? { ValidateStays(s, d, readout); }
    case MarkFinished(_, ok) => FinishEscapesIff(s, d, ok);
    case Materialize(_, newOnu, ok) => MaterializeStays(s, d, newOnu, ok);
    case _ => if e.MarkRunning? || e.Provision? || e.MarkFailed? { MarksStay(s, e, d); } else { ResultsStay(s, e, d); }
  }

  lemma FinishEscapesIff(s: State, d: Id, ok: bool)
    requires d in s.workers && !s.workers[d].Escaped?
    ensures d in DoMarkFinished(s, d, ok).workers
    ensures DoMarkFinished(s, d, ok).workers[d].Escaped? <==> !ok && s.workers[d].Finishing? && s.workers[d].status != RolledBack
  {
  }

  lemma MarksStay(s: State, e: Event, d: Id)
    requires (e.MarkRunning? || e.Provision? || e.MarkFailed?) && e.d == d && d in s.workers && !s.workers[d].Escaped?
    ensures d in ExecWorker(s, e).workers && !ExecWorker(s, e).workers[d].Escaped?
  {
  }

  lemma ResultsStay(s: State, e: Event, d: Id)
    requires (e.Persist? || e.PlanUndo? || e.Deprovision?) && e.d == d && d in s.workers && !s.workers[d].Escaped?
    ensures d in ExecWorker(s, e).workers && !ExecWorker(s, e).workers[d].Escaped?
  {
  }

  lemma MaterializeStays(s: State, d: Id, newOnu: Id, ok: bool)
    requires d in s.workers && !s.workers[d].Escaped?
    ensures d in DoMaterialize(s, d, newOnu, ok).workers && !DoMaterialize(s, d, newOnu, ok).workers[d].Escaped?
  {
  }

  lemma ValidateStays(s: State, d: Id, readout: Readout)
    requires d in s.workers && s.workers[d].Received?
    ensures d in DoValidate(s, d, readout).workers && !DoValidate(s, d, readout).workers[d].Escaped?
  {
    var o := s.workers[d].order;
    if Conclusive(s, o, readout) {
      assert !Conclude(s, d, o, Examine(s.orders[o], readout)).workers[d].Escaped?;
    }
  }

  /** From any start state with a plannable order: a clean delivery whose closing update fails ends in the exception. */
  lemma EscapeRun(s: State, o: Id, readout: Readout, ctx: Ctx, results: seq<StepResult>)
    requires Plannable(s, o, readout, ctx) && !Verdicts(ctx, results).needsRollback
    ensures var t := Run(s, [Deliver(7, o)] + Outset(7, readout, results, [MarkFinished(7, false)] + []));
            7 in t.workers && t.workers[7] == Escaped(o)
  {
    var a := FirstDelivery(s, 7, o, Outset(7, readout, results, [MarkFinished(7, false)] + []));
    EscapeFrom(a, o, readout, ctx, results);
  }

  lemma ClosesWithVerdict(o: Id, ctx: Ctx, results: seq<StepResult>)
    requires !Verdicts(ctx, results).needsRollback
    ensures AfterPersist(o, ctx, results) == Finishing(o, Verdicts(ctx, results).status) && !Verdicts(ctx, results).status.RolledBack?
  {
    VerdictsMean(ctx, results);
  }

  lemma EscapeFrom(a: State, o: Id, readout: Readout, ctx: Ctx, results: seq<StepResult>)
    requires Stands(a, 7, Received(o)) && Lockable(a, o) && StepsOf(a, o) == [] && !Clashes(a.orders, o)
    requires readout.Readout? && Examine(a.orders[o], readout) == Usable(ctx) && !Verdicts(ctx, results).needsRollback
    ensures var t := Run(a, Outset(7, readout, results, [MarkFinished(7, false)] + []));
            7 in t.workers && t.workers[7] == Escaped(o)
  {
    var b := Launch(a, 7, o, readout, ctx, results, [MarkFinished(7, false)] + []);
    ClosesWithVerdict(o, ctx, results);
    var _ := FailedFinishRun(b, 7, o, Verdicts(ctx, results).status, []);
  }

  // ---------- Successful, but ----------

  function CleanEvents(o: Id, readout: Readout, results: seq<StepResult>): seq<Event> {
    [Deliver(7, o)] + Outset(7, readout, results, [MarkFinished(7, true)] + [])
  }

  /** A provisioning reply that is too short, even empty, passes as well: the order is SUCCESS with commands not reported. */
  lemma ShortReplySucceeds(s: State, o: Id, readout: Readout, ctx: Ctx, results: seq<StepResult>)
    requires Plannable(s, o, readout, ctx) && !SomeFailed(results) && |results| < |ctx.commands|
    ensures var t := Run(s, CleanEvents(o, readout, results));
            && Ends(t, o, Success) && StageOf(t, o) == Sent(ctx, Reply(results, false)) && !AllCommandsReported(StageOf(t, o))
            && StepsOf(t, o) == RowsFor(KeysOf(ctx), results) && |StepsOf(t, o)| < |ctx.template.steps|
  {
    var a := FirstDelivery(s, 7, o, Outset(7, readout, results, [MarkFinished(7, true)] + []));
    VerdictsMean(ctx, results);
    ContendedIff(s.orders, o);
    UndisturbedDelivery(a, 7, o, readout, ctx, results);
    CommandsReportedIff(Sent(ctx, Reply(results, false)));
    UsablePlan(s.orders[o], readout, ctx);
  }

  lemma UsablePlan(order: Order, readout: Readout, ctx: Ctx)
    requires readout.Readout? && Examine(order, readout) == Usable(ctx)
    ensures |ctx.commands| == |ctx.template.steps|
  {
    var t := readout.template.value;
    PlanMeaning(t.steps, PlanLookups(t, readout.sight), Context(t.commandVars, order.snapshot));
  }

  // ---------- Rolled back, but ----------

  function RolledBackEvents(o: Id, readout: Readout, results: seq<StepResult>, undo: Undo, reply: Reply): seq<Event> {
    [Deliver(7, o)] + Outset(7, readout, results, Compensation(7, undo.template, undo.sight, reply))
  }

  lemma RolledBackRun(s: State, o: Id, readout: Readout, ctx: Ctx, results: seq<StepResult>, undo: Undo, reply: Reply)
    requires Plannable(s, o, readout, ctx) && Verdicts(ctx, results).needsRollback
    requires CanUndo(s, o, ctx, results, undo.template, undo.sight, undo) && !reply.raised && AllOk(reply.results)
    ensures var t := Run(s, RolledBackEvents(o, readout, results, undo, reply));
            Ends(t, o, RolledBack) && StageOf(t, o) == Undone(ctx, results, undo, reply)
  {
    var a := FirstDelivery(s, 7, o, Outset(7, readout, results, Compensation(7, undo.template, undo.sight, reply)));
    ContendedIff(s.orders, o);
    UndisturbedRollback(a, 7, o, readout, ctx, results, undo.template, undo.sight, undo, reply);
  }

  /** A reply that is too short, even empty, passes: the order is ROLLED_BACK and not every rollback command was reported. */
  lemma ShortReplyRollsBack(s: State, o: Id, readout: Readout, ctx: Ctx, results: seq<StepResult>, undo: Undo, reply: Reply)
    requires Plannable(s, o, readout, ctx) && Verdicts(ctx, results).needsRollback
    requires CanUndo(s, o, ctx, results, undo.template, undo.sight, undo) && !reply.raised && AllOk(reply.results)
    requires |reply.results| < |undo.commands|
    ensures var t := Run(s, RolledBackEvents(o, readout, results, undo, reply));
            Ends(t, o, RolledBack) && StageOf(t, o).Undone? && !AllReported(StageOf(t, o))
  {
    RolledBackRun(s, o, readout, ctx, results, undo, reply);
    ReportedIff(Undone(ctx, results, undo, reply));
  }

  /** A successful step that the rollback map leaves out: the order is ROLLED_BACK and some lawful device is not restored. */
  lemma RolledBackWithStepLeft(s: State, o: Id, readout: Readout, ctx: Ctx, results: seq<StepResult>, undo: Undo, reply: Reply)
    requires Plannable(s, o, readout, ctx) && Verdicts(ctx, results).needsRollback
    requires CanUndo(s, o, ctx, results, undo.template, undo.sight, undo) && !reply.raised && AllOk(reply.results)
    requires |results| == |ctx.commands| && |reply.results| == |undo.commands|
    requires !AllMapped(results, KeysOf(ctx), ctx.template.rollbackMap) && Disjoint(ctx.commands, results, undo.commands)
    ensures Ends(Run(s, RolledBackEvents(o, readout, results, undo, reply)), o, RolledBack)
    ensures !AlwaysRestores(ctx.commands, results, Wanted(Reverse(Positions(results, true)), KeysOf(ctx), ctx.template.rollbackMap),
                            undo.commands, reply.results)
  {
    RolledBackRun(s, o, readout, ctx, results, undo, reply);
    LeavesBehind(ctx.commands, results, KeysOf(ctx), ctx.template.rollbackMap,
                 UndoAnswers(ctx, results, undo.template, undo.sight), undo.vars, undo.commands, reply.results);
  }
}
