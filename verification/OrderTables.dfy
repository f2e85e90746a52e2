/** What every run keeps in the tables: idempotency keys, retry links, the link between orders, ONUs and pending ONUs. */
module OrderTables {
  import opened Prelude
  import opened Commands
  import opened Orders
  import opened OrderProtocol

  // ---------- Idempotency ----------

  /** The order has the request's key, and no hash or the request's own. */
  ghost predicate SamePayload(order: Order, req: Request) {
    order.key == req.key && (order.hash == None || order.hash == Some(req.hash))
  }

  /** The order has the request's key and another hash. */
  ghost predicate OtherPayload(order: Order, req: Request) {
    order.key == req.key && order.hash.Some? && order.hash.value != req.hash
  }

  ghost predicate Honest(rows: Rows, req: Request, answer: Answer) {
    match answer
    case Accepted(o, _) => o in rows && SamePayload(rows[o], req)
    case KeyMismatch => exists o :: o in rows && OtherPayload(rows[o], req)
    case _ => true
  }

  ghost predicate KeyInv(s: State) {
    && OneOrderPerKey(s.orders)
    && (forall r | r in s.sessions && s.sessions[r].at.Closed? :: Honest(s.orders, s.sessions[r].req, s.sessions[r].at.answer))
  }

  lemma HonestStays(a: Rows, b: Rows, req: Request, answer: Answer)
    requires Evolves(a, b) && Honest(a, req, answer)
    ensures Honest(b, req, answer)
  {
    if answer.KeyMismatch? {
      var o :| o in a && OtherPayload(a[o], req);
      assert o in b && OtherPayload(b[o], req);
    }
  }

  /** The rows move on and the requests stay where they are. */
  lemma RowsKeepKeys(s: State, t: State)
    requires KeyInv(s) && t.sessions == s.sessions && Evolves(s.orders, t.orders) && t.orders.Keys == s.orders.Keys
    ensures KeyInv(t)
  {
    forall r | r in t.sessions && t.sessions[r].at.Closed?
      ensures Honest(t.orders, t.sessions[r].req, t.sessions[r].at.answer)
    {
      HonestStays(s.orders, t.orders, s.sessions[r].req, s.sessions[r].at.answer);
    }
  }

  /** One request moves; if it closes, its answer must be honest. */
  lemma SessionKeepsKeys(s: State, r: Id, x: Session)
    requires KeyInv(s) && (x.at.Closed? ==> Honest(s.orders, x.req, x.at.answer))
    ensures KeyInv(PutSession(s, r, x))
  {
  }

  lemma NextIsHonest(s: State, x: Session)
    requires x.at.Closed? ==> Honest(s.orders, x.req, x.at.answer)
    ensures NextPoint(s, x).Closed? ==> Honest(s.orders, x.req, NextPoint(s, x).answer)
  {
  }

  lemma RefusalIsHonest(rows: Rows, req: Request, onu: Option<Id>)
    requires !CreationFor(rows, req.key, req.hash, onu).Created?
    ensures Honest(rows, req, RefusalAnswer(CreationFor(rows, req.key, req.hash, onu)))
  {
    RefusalAnswers();
  }

  lemma InsertKeepsKeys(s: State, r: Id, id: Id)
    requires KeyInv(s)
    ensures KeyInv(DoInsert(s, r, id))
  {
    if Inserting(s, r, id) {
      if CreationOf(s, r).Created? {
        EnterKeepsKeys(s, r, id);
      } else {
        RefusalIsHonest(s.orders, s.sessions[r].req, s.sessions[r].at.onu);
        SessionKeepsKeys(s, r, s.sessions[r].(at := Closed(RefusalAnswer(CreationOf(s, r)))));
      }
    }
  }

  lemma EnterKeepsKeys(s: State, r: Id, id: Id)
    requires KeyInv(s) && Inserting(s, r, id) && !HasKey(s.orders, s.sessions[r].req.key)
    ensures KeyInv(Enter(s, r, id))
  {
    var t := Enter(s, r, id);
    assert Evolves(s.orders, t.orders);
    forall q | q in t.sessions && t.sessions[q].at.Closed?
      ensures Honest(t.orders, t.sessions[q].req, t.sessions[q].at.answer)
    {
      if q != r {
        HonestStays(s.orders, t.orders, s.sessions[q].req, s.sessions[q].at.answer);
      }
    }
  }

  lemma AsideKeepsKeys(s: State, e: Event)
    requires KeyInv(s) && Aside(e)
    ensures KeyInv(ExecAside(s, e))
  {
    if e.Submit? && e.r !in s.sessions {
      SessionKeepsKeys(s, e.r, Session(e.req, Submitted));
    } else if e.Read? && e.r in s.sessions {
      NextIsHonest(s, s.sessions[e.r]);
      SessionKeepsKeys(s, e.r, s.sessions[e.r].(at := NextPoint(s, s.sessions[e.r])));
    } else if e.Reject? && e.r in s.sessions {
      SessionKeepsKeys(s, e.r, s.sessions[e.r].(at := Closed(Rejected)));
    }
  }

  lemma StepKeepsKeys(s: State, e: Event)
    requires KeyInv(s)
    ensures KeyInv(Exec(s, e))
  {
    if Aside(e) {
      AsideKeepsKeys(s, e);
    } else if e.Insert? {
      InsertKeepsKeys(s, e.r, e.id);
    } else {
      RestEvolves(s, e);
      RowsKeepKeys(s, Exec(s, e));
    }
  }

  lemma {:induction false} RunKeepsKeys(s: State, events: seq<Event>)
    requires KeyInv(s)
    ensures KeyInv(Run(s, events))
    decreases |events|
  {
    if events != [] {
      StepKeepsKeys(s, events[0]);
      RunKeepsKeys(Exec(s, events[0]), events[1..]);
    }
  }

  /** The request has got this answer. */
  ghost predicate Answered(t: State, r: Id, answer: Answer) {
    r in t.sessions && t.sessions[r].at == Closed(answer)
  }

  /**
   * Idempotent creation over every request sequence and every race: at most one order per key. Every accepted request got
   * the one order that has its key, and that order has no hash or the request's own; a mismatch is answered only when that
   * order has another hash.
   */
  lemma IdempotentCreation(s: State, events: seq<Event>, q: Id, o: Id, reused: bool)
    requires OneOrderPerKey(s.orders) && s.sessions == map[]
    requires Answered(Run(s, events), q, Accepted(o, reused))
    ensures var t := Run(s, events);
            && (forall p | p in t.orders && t.orders[p].key == t.sessions[q].req.key :: p == o)
            && o in t.orders && t.orders[o].key == t.sessions[q].req.key
            && (t.orders[o].hash == None || t.orders[o].hash == Some(t.sessions[q].req.hash))
            && (forall r, p, other | Answered(t, r, Accepted(p, other)) && t.sessions[r].req.key == t.sessions[q].req.key :: p == o)
            && (forall r | Answered(t, r, KeyMismatch) && t.sessions[r].req.key == t.sessions[q].req.key ::
                  t.orders[o].hash.Some? && t.orders[o].hash.value != t.sessions[r].req.hash)
  {
    RunKeepsKeys(s, events);
    var t := Run(s, events);
    assert Honest(t.orders, t.sessions[q].req, t.sessions[q].at.answer);
    forall r, p, other | Answered(t, r, Accepted(p, other)) && t.sessions[r].req.key == t.sessions[q].req.key
      ensures p == o
    {
      assert Honest(t.orders, t.sessions[r].req, t.sessions[r].at.answer);
    }
    forall r | Answered(t, r, KeyMismatch) && t.sessions[r].req.key == t.sessions[q].req.key
      ensures t.orders[o].hash.Some? && t.orders[o].hash.value != t.sessions[r].req.hash
    {
      assert Honest(t.orders, t.sessions[r].req, KeyMismatch);
      var p :| p in t.orders && OtherPayload(t.orders[p], t.sessions[r].req);
    }
  }

  /** The request's key belongs to an order with another hash. */
  ghost predicate Mismatched(s: State, r: Id, o: Id) {
    r in s.sessions && OneOrderPerKey(s.orders) && o in s.orders && OtherPayload(s.orders[o], s.sessions[r].req)
  }

  /** A mismatched request reads its way to a rejection, and its insert creates nothing and is not accepted. */
  lemma MismatchChangesNothing(s: State, r: Id, id: Id, o: Id)
    requires Mismatched(s, r, o)
    ensures s.sessions[r].at.Submitted? ==> NextPoint(s, s.sessions[r]) == Closed(KeyMismatch)
    ensures Inserting(s, r, id) ==>
              DoInsert(s, r, id) == PutSession(s, r, s.sessions[r].(at := Closed(KeyMismatch)))
  {
    HitMeaning(s.orders, s.sessions[r].req.key, s.sessions[r].req.hash, o);
    RefusalAnswers();
    assert HasKey(s.orders, s.sessions[r].req.key);
  }

  // ---------- Retry links ----------

  predicate PastRetryCheck(p: Point) {
    p.RetryChecked? || p.Recognised? || p.Cleared?
  }

  ghost predicate RetryInv(s: State) {
    && LinksDown(s.orders)
    && (forall o | o in s.orders :: s.orders[o].created < s.clock)
    && (forall r | r in s.sessions && PastRetryCheck(s.sessions[r].at) && s.sessions[r].req.retryOf.Some? ::
          s.sessions[r].req.retryOf.value in s.orders)
  }

  lemma RowsKeepRetry(s: State, t: State)
    requires RetryInv(s) && t.sessions == s.sessions && t.clock == s.clock
    requires Evolves(s.orders, t.orders) && t.orders.Keys == s.orders.Keys
    ensures RetryInv(t)
  {
    forall o | o in t.orders && t.orders[o].retryOf.Some?
      ensures t.orders[o].retryOf.value in t.orders && t.orders[t.orders[o].retryOf.value].created < t.orders[o].created
    {
      assert Continues(s.orders[o], t.orders[o]);
      assert s.orders[o].retryOf.value in s.orders;
    }
  }

  lemma SessionKeepsRetry(s: State, r: Id, x: Session)
    requires RetryInv(s)
    requires PastRetryCheck(x.at) && x.req.retryOf.Some? ==> x.req.retryOf.value in s.orders
    ensures RetryInv(PutSession(s, r, x))
  {
  }

  predicate TerminalIn(s: State, p: Id) {
    p in s.orders && s.orders[p].status in {Success, Failed, RolledBack, Partial, Status.Canceled}
  }

  /** Only a terminal source lets a request past the retry check. */
  lemma NextHasSource(s: State, x: Session)
    requires PastRetryCheck(NextPoint(s, x)) && x.req.retryOf.Some?
    ensures (x.at.KeyFree? && TerminalIn(s, x.req.retryOf.value)) || PastRetryCheck(x.at)
  {
  }

  lemma EnterKeepsRetry(s: State, r: Id, id: Id)
    requires RetryInv(s) && Inserting(s, r, id)
    ensures RetryInv(Enter(s, r, id))
  {
    var t := Enter(s, r, id);
    assert t.orders == s.orders[id := t.orders[id]] && t.orders[id].created == s.clock;
    forall o | o in t.orders && t.orders[o].retryOf.Some?
      ensures t.orders[o].retryOf.value in t.orders && t.orders[t.orders[o].retryOf.value].created < t.orders[o].created
    {
      assert t.orders[o].retryOf.value in s.orders;
    }
  }

  lemma InsertKeepsRetry(s: State, r: Id, id: Id)
    requires RetryInv(s)
    ensures RetryInv(DoInsert(s, r, id))
  {
    if Inserting(s, r, id) {
      if CreationOf(s, r).Created? {
        EnterKeepsRetry(s, r, id);
      } else {
        SessionKeepsRetry(s, r, s.sessions[r].(at := Closed(RefusalAnswer(CreationOf(s, r)))));
      }
    }
  }

  lemma AsideKeepsRetry(s: State, e: Event)
    requires RetryInv(s) && Aside(e)
    ensures RetryInv(ExecAside(s, e))
  {
    if e.Submit? && e.r !in s.sessions {
      SessionKeepsRetry(s, e.r, Session(e.req, Submitted));
    } else if e.Read? && e.r in s.sessions {
      var x := s.sessions[e.r];
      if PastRetryCheck(NextPoint(s, x)) && x.req.retryOf.Some? { NextHasSource(s, x); }
      SessionKeepsRetry(s, e.r, x.(at := NextPoint(s, x)));
    } else if e.Reject? && e.r in s.sessions {
      SessionKeepsRetry(s, e.r, s.sessions[e.r].(at := Closed(Rejected)));
    }
  }

  lemma StepKeepsRetry(s: State, e: Event)
    requires RetryInv(s)
    ensures RetryInv(Exec(s, e))
  {
    if Aside(e) {
      AsideKeepsRetry(s, e);
    } else if e.Insert? {
      InsertKeepsRetry(s, e.r, e.id);
    } else {
      RestEvolves(s, e);
      RowsKeepRetry(s, Exec(s, e));
    }
  }

  lemma {:induction false} RunKeepsRetry(s: State, events: seq<Event>)
    requires RetryInv(s)
    ensures RetryInv(Run(s, events))
    decreases |events|
  {
    if events != [] {
      StepKeepsRetry(s, events[0]);
      RunKeepsRetry(Exec(s, events[0]), events[1..]);
    }
  }

  lemma {:induction false} RunSnoc(s: State, events: seq<Event>, e: Event)
    ensures Run(s, events + [e]) == Exec(Run(s, events), e)
    decreases |events|
  {
    if events == [] {
      assert Run(s, [e]) == Run(Exec(s, e), []);
    } else {
      assert (events + [e])[0] == events[0] && (events + [e])[1..] == events[1..] + [e];
      RunSnoc(Exec(s, events[0]), events[1..], e);
    }
  }

  // ---------- Who created an order, and what its source was then ----------

  predicate CreatedBy(t: State, r: Id, o: Id) {
    r in t.sessions && t.sessions[r].at == Closed(Accepted(o, false))
  }

  /** The k-th event of the run is the read in which the request finds its source terminal. */
  ghost predicate ReadsTerminal(s: State, events: seq<Event>, r: Id, p: Id, k: nat) {
    && k < |events| && events[k] == Read(r)
    && var m := Run(s, events[..k]);
       r in m.sessions && m.sessions[r].at.KeyFree? && m.sessions[r].req.retryOf == Some(p) && TerminalIn(m, p)
  }

  /** The request found its source terminal when it read it; if it created an order, the order did not exist then. */
  ghost predicate CheckedBefore(s: State, events: seq<Event>, r: Id, p: Id, o: Option<Id>) {
    exists k: nat :: ReadsTerminal(s, events, r, p, k) && (o.Some? ==> o.value !in Run(s, events[..k]).orders)
  }

  lemma CheckedStays(s: State, events: seq<Event>, e: Event, r: Id, p: Id, o: Option<Id>)
    requires CheckedBefore(s, events, r, p, o)
    ensures CheckedBefore(s, events + [e], r, p, o)
  {
    var k: nat :| ReadsTerminal(s, events, r, p, k) && (o.Some? ==> o.value !in Run(s, events[..k]).orders);
    assert (events + [e])[..k] == events[..k] && (events + [e])[k] == events[k];
    assert ReadsTerminal(s, events + [e], r, p, k);
  }

  lemma CheckedNow(s: State, events: seq<Event>, r: Id, p: Id)
    requires var m := Run(s, events);
             r in m.sessions && m.sessions[r].at.KeyFree? && m.sessions[r].req.retryOf == Some(p) && TerminalIn(m, p)
    ensures CheckedBefore(s, events + [Read(r)], r, p, None)
  {
    assert (events + [Read(r)])[..|events|] == events;
    assert ReadsTerminal(s, events + [Read(r)], r, p, |events|);
  }

  lemma {:induction false} RunAppend(s: State, a: seq<Event>, b: seq<Event>)
    ensures Run(s, a + b) == Run(Run(s, a), b)
    decreases |a|
  {
    if a == [] {
      assert a + b == b;
    } else {
      assert (a + b)[0] == a[0] && (a + b)[1..] == a[1..] + b;
      RunAppend(Exec(s, a[0]), a[1..], b);
    }
  }

  /** An order that is not there yet was not there before. */
  lemma CheckedForNew(s: State, events: seq<Event>, r: Id, p: Id, o: Id)
    requires CheckedBefore(s, events, r, p, None) && o !in Run(s, events).orders
    ensures CheckedBefore(s, events, r, p, Some(o))
  {
    var k: nat :| ReadsTerminal(s, events, r, p, k);
    assert events == events[..k] + events[k..];
    RunAppend(s, events[..k], events[k..]);
    RunEvolves(Run(s, events[..k]), events[k..]);
  }

  /** The order was created by this request: it carries its key, hash and retry link, and the source was terminal before. */
  ghost predicate Created(s: State, events: seq<Event>, t: State, r: Id, o: Id)
    requires o in t.orders
  {
    && CreatedBy(t, r, o)
    && t.orders[o].key == t.sessions[r].req.key && t.orders[o].hash == Some(t.sessions[r].req.hash)
    && t.orders[o].retryOf == t.sessions[r].req.retryOf
    && (t.orders[o].retryOf.Some? ==> CheckedBefore(s, events, r, t.orders[o].retryOf.value, Some(o)))
  }

  ghost predicate Vouched(s: State, events: seq<Event>, t: State) {
    && (forall r | r in t.sessions && PastRetryCheck(t.sessions[r].at) && t.sessions[r].req.retryOf.Some? ::
          CheckedBefore(s, events, r, t.sessions[r].req.retryOf.value, None))
    && (forall o | o in t.orders && o !in s.orders :: exists r :: Created(s, events, t, r, o))
    && (forall r, o | CreatedBy(t, r, o) :: o in t.orders && o !in s.orders)
    && (forall q, r, o | CreatedBy(t, q, o) && CreatedBy(t, r, o) :: q == r)
  }

  /** A step that leaves the set of orders and every closed request alone. */
  lemma QuietVouches(s: State, front: seq<Event>, m: State, e: Event, t: State)
    requires Vouched(s, front, m) && Evolves(m.orders, t.orders) && t.orders.Keys == m.orders.Keys
    requires forall r, o :: CreatedBy(t, r, o) <==> CreatedBy(m, r, o)
    requires forall r | r in m.sessions :: r in t.sessions && t.sessions[r].req == m.sessions[r].req
    requires forall r | r in t.sessions && PastRetryCheck(t.sessions[r].at) && t.sessions[r].req.retryOf.Some? ::
               CheckedBefore(s, front + [e], r, t.sessions[r].req.retryOf.value, None)
    ensures Vouched(s, front + [e], t)
  {
    forall o | o in t.orders && o !in s.orders
      ensures exists r :: Created(s, front + [e], t, r, o)
    {
      var r :| Created(s, front, m, r, o);
      assert Continues(m.orders[o], t.orders[o]) && CreatedBy(t, r, o);
      if t.orders[o].retryOf.Some? {
        CheckedStays(s, front, e, r, t.orders[o].retryOf.value, Some(o));
      }
      assert Created(s, front + [e], t, r, o);
    }
  }

  /** Requests that move, without closing as the creator of an order. */
  lemma SessionVouches(s: State, front: seq<Event>, m: State, e: Event, r: Id, x: Session)
    requires m == Run(s, front) && Vouched(s, front, m) && (forall o :: x.at != Closed(Accepted(o, false)))
    requires r in m.sessions ==> x.req == m.sessions[r].req && (forall o :: m.sessions[r].at != Closed(Accepted(o, false)))
    requires PastRetryCheck(x.at) && x.req.retryOf.Some? ==> CheckedBefore(s, front + [e], r, x.req.retryOf.value, None)
    ensures Vouched(s, front + [e], PutSession(m, r, x))
  {
    var t := PutSession(m, r, x);
    forall q | q in t.sessions && PastRetryCheck(t.sessions[q].at) && t.sessions[q].req.retryOf.Some?
      ensures CheckedBefore(s, front + [e], q, t.sessions[q].req.retryOf.value, None)
    {
      if q != r {
        CheckedStays(s, front, e, q, t.sessions[q].req.retryOf.value, None);
      }
    }
    QuietVouches(s, front, m, e, t);
  }

  lemma SameSessionsVouch(s: State, front: seq<Event>, m: State, e: Event, t: State)
    requires Vouched(s, front, m) && t.sessions == m.sessions && Evolves(m.orders, t.orders) && t.orders.Keys == m.orders.Keys
    ensures Vouched(s, front + [e], t)
  {
    forall q | q in t.sessions && PastRetryCheck(t.sessions[q].at) && t.sessions[q].req.retryOf.Some?
      ensures CheckedBefore(s, front + [e], q, t.sessions[q].req.retryOf.value, None)
    {
      CheckedStays(s, front, e, q, t.sessions[q].req.retryOf.value, None);
    }
    QuietVouches(s, front, m, e, t);
  }

  lemma ReadVouches(s: State, front: seq<Event>, m: State, r: Id)
    requires m == Run(s, front) && Vouched(s, front, m)
    ensures Vouched(s, front + [Read(r)], DoRead(m, r))
  {
    if r in m.sessions {
      var x := m.sessions[r];
      if x.at.Closed? {
        assert PutSession(m, r, x.(at := NextPoint(m, x))).sessions == m.sessions;
        SameSessionsVouch(s, front, m, Read(r), DoRead(m, r));
      } else {
        if PastRetryCheck(NextPoint(m, x)) && x.req.retryOf.Some? {
          if PastRetryCheck(x.at) {
            CheckedStays(s, front, Read(r), r, x.req.retryOf.value, None);
          } else {
            NextHasSource(m, x);
            CheckedNow(s, front, r, x.req.retryOf.value);
          }
        }
        NextCreatesNothing(m, x);
        SessionVouches(s, front, m, Read(r), r, x.(at := NextPoint(m, x)));
      }
    } else {
      SameSessionsVouch(s, front, m, Read(r), m);
    }
  }

  lemma NextCreatesNothing(m: State, x: Session)
    requires !x.at.Closed?
    ensures forall o :: NextPoint(m, x) != Closed(Accepted(o, false))
  {
  }

  lemma SubmitVouches(s: State, front: seq<Event>, m: State, r: Id, req: Request)
    requires m == Run(s, front) && Vouched(s, front, m)
    ensures Vouched(s, front + [Submit(r, req)], ExecAside(m, Submit(r, req)))
  {
    if r in m.sessions {
      SameSessionsVouch(s, front, m, Submit(r, req), m);
    } else {
      SessionVouches(s, front, m, Submit(r, req), r, Session(req, Submitted));
    }
  }

  lemma RejectVouches(s: State, front: seq<Event>, m: State, r: Id)
    requires m == Run(s, front) && Vouched(s, front, m)
    ensures Vouched(s, front + [Reject(r)], DoReject(m, r))
  {
    if r in m.sessions && !m.sessions[r].at.Closed? {
      SessionVouches(s, front, m, Reject(r), r, m.sessions[r].(at := Closed(Rejected)));
    } else {
      SameSessionsVouch(s, front, m, Reject(r), m);
    }
  }

  lemma InventoryVouches(s: State, front: seq<Event>, m: State, e: Event)
    requires m == Run(s, front) && Vouched(s, front, m) && (e.InstallOnu? || e.RemoveOnu? || e.Discover?)
    ensures Vouched(s, front + [e], ExecAside(m, e))
  {
    var t := ExecAside(m, e);
    assert t.sessions == m.sessions && t.orders == m.orders;
    SameSessionsVouch(s, front, m, e, t);
  }

  lemma AsideVouches(s: State, front: seq<Event>, m: State, e: Event)
    requires m == Run(s, front) && Vouched(s, front, m) && Aside(e)
    ensures Vouched(s, front + [e], ExecAside(m, e))
  {
    match e
    case Submit(r, req) => SubmitVouches(s, front, m, r, req);
    case Read(r) => ReadVouches(s, front, m, r);
    case Reject(r) => RejectVouches(s, front, m, r);
    case _ => InventoryVouches(s, front, m, e);
  }

  lemma EnterKeepsChecks(s: State, front: seq<Event>, m: State, r: Id, id: Id)
    requires m == Run(s, front) && Vouched(s, front, m) && Inserting(m, r, id)
    ensures var t := Enter(m, r, id);
            forall q | q in t.sessions && PastRetryCheck(t.sessions[q].at) && t.sessions[q].req.retryOf.Some? ::
              CheckedBefore(s, front + [Insert(r, id)], q, t.sessions[q].req.retryOf.value, None)
  {
    var t := Enter(m, r, id);
    forall q | q in t.sessions && PastRetryCheck(t.sessions[q].at) && t.sessions[q].req.retryOf.Some?
      ensures CheckedBefore(s, front + [Insert(r, id)], q, t.sessions[q].req.retryOf.value, None)
    {
      assert q != r && t.sessions[q] == m.sessions[q];
      CheckedStays(s, front, Insert(r, id), q, t.sessions[q].req.retryOf.value, None);
    }
  }

  lemma EnterHasCreators(s: State, front: seq<Event>, m: State, r: Id, id: Id)
    requires m == Run(s, front) && Vouched(s, front, m) && Inserting(m, r, id)
    ensures forall o | o in Enter(m, r, id).orders && o !in s.orders ::
              exists q :: Created(s, front + [Insert(r, id)], Enter(m, r, id), q, o)
  {
    EnterCreates(s, front, m, r, id);
    EnterKeepsCreators(s, front, m, r, id);
    EnterEvolves(m, r, id);
  }

  lemma EnterVouches(s: State, front: seq<Event>, m: State, r: Id, id: Id)
    requires m == Run(s, front) && Vouched(s, front, m) && Inserting(m, r, id) && id !in s.orders
    ensures Vouched(s, front + [Insert(r, id)], Enter(m, r, id))
  {
    EnterKeepsChecks(s, front, m, r, id);
    EnterHasCreators(s, front, m, r, id);
    EnterNamesOne(s, front, m, r, id);
  }

  lemma EnterCreates(s: State, front: seq<Event>, m: State, r: Id, id: Id)
    requires m == Run(s, front) && Vouched(s, front, m) && Inserting(m, r, id)
    ensures id in Enter(m, r, id).orders && Created(s, front + [Insert(r, id)], Enter(m, r, id), r, id)
  {
    var req := m.sessions[r].req;
    if req.retryOf.Some? {
      CheckedForNew(s, front, r, req.retryOf.value, id);
      CheckedStays(s, front, Insert(r, id), r, req.retryOf.value, Some(id));
    }
  }

  lemma EnterKeepsCreators(s: State, front: seq<Event>, m: State, r: Id, id: Id)
    requires m == Run(s, front) && Vouched(s, front, m) && Inserting(m, r, id)
    ensures forall o | o in m.orders && o !in s.orders ::
              o in Enter(m, r, id).orders && exists q :: Created(s, front + [Insert(r, id)], Enter(m, r, id), q, o)
  {
    var t := Enter(m, r, id);
    EnterEvolves(m, r, id);
    forall o | o in m.orders && o !in s.orders
      ensures o in t.orders && exists q :: Created(s, front + [Insert(r, id)], t, q, o)
    {
      var q :| Created(s, front, m, q, o);
      EnterKeepsCreator(s, front, m, r, id, q, o);
    }
  }

  lemma EnterKeepsCreator(s: State, front: seq<Event>, m: State, r: Id, id: Id, q: Id, o: Id)
    requires Inserting(m, r, id) && o in m.orders && Created(s, front, m, q, o)
    ensures o in Enter(m, r, id).orders && Created(s, front + [Insert(r, id)], Enter(m, r, id), q, o)
  {
    if m.orders[o].retryOf.Some? {
      CheckedStays(s, front, Insert(r, id), q, m.orders[o].retryOf.value, Some(o));
    }
  }

  lemma EnterNamesOne(s: State, front: seq<Event>, m: State, r: Id, id: Id)
    requires Vouched(s, front, m) && Inserting(m, r, id) && id !in s.orders
    ensures var t := Enter(m, r, id);
            && (forall q, o | CreatedBy(t, q, o) :: o in t.orders && o !in s.orders)
            && (forall p, q, o | CreatedBy(t, p, o) && CreatedBy(t, q, o) :: p == q)
  {
    var t := Enter(m, r, id);
    assert forall q, o :: CreatedBy(t, q, o) <==> (if q == r then o == id else CreatedBy(m, q, o));
    assert forall q :: !CreatedBy(m, q, id);
  }

  lemma RefusalVouches(s: State, front: seq<Event>, m: State, r: Id, id: Id)
    requires m == Run(s, front) && Vouched(s, front, m) && Inserting(m, r, id) && !CreationOf(m, r).Created?
    ensures Vouched(s, front + [Insert(r, id)], RefuseInsert(m, r))
  {
    RefusalAnswers();
    SessionVouches(s, front, m, Insert(r, id), r, m.sessions[r].(at := Closed(RefusalAnswer(CreationOf(m, r)))));
  }

  lemma InsertVouches(s: State, front: seq<Event>, m: State, r: Id, id: Id)
    requires m == Run(s, front) && Vouched(s, front, m)
    requires forall o | o in s.orders :: o in m.orders
    ensures Vouched(s, front + [Insert(r, id)], DoInsert(m, r, id))
  {
    if Inserting(m, r, id) {
      if CreationOf(m, r).Created? {
        EnterVouches(s, front, m, r, id);
      } else {
        RefusalVouches(s, front, m, r, id);
      }
    } else {
      SameSessionsVouch(s, front, m, Insert(r, id), m);
    }
  }

  lemma StepVouches(s: State, front: seq<Event>, m: State, e: Event)
    requires m == Run(s, front) && Vouched(s, front, m)
    ensures Vouched(s, front + [e], Exec(m, e))
  {
    if Aside(e) {
      AsideVouches(s, front, m, e);
    } else if e.Insert? {
      RunEvolves(s, front);
      InsertVouches(s, front, m, e.r, e.id);
    } else {
      RestEvolves(m, e);
      SameSessionsVouch(s, front, m, e, Exec(m, e));
    }
  }

  lemma {:induction false} RunVouches(s: State, events: seq<Event>)
    requires s.sessions == map[]
    ensures Vouched(s, events, Run(s, events))
    decreases |events|
  {
    if events != [] {
      var front := events[..|events| - 1];
      var e := events[|events| - 1];
      assert events == front + [e];
      RunVouches(s, front);
      RunSnoc(s, front, e);
      StepVouches(s, front, Run(s, front), e);
    }
  }

  /**
   * Every order of the run was created by exactly one request, answered as its creator, and carries that request's key,
   * hash and retry link. So a request answered in any other way, a mismatch say, has created nothing.
   */
  lemma OneCreatorPerOrder(s: State, events: seq<Event>, o: Id)
    requires s.sessions == map[] && o in Run(s, events).orders && o !in s.orders
    ensures var t := Run(s, events);
            exists r :: CreatedBy(t, r, o) && (forall q | CreatedBy(t, q, o) :: q == r)
                        && t.orders[o].key == t.sessions[r].req.key && t.orders[o].hash == Some(t.sessions[r].req.hash)
                        && t.orders[o].retryOf == t.sessions[r].req.retryOf
  {
    RunVouches(s, events);
    var t := Run(s, events);
    var r :| Created(s, events, t, r, o);
    assert CreatedBy(t, r, o);
  }

  /** Requests that were accepted for one order made in the run have one payload. */
  lemma OnePayloadPerOrder(s: State, events: seq<Event>, o: Id, q: Id, r: Id, x: bool, y: bool)
    requires OneOrderPerKey(s.orders) && s.sessions == map[] && o !in s.orders
    requires Answered(Run(s, events), q, Accepted(o, x)) && Answered(Run(s, events), r, Accepted(o, y))
    ensures Run(s, events).sessions[q].req.key == Run(s, events).sessions[r].req.key
    ensures Run(s, events).sessions[q].req.hash == Run(s, events).sessions[r].req.hash
  {
    IdempotentCreation(s, events, q, o, x);
    IdempotentCreation(s, events, r, o, y);
    OneCreatorPerOrder(s, events, o);
  }

  /**
   * Retry links in every reachable state: following them from any order visits strictly earlier orders and ends, and the
   * source of every order made in the run was terminal at a moment before the order existed, namely when the request
   * that created the order read it.
   */
  lemma RetryLinksWellFounded(s: State, events: seq<Event>, o: Id)
    requires s.sessions == map[] && RetryInv(s) && o in Run(s, events).orders
    ensures var t := Run(s, events);
            && LinksDown(t.orders)
            && var chain := Chain(t.orders, o);
            && Descends(t.orders, chain)
            && forall i | 0 <= i < |chain| - 1 && chain[i] !in s.orders ::
                 exists r :: CreatedBy(t, r, chain[i]) && CheckedBefore(s, events, r, chain[i + 1], Some(chain[i]))
  {
    RunKeepsRetry(s, events);
    var t := Run(s, events);
    var chain := Chain(t.orders, o);
    ChainMeaning(t.orders, o);
    forall i | 0 <= i < |chain| - 1 && chain[i] !in s.orders
      ensures exists r :: CreatedBy(t, r, chain[i]) && CheckedBefore(s, events, r, chain[i + 1], Some(chain[i]))
    {
      LinkIsChecked(s, events, chain[i], chain[i + 1]);
    }
  }

  /** Whoever created an order read its source as terminal before. */
  lemma LinkIsChecked(s: State, events: seq<Event>, o: Id, p: Id)
    requires s.sessions == map[] && o !in s.orders && o in Run(s, events).orders && Run(s, events).orders[o].retryOf == Some(p)
    ensures exists r :: CreatedBy(Run(s, events), r, o) && CheckedBefore(s, events, r, p, Some(o))
  {
    RunVouches(s, events);
    var r :| Created(s, events, Run(s, events), r, o);
    assert CreatedBy(Run(s, events), r, o) && CheckedBefore(s, events, r, p, Some(o));
  }
}
