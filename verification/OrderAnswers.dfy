/** Where the answers about an order that is already active come from. */
module OrderAnswers {
  import opened Prelude
  import opened Orders
  import opened OrderProtocol
  import opened OrderTables
  import opened OrderDelivery

  predicate StandsAt(t: State, r: Id, p: Point) {
    r in t.sessions && t.sessions[r].at == p
  }

  // ---------- One event ----------

  /** The request reads whether the ONU has an active order. */
  ghost predicate AsksNow(m: State, e: Event, r: Id, u: Id, active: bool) {
    e == Read(r) && StandsAt(m, r, Recognised(Some(u))) && (Busy(m.orders, u) <==> active)
  }

  /** The request inserts a row with a free key that only the index on the ONU rejects. */
  ghost predicate BlockedNow(m: State, e: Event, r: Id, u: Id) {
    && e.Insert? && e.r == r && Inserting(m, r, e.id) && StandsAt(m, r, Cleared(Some(u)))
    && (forall o | o in m.orders :: m.orders[o].key != m.sessions[r].req.key) && Busy(m.orders, u)
  }

  /** The insert never answers with the conflict; it passes the database error on exactly when the index on the ONU rejects the row. */
  lemma InsertIsUntranslated(s: State, r: Id, id: Id)
    requires Inserting(s, r, id)
    ensures var x := s.sessions[r];
            var t := DoInsert(s, r, id);
            && r in t.sessions && t.sessions[r].at.Closed? && t.sessions[r].at.answer != ActiveOrder
            && (t.sessions[r].at.answer == Untranslated <==>
                  (forall o | o in s.orders :: s.orders[o].key != x.req.key) && x.at.onu.Some? && Busy(s.orders, x.at.onu.value))
  {
    BusyIff(s.orders);
    RefusalAnswers();
    if !CreationOf(s, r).Created? {
      assert DoInsert(s, r, id) == RefuseInsert(s, r);
    }
  }

  /** The events that move a request. */
  predicate Moves(e: Event, r: Id) {
    (e.Submit? && e.r == r) || (e.Read? && e.r == r) || (e.Reject? && e.r == r) || (e.Insert? && e.r == r)
  }

  lemma OthersStay(m: State, e: Event, r: Id)
    requires !Moves(e, r)
    ensures r in Exec(m, e).sessions <==> r in m.sessions
    ensures r in m.sessions ==> Exec(m, e).sessions[r] == m.sessions[r]
  {
    if OfWorker(e) { WorkerProgress(m, e); }
    else if e.Insert? { InsertTouches(m, e.r, e.id); }
    else if Aside(e) { AsideStays(m, e, r); }
  }

  lemma AsideStays(m: State, e: Event, r: Id)
    requires Aside(e) && !Moves(e, r)
    ensures r in ExecAside(m, e).sessions <==> r in m.sessions
    ensures r in m.sessions ==> ExecAside(m, e).sessions[r] == m.sessions[r]
  {
    if e.Read? { ReadTouches(m, e.r); }
    else if e.Submit? || e.Reject? { RequestTouches(m, e); }
    else { assert ExecAside(m, e).sessions == m.sessions; }
  }

  lemma ReadTouches(m: State, r: Id)
    ensures OnlyAt(m.sessions, DoRead(m, r).sessions, r)
  {
  }

  lemma RequestTouches(m: State, e: Event)
    requires e.Submit? || e.Reject?
    ensures OnlyAt(m.sessions, ExecAside(m, e).sessions, e.r)
  {
  }

  lemma ReadAnswers(m: State, r: Id, u: Id)
    ensures var t := DoRead(m, r);
            && (StandsAt(t, r, Closed(ActiveOrder)) <==>
                  StandsAt(m, r, Closed(ActiveOrder)) || exists v :: AsksNow(m, Read(r), r, v, true))
            && (StandsAt(t, r, Closed(Untranslated)) <==> StandsAt(m, r, Closed(Untranslated)))
            && (StandsAt(t, r, Cleared(Some(u))) ==> StandsAt(m, r, Cleared(Some(u))) || AsksNow(m, Read(r), r, u, false))
  {
    BusyIff(m.orders);
    if r in m.sessions && m.sessions[r].at.Recognised? && m.sessions[r].at.onu.Some? {
      AskingAnswers(m, r, m.sessions[r].at.onu.value);
    } else if r in m.sessions {
      NoAnswer(m, m.sessions[r]);
    }
  }

  lemma AskingAnswers(m: State, r: Id, v: Id)
    requires StandsAt(m, r, Recognised(Some(v)))
    ensures AsksNow(m, Read(r), r, v, Busy(m.orders, v))
    ensures StandsAt(DoRead(m, r), r, if Busy(m.orders, v) then Closed(ActiveOrder) else Cleared(Some(v)))
  {
    BusyIff(m.orders);
  }

  /** Only the read of V8 tells whether the ONU is taken. */
  lemma NoAnswer(m: State, x: Session)
    requires !(x.at.Recognised? && x.at.onu.Some?)
    ensures var p := NextPoint(m, x);
            p == x.at || (p != Closed(ActiveOrder) && p != Closed(Untranslated) && !(p.Cleared? && p.onu.Some?))
  {
  }

  lemma InsertAnswers(m: State, r: Id, id: Id, u: Id)
    ensures var t := DoInsert(m, r, id);
            && (StandsAt(t, r, Closed(ActiveOrder)) <==> StandsAt(m, r, Closed(ActiveOrder)))
            && (StandsAt(t, r, Closed(Untranslated)) <==>
                  StandsAt(m, r, Closed(Untranslated)) || exists v :: BlockedNow(m, Insert(r, id), r, v))
            && (StandsAt(t, r, Cleared(Some(u))) ==> StandsAt(m, r, Cleared(Some(u))))
  {
    if Inserting(m, r, id) {
      InsertIsUntranslated(m, r, id);
      if m.sessions[r].at.onu.Some? && BlockedNow(m, Insert(r, id), r, m.sessions[r].at.onu.value) {
        assert StandsAt(DoInsert(m, r, id), r, Closed(Untranslated));
      }
    }
  }

  lemma StepAnswers(m: State, e: Event, r: Id, u: Id)
    ensures var t := Exec(m, e);
            && (StandsAt(t, r, Closed(ActiveOrder)) <==>
                  StandsAt(m, r, Closed(ActiveOrder)) || exists v :: AsksNow(m, e, r, v, true))
            && (StandsAt(t, r, Closed(Untranslated)) <==>
                  StandsAt(m, r, Closed(Untranslated)) || exists v :: BlockedNow(m, e, r, v))
            && (StandsAt(t, r, Cleared(Some(u))) ==> StandsAt(m, r, Cleared(Some(u))) || AsksNow(m, e, r, u, false))
  {
    if !Moves(e, r) { OthersStay(m, e, r); }
    else if e.Read? { ReadAnswers(m, r, u); }
    else if e.Insert? { InsertAnswers(m, r, e.id, u); }
    else { StartOrReject(m, e, r); }
  }

  lemma StartOrReject(m: State, e: Event, r: Id)
    requires (e.Submit? || e.Reject?) && e.r == r
    ensures var t := Exec(m, e);
            || (forall p :: StandsAt(t, r, p) <==> StandsAt(m, r, p))
            || (r !in m.sessions && StandsAt(t, r, Submitted))
            || (r in m.sessions && !m.sessions[r].at.Closed? && StandsAt(t, r, Closed(Rejected)))
  {
  }

  // ---------- Runs ----------

  ghost predicate Asked(s: State, events: seq<Event>, r: Id, u: Id, active: bool, k: nat) {
    k < |events| && AsksNow(Run(s, events[..k]), events[k], r, u, active)
  }

  ghost predicate Blocked(s: State, events: seq<Event>, r: Id, u: Id, k: nat) {
    k < |events| && BlockedNow(Run(s, events[..k]), events[k], r, u)
  }

  ghost predicate AskedBefore(s: State, events: seq<Event>, r: Id, u: Id, n: nat) {
    exists k: nat :: k < n && Asked(s, events, r, u, false, k)
  }

  ghost predicate Dated(s: State, events: seq<Event>, r: Id) {
    var t := Run(s, events);
    && (StandsAt(t, r, Closed(ActiveOrder)) <==> exists u, k: nat :: Asked(s, events, r, u, true, k))
    && (StandsAt(t, r, Closed(Untranslated)) <==> exists u, k: nat :: Blocked(s, events, r, u, k))
    && (forall u | StandsAt(t, r, Cleared(Some(u))) :: AskedBefore(s, events, r, u, |events|))
    && (forall u, k: nat | Blocked(s, events, r, u, k) :: AskedBefore(s, events, r, u, k))
  }

  lemma AskedSnoc(s: State, front: seq<Event>, e: Event, r: Id, u: Id, active: bool, k: nat)
    ensures Asked(s, front + [e], r, u, active, k) <==>
            Asked(s, front, r, u, active, k) || (k == |front| && AsksNow(Run(s, front), e, r, u, active))
  {
    if k <= |front| {
      assert (front + [e])[..k] == front[..k];
      assert front[..|front|] == front;
    }
  }

  lemma BlockedSnoc(s: State, front: seq<Event>, e: Event, r: Id, u: Id, k: nat)
    ensures Blocked(s, front + [e], r, u, k) <==>
            Blocked(s, front, r, u, k) || (k == |front| && BlockedNow(Run(s, front), e, r, u))
  {
    if k <= |front| {
      assert (front + [e])[..k] == front[..k];
      assert front[..|front|] == front;
    }
  }

  lemma AskedBeforeStays(s: State, front: seq<Event>, e: Event, r: Id, u: Id, n: nat)
    requires AskedBefore(s, front, r, u, n)
    ensures AskedBefore(s, front + [e], r, u, n)
  {
    var k: nat :| k < n && Asked(s, front, r, u, false, k);
    AskedSnoc(s, front, e, r, u, false, k);
  }

  lemma ConflictDated(s: State, front: seq<Event>, e: Event, r: Id)
    requires Dated(s, front, r)
    ensures StandsAt(Run(s, front + [e]), r, Closed(ActiveOrder)) <==> exists u, k: nat :: Asked(s, front + [e], r, u, true, k)
  {
    var m := Run(s, front);
    RunSnoc(s, front, e);
    StepAnswers(m, e, r, 0);
    forall u, k: nat
      ensures Asked(s, front + [e], r, u, true, k) <==> Asked(s, front, r, u, true, k) || (k == |front| && AsksNow(m, e, r, u, true))
    {
      AskedSnoc(s, front, e, r, u, true, k);
    }
    if StandsAt(m, r, Closed(ActiveOrder)) {
      var u, k: nat :| Asked(s, front, r, u, true, k);
      assert Asked(s, front + [e], r, u, true, k);
    } else if u :| AsksNow(m, e, r, u, true) {
      assert Asked(s, front + [e], r, u, true, |front|);
    }
  }

  lemma ErrorDated(s: State, front: seq<Event>, e: Event, r: Id)
    requires Dated(s, front, r)
    ensures StandsAt(Run(s, front + [e]), r, Closed(Untranslated)) <==> exists u, k: nat :: Blocked(s, front + [e], r, u, k)
  {
    var m := Run(s, front);
    RunSnoc(s, front, e);
    StepAnswers(m, e, r, 0);
    forall u, k: nat
      ensures Blocked(s, front + [e], r, u, k) <==> Blocked(s, front, r, u, k) || (k == |front| && BlockedNow(m, e, r, u))
    {
      BlockedSnoc(s, front, e, r, u, k);
    }
    if StandsAt(m, r, Closed(Untranslated)) {
      var u, k: nat :| Blocked(s, front, r, u, k);
      assert Blocked(s, front + [e], r, u, k);
    } else if u :| BlockedNow(m, e, r, u) {
      assert Blocked(s, front + [e], r, u, |front|);
    }
  }

  lemma ClearedDated(s: State, front: seq<Event>, e: Event, r: Id, u: Id)
    requires Dated(s, front, r) && StandsAt(Run(s, front + [e]), r, Cleared(Some(u)))
    ensures AskedBefore(s, front + [e], r, u, |front| + 1)
  {
    RunSnoc(s, front, e);
    StepAnswers(Run(s, front), e, r, u);
    if StandsAt(Run(s, front), r, Cleared(Some(u))) {
      AskedBeforeStays(s, front, e, r, u, |front|);
    } else {
      AskedSnoc(s, front, e, r, u, false, |front|);
    }
  }

  lemma {:induction false} RunDates(s: State, events: seq<Event>, r: Id)
    requires s.sessions == map[]
    ensures Dated(s, events, r)
    decreases |events|
  {
    if events != [] {
      var front, e := events[..|events| - 1], events[|events| - 1];
      assert events == front + [e];
      RunDates(s, front, r);
      ConflictDated(s, front, e, r);
      ErrorDated(s, front, e, r);
      forall u | StandsAt(Run(s, events), r, Cleared(Some(u)))
        ensures AskedBefore(s, events, r, u, |events|)
      {
        ClearedDated(s, front, e, r, u);
      }
      forall u, k: nat | Blocked(s, events, r, u, k)
        ensures AskedBefore(s, events, r, u, k)
      {
        BlockedSnoc(s, front, e, r, u, k);
        AskedBeforeStays(s, front, e, r, u, k);
      }
    }
  }

  /**
   * Over every run: a request gets the conflict answer exactly when its read of the ONU's orders saw an active one. It gets
   * the untranslated database error exactly when its insert, with a free key, met an active order of the ONU, and then its
   * own read had seen none: the order became active in between.
   */
  lemma ConflictOrError(s: State, events: seq<Event>, r: Id)
    requires s.sessions == map[]
    ensures StandsAt(Run(s, events), r, Closed(ActiveOrder)) <==> exists u, k: nat :: Asked(s, events, r, u, true, k)
    ensures StandsAt(Run(s, events), r, Closed(Untranslated)) <==> exists u, k: nat :: Blocked(s, events, r, u, k)
    ensures forall u, k: nat | Blocked(s, events, r, u, k) :: AskedBefore(s, events, r, u, k)
  {
    RunDates(s, events, r);
  }

  /** Any other error of the service closes an open request and changes nothing else. */
  lemma RejectCloses(m: State, r: Id)
    requires r in m.sessions && !m.sessions[r].at.Closed?
    ensures Exec(m, Reject(r)) == m.(sessions := m.sessions[r := Session(m.sessions[r].req, Closed(Rejected))])
  {
  }

  // ---------- What a request has recognised ----------

  /** The request reads which ONU has its serial, or that one is pending. */
  ghost predicate FindsNow(m: State, e: Event, r: Id, onu: Option<Id>) {
    e == Read(r) && StandsAt(m, r, RetryChecked) && Recognisable(m, m.sessions[r].req, onu)
  }

  ghost predicate Found(s: State, events: seq<Event>, r: Id, onu: Option<Id>, k: nat) {
    k < |events| && FindsNow(Run(s, events[..k]), events[k], r, onu)
  }

  predicate HasRecognised(t: State, r: Id, onu: Option<Id>) {
    StandsAt(t, r, Recognised(onu)) || StandsAt(t, r, Cleared(onu))
  }

  lemma ReadRecognises(m: State, r: Id, onu: Option<Id>)
    requires HasRecognised(DoRead(m, r), r, onu)
    ensures HasRecognised(m, r, onu) || FindsNow(m, Read(r), r, onu)
  {
    if r in m.sessions && m.sessions[r].at.RetryChecked? {
      SerialPoint(m, m.sessions[r].req);
    }
  }

  lemma StepRecognises(m: State, e: Event, r: Id, onu: Option<Id>)
    requires HasRecognised(Exec(m, e), r, onu)
    ensures HasRecognised(m, r, onu) || FindsNow(m, e, r, onu)
  {
    if !Moves(e, r) { OthersStay(m, e, r); }
    else if e.Read? { ReadRecognises(m, r, onu); }
    else if e.Insert? { InsertRecognises(m, r, e.id, onu); }
    else { StartOrReject(m, e, r); }
  }

  lemma InsertRecognises(m: State, r: Id, id: Id, onu: Option<Id>)
    requires HasRecognised(DoInsert(m, r, id), r, onu)
    ensures HasRecognised(m, r, onu)
  {
    if Inserting(m, r, id) {
      InsertIsUntranslated(m, r, id);
    }
  }

  /**
   * Over every run: a request that has got past V6 read, at that moment, a live ONU with its serial, or that there is none
   * and a pending one waits on its port; it goes on with what it read.
   */
  lemma {:induction false} RecognitionVouched(s: State, events: seq<Event>, r: Id, onu: Option<Id>) returns (k: nat)
    requires s.sessions == map[] && HasRecognised(Run(s, events), r, onu)
    ensures Found(s, events, r, onu, k)
    decreases |events|
  {
    k := 0;
    if events != [] {
      var front, e := events[..|events| - 1], events[|events| - 1];
      assert events == front + [e];
      RunSnoc(s, front, e);
      StepRecognises(Run(s, front), e, r, onu);
      if HasRecognised(Run(s, front), r, onu) {
        k := RecognitionVouched(s, front, r, onu);
        assert events[..k] == front[..k] && events[k] == front[k];
      } else {
        k := |front|;
        assert events[..k] == front;
      }
    }
  }
}
