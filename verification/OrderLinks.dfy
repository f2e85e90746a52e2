/** Orders, ONUs and pending ONUs: one active order per ONU, materialisation, equal serials. */
module OrderLinks {
  import opened Prelude
  import opened Commands
  import opened Orders
  import opened Saga
  import opened OrderProtocol

  // ---------- The invariant ----------

  /** The ONU exists and has this serial. */
  ghost predicate Named(onus: map<Id, Onu>, u: Id, serial: string) {
    u in onus && onus[u].serial == serial
  }

  ghost predicate OrderLinked(onus: map<Id, Onu>, order: Order) {
    order.onu.Some? ==>
      && order.onu.value in onus
      && (SerialOf(order).Some? ==> Named(onus, order.onu.value, SerialOf(order).value))
  }

  ghost predicate PendingLinked(onus: map<Id, Onu>, key: PendingKey, pending: PendingOnu) {
    && (pending.linked.Some? ==> Named(onus, pending.linked.value, key.serial) && pending.state.Resolved?)
  }

  ghost predicate SessionLinked(onus: map<Id, Onu>, session: Session) {
    (session.at.Recognised? || session.at.Cleared?) && session.at.onu.Some? ==> Named(onus, session.at.onu.value, session.req.serial)
  }

  /** Materialisation of o inserted u: the order and its resolved pending ONU both name it. */
  ghost predicate BornLinked(s: State, o: Id, u: Id) {
    && o in s.orders && s.orders[o].onu == Some(u) && SerialOf(s.orders[o]).Some? && u in s.onus
    && var key := PendingOf(s.orders[o], SerialOf(s.orders[o]).value);
       key in s.pendings && s.pendings[key].state.Resolved? && s.pendings[key].linked == Some(u)
  }

  ghost predicate LiveSerialsUnique(onus: map<Id, Onu>) {
    forall u, v | u in onus && v in onus && onus[u].live && onus[v].live && onus[u].serial == onus[v].serial :: u == v
  }

  ghost predicate LinkInv(s: State) {
    && (forall o | o in s.orders :: OrderLinked(s.onus, s.orders[o]))
    && (forall k | k in s.pendings :: PendingLinked(s.onus, k, s.pendings[k]))
    && (forall r | r in s.sessions :: SessionLinked(s.onus, s.sessions[r]))
  }

  ghost predicate BornInv(s: State) {
    && (forall i | 0 <= i < |s.born| :: BornLinked(s, s.born[i].0, s.born[i].1))
    && (forall i, j | 0 <= i < j < |s.born| :: s.born[i].0 != s.born[j].0 && s.born[i].1 != s.born[j].1)
  }

  ghost predicate TablesInv(s: State) {
    OneActivePerOnu(s.orders) && LiveSerialsUnique(s.onus) && LinkInv(s) && BornInv(s)
  }

  // ---------- Growing tables ----------

  /** ONUs keep their serials; resolved pending ONUs keep their links; ONUs do not revive. */
  ghost predicate Extends(s: State, t: State) {
    && Evolves(s.orders, t.orders)
    && (forall u | u in s.onus :: u in t.onus && t.onus[u].serial == s.onus[u].serial)
    && (forall k | k in s.pendings && s.pendings[k].state.Resolved? ::
          k in t.pendings && t.pendings[k].state.Resolved? && t.pendings[k].linked == s.pendings[k].linked)
  }

  lemma BornStays(s: State, t: State)
    requires BornInv(s) && Extends(s, t) && t.born == s.born
    ensures BornInv(t)
  {
    forall i | 0 <= i < |t.born|
      ensures BornLinked(t, t.born[i].0, t.born[i].1)
    {
      assert BornLinked(s, s.born[i].0, s.born[i].1);
      assert Continues(s.orders[s.born[i].0], t.orders[s.born[i].0]);
    }
  }

  // ---------- Steps that only move statuses ----------

  lemma StatusKeepsTables(s: State, t: State)
    requires TablesInv(s) && Evolves(s.orders, t.orders) && t.orders.Keys == s.orders.Keys && OneActivePerOnu(t.orders)
    requires forall o | o in s.orders :: t.orders[o].onu == s.orders[o].onu
    requires t.onus == s.onus && t.pendings == s.pendings && t.sessions == s.sessions && t.born == s.born
    ensures TablesInv(t)
  {
    BornStays(s, t);
    forall o | o in t.orders
      ensures OrderLinked(t.onus, t.orders[o])
    {
      assert OrderLinked(s.onus, s.orders[o]) && Continues(s.orders[o], t.orders[o]);
    }
  }

  lemma WithStatusKeepsIndex(rows: Rows, o: Id, status: Status)
    requires OneActivePerOnu(rows)
    requires Active(status) ==> !Clashes(rows, o)
    ensures OneActivePerOnu(WithStatus(rows, o, status))
  {
  }

  /** Only MarkRunning and phase 1 write an active status; the index guards the first, the second starts from an active row. */
  lemma PendingDoesNotClash(rows: Rows, o: Id)
    requires OneActivePerOnu(rows) && o in rows && rows[o].status.Pending?
    ensures !Clashes(rows, o)
  {
  }

  lemma MoveOrdersKeepsTables(s: State, t: State, o: Id, status: Status)
    requires TablesInv(s) && !status.Pending? && (Active(status) ==> !Clashes(s.orders, o))
    requires t.orders == WithStatus(s.orders, o, status)
    requires t.onus == s.onus && t.pendings == s.pendings && t.sessions == s.sessions && t.born == s.born
    ensures TablesInv(t)
  {
    WithStatusKeepsIndex(s.orders, o, status);
    StatusKeepsTables(s, t);
  }

  lemma ValidateKeepsTables(s: State, d: Id, readout: Readout)
    requires TablesInv(s)
    ensures TablesInv(DoValidate(s, d, readout))
  {
    if d in s.workers && s.workers[d].Received? {
      var o := s.workers[d].order;
      if Conclusive(s, o, readout) {
        ConcludeKeepsTables(s, d, o, Examine(s.orders[o], readout));
      } else {
        SameRowsKeepTables(s, Move(s, d, AfterInconclusive(s, o, readout)));
      }
    }
  }

  lemma ConcludeKeepsTables(s: State, d: Id, o: Id, verdict: Verdict)
    requires TablesInv(s) && Lockable(s, o)
    ensures TablesInv(Conclude(s, d, o, verdict))
  {
    PendingDoesNotClash(s.orders, o);
    MoveOrdersKeepsTables(s, Conclude(s, d, o, verdict), o, if verdict.Usable? then Validating else Failed);
  }

  lemma MarkRunningKeepsTables(s: State, d: Id, ok: bool)
    requires TablesInv(s)
    ensures TablesInv(DoMarkRunning(s, d, ok))
  {
    var t := DoMarkRunning(s, d, ok);
    if t.orders == s.orders {
      StatusKeepsTables(s, t);
    } else {
      MoveOrdersKeepsTables(s, t, s.workers[d].order, Running);
    }
  }

  lemma MarkFinishedKeepsTables(s: State, d: Id, ok: bool)
    requires TablesInv(s)
    ensures TablesInv(DoMarkFinished(s, d, ok))
  {
    var t := DoMarkFinished(s, d, ok);
    if t.orders == s.orders {
      StatusKeepsTables(s, t);
    } else {
      MoveOrdersKeepsTables(s, t, s.workers[d].order, s.workers[d].status);
    }
  }

  lemma MarkFailedKeepsTables(s: State, d: Id, ok: bool)
    requires TablesInv(s)
    ensures TablesInv(DoMarkFailed(s, d, ok))
  {
    var t := DoMarkFailed(s, d, ok);
    if t.orders == s.orders {
      StatusKeepsTables(s, t);
    } else {
      MoveOrdersKeepsTables(s, t, s.workers[d].order, Failed);
    }
  }

  lemma CancelKeepsTables(s: State, o: Id)
    requires TablesInv(s)
    ensures TablesInv(DoCancel(s, o))
  {
    var t := DoCancel(s, o);
    if t.orders == s.orders {
      StatusKeepsTables(s, t);
    } else {
      MoveOrdersKeepsTables(s, t, o, Status.Canceled);
    }
  }

  // ---------- Materialisation ----------

  /** Resolving the order's active pending ONU, linked to an ONU with its serial or to none. */
  lemma ResolveKeepsTables(s: State, key: PendingKey, linked: Option<Id>)
    requires TablesInv(s) && ActivePending(s, key)
    requires linked.Some? ==> Named(s.onus, linked.value, key.serial)
    ensures TablesInv(ResolvePending(s, key, linked))
  {
    BornStays(s, ResolvePending(s, key, linked));
  }

  /** Links survive when the ONUs keep their serials. */
  lemma OnusKeepLinks(s: State, onus: map<Id, Onu>)
    requires LinkInv(s) && BornInv(s)
    requires forall u | u in s.onus :: u in onus && onus[u].serial == s.onus[u].serial
    ensures LinkInv(s.(onus := onus)) && BornInv(s.(onus := onus))
  {
    BornStays(s, s.(onus := onus));
    assert forall o | o in s.orders :: OrderLinked(s.onus, s.orders[o]);
  }

  /** The new ONU's row. */
  lemma OnuKeepsTables(s: State, u: Id, serial: string)
    requires TablesInv(s) && u !in s.onus
    requires forall v | v in s.onus && s.onus[v].live :: s.onus[v].serial != serial
    ensures TablesInv(s.(onus := s.onus[u := Onu(serial, true)]))
  {
    OnusKeepLinks(s, s.onus[u := Onu(serial, true)]);
  }

  /** Naming a just inserted ONU in an order that had none. */
  lemma NameKeepsTables(s: State, o: Id, u: Id)
    requires TablesInv(s) && o in s.orders && s.orders[o].onu.None? && SerialOf(s.orders[o]).Some?
    requires Named(s.onus, u, SerialOf(s.orders[o]).value)
    requires forall p | p in s.orders :: s.orders[p].onu != Some(u)
    ensures TablesInv(s.(orders := s.orders[o := s.orders[o].(onu := Some(u))]))
  {
    BornStays(s, s.(orders := s.orders[o := s.orders[o].(onu := Some(u))]));
  }

  lemma BirthKeepsTables(s: State, o: Id, u: Id)
    requires TablesInv(s) && BornLinked(s, o, u)
    requires forall i | 0 <= i < |s.born| :: s.born[i].0 != o && s.born[i].1 != u
    ensures TablesInv(s.(born := s.born + [(o, u)]))
  {
  }

  /** The order, its pending ONU and the new ONU change in one transaction. */
  lemma BearKeepsTables(s: State, o: Id, u: Id)
    requires TablesInv(s) && o in s.orders && s.orders[o].onu.None? && SerialOf(s.orders[o]).Some? && u !in s.onus
    requires var serial := SerialOf(s.orders[o]).value;
             ActivePending(s, PendingOf(s.orders[o], serial)) && forall v | v in s.onus && s.onus[v].live :: s.onus[v].serial != serial
    ensures var serial := SerialOf(s.orders[o]).value;
            TablesInv(ResolvePending(s, PendingOf(s.orders[o], serial), Some(u)).(
              onus := s.onus[u := Onu(serial, true)],
              orders := s.orders[o := s.orders[o].(onu := Some(u))],
              born := s.born + [(o, u)]))
  {
    var serial := SerialOf(s.orders[o]).value;
    var key := PendingOf(s.orders[o], serial);
    forall p | p in s.orders
      ensures s.orders[p].onu != Some(u)
    {
      assert OrderLinked(s.onus, s.orders[p]);
    }
    forall i | 0 <= i < |s.born|
      ensures s.born[i].0 != o && s.born[i].1 != u
    {
      assert BornLinked(s, s.born[i].0, s.born[i].1);
    }
    var s1 := s.(onus := s.onus[u := Onu(serial, true)]);
    OnuKeepsTables(s, u, serial);
    var s2 := s1.(orders := s.orders[o := s.orders[o].(onu := Some(u))]);
    NameKeepsTables(s1, o, u);
    var s3 := ResolvePending(s2, key, Some(u));
    ResolveKeepsTables(s2, key, Some(u));
    BirthKeepsTables(s3, o, u);
  }

  /**
   * Materialisation inserts an ONU exactly for an order without one whose serial has an active pending ONU of a known
   * model and no live ONU; the new ONU is then named by the order and by the pending ONU.
   */
  lemma MaterializesIff(s: State, o: Id, newOnu: Id)
    requires o in s.orders && newOnu !in s.onus
    ensures var t := MaterializeOrder(s, o, newOnu);
            var serial := SerialOf(s.orders[o]);
            && (t.born != s.born <==>
                  && s.orders[o].onu.None? && serial.Some?
                  && ActivePending(s, PendingOf(s.orders[o], serial.value))
                  && s.pendings[PendingOf(s.orders[o], serial.value)].model.Some?
                  && forall u | u in s.onus && s.onus[u].live :: s.onus[u].serial != serial.value)
            && (t.born != s.born ==>
                  && t.born == s.born + [(o, newOnu)] && BornLinked(t, o, newOnu)
                  && t.onus == s.onus[newOnu := Onu(serial.value, true)] && t.orders == s.orders[o := s.orders[o].(onu := Some(newOnu))])
            && (t.born == s.born ==> t.onus == s.onus && t.orders == s.orders)
  {
    assert |s.born + [(o, newOnu)]| == |s.born| + 1;
  }

  /** The serial of the order's snapshot, when there is one. */
  ghost predicate HasSerial(order: Order, serial: string) {
    "serial" in order.snapshot && order.snapshot["serial"] == serial && serial != ""
  }

  /** The pending ONU is the order's: its OLT, its port, its serial; and nobody has resolved it. */
  ghost predicate Awaits(s: State, k: PendingKey, order: Order) {
    k in s.pendings && k.olt == order.olt && k.pon == order.pon && HasSerial(order, k.serial) && s.pendings[k].state in {Detected, Waiting}
  }

  /** Nothing stands in the way of resolving it: the order has its ONU, or none is to be made, or one can be. */
  ghost predicate Resolves(s: State, k: PendingKey, order: Order)
    requires k in s.pendings
  {
    order.onu.Some? || s.pendings[k].model.None? || forall u | u in s.onus && s.onus[u].live :: s.onus[u].serial != k.serial
  }

  /**
   * What materialisation does to the pending ONUs: the order's own one is resolved exactly when it was active and nothing
   * stands in the way, and is then linked to the ONU that the order names; all others stay as they are.
   */
  lemma MaterializeDecides(s: State, d: Id, newOnu: Id, o: Id)
    requires d in s.workers && s.workers[d] == Materializing(o) && o in s.orders && newOnu !in s.onus
    ensures var t := Exec(s, Materialize(d, newOnu, true));
            && d in t.workers && t.workers[d] == Done && t.pendings.Keys == s.pendings.Keys && o in t.orders
            && forall k | k in s.pendings ::
                 if Awaits(s, k, s.orders[o]) && Resolves(s, k, s.orders[o]) then
                   && t.pendings[k].state == PendingState.Resolved && t.pendings[k].model == s.pendings[k].model
                   && t.pendings[k].linked == if t.orders[o].onu.Some? then t.orders[o].onu else s.pendings[k].linked
                 else t.pendings[k] == s.pendings[k]
  {
    var order := s.orders[o];
    forall k | k in s.pendings
      ensures Awaits(s, k, order) <==>
              SerialOf(order).Some? && k == PendingOf(order, SerialOf(order).value) && ActivePending(s, k)
    {
    }
    DecidesAt(s, o, newOnu);
  }

  lemma DecidesAt(s: State, o: Id, newOnu: Id)
    requires o in s.orders && newOnu !in s.onus
    ensures var t := MaterializeOrder(s, o, newOnu);
            && t.pendings.Keys == s.pendings.Keys && o in t.orders
            && forall k | k in s.pendings ::
                 if SerialOf(s.orders[o]).Some? && k == PendingOf(s.orders[o], SerialOf(s.orders[o]).value) && ActivePending(s, k)
                    && Resolves(s, k, s.orders[o]) then
                   && t.pendings[k].state == PendingState.Resolved && t.pendings[k].model == s.pendings[k].model
                   && t.pendings[k].linked == if t.orders[o].onu.Some? then t.orders[o].onu else s.pendings[k].linked
                 else t.pendings[k] == s.pendings[k]
  {
    PendingsAfter(s, o, newOnu);
  }

  /** The one pending ONU that changes, and how. */
  lemma PendingsAfter(s: State, o: Id, newOnu: Id)
    requires o in s.orders && newOnu !in s.onus
    ensures var t := MaterializeOrder(s, o, newOnu);
            var serial := SerialOf(s.orders[o]);
            && o in t.orders
            && if serial.Some? && ActivePending(s, PendingOf(s.orders[o], serial.value)) && Resolves(s, PendingOf(s.orders[o], serial.value), s.orders[o])
               then var k := PendingOf(s.orders[o], serial.value);
                    t.pendings == s.pendings[k := PendingOnu(PendingState.Resolved, s.pendings[k].model,
                                                             if t.orders[o].onu.Some? then t.orders[o].onu else s.pendings[k].linked)]
               else t.pendings == s.pendings
  {
    var order := s.orders[o];
    if SerialOf(order).Some? && ActivePending(s, PendingOf(order, SerialOf(order).value)) {
      var k := PendingOf(order, SerialOf(order).value);
      if order.onu.Some? {
        assert MaterializeOrder(s, o, newOnu) == ResolvePending(s, k, order.onu);
      } else if s.pendings[k].model.None? {
        assert MaterializeOrder(s, o, newOnu) == ResolvePending(s, k, s.pendings[k].linked);
      } else if Resolves(s, k, order) {
        assert MaterializeOrder(s, o, newOnu).pendings == ResolvePending(s, k, Some(newOnu)).pendings;
      }
    }
  }

  /** The inventory gains a live ONU unless its id is taken or its serial is live; a removed ONU stays, but not live. */
  lemma InventoryMeaning(s: State, onu: Id, serial: string)
    ensures Exec(s, InstallOnu(onu, serial)) ==
            if onu !in s.onus && (forall u | u in s.onus && s.onus[u].serial == serial :: !s.onus[u].live)
            then s.(onus := s.onus[onu := Onu(serial, true)]) else s
    ensures onu in s.onus ==> Exec(s, RemoveOnu(onu)) == s.(onus := s.onus[onu := Onu(s.onus[onu].serial, false)])
  {
  }

  /** An ONU seen for the first time is detected and unlinked; of a known one only the model may be news. */
  lemma DiscoveryMeaning(s: State, key: PendingKey, model: Option<Id>)
    ensures var t := Exec(s, Discover(key, model));
            && t == s.(pendings := t.pendings) && key in t.pendings
            && (forall k | k != key :: (k in t.pendings <==> k in s.pendings) && (k in s.pendings ==> t.pendings[k] == s.pendings[k]))
            && (model.Some? ==> t.pendings[key].model == model)
            && (key !in s.pendings ==> t.pendings[key].state.Detected? && t.pendings[key].linked.None? && t.pendings[key].model == model)
            && (key in s.pendings ==>
                  && t.pendings[key].state == s.pendings[key].state && t.pendings[key].linked == s.pendings[key].linked
                  && (model.None? ==> t.pendings[key].model == s.pendings[key].model))
  {
  }

  lemma MaterializeOrderKeepsTables(s: State, o: Id, newOnu: Id)
    requires TablesInv(s) && o in s.orders
    ensures TablesInv(MaterializeOrder(s, o, newOnu))
  {
    var order := s.orders[o];
    assert OrderLinked(s.onus, order);
    if SerialOf(order).Some? && ActivePending(s, PendingOf(order, SerialOf(order).value)) {
      var key := PendingOf(order, SerialOf(order).value);
      assert PendingLinked(s.onus, key, s.pendings[key]);
      if order.onu.Some? {
        ResolveKeepsTables(s, key, order.onu);
      } else if s.pendings[key].model.None? {
        ResolveKeepsTables(s, key, s.pendings[key].linked);
      } else if newOnu !in s.onus && forall v | v in s.onus && s.onus[v].live :: s.onus[v].serial != key.serial {
        BearKeepsTables(s, o, newOnu);
      }
    }
  }

  lemma MaterializeKeepsTables(s: State, d: Id, newOnu: Id, ok: bool)
    requires TablesInv(s)
    ensures TablesInv(DoMaterialize(s, d, newOnu, ok))
  {
    if d in s.workers && s.workers[d].Materializing? {
      var o := s.workers[d].order;
      var m := if ok && o in s.orders then MaterializeOrder(s, o, newOnu) else s;
      if ok && o in s.orders {
        MaterializeOrderKeepsTables(s, o, newOnu);
      }
      MoveKeepsTables(m, d, Done);
    }
  }

  // ---------- Requests and inventory ----------

  /** One request moves, to a point whose ONU has the request's serial. */
  lemma SessionKeepsTables(s: State, r: Id, x: Session)
    requires TablesInv(s) && SessionLinked(s.onus, x)
    ensures TablesInv(PutSession(s, r, x))
  {
    BornStays(s, PutSession(s, r, x));
  }

  lemma NextIsLinked(s: State, x: Session)
    requires SessionLinked(s.onus, x)
    ensures SessionLinked(s.onus, x.(at := NextPoint(s, x)))
  {
  }

  lemma InstallKeepsTables(s: State, onu: Id, serial: string)
    requires TablesInv(s)
    ensures TablesInv(DoInstall(s, onu, serial))
  {
    if onu !in s.onus && forall u | u in s.onus && s.onus[u].live :: s.onus[u].serial != serial {
      OnuKeepsTables(s, onu, serial);
    }
  }

  lemma RemoveKeepsTables(s: State, onu: Id)
    requires TablesInv(s)
    ensures TablesInv(DoRemove(s, onu))
  {
    if onu in s.onus {
      OnusKeepLinks(s, s.onus[onu := s.onus[onu].(live := false)]);
    }
  }

  lemma DiscoverKeepsTables(s: State, key: PendingKey, model: Option<Id>)
    requires TablesInv(s)
    ensures TablesInv(DoDiscover(s, key, model))
  {
    BornStays(s, DoDiscover(s, key, model));
    if key in s.pendings {
      assert PendingLinked(s.onus, key, s.pendings[key]);
    }
  }

  lemma AsideKeepsTables(s: State, e: Event)
    requires TablesInv(s) && Aside(e)
    ensures TablesInv(ExecAside(s, e))
  {
    match e
    case Submit(r, req) => if r !in s.sessions { SessionKeepsTables(s, r, Session(req, Submitted)); }
    case Read(r) =>
      if r in s.sessions {
        NextIsLinked(s, s.sessions[r]);
        SessionKeepsTables(s, r, s.sessions[r].(at := NextPoint(s, s.sessions[r])));
      }
    case Reject(r) => if r in s.sessions { SessionKeepsTables(s, r, s.sessions[r].(at := Closed(Rejected))); }
    case InstallOnu(onu, serial) => InstallKeepsTables(s, onu, serial);
    case RemoveOnu(onu) => RemoveKeepsTables(s, onu);
    case Discover(key, model) => DiscoverKeepsTables(s, key, model);
  }

  lemma EnterKeepsTables(s: State, r: Id, id: Id)
    requires TablesInv(s) && Inserting(s, r, id)
    requires s.sessions[r].at.onu.Some? ==> !HasActive(s.orders, s.sessions[r].at.onu.value)
    ensures TablesInv(Enter(s, r, id))
  {
    EnterKeepsLinks(s, r, id);
    EnterEvolves(s, r, id);
    EnterKeepsOnus(s, r, id);
    BornStays(s, Enter(s, r, id));
    EnterKeepsIndex(s.orders, id, Enter(s, r, id).orders[id]);
  }

  lemma EnterKeepsOnus(s: State, r: Id, id: Id)
    requires Inserting(s, r, id)
    ensures var t := Enter(s, r, id);
            && t.onus == s.onus && t.pendings == s.pendings && t.born == s.born
            && id in t.orders && t.orders == s.orders[id := t.orders[id]] && t.orders[id].onu == s.sessions[r].at.onu
  {
  }

  lemma EnterKeepsIndex(rows: Rows, id: Id, row: Order)
    requires OneActivePerOnu(rows) && id !in rows && (row.onu.Some? ==> !HasActive(rows, row.onu.value))
    ensures OneActivePerOnu(rows[id := row])
  {
  }

  lemma EnterKeepsLinks(s: State, r: Id, id: Id)
    requires LinkInv(s) && Inserting(s, r, id)
    ensures LinkInv(Enter(s, r, id))
  {
    var t := Enter(s, r, id);
    assert SessionLinked(s.onus, s.sessions[r]);
    assert OrderLinked(t.onus, t.orders[id]);
    assert forall o | o in s.orders :: OrderLinked(s.onus, s.orders[o]);
  }

  lemma InsertKeepsTables(s: State, r: Id, id: Id)
    requires TablesInv(s)
    ensures TablesInv(DoInsert(s, r, id))
  {
    if Inserting(s, r, id) {
      if CreationOf(s, r).Created? {
        EnterKeepsTables(s, r, id);
      } else {
        SessionKeepsTables(s, r, s.sessions[r].(at := Closed(RefusalAnswer(CreationOf(s, r)))));
      }
    }
  }

  // ---------- Every run ----------

  lemma SameRowsKeepTables(s: State, t: State)
    requires TablesInv(s) && t.orders == s.orders
    requires t.onus == s.onus && t.pendings == s.pendings && t.sessions == s.sessions && t.born == s.born
    ensures TablesInv(t)
  {
    StatusKeepsTables(s, t);
  }

  lemma MoveKeepsTables(s: State, d: Id, w: Worker)
    requires TablesInv(s)
    ensures TablesInv(Move(s, d, w))
  {
    SameRowsKeepTables(s, Move(s, d, w));
  }

  lemma ProvisionKeepsTables(s: State, d: Id, reply: Reply)
    requires TablesInv(s)
    ensures TablesInv(DoProvision(s, d, reply))
  {
    SameRowsKeepTables(s, DoProvision(s, d, reply));
  }

  lemma PersistKeepsTables(s: State, d: Id, ok: bool)
    requires TablesInv(s)
    ensures TablesInv(DoPersist(s, d, ok))
  {
    SameRowsKeepTables(s, DoPersist(s, d, ok));
  }

  lemma PlanUndoKeepsTables(s: State, d: Id, template: Option<Template>, sight: Sight)
    requires TablesInv(s)
    ensures TablesInv(DoPlanUndo(s, d, template, sight))
  {
    SameRowsKeepTables(s, DoPlanUndo(s, d, template, sight));
  }

  lemma DeprovisionKeepsTables(s: State, d: Id, reply: Reply, recorded: bool)
    requires TablesInv(s)
    ensures TablesInv(DoDeprovision(s, d, reply, recorded))
  {
    SameRowsKeepTables(s, DoDeprovision(s, d, reply, recorded));
  }

  lemma WorkerKeepsTables(s: State, e: Event)
    requires TablesInv(s) && OfWorker(e)
    ensures TablesInv(ExecWorker(s, e))
  {
    match e
    case Validate(d, readout) => ValidateKeepsTables(s, d, readout);
    case MarkRunning(d, ok) => MarkRunningKeepsTables(s, d, ok);
    case MarkFinished(d, ok) => MarkFinishedKeepsTables(s, d, ok);
    case MarkFailed(d, ok) => MarkFailedKeepsTables(s, d, ok);
    case Materialize(d, newOnu, ok) => MaterializeKeepsTables(s, d, newOnu, ok);
    case _ => CallsKeepTables(s, e);
  }

  lemma CallsKeepTables(s: State, e: Event)
    requires TablesInv(s) && (e.Provision? || e.Persist? || e.PlanUndo? || e.Deprovision?)
    ensures TablesInv(ExecWorker(s, e))
  {
    match e
    case Provision(d, reply) => ProvisionKeepsTables(s, d, reply);
    case Persist(d, ok) => PersistKeepsTables(s, d, ok);
    case PlanUndo(d, template, sight) => PlanUndoKeepsTables(s, d, template, sight);
    case Deprovision(d, reply, recorded) => DeprovisionKeepsTables(s, d, reply, recorded);
  }

  lemma StepKeepsTables(s: State, e: Event)
    requires TablesInv(s)
    ensures TablesInv(Exec(s, e))
  {
    if Aside(e) { AsideKeepsTables(s, e); }
    else if OfWorker(e) { WorkerKeepsTables(s, e); }
    else if e.Insert? { InsertKeepsTables(s, e.r, e.id); }
    else if e.Cancel? { CancelKeepsTables(s, e.order); }
    else if e.d in s.workers { if e.Crash? { MoveKeepsTables(s, e.d, Done); } }
    else if e.Deliver? { MoveKeepsTables(s, e.d, Received(e.order)); }
  }

  lemma {:induction false} RunKeepsTables(s: State, events: seq<Event>)
    requires TablesInv(s)
    ensures TablesInv(Run(s, events))
    decreases |events|
  {
    if events != [] {
      StepKeepsTables(s, events[0]);
      RunKeepsTables(Exec(s, events[0]), events[1..]);
    }
  }

  /**
   * Materialisation in every reachable state: at most one ONU per order; when there is one, the order and the pending ONU
   * of its serial both name it, for good; and a linked pending ONU has the serial of its ONU.
   */
  lemma MaterialisationSound(s: State, events: seq<Event>)
    requires TablesInv(s)
    ensures var t := Run(s, events);
            && (forall i, j | 0 <= i < j < |t.born| :: t.born[i].0 != t.born[j].0 && t.born[i].1 != t.born[j].1)
            && (forall i | 0 <= i < |t.born| :: BornLinked(t, t.born[i].0, t.born[i].1))
            && (forall k | k in t.pendings && t.pendings[k].linked.Some? ::
                  Named(t.onus, t.pendings[k].linked.value, k.serial) && t.pendings[k].state.Resolved?)
  {
    RunKeepsTables(s, events);
    var t := Run(s, events);
    assert forall k | k in t.pendings :: PendingLinked(t.onus, k, t.pendings[k]);
  }

  /** At no time do two active orders name the same ONU, although the service and the migration disagree on the index's name. */
  lemma OneActiveOrderPerOnu(s: State, events: seq<Event>)
    requires TablesInv(s)
    ensures var t := Run(s, events);
            && (forall o, p | o in t.orders && p in t.orders && t.orders[o].onu.Some? && t.orders[o].onu == t.orders[p].onu
                              && t.orders[o].status in {Pending, Validating, Running}
                              && t.orders[p].status in {Pending, Validating, Running} :: o == p)
            && LiveSerialsUnique(t.onus)
  {
    RunKeepsTables(s, events);
  }

  // ---------- Pending ONUs over time ----------

  /** It keeps a model once it has one; its state and link change only when it is resolved, and never afterwards. */
  predicate PendingGoesOn(a: PendingOnu, b: PendingOnu) {
    && (a.model.Some? ==> b.model.Some?)
    && (a.state.Resolved? || !b.state.Resolved? ==> b.state == a.state && b.linked == a.linked)
  }

  ghost predicate PendingsGoOn(a: map<PendingKey, PendingOnu>, b: map<PendingKey, PendingOnu>) {
    forall k | k in a :: k in b && PendingGoesOn(a[k], b[k])
  }

  lemma ResolveGoesOn(s: State, key: PendingKey, linked: Option<Id>)
    requires ActivePending(s, key)
    ensures PendingsGoOn(s.pendings, ResolvePending(s, key, linked).pendings)
  {
  }

  /** Materialisation leaves the pending ONUs alone, or resolves an active one. */
  lemma MaterializeResolves(s: State, o: Id, newOnu: Id)
    requires o in s.orders
    ensures var t := MaterializeOrder(s, o, newOnu);
            t.pendings == s.pendings || exists key, linked :: ActivePending(s, key) && t.pendings == ResolvePending(s, key, linked).pendings
  {
    var serial := SerialOf(s.orders[o]);
    if serial.Some? && ActivePending(s, PendingOf(s.orders[o], serial.value)) {
      var key := PendingOf(s.orders[o], serial.value);
      var linked := if s.orders[o].onu.Some? then s.orders[o].onu else if s.pendings[key].model.None? then s.pendings[key].linked else Some(newOnu);
      assert MaterializeOrder(s, o, newOnu).pendings in [s.pendings, ResolvePending(s, key, linked).pendings];
    }
  }

  lemma MaterializeGoesOn(s: State, d: Id, newOnu: Id, ok: bool)
    ensures PendingsGoOn(s.pendings, DoMaterialize(s, d, newOnu, ok).pendings)
  {
    if d in s.workers && s.workers[d].Materializing? && ok && s.workers[d].order in s.orders {
      MaterializeResolves(s, s.workers[d].order, newOnu);
      var t := MaterializeOrder(s, s.workers[d].order, newOnu);
      if t.pendings != s.pendings {
        var key, linked :| ActivePending(s, key) && t.pendings == ResolvePending(s, key, linked).pendings;
        ResolveGoesOn(s, key, linked);
      }
    }
  }

  lemma ValidateKeepsPendings(s: State, d: Id, readout: Readout)
    ensures DoValidate(s, d, readout).pendings == s.pendings
  {
    if d in s.workers && s.workers[d].Received? && Conclusive(s, s.workers[d].order, readout) {
      ConcludeKeepsPendings(s, d, s.workers[d].order, Examine(s.orders[s.workers[d].order], readout));
    }
  }

  lemma ConcludeKeepsPendings(s: State, d: Id, o: Id, verdict: Verdict)
    ensures Conclude(s, d, o, verdict).pendings == s.pendings
  {
  }

  lemma MarksKeepPendings(s: State, e: Event)
    requires e.MarkRunning? || e.MarkFinished? || e.MarkFailed?
    ensures ExecWorker(s, e).pendings == s.pendings
  {
  }

  lemma CallsKeepPendings(s: State, e: Event)
    requires e.Provision? || e.Persist? || e.PlanUndo? || e.Deprovision?
    ensures ExecWorker(s, e).pendings == s.pendings
  {
  }

  lemma DiscoverGoesOn(s: State, key: PendingKey, model: Option<Id>)
    ensures PendingsGoOn(s.pendings, DoDiscover(s, key, model).pendings)
  {
  }

  lemma StepGoesOn(s: State, e: Event)
    ensures PendingsGoOn(s.pendings, Exec(s, e).pendings)
  {
    if e.Materialize? { MaterializeGoesOn(s, e.d, e.newOnu, e.ok); }
    else if e.Discover? { DiscoverGoesOn(s, e.key, e.model); }
    else if e.Validate? { ValidateKeepsPendings(s, e.d, e.readout); }
    else if e.MarkRunning? || e.MarkFinished? || e.MarkFailed? { MarksKeepPendings(s, e); }
    else if e.Insert? { InsertTouches(s, e.r, e.id); }
    else if OfWorker(e) { CallsKeepPendings(s, e); }
    else { OthersKeepPendings(s, e); }
  }

  lemma OthersKeepPendings(s: State, e: Event)
    requires !OfWorker(e) && !e.Discover? && !e.Insert?
    ensures Exec(s, e).pendings == s.pendings
  {
  }

  /**
   * However discoveries and materialisations interleave: no pending ONU disappears or loses its model, discovery never
   * touches its state or its link, and a resolved one stays as it was resolved.
   */
  lemma {:induction false} RunKeepsPendings(s: State, events: seq<Event>)
    ensures PendingsGoOn(s.pendings, Run(s, events).pendings)
    decreases |events|
  {
    if events != [] {
      var m := Exec(s, events[0]);
      StepGoesOn(s, events[0]);
      RunKeepsPendings(m, events[1..]);
      forall k | k in s.pendings
        ensures k in Run(s, events).pendings && PendingGoesOn(s.pendings[k], Run(s, events).pendings[k])
      {
        assert PendingGoesOn(s.pendings[k], m.pendings[k]) && PendingGoesOn(m.pendings[k], Run(s, events).pendings[k]);
      }
    }
  }
}
