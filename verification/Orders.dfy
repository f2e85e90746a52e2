/** Provisioning order rows and the transactions on them (provisioning_order_service.py, markers of provisioning_worker.py). */
module Orders {
  import opened Prelude

  datatype Status = Pending | Validating | Running | Success | Failed | RolledBack | Partial | Canceled

  predicate Active(s: Status) {
    s.Pending? || s.Validating? || s.Running?
  }

  datatype Order = Order(
    key: string, hash: Option<string>, status: Status, olt: Id, pon: Id, snapshot: map<string, string>,
    onu: Option<Id>, retryOf: Option<Id>, created: nat)

  type Rows = map<Id, Order>

  /** snap.get("serial"); an empty serial counts as absent. */
  function SerialOf(order: Order): Option<string> {
    if "serial" in order.snapshot && order.snapshot["serial"] != "" then Some(order.snapshot["serial"]) else None
  }

  // ---------- Unique indexes ----------

  /** uq_provisioning_idempotency. */
  ghost predicate OneOrderPerKey(rows: Rows) {
    forall o, p | o in rows && p in rows && rows[o].key == rows[p].key :: o == p
  }

  /** uq_provisioning_order_active. */
  ghost predicate OneActivePerOnu(rows: Rows) {
    forall o, p | o in rows && p in rows && rows[o].onu.Some? && rows[o].onu == rows[p].onu
                  && Active(rows[o].status) && Active(rows[p].status) :: o == p
  }

  predicate HasActive(rows: Rows, onu: Id) {
    exists o :: o in rows && rows[o].onu == Some(onu) && Active(rows[o].status)
  }

  /** An order names the ONU and has not come to an end. */
  ghost predicate Busy(rows: Rows, onu: Id) {
    exists o :: o in rows && rows[o].onu == Some(onu) && rows[o].status in {Pending, Validating, Running}
  }

  lemma BusyIff(rows: Rows)
    ensures forall onu: Id :: HasActive(rows, onu) <==> Busy(rows, onu)
  {
    forall onu: Id
      ensures HasActive(rows, onu) <==> Busy(rows, onu)
    {
      if o :| o in rows && rows[o].onu == Some(onu) && Active(rows[o].status) {
        assert rows[o].status in {Pending, Validating, Running};
      }
      if o :| o in rows && rows[o].onu == Some(onu) && rows[o].status in {Pending, Validating, Running} {
        assert Active(rows[o].status);
      }
    }
  }

  /** Setting the order to an active status would violate the index. */
  predicate Clashes(rows: Rows, o: Id) {
    && o in rows && rows[o].onu.Some?
    && exists p :: p in rows && p != o && rows[p].onu == rows[o].onu && Active(rows[p].status)
  }

  /** Another order that has not come to an end names the same ONU. */
  ghost predicate Contended(rows: Rows, o: Id) {
    && o in rows && rows[o].onu.Some?
    && exists p :: p in rows && p != o && rows[p].onu == rows[o].onu && rows[p].status in {Pending, Validating, Running}
  }

  lemma ContendedIff(rows: Rows, o: Id)
    ensures Clashes(rows, o) <==> Contended(rows, o)
  {
    if p :| p in rows && p != o && o in rows && rows[p].onu == rows[o].onu && Active(rows[p].status) {
      assert rows[p].status in {Pending, Validating, Running};
    }
    if p :| p in rows && p != o && o in rows && rows[p].onu == rows[o].onu && rows[p].status in {Pending, Validating, Running} {
      assert Active(rows[p].status);
    }
  }

  // ---------- What no transaction changes ----------

  /** A later version of a row: never PENDING again, and only the status and a missing ONU may change. */
  predicate Continues(x: Order, y: Order) {
    && y == x.(status := y.status, onu := y.onu)
    && (y.status.Pending? ==> x.status.Pending?)
    && (x.onu.Some? ==> y.onu == x.onu)
  }

  /** No row disappears. */
  ghost predicate Evolves(a: Rows, b: Rows) {
    forall o | o in a :: o in b && Continues(a[o], b[o])
  }

  /** At most the row of o moves on. */
  ghost predicate RowStep(a: Rows, b: Rows, o: Id) {
    b == a || (o in a && o in b && b == a[o := b[o]] && Continues(a[o], b[o]))
  }

  // ---------- Transactions ----------

  /** UPDATE ... SET status; a missing row is not an error. */
  function WithStatus(rows: Rows, o: Id, status: Status): (r: Rows)
    ensures !status.Pending? ==> RowStep(rows, r, o)
  {
    if o in rows then rows[o := rows[o].(status := status)] else rows
  }

  datatype CancelReply = Canceled | NotFound | NotCancelable(status: Status)

  function CancelReplyFor(rows: Rows, o: Id): CancelReply {
    if o !in rows then NotFound
    else if !rows[o].status.Pending? then NotCancelable(rows[o].status)
    else CancelReply.Canceled
  }

  ghost predicate HasKey(rows: Rows, key: string) {
    exists o :: o in rows && rows[o].key == key
  }

  ghost function OwnerOf(rows: Rows, key: string): (o: Id)
    requires HasKey(rows, key)
    ensures o in rows && rows[o].key == key
  {
    var o :| o in rows && rows[o].key == key;
    o
  }

  datatype Creation =
    | Created
    | Reused(order: Id)
    | Mismatch
    | ActiveConflict       // the index on the ONU rejects the row

  /** A stored row without hash predates the hash column and matches every payload. */
  predicate HashMatches(stored: Option<string>, incoming: string) {
    stored.None? || stored.value == incoming
  }

  ghost function Hit(rows: Rows, key: string, hash: string): Creation
    requires HasKey(rows, key)
  {
    var o := OwnerOf(rows, key);
    if HashMatches(rows[o].hash, hash) then Reused(o) else Mismatch
  }

  /** The answer to an insert; the key index is the older one and is checked first. */
  ghost function CreationFor(rows: Rows, key: string, hash: string, onu: Option<Id>): Creation {
    if HasKey(rows, key) then Hit(rows, key, hash)
    else if onu.Some? && HasActive(rows, onu.value) then ActiveConflict
    else Created
  }

  /** With unique keys, a hit is the one order that has the key. */
  lemma HitMeaning(rows: Rows, key: string, hash: string, o: Id)
    requires OneOrderPerKey(rows) && o in rows && rows[o].key == key
    ensures Hit(rows, key, hash) == if rows[o].hash == None || rows[o].hash == Some(hash) then Reused(o) else Mismatch
  {
    assert HasKey(rows, key);
  }

  // ---------- Names of the unique indexes ----------

  // As the database knows them.
  const INDEX_KEY := "uq_provisioning_idempotency"
  const INDEX_ACTIVE := "uq_provisioning_order_active"

  // As the service looks for them.
  const UQ_IDEMPOTENCY := "uq_provisioning_idempotency"
  const UQ_PROV_ACTIVE := "uq_prov_order_active_unique"

  predicate OccursAt(text: string, part: string, i: nat) {
    i + |part| <= |text| && text[i..i + |part|] == part
  }

  predicate Contains(text: string, part: string) {
    exists i | 0 <= i <= |text| :: OccursAt(text, part, i)
  }

  /** _violated_constraint, applied to the index that the error names. */
  function ViolatedConstraint(index: string): Option<string> {
    if Contains(index, UQ_IDEMPOTENCY) then Some(UQ_IDEMPOTENCY)
    else if Contains(index, UQ_PROV_ACTIVE) then Some(UQ_PROV_ACTIVE)
    else None
  }

  /** The service recognises a violation of the key index, and of the index on the ONU only under another name. */
  lemma IndexNames()
    ensures ViolatedConstraint(UQ_PROV_ACTIVE) == Some(UQ_PROV_ACTIVE)
    ensures ViolatedConstraint(INDEX_KEY) == Some(UQ_IDEMPOTENCY)
    ensures ViolatedConstraint(INDEX_ACTIVE) == None
  {
    assert OccursAt(INDEX_KEY, UQ_IDEMPOTENCY, 0);
    OwnNameIsRecognised();
    ActiveIndexIsNot();
  }

  lemma OwnNameIsRecognised()
    ensures ViolatedConstraint(UQ_PROV_ACTIVE) == Some(UQ_PROV_ACTIVE)
  {
    assert OccursAt(UQ_PROV_ACTIVE, UQ_PROV_ACTIVE, 0);
    assert UQ_PROV_ACTIVE[3] == 'p' && UQ_PROV_ACTIVE[7] == '_' && UQ_IDEMPOTENCY[7] == 'i';
    forall i | 0 <= i <= |UQ_PROV_ACTIVE|
      ensures !OccursAt(UQ_PROV_ACTIVE, UQ_IDEMPOTENCY, i)
    {
      if i == 0 {
        assert UQ_PROV_ACTIVE[0..27][7] == UQ_PROV_ACTIVE[7];
      }
    }
  }

  lemma ActiveIndexIsNot()
    ensures ViolatedConstraint(INDEX_ACTIVE) == None
  {
    forall i | 0 <= i <= |INDEX_ACTIVE|
      ensures !OccursAt(INDEX_ACTIVE, UQ_IDEMPOTENCY, i) && !OccursAt(INDEX_ACTIVE, UQ_PROV_ACTIVE, i)
    {
      // Both names have one letter less than the index: they differ at the start, or in these letters.
      assert |INDEX_ACTIVE| == 28 && |UQ_IDEMPOTENCY| == |UQ_PROV_ACTIVE| == 27;
      assert INDEX_ACTIVE[1] == 'q' && INDEX_ACTIVE[16] == 'o' && INDEX_ACTIVE[7] == 'i';
      if i <= 1 {
        assert INDEX_ACTIVE[i..i + 27][0] == INDEX_ACTIVE[i];
        assert INDEX_ACTIVE[i..i + 27][16] == INDEX_ACTIVE[i + 16] && INDEX_ACTIVE[i..i + 27][7] == INDEX_ACTIVE[i + 7];
      }
    }
  }

  // ---------- The retry chain ----------

  /** Every retry names an order created strictly earlier. */
  ghost predicate LinksDown(rows: Rows) {
    forall o | o in rows && rows[o].retryOf.Some? ::
      rows[o].retryOf.value in rows && rows[rows[o].retryOf.value].created < rows[o].created
  }

  /** The order, the one it retries, and so on. */
  ghost function Chain(rows: Rows, o: Id): seq<Id>
    requires LinksDown(rows) && o in rows
    decreases rows[o].created
  {
    [o] + (if rows[o].retryOf.None? then [] else Chain(rows, rows[o].retryOf.value))
  }

  /** A path along the links that visits strictly earlier orders and ends in one that retries nothing. */
  ghost predicate Descends(rows: Rows, chain: seq<Id>) {
    && chain != [] && (forall i | 0 <= i < |chain| :: chain[i] in rows)
    && (forall i | 0 <= i < |chain| - 1 ::
          && rows[chain[i]].retryOf == Some(chain[i + 1])
          && rows[chain[i + 1]].created < rows[chain[i]].created)
    && rows[chain[|chain| - 1]].retryOf.None?
  }

  /** The chain is finite and descends. */
  lemma {:induction false} ChainMeaning(rows: Rows, o: Id)
    requires LinksDown(rows) && o in rows
    ensures var chain := Chain(rows, o);
            Descends(rows, chain) && chain[0] == o && |chain| <= rows[o].created + 1
    decreases rows[o].created
  {
    if rows[o].retryOf.Some? {
      var p := rows[o].retryOf.value;
      ChainMeaning(rows, p);
      assert Chain(rows, o) == [o] + Chain(rows, p);
      assert Chain(rows, o)[1..] == Chain(rows, p);
    }
  }

  // ---------- The table ----------

  class OrderTable {
    var rows: Rows

    ghost predicate Valid()
      reads this
    {
      OneOrderPerKey(rows) && OneActivePerOnu(rows)
    }

    constructor ()
      ensures Valid() && rows == map[]
    {
      rows := map[];
    }

    /** The insert of create_order, with the idempotent answer when the key is already taken. */
    method Insert(id: Id, order: Order, hash: string) returns (reply: Creation)
      requires Valid() && id !in rows && order.hash == Some(hash) && order.status.Pending?
      modifies this
      ensures Valid()
      ensures reply == CreationFor(old(rows), order.key, hash, order.onu)
      ensures match reply
              case Created => (forall o | o in old(rows) :: old(rows)[o].key != order.key) && (order.onu.Some? ==> !Busy(old(rows), order.onu.value))
              case Reused(o) =>
                o in old(rows) && old(rows)[o].key == order.key && (old(rows)[o].hash == None || old(rows)[o].hash == Some(hash))
              case Mismatch =>
                exists o :: o in old(rows) && old(rows)[o].key == order.key && old(rows)[o].hash.Some? && old(rows)[o].hash.value != hash
              case ActiveConflict => (forall o | o in old(rows) :: old(rows)[o].key != order.key) && order.onu.Some? && Busy(old(rows), order.onu.value)
      ensures rows == if reply.Created? then old(rows)[id := order] else old(rows)
    {
      BusyIff(rows);
      if o :| o in rows && rows[o].key == order.key {
        HitMeaning(rows, order.key, hash, o);
        reply := if HashMatches(rows[o].hash, hash) then Reused(o) else Mismatch;
        return;
      }
      if order.onu.Some? && HasActive(rows, order.onu.value) {
        return ActiveConflict;
      }
      rows := rows[id := order];
      reply := Created;
    }

    /** cancel_order, under SELECT ... FOR UPDATE. */
    method Cancel(o: Id) returns (reply: CancelReply)
      requires Valid()
      modifies this
      ensures Valid()
      ensures reply == CancelReplyFor(old(rows), o)
      ensures match reply
              case Canceled => o in old(rows) && old(rows)[o].status == Pending
              case NotFound => o !in old(rows)
              case NotCancelable(status) => o in old(rows) && old(rows)[o].status == status && status != Pending
      ensures rows == if reply.Canceled? then WithStatus(old(rows), o, Status.Canceled) else old(rows)
    {
      if o !in rows {
        return NotFound;
      }
      if rows[o].status != Pending {
        return NotCancelable(rows[o].status);
      }
      rows := rows[o := rows[o].(status := Status.Canceled)];
      reply := CancelReply.Canceled;
    }

    /** _lock_pending_order and the closing update of phase 1; verdict says whether validation passed. */
    method Claim(o: Id, verdict: bool) returns (claimed: bool)
      requires Valid()
      modifies this
      ensures Valid()
      ensures claimed <==> o in old(rows) && old(rows)[o].status.Pending?
      ensures rows == if claimed then WithStatus(old(rows), o, if verdict then Validating else Failed) else old(rows)
    {
      if o !in rows || rows[o].status != Pending {
        return false;
      }
      rows := rows[o := rows[o].(status := if verdict then Validating else Failed)];
      claimed := true;
    }

    /** _mark_running: unconditional, so only the index can stop it. */
    method MarkRunning(o: Id) returns (ok: bool)
      requires Valid()
      modifies this
      ensures Valid()
      ensures ok <==> !Contended(old(rows), o)
      ensures rows == if ok then WithStatus(old(rows), o, Running) else old(rows)
    {
      ContendedIff(rows, o);
      if Clashes(rows, o) {
        return false;
      }
      rows := WithStatus(rows, o, Running);
      ok := true;
    }

    /** _mark_failed and _mark_finished: unconditional as well. */
    method Finish(o: Id, status: Status)
      requires Valid() && !Active(status)
      modifies this
      ensures Valid()
      ensures rows == WithStatus(old(rows), o, status)
    {
      rows := WithStatus(rows, o, status);
    }
  }
}
