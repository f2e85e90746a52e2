/** The TTL cache of resolved thresholds. Every method is one critical section of the program's lock. */
module ThresholdCaching {
  import opened Prelude
  import opened TtlLog
  import opened Thresholds

  type ThresholdKey = (Id, string)

  ghost function BulkWrite(onu: Id, thresholds: ThresholdMap, at: Time)
    : Write<ThresholdKey, Option<Effective>>
  {
    Put(map m | m in thresholds :: (onu, m) := thresholds[m], at)
  }

  ghost function KeysOf(onu: Id): iset<ThresholdKey> {
    iset k: ThresholdKey | k.0 == onu
  }

  /** threshold_cache.py, lines 66-113. */
  class ThresholdCache {
    const ttl: Time
    var store: map<ThresholdKey, Entry<Option<Effective>>>
    ghost var log: seq<Write<ThresholdKey, Option<Effective>>>
    ghost var seen: Time

    ghost predicate Valid()
      reads this
    {
      ttl > 0.0 && Refines(store, log, ttl, seen)
    }

    constructor (ttl: Time)
      requires ttl > 0.0
      ensures Valid() && this.ttl == ttl && log == [] && seen == 0.0
    {
      this.ttl := ttl;
      store := map[];
      log := [];
      seen := 0.0;
    }

    /** The program's constructor raises ValueError for a TTL that is not positive. */
    static method Create(ttl: Time) returns (cache: ThresholdCache?)
      ensures cache == null <==> ttl <= 0.0
      ensures cache != null ==> fresh(cache) && cache.Valid() && cache.ttl == ttl && cache.log == [] && cache.seen == 0.0
    {
      if ttl <= 0.0 {
        return null;
      }
      cache := new ThresholdCache(ttl);
    }

    method Get(onu: Id, metric: string, now: Time) returns (r: Lookup<Option<Effective>>)
      requires Valid() && seen <= now
      modifies this
      ensures Valid() && log == old(log) && seen == now
      ensures r == LookupIn(log, ttl, (onu, metric), now)
    {
      var key := (onu, metric);
      assert Answer(store, key, now) == LookupIn(log, ttl, key, now);
      seen := now;
      if key !in store {
        return Miss;
      }
      if store[key].expiresAt <= now {
        EvictionInvisible(store, log, ttl, old(seen), key, now);
        store := store - {key};
        return Miss;
      }
      r := Hit(store[key].value);
    }

    method PutBulk(onu: Id, thresholds: ThresholdMap, now: Time)
      requires Valid() && seen <= now
      modifies this
      ensures Valid() && seen == now
      ensures log == old(log) + [BulkWrite(onu, thresholds, now)]
    {
      var expiresAt := now + ttl;
      var todo := thresholds.Keys;
      while todo != {}
        invariant todo <= thresholds.Keys
        invariant log == old(log)
        invariant forall k: ThresholdKey ::
          if k.0 == onu && k.1 in thresholds && k.1 !in todo
          then k in store && store[k] == Entry(thresholds[k.1], expiresAt)
          else (k in store <==> k in old(store)) && (k in store ==> store[k] == old(store[k]))
      {
        var metric :| metric in todo;
        store := store[(onu, metric) := Entry(thresholds[metric], expiresAt)];
        todo := todo - {metric};
      }
      ghost var w := BulkWrite(onu, thresholds, now);
      forall k: ThresholdKey, t: Time | now <= t
        ensures Answer(store, k, t) == LookupIn(old(log) + [w], ttl, k, t)
      {
        AppendWrite(old(log), w, ttl, k, t);
        assert Answer(old(store), k, t) == LookupIn(old(log), ttl, k, t);
      }
      log := log + [w];
      seen := now;
    }

    method InvalidateOnu(onu: Id)
      requires Valid()
      modifies this
      ensures Valid() && seen == old(seen)
      ensures log == old(log) + [Drop(KeysOf(onu))]
    {
      var todo := store.Keys;
      while todo != {}
        invariant todo <= old(store).Keys
        invariant log == old(log) && seen == old(seen)
        invariant forall k: ThresholdKey ::
          if k.0 == onu && k !in todo then k !in store
          else (k in store <==> k in old(store)) && (k in store ==> store[k] == old(store[k]))
      {
        var key :| key in todo;
        if key.0 == onu {
          store := store - {key};
        }
        todo := todo - {key};
      }
      ghost var w := Drop(KeysOf(onu));
      forall k: ThresholdKey, t: Time | seen <= t
        ensures Answer(store, k, t) == LookupIn(old(log) + [w], ttl, k, t)
      {
        AppendWrite(old(log), w, ttl, k, t);
        assert Answer(old(store), k, t) == LookupIn(old(log), ttl, k, t);
      }
      log := log + [w];
    }

    method Clear()
      requires Valid()
      modifies this
      ensures Valid() && seen == old(seen) && log == old(log) + [Write.Clear]
    {
      store := map[];
      log := log + [Write.Clear];
    }
  }

  // ---------- No torn snapshot ----------

  /** One policy listing, read for an ONU at some reading of the batch, and cached whole. */
  datatype Load = Load(onu: Id, policies: seq<Policy>, at: Time, reading: nat)

  type ThresholdLog = seq<Write<ThresholdKey, Option<Effective>>>

  /** The log consists of the given loads and nothing else. */
  ghost predicate Loaded(log: ThresholdLog, loads: seq<Load>) {
    && |log| == |loads|
    && forall i | 0 <= i < |log| :: log[i] == BulkWrite(loads[i].onu, Resolve(loads[i].policies), loads[i].at)
  }

  /** The dictionary is the whole resolution of one load of this ONU, made less than ttl before now. */
  ghost predicate FromOneLoad(loads: seq<Load>, ttl: Time, onu: Id, now: Time, d: ThresholdMap) {
    exists i :: 0 <= i < |loads| && loads[i].onu == onu && now < loads[i].at + ttl && d == Resolve(loads[i].policies)
  }

  lemma BulkWriteTouches(load: Load, onu: Id, metric: string)
    requires metric in SUPPORTED_METRICS
    ensures Touches(BulkWrite(load.onu, Resolve(load.policies), load.at), (onu, metric)) <==> load.onu == onu
  {
    var values := BulkWrite(load.onu, Resolve(load.policies), load.at).values;
    assert load.onu == onu ==> (onu, metric) in values;
  }

  /** A hit reads the latest load of the ONU, whichever metric is asked for. */
  lemma HitReadsLatestLoad(log: ThresholdLog, loads: seq<Load>, ttl: Time, onu: Id, metric: string, now: Time, v: Option<Effective>)
    returns (i: nat)
    requires Loaded(log, loads) && metric in SUPPORTED_METRICS
    requires LookupIn(log, ttl, (onu, metric), now) == Hit(v)
    ensures i < |loads| && loads[i].onu == onu && forall j | i < j < |loads| :: loads[j].onu != onu
    ensures now < loads[i].at + ttl && v == Resolve(loads[i].policies)[metric]
  {
    HitMeaning(log, ttl, (onu, metric), now, v);
    i :| Latest(log, (onu, metric), i) && log[i].Put? && log[i].values[(onu, metric)] == v && now < log[i].at + ttl;
    forall j | i <= j < |loads|
      ensures Touches(log[j], (onu, metric)) <==> loads[j].onu == onu
    {
      BulkWriteTouches(loads[j], onu, metric);
    }
  }

  /** If every supported metric was hit, at possibly different instants and one of them now, the answers are one snapshot. */
  lemma HitsFormOneSnapshot(log: ThresholdLog, loads: seq<Load>, ttl: Time, onu: Id,
                            times: map<string, Time>, d: ThresholdMap, last: string)
    requires Loaded(log, loads)
    requires d.Keys == times.Keys == SUPPORTED_METRICS
    requires forall m | m in d :: LookupIn(log, ttl, (onu, m), times[m]) == Hit(d[m])
    requires last in d
    ensures FromOneLoad(loads, ttl, onu, times[last], d)
  {
    var i := HitReadsLatestLoad(log, loads, ttl, onu, last, times[last], d[last]);
    forall m | m in d
      ensures d[m] == Resolve(loads[i].policies)[m]
    {
      var k := HitReadsLatestLoad(log, loads, ttl, onu, m, times[m], d[m]);
      assert k == i;
    }
    SameDictionary(d, loads[i].policies);
  }

  lemma SameDictionary(d: ThresholdMap, policies: seq<Policy>)
    requires d.Keys == SUPPORTED_METRICS
    requires forall m | m in d :: d[m] == Resolve(policies)[m]
    ensures d == Resolve(policies)
  {
    assert Resolve(policies).Keys == SUPPORTED_METRICS;
  }
}
