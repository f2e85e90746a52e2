/** What a TTL cache means: an answer is decided by the log of its writes alone. */
module TtlLog {
  import opened Prelude

  datatype Entry<V> = Entry(value: V, expiresAt: Time)

  // A miss is not the same thing as a cached "nothing applies".
  datatype Lookup<V> = Miss | Hit(value: V)

  datatype Write<!K, V> =
    | Put(values: map<K, V>, at: Time)
    | Drop(keys: iset<K>)
    | Clear

  /** The write decides what a later lookup of the key sees. */
  ghost predicate Touches<K, V>(w: Write<K, V>, key: K) {
    match w
    case Put(values, _) => key in values
    case Drop(keys) => key in keys
    case Clear => true
  }

  /** Answer of a cache that remembers every write and never evicts. */
  ghost function LookupIn<K, V>(log: seq<Write<K, V>>, ttl: Time, key: K, now: Time): Lookup<V> {
    if log == [] then Miss
    else
      var last := log[|log| - 1];
      if !Touches(last, key) then LookupIn(log[..|log| - 1], ttl, key, now)
      else if last.Put? && now < last.at + ttl then Hit(last.values[key])
      else Miss
  }

  /** The i-th write is the latest one that touches the key. */
  ghost predicate Latest<K, V>(log: seq<Write<K, V>>, key: K, i: nat) {
    && i < |log|
    && Touches(log[i], key)
    && forall j | i < j < |log| :: !Touches(log[j], key)
  }

  /** A hit carries v exactly when the latest write to the key put v less than ttl ago. */
  lemma {:induction false} HitMeaning<K, V>(log: seq<Write<K, V>>, ttl: Time, key: K, now: Time, v: V)
    ensures LookupIn(log, ttl, key, now) == Hit(v) <==>
            exists i: nat :: Latest(log, key, i) && log[i].Put? && log[i].values[key] == v && now < log[i].at + ttl
  {
    if log != [] {
      var n := |log| - 1;
      var front := log[..n];
      HitMeaning(front, ttl, key, now, v);
      if Touches(log[n], key) {
        assert Latest(log, key, n);
      } else {
        assert forall i: nat :: Latest(log, key, i) <==> Latest(front, key, i);
      }
    }
  }

  /** What the store itself answers at a given instant. */
  ghost function Answer<K, V>(store: map<K, Entry<V>>, key: K, now: Time): Lookup<V> {
    if key in store && now < store[key].expiresAt then Hit(store[key].value) else Miss
  }

  /** From the given instant on, the store answers every lookup as the log does. */
  ghost predicate Refines<K(!new), V>(store: map<K, Entry<V>>, log: seq<Write<K, V>>, ttl: Time, from: Time) {
    forall key: K, now: Time :: from <= now ==> Answer(store, key, now) == LookupIn(log, ttl, key, now)
  }

  /** Evicting a key whose entry has expired is invisible from then on. */
  lemma EvictionInvisible<K(!new), V>(store: map<K, Entry<V>>, log: seq<Write<K, V>>, ttl: Time, from: Time, key: K, now: Time)
    requires Refines(store, log, ttl, from)
    requires from <= now && key in store && store[key].expiresAt <= now
    ensures Refines(store - {key}, log, ttl, now)
  {
    forall k: K, t: Time | now <= t
      ensures Answer(store - {key}, k, t) == LookupIn(log, ttl, k, t)
    {
      assert Answer(store, k, t) == LookupIn(log, ttl, k, t);
    }
  }

  /** Appending a write changes the lookups of the keys it touches and no others. */
  lemma AppendWrite<K, V>(log: seq<Write<K, V>>, w: Write<K, V>, ttl: Time, key: K, now: Time)
    ensures LookupIn(log + [w], ttl, key, now) ==
            if !Touches(w, key) then LookupIn(log, ttl, key, now)
            else if w.Put? && now < w.at + ttl then Hit(w.values[key])
            else Miss
  {
    assert (log + [w])[..|log|] == log;
  }

  // ---------- Time ----------

  /** Instants in order, none before from or after to. */
  ghost predicate Rising(from: Time, ts: seq<Time>, to: Time) {
    if ts == [] then from <= to
    else
      var n := |ts| - 1;
      Rising(from, ts[..n], ts[n]) && ts[n] <= to
  }

  lemma {:induction false} RisingMeaning(from: Time, ts: seq<Time>, to: Time)
    requires Rising(from, ts, to)
    ensures from <= to
    ensures forall i | 0 <= i < |ts| :: from <= ts[i] <= to
    ensures forall i, j | 0 <= i <= j < |ts| :: ts[i] <= ts[j]
  {
    if ts != [] {
      RisingMeaning(from, ts[..|ts| - 1], ts[|ts| - 1]);
    }
  }

  lemma {:induction false} RisingAppend(from: Time, a: seq<Time>, mid: Time, b: seq<Time>, to: Time)
    requires Rising(from, a, mid) && Rising(mid, b, to)
    ensures Rising(from, a + b, to)
  {
    if b == [] {
      assert a + b == a;
      RisingLater(from, a, mid, to);
    } else {
      var n := |b| - 1;
      RisingAppend(from, a, mid, b[..n], b[n]);
      assert (a + b)[..|a| + n] == a + b[..n];
    }
  }

  lemma RisingLater(from: Time, ts: seq<Time>, mid: Time, to: Time)
    requires Rising(from, ts, mid) && mid <= to
    ensures Rising(from, ts, to)
  {
  }

  /** time.monotonic(): each reading is no earlier than the one before. The trace is the list of all readings. */
  class Clock {
    var now: Time
    ghost var trace: seq<Time>

    constructor ()
      ensures now == 0.0 && trace == []
    {
      now := 0.0;
      trace := [];
    }

    method Read() returns (t: Time)
      modifies this
      ensures t == now && old(now) <= now && trace == old(trace) + [t]
    {
      var elapsed: Time :| elapsed >= 0.0;
      now := now + elapsed;
      t := now;
      trace := trace + [t];
    }
  }
}
