/** The TTL cache of resolved commands (command_cache.py). */
module CommandCaching {
  import opened Prelude
  import opened TtlLog

  /** A format string cut at its fields; Malformed stands for whatever str.format_map rejects other than a missing name. */
  datatype Piece = Text(text: string) | Field(name: string) | Malformed

  datatype Resolved = Resolved(
    id: Id, template: seq<Piece>, outputParser: Option<string>, timeoutMs: int, requiresPrivileged: bool)

  datatype CommandKey = CommandKey(
    manufacturer: Id, model: Option<Id>, key: string, version: Option<string>)

  /** command_cache.py, lines 50-98. */
  class CommandCache {
    const ttl: Time
    var store: map<CommandKey, Entry<Option<Resolved>>>
    ghost var log: seq<Write<CommandKey, Option<Resolved>>>
    ghost var seen: Time

    ghost predicate Valid()
      reads this
    {
      ttl > 0.0 && Refines(store, log, ttl, seen)
    }

    constructor (ttl: Time)
      requires ttl > 0.0
      ensures Valid() && this.ttl == ttl && log == [] && seen == 0.0
    {
      this.ttl := ttl;
      store := map[];
      log := [];
      seen := 0.0;
    }

    method Get(key: CommandKey, now: Time) returns (r: Lookup<Option<Resolved>>)
      requires Valid() && seen <= now
      modifies this
      ensures Valid() && log == old(log) && seen == now
      ensures r == LookupIn(log, ttl, key, now)
    {
      assert Answer(store, key, now) == LookupIn(log, ttl, key, now);
      seen := now;
      if key !in store {
        return Miss;
      }
      if store[key].expiresAt <= now {
        EvictionInvisible(store, log, ttl, old(seen), key, now);
        store := store - {key};
        return Miss;
      }
      r := Hit(store[key].value);
    }

    method Put(key: CommandKey, value: Option<Resolved>, now: Time)
      requires Valid() && seen <= now
      modifies this
      ensures Valid() && seen == now && log == old(log) + [Write.Put(map[key := value], now)]
    {
      ghost var w := Write.Put(map[key := value], now);
      store := store[key := Entry(value, now + ttl)];
      forall k: CommandKey, t: Time | now <= t
        ensures Answer(store, k, t) == LookupIn(old(log) + [w], ttl, k, t)
      {
        AppendWrite(old(log), w, ttl, k, t);
        assert Answer(old(store), k, t) == LookupIn(old(log), ttl, k, t);
      }
      log := log + [w];
      seen := now;
    }
  }
}
