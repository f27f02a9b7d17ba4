/**
 * The in-memory response cache: a map from key to an entry carrying the
 * data, the time it was stored and its time to live, both in milliseconds.
 * A lookup of an expired entry deletes it. The clock is the parameter `now`.
 */
module ResponseCache {
  import opened Optional

  /** Default time to live of an entry, in milliseconds. */
  const DefaultTtl: int := 5000

  datatype CacheEntry<T> = CacheEntry(data: T, timestamp: int, ttl: int)

  /** An entry is stale once more than its time to live has passed since it was stored. */
  predicate Expired<T>(e: CacheEntry<T>, now: int) {
    now - e.timestamp > e.ttl
  }

  /**
   * A lookup at time `now`: the data of a live entry, and the map with the
   * key deleted when its entry is stale.
   */
  function GetStep<T>(entries: map<string, CacheEntry<T>>, key: string, now: int): (r: (Option<T>, map<string, CacheEntry<T>>))
    ensures r.0.Some? <==> key in entries && !Expired(entries[key], now)
    ensures r.0.Some? ==> r.0.value == entries[key].data
    ensures key !in entries ==> r.1 == entries
    ensures r.1.Keys == if r.0.None? then entries.Keys - {key} else entries.Keys
    ensures forall k :: k in r.1 ==> k in entries && r.1[k] == entries[k]
  {
    if key !in entries then (None, entries)
    else if Expired(entries[key], now) then (None, entries - {key})
    else (Some(entries[key].data), entries)
  }

  /** A store at time `now`: the key maps to a fresh entry, replacing any earlier one. */
  function SetStep<T>(entries: map<string, CacheEntry<T>>, key: string, data: T, ttl: int, now: int): (r: map<string, CacheEntry<T>>)
    ensures r.Keys == entries.Keys + {key}
    ensures key in r && r[key].data == data && r[key].timestamp == now && r[key].ttl == ttl
    ensures forall k :: k in entries && k != key ==> r[k] == entries[k]
  {
    entries[key := CacheEntry(data, now, ttl)]
  }

  class SimpleCache<T> {
    var entries: map<string, CacheEntry<T>>

    constructor ()
      ensures entries == map[]
    {
      entries := map[];
    }

    method Get(key: string, now: int) returns (r: Option<T>)
      modifies this
      ensures (r, entries) == GetStep(old(entries), key, now)
    {
      if key !in entries {
        return None;
      }
      var entry := entries[key];
      if now - entry.timestamp > entry.ttl {
        entries := entries - {key};
        return None;
      }
      return Some(entry.data);
    }

    method Set(key: string, data: T, now: int, ttl: int := DefaultTtl)
      modifies this
      ensures entries == SetStep(old(entries), key, data, ttl, now)
    {
      entries := entries[key := CacheEntry(data, now, ttl)];
    }

    method Clear()
      modifies this
      ensures entries == map[]
    {
      entries := map[];
    }
  }

  /**
   * A lookup right after a store returns the stored data for as long as the
   * time to live has not passed, and nothing afterwards.
   */
  lemma GetAfterSet<T>(entries: map<string, CacheEntry<T>>, key: string, data: T, ttl: int, setAt: int, now: int)
    ensures var r := GetStep(SetStep(entries, key, data, ttl, setAt), key, now);
            (r.0 == Some(data) <==> now - setAt <= ttl) && (r.0.None? <==> now - setAt > ttl)
  {
  }

  /** Neither a lookup nor a store of one key changes what another key holds. */
  lemma OtherKeysUnaffected<T>(entries: map<string, CacheEntry<T>>, key: string, other: string, data: T, ttl: int, now: int, later: int)
    requires other != key
    ensures GetStep(GetStep(entries, key, now).1, other, later).0 == GetStep(entries, other, later).0
    ensures GetStep(SetStep(entries, key, data, ttl, now), other, later).0 == GetStep(entries, other, later).0
  {
  }

  /** After a clear every lookup misses and leaves the map empty. */
  lemma GetAfterClear<T>(cleared: map<string, CacheEntry<T>>, key: string, now: int)
    requires cleared == map[]
    ensures GetStep(cleared, key, now) == (None, cleared)
  {
  }

  /** A miss on an expired entry deletes exactly that key; a second lookup at the same time also misses. */
  lemma ExpiredEntryEvicted<T>(entries: map<string, CacheEntry<T>>, key: string, now: int)
    requires key in entries && Expired(entries[key], now)
    ensures GetStep(entries, key, now) == (None, entries - {key})
    ensures GetStep(GetStep(entries, key, now).1, key, now) == (None, entries - {key})
  {
  }
}
