/**
 * The local response cache (src/services/cache.ts): a persistent key-value
 * store of `{data, timestamp}` entries that are served for ten minutes and
 * evicted lazily by the read that finds them expired.
 *
 * The clock (`Date.now()`) is a parameter `now`. Every call into the
 * underlying persistent store may fail; whether it does is a parameter
 * (`readOk`, `writeOk`, `removeOk`, `clearOk`), and a failed call leaves the
 * store as it was. The store holds decoded entries; a stored string that does
 * not decode is the `Corrupt` entry.
 */
module Cache {
  import opened Wrappers

  /** Ten minutes, in milliseconds. */
  const CacheDuration: int := 10 * 60 * 1000

  /** What the store holds under a key: a decodable item, or text that does not decode. */
  datatype Entry<T> = Item(data: T, timestamp: int) | Corrupt

  type Store<T> = map<string, Entry<T>>

  /** An entry stamped at `timestamp` is stale at `now` once strictly more than ten minutes have passed. */
  predicate IsExpired(timestamp: int, now: int)
    ensures IsExpired(timestamp, now) <==> now > timestamp + 600000
  {
    now - timestamp > CacheDuration
  }

  // ---------------------------------------------------------------------
  // The store after each operation, and what `get` answers

  /** What `get(key)` returns at `now`. */
  function Lookup<T>(m: Store<T>, key: string, now: int, readOk: bool): Option<T> {
    if !readOk || key !in m then None
    else match m[key]
      case Corrupt => None
      case Item(data, timestamp) => if IsExpired(timestamp, now) then None else Some(data)
  }

  /** The store after `get(key)` at `now`: an expired item is removed, nothing else changes. */
  function AfterLookup<T>(m: Store<T>, key: string, now: int, readOk: bool, removeOk: bool): Store<T> {
    if readOk && key in m && m[key].Item? && IsExpired(m[key].timestamp, now)
    then Removed(m, key, removeOk)
    else m
  }

  /** The store after `set(key, data)` at `now`. */
  function Stored<T>(m: Store<T>, key: string, data: T, now: int, writeOk: bool): Store<T> {
    if writeOk then m[key := Item(data, now)] else m
  }

  /** The store after `remove(key)`. */
  function Removed<T>(m: Store<T>, key: string, removeOk: bool): Store<T> {
    if removeOk then m - {key} else m
  }

  /** The store after `clear()`. */
  function Cleared<T>(m: Store<T>, clearOk: bool): Store<T> {
    if clearOk then map[] else m
  }

  // ---------------------------------------------------------------------
  // The cache service

  class CacheStore<T> {
    /** The persistent key-value store, decoded. */
    var entries: Store<T>

    /** The store as earlier runs left it. */
    constructor (persisted: Store<T>)
      ensures entries == persisted
    {
      entries := persisted;
    }

    /** `set`: stamps the entry with the current time; a failed write is swallowed. */
    method Set(key: string, data: T, now: int, writeOk: bool)
      modifies this
      ensures entries == Stored(old(entries), key, data, now, writeOk)
      ensures writeOk ==> entries[key] == Item(data, now)
      ensures forall k :: k != key ==> (k in entries <==> k in old(entries))
      ensures forall k :: k != key && k in entries ==> entries[k] == old(entries)[k]
    {
      if writeOk {
        entries := entries[key := Item(data, now)];
      }
    }

    /**
     * `get`: the payload of a fresh item; a miss for a missing key, a corrupt
     * entry or a failed read; a miss for an expired item, which it also removes.
     */
    method Get(key: string, now: int, readOk: bool, removeOk: bool) returns (r: Option<T>)
      modifies this
      ensures r == Lookup(old(entries), key, now, readOk)
      ensures entries == AfterLookup(old(entries), key, now, readOk, removeOk)
      ensures r.Some? ==> entries == old(entries)
    {
      if !readOk || key !in entries {
        return None;
      }
      match entries[key]
      case Corrupt =>
        r := None;
      case Item(data, timestamp) =>
        if IsExpired(timestamp, now) {
          Remove(key, removeOk);
          r := None;
        } else {
          r := Some(data);
        }
    }

    /** `remove`: deletes the entry if there is one; a failed removal is swallowed. */
    method Remove(key: string, removeOk: bool)
      modifies this
      ensures entries == Removed(old(entries), key, removeOk)
      ensures removeOk ==> key !in entries
      ensures entries.Keys >= old(entries).Keys - {key}
    {
      if removeOk {
        entries := entries - {key};
      }
    }

    /** `clear`: empties the store; a failed clear is swallowed. */
    method Clear(clearOk: bool)
      modifies this
      ensures entries == Cleared(old(entries), clearOk)
    {
      if clearOk {
        entries := map[];
      }
    }
  }

  // ---------------------------------------------------------------------
  // Properties

  /** A key with nothing stored is a miss and leaves the store as it was. */
  lemma MissingKeyIsMiss<T>(m: Store<T>, key: string, now: int, readOk: bool, removeOk: bool)
    requires key !in m
    ensures Lookup(m, key, now, readOk) == None
    ensures AfterLookup(m, key, now, readOk, removeOk) == m
  {
  }

  /**
   * An item stored at `stamp` is served exactly while `now - stamp <= 600000`:
   * the boundary instant is still fresh.
   */
  lemma FreshExactlyWithinDuration<T>(m: Store<T>, key: string, data: T, stamp: int, now: int)
    ensures Lookup(Stored(m, key, data, stamp, true), key, now, true)
         == if now - stamp <= 600000 then Some(data) else None
  {
  }

  /** A read that finds an expired item reports a miss and, when the removal succeeds, leaves no entry under the key. */
  lemma ExpiredIsEvicted<T>(m: Store<T>, key: string, now: int)
    requires key in m && m[key].Item? && IsExpired(m[key].timestamp, now)
    ensures Lookup(m, key, now, true) == None
    ensures AfterLookup(m, key, now, true, true) == m - {key}
    ensures key !in AfterLookup(m, key, now, true, true)
  {
  }

  /** `set` replaces whatever was under the key with a freshly stamped item and changes no other key. */
  lemma StoredOverwritesOnlyKey<T>(m: Store<T>, key: string, data: T, now: int)
    ensures Stored(m, key, data, now, true)[key] == Item(data, now)
    ensures Stored(m, key, data, now, true).Keys == m.Keys + {key}
    ensures forall k :: k in m && k != key ==> Stored(m, key, data, now, true)[k] == m[k]
  {
  }

  /** What `set` stores at `stamp` is what `get` returns at any time up to ten minutes later. */
  lemma SetThenGet<T>(m: Store<T>, key: string, data: T, stamp: int, now: int)
    requires stamp <= now <= stamp + CacheDuration
    ensures Lookup(Stored(m, key, data, stamp, true), key, now, true) == Some(data)
    ensures AfterLookup(Stored(m, key, data, stamp, true), key, now, true, true) == Stored(m, key, data, stamp, true)
  {
  }

  /** A fresh hit returns the stored payload and does not touch the store. */
  lemma FreshHitLeavesStore<T>(m: Store<T>, key: string, now: int, removeOk: bool)
    requires key in m && m[key].Item? && !IsExpired(m[key].timestamp, now)
    ensures Lookup(m, key, now, true) == Some(m[key].data)
    ensures AfterLookup(m, key, now, true, removeOk) == m
  {
  }

  /**
   * Storage failures never surface: a failed read is a miss that changes
   * nothing, a corrupt entry is a miss that stays in place, and a failed
   * write, removal or clear leaves the store as it was.
   */
  lemma FailuresAreSwallowed<T>(m: Store<T>, key: string, data: T, now: int, removeOk: bool)
    ensures Lookup(m, key, now, false) == None && AfterLookup(m, key, now, false, removeOk) == m
    ensures key in m && m[key].Corrupt? ==>
              Lookup(m, key, now, true) == None && AfterLookup(m, key, now, true, removeOk) == m
    ensures Stored(m, key, data, now, false) == m
    ensures Removed(m, key, false) == m
    ensures Cleared(m, false) == m
  {
  }

  /** `remove` deletes only its key, is idempotent and is harmless on a missing key; `clear` empties the store. */
  lemma RemoveAndClear<T>(m: Store<T>, key: string)
    ensures Removed(m, key, true).Keys == m.Keys - {key}
    ensures forall k :: k in m && k != key ==> Removed(m, key, true)[k] == m[k]
    ensures Removed(Removed(m, key, true), key, true) == Removed(m, key, true)
    ensures key !in m ==> Removed(m, key, true) == m
    ensures Cleared(m, true) == map[]
  {
  }
}
