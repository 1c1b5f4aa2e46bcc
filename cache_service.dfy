/** The client cache service of app-zone/src/utils/cache.ts: a memory tier in
    front of a persistent tier (IndexedDB in the browser), both keyed by
    string, each entry carrying its own time-to-live. The persistent tier is
    written and read only once the database has been opened. */
module CacheStore {
  import opened Common

  /** Default time-to-live of `set`: five minutes, in milliseconds. */
  const DefaultTtl: int := 5 * 60 * 1000

  datatype Entry<D> = Entry(data: D, timestamp: int, expiresIn: int)

  /** `isValid`: strictly younger than its time-to-live. */
  predicate IsValid<D>(e: Entry<D>, now: int)
  {
    now - e.timestamp < e.expiresIn
  }

  predicate FreshIn<D>(tier: map<string, Entry<D>>, key: string, now: int)
  {
    key in tier && IsValid(tier[key], now)
  }

  /** What `get(key)` answers at time `now`: the memory tier first, then the
      persistent tier when the database is open. */
  function Lookup<D>(memory: map<string, Entry<D>>, persistent: map<string, Entry<D>>,
                     dbOpen: bool, key: string, now: int): Option<D>
  {
    if FreshIn(memory, key, now) then Some(memory[key].data)
    else if dbOpen && FreshIn(persistent, key, now) then Some(persistent[key].data)
    else None
  }

  /** The memory tier after `get(key)`: a valid persistent entry that answered
      the read is copied into memory; nothing is ever removed. */
  function AfterLookup<D>(memory: map<string, Entry<D>>, persistent: map<string, Entry<D>>,
                          dbOpen: bool, key: string, now: int): map<string, Entry<D>>
  {
    if FreshIn(memory, key, now) then memory
    else if dbOpen && FreshIn(persistent, key, now) then memory[key := persistent[key]]
    else memory
  }

  /** The entries of a tier that `cleanup` keeps. */
  function Sweep<D>(tier: map<string, Entry<D>>, now: int): map<string, Entry<D>>
  {
    map k | k in tier && IsValid(tier[k], now) :: tier[k]
  }

  /** Removes from `tier` every entry that is no longer valid at `now`,
      visiting the keys one at a time as the `for ... of entries()` loop and
      the IndexedDB cursor do. */
  method Evict<D>(tier: map<string, Entry<D>>, now: int) returns (kept: map<string, Entry<D>>)
    ensures kept == Sweep(tier, now)
  {
    kept := tier;
    var pending := tier.Keys;
    while pending != {}
      invariant pending <= kept.Keys <= tier.Keys
      invariant forall k :: k in kept ==> kept[k] == tier[k]
      invariant forall k :: k in tier && k !in pending ==> (k in kept <==> IsValid(tier[k], now))
      decreases pending
    {
      var k :| k in pending;
      if !IsValid(kept[k], now) {
        kept := kept - {k};
      }
      pending := pending - {k};
    }
    assert kept.Keys == Sweep(tier, now).Keys;
  }

  class CacheService<D> {
    /** The memory tier (`memoryCache`). */
    var memory: map<string, Entry<D>>
    /** The persistent tier, as it stands in the browser's database. */
    var persistent: map<string, Entry<D>>
    /** Whether `initDB` has succeeded (`this.db` is not null). */
    var dbOpen: bool

    /** A new service: empty memory, the database not yet open; whatever an
        earlier page stored persistently is still there. */
    constructor (stored: map<string, Entry<D>>)
      ensures memory == map[] && persistent == stored && !dbOpen
    {
      memory := map[];
      persistent := stored;
      dbOpen := false;
    }

    /** The `onsuccess` of `initDB`. */
    method DatabaseOpened()
      modifies this`dbOpen
      ensures dbOpen
    {
      dbOpen := true;
    }

    /** `set(key, data, expiresIn)` at time `now`. */
    method Set(key: string, data: D, expiresIn: int, now: int)
      modifies this`memory, this`persistent
      ensures memory == old(memory)[key := Entry(data, now, expiresIn)]
      ensures persistent == if dbOpen then old(persistent)[key := Entry(data, now, expiresIn)]
                            else old(persistent)
    {
      var entry := Entry(data, now, expiresIn);
      memory := memory[key := entry];
      if dbOpen {
        persistent := persistent[key := entry];
      }
    }

    /** `get(key)` at time `now`. */
    method Get(key: string, now: int) returns (r: Option<D>)
      modifies this`memory
      ensures r == Lookup(old(memory), persistent, dbOpen, key, now)
      ensures memory == AfterLookup(old(memory), persistent, dbOpen, key, now)
      ensures old(memory).Keys <= memory.Keys
      ensures r.None? ==> memory == old(memory)
    {
      if key in memory && IsValid(memory[key], now) {
        return Some(memory[key].data);
      }
      if dbOpen {
        if key in persistent && IsValid(persistent[key], now) {
          memory := memory[key := persistent[key]];
          return Some(persistent[key].data);
        }
      }
      return None;
    }

    /** `remove(key)`. */
    method Remove(key: string)
      modifies this`memory, this`persistent
      ensures memory == old(memory) - {key}
      ensures persistent == if dbOpen then old(persistent) - {key} else old(persistent)
    {
      memory := memory - {key};
      if dbOpen {
        persistent := persistent - {key};
      }
    }

    /** `clear()`. */
    method Clear()
      modifies this`memory, this`persistent
      ensures memory == map[]
      ensures persistent == if dbOpen then map[] else old(persistent)
    {
      memory := map[];
      if dbOpen {
        persistent := map[];
      }
    }

    /** `cleanup()` at time `now`. */
    method Cleanup(now: int)
      modifies this`memory, this`persistent
      ensures memory == Sweep(old(memory), now)
      ensures persistent == if dbOpen then Sweep(old(persistent), now) else old(persistent)
    {
      memory := Evict(memory, now);
      if dbOpen {
        persistent := Evict(persistent, now);
      }
    }
  }

  // -----------------------------------------------------------------------
  // Properties of the specification functions
  // -----------------------------------------------------------------------

  /** An entry is expired at exactly `timestamp + expiresIn`. */
  lemma ExpiresAtBoundary<D>(data: D, t: int, ttl: int)
    ensures IsValid(Entry(data, t, ttl), t + ttl - 1)
    ensures !IsValid(Entry(data, t, ttl), t + ttl)
  {
  }

  /** After `set(k, d, ttl)` at time `t`, `get(k)` at any `now` with
      `now - t < ttl` answers `d`, whatever the persistent tier holds. */
  lemma SetThenGet<D>(memory: map<string, Entry<D>>, persistent: map<string, Entry<D>>,
                      dbOpen: bool, k: string, d: D, ttl: int, t: int, now: int)
    requires now - t < ttl
    ensures Lookup(memory[k := Entry(d, t, ttl)], persistent, dbOpen, k, now) == Some(d)
  {
  }

  /** A valid memory entry answers without the persistent tier being looked
      at: any two persistent tiers give the same answer and the same memory. */
  lemma MemoryHitIgnoresPersistent<D>(memory: map<string, Entry<D>>,
                                      p1: map<string, Entry<D>>, p2: map<string, Entry<D>>,
                                      db1: bool, db2: bool, key: string, now: int)
    requires FreshIn(memory, key, now)
    ensures Lookup(memory, p1, db1, key, now) == Lookup(memory, p2, db2, key, now) == Some(memory[key].data)
    ensures AfterLookup(memory, p1, db1, key, now) == memory
  {
  }

  /** After a read promoted a persistent entry, the next read at the same
      time is answered by the memory tier alone. */
  lemma PromotionServesFromMemory<D>(memory: map<string, Entry<D>>,
                                     persistent: map<string, Entry<D>>,
                                     key: string, now: int)
    requires !FreshIn(memory, key, now) && FreshIn(persistent, key, now)
    ensures var m' := AfterLookup(memory, persistent, true, key, now);
            FreshIn(m', key, now) && Lookup(m', map[], false, key, now) == Lookup(memory, persistent, true, key, now)
  {
  }

  /** `get` answers nothing exactly when neither tier it may consult holds a
      valid entry. */
  lemma LookupMissIff<D>(memory: map<string, Entry<D>>, persistent: map<string, Entry<D>>,
                         dbOpen: bool, key: string, now: int)
    ensures Lookup(memory, persistent, dbOpen, key, now).None? <==>
            !FreshIn(memory, key, now) && !(dbOpen && FreshIn(persistent, key, now))
  {
  }

  /** `cleanup` keeps exactly the valid entries: it never changes what a
      `get` at the same time answers. */
  lemma {:induction false} CleanupIsInvisible<D>(memory: map<string, Entry<D>>,
                                                 persistent: map<string, Entry<D>>,
                                                 dbOpen: bool, key: string, now: int)
    ensures Lookup(Sweep(memory, now), Sweep(persistent, now), dbOpen, key, now)
         == Lookup(memory, persistent, dbOpen, key, now)
    ensures forall k :: k in Sweep(memory, now) <==> FreshIn(memory, k, now)
  {
    assert FreshIn(Sweep(memory, now), key, now) <==> FreshIn(memory, key, now);
    assert FreshIn(Sweep(persistent, now), key, now) <==> FreshIn(persistent, key, now);
  }
}
