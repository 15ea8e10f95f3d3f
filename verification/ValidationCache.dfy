/** The validation cache as the program keeps it: fields written in place, loops over the
    chosen victims and the expired keys. Each method is tied to its function in CacheSpec. */
module ValidationCache {
  import opened Wrappers
  import C = CacheSpec
  import R = Recency

  lemma {:induction false} ExpiredSnoc<V>(es: seq<C.Entry<V>>, e: C.Entry<V>, now: int)
    ensures C.ExpiredOf(es + [e], now) == C.ExpiredOf(es, now) + (if C.IsExpired(e, now) then [e] else [])
  {
    if es == [] {
      assert [e][1..] == [];
    } else {
      ExpiredSnoc(es[1..], e, now);
      assert (es + [e])[1..] == es[1..] + [e];
    }
  }

  function KeyList<V>(es: seq<C.Entry<V>>): seq<string> {
    if es == [] then [] else [es[0].key] + KeyList(es[1..])
  }

  lemma {:induction false} KeyListSnoc<V>(es: seq<C.Entry<V>>, e: C.Entry<V>)
    ensures KeyList(es + [e]) == KeyList(es) + [e.key]
  {
    if es == [] {
      assert [e][1..] == [];
    } else {
      KeyListSnoc(es[1..], e);
      assert (es + [e])[1..] == es[1..] + [e];
    }
  }

  lemma {:induction false} KeyListAt<V>(es: seq<C.Entry<V>>)
    ensures |KeyList(es)| == |es| && forall i | 0 <= i < |es| :: KeyList(es)[i] == es[i].key
  {
    if es != [] {
      KeyListAt(es[1..]);
    }
  }

  class ValidationCache<V> {
    const config: C.Config
    var cache: seq<C.Entry<V>>
    var accessOrder: map<string, int>
    var accessCount: map<string, int>
    var memoryUsage: int
    var accessSequence: int

    ghost function State(): C.Cache<V>
      reads this
    {
      C.Cache(config, cache, accessOrder, accessCount, memoryUsage, accessSequence)
    }

    constructor (config: C.Config)
      ensures State() == C.Empty(config)
    {
      this.config := config;
      cache, accessOrder, accessCount := [], map[], map[];
      memoryUsage, accessSequence := 0, 0;
    }

    method RemoveEntry(key: string) returns (removed: bool)
      modifies this
      ensures State() == C.RemoveEntry(old(State()), key)
      ensures removed <==> C.Lookup(old(cache), key).Some?
    {
      var entry := C.Lookup(cache, key);
      removed := entry.Some?;
      if entry.Some? {
        cache := C.Without(cache, {key});
        accessOrder := accessOrder - {key};
        accessCount := accessCount - {key};
        memoryUsage := memoryUsage - entry.value.size;
      }
    }

    method UpdateAccess(entry: C.Entry<V>)
      modifies this
      ensures State() == C.Touch(old(State()), entry)
    {
      accessSequence := accessSequence + 1;
      var touched := entry.(accessed := accessSequence, accessCount := entry.accessCount + 1);
      cache := C.Replace(cache, touched);
      accessOrder := accessOrder[entry.key := touched.accessed];
      accessCount := accessCount[entry.key := touched.accessCount];
    }

    method Get(key: string, now: int) returns (value: Option<V>)
      modifies this
      ensures (State(), value) == C.Get(old(State()), key, now)
    {
      if !config.enabled {
        return None;
      }
      var entry := C.Lookup(cache, key);
      if entry.None? {
        return None;
      }
      if C.IsExpired(entry.value, now) {
        var _ := Delete(key);
        return None;
      }
      UpdateAccess(entry.value);
      return Some(entry.value.value);
    }

    method Has(key: string, now: int) returns (present: bool)
      modifies this
      ensures (State(), present) == C.Has(old(State()), key, now)
    {
      if !config.enabled {
        return false;
      }
      var entry := C.Lookup(cache, key);
      if entry.None? {
        return false;
      }
      if C.IsExpired(entry.value, now) {
        var _ := Delete(key);
        return false;
      }
      return true;
    }

    method Delete(key: string) returns (removed: bool)
      modifies this
      ensures State() == C.Delete(old(State()), key)
      ensures removed <==> C.Lookup(old(cache), key).Some?
    {
      removed := RemoveEntry(key);
    }

    method Clear()
      modifies this
      ensures State() == C.Clear(old(State()))
    {
      cache, accessOrder, accessCount := [], map[], map[];
      memoryUsage := 0;
    }

    method EvictEntries(count: nat)
      modifies this
      ensures State() == C.Evict(old(State()), count)
    {
      var toEvict := C.Take(C.Sort(config.strategy, C.Candidates(config.strategy, cache)), count);
      assert toEvict == C.Victims(State(), count);
      for i := 0 to |toEvict|
        invariant State() == C.RemoveAll(old(State()), toEvict[..i])
      {
        var _ := RemoveEntry(toEvict[i].key);
        assert toEvict[..i + 1][..i] == toEvict[..i];
      }
      assert toEvict[..|toEvict|] == toEvict;
    }

    /** `tenth` is the number of entries that a tenth of the cache rounds up to. */
    method CheckMemoryLimits(size: nat, tenth: nat) returns (fits: bool)
      modifies this
      ensures State() == C.MakeRoom(old(State()), size, tenth)
      ensures fits <==> memoryUsage + size <= config.memoryLimit
    {
      if memoryUsage + size > config.memoryLimit {
        EvictEntries(tenth);
        if memoryUsage + size > config.memoryLimit {
          return false;
        }
      }
      return true;
    }

    method Set(key: string, value: V, size: nat, ttl: Option<int>, now: int, tenth: nat) returns (stored: bool)
      modifies this
      ensures (State(), stored) == C.Set(old(State()), key, value, size, ttl, now, tenth)
    {
      if !config.enabled {
        return false;
      }
      var effectiveTtl := if ttl.Some? then ttl.value else config.defaultTtl;
      var fits := CheckMemoryLimits(size, tenth);
      if !fits {
        return false;
      }
      if C.Lookup(cache, key).Some? {
        var _ := RemoveEntry(key);
      }
      if |cache| >= config.maxSize {
        EvictEntries(1);
      }
      Insert(key, value, size, effectiveTtl, now);
      return true;
    }

    method Insert(key: string, value: V, size: nat, effectiveTtl: int, now: int)
      modifies this
      ensures State() == C.Append(old(State()), key, value, size, effectiveTtl, now)
    {
      accessSequence := accessSequence + 1;
      var entry := C.Entry(key, value, effectiveTtl, now, accessSequence, 1, size);
      cache := cache + [entry];
      accessOrder := accessOrder[key := entry.accessed];
      accessCount := accessCount[key := 1];
      memoryUsage := memoryUsage + size;
    }

    method RemoveKeys(keys: seq<string>, ghost expired: seq<C.Entry<V>>)
      requires keys == KeyList(expired)
      modifies this
      ensures State() == C.RemoveAll(old(State()), expired)
    {
      KeyListAt(expired);
      for i := 0 to |keys|
        invariant State() == C.RemoveAll(old(State()), expired[..i])
      {
        var _ := RemoveEntry(keys[i]);
        assert expired[..i + 1][..i] == expired[..i];
      }
      assert expired[..|expired|] == expired;
    }

    method RunGarbageCollection(now: int)
      modifies this
      ensures State() == C.Collect(old(State()), now)
    {
      var expiredKeys: seq<string> := [];
      for i := 0 to |cache|
        invariant State() == old(State())
        invariant expiredKeys == KeyList(C.ExpiredOf(cache[..i], now))
      {
        assert cache[..i + 1] == cache[..i] + [cache[i]];
        ExpiredSnoc(cache[..i], cache[i], now);
        ghost var expired := C.ExpiredOf(cache[..i], now);
        assert expired + [] == expired;
        if C.IsExpired(cache[i], now) {
          KeyListSnoc(expired, cache[i]);
          expiredKeys := expiredKeys + [cache[i].key];
        }
      }
      assert cache[..|cache|] == cache;
      RemoveKeys(expiredKeys, C.ExpiredOf(cache, now));
    }
  }

  method Perform<V>(cache: ValidationCache<V>, t: C.Timed<V>)
    modifies cache
    ensures cache.State() == C.Step(old(cache.State()), t)
  {
    match t.op
    case DoGet(k) => var _ := cache.Get(k, t.now);
    case DoHas(k) => var _ := cache.Has(k, t.now);
    case DoSet(k, v, size, ttl, tenth) => var _ := cache.Set(k, v, size, ttl, t.now, tenth);
    case DoDelete(k) => var _ := cache.Delete(k);
    case DoClear => cache.Clear();
    case DoCollect => cache.RunGarbageCollection(t.now);
  }

  /** Any calls on a new cache: its fields are those of the run, so under LRU the entries are
      the recency list, and the maps, stamps and counter stay in step. */
  method Serve<V(!new)>(config: C.Config, ops: seq<C.Timed<V>>) returns (cache: ValidationCache<V>)
    requires config.memoryLimit >= 0
    ensures fresh(cache) && cache.State() == C.Run(config, ops) && C.Inv(cache.State())
    ensures R.UsesRecency(config.strategy) ==> R.View(cache.State()) == R.ListRun(config, ops)
  {
    cache := new ValidationCache(config);
    for i := 0 to |ops|
      invariant fresh(cache) && cache.State() == C.Run(config, ops[..i])
    {
      Perform(cache, ops[i]);
      assert ops[..i + 1][..i] == ops[..i];
    }
    assert ops[..|ops|] == ops;
    C.RunKeeps(config, ops);
    if R.UsesRecency(config.strategy) {
      R.RunRefines(config, ops);
    }
  }
}
