/** The caching wrapper around a validation function. The function is awaited between the
    lookup and the store, so the two are separate steps and anything may come between. */
module CachedValidator {
  import opened Wrappers
  import opened CacheSpec
  import opened Recency
  import L = CacheLaws

  datatype Outcome<V> = Returned(value: V) | Thrown(error: string)

  /** The wrapped function, its key generator, which results are cached, and their sizes. */
  datatype Validator<!D, !V> = Validator(run: D -> Outcome<V>, key: D -> string, cacheable: V -> bool, size: V -> nat,
                                        ttl: Option<int>)

  datatype Event<D, V> =
    | Ask(data: D, now: int)
    | Finish(data: D, now: int, tenth: nat)
    | Maintain(t: Timed<V>)

  datatype World<D, V> = World(cache: Cache<V>, answers: seq<(D, Outcome<V>)>)

  /** A hit answers at once; a miss answers when the function has run, and stores. */
  function React<D, V>(val: Validator<D, V>, w: World<D, V>, e: Event<D, V>): World<D, V> {
    match e
    case Ask(d, now) =>
      var (c, hit) := Get(w.cache, val.key(d), now);
      World(c, if hit.Some? then w.answers + [(d, Returned(hit.value))] else w.answers)
    case Finish(d, now, tenth) =>
      var out := val.run(d);
      var c := if out.Returned? && val.cacheable(out.value)
               then Set(w.cache, val.key(d), out.value, val.size(out.value), val.ttl, now, tenth).0 else w.cache;
      World(c, w.answers + [(d, out)])
    case Maintain(t) => w.(cache := if t.op.DoSet? then w.cache else Step(w.cache, t))
  }

  function Reacts<D, V>(val: Validator<D, V>, config: Config, es: seq<Event<D, V>>): World<D, V> {
    if es == [] then World(Empty(config), [])
    else React(val, Reacts(val, config, es[..|es| - 1]), es[|es| - 1])
  }

  ghost predicate Right<D, V>(val: Validator<D, V>, answers: seq<(D, Outcome<V>)>) {
    forall i | 0 <= i < |answers| :: answers[i].1 == val.run(answers[i].0)
  }

  predicate Storable<D, V>(val: Validator<D, V>, config: Config, out: Outcome<V>) {
    config.enabled && out.Returned? && val.cacheable(out.value) && val.size(out.value) <= config.memoryLimit
  }

  /** Two inputs share a key only if they share the outcome, as injective keys ensure. */
  ghost predicate Separates<D(!new), V(!new)>(val: Validator<D, V>, config: Config) {
    forall d, e | val.key(d) == val.key(e) && Storable(val, config, val.run(d)) :: val.run(e) == val.run(d)
  }

  ghost predicate HonestAt<D(!new), V(!new)>(val: Validator<D, V>, x: Entry<V>) {
    forall d | val.key(d) == x.key :: val.run(d) == Returned(x.value)
  }

  ghost predicate Honest<D(!new), V(!new)>(val: Validator<D, V>, es: seq<Entry<V>>) {
    forall i | 0 <= i < |es| :: HonestAt(val, es[i])
  }

  // ---- Steps that add nothing keep every entry honest ----

  lemma HonestWithout<D(!new), V(!new)>(val: Validator<D, V>, es: seq<Entry<V>>, keys: set<string>)
    requires Honest(val, es)
    ensures Honest(val, Without(es, keys))
  {
    WithoutMembers(es, keys);
    Elements(Without(es, keys), es);
  }

  lemma HonestRemoveAll<D(!new), V(!new)>(val: Validator<D, V>, c: Cache<V>, victims: seq<Entry<V>>)
    requires Inv(c) && Honest(val, c.entries)
    ensures Honest(val, RemoveAll(c, victims).entries) && Inv(RemoveAll(c, victims))
  {
    RemoveAllKeeps(c, victims);
    HonestWithout(val, c.entries, Keys(victims));
  }

  lemma HonestRemove<D(!new), V(!new)>(val: Validator<D, V>, c: Cache<V>, key: string)
    requires Inv(c) && Honest(val, c.entries)
    ensures Honest(val, RemoveEntry(c, key).entries) && Inv(RemoveEntry(c, key))
  {
    RemoveKeeps(c, key);
    HonestWithout(val, c.entries, {key});
  }

  lemma HonestTouch<D(!new), V(!new)>(val: Validator<D, V>, c: Cache<V>, key: string)
    requires Inv(c) && Honest(val, c.entries) && Lookup(c.entries, key).Some?
    ensures Honest(val, Touch(c, Lookup(c.entries, key).value).entries)
  {
    var e := Lookup(c.entries, key).value;
    var i := IndexOf(c.entries, key);
    var e' := e.(accessed := c.sequence + 1, accessCount := e.accessCount + 1);
    ReplaceAt(c.entries, i, e');
    assert HonestAt(val, e');
  }

  lemma HonestStep<D(!new), V(!new)>(val: Validator<D, V>, c: Cache<V>, t: Timed<V>)
    requires Inv(c) && Honest(val, c.entries) && !t.op.DoSet?
    ensures Honest(val, Step(c, t).entries)
  {
    match t.op
    case DoGet(k) =>
      HonestRemove(val, c, k);
      if Lookup(c.entries, k).Some? {
        HonestTouch(val, c, k);
      }
    case DoHas(k) => HonestRemove(val, c, k);
    case DoDelete(k) => HonestRemove(val, c, k);
    case DoClear =>
    case DoCollect => HonestRemoveAll(val, c, ExpiredOf(c.entries, t.now));
    case DoSet(_, _, _, _, _) =>
  }

  lemma HonestAppend<D(!new), V(!new)>(val: Validator<D, V>, c: Cache<V>, d: D, size: nat, ttl: int, now: int)
    requires Honest(val, c.entries) && Separates(val, c.config) && Storable(val, c.config, val.run(d))
    ensures Honest(val, Append(c, val.key(d), val.run(d).value, size, ttl, now).entries)
  {
    var c' := Append(c, val.key(d), val.run(d).value, size, ttl, now);
    assert HonestAt(val, c'.entries[|c.entries|]);
  }

  lemma HonestSet<D(!new), V(!new)>(val: Validator<D, V>, c: Cache<V>, d: D, now: int, tenth: nat)
    requires Inv(c) && Honest(val, c.entries) && Separates(val, c.config)
    requires val.run(d).Returned? && val.cacheable(val.run(d).value)
    ensures Honest(val, Set(c, val.key(d), val.run(d).value, val.size(val.run(d).value), val.ttl, now, tenth).0.entries)
  {
    var size := val.size(val.run(d).value);
    HonestRemoveAll(val, c, Victims(c, tenth));
    RemoveAllConfig(c, Victims(c, tenth));
    var c1 := MakeRoom(c, size, tenth);
    HonestRemove(val, c1, val.key(d));
    var c2 := RemoveEntry(c1, val.key(d));
    HonestRemoveAll(val, c2, Victims(c2, 1));
    RemoveAllConfig(c2, Victims(c2, 1));
    if c.config.enabled && c1.memory + size <= c1.config.memoryLimit {
      var c3 := if |c2.entries| >= c2.config.maxSize then Evict(c2, 1) else c2;
      MemoryFits(c1, size);
      HonestAppend(val, c3, d, size, if val.ttl.Some? then val.ttl.value else c.config.defaultTtl, now);
    }
  }

  lemma MemoryFits<V(!new)>(c: Cache<V>, size: nat)
    requires Inv(c) && c.memory + size <= c.config.memoryLimit
    ensures size <= c.config.memoryLimit
  {
  }

  // ---- The wrapper answers as the function does ----

  ghost predicate Sound<D(!new), V(!new)>(val: Validator<D, V>, config: Config, w: World<D, V>) {
    Inv(w.cache) && w.cache.config == config && Honest(val, w.cache.entries) && Right(val, w.answers)
  }

  lemma ReactSound<D(!new), V(!new)>(val: Validator<D, V>, config: Config, w: World<D, V>, e: Event<D, V>)
    requires Sound(val, config, w) && Separates(val, config) && config.memoryLimit >= 0
    ensures Sound(val, config, React(val, w, e))
  {
    match e
    case Ask(d, now) =>
      var t: Timed<V> := Timed(now, DoGet(val.key(d)));
      StepKeeps(w.cache, t);
      HonestStep(val, w.cache, t);
      if Get(w.cache, val.key(d), now).1.Some? {
        var i := IndexOf(w.cache.entries, val.key(d));
        assert HonestAt(val, w.cache.entries[i]);
      }
    case Finish(d, now, tenth) =>
      var out := val.run(d);
      if out.Returned? && val.cacheable(out.value) {
        SetKeeps(w.cache, val.key(d), out.value, val.size(out.value), val.ttl, now, tenth);
        SetConfig(w.cache, val.key(d), out.value, val.size(out.value), val.ttl, now, tenth);
        HonestSet(val, w.cache, d, now, tenth);
      }
    case Maintain(t) =>
      if !t.op.DoSet? {
        StepKeeps(w.cache, t);
        HonestStep(val, w.cache, t);
      }
  }

  lemma {:induction false} ReactsSound<D(!new), V(!new)>(val: Validator<D, V>, config: Config, es: seq<Event<D, V>>)
    requires Separates(val, config) && config.memoryLimit >= 0
    ensures Sound(val, config, Reacts(val, config, es))
  {
    if es != [] {
      ReactsSound(val, config, es[..|es| - 1]);
      ReactSound(val, config, Reacts(val, config, es[..|es| - 1]), es[|es| - 1]);
    }
  }

  /** Two inputs under one key: the second is answered with the first one's result. */
  lemma CollisionReplays<D(!new), V(!new)>(val: Validator<D, V>, config: Config, d: D, e: D)
    requires val.key(d) == val.key(e) && Storable(val, config, val.run(d)) && val.run(e) != val.run(d)
    requires config.memoryLimit >= 0
    ensures !Right(val, Reacts(val, config, [Finish(d, 0, 0), Ask(e, 0)]).answers)
  {
    var e1: Event<D, V> := Finish(d, 0, 0);
    var e2: Event<D, V> := Ask(e, 0);
    var v := val.run(d).value;
    assert [e1, e2][..1] == [e1] && [e1][..0] == [];
    assert Reacts(val, config, []) == World(Empty(config), []);
    var w1 := Reacts(val, config, [e1]);
    assert w1 == React(val, World(Empty(config), []), e1);
    var c0: Cache<V> := Empty(config);
    assert Victims(c0, 1) == [];
    assert w1.cache.entries[0].key == val.key(d) && w1.cache.entries[0].value == v;
    var w2 := Reacts(val, config, [e1, e2]);
    assert w2 == React(val, w1, e2);
    assert w2.answers[1] == (e, Returned(v));
  }

  /** Over every interleaving of calls with lookups, deletions, clears, expiry, eviction and
      collection, the cached validator answers as the raw one, if and only if no storable
      result shares its key with a different result. */
  lemma CachedEqualsRaw<D(!new), V(!new)>(val: Validator<D, V>, config: Config)
    requires config.memoryLimit >= 0
    ensures Separates(val, config) <==> forall es :: Right(val, Reacts(val, config, es).answers)
  {
    if Separates(val, config) {
      forall es
        ensures Right(val, Reacts(val, config, es).answers)
      {
        ReactsSound(val, config, es);
      }
    } else {
      var d, e :| val.key(d) == val.key(e) && Storable(val, config, val.run(d)) && val.run(e) != val.run(d);
      CollisionReplays(val, config, d, e);
    }
  }

  /** What is storable and fits is answered from the cache the next time, while it lives. */
  lemma AskedAgain<D(!new), V(!new)>(val: Validator<D, V>, w: World<D, V>, d: D, now: int, tenth: nat, later: int)
    requires Inv(w.cache) && Storable(val, w.cache.config, val.run(d))
    requires w.cache.memory + val.size(val.run(d).value) <= w.cache.config.memoryLimit
    requires var ttl := if val.ttl.Some? then val.ttl.value else w.cache.config.defaultTtl;
             ttl > 0 ==> later <= now + ttl * 1000
    ensures var w1 := React(val, w, Finish(d, now, tenth));
            React(val, w1, Ask(d, later)).answers == w.answers + [(d, val.run(d)), (d, val.run(d))]
  {
    var v := val.run(d).value;
    L.SetIsFound(w.cache, val.key(d), v, val.size(v), val.ttl, now, tenth, later);
  }
}
