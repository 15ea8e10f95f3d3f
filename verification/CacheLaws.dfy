/** What callers of the validation cache may rely on, for every strategy: which entries an
    eviction takes, how many entries there can be, and which value a hit returns. */
module CacheLaws {
  import opened Wrappers
  import opened CacheSpec
  import opened Recency

  // ---- Which entries an eviction takes ----

  lemma {:induction false} CandidateMembers<V(!new)>(st: Strategy, es: seq<Entry<V>>)
    ensures forall e :: e in Candidates(st, es) <==> e in es && (st.TTL? ==> e.ttl > 0)
  {
    if es != [] {
      CandidateMembers(st, es[1..]);
      assert es == [es[0]] + es[1..];
    }
  }

  lemma VictimsAreEntries<V(!new)>(c: Cache<V>, count: nat)
    ensures forall e | e in Victims(c, count) :: e in c.entries && (c.config.strategy.TTL? ==> e.ttl > 0)
  {
    CandidateMembers(c.config.strategy, c.entries);
    SortMembers(c.config.strategy, Candidates(c.config.strategy, c.entries));
  }

  lemma FirstAreLeast<V(!new)>(st: Strategy, es: seq<Entry<V>>, count: nat, gone: Entry<V>, kept: Entry<V>)
    requires gone in Take(Sort(st, es), count) && kept in es && kept !in Take(Sort(st, es), count)
    ensures Rank(st, gone) <= Rank(st, kept)
  {
    SortSorts(st, es);
    SortMembers(st, es);
    var s, v := Sort(st, es), Take(Sort(st, es), count);
    var i :| 0 <= i < |v| && v[i] == gone;
    var j :| 0 <= j < |s| && s[j] == kept;
    assert forall q | 0 <= q < |v| :: v[q] in v && s[q] == v[q];
    assert i < |v| <= j;
  }

  /** What is evicted is a victim; what stays is none. */
  lemma VictimsGo<V(!new)>(c: Cache<V>, count: nat, e: Entry<V>)
    requires Inv(c) && e in c.entries
    ensures e in Evict(c, count).entries <==> e !in Victims(c, count)
  {
    var v := Victims(c, count);
    RemoveAllKeeps(c, v);
    WithoutMembers(c.entries, Keys(v));
    KeysOf(v, e.key);
    VictimsAreEntries(c, count);
    if e.key in Keys(v) {
      var w :| w in v && w.key == e.key;
      SameEntry(c.entries, w, e);
    }
  }

  /** Whatever the strategy, nothing that stays has a smaller rank than something that goes,
      except, under TTL, an entry that never expires. */
  lemma EvictTakesLeast<V(!new)>(c: Cache<V>, count: nat, gone: Entry<V>, kept: Entry<V>)
    requires Inv(c) && gone in c.entries && gone !in Evict(c, count).entries
    requires kept in c.entries && kept in Evict(c, count).entries && (c.config.strategy.TTL? ==> kept.ttl > 0)
    ensures Rank(c.config.strategy, gone) <= Rank(c.config.strategy, kept)
  {
    VictimsGo(c, count, gone);
    VictimsGo(c, count, kept);
    CandidateMembers(c.config.strategy, c.entries);
    FirstAreLeast(c.config.strategy, Candidates(c.config.strategy, c.entries), count, gone, kept);
  }

  lemma SameEntry<V(!new)>(es: seq<Entry<V>>, a: Entry<V>, b: Entry<V>)
    requires UniqueKeys(es) && a in es && b in es && a.key == b.key
    ensures a == b
  {
    var i :| 0 <= i < |es| && es[i] == a;
    var j :| 0 <= j < |es| && es[j] == b;
  }

  // ---- How many entries there can be ----

  lemma {:induction false} RemoveAllShrinks<V(!new)>(c: Cache<V>, victims: seq<Entry<V>>)
    requires Inv(c)
    ensures |RemoveAll(c, victims).entries| <= |c.entries|
  {
    if victims != [] {
      var n := |victims| - 1;
      RemoveAllShrinks(c, victims[..n]);
      RemoveAllKeeps(c, victims[..n]);
      RemoveKeeps(RemoveAll(c, victims[..n]), victims[n].key);
    }
  }

  lemma FirstVictim<V(!new)>(c: Cache<V>)
    ensures var cs := Candidates(c.config.strategy, c.entries);
            if cs == [] then Victims(c, 1) == [] else |Victims(c, 1)| == 1 && Victims(c, 1)[0] in c.entries
  {
    SortSorts(c.config.strategy, Candidates(c.config.strategy, c.entries));
    VictimsAreEntries(c, 1);
    var v := Victims(c, 1);
    assert forall i | 0 <= i < |v| :: v[i] in v;
  }

  /** Evicting one entry works exactly when there is a candidate. */
  lemma EvictOne<V(!new)>(c: Cache<V>)
    requires Inv(c)
    ensures |Evict(c, 1).entries| == |c.entries| - (if Candidates(c.config.strategy, c.entries) == [] then 0 else 1)
  {
    FirstVictim(c);
    var v := Victims(c, 1);
    if Candidates(c.config.strategy, c.entries) != [] {
      RemoveKeeps(c, v[0].key);
      assert v[0] in c.entries;
      KeysOf(c.entries, v[0].key);
      assert v[..0] == [];
      assert RemoveAll(c, v) == RemoveEntry(RemoveAll(c, v[..0]), v[0].key);
    }
  }

  function Capacity(config: Config): nat {
    if config.maxSize >= 1 then config.maxSize else 1
  }

  /** The cache as it stands when `Set` looks for room. */
  function BeforeRoom<V>(c: Cache<V>, key: string, size: nat, tenth: nat): Cache<V> {
    RemoveEntry(MakeRoom(c, size, tenth), key)
  }

  predicate Accepted<V>(c: Cache<V>, size: nat, tenth: nat) {
    c.config.enabled && MakeRoom(c, size, tenth).memory + size <= c.config.memoryLimit
  }

  /** Full, and under TTL with nothing that can expire. */
  predicate Jammed<V>(c: Cache<V>) {
    |c.entries| == Capacity(c.config) && c.config.strategy.TTL? && Candidates(TTL, c.entries) == []
  }

  lemma AcceptedKeepsConfig<V(!new)>(c: Cache<V>, key: string, size: nat, tenth: nat)
    requires Inv(c)
    ensures Inv(BeforeRoom(c, key, size, tenth)) && BeforeRoom(c, key, size, tenth).config == c.config
    ensures |BeforeRoom(c, key, size, tenth).entries| <= |c.entries|
    ensures |MakeRoom(c, size, tenth).entries| <= |c.entries|
  {
    RemoveAllKeeps(c, Victims(c, tenth));
    RemoveAllShrinks(c, Victims(c, tenth));
    RemoveKeeps(MakeRoom(c, size, tenth), key);
  }

  /** A cache within its capacity stays within it, unless the entry is accepted when every
      place is taken and, under TTL, no entry can expire. */
  lemma SetFits<V(!new)>(c: Cache<V>, key: string, value: V, size: nat, ttl: Option<int>, now: int, tenth: nat)
    requires Inv(c) && |c.entries| <= Capacity(c.config)
    ensures |Set(c, key, value, size, ttl, now, tenth).0.entries| <= Capacity(c.config)
            <==> !(Accepted(c, size, tenth) && Jammed(BeforeRoom(c, key, size, tenth)))
  {
    AcceptedKeepsConfig(c, key, size, tenth);
    var c2 := BeforeRoom(c, key, size, tenth);
    EvictOne(c2);
    if !c.config.strategy.TTL? {
      SameCandidates(c.config.strategy, c2.entries);
    }
    SetConfig(c, key, value, size, ttl, now, tenth);
  }

  /** With entries that never expire TTL eviction finds no victim and the bound is lost. */
  lemma ImmortalOverflow()
    ensures var config := Config(true, 0, 1, TTL, 100);
            |Run(config, [Timed(0, DoSet("a", 'x', 1, None, 0)), Timed(0, DoSet("b", 'y', 1, None, 0))]).entries| == 2
  {
    var config := Config(true, 0, 1, TTL, 100);
    var s1 := Timed(0, DoSet("a", 'x', 1, None, 0));
    var s2 := Timed(0, DoSet("b", 'y', 1, None, 0));
    assert [s1, s2][..1] == [s1] && [s1][..0] == [];
    var c0: Cache<char> := Empty(config);
    var c1 := Step(c0, s1);
    assert c1.entries == [Entry("a", 'x', 0, 0, 1, 1, 1)];
    assert c1.entries[1..] == [];
    assert Candidates(TTL, c1.entries) == [];
    assert Run(config, [s1]) == Step(Run(config, []), s1);
    assert Run(config, [s1, s2]) == Step(c1, s2);
  }

  predicate Mortal<V>(es: seq<Entry<V>>) {
    forall i | 0 <= i < |es| :: es[i].ttl > 0
  }

  /** Every lifetime asked for, or the default where none is, is positive. */
  predicate Finite<V>(config: Config, op: Op<V>) {
    op.DoSet? ==> (if op.ttl.Some? then op.ttl.value else config.defaultTtl) > 0
  }

  lemma MortalSubset<V(!new)>(es: seq<Entry<V>>, keys: set<string>)
    requires Mortal(es)
    ensures Mortal(Without(es, keys))
  {
    WithoutMembers(es, keys);
    Elements(Without(es, keys), es);
  }

  lemma MortalRemoveAll<V(!new)>(c: Cache<V>, victims: seq<Entry<V>>)
    requires Inv(c) && Mortal(c.entries)
    ensures Mortal(RemoveAll(c, victims).entries)
  {
    RemoveAllKeeps(c, victims);
    MortalSubset(c.entries, Keys(victims));
  }

  lemma MortalTouch<V(!new)>(c: Cache<V>, key: string)
    requires Inv(c) && Mortal(c.entries) && Lookup(c.entries, key).Some?
    ensures Mortal(Touch(c, Lookup(c.entries, key).value).entries)
  {
    var e := Lookup(c.entries, key).value;
    var i := IndexOf(c.entries, key);
    ReplaceAt(c.entries, i, e.(accessed := c.sequence + 1, accessCount := e.accessCount + 1));
  }

  lemma TouchLength<V(!new)>(c: Cache<V>, key: string)
    requires Inv(c) && Lookup(c.entries, key).Some?
    ensures |Touch(c, Lookup(c.entries, key).value).entries| == |c.entries|
  {
    var e := Lookup(c.entries, key).value;
    var i := IndexOf(c.entries, key);
    ReplaceAt(c.entries, i, e.(accessed := c.sequence + 1, accessCount := e.accessCount + 1));
  }

  lemma MortalBeforeRoom<V(!new)>(c: Cache<V>, key: string, size: nat, tenth: nat)
    requires Inv(c) && Mortal(c.entries)
    ensures Mortal(MakeRoom(c, size, tenth).entries) && Mortal(BeforeRoom(c, key, size, tenth).entries)
    ensures !Jammed(BeforeRoom(c, key, size, tenth))
  {
    MortalRemoveAll(c, Victims(c, tenth));
    RemoveAllKeeps(c, Victims(c, tenth));
    var c1 := MakeRoom(c, size, tenth);
    RemoveKeeps(c1, key);
    MortalSubset(c1.entries, {key});
    var c2 := RemoveEntry(c1, key);
    if c2.entries != [] {
      assert c2.entries[0].ttl > 0;
      assert Candidates(TTL, c2.entries) != [];
    }
  }

  lemma MortalSet<V(!new)>(c: Cache<V>, key: string, value: V, size: nat, ttl: Option<int>, now: int, tenth: nat)
    requires Inv(c) && Mortal(c.entries) && (if ttl.Some? then ttl.value else c.config.defaultTtl) > 0
    ensures Mortal(Set(c, key, value, size, ttl, now, tenth).0.entries)
  {
    MortalBeforeRoom(c, key, size, tenth);
    AcceptedKeepsConfig(c, key, size, tenth);
    var c2 := BeforeRoom(c, key, size, tenth);
    MortalRemoveAll(c2, Victims(c2, 1));
  }

  ghost predicate Within<V>(c: Cache<V>) {
    Inv(c) && |c.entries| <= Capacity(c.config) && (c.config.strategy.TTL? ==> Mortal(c.entries))
  }

  lemma StepFits<V(!new)>(c: Cache<V>, t: Timed<V>)
    requires Within(c) && c.config.memoryLimit >= 0 && (c.config.strategy.TTL? ==> Finite(c.config, t.op))
    ensures Within(Step(c, t))
  {
    StepKeeps(c, t);
    match t.op
    case DoGet(k) => FitsRemove(c, k); FitsTouch(c, k);
    case DoHas(k) => FitsRemove(c, k);
    case DoSet(k, v, size, ttl, tenth) =>
      SetFits(c, k, v, size, ttl, t.now, tenth);
      if c.config.strategy.TTL? {
        MortalSet(c, k, v, size, ttl, t.now, tenth);
        MortalBeforeRoom(c, k, size, tenth);
      } else {
        AcceptedKeepsConfig(c, k, size, tenth);
      }
    case DoDelete(k) => FitsRemove(c, k);
    case DoClear =>
    case DoCollect =>
      RemoveAllShrinks(c, ExpiredOf(c.entries, t.now));
      if c.config.strategy.TTL? {
        MortalRemoveAll(c, ExpiredOf(c.entries, t.now));
      }
  }

  lemma FitsRemove<V(!new)>(c: Cache<V>, k: string)
    requires Within(c)
    ensures Within(RemoveEntry(c, k))
  {
    RemoveKeeps(c, k);
    if c.config.strategy.TTL? {
      MortalSubset(c.entries, {k});
    }
  }

  lemma FitsTouch<V(!new)>(c: Cache<V>, k: string)
    requires Within(c)
    ensures Lookup(c.entries, k).Some? ==> Within(Touch(c, Lookup(c.entries, k).value))
  {
    if Lookup(c.entries, k).Some? {
      TouchKeeps(c, k);
      TouchLength(c, k);
      if c.config.strategy.TTL? {
        MortalTouch(c, k);
      }
    }
  }

  /** In every run of LRU, LFU or FIFO, and of TTL when every lifetime is positive, the
      cache never holds more than its capacity. */
  lemma {:induction false} RunFits<V(!new)>(config: Config, ops: seq<Timed<V>>)
    requires config.memoryLimit >= 0
    requires config.strategy.TTL? ==> forall i | 0 <= i < |ops| :: Finite(config, ops[i].op)
    ensures |Run(config, ops).entries| <= Capacity(config)
    ensures Within(Run(config, ops))
  {
    RunKeeps(config, ops);
    if ops != [] {
      var n := |ops| - 1;
      RunKeeps(config, ops[..n]);
      RunFits(config, ops[..n]);
      StepFits(Run(config, ops[..n]), ops[n]);
    }
  }

  // ---- Which value a hit returns ----

  datatype Stored<V> = Stored(value: V, ttl: int, created: int, uses: int)

  /** The plain map the cache stands for: only a successful set, a delete or a clear
      changes what it holds, and each hit counts as a use. Eviction, expiry and collection
      do nothing to it. */
  function Reference<V>(config: Config, ops: seq<Timed<V>>): map<string, Stored<V>> {
    if ops == [] then map[]
    else
      var n := |ops| - 1;
      var m := Reference(config, ops[..n]);
      match ops[n].op
      case DoSet(k, v, size, ttl, tenth) =>
        if Set(Run(config, ops[..n]), k, v, size, ttl, ops[n].now, tenth).1
        then m[k := Stored(v, if ttl.Some? then ttl.value else config.defaultTtl, ops[n].now, 1)] else m
      case DoGet(k) =>
        if Get(Run(config, ops[..n]), k, ops[n].now).1.Some? && k in m then Used(m, k) else m
      case DoDelete(k) => m - {k}
      case DoClear => map[]
      case _ => m
  }

  function Used<V>(m: map<string, Stored<V>>, key: string): map<string, Stored<V>>
    requires key in m
  {
    m[key := m[key].(uses := m[key].uses + 1)]
  }

  ghost predicate AgreesAt<V>(e: Entry<V>, m: map<string, Stored<V>>) {
    e.key in m && m[e.key] == Stored(e.value, e.ttl, e.created, e.accessCount)
  }

  ghost predicate Agrees<V>(es: seq<Entry<V>>, m: map<string, Stored<V>>) {
    forall i | 0 <= i < |es| :: AgreesAt(es[i], m)
  }

  lemma AgreesWithout<V(!new)>(es: seq<Entry<V>>, keys: set<string>, m: map<string, Stored<V>>)
    requires Agrees(es, m)
    ensures Agrees(Without(es, keys), m - keys) && Agrees(Without(es, keys), m)
  {
    WithoutMembers(es, keys);
    Elements(Without(es, keys), es);
    var w := Without(es, keys);
    forall i | 0 <= i < |w|
      ensures w[i].key !in keys
    {
      assert w[i] in w;
    }
  }

  lemma AgreesRemoveAll<V(!new)>(c: Cache<V>, victims: seq<Entry<V>>, m: map<string, Stored<V>>)
    requires Inv(c) && Agrees(c.entries, m)
    ensures Agrees(RemoveAll(c, victims).entries, m)
  {
    RemoveAllKeeps(c, victims);
    AgreesWithout(c.entries, Keys(victims), m);
  }

  lemma AgreesRemove<V(!new)>(c: Cache<V>, key: string, m: map<string, Stored<V>>)
    requires Inv(c) && Agrees(c.entries, m)
    ensures Agrees(RemoveEntry(c, key).entries, m) && Agrees(RemoveEntry(c, key).entries, m - {key})
  {
    RemoveKeeps(c, key);
    AgreesWithout(c.entries, {key}, m);
  }

  lemma AgreesTouch<V(!new)>(c: Cache<V>, key: string, m: map<string, Stored<V>>)
    requires Inv(c) && Agrees(c.entries, m) && Lookup(c.entries, key).Some?
    ensures key in m && Agrees(Touch(c, Lookup(c.entries, key).value).entries, Used(m, key))
  {
    var e := Lookup(c.entries, key).value;
    var i := IndexOf(c.entries, key);
    var e' := e.(accessed := c.sequence + 1, accessCount := e.accessCount + 1);
    ReplaceAt(c.entries, i, e');
    assert AgreesAt(c.entries[i], m);
    var w := c.entries[i := e'];
    forall j | 0 <= j < |w|
      ensures AgreesAt(w[j], Used(m, key))
    {
      assert AgreesAt(c.entries[j], m);
    }
  }

  lemma AgreesAppend<V(!new)>(c: Cache<V>, key: string, value: V, size: nat, ttl: int, now: int, m: map<string, Stored<V>>)
    requires Inv(c) && key !in Keys(c.entries) && Agrees(c.entries, m)
    ensures Agrees(Append(c, key, value, size, ttl, now).entries, m[key := Stored(value, ttl, now, 1)])
  {
    var c' := Append(c, key, value, size, ttl, now);
    var m' := m[key := Stored(value, ttl, now, 1)];
    forall j | 0 <= j < |c'.entries|
      ensures AgreesAt(c'.entries[j], m')
    {
      if j < |c.entries| {
        assert AgreesAt(c.entries[j], m);
        assert c.entries[j].key in Keys(c.entries);
      }
    }
  }

  lemma AgreesSet<V(!new)>(c: Cache<V>, key: string, value: V, size: nat, ttl: Option<int>, now: int, tenth: nat,
                           m: map<string, Stored<V>>)
    requires Inv(c) && Agrees(c.entries, m)
    ensures var (c', ok) := Set(c, key, value, size, ttl, now, tenth);
            Agrees(c'.entries, if ok then m[key := Stored(value, if ttl.Some? then ttl.value else c.config.defaultTtl, now, 1)] else m)
  {
    AgreesRemoveAll(c, Victims(c, tenth), m);
    AcceptedKeepsConfig(c, key, size, tenth);
    RemoveAllKeeps(c, Victims(c, tenth));
    var c1 := MakeRoom(c, size, tenth);
    AgreesRemove(c1, key, m);
    RemovedKey(c1, key);
    var c2 := BeforeRoom(c, key, size, tenth);
    AgreesRemoveAll(c2, Victims(c2, 1), m);
    StillRemoved(c2, Victims(c2, 1), key);
    var c3 := if |c2.entries| >= c2.config.maxSize then Evict(c2, 1) else c2;
    AgreesAppend(c3, key, value, size, if ttl.Some? then ttl.value else c.config.defaultTtl, now, m);
  }

  lemma StillRemoved<V(!new)>(c: Cache<V>, victims: seq<Entry<V>>, key: string)
    requires Inv(c) && key !in Keys(c.entries)
    ensures Inv(RemoveAll(c, victims)) && key !in Keys(RemoveAll(c, victims).entries)
  {
    RemoveAllKeeps(c, victims);
    WithoutMembers(c.entries, Keys(victims));
    KeysOf(c.entries, key);
    KeysOf(RemoveAll(c, victims).entries, key);
  }

  lemma StepAgrees<V(!new)>(c: Cache<V>, t: Timed<V>, m: map<string, Stored<V>>)
    requires Inv(c) && Agrees(c.entries, m)
    ensures match t.op
            case DoSet(_, _, _, _, _) => true
            case DoGet(k) =>
              if Get(c, k, t.now).1.Some? then k in m && Agrees(Step(c, t).entries, Used(m, k))
              else Agrees(Step(c, t).entries, m)
            case DoDelete(k) => Agrees(Step(c, t).entries, m - {k})
            case DoClear => Agrees(Step(c, t).entries, map[])
            case _ => Agrees(Step(c, t).entries, m)
  {
    match t.op
    case DoGet(k) =>
      AgreesRemove(c, k, m);
      if Lookup(c.entries, k).Some? {
        AgreesTouch(c, k, m);
      }
    case DoHas(k) => AgreesRemove(c, k, m);
    case DoSet(k, v, size, ttl, tenth) =>
    case DoDelete(k) => AgreesRemove(c, k, m);
    case DoClear =>
    case DoCollect => AgreesRemoveAll(c, ExpiredOf(c.entries, t.now), m);
  }

  lemma {:induction false} RunAgrees<V(!new)>(config: Config, ops: seq<Timed<V>>)
    requires config.memoryLimit >= 0
    ensures Agrees(Run(config, ops).entries, Reference(config, ops))
  {
    if ops != [] {
      var n := |ops| - 1;
      RunKeeps(config, ops[..n]);
      RunAgrees(config, ops[..n]);
      var c := Run(config, ops[..n]);
      var m := Reference(config, ops[..n]);
      match ops[n].op
      case DoSet(k, v, size, ttl, tenth) => AgreesSet(c, k, v, size, ttl, ops[n].now, tenth, m);
      case _ => StepAgrees(c, ops[n], m);
    }
  }

  /** In every run a hit returns the last value successfully set for its key, neither
      deleted nor cleared since, and not expired. */
  lemma HitIsLastSet<V(!new)>(config: Config, ops: seq<Timed<V>>, key: string, now: int)
    requires config.memoryLimit >= 0
    requires Get(Run(config, ops), key, now).1.Some?
    ensures key in Reference(config, ops)
    ensures var s := Reference(config, ops)[key];
            Get(Run(config, ops), key, now).1 == Some(s.value) && !(s.ttl > 0 && now > s.created + s.ttl * 1000)
  {
    RunKeeps(config, ops);
    RunAgrees(config, ops);
    var c := Run(config, ops);
    var i := IndexOf(c.entries, key);
    assert AgreesAt(c.entries[i], Reference(config, ops));
  }

  /** Over every run LFU evicts no entry used more often, since its last set, than one it
      keeps, and FIFO none set later. */
  lemma EvictsByHistory<V(!new)>(config: Config, ops: seq<Timed<V>>, count: nat, gone: Entry<V>, kept: Entry<V>)
    requires config.memoryLimit >= 0 && (config.strategy.LFU? || config.strategy.FIFO?)
    requires var c := Run(config, ops);
             && gone in c.entries && gone !in Evict(c, count).entries
             && kept in c.entries && kept in Evict(c, count).entries
    ensures var m := Reference(config, ops);
            && gone.key in m && kept.key in m
            && (config.strategy.LFU? ==> m[gone.key].uses <= m[kept.key].uses)
            && (config.strategy.FIFO? ==> m[gone.key].created <= m[kept.key].created)
  {
    RunKeeps(config, ops);
    RunAgrees(config, ops);
    var c := Run(config, ops);
    var i :| 0 <= i < |c.entries| && c.entries[i] == gone;
    var j :| 0 <= j < |c.entries| && c.entries[j] == kept;
    assert AgreesAt(c.entries[i], Reference(config, ops)) && AgreesAt(c.entries[j], Reference(config, ops));
    EvictTakesLeast(c, count, gone, kept);
  }

  /** A set refused for memory leaves no trace in the reference map, and the old value stays
      readable unless the eviction before the refusal took it. */
  lemma RefusedSetKeepsOld<V(!new)>(c: Cache<V>, key: string, value: V, size: nat, ttl: Option<int>, now: int, tenth: nat, at: int)
    requires Inv(c) && !Set(c, key, value, size, ttl, now, tenth).1
    ensures var c' := Set(c, key, value, size, ttl, now, tenth).0;
            Get(c', key, at).1 == (if key in Keys(c'.entries) then Get(c, key, at).1 else None)
  {
    SetKeeps(c, key, value, size, ttl, now, tenth);
    RemoveAllKeeps(c, Victims(c, tenth));
    var c' := Set(c, key, value, size, ttl, now, tenth).0;
    LookupFinds(c'.entries, key);
    if key in Keys(c'.entries) && c.config.enabled {
      LookupKept(c, Keys(Victims(c, tenth)), c', key);
    }
  }

  lemma LookupKept<V(!new)>(c: Cache<V>, keys: set<string>, c': Cache<V>, key: string)
    requires Inv(c) && Inv(c') && (c'.entries == Without(c.entries, keys) || c' == c)
    requires key in Keys(c'.entries)
    ensures Lookup(c'.entries, key) == Lookup(c.entries, key)
  {
    LookupFinds(c'.entries, key);
    WithoutMembers(c.entries, keys);
    var e := Lookup(c'.entries, key).value;
    assert e in c.entries;
    var i :| 0 <= i < |c.entries| && c.entries[i] == e;
    LookupUnique(c.entries, i);
  }

  // ---- Collection is invisible ----

  lemma LookupCollected<V(!new)>(c: Cache<V>, now: int, key: string)
    requires Inv(c)
    ensures var e := Lookup(c.entries, key);
            Lookup(Collect(c, now).entries, key) == if e.Some? && !IsExpired(e.value, now) then e else None
  {
    var keys := Keys(ExpiredOf(c.entries, now));
    var c' := Collect(c, now);
    RemoveAllKeeps(c, ExpiredOf(c.entries, now));
    ExpiredExactly(c.entries, now);
    WithoutMembers(c.entries, keys);
    LookupFinds(c.entries, key);
    LookupFinds(c'.entries, key);
    if key in Keys(c'.entries) {
      StaysUncollected(c, c', keys, key);
      LookupKept(c, keys, c', key);
    } else if Lookup(c.entries, key).Some? {
      KeysOf(c'.entries, key);
    }
  }

  lemma StaysUncollected<V(!new)>(c: Cache<V>, c': Cache<V>, keys: set<string>, key: string)
    requires c'.entries == Without(c.entries, keys) && key in Keys(c'.entries)
    ensures key !in keys && key in Keys(c.entries)
  {
    WithoutMembers(c.entries, keys);
    KeysOf(c'.entries, key);
    KeysOf(c.entries, key);
  }

  /** Collecting changes what a lookup sees exactly when the lookup is made at a time
      before the entry expired: never at the time of collection or after. */
  lemma CollectInvisible<V(!new)>(c: Cache<V>, now: int, key: string, later: int)
    requires Inv(c)
    ensures Get(Collect(c, now), key, later).1 == Get(c, key, later).1
            <==> !(c.config.enabled && Lookup(c.entries, key).Some?
                   && IsExpired(Lookup(c.entries, key).value, now) && !IsExpired(Lookup(c.entries, key).value, later))
    ensures later >= now ==> Get(Collect(c, now), key, later).1 == Get(c, key, later).1
  {
    LookupCollected(c, now, key);
    RemoveAllConfig(c, ExpiredOf(c.entries, now));
  }

  // ---- What a set and a deletion are for ----

  lemma {:induction false} LookupSnoc<V(!new)>(es: seq<Entry<V>>, e: Entry<V>)
    requires e.key !in Keys(es)
    ensures Lookup(es + [e], e.key) == Some(e)
  {
    if es == [] {
      assert [e][0] == e;
    } else {
      assert es[0].key in Keys(es);
      assert (es + [e])[1..] == es[1..] + [e];
      forall i | 0 <= i < |es[1..]|
        ensures es[1..][i].key != e.key
      {
        assert es[i + 1].key in Keys(es);
      }
      LookupSnoc(es[1..], e);
    }
  }

  /** Under every strategy a value that fits is stored, and a lookup that is not too late finds it. */
  lemma SetIsFound<V(!new)>(c: Cache<V>, key: string, value: V, size: nat, ttl: Option<int>, now: int, tenth: nat, at: int)
    requires Inv(c) && c.config.enabled && c.memory + size <= c.config.memoryLimit
    ensures var (c', ok) := Set(c, key, value, size, ttl, now, tenth);
            var lifetime := if ttl.Some? then ttl.value else c.config.defaultTtl;
            && ok
            && Get(c', key, at).1 == if lifetime > 0 && at > now + lifetime * 1000 then None else Some(value)
  {
    var c2 := RemoveEntry(c, key);
    RemovedKey(c, key);
    RemoveKeeps(c, key);
    StillRemoved(c2, Victims(c2, 1), key);
    var c3 := if |c2.entries| >= c2.config.maxSize then Evict(c2, 1) else c2;
    var e := Entry(key, value, if ttl.Some? then ttl.value else c.config.defaultTtl, now, c3.sequence + 1, 1, size);
    LookupSnoc(c3.entries, e);
    SetConfig(c, key, value, size, ttl, now, tenth);
  }

  lemma {:induction false} LookupWithout<V(!new)>(es: seq<Entry<V>>, keys: set<string>, key: string)
    ensures Lookup(Without(es, keys), key) == if key in keys then None else Lookup(es, key)
  {
    if es != [] {
      LookupWithout(es[1..], keys, key);
      if es[0].key !in keys {
        assert ([es[0]] + Without(es[1..], keys))[1..] == Without(es[1..], keys);
      } else {
        assert [] + Without(es[1..], keys) == Without(es[1..], keys);
      }
    }
  }

  /** A deletion forgets its key and no other. */
  lemma DeletedIsGone<V(!new)>(c: Cache<V>, key: string, other: string, at: int)
    requires other != key
    ensures Get(Delete(c, key), key, at).1 == None
    ensures Get(Delete(c, key), other, at).1 == Get(c, other, at).1
  {
    LookupWithout(c.entries, {key}, key);
    LookupWithout(c.entries, {key}, other);
  }

  /** Has is whether get would hit. */
  lemma HasIsGet<V(!new)>(c: Cache<V>, key: string, now: int)
    ensures Has(c, key, now).1 <==> Get(c, key, now).1.Some?
  {
  }
}
