/** The validation cache as a value. The insertion-ordered JavaScript Map of entries is
    a sequence; the two tracking maps and the memory counter are kept beside it as the
    program keeps them. Hashed keys are opaque; an entry's size in bytes and the number
    of entries that ten per cent of the cache rounds up to are inputs. */
module CacheSpec {
  import opened Wrappers

  datatype Strategy = LRU | LFU | FIFO | TTL | Unknown

  datatype Config = Config(enabled: bool, defaultTtl: int, maxSize: int, strategy: Strategy, memoryLimit: int)

  datatype Entry<V> = Entry(key: string, value: V, ttl: int, created: int,
                            accessed: int, accessCount: int, size: nat)

  datatype Cache<V> = Cache(config: Config, entries: seq<Entry<V>>, order: map<string, int>,
                            counts: map<string, int>, memory: int, sequence: int)

  function Empty<V>(config: Config): Cache<V> {
    Cache(config, [], map[], map[], 0, 0)
  }

  // ---- Entries ----

  predicate IsExpired<V>(e: Entry<V>, now: int) {
    e.ttl > 0 && now > e.created + e.ttl * 1000
  }

  function Lookup<V>(es: seq<Entry<V>>, key: string): Option<Entry<V>> {
    if es == [] then None
    else if es[0].key == key then Some(es[0])
    else Lookup(es[1..], key)
  }

  function Without<V>(es: seq<Entry<V>>, keys: set<string>): seq<Entry<V>> {
    if es == [] then []
    else (if es[0].key in keys then [] else [es[0]]) + Without(es[1..], keys)
  }

  function Keys<V>(es: seq<Entry<V>>): set<string> {
    set i | 0 <= i < |es| :: es[i].key
  }

  function Total<V>(es: seq<Entry<V>>): nat {
    if es == [] then 0 else es[0].size + Total(es[1..])
  }

  function Replace<V>(es: seq<Entry<V>>, e: Entry<V>): seq<Entry<V>> {
    if es == [] then []
    else if es[0].key == e.key then [e] + es[1..]
    else [es[0]] + Replace(es[1..], e)
  }

  // ---- Eviction order: a stable sort ----

  function Rank<V>(st: Strategy, e: Entry<V>): int {
    match st
    case LFU => e.accessCount
    case FIFO => e.created
    case TTL => e.created + e.ttl * 1000
    case _ => e.accessed
  }

  /** Behind every entry of no greater rank. */
  function Insert<V>(st: Strategy, sorted: seq<Entry<V>>, e: Entry<V>): seq<Entry<V>> {
    if sorted == [] then [e]
    else
      var n := |sorted| - 1;
      if Rank(st, e) < Rank(st, sorted[n]) then Insert(st, sorted[..n], e) + [sorted[n]] else sorted + [e]
  }

  function Sort<V>(st: Strategy, es: seq<Entry<V>>): seq<Entry<V>> {
    if es == [] then [] else Insert(st, Sort(st, es[..|es| - 1]), es[|es| - 1])
  }

  /** Under TTL only entries that can expire are candidates. */
  function Candidates<V>(st: Strategy, es: seq<Entry<V>>): seq<Entry<V>> {
    if es == [] then []
    else (if st.TTL? && es[0].ttl <= 0 then [] else [es[0]]) + Candidates(st, es[1..])
  }

  function Take<T>(s: seq<T>, n: nat): seq<T> {
    if n <= |s| then s[..n] else s
  }

  function Drop<T>(s: seq<T>, n: nat): seq<T> {
    if n <= |s| then s[n..] else []
  }

  function Victims<V>(c: Cache<V>, count: nat): seq<Entry<V>> {
    Take(Sort(c.config.strategy, Candidates(c.config.strategy, c.entries)), count)
  }

  // ---- Operations ----

  function RemoveEntry<V>(c: Cache<V>, key: string): Cache<V> {
    match Lookup(c.entries, key)
    case None => c
    case Some(e) =>
      c.(entries := Without(c.entries, {key}), order := c.order - {key}, counts := c.counts - {key},
         memory := c.memory - e.size)
  }

  function RemoveAll<V>(c: Cache<V>, victims: seq<Entry<V>>): Cache<V> {
    if victims == [] then c
    else RemoveEntry(RemoveAll(c, victims[..|victims| - 1]), victims[|victims| - 1].key)
  }

  function Evict<V>(c: Cache<V>, count: nat): Cache<V> {
    RemoveAll(c, Victims(c, count))
  }

  function Touch<V>(c: Cache<V>, e: Entry<V>): Cache<V> {
    var e' := e.(accessed := c.sequence + 1, accessCount := e.accessCount + 1);
    c.(entries := Replace(c.entries, e'), order := c.order[e.key := e'.accessed],
       counts := c.counts[e.key := e'.accessCount], sequence := c.sequence + 1)
  }

  function Get<V>(c: Cache<V>, key: string, now: int): (Cache<V>, Option<V>) {
    if !c.config.enabled then (c, None)
    else
      match Lookup(c.entries, key)
      case None => (c, None)
      case Some(e) => if IsExpired(e, now) then (RemoveEntry(c, key), None) else (Touch(c, e), Some(e.value))
  }

  function Has<V>(c: Cache<V>, key: string, now: int): (Cache<V>, bool) {
    if !c.config.enabled then (c, false)
    else
      match Lookup(c.entries, key)
      case None => (c, false)
      case Some(e) => if IsExpired(e, now) then (RemoveEntry(c, key), false) else (c, true)
  }

  /** Over the limit, `tenth` entries are evicted once; the second check decides. */
  function MakeRoom<V>(c: Cache<V>, size: nat, tenth: nat): Cache<V> {
    if c.memory + size > c.config.memoryLimit then Evict(c, tenth) else c
  }

  function Append<V>(c: Cache<V>, key: string, value: V, size: nat, ttl: int, now: int): Cache<V> {
    var e := Entry(key, value, ttl, now, c.sequence + 1, 1, size);
    c.(entries := c.entries + [e], order := c.order[key := e.accessed], counts := c.counts[key := 1],
       memory := c.memory + size, sequence := c.sequence + 1)
  }

  function Set<V>(c: Cache<V>, key: string, value: V, size: nat, ttl: Option<int>, now: int, tenth: nat): (Cache<V>, bool) {
    if !c.config.enabled then (c, false)
    else
      var c1 := MakeRoom(c, size, tenth);
      if c1.memory + size > c1.config.memoryLimit then (c1, false)
      else
        var c2 := RemoveEntry(c1, key);
        var c3 := if |c2.entries| >= c2.config.maxSize then Evict(c2, 1) else c2;
        (Append(c3, key, value, size, if ttl.Some? then ttl.value else c.config.defaultTtl, now), true)
  }

  function Delete<V>(c: Cache<V>, key: string): Cache<V> {
    RemoveEntry(c, key)
  }

  function Clear<V>(c: Cache<V>): Cache<V> {
    c.(entries := [], order := map[], counts := map[], memory := 0)
  }

  function ExpiredOf<V>(es: seq<Entry<V>>, now: int): seq<Entry<V>> {
    if es == [] then [] else (if IsExpired(es[0], now) then [es[0]] else []) + ExpiredOf(es[1..], now)
  }

  function Collect<V>(c: Cache<V>, now: int): Cache<V> {
    RemoveAll(c, ExpiredOf(c.entries, now))
  }

  // ---- Invariant ----

  predicate UniqueKeys<V>(es: seq<Entry<V>>) {
    forall i, j | 0 <= i < j < |es| :: es[i].key != es[j].key
  }

  predicate Tracked<V>(c: Cache<V>, i: nat)
    requires i < |c.entries|
  {
    var e := c.entries[i];
    && e.key in c.order && c.order[e.key] == e.accessed
    && e.key in c.counts && c.counts[e.key] == e.accessCount
    && e.accessed <= c.sequence
  }

  predicate AllTracked<V>(c: Cache<V>) {
    forall i | 0 <= i < |c.entries| :: Tracked(c, i)
  }

  predicate DistinctAccess<V>(es: seq<Entry<V>>) {
    forall i, j | 0 <= i < j < |es| :: es[i].accessed != es[j].accessed
  }

  /** The three maps share one key set and agree; the counter is the sum of the sizes
      and within the limit; access stamps are distinct. */
  ghost predicate Inv<V>(c: Cache<V>) {
    && UniqueKeys(c.entries) && DistinctAccess(c.entries)
    && c.order.Keys == Keys(c.entries) && c.counts.Keys == Keys(c.entries)
    && AllTracked(c)
    && c.memory == Total(c.entries) <= c.config.memoryLimit
  }

  // ---- Sequences of entries ----

  lemma {:induction false} LookupFinds<V(!new)>(es: seq<Entry<V>>, key: string)
    ensures Lookup(es, key).Some? <==> key in Keys(es)
    ensures Lookup(es, key).Some? ==> Lookup(es, key).value in es && Lookup(es, key).value.key == key
  {
    if es != [] {
      LookupFinds(es[1..], key);
      assert forall i | 1 <= i < |es| :: es[i] == es[1..][i - 1];
      if es[0].key != key && key in Keys(es) {
        var i :| 0 <= i < |es| && es[i].key == key;
        assert es[1..][i - 1].key == key;
      }
    }
  }

  lemma {:induction false} LookupUnique<V(!new)>(es: seq<Entry<V>>, i: nat)
    requires UniqueKeys(es) && i < |es|
    ensures Lookup(es, es[i].key) == Some(es[i])
  {
    if i > 0 {
      LookupUnique(es[1..], i - 1);
    }
  }

  lemma {:induction false} WithoutMembers<V(!new)>(es: seq<Entry<V>>, keys: set<string>)
    ensures forall e :: e in Without(es, keys) <==> e in es && e.key !in keys
  {
    if es != [] {
      WithoutMembers(es[1..], keys);
      assert es == [es[0]] + es[1..];
    }
  }

  lemma {:induction false} WithoutNothing<V(!new)>(es: seq<Entry<V>>, keys: set<string>)
    requires forall i | 0 <= i < |es| :: es[i].key !in keys
    ensures Without(es, keys) == es
  {
    if es != [] {
      WithoutNothing(es[1..], keys);
    }
  }

  lemma {:induction false} WithoutTwice<V(!new)>(es: seq<Entry<V>>, a: set<string>, b: set<string>)
    ensures Without(Without(es, a), b) == Without(es, a + b)
  {
    if es != [] {
      var w := Without(es[1..], a);
      WithoutTwice(es[1..], a, b);
      if es[0].key in a {
        assert [] + w == w;
      } else {
        assert ([es[0]] + w)[1..] == w;
      }
    }
  }

  /** With distinct keys, one key stands at one place. */
  lemma {:induction false} WithoutAt<V(!new)>(es: seq<Entry<V>>, i: nat)
    requires UniqueKeys(es) && i < |es|
    ensures Without(es, {es[i].key}) == es[..i] + es[i + 1..]
    ensures Total(es[..i] + es[i + 1..]) == Total(es) - es[i].size
  {
    var rest := es[1..];
    if i == 0 {
      WithoutNothing(rest, {es[0].key});
      assert es[..0] + es[1..] == rest;
      assert [] + rest == rest;
    } else {
      WithoutAt(rest, i - 1);
      var w := rest[..i - 1] + rest[i..];
      assert es[..i] + es[i + 1..] == [es[0]] + w;
      assert ([es[0]] + w)[1..] == w;
    }
  }

  lemma {:induction false} TotalAppend<V(!new)>(es: seq<Entry<V>>, e: Entry<V>)
    ensures Total(es + [e]) == Total(es) + e.size
  {
    if es == [] {
      assert [e][1..] == [];
    } else {
      TotalAppend(es[1..], e);
      assert (es + [e])[1..] == es[1..] + [e];
    }
  }

  lemma {:induction false} ReplaceAt<V(!new)>(es: seq<Entry<V>>, i: nat, e: Entry<V>)
    requires UniqueKeys(es) && i < |es| && es[i].key == e.key
    ensures Replace(es, e) == es[i := e]
  {
    if i > 0 {
      ReplaceAt(es[1..], i - 1, e);
    }
  }

  lemma {:induction false} TotalReplace<V(!new)>(es: seq<Entry<V>>, i: nat, e: Entry<V>)
    requires i < |es| && es[i].size == e.size
    ensures Total(es[i := e]) == Total(es)
  {
    if i == 0 {
      assert es[0 := e][1..] == es[1..];
    } else {
      TotalReplace(es[1..], i - 1, e);
      assert es[i := e][1..] == es[1..][i - 1 := e];
    }
  }

  lemma IndexOf<V(!new)>(es: seq<Entry<V>>, key: string) returns (i: nat)
    requires Lookup(es, key).Some? && UniqueKeys(es)
    ensures i < |es| && es[i].key == key && es[i] == Lookup(es, key).value
  {
    LookupFinds(es, key);
    i :| 0 <= i < |es| && es[i] == Lookup(es, key).value;
  }

  // ---- Each operation keeps the invariant ----

  lemma KeysWithoutAt<V(!new)>(es: seq<Entry<V>>, i: nat)
    requires UniqueKeys(es) && i < |es|
    ensures Keys(es[..i] + es[i + 1..]) == Keys(es) - {es[i].key}
  {
    var w := es[..i] + es[i + 1..];
    forall k
      ensures k in Keys(w) <==> k in Keys(es) && k != es[i].key
    {
      if k in Keys(w) {
        var j :| 0 <= j < |w| && w[j].key == k;
        assert w[j] == es[if j < i then j else j + 1];
      }
      if k in Keys(es) && k != es[i].key {
        var j :| 0 <= j < |es| && es[j].key == k;
        assert es[j] == w[if j < i then j else j - 1];
      }
    }
  }

  lemma TrackedWithoutAt<V(!new)>(c: Cache<V>, c': Cache<V>, i: nat)
    requires UniqueKeys(c.entries) && i < |c.entries| && AllTracked(c)
    requires c'.entries == c.entries[..i] + c.entries[i + 1..] && c'.sequence == c.sequence
    requires c'.order == c.order - {c.entries[i].key} && c'.counts == c.counts - {c.entries[i].key}
    ensures AllTracked(c')
  {
    forall j | 0 <= j < |c'.entries|
      ensures Tracked(c', j)
    {
      var n := if j < i then j else j + 1;
      assert c'.entries[j] == c.entries[n] && Tracked(c, n);
    }
  }

  lemma DistinctWithoutAt<V(!new)>(es: seq<Entry<V>>, w: seq<Entry<V>>, i: nat)
    requires i < |es| && w == es[..i] + es[i + 1..]
    ensures UniqueKeys(es) ==> UniqueKeys(w)
    ensures DistinctAccess(es) ==> DistinctAccess(w)
  {
    assert forall j | 0 <= j < |w| :: w[j] == es[if j < i then j else j + 1];
  }

  lemma RemoveAtKeeps<V(!new)>(c: Cache<V>, c': Cache<V>, i: nat)
    requires Inv(c) && i < |c.entries|
    requires c'.entries == c.entries[..i] + c.entries[i + 1..] && c'.config == c.config && c'.sequence == c.sequence
    requires c'.order == c.order - {c.entries[i].key} && c'.counts == c.counts - {c.entries[i].key}
    requires c'.memory == c.memory - c.entries[i].size
    ensures Inv(c')
  {
    WithoutAt(c.entries, i);
    KeysWithoutAt(c.entries, i);
    TrackedWithoutAt(c, c', i);
    DistinctWithoutAt(c.entries, c'.entries, i);
  }

  lemma RemoveKeeps<V(!new)>(c: Cache<V>, key: string)
    requires Inv(c)
    ensures Inv(RemoveEntry(c, key))
    ensures RemoveEntry(c, key).entries == Without(c.entries, {key})
    ensures |RemoveEntry(c, key).entries| == |c.entries| - (if key in Keys(c.entries) then 1 else 0)
  {
    LookupFinds(c.entries, key);
    if Lookup(c.entries, key).Some? {
      var i := IndexOf(c.entries, key);
      WithoutAt(c.entries, i);
      RemoveAtKeeps(c, RemoveEntry(c, key), i);
    } else {
      assert forall i | 0 <= i < |c.entries| :: c.entries[i].key in Keys(c.entries);
      WithoutNothing(c.entries, {key});
    }
  }

  lemma KeysOf<V(!new)>(es: seq<Entry<V>>, k: string)
    ensures k in Keys(es) <==> exists e :: e in es && e.key == k
  {
    if k in Keys(es) {
      var i :| 0 <= i < |es| && es[i].key == k;
      assert es[i] in es;
    }
  }

  lemma {:induction false} RemoveAllKeeps<V(!new)>(c: Cache<V>, victims: seq<Entry<V>>)
    requires Inv(c)
    ensures var c' := RemoveAll(c, victims);
            && Inv(c') && c'.config == c.config && c'.sequence == c.sequence
            && c'.entries == Without(c.entries, Keys(victims))
            && c'.memory <= c.memory
  {
    if victims == [] {
      assert Keys(victims) == {};
      WithoutNothing(c.entries, {});
    } else {
      var n := |victims| - 1;
      RemoveAllKeeps(c, victims[..n]);
      RemoveKeeps(RemoveAll(c, victims[..n]), victims[n].key);
      KeysSnoc(victims);
      WithoutTwice(c.entries, Keys(victims[..n]), {victims[n].key});
    }
  }

  lemma KeysSnoc<V(!new)>(es: seq<Entry<V>>)
    requires es != []
    ensures Keys(es) == Keys(es[..|es| - 1]) + {es[|es| - 1].key}
  {
    var n := |es| - 1;
    forall k | k in Keys(es)
      ensures k in Keys(es[..n]) + {es[n].key}
    {
      var i :| 0 <= i < |es| && es[i].key == k;
      if i < n {
        assert es[..n][i].key == k;
      }
    }
    forall k | k in Keys(es[..n])
      ensures k in Keys(es)
    {
      var i :| 0 <= i < n && es[..n][i].key == k;
      assert es[i].key == k;
    }
  }

  lemma KeysReplaceAt<V(!new)>(es: seq<Entry<V>>, i: nat, e: Entry<V>)
    requires i < |es| && es[i].key == e.key
    ensures Keys(es[i := e]) == Keys(es)
  {
    forall k
      ensures k in Keys(es[i := e]) <==> k in Keys(es)
    {
      if k in Keys(es) {
        var j :| 0 <= j < |es| && es[j].key == k;
        assert es[i := e][j].key == k;
      }
      if k in Keys(es[i := e]) {
        var j :| 0 <= j < |es| && es[i := e][j].key == k;
        assert es[j].key == k;
      }
    }
  }

  /** Writing one entry under its own key, or a new one at the end, keeps the tracking maps in step. */
  lemma TrackedWrite<V(!new)>(c: Cache<V>, c': Cache<V>, i: nat, e: Entry<V>)
    requires UniqueKeys(c.entries) && AllTracked(c) && i <= |c.entries|
    requires i < |c.entries| ==> c.entries[i].key == e.key && c'.entries == c.entries[i := e]
    requires i == |c.entries| ==> e.key !in Keys(c.entries) && c'.entries == c.entries + [e]
    requires c'.order == c.order[e.key := e.accessed] && c'.counts == c.counts[e.key := e.accessCount]
    requires e.accessed == c'.sequence == c.sequence + 1
    ensures AllTracked(c')
  {
    forall j | 0 <= j < |c'.entries|
      ensures Tracked(c', j)
    {
      if j != i {
        assert Tracked(c, j) && c'.entries[j] == c.entries[j];
        assert c.entries[j].key in Keys(c.entries);
      }
    }
  }

  /** A new stamp is above every stamp in use. */
  lemma DistinctWrite<V(!new)>(c: Cache<V>, es: seq<Entry<V>>, i: nat, e: Entry<V>)
    requires DistinctAccess(c.entries) && AllTracked(c) && i <= |c.entries| && e.accessed == c.sequence + 1
    requires i < |c.entries| ==> es == c.entries[i := e]
    requires i == |c.entries| ==> es == c.entries + [e]
    ensures DistinctAccess(es)
  {
    assert forall j | 0 <= j < |c.entries| :: Tracked(c, j) ==> c.entries[j].accessed < e.accessed;
  }

  lemma UniqueWrite<V(!new)>(es: seq<Entry<V>>, es': seq<Entry<V>>, i: nat, e: Entry<V>)
    requires UniqueKeys(es) && i <= |es|
    requires i < |es| ==> es[i].key == e.key && es' == es[i := e]
    requires i == |es| ==> e.key !in Keys(es) && es' == es + [e]
    ensures UniqueKeys(es')
  {
    forall j, k | 0 <= j < k < |es'|
      ensures es'[j].key != es'[k].key
    {
      assert es[j].key in Keys(es);
    }
  }

  ghost predicate Writes<V>(c: Cache<V>, c': Cache<V>, i: nat, e: Entry<V>) {
    && e.accessed == c.sequence + 1
    && c'.config == c.config && c'.sequence == c.sequence + 1
    && c'.order == c.order[e.key := e.accessed] && c'.counts == c.counts[e.key := e.accessCount]
    && ((i < |c.entries| && c.entries[i].key == e.key && c.entries[i].size == e.size
         && c'.entries == c.entries[i := e] && c'.memory == c.memory)
        || (i == |c.entries| && e.key !in Keys(c.entries)
            && c'.entries == c.entries + [e] && c'.memory == c.memory + e.size))
  }

  lemma WriteKeeps<V(!new)>(c: Cache<V>, c': Cache<V>, i: nat, e: Entry<V>)
    requires Inv(c) && Writes(c, c', i, e) && c'.memory <= c.config.memoryLimit
    ensures Inv(c')
  {
    TrackedWrite(c, c', i, e);
    UniqueWrite(c.entries, c'.entries, i, e);
    DistinctWrite(c, c'.entries, i, e);
    TotalKeysWrite(c.entries, c'.entries, i, e);
  }

  lemma TotalKeysWrite<V(!new)>(es: seq<Entry<V>>, es': seq<Entry<V>>, i: nat, e: Entry<V>)
    requires i <= |es|
    requires i < |es| ==> es[i].key == e.key && es[i].size == e.size && es' == es[i := e]
    requires i == |es| ==> es' == es + [e]
    ensures Total(es') == Total(es) + (if i < |es| then 0 else e.size)
    ensures Keys(es') == Keys(es) + {e.key}
  {
    if i < |es| {
      TotalReplace(es, i, e);
      KeysReplaceAt(es, i, e);
      assert e.key in Keys(es);
    } else {
      TotalAppend(es, e);
      KeysSnoc(es');
      assert es'[..|es|] == es;
    }
  }

  lemma TouchKeeps<V(!new)>(c: Cache<V>, key: string)
    requires Inv(c) && Lookup(c.entries, key).Some?
    ensures Inv(Touch(c, Lookup(c.entries, key).value))
  {
    var e := Lookup(c.entries, key).value;
    var i := IndexOf(c.entries, key);
    var e' := e.(accessed := c.sequence + 1, accessCount := e.accessCount + 1);
    ReplaceAt(c.entries, i, e');
    WriteKeeps(c, Touch(c, e), i, e');
  }

  lemma AppendKeeps<V(!new)>(c: Cache<V>, key: string, value: V, size: nat, ttl: int, now: int)
    requires Inv(c) && key !in Keys(c.entries) && c.memory + size <= c.config.memoryLimit
    ensures Inv(Append(c, key, value, size, ttl, now))
  {
    WriteKeeps(c, Append(c, key, value, size, ttl, now), |c.entries|,
               Entry(key, value, ttl, now, c.sequence + 1, 1, size));
  }

  lemma SetKeeps<V(!new)>(c: Cache<V>, key: string, value: V, size: nat, ttl: Option<int>, now: int, tenth: nat)
    requires Inv(c)
    ensures Inv(Set(c, key, value, size, ttl, now, tenth).0)
  {
    RemoveAllKeeps(c, Victims(c, tenth));
    var c1 := MakeRoom(c, size, tenth);
    RemoveKeeps(c1, key);
    var c2 := RemoveEntry(c1, key);
    RemoveAllKeeps(c2, Victims(c2, 1));
    var c3 := if |c2.entries| >= c2.config.maxSize then Evict(c2, 1) else c2;
    if c1.memory + size <= c1.config.memoryLimit {
      RemovedKey(c1, key);
      assert key !in Keys(c3.entries) by {
        WithoutMembers(c2.entries, Keys(Victims(c2, 1)));
        KeysOf(c2.entries, key);
        KeysOf(c3.entries, key);
      }
      AppendKeeps(c3, key, value, size, if ttl.Some? then ttl.value else c.config.defaultTtl, now);
    }
  }

  lemma RemovedKey<V(!new)>(c: Cache<V>, key: string)
    requires Inv(c)
    ensures key !in Keys(RemoveEntry(c, key).entries)
    ensures RemoveEntry(c, key).memory <= c.memory
  {
    RemoveKeeps(c, key);
    WithoutMembers(c.entries, {key});
    KeysOf(RemoveEntry(c, key).entries, key);
    LookupFinds(c.entries, key);
  }

  // ---- Whole runs ----

  datatype Op<V> =
    | DoGet(key: string)
    | DoHas(key: string)
    | DoSet(key: string, value: V, size: nat, ttl: Option<int>, tenth: nat)
    | DoDelete(key: string)
    | DoClear
    | DoCollect

  datatype Timed<V> = Timed(now: int, op: Op<V>)

  function Step<V>(c: Cache<V>, t: Timed<V>): Cache<V> {
    match t.op
    case DoGet(k) => Get(c, k, t.now).0
    case DoHas(k) => Has(c, k, t.now).0
    case DoSet(k, v, size, ttl, tenth) => Set(c, k, v, size, ttl, t.now, tenth).0
    case DoDelete(k) => Delete(c, k)
    case DoClear => Clear(c)
    case DoCollect => Collect(c, t.now)
  }

  function Run<V>(config: Config, ops: seq<Timed<V>>): Cache<V> {
    if ops == [] then Empty(config) else Step(Run(config, ops[..|ops| - 1]), ops[|ops| - 1])
  }

  lemma StepKeeps<V(!new)>(c: Cache<V>, t: Timed<V>)
    requires Inv(c) && c.config.memoryLimit >= 0
    ensures Inv(Step(c, t)) && Step(c, t).config == c.config
  {
    match t.op
    case DoGet(k) =>
      RemoveKeeps(c, k);
      if Lookup(c.entries, k).Some? {
        TouchKeeps(c, k);
      }
    case DoHas(k) => RemoveKeeps(c, k);
    case DoSet(k, v, size, ttl, tenth) =>
      SetKeeps(c, k, v, size, ttl, t.now, tenth);
      SetConfig(c, k, v, size, ttl, t.now, tenth);
    case DoDelete(k) => RemoveKeeps(c, k);
    case DoClear =>
    case DoCollect => RemoveAllKeeps(c, ExpiredOf(c.entries, t.now));
  }

  lemma {:induction false} RemoveAllConfig<V(!new)>(c: Cache<V>, victims: seq<Entry<V>>)
    ensures RemoveAll(c, victims).config == c.config
  {
    if victims != [] {
      RemoveAllConfig(c, victims[..|victims| - 1]);
    }
  }

  lemma SetConfig<V(!new)>(c: Cache<V>, key: string, value: V, size: nat, ttl: Option<int>, now: int, tenth: nat)
    ensures Set(c, key, value, size, ttl, now, tenth).0.config == c.config
  {
    RemoveAllConfig(c, Victims(c, tenth));
    var c2 := RemoveEntry(MakeRoom(c, size, tenth), key);
    RemoveAllConfig(c2, Victims(c2, 1));
  }

  /** In every operation sequence the three maps share one key set, the memory counter is
      the sum of the entry sizes and stays within the limit. */
  lemma {:induction false} RunKeeps<V(!new)>(config: Config, ops: seq<Timed<V>>)
    requires config.memoryLimit >= 0
    ensures Inv(Run(config, ops)) && Run(config, ops).config == config
  {
    if ops != [] {
      RunKeeps(config, ops[..|ops| - 1]);
      StepKeeps(Run(config, ops[..|ops| - 1]), ops[|ops| - 1]);
    }
  }
}
