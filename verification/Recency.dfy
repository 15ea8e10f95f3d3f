/** Under LRU (which an unknown strategy falls back to) the three maps, the stamps and the
    counters are an implementation of one list of items, oldest use first. */
module Recency {
  import opened Wrappers
  import opened CacheSpec

  datatype Item<V> = Item(key: string, value: V, ttl: int, created: int, size: nat)

  // ---- The simple form: a list ----

  function Find<V>(l: seq<Item<V>>, key: string): Option<Item<V>> {
    if l == [] then None else if l[0].key == key then Some(l[0]) else Find(l[1..], key)
  }

  function Except<V>(l: seq<Item<V>>, key: string): seq<Item<V>> {
    if l == [] then [] else (if l[0].key == key then [] else [l[0]]) + Except(l[1..], key)
  }

  function Bytes<V>(l: seq<Item<V>>): nat {
    if l == [] then 0 else l[0].size + Bytes(l[1..])
  }

  predicate Stale<V>(x: Item<V>, now: int) {
    x.ttl > 0 && now > x.created + x.ttl * 1000
  }

  function Fresh<V>(l: seq<Item<V>>, now: int): seq<Item<V>> {
    if l == [] then [] else (if Stale(l[0], now) then [] else [l[0]]) + Fresh(l[1..], now)
  }

  /** A hit moves the item to the back. */
  function ListGet<V>(config: Config, l: seq<Item<V>>, key: string, now: int): (seq<Item<V>>, Option<V>) {
    if !config.enabled then (l, None)
    else
      match Find(l, key)
      case None => (l, None)
      case Some(x) => if Stale(x, now) then (Except(l, key), None) else (Except(l, key) + [x], Some(x.value))
  }

  function ListHas<V>(config: Config, l: seq<Item<V>>, key: string, now: int): (seq<Item<V>>, bool) {
    if !config.enabled then (l, false)
    else
      match Find(l, key)
      case None => (l, false)
      case Some(x) => if Stale(x, now) then (Except(l, key), false) else (l, true)
  }

  /** Eviction only ever drops a prefix: `tenth` items for memory, one for capacity. */
  function ListSet<V>(config: Config, l: seq<Item<V>>, x: Item<V>, tenth: nat): (seq<Item<V>>, bool) {
    if !config.enabled then (l, false)
    else
      var l1 := if Bytes(l) + x.size > config.memoryLimit then Drop(l, tenth) else l;
      if Bytes(l1) + x.size > config.memoryLimit then (l1, false)
      else
        var l2 := Except(l1, x.key);
        ((if |l2| >= config.maxSize then Drop(l2, 1) else l2) + [x], true)
  }

  function NewItem<V>(config: Config, key: string, value: V, size: nat, ttl: Option<int>, now: int): Item<V> {
    Item(key, value, if ttl.Some? then ttl.value else config.defaultTtl, now, size)
  }

  function ListStep<V>(config: Config, l: seq<Item<V>>, t: Timed<V>): seq<Item<V>> {
    match t.op
    case DoGet(k) => ListGet(config, l, k, t.now).0
    case DoHas(k) => ListHas(config, l, k, t.now).0
    case DoSet(k, v, size, ttl, tenth) => ListSet(config, l, NewItem(config, k, v, size, ttl, t.now), tenth).0
    case DoDelete(k) => Except(l, k)
    case DoClear => []
    case DoCollect => Fresh(l, t.now)
  }

  function ListRun<V>(config: Config, ops: seq<Timed<V>>): seq<Item<V>> {
    if ops == [] then [] else ListStep(config, ListRun(config, ops[..|ops| - 1]), ops[|ops| - 1])
  }

  // ---- The abstraction ----

  function ItemOf<V>(e: Entry<V>): Item<V> {
    Item(e.key, e.value, e.ttl, e.created, e.size)
  }

  function Strip<V>(es: seq<Entry<V>>): seq<Item<V>> {
    if es == [] then [] else [ItemOf(es[0])] + Strip(es[1..])
  }

  function ByUse<V>(c: Cache<V>): seq<Entry<V>> {
    Sort(LRU, c.entries)
  }

  function View<V>(c: Cache<V>): seq<Item<V>> {
    Strip(ByUse(c))
  }

  predicate UsesRecency(st: Strategy) {
    st.LRU? || st.Unknown?
  }

  // ---- Sorting ----

  predicate Sorted<V>(st: Strategy, s: seq<Entry<V>>) {
    forall i, j | 0 <= i < j < |s| :: Rank(st, s[i]) <= Rank(st, s[j])
  }

  predicate ByAccess<V>(s: seq<Entry<V>>) {
    forall i, j | 0 <= i < j < |s| :: s[i].accessed < s[j].accessed
  }

  lemma {:induction false} InsertPermutes<V(!new)>(st: Strategy, s: seq<Entry<V>>, e: Entry<V>)
    ensures multiset(Insert(st, s, e)) == multiset(s) + multiset{e}
  {
    if s != [] {
      var n := |s| - 1;
      InsertPermutes(st, s[..n], e);
      assert s == s[..n] + [s[n]];
    }
  }

  lemma {:induction false} InsertTotal<V(!new)>(st: Strategy, s: seq<Entry<V>>, e: Entry<V>)
    ensures Total(Insert(st, s, e)) == Total(s) + e.size
  {
    TotalAppend(s, e);
    if s != [] {
      var n := |s| - 1;
      InsertTotal(st, s[..n], e);
      TotalAppend(Insert(st, s[..n], e), s[n]);
      TotalAppend(s[..n], s[n]);
      assert s == s[..n] + [s[n]];
    }
  }

  lemma SortedSnoc<V(!new)>(st: Strategy, s: seq<Entry<V>>, e: Entry<V>)
    requires Sorted(st, s) && (s != [] ==> Rank(st, s[|s| - 1]) <= Rank(st, e))
    ensures Sorted(st, s + [e])
  {
    assert forall i | 0 <= i < |s| :: Rank(st, s[i]) <= Rank(st, s[|s| - 1]);
  }

  lemma {:induction false} InsertSorts<V(!new)>(st: Strategy, s: seq<Entry<V>>, e: Entry<V>)
    requires Sorted(st, s)
    ensures Sorted(st, Insert(st, s, e))
    ensures var t := Insert(st, s, e); t != [] && (t[|t| - 1] == e || (s != [] && t[|t| - 1] == s[|s| - 1]))
  {
    if s == [] {
    } else if Rank(st, e) < Rank(st, s[|s| - 1]) {
      var n := |s| - 1;
      InsertSorts(st, s[..n], e);
      SortedSnoc(st, Insert(st, s[..n], e), s[n]);
    } else {
      SortedSnoc(st, s, e);
    }
  }

  lemma {:induction false} SortPermutes<V(!new)>(st: Strategy, es: seq<Entry<V>>)
    ensures multiset(Sort(st, es)) == multiset(es)
  {
    if es != [] {
      var n := |es| - 1;
      SortPermutes(st, es[..n]);
      InsertPermutes(st, Sort(st, es[..n]), es[n]);
      assert es == es[..n] + [es[n]];
    }
  }

  lemma {:induction false} SortTotal<V(!new)>(st: Strategy, es: seq<Entry<V>>)
    ensures Total(Sort(st, es)) == Total(es)
  {
    if es != [] {
      var n := |es| - 1;
      SortTotal(st, es[..n]);
      InsertTotal(st, Sort(st, es[..n]), es[n]);
      TotalAppend(es[..n], es[n]);
      assert es == es[..n] + [es[n]];
    }
  }

  /** Sorting is a permutation into rank order, whatever the strategy. */
  lemma {:induction false} SortSorts<V(!new)>(st: Strategy, es: seq<Entry<V>>)
    ensures Sorted(st, Sort(st, es))
    ensures multiset(Sort(st, es)) == multiset(es)
    ensures |Sort(st, es)| == |es|
  {
    SortPermutes(st, es);
    assert |multiset(Sort(st, es))| == |multiset(es)|;
    if es != [] {
      SortSorts(st, es[..|es| - 1]);
      InsertSorts(st, Sort(st, es[..|es| - 1]), es[|es| - 1]);
    }
  }

  lemma SortMembers<V(!new)>(st: Strategy, es: seq<Entry<V>>)
    ensures forall e :: e in Sort(st, es) <==> e in es
  {
    SortSorts(st, es);
    forall e
      ensures e in Sort(st, es) <==> e in es
    {
      assert e in Sort(st, es) <==> e in multiset(Sort(st, es));
      assert e in es <==> e in multiset(es);
    }
  }

  lemma Elements<V(!new)>(s: seq<Entry<V>>, t: seq<Entry<V>>)
    requires forall e | e in s :: e in t
    ensures forall i | 0 <= i < |s| :: s[i] in t
  {
  }

  lemma LastOut<V(!new)>(s: seq<Entry<V>>, t: seq<Entry<V>>, n: nat, m: nat)
    requires ByAccess(s) && |s| == n + 1 && |t| == m + 1 && s[n] == t[m]
    requires forall e | e in s :: e in t
    ensures forall e | e in s[..n] :: e in t[..m]
  {
    forall e | e in s[..n]
      ensures e in t[..m]
    {
      var k :| 0 <= k < n && s[k] == e;
      assert s[k] in s && s[k].accessed < s[n].accessed;
      var q :| 0 <= q < |t| && t[q] == e;
      assert t[..m][q] == e;
    }
  }

  lemma SameLast<V(!new)>(s: seq<Entry<V>>, t: seq<Entry<V>>, n: nat, m: nat)
    requires ByAccess(s) && ByAccess(t) && |s| == n + 1 && |t| == m + 1
    requires s[n] in t && t[m] in s
    ensures s[n] == t[m]
  {
    var j :| 0 <= j < |t| && t[j] == s[n];
    var i :| 0 <= i < |s| && s[i] == t[m];
    assert t[j].accessed <= t[m].accessed && s[i].accessed <= s[n].accessed;
  }

  lemma NoneIsEmpty<V(!new)>(t: seq<Entry<V>>)
    requires forall e :: e !in t
    ensures t == []
  {
    forall e
      ensures e !in multiset(t)
    {
      assert e !in t;
    }
    assert |t| == |multiset(t)|;
  }

  /** A strictly ordered list is determined by its members. */
  lemma {:induction false} SortedUnique<V(!new)>(s: seq<Entry<V>>, t: seq<Entry<V>>)
    requires ByAccess(s) && ByAccess(t)
    requires forall e :: e in s <==> e in t
    ensures s == t
  {
    if s == [] {
      NoneIsEmpty(t);
    } else {
      assert s[0] in t;
      var n, m := |s| - 1, |t| - 1;
      assert s[n] in s && t[m] in t;
      SameLast(s, t, n, m);
      LastOut(s, t, n, m);
      LastOut(t, s, m, n);
      SortedUnique(s[..n], t[..m]);
      assert s == s[..n] + [s[n]] && t == t[..m] + [t[m]];
    }
  }

  // ---- The view of a sound cache ----

  lemma {:induction false} SortByAccess<V(!new)>(es: seq<Entry<V>>)
    requires DistinctAccess(es)
    ensures ByAccess(Sort(LRU, es))
  {
    if es != [] {
      var n := |es| - 1;
      SortByAccess(es[..n]);
      SortMembers(LRU, es[..n]);
      var s := Sort(LRU, es[..n]);
      Elements(s, es[..n]);
      InsertByAccess(s, es[n]);
    }
  }

  lemma {:induction false} InsertByAccess<V(!new)>(s: seq<Entry<V>>, e: Entry<V>)
    requires ByAccess(s) && forall i | 0 <= i < |s| :: s[i].accessed != e.accessed
    ensures ByAccess(Insert(LRU, s, e))
    ensures var t := Insert(LRU, s, e); t != [] && (t[|t| - 1] == e || (s != [] && t[|t| - 1] == s[|s| - 1]))
  {
    if s != [] {
      var n := |s| - 1;
      assert forall i | 0 <= i < n :: s[i].accessed < s[n].accessed;
      if e.accessed < s[n].accessed {
        InsertByAccess(s[..n], e);
        ByAccessSnoc(Insert(LRU, s[..n], e), s[n]);
      } else {
        ByAccessSnoc(s, e);
      }
    }
  }

  lemma ByAccessSnoc<V(!new)>(s: seq<Entry<V>>, e: Entry<V>)
    requires ByAccess(s) && (s != [] ==> s[|s| - 1].accessed < e.accessed)
    ensures ByAccess(s + [e])
  {
    assert forall i | 0 <= i < |s| :: s[i].accessed <= s[|s| - 1].accessed;
  }

  lemma UniqueByMembers<V(!new)>(es: seq<Entry<V>>, s: seq<Entry<V>>)
    requires UniqueKeys(es) && ByAccess(s) && forall e :: e in s <==> e in es
    ensures UniqueKeys(s)
  {
    forall i, j | 0 <= i < j < |s|
      ensures s[i].key != s[j].key
    {
      assert s[i] in es && s[j] in es;
      var n :| 0 <= n < |es| && es[n] == s[i];
      var m :| 0 <= m < |es| && es[m] == s[j];
      assert s[i].accessed != s[j].accessed;
    }
  }

  lemma LookupByMembers<V(!new)>(es: seq<Entry<V>>, s: seq<Entry<V>>, key: string)
    requires UniqueKeys(es) && UniqueKeys(s) && forall e :: e in s <==> e in es
    ensures Lookup(s, key) == Lookup(es, key)
  {
    LookupFinds(es, key);
    LookupFinds(s, key);
    KeysOf(es, key);
    KeysOf(s, key);
    if Lookup(es, key).Some? {
      var i :| 0 <= i < |s| && s[i] == Lookup(es, key).value;
      LookupUnique(s, i);
    }
  }

  lemma ViewFacts<V(!new)>(c: Cache<V>)
    requires Inv(c)
    ensures ByAccess(ByUse(c)) && UniqueKeys(ByUse(c))
    ensures forall e :: e in ByUse(c) <==> e in c.entries
  {
    SortByAccess(c.entries);
    SortMembers(LRU, c.entries);
    UniqueByMembers(c.entries, ByUse(c));
  }

  lemma {:induction false} WithoutByAccess<V(!new)>(s: seq<Entry<V>>, keys: set<string>)
    requires ByAccess(s)
    ensures ByAccess(Without(s, keys))
  {
    if s != [] {
      WithoutByAccess(s[1..], keys);
      WithoutMembers(s[1..], keys);
      Elements(Without(s[1..], keys), s[1..]);
    }
  }

  /** Removing from the map removes from the list. */
  lemma UseWithout<V(!new)>(c: Cache<V>, c': Cache<V>, keys: set<string>)
    requires Inv(c) && Inv(c') && c'.entries == Without(c.entries, keys)
    ensures ByUse(c') == Without(ByUse(c), keys)
  {
    ViewFacts(c);
    ViewFacts(c');
    WithoutMembers(c.entries, keys);
    WithoutMembers(ByUse(c), keys);
    WithoutByAccess(ByUse(c), keys);
    SortedUnique(ByUse(c'), Without(ByUse(c), keys));
  }

  // ---- The view and the list operations ----

  lemma {:induction false} FindStrip<V(!new)>(s: seq<Entry<V>>, key: string)
    ensures Find(Strip(s), key) == (match Lookup(s, key) case None => None case Some(e) => Some(ItemOf(e)))
  {
    if s != [] {
      FindStrip(s[1..], key);
      assert Strip(s)[1..] == Strip(s[1..]);
    }
  }

  lemma {:induction false} StripConcat<V(!new)>(s: seq<Entry<V>>, t: seq<Entry<V>>)
    ensures Strip(s + t) == Strip(s) + Strip(t)
    ensures |Strip(s)| == |s|
  {
    if s == [] {
      assert s + t == t;
    } else {
      StripConcat(s[1..], t);
      assert (s + t)[1..] == s[1..] + t;
    }
  }

  lemma {:induction false} ExceptStrip<V(!new)>(s: seq<Entry<V>>, key: string)
    ensures Except(Strip(s), key) == Strip(Without(s, {key}))
  {
    if s != [] {
      ExceptStrip(s[1..], key);
      assert Strip(s)[1..] == Strip(s[1..]);
      var w := Without(s[1..], {key});
      assert [] + w == w && ([s[0]] + w)[1..] == w;
      assert [] + Strip(w) == Strip(w);
    }
  }

  lemma {:induction false} BytesStrip<V(!new)>(s: seq<Entry<V>>)
    ensures Bytes(Strip(s)) == Total(s)
  {
    if s != [] {
      BytesStrip(s[1..]);
      assert Strip(s)[1..] == Strip(s[1..]);
    }
  }

  lemma {:induction false} FreshStrip<V(!new)>(s: seq<Entry<V>>, now: int, keys: set<string>)
    requires forall i | 0 <= i < |s| :: s[i].key in keys <==> IsExpired(s[i], now)
    ensures Fresh(Strip(s), now) == Strip(Without(s, keys))
  {
    if s != [] {
      FreshStrip(s[1..], now, keys);
      assert Strip(s)[1..] == Strip(s[1..]);
      var w := Without(s[1..], keys);
      assert [] + w == w && ([s[0]] + w)[1..] == w;
      assert [] + Strip(w) == Strip(w);
    }
  }

  lemma ViewBytes<V(!new)>(c: Cache<V>)
    requires Inv(c)
    ensures Bytes(View(c)) == c.memory && |View(c)| == |c.entries|
  {
    SortSorts(LRU, c.entries);
    SortTotal(LRU, c.entries);
    BytesStrip(ByUse(c));
    StripConcat(ByUse(c), []);
  }

  lemma ViewFind<V(!new)>(c: Cache<V>, key: string)
    requires Inv(c)
    ensures Find(View(c), key) == (match Lookup(c.entries, key) case None => None case Some(e) => Some(ItemOf(e)))
  {
    ViewFacts(c);
    LookupByMembers(c.entries, ByUse(c), key);
    FindStrip(ByUse(c), key);
  }

  lemma ViewRemove<V(!new)>(c: Cache<V>, key: string)
    requires Inv(c)
    ensures View(RemoveEntry(c, key)) == Except(View(c), key)
  {
    RemoveKeeps(c, key);
    UseWithout(c, RemoveEntry(c, key), {key});
    ExceptStrip(ByUse(c), key);
  }

  /** What stays, in order of use, with the touched entry behind it. */
  lemma TouchedOrder<V(!new)>(c: Cache<V>, e': Entry<V>)
    requires Inv(c) && e'.accessed == c.sequence + 1
    ensures var s := Without(ByUse(c), {e'.key}) + [e'];
            ByAccess(s) && forall x :: x in s <==> x == e' || (x in c.entries && x.key != e'.key)
  {
    var s := Without(ByUse(c), {e'.key});
    ViewFacts(c);
    WithoutMembers(ByUse(c), {e'.key});
    WithoutByAccess(ByUse(c), {e'.key});
    Elements(s, c.entries);
    BelowSequence(c, s);
    ByAccessSnoc(s, e');
    assert forall x :: x in s + [e'] <==> x in s || x == e';
  }

  lemma UseTouch<V(!new)>(c: Cache<V>, c': Cache<V>, i: nat, e': Entry<V>)
    requires Inv(c) && Inv(c') && i < |c.entries| && c.entries[i].key == e'.key
    requires c'.entries == c.entries[i := e'] && e'.accessed == c.sequence + 1
    ensures ByUse(c') == Without(ByUse(c), {e'.key}) + [e']
  {
    ViewFacts(c');
    TouchedOrder(c, e');
    MembersReplaceAt(c.entries, i, e');
    SortedUnique(ByUse(c'), Without(ByUse(c), {e'.key}) + [e']);
  }

  /** A touched entry leaves its place and goes to the back. */
  lemma ViewTouch<V(!new)>(c: Cache<V>, key: string)
    requires Inv(c) && Lookup(c.entries, key).Some?
    ensures var e := Lookup(c.entries, key).value;
            View(Touch(c, e)) == Except(View(c), key) + [ItemOf(e)]
  {
    var e := Lookup(c.entries, key).value;
    var i := IndexOf(c.entries, key);
    var e' := e.(accessed := c.sequence + 1, accessCount := e.accessCount + 1);
    ReplaceAt(c.entries, i, e');
    TouchKeeps(c, key);
    UseTouch(c, Touch(c, e), i, e');
    ExceptStrip(ByUse(c), key);
    StripConcat(Without(ByUse(c), {key}), [e']);
    assert Strip([e']) == [ItemOf(e')];
  }

  lemma BelowSequence<V(!new)>(c: Cache<V>, s: seq<Entry<V>>)
    requires AllTracked(c) && (s != [] ==> s[|s| - 1] in c.entries)
    ensures s != [] ==> s[|s| - 1].accessed <= c.sequence
  {
    if s != [] {
      var e := s[|s| - 1];
      assert e in s;
      var j :| 0 <= j < |c.entries| && c.entries[j] == e;
      assert Tracked(c, j);
    }
  }

  lemma MembersReplaceAt<V(!new)>(es: seq<Entry<V>>, i: nat, e': Entry<V>)
    requires UniqueKeys(es) && i < |es| && es[i].key == e'.key
    ensures forall x :: x in es[i := e'] <==> x == e' || (x in es && x.key != e'.key)
  {
    var w := es[i := e'];
    forall x
      ensures x in w <==> x == e' || (x in es && x.key != e'.key)
    {
      if x in w {
        var j :| 0 <= j < |w| && w[j] == x;
        if j != i {
          assert es[j] == x;
        }
      }
      if x == e' {
        assert w[i] == x;
      } else if x in es && x.key != e'.key {
        var j :| 0 <= j < |es| && es[j] == x;
        assert w[j] == x;
      }
    }
  }

  lemma UseAppend<V(!new)>(c: Cache<V>, e: Entry<V>)
    requires Inv(c) && e.accessed == c.sequence + 1
    ensures Sort(LRU, c.entries + [e]) == ByUse(c) + [e]
  {
    var es := c.entries + [e];
    assert es[..|es| - 1] == c.entries;
    SortMembers(LRU, c.entries);
    Elements(ByUse(c), c.entries);
    BelowSequence(c, ByUse(c));
  }

  lemma ViewAppend<V(!new)>(c: Cache<V>, key: string, value: V, size: nat, ttl: int, now: int)
    requires Inv(c)
    ensures View(Append(c, key, value, size, ttl, now)) == View(c) + [Item(key, value, ttl, now, size)]
  {
    var e := Entry(key, value, ttl, now, c.sequence + 1, 1, size);
    UseAppend(c, e);
    StripConcat(ByUse(c), [e]);
    assert Strip([e]) == [ItemOf(e)];
  }

  // ---- Eviction drops a prefix ----

  lemma {:induction false} SameOrder<V(!new)>(st: Strategy, es: seq<Entry<V>>)
    requires UsesRecency(st)
    ensures Sort(st, es) == Sort(LRU, es) && Candidates(st, es) == es
  {
    if es != [] {
      var n := |es| - 1;
      SameOrder(st, es[..n]);
      SameInsert(st, Sort(LRU, es[..n]), es[n]);
      SameCandidates(st, es);
    }
  }

  lemma {:induction false} SameCandidates<V(!new)>(st: Strategy, es: seq<Entry<V>>)
    requires !st.TTL?
    ensures Candidates(st, es) == es
  {
    if es != [] {
      SameCandidates(st, es[1..]);
    }
  }

  lemma {:induction false} SameInsert<V(!new)>(st: Strategy, s: seq<Entry<V>>, e: Entry<V>)
    requires UsesRecency(st)
    ensures Insert(st, s, e) == Insert(LRU, s, e)
  {
    if s != [] {
      SameInsert(st, s[..|s| - 1], e);
    }
  }

  lemma {:induction false} WithoutPrefix<V(!new)>(s: seq<Entry<V>>, n: nat)
    requires UniqueKeys(s) && n <= |s|
    ensures Without(s, Keys(s[..n])) == s[n..]
  {
    if n == 0 {
      assert Keys(s[..0]) == {};
      WithoutNothing(s, {});
    } else {
      WithoutPrefix(s, n - 1);
      KeysUpTo(s, n);
      WithoutTwice(s, Keys(s[..n - 1]), {s[n - 1].key});
      WithoutFirst(s[n - 1..]);
      assert s[n - 1..][1..] == s[n..];
    }
  }

  lemma KeysUpTo<V(!new)>(s: seq<Entry<V>>, n: nat)
    requires 0 < n <= |s|
    ensures Keys(s[..n]) == Keys(s[..n - 1]) + {s[n - 1].key}
  {
    assert s[..n][..n - 1] == s[..n - 1];
    KeysSnoc(s[..n]);
  }

  lemma WithoutFirst<V(!new)>(s: seq<Entry<V>>)
    requires UniqueKeys(s) && s != []
    ensures Without(s, {s[0].key}) == s[1..]
  {
    WithoutNothing(s[1..], {s[0].key});
    assert [] + s[1..] == s[1..];
  }

  lemma {:induction false} StripDrop<V(!new)>(s: seq<Entry<V>>, n: nat)
    ensures Strip(Drop(s, n)) == Drop(Strip(s), n)
  {
    StripConcat(s, []);
    if n <= |s| {
      StripConcat(s[..n], s[n..]);
      StripConcat(s[..n], []);
      assert s == s[..n] + s[n..];
    }
  }

  lemma ViewEvict<V(!new)>(c: Cache<V>, count: nat)
    requires Inv(c) && UsesRecency(c.config.strategy)
    ensures View(Evict(c, count)) == Drop(View(c), count)
  {
    var s := ByUse(c);
    var n := if count <= |s| then count else |s|;
    SameOrder(c.config.strategy, c.entries);
    assert Victims(c, count) == s[..n];
    RemoveAllKeeps(c, Victims(c, count));
    UseWithout(c, Evict(c, count), Keys(s[..n]));
    ViewFacts(c);
    WithoutPrefix(s, n);
    assert s[n..] == Drop(s, count);
    StripDrop(s, count);
  }

  // ---- The refinement ----

  lemma GetRefines<V(!new)>(c: Cache<V>, key: string, now: int)
    requires Inv(c)
    ensures View(Get(c, key, now).0) == ListGet(c.config, View(c), key, now).0
    ensures Get(c, key, now).1 == ListGet(c.config, View(c), key, now).1
  {
    ViewFind(c, key);
    ViewRemove(c, key);
    if Lookup(c.entries, key).Some? {
      ViewTouch(c, key);
    }
  }

  lemma RoomRefines<V(!new)>(c: Cache<V>, size: nat, tenth: nat)
    requires Inv(c) && UsesRecency(c.config.strategy)
    ensures var c1 := MakeRoom(c, size, tenth);
            && Inv(c1) && c1.config == c.config && Bytes(View(c1)) == c1.memory
            && View(c1) == if Bytes(View(c)) + size > c.config.memoryLimit then Drop(View(c), tenth) else View(c)
  {
    ViewBytes(c);
    ViewEvict(c, tenth);
    RemoveAllKeeps(c, Victims(c, tenth));
    ViewBytes(MakeRoom(c, size, tenth));
  }

  lemma PlaceRefines<V(!new)>(c2: Cache<V>, x: Item<V>)
    requires Inv(c2) && UsesRecency(c2.config.strategy)
    ensures var c3 := if |c2.entries| >= c2.config.maxSize then Evict(c2, 1) else c2;
            && View(Append(c3, x.key, x.value, x.size, x.ttl, x.created))
               == (if |View(c2)| >= c2.config.maxSize then Drop(View(c2), 1) else View(c2)) + [x]
  {
    ViewBytes(c2);
    ViewEvict(c2, 1);
    RemoveAllKeeps(c2, Victims(c2, 1));
    var c3 := if |c2.entries| >= c2.config.maxSize then Evict(c2, 1) else c2;
    ViewAppend(c3, x.key, x.value, x.size, x.ttl, x.created);
  }

  lemma SetRefines<V(!new)>(c: Cache<V>, key: string, value: V, size: nat, ttl: Option<int>, now: int, tenth: nat)
    requires Inv(c) && UsesRecency(c.config.strategy)
    ensures var x := NewItem(c.config, key, value, size, ttl, now);
            && View(Set(c, key, value, size, ttl, now, tenth).0) == ListSet(c.config, View(c), x, tenth).0
            && Set(c, key, value, size, ttl, now, tenth).1 == ListSet(c.config, View(c), x, tenth).1
  {
    if c.config.enabled {
      RoomRefines(c, size, tenth);
      var c1 := MakeRoom(c, size, tenth);
      if c1.memory + size <= c1.config.memoryLimit {
        RemoveKeeps(c1, key);
        ViewRemove(c1, key);
        PlaceRefines(RemoveEntry(c1, key), NewItem(c.config, key, value, size, ttl, now));
      }
    }
  }

  lemma {:induction false} ExpiredKeys<V(!new)>(es: seq<Entry<V>>, now: int)
    ensures forall e :: e in ExpiredOf(es, now) <==> e in es && IsExpired(e, now)
  {
    if es != [] {
      ExpiredKeys(es[1..], now);
      assert es == [es[0]] + es[1..];
    }
  }

  /** Expiry is by key, because keys are distinct. */
  lemma ExpiredExactly<V(!new)>(es: seq<Entry<V>>, now: int)
    requires UniqueKeys(es)
    ensures forall e | e in es :: e.key in Keys(ExpiredOf(es, now)) <==> IsExpired(e, now)
  {
    ExpiredKeys(es, now);
    forall e | e in es
      ensures e.key in Keys(ExpiredOf(es, now)) <==> IsExpired(e, now)
    {
      KeysOf(ExpiredOf(es, now), e.key);
      if e.key in Keys(ExpiredOf(es, now)) {
        var x :| x in ExpiredOf(es, now) && x.key == e.key;
        assert x in es;
        var i :| 0 <= i < |es| && es[i] == x;
        var j :| 0 <= j < |es| && es[j] == e;
      }
    }
  }

  lemma CollectRefines<V(!new)>(c: Cache<V>, now: int)
    requires Inv(c)
    ensures View(Collect(c, now)) == Fresh(View(c), now)
  {
    var keys := Keys(ExpiredOf(c.entries, now));
    RemoveAllKeeps(c, ExpiredOf(c.entries, now));
    UseWithout(c, Collect(c, now), keys);
    ExpiredExactly(c.entries, now);
    ViewFacts(c);
    Elements(ByUse(c), c.entries);
    FreshStrip(ByUse(c), now, keys);
  }

  lemma StepRefines<V(!new)>(c: Cache<V>, t: Timed<V>)
    requires Inv(c) && UsesRecency(c.config.strategy)
    ensures View(Step(c, t)) == ListStep(c.config, View(c), t)
  {
    match t.op
    case DoGet(k) => GetRefines(c, k, t.now);
    case DoHas(k) =>
      ViewFind(c, k);
      ViewRemove(c, k);
    case DoSet(k, v, size, ttl, tenth) => SetRefines(c, k, v, size, ttl, t.now, tenth);
    case DoDelete(k) => ViewRemove(c, k);
    case DoClear =>
    case DoCollect => CollectRefines(c, t.now);
  }

  /** Over every run the cache is the recency list: hits and successful sets move a key to
      the back, and eviction for memory or for room drops a prefix. */
  lemma {:induction false} RunRefines<V(!new)>(config: Config, ops: seq<Timed<V>>)
    requires config.memoryLimit >= 0 && UsesRecency(config.strategy)
    ensures View(Run(config, ops)) == ListRun(config, ops)
  {
    if ops != [] {
      RunKeeps(config, ops[..|ops| - 1]);
      RunRefines(config, ops[..|ops| - 1]);
      StepRefines(Run(config, ops[..|ops| - 1]), ops[|ops| - 1]);
    }
  }
}
