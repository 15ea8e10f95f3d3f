/** Rate cards behind the read-through cache: every write to the cards deletes what it makes
    stale, so what is cached is what the database holds. */
module RateCards {
  import opened Wrappers
  import opened RateCache

  datatype Card = Card(active: bool, details: string)

  datatype Cached = List(cards: map<string, Card>) | One(card: Card)

  datatype Entry = Entry(value: Cached, expiresAt: int)

  type Store = map<string, Entry>

  datatype World = World(store: Store, cards: map<string, Card>)

  const RATE_CARDS_TTL := 600

  const LIST_KEY := "vx:rate:cards:all"

  const CARD_PREFIX := "vx:rate:card:"

  const LISTS_PATTERN := "vx:rate:cards:*"

  const CARDS_PATTERN := "vx:rate:card:*"

  function CardKey(id: string): string {
    CARD_PREFIX + id
  }

  function Active(cards: map<string, Card>): map<string, Card> {
    map id | id in cards && cards[id].active :: cards[id]
  }

  // ---- The cache ----

  predicate IsExpired(e: Entry, now: int) {
    now > e.expiresAt
  }

  function Get(store: Store, key: string, now: int): (Store, Option<Cached>) {
    if key !in store then (store, None)
    else if IsExpired(store[key], now) then (store - {key}, None)
    else (store, Some(store[key].value))
  }

  function Put(store: Store, key: string, value: Cached, now: int): Store {
    store[key := Entry(value, now + RATE_CARDS_TTL * 1000)]
  }

  function DelPattern(store: Store, pattern: string): Store {
    map k | k in store && !RegexTest(pattern, k) :: store[k]
  }

  function Sweep(store: Store, now: int): Store {
    map k | k in store && !IsExpired(store[k], now) :: store[k]
  }

  // ---- The services ----

  datatype Op =
    | ReadList(now: int)
    | ReadCard(id: string, now: int)
    | Create(id: string, card: Card)
    | Update(id: string, card: Card)
    | Deactivate(id: string)
    | Clean(now: int)

  function Step(w: World, op: Op): (World, Option<Cached>) {
    match op
    case ReadList(now) =>
      var (store, hit) := Get(w.store, LIST_KEY, now);
      if hit.Some? then (w.(store := store), hit)
      else (w.(store := Put(store, LIST_KEY, List(Active(w.cards)), now)), Some(List(Active(w.cards))))
    case ReadCard(id, now) =>
      var (store, hit) := Get(w.store, CardKey(id), now);
      if hit.Some? then (w.(store := store), hit)
      else if id !in w.cards then (w.(store := store), None)
      else (w.(store := Put(store, CardKey(id), One(w.cards[id]), now)), Some(One(w.cards[id])))
    case Create(id, card) =>
      if id in w.cards then (w, None)
      else (World(DelPattern(DelPattern(w.store, LISTS_PATTERN), CARDS_PATTERN), w.cards[id := card]), Some(One(card)))
    case Update(id, card) => Write(w, id, card)
    case Deactivate(id) =>
      if id in w.cards then Write(w, id, w.cards[id].(active := false)) else (w, None)
    case Clean(now) => (w.(store := Sweep(w.store, now)), None)
  }

  function Write(w: World, id: string, card: Card): (World, Option<Cached>) {
    if id !in w.cards then (w, None)
    else (World(DelPattern(w.store, LISTS_PATTERN) - {CardKey(id)}, w.cards[id := card]), Some(One(card)))
  }

  function Run(ops: seq<Op>): World {
    if ops == [] then World(map[], map[]) else Step(Run(ops[..|ops| - 1]), ops[|ops| - 1]).0
  }

  // ---- The cache holds what the database holds ----

  ghost predicate Fits(k: string, value: Cached, cards: map<string, Card>) {
    && (k == LIST_KEY ==> value == List(Active(cards)))
    && forall id | k == CardKey(id) :: id in cards && value == One(cards[id])
  }

  ghost predicate Coherent(w: World) {
    forall k | k in w.store :: Fits(k, w.store[k].value, w.cards)
  }

  lemma KeysApart(id: string, other: string)
    ensures CardKey(id) != LIST_KEY
    ensures CardKey(id) == CardKey(other) ==> id == other
  {
    assert CardKey(id)[12] == CARD_PREFIX[12] == ':' && LIST_KEY[12] == 's';
    assert CardKey(id)[|CARD_PREFIX|..] == id && CardKey(other)[|CARD_PREFIX|..] == other;
  }

  lemma ListKeyOneLine()
    ensures OneLine(LIST_KEY)
  {
  }

  /** The pattern for lists covers the one list key there is. */
  lemma ListPatternCovers()
    ensures RegexTest(LISTS_PATTERN, LIST_KEY)
  {
    var prefix := LIST_KEY[..14];
    assert LISTS_PATTERN == prefix + "*";
    PrefixGlob(prefix, LIST_KEY);
    ListKeyOneLine();
    RegexIsGlob(LISTS_PATTERN, LIST_KEY);
  }

  lemma ReadFits(w: World, op: Op)
    requires Coherent(w) && (op.ReadList? || op.ReadCard?)
    ensures Coherent(Step(w, op).0)
    ensures op.ReadList? ==> Step(w, op).1 == Some(List(Active(w.cards)))
    ensures op.ReadCard? ==> Step(w, op).1 == if op.id in w.cards then Some(One(w.cards[op.id])) else None
  {
    if op.ReadList? {
      forall id
        ensures CardKey(id) != LIST_KEY
      {
        KeysApart(id, id);
      }
      if LIST_KEY in w.store {
        assert Fits(LIST_KEY, w.store[LIST_KEY].value, w.cards);
      }
    } else {
      forall id | CardKey(op.id) == CardKey(id)
        ensures id == op.id
      {
        KeysApart(op.id, id);
      }
      KeysApart(op.id, op.id);
      if CardKey(op.id) in w.store {
        assert Fits(CardKey(op.id), w.store[CardKey(op.id)].value, w.cards);
      }
    }
  }

  /** Deleting by the list pattern deletes the list and adds nothing. */
  lemma ListGone(store: Store)
    ensures LIST_KEY !in DelPattern(store, LISTS_PATTERN)
  {
    ListPatternCovers();
  }

  lemma FitsUnaffected(k: string, value: Cached, cards: map<string, Card>, id: string, card: Card)
    requires Fits(k, value, cards) && k != LIST_KEY && (k != CardKey(id) || id !in cards)
    ensures Fits(k, value, cards[id := card])
  {
  }

  lemma WriteFits(w: World, id: string, card: Card)
    requires Coherent(w)
    ensures Coherent(Write(w, id, card).0)
  {
    if id in w.cards {
      ListGone(w.store);
      var w' := Write(w, id, card).0;
      forall k | k in w'.store
        ensures Fits(k, w'.store[k].value, w'.cards)
      {
        assert k in DelPattern(w.store, LISTS_PATTERN);
        FitsUnaffected(k, w.store[k].value, w.cards, id, card);
      }
    }
  }

  lemma CreateFits(w: World, id: string, card: Card)
    requires Coherent(w) && id !in w.cards
    ensures Coherent(Step(w, Create(id, card)).0)
  {
    ListGone(w.store);
    var kept := DelPattern(w.store, LISTS_PATTERN);
    forall k | k in DelPattern(kept, CARDS_PATTERN)
      ensures Fits(k, w.store[k].value, w.cards[id := card])
    {
      assert k in kept;
      FitsUnaffected(k, w.store[k].value, w.cards, id, card);
    }
  }

  lemma StepFits(w: World, op: Op)
    requires Coherent(w)
    ensures Coherent(Step(w, op).0)
  {
    match op
    case ReadList(_) => ReadFits(w, op);
    case ReadCard(_, _) => ReadFits(w, op);
    case Create(id, card) =>
      if id !in w.cards {
        CreateFits(w, id, card);
      }
    case Update(id, card) => WriteFits(w, id, card);
    case Deactivate(id) =>
      if id in w.cards {
        WriteFits(w, id, w.cards[id].(active := false));
      }
    case Clean(_) =>
  }

  lemma {:induction false} RunFits(ops: seq<Op>)
    ensures Coherent(Run(ops))
  {
    if ops != [] {
      RunFits(ops[..|ops| - 1]);
      StepFits(Run(ops[..|ops| - 1]), ops[|ops| - 1]);
    }
  }

  /** In every sequential run a read answers what the database holds at that moment, cached
      or not: the list of active cards, the card asked for, or that there is none. */
  lemma ReadsAreCurrent(ops: seq<Op>, op: Op)
    requires op.ReadList? || op.ReadCard?
    ensures var w := Run(ops);
            Step(w, op).1 == if op.ReadList? then Some(List(Active(w.cards)))
                             else if op.id in w.cards then Some(One(w.cards[op.id])) else None
  {
    RunFits(ops);
    ReadFits(Run(ops), op);
  }

  /** What a write stores is what the next read answers, of the card and of the list, and no
      other card has changed. */
  lemma ReadAfterWrite(ops: seq<Op>, id: string, card: Card, now: int, other: string)
    ensures var w, w' := Run(ops), Run(ops + [Update(id, card)]);
            && (other != id ==> Held(w'.cards, other) == Held(w.cards, other))
            && (id in w.cards ==> Step(w', ReadCard(id, now)).1 == Some(One(card)))
            && (id !in w.cards ==> w' == w && Step(w', ReadCard(id, now)).1 == None)
            && Step(w', ReadList(now)).1 == Some(List(Active(w'.cards)))
  {
    assert (ops + [Update(id, card)])[..|ops|] == ops;
    ReadsAreCurrent(ops + [Update(id, card)], ReadCard(id, now));
    ReadsAreCurrent(ops + [Update(id, card)], ReadList(now));
  }

  lemma ActiveAdds(cards: map<string, Card>, id: string, card: Card)
    requires card.active
    ensures Active(cards[id := card]) == Active(cards)[id := card]
  {
  }

  lemma CreatedCards(ops: seq<Op>, id: string, card: Card)
    requires id !in Run(ops).cards
    ensures Run(ops + [Create(id, card)]).cards == Run(ops).cards[id := card]
  {
    assert (ops + [Create(id, card)])[..|ops|] == ops;
  }

  lemma ReadAfterCreate(ops: seq<Op>, id: string, card: Card, now: int, other: string)
    requires id !in Run(ops).cards
    ensures var w, w' := Run(ops), Run(ops + [Create(id, card)]);
            && (other != id ==> Held(w'.cards, other) == Held(w.cards, other))
            && Step(w', ReadCard(id, now)).1 == Some(One(card))
            && (card.active ==> Step(w', ReadList(now)).1 == Some(List(Active(w.cards)[id := card])))
  {
    CreatedCards(ops, id, card);
    ReadsAreCurrent(ops + [Create(id, card)], ReadCard(id, now));
    ReadsAreCurrent(ops + [Create(id, card)], ReadList(now));
    if card.active {
      ActiveAdds(Run(ops).cards, id, card);
    }
  }

  /** A deactivated card leaves the list and can still be read. */
  lemma ReadAfterDeactivation(ops: seq<Op>, id: string, now: int)
    requires id in Run(ops).cards
    ensures var w, w' := Run(ops), Run(ops + [Deactivate(id)]);
            && Step(w', ReadCard(id, now)).1 == Some(One(w.cards[id].(active := false)))
            && Step(w', ReadList(now)).1 == Some(List(Active(w.cards) - {id}))
  {
    assert (ops + [Deactivate(id)])[..|ops|] == ops;
    ReadsAreCurrent(ops + [Deactivate(id)], ReadCard(id, now));
    ReadsAreCurrent(ops + [Deactivate(id)], ReadList(now));
    var cards := Run(ops).cards;
    assert Active(cards[id := cards[id].(active := false)]) == Active(cards) - {id};
  }

  function Held(cards: map<string, Card>, id: string): Option<Card> {
    if id in cards then Some(cards[id]) else None
  }

  /** A read puts its answer where the next one within ten minutes finds it. */
  lemma ReadIsCached(w: World, now: int, later: int)
    requires LIST_KEY !in w.store && later <= now + 600 * 1000
    ensures Get(Step(w, ReadList(now)).0.store, LIST_KEY, later).1 == Some(List(Active(w.cards)))
  {
  }

  /** A live entry, whatever the time, is the database's value. */
  lemma CachedIsCurrent(ops: seq<Op>, id: string, now: int)
    ensures var w := Run(ops);
            && (Get(w.store, LIST_KEY, now).1.Some? ==> Get(w.store, LIST_KEY, now).1 == Some(List(Active(w.cards))))
            && (Get(w.store, CardKey(id), now).1.Some? ==>
                  id in w.cards && Get(w.store, CardKey(id), now).1 == Some(One(w.cards[id])))
  {
    RunFits(ops);
    var w := Run(ops);
    if LIST_KEY in w.store {
      assert Fits(LIST_KEY, w.store[LIST_KEY].value, w.cards);
    }
    if CardKey(id) in w.store {
      assert Fits(CardKey(id), w.store[CardKey(id)].value, w.cards);
    }
  }

  /** A list fetched before a write and stored after it is coherent if and only if the write
      left the active cards as they were: the cache is safe for sequential runs only. */
  lemma RaceLeavesStale(w: World, id: string, card: Card, now: int)
    requires Coherent(w) && id in w.cards
    ensures var fetched := List(Active(w.cards));
            var w' := Write(w, id, card).0;
            Coherent(w'.(store := Put(w'.store, LIST_KEY, fetched, now))) <==> Active(w'.cards) == Active(w.cards)
  {
    WriteFits(w, id, card);
    KeysApart(id, id);
    var w' := Write(w, id, card).0;
    var w'' := w'.(store := Put(w'.store, LIST_KEY, List(Active(w.cards)), now));
    forall other
      ensures CardKey(other) != LIST_KEY
    {
      KeysApart(other, other);
    }
    if Active(w'.cards) == Active(w.cards) {
      forall k | k in w''.store
        ensures Fits(k, w''.store[k].value, w''.cards)
      {
        if k != LIST_KEY {
          assert Fits(k, w'.store[k].value, w'.cards);
        }
      }
    } else {
      assert LIST_KEY in w''.store && !Fits(LIST_KEY, w''.store[LIST_KEY].value, w''.cards);
    }
  }

  // ---- The same on the process-wide store ----

  class Backend {
    var store: Store
    var cards: map<string, Card>

    ghost function State(): World
      reads this
    {
      World(store, cards)
    }

    constructor ()
      ensures State() == Run([])
    {
      store, cards := map[], map[];
    }

    method Fetch(key: string, now: int) returns (value: Option<Cached>)
      modifies this`store
      ensures (store, value) == Get(old(store), key, now)
    {
      if key !in store {
        return None;
      }
      if IsExpired(store[key], now) {
        store := store - {key};
        return None;
      }
      return Some(store[key].value);
    }

    method DeletePattern(pattern: string)
      modifies this`store
      ensures store == DelPattern(old(store), pattern)
    {
      var keys := store.Keys;
      while keys != {}
        invariant keys <= old(store).Keys
        invariant store == map k | k in old(store) && (k in keys || !RegexTest(pattern, k)) :: old(store)[k]
        decreases |keys|
      {
        var key :| key in keys;
        if RegexTest(pattern, key) {
          store := store - {key};
        }
        keys := keys - {key};
      }
    }

    method CleanExpired(now: int)
      modifies this`store
      ensures State() == Step(old(State()), Clean(now)).0
    {
      var keys := store.Keys;
      while keys != {}
        invariant keys <= old(store).Keys
        invariant store == map k | k in old(store) && (k in keys || !IsExpired(old(store)[k], now)) :: old(store)[k]
        decreases |keys|
      {
        var key :| key in keys;
        if IsExpired(store[key], now) {
          store := store - {key};
        }
        keys := keys - {key};
      }
    }

    method GetRateCards(now: int) returns (list: Cached)
      modifies this`store
      ensures (State(), Some(list)) == Step(old(State()), ReadList(now))
    {
      var cached := Fetch(LIST_KEY, now);
      if cached.Some? {
        return cached.value;
      }
      list := List(Active(cards));
      store := Put(store, LIST_KEY, list, now);
    }

    method GetRateCardById(id: string, now: int) returns (card: Option<Cached>)
      modifies this`store
      ensures (State(), card) == Step(old(State()), ReadCard(id, now))
    {
      var cached := Fetch(CardKey(id), now);
      if cached.Some? {
        return cached;
      }
      if id !in cards {
        return None;
      }
      card := Some(One(cards[id]));
      store := Put(store, CardKey(id), One(cards[id]), now);
    }

    method CreateRateCard(id: string, card: Card)
      requires id !in cards
      modifies this
      ensures State() == Step(old(State()), Create(id, card)).0
    {
      cards := cards[id := card];
      DeletePattern(LISTS_PATTERN);
      DeletePattern(CARDS_PATTERN);
    }

    method UpdateRateCard(id: string, card: Card) returns (found: bool)
      modifies this
      ensures State() == Step(old(State()), Update(id, card)).0
      ensures found <==> id in old(cards)
    {
      if id !in cards {
        return false;
      }
      cards := cards[id := card];
      DeletePattern(LISTS_PATTERN);
      assert store == DelPattern(old(store), LISTS_PATTERN);
      store := store - {CardKey(id)};
      return true;
    }

    method DeactivateRateCard(id: string) returns (found: bool)
      modifies this
      ensures State() == Step(old(State()), Deactivate(id)).0
      ensures found <==> id in old(cards)
    {
      if id !in cards {
        return false;
      }
      found := UpdateRateCard(id, cards[id].(active := false));
    }
  }

  /** A creation gets an id that is not in use. */
  method Perform(backend: Backend, op: Op) returns (answer: Option<Cached>)
    requires op.Create? ==> op.id !in backend.cards
    modifies backend
    ensures backend.State() == Step(old(backend.State()), op).0
    ensures op.ReadList? || op.ReadCard? ==> answer == Step(old(backend.State()), op).1
    ensures old(Coherent(backend.State())) ==> Coherent(backend.State())
    ensures old(Coherent(backend.State())) && op.ReadList? ==> answer == Some(List(Active(backend.cards)))
    ensures old(Coherent(backend.State())) && op.ReadCard? ==>
              answer == if op.id in backend.cards then Some(One(backend.cards[op.id])) else None
  {
    ghost var before := backend.State();
    answer := None;
    match op {
      case ReadList(now) =>
        var list := backend.GetRateCards(now);
        answer := Some(list);
      case ReadCard(id, now) => answer := backend.GetRateCardById(id, now);
      case Create(id, card) => backend.CreateRateCard(id, card);
      case Update(id, card) => var _ := backend.UpdateRateCard(id, card);
      case Deactivate(id) => var _ := backend.DeactivateRateCard(id);
      case Clean(now) => backend.CleanExpired(now);
    }
    if Coherent(before) {
      StepFits(before, op);
      if op.ReadList? || op.ReadCard? {
        ReadFits(before, op);
        ReadWritesNoCard(before, op);
      }
    }
  }

  lemma ReadWritesNoCard(w: World, op: Op)
    requires op.ReadList? || op.ReadCard?
    ensures Step(w, op).0.cards == w.cards
  {
  }
}
