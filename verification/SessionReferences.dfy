/** When the committed ledger as a whole holds each reference once, whatever the
    interleaving of sessions. */
module SessionReferences {
  import opened Wrappers
  import opened Ledger
  import opened Snapshot
  import R = References

  /** The wallet each reference is for. */
  type Owner = string -> UserId

  /** Every row belongs to a wallet, the one its reference is for. */
  ghost predicate Owned(b: Books, owner: Owner) {
    forall i | 0 <= i < |b.ledger| ::
      b.ledger[i].user in b.wallets && (Keyed(b.ledger[i].reference) ==> b.ledger[i].user == owner(b.ledger[i].reference.value))
  }

  ghost predicate AllOwned(st: Store, owner: Owner) {
    && Owned(st.books, owner)
    && forall s | s in st.open :: Owned(st.open[s].local, owner) && st.open[s].local.wallets.Keys == st.books.wallets.Keys
  }

  /** Calls under one reference name one wallet. */
  predicate OneWallet(e: Event, owner: Owner) {
    e.Run? && Keyed(e.call.reference) ==> e.call.user == owner(e.call.reference.value)
  }

  lemma RunOwned(b: Books, c: Call, owner: Owner)
    requires Owned(b, owner) && Apply(b, c).Ok? && (Keyed(c.reference) ==> c.user == owner(c.reference.value))
    ensures Owned(Apply(b, c).value.books, owner) && Apply(b, c).value.books.wallets.Keys == b.wallets.Keys
  {
  }

  lemma InstallOwned(st: Store, a: Session, owner: Owner)
    requires Owned(st.books, owner) && Owned(a.local, owner) && a.local.wallets.Keys == st.books.wallets.Keys
    ensures Owned(Install(st, a).books, owner)
  {
    var l, n := Install(st, a).books.ledger, |st.books.ledger|;
    forall i | 0 <= i < |l|
      ensures l[i].user in st.books.wallets && (Keyed(l[i].reference) ==> l[i].user == owner(l[i].reference.value))
    {
      if i >= n {
        assert l[i] == a.local.ledger[|a.base.ledger| + i - n];
      }
    }
  }

  lemma NextOwned(st: Store, e: Event, owner: Owner)
    requires AllOwned(st, owner) && OneWallet(e, owner)
    ensures AllOwned(Next(st, e), owner)
  {
    match e
    case Run(s, c) =>
      if s in st.open && Apply(st.open[s].local, c).Ok? {
        RunOwned(st.open[s].local, c, owner);
      }
    case Commit(s) =>
      if s in st.open {
        InstallOwned(st, st.open[s], owner);
      }
    case Begin(_) =>
    case Deliver(_, _) =>
    case Abort(_) =>
  }

  ghost predicate AllOneWallet(events: seq<Event>, owner: Owner) {
    forall i | 0 <= i < |events| :: OneWallet(events[i], owner)
  }

  lemma {:induction false} AfterOwned(st: Store, events: seq<Event>, owner: Owner)
    requires Fresh(st) && AllOneWallet(events, owner)
    ensures AllOwned(After(st, events), owner)
  {
    if events != [] {
      AfterOwned(st, events[..|events| - 1], owner);
      NextOwned(After(st, events[..|events| - 1]), events[|events| - 1], owner);
    }
  }

  // ---- A row's place among its wallet's rows ----

  function Place(ledger: seq<Row>, i: nat, u: UserId): nat
    requires i <= |ledger|
  {
    |RowsOf(ledger[..i], u)|
  }

  lemma {:induction false} PlaceOf(ledger: seq<Row>, i: nat, u: UserId)
    requires i < |ledger| && ledger[i].user == u
    ensures Place(ledger, i, u) < |RowsOf(ledger, u)| && RowsOf(ledger, u)[Place(ledger, i, u)] == ledger[i]
  {
    var before, after := ledger[..i], ledger[i + 1..];
    assert ledger == before + [ledger[i]] + after;
    RowsOfConcat(before + [ledger[i]], after, u);
    RowsOfAppend(before, ledger[i], u);
  }

  lemma PlacesDiffer(ledger: seq<Row>, i: nat, j: nat, u: UserId)
    requires i < j < |ledger| && ledger[i].user == u
    ensures Place(ledger, i, u) < Place(ledger, j, u)
  {
    PlaceOf(ledger[..j], i, u);
    assert ledger[..j][..i] == ledger[..i];
  }

  /** Where references belong to one wallet each, uniqueness per wallet is uniqueness. */
  lemma UniqueOverall(b: Books, owner: Owner)
    requires Owned(b, owner) && forall u | u in b.wallets :: UniqueReferences(RowsOf(b.ledger, u))
    ensures UniqueReferences(b.ledger)
  {
    forall i, j | 0 <= i < j < |b.ledger| && Keyed(b.ledger[i].reference)
      ensures b.ledger[i].reference != b.ledger[j].reference
    {
      var u := b.ledger[i].user;
      if b.ledger[j].user == u {
        PlaceOf(b.ledger, i, u);
        PlaceOf(b.ledger, j, u);
        PlacesDiffer(b.ledger, i, j, u);
        assert UniqueReferences(RowsOf(b.ledger, u));
      }
    }
  }

  /** If all calls under a reference name one wallet, then for every interleaving of
      sessions the committed ledger holds each reference at most once. */
  lemma GlobalUnique(st: Store, events: seq<Event>, owner: Owner)
    requires Fresh(st) && AllOneWallet(events, owner)
    ensures UniqueReferences(After(st, events).books.ledger)
  {
    AfterOwned(st, events, owner);
    AfterKeeps(st, events);
    var b := After(st, events).books;
    forall u | u in b.wallets
      ensures UniqueReferences(RowsOf(b.ledger, u))
    {
      CommittedLedgerChains(st, events, u);
    }
    UniqueOverall(b, owner);
  }

  // ---- Exactly when ----

  ghost predicate Among(events: seq<Event>, calls: set<Call>) {
    forall i | 0 <= i < |events| && events[i].Run? :: events[i].call in calls
  }

  predicate Consistent(calls: set<Call>) {
    forall c, d | c in calls && d in calls && Keyed(c.reference) && c.reference == d.reference :: c.user == d.user
  }

  ghost function OwnerIn(calls: set<Call>, reference: string): UserId {
    if exists c :: c in calls && c.reference == Some(reference)
    then var c :| c in calls && c.reference == Some(reference); c.user
    else ""
  }

  lemma ConsistentOwner(events: seq<Event>, calls: set<Call>)
    requires Consistent(calls) && Among(events, calls)
    ensures AllOneWallet(events, r => OwnerIn(calls, r))
  {
    forall i | 0 <= i < |events|
      ensures OneWallet(events[i], r => OwnerIn(calls, r))
    {
      if events[i].Run? && Keyed(events[i].call.reference) {
        var c := events[i].call;
        assert c in calls && c.reference == Some(c.reference.value);
      }
    }
  }

  lemma SharedReferenceTwice(st: Store, c: Call, d: Call)
    requires Fresh(st) && c.user != d.user && Apply(st.books, c).Ok? && Apply(st.books, d).Ok?
    requires Keyed(c.reference) && c.reference == d.reference
    ensures !UniqueReferences(After(st, Overlap(c, d)).books.ledger)
  {
    TwoWalletsBothCommit(st, c, d);
    var l := After(st, Overlap(c, d)).books.ledger;
    assert l[0].reference == l[1].reference;
  }

  /** For any set of calls that would each succeed alone: every interleaving of sessions made
      of them keeps every reference unique if and only if no reference is used for two wallets. */
  lemma UniqueExactly(st: Store, calls: set<Call>)
    requires Fresh(st) && forall c | c in calls :: Apply(st.books, c).Ok?
    ensures Consistent(calls) <==>
            forall events | Among(events, calls) :: UniqueReferences(After(st, events).books.ledger)
  {
    if Consistent(calls) {
      forall events | Among(events, calls)
        ensures UniqueReferences(After(st, events).books.ledger)
      {
        ConsistentOwner(events, calls);
        GlobalUnique(st, events, r => OwnerIn(calls, r));
      }
    } else {
      var c, d :| c in calls && d in calls && Keyed(c.reference) && c.reference == d.reference && c.user != d.user;
      SharedReferenceTwice(st, c, d);
      assert Among(Overlap(c, d), calls);
    }
  }

  // ---- The references the services generate ----

  ghost predicate Generates(c: Call, userOf: R.Ref -> UserId) {
    Keyed(c.reference) ==> exists r :: R.Wf(r) && c.reference == Some(R.Text(r)) && c.user == userOf(r)
  }

  /** Under concurrent sessions, calls whose references the services generate, each for the
      one wallet of its event, key and leg, are deduplicated across the whole ledger. */
  lemma GeneratedReferencesUnique(st: Store, events: seq<Event>, userOf: R.Ref -> UserId)
    requires Fresh(st) && forall i | 0 <= i < |events| && events[i].Run? :: Generates(events[i].call, userOf)
    ensures UniqueReferences(After(st, events).books.ledger)
  {
    var calls := set i | 0 <= i < |events| && events[i].Run? :: events[i].call;
    forall c, d | c in calls && d in calls && Keyed(c.reference) && c.reference == d.reference
      ensures c.user == d.user
    {
      assert Generates(c, userOf) && Generates(d, userOf);
      var r :| R.Wf(r) && c.reference == Some(R.Text(r)) && c.user == userOf(r);
      var q :| R.Wf(q) && d.reference == Some(R.Text(q)) && d.user == userOf(q);
      R.TextInjective(r, q);
    }
    ConsistentOwner(events, calls);
    GlobalUnique(st, events, r => OwnerIn(calls, r));
  }
}
