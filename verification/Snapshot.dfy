/** Replica-set mode: sessions interleave under snapshot isolation. The assumption
    about the database is in `Next`: a session reads the books as they stood when it
    began plus its own writes; updating a wallet that another open session has
    written, or that was committed since the snapshot, is a write conflict and
    aborts the session; commit installs the session's wallets and rows at once. */
module Snapshot {
  import opened Wrappers
  import opened Ledger

  type SessionId = nat

  /** A delivery's addition to a merchant's escrow, which leaves no ledger row. */
  datatype Deposit = Deposit(user: UserId, amount: int)

  datatype Session = Session(
    base: Books,               // the snapshot
    seen: map<UserId, nat>,    // wallet versions in the snapshot
    local: Books,              // the snapshot plus this session's writes
    wrote: set<UserId>,        // wallets this session has updated
    before: seq<Deposit>,      // deposits committed before the snapshot
    deposits: seq<Deposit>)    // this session's deposits

  datatype Store = Store(books: Books, version: map<UserId, nat>, open: map<SessionId, Session>, deposits: seq<Deposit>)

  datatype Event =
    | Begin(s: SessionId)
    | Run(s: SessionId, call: Call)
    | Deliver(s: SessionId, deposit: Deposit)
    | Commit(s: SessionId)
    | Abort(s: SessionId)

  ghost predicate Conflict(st: Store, s: SessionId, u: UserId)
    requires s in st.open && u in st.version && u in st.open[s].seen
  {
    || st.version[u] != st.open[s].seen[u]
    || exists k :: k in st.open && k != s && u in st.open[k].wrote
  }

  function Close(st: Store, s: SessionId): Store {
    st.(open := st.open - {s})
  }

  function Opened(st: Store): Session {
    Session(st.books, st.version, st.books, {}, st.deposits, [])
  }

  function NewRows(a: Session): seq<Row> {
    if |a.base.ledger| <= |a.local.ledger| then a.local.ledger[|a.base.ledger|..] else []
  }

  /** The guarded increment in the session's own books. */
  function Delivered(a: Session, d: Deposit): Session
    requires d.user in a.local.wallets
  {
    var w := a.local.wallets[d.user];
    a.(local := a.local.(wallets := a.local.wallets[d.user := w.(escrow := w.escrow + d.amount)]),
       wrote := a.wrote + {d.user}, deposits := a.deposits + [d])
  }

  function Install(st: Store, a: Session): Store {
    st.(books := Books(
          map u | u in st.books.wallets ::
            if u in a.wrote && u in a.local.wallets then a.local.wallets[u] else st.books.wallets[u],
          st.books.ledger + NewRows(a)),
        version := map u | u in st.version :: if u in a.wrote then st.version[u] + 1 else st.version[u],
        deposits := st.deposits + a.deposits)
  }

  ghost function Next(st: Store, e: Event): Store {
    match e
    case Begin(s) =>
      if s in st.open then st
      else st.(open := st.open[s := Opened(st)])
    case Run(s, c) =>
      if s !in st.open then st
      else
        var a := st.open[s];
        (match Apply(a.local, c)
         case Err(_) => Close(st, s)
         case Ok(r) =>
           if r.alreadyProcessed then st
           else if c.user !in st.version || c.user !in a.seen || Conflict(st, s, c.user) then Close(st, s)
           else st.(open := st.open[s := a.(local := r.books, wrote := a.wrote + {c.user})]))
    case Deliver(s, d) =>
      if s !in st.open || !(d.user in st.open[s].local.wallets && st.open[s].local.wallets[d.user].isActive) then st
      else
        var a := st.open[s];
        if d.user !in st.version || d.user !in a.seen || Conflict(st, s, d.user) then Close(st, s)
        else st.(open := st.open[s := Delivered(a, d)])
    case Commit(s) => if s in st.open then Close(Install(st, st.open[s]), s) else st
    case Abort(s) => Close(st, s)
  }

  ghost function After(st: Store, events: seq<Event>): Store {
    if events == [] then st else Next(After(st, events[..|events| - 1]), events[|events| - 1])
  }

  /** Every wallet with its balance as given, an empty ledger and nobody at work. */
  predicate Fresh(st: Store) {
    st.books.ledger == [] && st.version.Keys == st.books.wallets.Keys && st.open == map[] && st.deposits == []
  }

  // ---- What a wallet's committed rows look like ----

  function RowsOf(ledger: seq<Row>, u: UserId): seq<Row> {
    if ledger == [] then []
    else
      RowsOf(ledger[..|ledger| - 1], u)
      + (if ledger[|ledger| - 1].user == u then [ledger[|ledger| - 1]] else [])
  }

  /** The balance left by the first n rows. */
  function BalanceAt(rows: seq<Row>, opening: int, n: nat): int
    requires n <= |rows|
  {
    if n == 0 then opening else rows[n - 1].after
  }

  /** Each balanceBefore is the previous balanceAfter, from an opening to a closing balance. */
  ghost predicate Chained(rows: seq<Row>, opening: int, closing: int) {
    && (forall i | 0 <= i < |rows| :: rows[i].before == BalanceAt(rows, opening, i))
    && closing == BalanceAt(rows, opening, |rows|)
  }

  ghost predicate WalletOk(b: Books, opening: map<UserId, int>, u: UserId) {
    && u in b.wallets && u in opening
    && Chained(RowsOf(b.ledger, u), opening[u], b.wallets[u].balance)
    && UniqueReferences(RowsOf(b.ledger, u))
  }

  ghost predicate BooksOk(b: Books, opening: map<UserId, int>) {
    b.wallets.Keys == opening.Keys && forall u | u in opening :: WalletOk(b, opening, u)
  }

  lemma RowsOfAppend(ledger: seq<Row>, r: Row, u: UserId)
    ensures RowsOf(ledger + [r], u) == RowsOf(ledger, u) + (if r.user == u then [r] else [])
  {
    assert (ledger + [r])[..|ledger|] == ledger;
  }

  lemma {:induction false} RowsOfConcat(a: seq<Row>, b: seq<Row>, u: UserId)
    ensures RowsOf(a + b, u) == RowsOf(a, u) + RowsOf(b, u)
  {
    if b == [] {
      assert a + b == a;
    } else {
      var n := |b| - 1;
      assert (a + b)[..|a + b| - 1] == a + b[..n];
      RowsOfConcat(a, b[..n], u);
    }
  }

  lemma {:induction false} RowsOfMember(ledger: seq<Row>, u: UserId, i: nat)
    requires i < |RowsOf(ledger, u)|
    ensures RowsOf(ledger, u)[i] in ledger && RowsOf(ledger, u)[i].user == u
  {
    if i < |RowsOf(ledger[..|ledger| - 1], u)| {
      RowsOfMember(ledger[..|ledger| - 1], u, i);
    }
  }

  lemma {:induction false} RowsOfNone(ledger: seq<Row>, u: UserId)
    requires forall i | 0 <= i < |ledger| :: ledger[i].user != u
    ensures RowsOf(ledger, u) == []
  {
    if ledger != [] {
      RowsOfNone(ledger[..|ledger| - 1], u);
    }
  }

  lemma ChainAppend(rows: seq<Row>, opening: int, closing: int, r: Row)
    requires Chained(rows, opening, closing) && r.before == closing
    ensures Chained(rows + [r], opening, r.after)
  {
    forall i | 0 <= i <= |rows|
      ensures BalanceAt(rows + [r], opening, i) == BalanceAt(rows, opening, i)
    {
    }
  }

  lemma UniqueAppend(rows: seq<Row>, r: Row)
    requires UniqueReferences(rows)
    requires Keyed(r.reference) ==> forall i | 0 <= i < |rows| :: rows[i].reference != r.reference
    ensures UniqueReferences(rows + [r])
  {
  }

  lemma NewToWallet(ledger: seq<Row>, u: UserId, reference: Option<string>)
    requires Keyed(reference) ==> Find(ledger, reference.value).None?
    ensures Keyed(reference) ==> forall i | 0 <= i < |RowsOf(ledger, u)| :: RowsOf(ledger, u)[i].reference != reference
  {
    forall i | 0 <= i < |RowsOf(ledger, u)| && Keyed(reference)
      ensures RowsOf(ledger, u)[i].reference != reference
    {
      RowsOfMember(ledger, u, i);
      FindWitness(ledger, reference.value);
    }
  }

  lemma NewRowKeeps(b: Books, r: Row, after: int, opening: map<UserId, int>, u: UserId)
    requires WalletOk(b, opening, u) && r.user == u && r.before == b.wallets[u].balance && r.after == after
    requires Keyed(r.reference) ==> Find(b.ledger, r.reference.value).None?
    ensures var rows := RowsOf(b.ledger + [r], u);
            Chained(rows, opening[u], after) && UniqueReferences(rows)
  {
    RowsOfAppend(b.ledger, r, u);
    NewToWallet(b.ledger, u, r.reference);
    ChainAppend(RowsOf(b.ledger, u), opening[u], b.wallets[u].balance, r);
    UniqueAppend(RowsOf(b.ledger, u), r);
  }

  lemma OtherRowKeeps(b: Books, r: Row, u: UserId)
    requires r.user != u
    ensures RowsOf(b.ledger + [r], u) == RowsOf(b.ledger, u)
  {
    RowsOfAppend(b.ledger, r, u);
    assert RowsOf(b.ledger, u) + [] == RowsOf(b.ledger, u);
  }

  lemma AppliedRow(b: Books, c: Call)
    requires Apply(b, c).Ok? && !Apply(b, c).value.alreadyProcessed
    ensures var a := Apply(b, c).value;
            && a.books.ledger == b.ledger + [a.row] && c.user in b.wallets
            && a.row.user == c.user && a.row.before == b.wallets[c.user].balance
            && c.user in a.books.wallets && a.row.after == a.books.wallets[c.user].balance
            && (Keyed(a.row.reference) ==> Find(b.ledger, a.row.reference.value).None?)
            && forall u | u in b.wallets && u != c.user :: u in a.books.wallets && a.books.wallets[u] == b.wallets[u]
  {
  }

  lemma RowKeepsWallet(b: Books, b': Books, r: Row, opening: map<UserId, int>, u: UserId)
    requires WalletOk(b, opening, u) && b'.ledger == b.ledger + [r] && u in b'.wallets
    requires r.user == u ==> r.before == b.wallets[u].balance && r.after == b'.wallets[u].balance
    requires r.user != u ==> b'.wallets[u] == b.wallets[u]
    requires Keyed(r.reference) ==> Find(b.ledger, r.reference.value).None?
    ensures WalletOk(b', opening, u)
  {
    if r.user == u {
      NewRowKeeps(b, r, r.after, opening, u);
    } else {
      OtherRowKeeps(b, r, u);
    }
  }

  lemma ApplyKeepsWallet(b: Books, c: Call, opening: map<UserId, int>, u: UserId)
    requires Apply(b, c).Ok? && WalletOk(b, opening, u)
    ensures WalletOk(Apply(b, c).value.books, opening, u)
  {
    var a := Apply(b, c).value;
    if !a.alreadyProcessed {
      AppliedRow(b, c);
      RowKeepsWallet(b, a.books, a.row, opening, u);
    }
  }

  // ---- Invariant over all interleavings ----

  /** The session's own books: sound per wallet, and different from the snapshot only
      in the wallets it has written and the rows it has added for them. */
  ghost predicate LocalOk(a: Session, opening: map<UserId, int>) {
    && BooksOk(a.local, opening)
    && a.seen.Keys == opening.Keys
    && a.base.wallets.Keys == opening.Keys
    && a.base.ledger <= a.local.ledger
    && (forall i | |a.base.ledger| <= i < |a.local.ledger| :: a.local.ledger[i].user in a.wrote)
  }

  /** A wallet version seen in the snapshot and still current has not changed; one
      the session has written is still current. */
  ghost predicate Tracks(st: Store, a: Session, u: UserId) {
    && u in a.seen && u in st.version && u in st.books.wallets && u in a.base.wallets
    && a.seen[u] <= st.version[u]
    && (u in a.wrote ==> a.seen[u] == st.version[u])
    && (a.seen[u] == st.version[u] ==> RowsOf(st.books.ledger, u) == RowsOf(a.base.ledger, u))
  }

  ghost predicate SessionOk(st: Store, a: Session, opening: map<UserId, int>) {
    LocalOk(a, opening) && forall u | u in opening :: Tracks(st, a, u)
  }

  ghost predicate Disjoint(st: Store) {
    forall s, k | s in st.open && k in st.open && s != k :: st.open[s].wrote !! st.open[k].wrote
  }

  ghost predicate Inv(st: Store, opening: map<UserId, int>) {
    && BooksOk(st.books, opening)
    && st.version.Keys == opening.Keys
    && (forall s | s in st.open :: SessionOk(st, st.open[s], opening))
    && Disjoint(st)
  }

  /** Rows a session adds for one wallet continue that wallet's committed rows. */
  lemma CommittedRows(st: Store, a: Session, u: UserId)
    requires Tracks(st, a, u) && a.base.ledger <= a.local.ledger
    requires forall i | |a.base.ledger| <= i < |a.local.ledger| :: a.local.ledger[i].user in a.wrote
    ensures u in a.wrote ==> RowsOf(st.books.ledger + NewRows(a), u) == RowsOf(a.local.ledger, u)
    ensures u !in a.wrote ==> RowsOf(st.books.ledger + NewRows(a), u) == RowsOf(st.books.ledger, u)
  {
    var rows := NewRows(a);
    RowsOfConcat(st.books.ledger, rows, u);
    if u in a.wrote {
      assert a.local.ledger == a.base.ledger + rows;
      RowsOfConcat(a.base.ledger, rows, u);
    } else {
      forall i | 0 <= i < |rows|
        ensures rows[i].user != u
      {
        assert rows[i] == a.local.ledger[|a.base.ledger| + i];
      }
      RowsOfNone(rows, u);
    }
  }

  lemma RunLocal(a: Session, c: Call, opening: map<UserId, int>)
    requires LocalOk(a, opening) && Apply(a.local, c).Ok? && !Apply(a.local, c).value.alreadyProcessed
    ensures LocalOk(a.(local := Apply(a.local, c).value.books, wrote := a.wrote + {c.user}), opening)
  {
    var b' := Apply(a.local, c).value.books;
    forall u | u in opening
      ensures WalletOk(b', opening, u)
    {
      ApplyKeepsWallet(a.local, c, opening, u);
    }
  }

  lemma SessionFrame(st: Store, st': Store, a: Session, opening: map<UserId, int>)
    requires SessionOk(st, a, opening) && st'.books == st.books && st'.version == st.version
    ensures SessionOk(st', a, opening)
  {
    forall u | u in opening
      ensures Tracks(st', a, u)
    {
      assert Tracks(st, a, u);
    }
  }

  /** Opening, closing or extending sessions leaves the committed side alone. */
  lemma OpenKeeps(st: Store, st': Store, opening: map<UserId, int>)
    requires Inv(st, opening) && st'.books == st.books && st'.version == st.version
    requires forall k | k in st'.open :: (k in st.open && st'.open[k] == st.open[k]) || SessionOk(st', st'.open[k], opening)
    requires Disjoint(st')
    ensures Inv(st', opening)
  {
    forall k | k in st'.open
      ensures SessionOk(st', st'.open[k], opening)
    {
      if k in st.open && st'.open[k] == st.open[k] {
        SessionFrame(st, st', st.open[k], opening);
      }
    }
  }

  lemma ExtendKeeps(st: Store, s: SessionId, a': Session, opening: map<UserId, int>)
    requires Inv(st, opening) && s in st.open
    requires LocalOk(a', opening) && (forall u | u in opening :: Tracks(st, a', u))
    requires Disjoint(st.(open := st.open[s := a']))
    ensures Inv(st.(open := st.open[s := a']), opening)
  {
    var st' := st.(open := st.open[s := a']);
    SessionFrame(st, st', a', opening);
    OpenKeeps(st, st', opening);
  }

  lemma RunKeeps(st: Store, s: SessionId, c: Call, opening: map<UserId, int>)
    requires Inv(st, opening) && s in st.open
    ensures Inv(Next(st, Run(s, c)), opening)
  {
    var a := st.open[s];
    if Apply(a.local, c).Ok? && !Apply(a.local, c).value.alreadyProcessed
       && c.user in st.version && c.user in a.seen && !Conflict(st, s, c.user) {
      var a' := a.(local := Apply(a.local, c).value.books, wrote := a.wrote + {c.user});
      RunLocal(a, c, opening);
      RunTracks(st, s, c.user, a', opening);
      RunDisjoint(st, s, c.user, a');
      ExtendKeeps(st, s, a', opening);
    } else {
      assert Next(st, Run(s, c)) == st || Next(st, Run(s, c)) == Close(st, s);
      OpenKeeps(st, Close(st, s), opening);
    }
  }

  ghost predicate DeliveryGoes(st: Store, s: SessionId, d: Deposit)
    requires s in st.open
  {
    var a := st.open[s];
    && d.user in a.local.wallets && a.local.wallets[d.user].isActive
    && d.user in st.version && d.user in a.seen && !Conflict(st, s, d.user)
  }

  lemma DeliverNext(st: Store, s: SessionId, d: Deposit)
    requires s in st.open
    ensures DeliveryGoes(st, s, d) ==> Next(st, Deliver(s, d)) == st.(open := st.open[s := Delivered(st.open[s], d)])
    ensures !DeliveryGoes(st, s, d) ==> Next(st, Deliver(s, d)) == st || Next(st, Deliver(s, d)) == Close(st, s)
  {
  }

  lemma CloseKeeps(st: Store, s: SessionId, opening: map<UserId, int>)
    requires Inv(st, opening)
    ensures Inv(Close(st, s), opening)
  {
    OpenKeeps(st, Close(st, s), opening);
  }

  lemma DeliverKeeps(st: Store, s: SessionId, d: Deposit, opening: map<UserId, int>)
    requires Inv(st, opening) && s in st.open
    ensures Inv(Next(st, Deliver(s, d)), opening)
  {
    DeliverNext(st, s, d);
    if DeliveryGoes(st, s, d) {
      DeliverExtends(st, s, d, opening);
    } else {
      CloseKeeps(st, s, opening);
    }
  }

  lemma DeliverExtends(st: Store, s: SessionId, d: Deposit, opening: map<UserId, int>)
    requires Inv(st, opening) && s in st.open && d.user in st.open[s].local.wallets
    requires d.user in st.version && d.user in st.open[s].seen && !Conflict(st, s, d.user)
    ensures Inv(st.(open := st.open[s := Delivered(st.open[s], d)]), opening)
  {
    var a' := Delivered(st.open[s], d);
    DeliverLocal(st.open[s], d, opening);
    RunTracks(st, s, d.user, a', opening);
    RunDisjoint(st, s, d.user, a');
    ExtendKeeps(st, s, a', opening);
  }

  /** Escrow is no part of the chain of balances. */
  lemma EscrowAside(b: Books, b': Books, opening: map<UserId, int>, u: UserId)
    requires WalletOk(b, opening, u) && b'.ledger == b.ledger && u in b'.wallets
    requires b'.wallets[u].balance == b.wallets[u].balance
    ensures WalletOk(b', opening, u)
  {
  }

  lemma DeliverLocal(a: Session, d: Deposit, opening: map<UserId, int>)
    requires LocalOk(a, opening) && d.user in a.local.wallets
    ensures LocalOk(Delivered(a, d), opening)
  {
    forall u | u in opening
      ensures WalletOk(Delivered(a, d).local, opening, u)
    {
      EscrowAside(a.local, Delivered(a, d).local, opening, u);
    }
  }

  lemma RunTracks(st: Store, s: SessionId, w: UserId, a': Session, opening: map<UserId, int>)
    requires s in st.open && SessionOk(st, st.open[s], opening)
    requires w in st.version && w in st.open[s].seen && !Conflict(st, s, w)
    requires a' == st.open[s].(local := a'.local, wrote := st.open[s].wrote + {w}, deposits := a'.deposits)
    ensures forall u | u in opening :: Tracks(st, a', u)
  {
    forall u | u in opening
      ensures Tracks(st, a', u)
    {
      assert Tracks(st, st.open[s], u);
    }
  }

  lemma RunDisjoint(st: Store, s: SessionId, w: UserId, a': Session)
    requires s in st.open && Disjoint(st)
    requires w in st.version && w in st.open[s].seen && !Conflict(st, s, w)
    requires a'.wrote == st.open[s].wrote + {w}
    ensures Disjoint(st.(open := st.open[s := a']))
  {
  }

  lemma CommitWallets(st: Store, a: Session, opening: map<UserId, int>)
    requires BooksOk(st.books, opening) && SessionOk(st, a, opening)
    ensures BooksOk(Install(st, a).books, opening)
  {
    var b' := Install(st, a).books;
    forall u | u in opening
      ensures WalletOk(b', opening, u)
    {
      assert Tracks(st, a, u);
      CommittedRows(st, a, u);
      assert WalletOk(st.books, opening, u) && WalletOk(a.local, opening, u);
    }
  }

  lemma CommitTracks(st: Store, a: Session, o: Session, opening: map<UserId, int>, u: UserId)
    requires SessionOk(st, a, opening) && SessionOk(st, o, opening) && u in opening && a.wrote !! o.wrote
    ensures Tracks(Install(st, a), o, u)
  {
    assert Tracks(st, a, u) && Tracks(st, o, u);
    CommittedRows(st, a, u);
  }

  lemma CommitKeeps(st: Store, s: SessionId, opening: map<UserId, int>)
    requires Inv(st, opening) && s in st.open
    ensures Inv(Next(st, Commit(s)), opening)
  {
    var a := st.open[s];
    var st1 := Install(st, a);
    var st' := Close(st1, s);
    CommitWallets(st, a, opening);
    forall k | k in st'.open
      ensures SessionOk(st', st'.open[k], opening)
    {
      assert st'.open[k] == st.open[k];
      forall u | u in opening
        ensures Tracks(st', st.open[k], u)
      {
        CommitTracks(st, a, st.open[k], opening, u);
        assert Tracks(st1, st.open[k], u);
      }
    }
  }

  lemma NextKeeps(st: Store, e: Event, opening: map<UserId, int>)
    requires Inv(st, opening)
    ensures Inv(Next(st, e), opening)
  {
    match e
    case Run(s, c) =>
      if s in st.open {
        RunKeeps(st, s, c, opening);
      }
    case Deliver(s, d) =>
      if s in st.open {
        DeliverKeeps(st, s, d, opening);
      }
    case Commit(s) =>
      if s in st.open {
        CommitKeeps(st, s, opening);
      }
    case Begin(s) =>
      BeginTracks(st, opening);
      OpenKeeps(st, Next(st, e), opening);
    case Abort(s) =>
      OpenKeeps(st, Next(st, e), opening);
  }

  lemma BeginTracks(st: Store, opening: map<UserId, int>)
    requires Inv(st, opening)
    ensures forall st': Store | st'.books == st.books && st'.version == st.version ::
              SessionOk(st', Opened(st), opening)
  {
  }

  function Openings(b: Books): map<UserId, int> {
    map u | u in b.wallets :: b.wallets[u].balance
  }

  lemma {:induction false} AfterKeeps(st: Store, events: seq<Event>)
    requires Fresh(st)
    ensures Inv(After(st, events), Openings(st.books))
  {
    if events != [] {
      AfterKeeps(st, events[..|events| - 1]);
      NextKeeps(After(st, events[..|events| - 1]), events[|events| - 1], Openings(st.books));
    }
  }

  /** For any interleaving of sessions, each wallet's committed rows form a chain from
      its opening balance to its committed balance and carry no reference twice. */
  lemma CommittedLedgerChains(st: Store, events: seq<Event>, u: UserId)
    requires Fresh(st) && u in st.books.wallets
    ensures var b := After(st, events).books;
            && u in b.wallets
            && Chained(RowsOf(b.ledger, u), st.books.wallets[u].balance, b.wallets[u].balance)
            && UniqueReferences(RowsOf(b.ledger, u))
  {
    AfterKeeps(st, events);
    assert WalletOk(After(st, events).books, Openings(st.books), u);
  }

  /** Two sessions, both begun before either commits, each running one call. */
  function Overlap(c: Call, d: Call): seq<Event> {
    [Begin(0), Begin(1), Run(0, c), Run(1, d), Commit(0), Commit(1)]
  }

  lemma OverlapSteps(st: Store, c: Call, d: Call)
    ensures After(st, Overlap(c, d)) ==
            Next(Next(Next(Next(Next(Next(st, Begin(0)), Begin(1)), Run(0, c)), Run(1, d)), Commit(0)), Commit(1))
  {
    var e := Overlap(c, d);
    assert e[..5][..4] == [Begin(0), Begin(1), Run(0, c), Run(1, d)];
    assert e[..5][..4][..3] == [Begin(0), Begin(1), Run(0, c)];
    assert e[..5][..4][..3][..2] == [Begin(0), Begin(1)];
    assert e[..5][..4][..3][..2][..1] == [Begin(0)];
    assert After(st, e[..5][..4][..3][..2][..1]) == Next(After(st, []), Begin(0));
    assert After(st, e[..5][..4][..3][..2]) == Next(Next(st, Begin(0)), Begin(1));
    assert After(st, e[..5][..4][..3]) == Next(Next(Next(st, Begin(0)), Begin(1)), Run(0, c));
    assert After(st, e[..5]) == Next(After(st, e[..5][..4]), Commit(0));
  }

  function Begun(st: Store): Store {
    st.(open := map[0 := Opened(st), 1 := Opened(st)])
  }

  lemma BothBegin(st: Store)
    requires Fresh(st)
    ensures Next(Next(st, Begin(0)), Begin(1)) == Begun(st)
  {
  }

  /** A first call of session 0 or 1 goes through while the other has not written its wallet. */
  lemma FirstCall(st: Store, st': Store, s: SessionId, c: Call)
    requires Fresh(st) && s in st'.open && st'.version == st.version
    requires st'.open[s] == Opened(st) && Apply(st.books, c).Ok?
    requires forall k | k in st'.open && k != s :: c.user !in st'.open[k].wrote
    ensures var r := Apply(st.books, c).value;
            && r.books.ledger == [RowOf(st.books.wallets[c.user], c)]
            && Next(st', Run(s, c)) == st'.(open := st'.open[s := st'.open[s].(local := r.books, wrote := {c.user})])
  {
    assert !Conflict(st', s, c.user);
    assert {} + {c.user} == {c.user};
  }

  /** Across wallets the reference read protects nothing: two overlapping calls on
      different wallets, each of which would succeed alone, both commit, whatever their
      references. */
  lemma TwoWalletsBothCommit(st: Store, c: Call, d: Call)
    requires Fresh(st) && c.user != d.user && Apply(st.books, c).Ok? && Apply(st.books, d).Ok?
    ensures After(st, Overlap(c, d)).books.ledger
            == [RowOf(st.books.wallets[c.user], c), RowOf(st.books.wallets[d.user], d)]
  {
    OverlapSteps(st, c, d);
    BothBegin(st);
    FirstCall(st, Begun(st), 0, c);
    var s3 := Next(Begun(st), Run(0, c));
    FirstCall(st, s3, 1, d);
    CommitBoth(Next(s3, Run(1, d)), RowOf(st.books.wallets[c.user], c), RowOf(st.books.wallets[d.user], d));
  }

  lemma CommitBoth(st: Store, first: Row, second: Row)
    requires 0 in st.open && 1 in st.open && st.books.ledger == []
    requires st.open[0].base.ledger == [] && st.open[0].local.ledger == [first]
    requires st.open[1].base.ledger == [] && st.open[1].local.ledger == [second]
    ensures Next(Next(st, Commit(0)), Commit(1)).books.ledger == [first, second]
  {
  }

  /** On one wallet the same schedule is a write conflict: the second session aborts
      and only the first row is committed. */
  lemma SameWalletConflicts(st: Store, c: Call)
    requires Fresh(st) && Apply(st.books, c).Ok?
    ensures After(st, Overlap(c, c)).books.ledger == [RowOf(st.books.wallets[c.user], c)]
  {
    OverlapSteps(st, c, c);
    BothBegin(st);
    FirstCall(st, Begun(st), 0, c);
    var s3 := Next(Begun(st), Run(0, c));
    SecondCallConflicts(s3, c);
    CommitOne(Close(s3, 1), RowOf(st.books.wallets[c.user], c));
  }

  lemma SecondCallConflicts(st: Store, c: Call)
    requires 0 in st.open && 1 in st.open && c.user in st.open[0].wrote && c.user in st.version && c.user in st.open[1].seen
    requires Apply(st.open[1].local, c).Ok? && !Apply(st.open[1].local, c).value.alreadyProcessed
    ensures Next(st, Run(1, c)) == Close(st, 1)
  {
    assert Conflict(st, 1, c.user);
  }

  lemma CommitOne(st: Store, row: Row)
    requires 0 in st.open && 1 !in st.open && st.books.ledger == []
    requires st.open[0].base.ledger == [] && st.open[0].local.ledger == [row]
    ensures Next(Next(st, Commit(0)), Commit(1)).books.ledger == [row]
  {
  }
}
