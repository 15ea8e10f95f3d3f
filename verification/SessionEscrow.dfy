/** Escrow under concurrent sessions: what deliveries deposit and remittances release. */
module SessionEscrow {
  import opened Wrappers
  import opened Ledger
  import opened Snapshot

  function Deposited(log: seq<Deposit>, u: UserId): int {
    if log == [] then 0
    else Deposited(log[..|log| - 1], u) + (if log[|log| - 1].user == u then log[|log| - 1].amount else 0)
  }

  /** Escrow released by a wallet's rows. */
  function Released(rows: seq<Row>): int {
    if rows == [] then 0
    else Released(rows[..|rows| - 1]) + (if rows[|rows| - 1].txType.CodCredit? then rows[|rows| - 1].amount else 0)
  }

  ghost predicate EscrowAt(b: Books, log: seq<Deposit>, opening: map<UserId, int>, u: UserId) {
    && u in b.wallets && u in opening
    && b.wallets[u].escrow == opening[u] + Deposited(log, u) - Released(RowsOf(b.ledger, u))
  }

  ghost predicate SessionAt(st: Store, a: Session, opening: map<UserId, int>, u: UserId) {
    && EscrowAt(a.local, a.before + a.deposits, opening, u)
    && u in a.seen && u in st.version
    && (a.seen[u] == st.version[u] ==> Deposited(st.deposits, u) == Deposited(a.before, u))
    && (u !in a.wrote ==> Deposited(a.deposits, u) == 0)
  }

  ghost predicate EscrowInv(st: Store, opening: map<UserId, int>, u: UserId) {
    EscrowAt(st.books, st.deposits, opening, u) && forall s | s in st.open :: SessionAt(st, st.open[s], opening, u)
  }

  lemma DepositedAppend(log: seq<Deposit>, d: Deposit, u: UserId)
    ensures Deposited(log + [d], u) == Deposited(log, u) + (if d.user == u then d.amount else 0)
  {
    assert (log + [d])[..|log|] == log;
  }

  lemma {:induction false} DepositedConcat(a: seq<Deposit>, b: seq<Deposit>, u: UserId)
    ensures Deposited(a + b, u) == Deposited(a, u) + Deposited(b, u)
  {
    if b == [] {
      assert a + b == a;
    } else {
      var n := |b| - 1;
      assert (a + b)[..|a + b| - 1] == a + b[..n];
      DepositedConcat(a, b[..n], u);
    }
  }

  lemma ReleasedAppend(rows: seq<Row>, r: Row)
    ensures Released(rows + [r]) == Released(rows) + (if r.txType.CodCredit? then r.amount else 0)
  {
    assert (rows + [r])[..|rows|] == rows;
  }

  lemma RowEscrow(b: Books, b': Books, r: Row, log: seq<Deposit>, opening: map<UserId, int>, u: UserId)
    requires EscrowAt(b, log, opening, u) && b'.ledger == b.ledger + [r] && u in b'.wallets
    requires b.wallets[u].escrow - b'.wallets[u].escrow == if r.user == u && r.txType.CodCredit? then r.amount else 0
    ensures EscrowAt(b', log, opening, u)
  {
    RowsOfAppend(b.ledger, r, u);
    if r.user == u {
      ReleasedAppend(RowsOf(b.ledger, u), r);
    } else {
      assert RowsOf(b.ledger, u) + [] == RowsOf(b.ledger, u);
    }
  }

  lemma ApplyEscrow(b: Books, c: Call, log: seq<Deposit>, opening: map<UserId, int>, u: UserId)
    requires Apply(b, c).Ok? && EscrowAt(b, log, opening, u)
    ensures EscrowAt(Apply(b, c).value.books, log, opening, u)
  {
    var a := Apply(b, c).value;
    if !a.alreadyProcessed {
      RowEscrow(b, a.books, a.row, log, opening, u);
    }
  }

  /** Opening, closing or extending sessions leaves the committed side alone. */
  lemma EscrowFrame(st: Store, st': Store, opening: map<UserId, int>, u: UserId)
    requires EscrowInv(st, opening, u)
    requires st'.books == st.books && st'.version == st.version && st'.deposits == st.deposits
    requires forall k | k in st'.open ::
               (k in st.open && st'.open[k] == st.open[k]) || SessionAt(st, st'.open[k], opening, u)
    ensures EscrowInv(st', opening, u)
  {
    forall k | k in st'.open
      ensures SessionAt(st', st'.open[k], opening, u)
    {
      assert SessionAt(st, st'.open[k], opening, u);
    }
  }

  lemma RanAt(st: Store, a: Session, c: Call, opening: map<UserId, int>, u: UserId)
    requires SessionAt(st, a, opening, u) && Apply(a.local, c).Ok?
    ensures SessionAt(st, a.(local := Apply(a.local, c).value.books, wrote := a.wrote + {c.user}), opening, u)
  {
    ApplyEscrow(a.local, c, a.before + a.deposits, opening, u);
  }

  lemma RunEscrow(st: Store, s: SessionId, c: Call, opening: map<UserId, int>, u: UserId)
    requires EscrowInv(st, opening, u) && s in st.open
    ensures EscrowInv(Next(st, Run(s, c)), opening, u)
  {
    assert SessionAt(st, st.open[s], opening, u);
    if Apply(st.open[s].local, c).Ok? {
      RanAt(st, st.open[s], c, opening, u);
    }
    EscrowFrame(st, Next(st, Run(s, c)), opening, u);
  }

  lemma DeliveredAt(st: Store, a: Session, d: Deposit, opening: map<UserId, int>, u: UserId)
    requires SessionAt(st, a, opening, u) && d.user in a.local.wallets
    ensures SessionAt(st, Delivered(a, d), opening, u)
  {
    DepositedAppend(a.before + a.deposits, d, u);
    DepositedAppend(a.deposits, d, u);
    assert a.before + (a.deposits + [d]) == (a.before + a.deposits) + [d];
  }

  lemma DeliverEscrow(st: Store, s: SessionId, d: Deposit, opening: map<UserId, int>, u: UserId)
    requires EscrowInv(st, opening, u) && s in st.open
    ensures EscrowInv(Next(st, Deliver(s, d)), opening, u)
  {
    assert SessionAt(st, st.open[s], opening, u);
    if d.user in st.open[s].local.wallets {
      DeliveredAt(st, st.open[s], d, opening, u);
    }
    EscrowFrame(st, Next(st, Deliver(s, d)), opening, u);
  }

  lemma InstallEscrow(st: Store, a: Session, opening: map<UserId, int>, u: UserId)
    requires EscrowAt(st.books, st.deposits, opening, u) && SessionAt(st, a, opening, u)
    requires Tracks(st, a, u) && a.base.ledger <= a.local.ledger
    requires forall i | |a.base.ledger| <= i < |a.local.ledger| :: a.local.ledger[i].user in a.wrote
    ensures EscrowAt(Install(st, a).books, Install(st, a).deposits, opening, u)
  {
    CommittedRows(st, a, u);
    DepositedConcat(st.deposits, a.deposits, u);
    DepositedConcat(a.before, a.deposits, u);
  }

  /** A session that goes on after another's commit has seen what it was told, or will conflict. */
  lemma OthersAfterInstall(st: Store, a: Session, o: Session, opening: map<UserId, int>, u: UserId)
    requires SessionAt(st, a, opening, u) && SessionAt(st, o, opening, u) && Tracks(st, o, u)
    ensures SessionAt(Install(st, a), o, opening, u)
  {
    DepositedConcat(st.deposits, a.deposits, u);
  }

  lemma InstallKeepsEscrow(st: Store, s: SessionId, opening: map<UserId, int>, balances: map<UserId, int>, u: UserId)
    requires EscrowInv(st, opening, u) && s in st.open && u in balances
    requires forall k | k in st.open :: SessionOk(st, st.open[k], balances)
    ensures EscrowInv(Install(st, st.open[s]), opening, u)
  {
    var a := st.open[s];
    assert SessionOk(st, a, balances) && Tracks(st, a, u) && SessionAt(st, a, opening, u);
    InstallEscrow(st, a, opening, u);
    forall k | k in st.open
      ensures SessionAt(Install(st, a), st.open[k], opening, u)
    {
      assert SessionOk(st, st.open[k], balances) && Tracks(st, st.open[k], u);
      OthersAfterInstall(st, a, st.open[k], opening, u);
    }
  }

  lemma CloseEscrow(st: Store, s: SessionId, opening: map<UserId, int>, u: UserId)
    requires EscrowInv(st, opening, u)
    ensures EscrowInv(Close(st, s), opening, u)
  {
    EscrowFrame(st, Close(st, s), opening, u);
  }

  lemma CommitEscrow(st: Store, s: SessionId, opening: map<UserId, int>, balances: map<UserId, int>, u: UserId)
    requires EscrowInv(st, opening, u) && s in st.open && u in balances
    requires forall k | k in st.open :: SessionOk(st, st.open[k], balances)
    ensures EscrowInv(Close(Install(st, st.open[s]), s), opening, u)
  {
    InstallKeepsEscrow(st, s, opening, balances, u);
    CloseEscrow(Install(st, st.open[s]), s, opening, u);
  }

  lemma OpenedAt(st: Store, opening: map<UserId, int>, u: UserId)
    requires EscrowAt(st.books, st.deposits, opening, u) && u in st.version
    ensures SessionAt(st, Opened(st), opening, u)
  {
    assert st.deposits + [] == st.deposits;
  }

  lemma NextEscrow(st: Store, e: Event, opening: map<UserId, int>, balances: map<UserId, int>, u: UserId)
    requires EscrowInv(st, opening, u) && Inv(st, balances) && u in balances
    ensures EscrowInv(Next(st, e), opening, u)
  {
    match e
    case Run(s, c) =>
      if s in st.open {
        RunEscrow(st, s, c, opening, u);
      }
    case Deliver(s, d) =>
      if s in st.open {
        DeliverEscrow(st, s, d, opening, u);
      }
    case Commit(s) =>
      if s in st.open {
        CommitEscrow(st, s, opening, balances, u);
      }
    case Begin(_) =>
      OpenedAt(st, opening, u);
      EscrowFrame(st, Next(st, e), opening, u);
    case Abort(_) =>
      EscrowFrame(st, Next(st, e), opening, u);
  }

  function EscrowOpenings(b: Books): map<UserId, int> {
    map u | u in b.wallets :: b.wallets[u].escrow
  }

  /** For any interleaving of sessions, committed escrow is the opening escrow plus the
      deposits of the committed deliveries less what the wallet's committed rows released:
      no delivery is lost or counted twice. */
  lemma {:induction false} CommittedEscrow(st: Store, events: seq<Event>, u: UserId)
    requires Fresh(st) && u in st.books.wallets
    ensures EscrowInv(After(st, events), EscrowOpenings(st.books), u)
  {
    if events != [] {
      var n := |events| - 1;
      CommittedEscrow(st, events[..n], u);
      AfterKeeps(st, events[..n]);
      NextEscrow(After(st, events[..n]), events[n], EscrowOpenings(st.books), Openings(st.books), u);
    }
  }
}
