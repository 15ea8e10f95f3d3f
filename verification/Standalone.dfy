/** Standalone mode: `runInTransaction` passes no session, so every statement of
    `applyTransaction` commits by itself. Any number of operations are in flight,
    each split at its wallet read, reference check, guarded update and ledger insert. */
module Standalone {
  import opened Wrappers
  import opened Ledger

  datatype Phase =
    | Start
    | HasRead(w: Wallet)               // the wallet document as read
    | HasChecked(w: Wallet)            // its reference was not in the ledger
    | HasUpdated(before: int, after: int)
    | Logged                           // balance moved and row inserted
    | Unlogged                         // balance moved, row rejected by the schema minimum
    | Stopped                          // ended before the update

  datatype Op = Op(call: Call, phase: Phase)

  datatype State = State(wallets: map<UserId, Wallet>, ledger: seq<Row>, ops: seq<Op>)

  datatype Event =
    | Spawn(call: Call)
    | Advance(i: nat)
    | SetActive(user: UserId, active: bool)
    | Deposit(user: UserId, amount: int)   // a COD delivery adds to the merchant's escrow

  /** `findOneAndUpdate` with its guard, one atomic statement on the current document. */
  predicate GuardHolds(w: Wallet, c: Call) {
    && w.isActive
    && (c.txType.CodCredit? ==> w.escrow >= c.amount)
    && (IsDebit(c.txType) ==> w.balance >= c.amount)
  }

  function AdvanceOp(st: State, i: nat): State
    requires i < |st.ops|
  {
    var op := st.ops[i];
    var c := op.call;
    match op.phase
    case Start =>
      if c.user in st.wallets && st.wallets[c.user].isActive
      then Set(st, i, HasRead(st.wallets[c.user])) else Set(st, i, Stopped)
    case HasRead(w) =>
      if Keyed(c.reference) && Find(st.ledger, c.reference.value).Some?
      then Set(st, i, Stopped) else Set(st, i, HasChecked(w))
    case HasChecked(w) =>
      if c.txType.CodCredit? && w.escrow < c.amount then Set(st, i, Stopped)
      else if c.user in st.wallets && GuardHolds(st.wallets[c.user], c) then
        var w' := Moved(st.wallets[c.user], c);
        Set(st.(wallets := st.wallets[c.user := w']), i, HasUpdated(w.balance, w'.balance))
      else Set(st, i, Stopped)
    case HasUpdated(before, after) =>
      if c.amount < 1 then Set(st, i, Unlogged)
      else Set(st.(ledger := st.ledger + [Row(c.user, c.txType, c.amount, before, after, c.reference)]), i, Logged)
    case _ => st
  }

  function Set(st: State, i: nat, p: Phase): State
    requires i < |st.ops|
  {
    st.(ops := st.ops[i := st.ops[i].(phase := p)])
  }

  function Next(st: State, e: Event): State {
    match e
    case Spawn(c) => st.(ops := st.ops + [Op(c, Start)])
    case Advance(i) => if i < |st.ops| then AdvanceOp(st, i) else st
    case SetActive(u, active) =>
      if u in st.wallets then st.(wallets := st.wallets[u := st.wallets[u].(isActive := active)]) else st
    case Deposit(u, amount) =>
      if Deposits(st, u)
      then st.(wallets := st.wallets[u := st.wallets[u].(escrow := st.wallets[u].escrow + amount)]) else st
  }

  /** The delivery's update finds an active wallet, or changes nothing. */
  predicate Deposits(st: State, u: UserId) {
    u in st.wallets && st.wallets[u].isActive
  }

  function After(st: State, events: seq<Event>): State {
    if events == [] then st else Next(After(st, events[..|events| - 1]), events[|events| - 1])
  }

  // ---- Sums over the operations in flight and finished ----

  function Due(op: Op, u: UserId): int {
    if op.call.user == u then Signed(op.call.txType, op.call.amount) else 0
  }

  function Released(op: Op, u: UserId): int {
    if op.call.user == u && op.call.txType.CodCredit? then op.call.amount else 0
  }

  predicate PastUpdate(p: Phase) {
    p.HasUpdated? || p.Logged? || p.Unlogged?
  }

  function Weight(op: Op, u: UserId, logged: bool): int {
    if op.phase.Logged? == logged && PastUpdate(op.phase) then Due(op, u) else 0
  }

  /** Signed sum of a user's operations past their update that have (not) written their row. */
  function Sum(ops: seq<Op>, u: UserId, logged: bool): int {
    if ops == [] then 0 else Sum(ops[..|ops| - 1], u, logged) + Weight(ops[|ops| - 1], u, logged)
  }

  function EscrowSum(ops: seq<Op>, u: UserId): int {
    if ops == [] then 0
    else EscrowSum(ops[..|ops| - 1], u)
         + (if PastUpdate(ops[|ops| - 1].phase) then Released(ops[|ops| - 1], u) else 0)
  }

  lemma {:induction false} SumSet(ops: seq<Op>, i: nat, op: Op, u: UserId, logged: bool)
    requires i < |ops|
    ensures Sum(ops[i := op], u, logged) ==
            Sum(ops, u, logged) - Weight(ops[i], u, logged) + Weight(op, u, logged)
  {
    var n := |ops| - 1;
    if i < n {
      assert ops[i := op][..n] == ops[..n][i := op];
      SumSet(ops[..n], i, op, u, logged);
    } else {
      assert ops[i := op][..n] == ops[..n];
    }
  }

  lemma {:induction false} EscrowSumSet(ops: seq<Op>, i: nat, op: Op, u: UserId)
    requires i < |ops|
    ensures EscrowSum(ops[i := op], u) ==
            EscrowSum(ops, u) - (if PastUpdate(ops[i].phase) then Released(ops[i], u) else 0)
            + (if PastUpdate(op.phase) then Released(op, u) else 0)
  {
    var n := |ops| - 1;
    if i < n {
      assert ops[i := op][..n] == ops[..n][i := op];
      EscrowSumSet(ops[..n], i, op, u);
    } else {
      assert ops[i := op][..n] == ops[..n];
    }
  }

  // ---- Invariant ----

  /** The deposits of a run that found their wallet. */
  function Deposited(st: State, events: seq<Event>, u: UserId): int {
    if events == [] then 0
    else
      var n := |events| - 1;
      Deposited(st, events[..n], u)
      + (if events[n].Deposit? && events[n].user == u && Deposits(After(st, events[..n]), u) then events[n].amount else 0)
  }

  ghost predicate Accounts(st: State, opening: map<UserId, Wallet>, u: UserId, deposited: int) {
    && u in st.wallets && u in opening
    && st.wallets[u].balance == opening[u].balance + Sum(st.ops, u, true) + Sum(st.ops, u, false)
    && st.wallets[u].escrow == opening[u].escrow + deposited - EscrowSum(st.ops, u)
    && Fold(st.ledger, u) == Sum(st.ops, u, true)
  }

  /** What one operation's step must do to the wallet and the ledger of `u`. */
  lemma OpAccounts(st: State, st': State, i: nat, op': Op, opening: map<UserId, Wallet>, u: UserId, dep: int)
    requires i < |st.ops| && Accounts(st, opening, u, dep) && st'.ops == st.ops[i := op'] && u in st'.wallets
    requires var op := st.ops[i];
             && st'.wallets[u].balance - st.wallets[u].balance
                == Weight(op', u, true) + Weight(op', u, false) - Weight(op, u, true) - Weight(op, u, false)
             && st.wallets[u].escrow - st'.wallets[u].escrow
                == (if PastUpdate(op'.phase) then Released(op', u) else 0) - (if PastUpdate(op.phase) then Released(op, u) else 0)
             && Fold(st'.ledger, u) - Fold(st.ledger, u) == Weight(op', u, true) - Weight(op, u, true)
    ensures Accounts(st', opening, u, dep)
  {
    SumSet(st.ops, i, op', u, true);
    SumSet(st.ops, i, op', u, false);
    EscrowSumSet(st.ops, i, op', u);
  }

  lemma UpdateAccounts(st: State, i: nat, opening: map<UserId, Wallet>, u: UserId, dep: int)
    requires i < |st.ops| && Accounts(st, opening, u, dep) && st.ops[i].phase.HasChecked?
    ensures Accounts(AdvanceOp(st, i), opening, u, dep)
  {
    var st' := AdvanceOp(st, i);
    OpAccounts(st, st', i, st'.ops[i], opening, u, dep);
  }

  lemma LogAccounts(st: State, i: nat, opening: map<UserId, Wallet>, u: UserId, dep: int)
    requires i < |st.ops| && Accounts(st, opening, u, dep) && st.ops[i].phase.HasUpdated?
    ensures Accounts(AdvanceOp(st, i), opening, u, dep)
  {
    var st' := AdvanceOp(st, i);
    if st.ops[i].call.amount >= 1 {
      FoldAppend(st.ledger, st'.ledger[|st.ledger|], u);
    }
    OpAccounts(st, st', i, st'.ops[i], opening, u, dep);
  }

  lemma ReadAccounts(st: State, i: nat, opening: map<UserId, Wallet>, u: UserId, dep: int)
    requires i < |st.ops| && Accounts(st, opening, u, dep) && (st.ops[i].phase.Start? || st.ops[i].phase.HasRead?)
    ensures Accounts(AdvanceOp(st, i), opening, u, dep)
  {
    var st' := AdvanceOp(st, i);
    OpAccounts(st, st', i, st'.ops[i], opening, u, dep);
  }

  lemma AdvanceAccounts(st: State, i: nat, opening: map<UserId, Wallet>, u: UserId, dep: int)
    requires i < |st.ops| && Accounts(st, opening, u, dep)
    ensures Accounts(AdvanceOp(st, i), opening, u, dep)
  {
    match st.ops[i].phase
    case Start => ReadAccounts(st, i, opening, u, dep);
    case HasRead(_) => ReadAccounts(st, i, opening, u, dep);
    case HasChecked(_) => UpdateAccounts(st, i, opening, u, dep);
    case HasUpdated(_, _) => LogAccounts(st, i, opening, u, dep);
    case _ =>
  }

  lemma NextAccounts(st: State, e: Event, opening: map<UserId, Wallet>, u: UserId, dep: int)
    requires Accounts(st, opening, u, dep)
    ensures Accounts(Next(st, e), opening, u,
                     dep + (if e.Deposit? && e.user == u && Deposits(st, u) then e.amount else 0))
  {
    match e
    case Advance(i) =>
      if i < |st.ops| {
        AdvanceAccounts(st, i, opening, u, dep);
      }
    case Spawn(c) =>
      assert (st.ops + [Op(c, Start)])[..|st.ops|] == st.ops;
    case SetActive(_, _) =>
    case Deposit(_, _) =>
  }

  /** For any interleaving, the stored balance is the opening balance plus the signed
      sum of the operations past their update, logged or not; the ledger accounts for
      exactly the logged ones; escrow has gained what deliveries deposited and lost what
      the remittances released. */
  lemma {:induction false} BalanceCountsUpdates(st: State, events: seq<Event>, u: UserId)
    requires st.ops == [] && st.ledger == [] && u in st.wallets
    ensures Accounts(After(st, events), st.wallets, u, Deposited(st, events, u))
  {
    if events != [] {
      var n := |events| - 1;
      BalanceCountsUpdates(st, events[..n], u);
      NextAccounts(After(st, events[..n]), events[n], st.wallets, u, Deposited(st, events[..n], u));
    }
  }

  /** The service layer passes positive or zero amounts only. */
  predicate NonNegativeCalls(events: seq<Event>) {
    forall i | 0 <= i < |events| ::
      (events[i].Spawn? ==> events[i].call.amount >= 0) && (events[i].Deposit? ==> events[i].amount >= 0)
  }

  ghost predicate NothingNegative(st: State) {
    && (forall i | 0 <= i < |st.ops| :: st.ops[i].call.amount >= 0)
    && (forall u | u in st.wallets :: st.wallets[u].balance >= 0 && st.wallets[u].escrow >= 0)
  }

  /** Whatever the interleaving, the guards alone keep balance and escrow from going negative. */
  lemma {:induction false} NeverNegative(st: State, events: seq<Event>)
    requires NothingNegative(st) && NonNegativeCalls(events)
    ensures NothingNegative(After(st, events))
  {
    if events != [] {
      var n := |events| - 1;
      assert NonNegativeCalls(events[..n]);
      NeverNegative(st, events[..n]);
      assert events[n].Spawn? ==> events[n].call.amount >= 0;
      assert events[n].Deposit? ==> events[n].amount >= 0;
    }
  }

  /** The sign condition is exact: the guarded update alone lets a credit of a
      negative amount take the balance below zero. */
  lemma GuardedUpdateNegative(w: Wallet, c: Call)
    requires GuardHolds(w, c) && w.balance >= 0
    ensures Moved(w, c).balance < 0 <==> !IsDebit(c.txType) && c.amount < -w.balance
  {
  }

  // ---- What is lost without sessions ----

  /** Two copies of one call, advanced in lockstep. */
  function Twice(c: Call): seq<Event> {
    [Spawn(c), Spawn(c)] + Round() + Round() + Round() + Round()
  }

  function Round(): seq<Event> {
    [Advance(0), Advance(1)]
  }

  function Both(st: State): State {
    Next(Next(st, Advance(0)), Advance(1))
  }

  lemma AfterTwo(st: State, events: seq<Event>, e: Event, f: Event)
    ensures After(st, events + [e, f]) == Next(Next(After(st, events), e), f)
  {
    var all := events + [e, f];
    assert all[..|all| - 1] == events + [e] && (events + [e])[..|events|] == events;
  }

  lemma AfterTwice(st: State, c: Call)
    ensures After(st, Twice(c)) == Both(Both(Both(Both(Next(Next(st, Spawn(c)), Spawn(c))))))
  {
    var e := [Spawn(c), Spawn(c)];
    AfterTwo(st, [], Spawn(c), Spawn(c));
    assert [] + e == e;
    AfterTwo(st, e, Advance(0), Advance(1));
    AfterTwo(st, e + Round(), Advance(0), Advance(1));
    AfterTwo(st, e + Round() + Round(), Advance(0), Advance(1));
    AfterTwo(st, e + Round() + Round() + Round(), Advance(0), Advance(1));
  }

  /** Lockstep up to the updates: both read, both pass the reference check, both move the balance. */
  lemma BothUpdate(st: State, c: Call)
    requires st.ops == [Op(c, Start), Op(c, Start)] && st.ledger == [] && c.txType == TxType.Charge && c.amount >= 1
    requires c.user in st.wallets && st.wallets[c.user].isActive && st.wallets[c.user].balance >= 2 * c.amount
    ensures var s := Both(Both(Both(st)));
            var b := st.wallets[c.user].balance;
            && s.ops == [Op(c, HasUpdated(b, b - c.amount)), Op(c, HasUpdated(b, b - 2 * c.amount))]
            && s.ledger == [] && c.user in s.wallets && s.wallets[c.user].balance == b - 2 * c.amount
  {
    var w := st.wallets[c.user];
    var s1 := Both(st);
    assert s1 == st.(ops := [Op(c, HasRead(w)), Op(c, HasRead(w))]);
    var s2 := Both(s1);
    assert s2 == st.(ops := [Op(c, HasChecked(w)), Op(c, HasChecked(w))]);
  }

  /** One request delivered twice at the same moment is charged twice: both operations
      pass the reference check before either inserts its row, the ledger holds the
      reference twice and its two rows do not chain. */
  lemma DuplicateIsChargedTwice(st: State, u: UserId, amount: int, ref: string)
    requires st.ops == [] && st.ledger == [] && amount >= 1
    requires u in st.wallets && st.wallets[u].isActive && st.wallets[u].balance >= 2 * amount
    ensures var end := After(st, Twice(Call(u, TxType.Charge, amount, Some(ref))));
            && u in end.wallets
            && end.wallets[u].balance == st.wallets[u].balance - 2 * amount
            && |end.ledger| == 2
            && end.ledger[0].reference == end.ledger[1].reference == Some(ref)
            && end.ledger[1].before != end.ledger[0].after
  {
    var c := Call(u, TxType.Charge, amount, Some(ref));
    AfterTwice(st, c);
    var s0 := Next(Next(st, Spawn(c)), Spawn(c));
    assert s0.ops == [Op(c, Start), Op(c, Start)];
    BothUpdate(s0, c);
  }
}
