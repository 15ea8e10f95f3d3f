/** The two concurrent forms of the money step, left alone: one operation run from start to
    end is the sequential step, in either mode. */
module Sequential {
  import opened Wrappers
  import opened Ledger
  import Standalone
  import Snapshot
  import Unsessioned

  // ---- Without sessions ----

  /** The statements of one operation with nothing in between. */
  function Statements(c: Call, i: nat): seq<Standalone.Event> {
    [Standalone.Spawn(c), Standalone.Advance(i), Standalone.Advance(i), Standalone.Advance(i), Standalone.Advance(i)]
  }

  function Go(st: Standalone.State, i: nat): Standalone.State {
    Standalone.Next(st, Standalone.Advance(i))
  }

  lemma AfterStatements(st: Standalone.State, c: Call, i: nat)
    ensures Standalone.After(st, Statements(c, i)) == Go(Go(Go(Go(Standalone.Next(st, Standalone.Spawn(c)), i), i), i), i)
  {
    var e := Statements(c, i);
    assert e[..4][..3] == e[..3] && e[..3][..2] == e[..2] && e[..2][..1] == e[..1] && e[..1][..0] == [];
    assert Standalone.After(st, e[..1]) == Standalone.Next(st, Standalone.Spawn(c));
    assert Standalone.After(st, e[..2]) == Go(Standalone.After(st, e[..1]), i);
    assert Standalone.After(st, e[..3]) == Go(Standalone.After(st, e[..2]), i);
    assert Standalone.After(st, e[..4]) == Go(Standalone.After(st, e[..3]), i);
  }

  /** The state with the operation added at a phase, on the given books. */
  function Staged(st: Standalone.State, b: Books, c: Call, p: Standalone.Phase): Standalone.State {
    Standalone.State(b.wallets, b.ledger, st.ops + [Standalone.Op(c, p)])
  }

  lemma SetLast(st: Standalone.State, b: Books, c: Call, p: Standalone.Phase, q: Standalone.Phase)
    ensures Standalone.Set(Staged(st, b, c, p), |st.ops|, q) == Staged(st, b, c, q)
  {
  }

  lemma ReadStep(st: Standalone.State, b: Books, c: Call)
    ensures Go(Staged(st, b, c, Standalone.Start), |st.ops|) ==
            Staged(st, b, c, if c.user in b.wallets && b.wallets[c.user].isActive
                             then Standalone.HasRead(b.wallets[c.user]) else Standalone.Stopped)
  {
    SetLast(st, b, c, Standalone.Start, if c.user in b.wallets && b.wallets[c.user].isActive
                                        then Standalone.HasRead(b.wallets[c.user]) else Standalone.Stopped);
  }

  lemma CheckStep(st: Standalone.State, b: Books, c: Call, w: Wallet)
    ensures Go(Staged(st, b, c, Standalone.HasRead(w)), |st.ops|) ==
            Staged(st, b, c, if Keyed(c.reference) && Find(b.ledger, c.reference.value).Some?
                             then Standalone.Stopped else Standalone.HasChecked(w))
  {
    SetLast(st, b, c, Standalone.HasRead(w), if Keyed(c.reference) && Find(b.ledger, c.reference.value).Some?
                                             then Standalone.Stopped else Standalone.HasChecked(w));
  }

  /** The wallet has what the step takes from it. */
  predicate Holds(w: Wallet, c: Call) {
    (c.txType.CodCredit? ==> w.escrow >= c.amount) && (IsDebit(c.txType) ==> w.balance >= c.amount)
  }

  lemma UpdateStep(st: Standalone.State, b: Books, c: Call)
    requires c.user in b.wallets && b.wallets[c.user].isActive
    ensures var w := b.wallets[c.user];
            Go(Staged(st, b, c, Standalone.HasChecked(w)), |st.ops|) ==
            if Holds(w, c)
            then Staged(st, b.(wallets := b.wallets[c.user := Moved(w, c)]), c, Standalone.HasUpdated(w.balance, Moved(w, c).balance))
            else Staged(st, b, c, Standalone.Stopped)
  {
    var w := b.wallets[c.user];
    SetLast(st, b, c, Standalone.HasChecked(w), Standalone.Stopped);
    SetLast(st, b.(wallets := b.wallets[c.user := Moved(w, c)]), c, Standalone.HasChecked(w),
            Standalone.HasUpdated(w.balance, Moved(w, c).balance));
  }

  lemma InsertStep(st: Standalone.State, b: Books, c: Call, before: int, after: int)
    ensures Go(Staged(st, b, c, Standalone.HasUpdated(before, after)), |st.ops|) ==
            if c.amount < 1 then Staged(st, b, c, Standalone.Unlogged)
            else Staged(st, b.(ledger := b.ledger + [Row(c.user, c.txType, c.amount, before, after, c.reference)]), c, Standalone.Logged)
  {
    SetLast(st, b, c, Standalone.HasUpdated(before, after), Standalone.Unlogged);
    SetLast(st, b.(ledger := b.ledger + [Row(c.user, c.txType, c.amount, before, after, c.reference)]), c,
            Standalone.HasUpdated(before, after), Standalone.Logged);
  }

  lemma StoppedStays(st: Standalone.State, b: Books, c: Call)
    ensures Go(Staged(st, b, c, Standalone.Stopped), |st.ops|) == Staged(st, b, c, Standalone.Stopped)
  {
  }

  /** How the operation ends: logged, rejected by the insert after its update, or stopped. */
  function Ending(b: Books, c: Call): Standalone.Phase {
    match Apply(b, c)
    case Ok(a) => if a.alreadyProcessed then Standalone.Stopped else Standalone.Logged
    case Err(e) => if e == AmountBelowMinimum then Standalone.Unlogged else Standalone.Stopped
  }

  function Ended(st: Standalone.State, b: Books, c: Call): Standalone.State {
    Go(Go(Go(Go(Staged(st, b, c, Standalone.Start), |st.ops|), |st.ops|), |st.ops|), |st.ops|)
  }

  predicate Reaches(b: Books, c: Call) {
    c.user in b.wallets && b.wallets[c.user].isActive && !(Keyed(c.reference) && Find(b.ledger, c.reference.value).Some?)
    && Holds(b.wallets[c.user], c)
  }

  lemma StoppedEnds(st: Standalone.State, b: Books, c: Call)
    requires !Reaches(b, c)
    ensures Ended(st, b, c) == Staged(st, b, c, Standalone.Stopped)
  {
    ReadStep(st, b, c);
    StoppedStays(st, b, c);
    if c.user in b.wallets && b.wallets[c.user].isActive {
      CheckStep(st, b, c, b.wallets[c.user]);
      UpdateStep(st, b, c);
    }
  }

  lemma UpdatedEnds(st: Standalone.State, b: Books, c: Call)
    requires Reaches(b, c)
    ensures var w := b.wallets[c.user];
            var b' := b.(wallets := b.wallets[c.user := Moved(w, c)]);
            Ended(st, b, c) ==
            if c.amount < 1 then Staged(st, b', c, Standalone.Unlogged)
            else Staged(st, b'.(ledger := b.ledger + [RowOf(w, c)]), c, Standalone.Logged)
  {
    var w := b.wallets[c.user];
    ReadStep(st, b, c);
    CheckStep(st, b, c, w);
    UpdateStep(st, b, c);
    InsertStep(st, b.(wallets := b.wallets[c.user := Moved(w, c)]), c, w.balance, Moved(w, c).balance);
  }

  /** The sequential step by the same distinction. */
  lemma ApplyReaches(b: Books, c: Call)
    ensures Unsessioned.LeftApply(b, c) ==
            (if !Reaches(b, c) then b
             else Books(b.wallets[c.user := Moved(b.wallets[c.user], c)],
                        if c.amount < 1 then b.ledger else b.ledger + [RowOf(b.wallets[c.user], c)]))
    ensures Ending(b, c) ==
            if !Reaches(b, c) then Standalone.Stopped else if c.amount < 1 then Standalone.Unlogged else Standalone.Logged
  {
  }

  /** One operation alone moves exactly what the sequential step moves, and a rejected one
      leaves what that step leaves. */
  lemma AloneIsApply(st: Standalone.State, c: Call)
    ensures var end, b := Standalone.After(st, Statements(c, |st.ops|)), Books(st.wallets, st.ledger);
            && Books(end.wallets, end.ledger) == Unsessioned.LeftApply(b, c)
            && end.ops == st.ops + [Standalone.Op(c, Ending(b, c))]
  {
    var b := Books(st.wallets, st.ledger);
    AfterStatements(st, c, |st.ops|);
    assert Standalone.Next(st, Standalone.Spawn(c)) == Staged(st, b, c, Standalone.Start);
    ApplyReaches(b, c);
    if Reaches(b, c) {
      UpdatedEnds(st, b, c);
    } else {
      StoppedEnds(st, b, c);
    }
  }

  // ---- With sessions ----

  function Session(c: Call, s: Snapshot.SessionId): seq<Snapshot.Event> {
    [Snapshot.Begin(s), Snapshot.Run(s, c), Snapshot.Commit(s)]
  }

  lemma AfterSession(st: Snapshot.Store, c: Call, s: Snapshot.SessionId)
    ensures Snapshot.After(st, Session(c, s)) ==
            Snapshot.Next(Snapshot.Next(Snapshot.Next(st, Snapshot.Begin(s)), Snapshot.Run(s, c)), Snapshot.Commit(s))
  {
    var e := Session(c, s);
    assert e[..2][..1] == e[..1] && e[..1][..0] == [];
    assert Snapshot.After(st, e[..1]) == Snapshot.Next(st, Snapshot.Begin(s));
    assert Snapshot.After(st, e[..2]) == Snapshot.Next(Snapshot.After(st, e[..1]), Snapshot.Run(s, c));
  }

  /** No session at work has written the wallet. */
  ghost predicate Unwritten(st: Snapshot.Store, u: UserId) {
    forall k | k in st.open :: u !in st.open[k].wrote
  }

  /** A session that nobody disturbs commits exactly what the sequential step makes of the
      books, or nothing if that fails. */
  lemma SessionIsApply(st: Snapshot.Store, c: Call, s: Snapshot.SessionId)
    requires s !in st.open && st.version.Keys == st.books.wallets.Keys && Unwritten(st, c.user)
    ensures var end := Snapshot.After(st, Session(c, s));
            && end.open == st.open
            && end.books == match Apply(st.books, c) case Ok(a) => a.books case Err(_) => st.books
  {
    AfterSession(st, c, s);
    var s1 := Snapshot.Next(st, Snapshot.Begin(s));
    var s2 := Snapshot.Next(s1, Snapshot.Run(s, c));
    match Apply(st.books, c)
    case Err(_) =>
      assert s2.open == st.open;
    case Ok(a) =>
      if a.alreadyProcessed {
        assert s2 == s1;
        NothingInstalled(s1, s);
        assert (s1.open - {s}) == st.open;
      } else {
        assert !Snapshot.Conflict(s1, s, c.user);
        OneInstalled(st, s2, s, c);
        assert (s2.open - {s}) == st.open;
      }
  }

  lemma NothingInstalled(st: Snapshot.Store, s: Snapshot.SessionId)
    requires s in st.open && st.open[s].wrote == {} && st.open[s].local.ledger == st.open[s].base.ledger
    ensures Snapshot.Install(st, st.open[s]).books == st.books
  {
    assert Snapshot.Install(st, st.open[s]).books.wallets == st.books.wallets;
  }

  lemma OneInstalled(st: Snapshot.Store, st': Snapshot.Store, s: Snapshot.SessionId, c: Call)
    requires Apply(st.books, c).Ok? && !Apply(st.books, c).value.alreadyProcessed
    requires st'.books == st.books && s in st'.open && st'.open[s].wrote == {c.user}
    requires st'.open[s].base == st.books && st'.open[s].local == Apply(st.books, c).value.books
    ensures Snapshot.Install(st', st'.open[s]).books == Apply(st.books, c).value.books
  {
    var b := Apply(st.books, c).value.books;
    assert Snapshot.Install(st', st'.open[s]).books.wallets == b.wallets;
  }
}
