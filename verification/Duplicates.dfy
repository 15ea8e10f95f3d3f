/** Deduplication without sessions: when a reference moves money once, and exactly when
    it moves it twice. */
module Duplicates {
  import opened Wrappers
  import opened Ledger
  import opened Standalone

  predicate Ended(p: Phase) {
    p.Logged? || p.Stopped?
  }

  predicate PastCheck(p: Phase) {
    p.HasChecked? || PastUpdate(p)
  }

  /** Operations i and j carry one reference. */
  predicate SameKey(st: State, i: nat, j: nat) {
    && i < |st.ops| && j < |st.ops| && Keyed(st.ops[i].call.reference)
    && st.ops[i].call.reference == st.ops[j].call.reference
  }

  // ---- Spaced requests are deduplicated ----

  /** When the call is made, every earlier one under its reference has ended. */
  ghost predicate Spaced(st: State, c: Call) {
    Keyed(c.reference) ==>
      && c.amount >= 1
      && forall i | 0 <= i < |st.ops| && st.ops[i].call.reference == c.reference :: Ended(st.ops[i].phase)
  }

  ghost predicate AllSpaced(st: State, events: seq<Event>) {
    forall n | 0 <= n < |events| && events[n].Spawn? :: Spaced(After(st, events[..n]), events[n].call)
  }

  ghost predicate OpOk(st: State, i: nat)
    requires i < |st.ops|
  {
    var op := st.ops[i];
    Keyed(op.call.reference) ==>
      && op.call.amount >= 1 && !op.phase.Unlogged?
      && (op.phase.Logged? ==> Find(st.ledger, op.call.reference.value).Some?)
      && (op.phase.HasChecked? || op.phase.HasUpdated? ==> Find(st.ledger, op.call.reference.value).None?)
  }

  ghost predicate PairOk(st: State, i: nat, j: nat)
    requires i < |st.ops| && j < |st.ops|
  {
    SameKey(st, i, j) ==> Ended(st.ops[i].phase) && !(st.ops[i].phase.Logged? && st.ops[j].phase.Logged?)
  }

  ghost predicate Dedup(st: State) {
    && UniqueReferences(st.ledger)
    && (forall i | 0 <= i < |st.ops| :: OpOk(st, i))
    && (forall i, j | 0 <= i < j < |st.ops| :: PairOk(st, i, j))
  }

  lemma SpawnDedup(st: State, c: Call)
    requires Dedup(st) && Spaced(st, c)
    ensures Dedup(Next(st, Spawn(c)))
  {
    var st' := Next(st, Spawn(c));
    forall i | 0 <= i < |st'.ops|
      ensures OpOk(st', i)
    {
      assert i < |st.ops| ==> OpOk(st, i);
    }
    forall i, j | 0 <= i < j < |st'.ops|
      ensures PairOk(st', i, j)
    {
      assert j < |st.ops| ==> PairOk(st, i, j);
    }
  }

  /** No other operation under the reference of one in flight is past its check. */
  lemma Alone(st: State, k: nat, i: nat)
    requires Dedup(st) && SameKey(st, k, i) && i != k && !Ended(st.ops[k].phase)
    ensures !st.ops[i].phase.HasChecked? && !st.ops[i].phase.HasUpdated?
  {
    assert i < k ==> PairOk(st, i, k);
    assert k < i ==> PairOk(st, k, i);
  }

  lemma InsertUnique(ledger: seq<Row>, r: Row)
    requires UniqueReferences(ledger) && (Keyed(r.reference) ==> Find(ledger, r.reference.value).None?)
    ensures UniqueReferences(ledger + [r])
  {
    if Keyed(r.reference) {
      FindWitness(ledger, r.reference.value);
    }
  }

  lemma LogDedup(st: State, k: nat)
    requires Dedup(st) && k < |st.ops| && st.ops[k].phase.HasUpdated?
    ensures Dedup(AdvanceOp(st, k))
  {
    var st' := AdvanceOp(st, k);
    var c := st.ops[k].call;
    assert OpOk(st, k);
    if c.amount >= 1 {
      var row := st'.ledger[|st.ledger|];
      InsertUnique(st.ledger, row);
    }
    forall i | 0 <= i < |st'.ops|
      ensures OpOk(st', i)
    {
      assert OpOk(st, i);
      if c.amount >= 1 && Keyed(st.ops[i].call.reference) {
        FindAppend(st.ledger, st'.ledger[|st.ledger|], st.ops[i].call.reference.value);
        if i != k && SameKey(st, k, i) {
          Alone(st, k, i);
        }
      }
    }
    forall i, j | 0 <= i < j < |st'.ops|
      ensures PairOk(st', i, j)
    {
      assert PairOk(st, i, j) && OpOk(st, i) && OpOk(st, j);
    }
  }

  lemma AdvanceDedup(st: State, k: nat)
    requires Dedup(st) && k < |st.ops|
    ensures Dedup(AdvanceOp(st, k))
  {
    if st.ops[k].phase.HasUpdated? {
      LogDedup(st, k);
    } else {
      var st' := AdvanceOp(st, k);
      forall i | 0 <= i < |st'.ops|
        ensures OpOk(st', i)
      {
        assert OpOk(st, i);
      }
      forall i, j | 0 <= i < j < |st'.ops|
        ensures PairOk(st', i, j)
      {
        assert PairOk(st, i, j);
      }
    }
  }

  /** Wallet events touch neither operations nor ledger. */
  lemma WalletDedup(st: State, e: Event)
    requires Dedup(st) && (e.SetActive? || e.Deposit?)
    ensures Dedup(Next(st, e))
  {
    var st' := Next(st, e);
    assert st'.ops == st.ops && st'.ledger == st.ledger;
    assert forall i | 0 <= i < |st.ops| :: OpOk(st, i) ==> OpOk(st', i);
    assert forall i, j | 0 <= i < j < |st.ops| :: PairOk(st, i, j) ==> PairOk(st', i, j);
  }

  lemma NextDedup(st: State, e: Event)
    requires Dedup(st) && (e.Spawn? ==> Spaced(st, e.call))
    ensures Dedup(Next(st, e))
  {
    if e.Spawn? {
      SpawnDedup(st, e.call);
    } else if e.Advance? {
      if e.i < |st.ops| {
        AdvanceDedup(st, e.i);
      }
    } else {
      WalletDedup(st, e);
    }
  }

  lemma {:induction false} AfterDedup(st: State, events: seq<Event>)
    requires Dedup(st) && AllSpaced(st, events)
    ensures Dedup(After(st, events))
  {
    if events != [] {
      var n := |events| - 1;
      forall k | 0 <= k < n && events[..n][k].Spawn?
        ensures Spaced(After(st, events[..n][..k]), events[..n][k].call)
      {
        assert events[..n][..k] == events[..k];
      }
      AfterDedup(st, events[..n]);
      NextDedup(After(st, events[..n]), events[n]);
    }
  }

  /** If every keyed call is of at least one paisa and made only after all earlier calls
      under its reference have ended, then under every interleaving each reference is past
      its update at most once and is in the ledger at most once. */
  lemma SpacedCallsPostOnce(st: State, events: seq<Event>, i: nat, j: nat)
    requires st.ops == [] && UniqueReferences(st.ledger) && AllSpaced(st, events)
    requires SameKey(After(st, events), i, j) && i != j
    ensures var s := After(st, events);
            UniqueReferences(s.ledger) && !(PastUpdate(s.ops[i].phase) && PastUpdate(s.ops[j].phase))
  {
    AfterDedup(st, events);
    var s := After(st, events);
    assert OpOk(s, i) && OpOk(s, j);
    assert if i < j then PairOk(s, i, j) else PairOk(s, j, i);
  }

  lemma SpacedLedgerUnique(st: State, events: seq<Event>)
    requires st.ops == [] && UniqueReferences(st.ledger) && AllSpaced(st, events)
    ensures UniqueReferences(After(st, events).ledger)
  {
    AfterDedup(st, events);
  }

  // ---- Exactly when one reference moves money twice ----

  /** Event n is j's reference check, passed while i is past its own and has no row. */
  ghost predicate PassesAt(st: State, events: seq<Event>, n: nat, i: nat, j: nat)
    requires n < |events|
  {
    var s := After(st, events[..n]);
    && events[n] == Advance(j) && i < |s.ops| && j < |s.ops|
    && s.ops[j].phase.HasRead? && Next(s, events[n]).ops[j].phase.HasChecked?
    && (s.ops[i].phase.HasChecked? || s.ops[i].phase.HasUpdated? || s.ops[i].phase.Unlogged?)
  }

  ghost predicate PassedWhile(st: State, events: seq<Event>, i: nat, j: nat) {
    exists n :: 0 <= n < |events| && PassesAt(st, events, n, i, j)
  }

  /** Neither waiting at the guarded update nor refused, by it or before it. */
  predicate Through(p: Phase) {
    !p.HasChecked? && !p.Stopped?
  }

  ghost predicate LoggedSeen(st: State) {
    forall i | 0 <= i < |st.ops| && st.ops[i].phase.Logged? && Keyed(st.ops[i].call.reference) ::
      Find(st.ledger, st.ops[i].call.reference.value).Some?
  }

  /** Operations keep their place and call, and once past the check are so or refused. */
  lemma OpStays(st: State, e: Event, i: nat)
    requires i < |st.ops|
    ensures i < |Next(st, e).ops| && Next(st, e).ops[i].call == st.ops[i].call
    ensures PastCheck(st.ops[i].phase) ==>
              PastCheck(Next(st, e).ops[i].phase) || Next(st, e).ops[i].phase.Stopped?
    ensures st.ops[i].phase.Stopped? ==> Next(st, e).ops[i].phase.Stopped?
  {
  }

  /** A row stays found, and an operation that is logged now was so before or has just inserted its row. */
  lemma RowsStay(st: State, e: Event, text: string)
    requires Find(st.ledger, text).Some?
    ensures Find(Next(st, e).ledger, text).Some?
  {
    var l' := Next(st, e).ledger;
    if l' != st.ledger {
      FindAppend(st.ledger, l'[|st.ledger|], text);
    }
  }

  lemma JustLogged(st: State, e: Event, i: nat)
    requires i < |Next(st, e).ops| && Next(st, e).ops[i].phase.Logged? && Keyed(Next(st, e).ops[i].call.reference)
    requires i < |st.ops| ==> !st.ops[i].phase.Logged?
    ensures Find(Next(st, e).ledger, Next(st, e).ops[i].call.reference.value).Some?
  {
    var st' := Next(st, e);
    assert e == Advance(i) && st.ops[i].phase.HasUpdated?;
    FindAppend(st.ledger, st'.ledger[|st.ledger|], st'.ops[i].call.reference.value);
  }

  lemma NextLogged(st: State, e: Event)
    requires LoggedSeen(st)
    ensures LoggedSeen(Next(st, e))
  {
    var st' := Next(st, e);
    forall i | 0 <= i < |st'.ops| && st'.ops[i].phase.Logged? && Keyed(st'.ops[i].call.reference)
      ensures Find(st'.ledger, st'.ops[i].call.reference.value).Some?
    {
      if i < |st.ops| && st.ops[i].phase.Logged? {
        OpStays(st, e, i);
        RowsStay(st, e, st'.ops[i].call.reference.value);
      } else {
        JustLogged(st, e, i);
      }
    }
  }

  lemma {:induction false} AfterLogged(st: State, events: seq<Event>)
    requires st.ops == []
    ensures LoggedSeen(After(st, events))
  {
    if events != [] {
      AfterLogged(st, events[..|events| - 1]);
      NextLogged(After(st, events[..|events| - 1]), events[|events| - 1]);
    }
  }

  /** The step that takes the second of two operations past its check. */
  lemma CheckStep(s: State, e: Event, i: nat, j: nat)
    requires LoggedSeen(s) && i != j && SameKey(Next(s, e), i, j)
    requires PastCheck(Next(s, e).ops[i].phase) && PastCheck(Next(s, e).ops[j].phase)
    requires j < |s.ops| && !PastCheck(s.ops[j].phase)
    ensures e == Advance(j) && i < |s.ops| && s.ops[j].phase.HasRead? && Next(s, e).ops[j].phase.HasChecked?
    ensures s.ops[i].phase.HasChecked? || s.ops[i].phase.HasUpdated? || s.ops[i].phase.Unlogged?
  {
    OpStays(s, e, j);
    assert e == Advance(j);
    assert s.ops[i] == Next(s, e).ops[i];
  }

  lemma PassedEarlier(st: State, events: seq<Event>, i: nat, j: nat)
    requires events != [] && PassedWhile(st, events[..|events| - 1], i, j)
    ensures PassedWhile(st, events, i, j)
  {
    var m := |events| - 1;
    var n :| 0 <= n < m && PassesAt(st, events[..m], n, i, j);
    assert events[..m][..n] == events[..n] && events[..m][n] == events[n];
    assert PassesAt(st, events, n, i, j);
  }

  lemma {:induction false} BothCheckedOverlap(st: State, events: seq<Event>, i: nat, j: nat)
    requires st.ops == [] && i != j && SameKey(After(st, events), i, j)
    requires PastCheck(After(st, events).ops[i].phase) && PastCheck(After(st, events).ops[j].phase)
    ensures PassedWhile(st, events, i, j) || PassedWhile(st, events, j, i)
  {
    var n := |events| - 1;
    var s := After(st, events[..n]);
    AfterLogged(st, events[..n]);
    assert i < |s.ops| && j < |s.ops|;
    OpStays(s, events[n], i);
    OpStays(s, events[n], j);
    if !PastCheck(s.ops[j].phase) {
      CheckStep(s, events[n], i, j);
      assert PassesAt(st, events, n, i, j);
    } else if !PastCheck(s.ops[i].phase) {
      CheckStep(s, events[n], j, i);
      assert PassesAt(st, events, n, j, i);
    } else {
      BothCheckedOverlap(st, events[..n], i, j);
      if PassedWhile(st, events[..n], i, j) {
        PassedEarlier(st, events, i, j);
      } else {
        PassedEarlier(st, events, j, i);
      }
    }
  }

  predicate CheckedOrStopped(st: State, i: nat) {
    i < |st.ops| && (PastCheck(st.ops[i].phase) || st.ops[i].phase.Stopped?)
  }

  lemma CheckedStays(st: State, e: Event, i: nat)
    requires CheckedOrStopped(st, i)
    ensures CheckedOrStopped(Next(st, e), i)
  {
    OpStays(st, e, i);
  }

  lemma OverlapHolds(st: State, events: seq<Event>, i: nat, j: nat)
    requires events != [] && PassesAt(st, events, |events| - 1, i, j) && i != j
    ensures CheckedOrStopped(After(st, events), i) && CheckedOrStopped(After(st, events), j)
  {
    var n := |events| - 1;
    CheckedStays(After(st, events[..n]), events[n], i);
  }

  lemma PassesPrefix(st: State, events: seq<Event>, m: nat, n: nat, i: nat, j: nat)
    requires n < m <= |events| && PassesAt(st, events, n, i, j)
    ensures PassesAt(st, events[..m], n, i, j)
  {
    assert events[..m][..n] == events[..n] && events[..m][n] == events[n];
  }

  lemma {:induction false} OverlapStays(st: State, events: seq<Event>, n: nat, i: nat, j: nat)
    requires n < |events| && PassesAt(st, events, n, i, j) && i != j
    ensures CheckedOrStopped(After(st, events), i) && CheckedOrStopped(After(st, events), j)
    decreases |events|
  {
    var m := |events| - 1;
    if n == m {
      OverlapHolds(st, events, i, j);
    } else {
      PassesPrefix(st, events, m, n, i, j);
      OverlapStays(st, events[..m], n, i, j);
      CheckedStays(After(st, events[..m]), events[m], i);
      CheckedStays(After(st, events[..m]), events[m], j);
    }
  }

  /** Two operations under one reference have both moved the wallet if and only if one
      passed its reference check while the other was past its own without a row, and
      neither was refused or still waits at the guarded update. */
  lemma BothPostExactly(st: State, events: seq<Event>, i: nat, j: nat)
    requires st.ops == [] && i != j && SameKey(After(st, events), i, j)
    ensures var p, q := After(st, events).ops[i].phase, After(st, events).ops[j].phase;
            PastUpdate(p) && PastUpdate(q) <==>
            (PassedWhile(st, events, i, j) || PassedWhile(st, events, j, i)) && Through(p) && Through(q)
  {
    var s := After(st, events);
    if PastUpdate(s.ops[i].phase) && PastUpdate(s.ops[j].phase) {
      BothCheckedOverlap(st, events, i, j);
    }
    if PassedWhile(st, events, i, j) {
      var n :| 0 <= n < |events| && PassesAt(st, events, n, i, j);
      OverlapStays(st, events, n, i, j);
    }
    if PassedWhile(st, events, j, i) {
      var n :| 0 <= n < |events| && PassesAt(st, events, n, j, i);
      OverlapStays(st, events, n, j, i);
    }
  }

  // ---- A retry before the first attempt has ended ----

  /** The wallet is active and covers k moves of the call. */
  predicate Covers(w: Wallet, c: Call, k: nat) {
    && w.isActive
    && (c.txType.CodCredit? ==> w.escrow >= k * c.amount)
    && (IsDebit(c.txType) ==> w.balance >= k * c.amount)
  }

  /** The wallet as the operation read it, if it has, does not refuse it. */
  predicate ReadCovers(op: Op) {
    (op.phase.HasRead? || op.phase.HasChecked?) && op.call.txType.CodCredit? ==> op.phase.w.escrow >= op.call.amount
  }

  function Moves(p: Phase): nat {
    if PastUpdate(p) then 1 else 2
  }

  /** Operation i is in flight, its reference unused, and the wallet covers it and a retry. */
  ghost predicate Retriable(st: State, i: nat) {
    && i < |st.ops| && !Ended(st.ops[i].phase) && ReadCovers(st.ops[i])
    && var c := st.ops[i].call;
       && Keyed(c.reference) && Find(st.ledger, c.reference.value).None? && c.amount >= 1
       && c.user in st.wallets && Covers(st.wallets[c.user], c, Moves(st.ops[i].phase))
  }

  /** Advances that take an operation past its update. */
  function Onward(i: nat, p: Phase): seq<Event> {
    match p
    case Start => [Advance(i), Advance(i), Advance(i)]
    case HasRead(_) => [Advance(i), Advance(i)]
    case HasChecked(_) => [Advance(i)]
    case _ => []
  }

  /** Operation j, a retry of i, reads and checks, i goes on, j updates. */
  function Race(i: nat, p: Phase, j: nat): seq<Event> {
    [Advance(j), Advance(j)] + Onward(i, p) + [Advance(j)]
  }

  lemma {:induction false} AfterConcat(st: State, a: seq<Event>, b: seq<Event>)
    ensures After(st, a + b) == After(After(st, a), b)
  {
    if b == [] {
      assert a + b == a;
    } else {
      var n := |b| - 1;
      assert (a + b)[..|a + b| - 1] == a + b[..n];
      AfterConcat(st, a, b[..n]);
    }
  }

  lemma AfterOne(st: State, e: Event)
    ensures After(st, [e]) == Next(st, e)
  {
    assert [e][..0] == [];
  }

  lemma UpdateStep(st: State, i: nat, k: nat)
    requires i < |st.ops| && st.ops[i].phase.HasChecked? && ReadCovers(st.ops[i]) && st.ops[i].call.amount >= 1 && k >= 1
    requires st.ops[i].call.user in st.wallets && Covers(st.wallets[st.ops[i].call.user], st.ops[i].call, k)
    ensures var c, st' := st.ops[i].call, Next(st, Advance(i));
            && st'.ledger == st.ledger && |st'.ops| == |st.ops| && st'.ops[i].phase.HasUpdated? && st'.ops[i].call == c
            && (forall j | 0 <= j < |st.ops| && j != i :: st'.ops[j] == st.ops[j])
            && c.user in st'.wallets && Covers(st'.wallets[c.user], c, k - 1)
  {
    var c := st.ops[i].call;
    assert k * c.amount == (k - 1) * c.amount + c.amount;
    assert (k - 1) * c.amount >= 0;
  }

  /** Reading and checking touch nothing but the operation. */
  lemma ReachCheck(st: State, i: nat)
    requires i < |st.ops| && (st.ops[i].phase.Start? || st.ops[i].phase.HasRead?) && ReadCovers(st.ops[i])
    requires var c := st.ops[i].call;
             && Keyed(c.reference) && Find(st.ledger, c.reference.value).None? && c.amount >= 1
             && c.user in st.wallets && Covers(st.wallets[c.user], c, 1)
    ensures var s := After(st, if st.ops[i].phase.Start? then [Advance(i), Advance(i)] else [Advance(i)]);
            && s == st.(ops := s.ops) && |s.ops| == |st.ops| && s.ops[i].phase.HasChecked?
            && s.ops[i].call == st.ops[i].call && ReadCovers(s.ops[i])
            && forall j | 0 <= j < |st.ops| && j != i :: s.ops[j] == st.ops[j]
  {
    AfterOne(st, Advance(i));
    if st.ops[i].phase.Start? {
      AfterConcat(st, [Advance(i)], [Advance(i)]);
      AfterOne(Next(st, Advance(i)), Advance(i));
      assert [Advance(i), Advance(i)] == [Advance(i)] + [Advance(i)];
    }
  }

  lemma Goes(st: State, i: nat, k: nat)
    requires i < |st.ops| && !Ended(st.ops[i].phase) && ReadCovers(st.ops[i]) && k >= 1
    requires var c := st.ops[i].call;
             && Keyed(c.reference) && Find(st.ledger, c.reference.value).None? && c.amount >= 1
             && c.user in st.wallets && Covers(st.wallets[c.user], c, k)
    ensures var c, s := st.ops[i].call, After(st, Onward(i, st.ops[i].phase));
            && |s.ops| == |st.ops| && PastUpdate(s.ops[i].phase) && s.ops[i].call == c && s.ledger == st.ledger
            && (if PastUpdate(st.ops[i].phase) then s.ops[i] == st.ops[i] else s.ops[i].phase.HasUpdated?)
            && (forall j | 0 <= j < |st.ops| && j != i :: s.ops[j] == st.ops[j])
            && c.user in s.wallets && Covers(s.wallets[c.user], c, if PastUpdate(st.ops[i].phase) then k else k - 1)
  {
    var p := st.ops[i].phase;
    if PastUpdate(p) {
    } else if p.HasChecked? {
      AfterOne(st, Advance(i));
      UpdateStep(st, i, k);
    } else {
      var e := if p.Start? then [Advance(i), Advance(i)] else [Advance(i)];
      FewerCovered(st.wallets[st.ops[i].call.user], st.ops[i].call, k);
      ReachCheck(st, i);
      AfterConcat(st, e, [Advance(i)]);
      AfterOne(After(st, e), Advance(i));
      UpdateStep(After(st, e), i, k);
      assert Onward(i, p) == e + [Advance(i)];
    }
  }

  lemma FewerCovered(w: Wallet, c: Call, k: nat)
    requires Covers(w, c, k) && k >= 1 && c.amount >= 1
    ensures Covers(w, c, 1)
  {
    assert k * c.amount == (k - 1) * c.amount + c.amount;
    assert (k - 1) * c.amount >= 0;
  }

  /** The retry reads and checks while the first attempt has no row. */
  lemma RetryChecks(st: State, i: nat)
    requires Retriable(st, i)
    ensures var c, j := st.ops[i].call, |st.ops|;
            var s := After(Next(st, Spawn(c)), [Advance(j), Advance(j)]);
            && s == st.(ops := s.ops) && |s.ops| == j + 1 && s.ops[j].phase.HasChecked?
            && s.ops[j].call == c && ReadCovers(s.ops[j]) && s.ops[i] == st.ops[i]
  {
    var c, j := st.ops[i].call, |st.ops|;
    FewerCovered(st.wallets[c.user], c, Moves(st.ops[i].phase));
    var s0 := Next(st, Spawn(c));
    ReachCheck(s0, j);
    assert After(s0, [Advance(j), Advance(j)]).ops[i] == s0.ops[i];
  }

  /** A retry made before the first attempt has ended can move the wallet a second time:
      from every state with such an attempt there is a schedule after which both have. */
  lemma RetryPostsTwice(st: State, i: nat)
    requires Retriable(st, i)
    ensures var j := |st.ops|;
            var s := After(Next(st, Spawn(st.ops[i].call)), Race(i, st.ops[i].phase, j));
            && |s.ops| == j + 1 && SameKey(s, i, j) && s.ops[i].call == st.ops[i].call
            && PastUpdate(s.ops[i].phase) && s.ops[j].phase.HasUpdated? && s.ledger == st.ledger
            && (!s.ops[i].phase.HasUpdated? ==> st.ops[i].phase.Unlogged?)
  {
    var j, p := |st.ops|, st.ops[i].phase;
    var s0 := Next(st, Spawn(st.ops[i].call));
    var head := [Advance(j), Advance(j)];
    RetryChecks(st, i);
    var s1 := After(s0, head);
    Goes(s1, i, Moves(p));
    var s2 := After(s1, Onward(i, p));
    AfterConcat(s0, head, Onward(i, p));
    AfterConcat(s0, head + Onward(i, p), [Advance(j)]);
    AfterOne(s2, Advance(j));
    LastUpdate(s2, i, j);
    assert Race(i, p, j) == head + Onward(i, p) + [Advance(j)];
    assert After(s0, Race(i, p, j)) == Next(s2, Advance(j));
  }

  lemma LastUpdate(s: State, i: nat, j: nat)
    requires i < |s.ops| && j < |s.ops| && i != j && s.ops[j].phase.HasChecked? && ReadCovers(s.ops[j])
    requires PastUpdate(s.ops[i].phase) && s.ops[j].call.amount >= 1
    requires s.ops[j].call.user in s.wallets && Covers(s.wallets[s.ops[j].call.user], s.ops[j].call, 1)
    ensures var s' := Next(s, Advance(j));
            s'.ops[i] == s.ops[i] && s'.ops[j].phase.HasUpdated? && |s'.ops| == |s.ops| && s'.ledger == s.ledger
            && s'.ops[i].call == s.ops[i].call && s'.ops[j].call == s.ops[j].call
  {
    UpdateStep(s, j, 1);
  }

  lemma BothInsert(s: State, i: nat, j: nat)
    requires SameKey(s, i, j) && i != j && s.ops[i].phase.HasUpdated? && s.ops[j].phase.HasUpdated?
    requires s.ops[i].call == s.ops[j].call && s.ops[i].call.amount >= 1
    ensures !UniqueReferences(After(s, [Advance(i), Advance(j)]).ledger)
  {
    AfterConcat(s, [Advance(i)], [Advance(j)]);
    AfterOne(s, Advance(i));
    AfterOne(Next(s, Advance(i)), Advance(j));
    assert [Advance(i)] + [Advance(j)] == [Advance(i), Advance(j)];
    var l, n := After(s, [Advance(i), Advance(j)]).ledger, |s.ledger|;
    assert l[n].reference == l[n + 1].reference == s.ops[i].call.reference;
  }

  /** And then the ledger holds the reference twice. */
  lemma RetryBreaksLedger(st: State, i: nat)
    requires Retriable(st, i) && !st.ops[i].phase.Unlogged?
    ensures var j := |st.ops|;
            !UniqueReferences(After(Next(st, Spawn(st.ops[i].call)),
                                    Race(i, st.ops[i].phase, j) + [Advance(i), Advance(j)]).ledger)
  {
    var j := |st.ops|;
    var s0 := Next(st, Spawn(st.ops[i].call));
    RetryPostsTwice(st, i);
    AfterConcat(s0, Race(i, st.ops[i].phase, j), [Advance(i), Advance(j)]);
    SpawnedCall(st, st.ops[i].call, Race(i, st.ops[i].phase, j));
    BothInsert(After(s0, Race(i, st.ops[i].phase, j)), i, j);
  }

  lemma {:induction false} SpawnedCall(st: State, c: Call, events: seq<Event>)
    ensures var s := After(Next(st, Spawn(c)), events); |st.ops| < |s.ops| && s.ops[|st.ops|].call == c
  {
    if events != [] {
      SpawnedCall(st, c, events[..|events| - 1]);
      OpStays(After(Next(st, Spawn(c)), events[..|events| - 1]), events[|events| - 1], |st.ops|);
    }
  }

  // ---- When a retry is safe ----

  ghost predicate NoSpawns(events: seq<Event>) {
    forall n | 0 <= n < |events| :: !events[n].Spawn?
  }

  ghost predicate PostsOnce(st: State, reference: Option<string>) {
    forall i: nat, j: nat | SameKey(st, i, j) && i != j && st.ops[i].call.reference == reference ::
      !(PastUpdate(st.ops[i].phase) && PastUpdate(st.ops[j].phase))
  }

  /** Every attempt under the reference so far is this call, unread or with a wallet that covers it. */
  ghost predicate SameCall(st: State, c: Call) {
    forall i | 0 <= i < |st.ops| && st.ops[i].call.reference == c.reference ::
      st.ops[i].call == c && ReadCovers(st.ops[i])
  }

  lemma DedupPostsOnce(st: State, reference: Option<string>)
    requires Dedup(st)
    ensures PostsOnce(st, reference)
  {
    forall i: nat, j: nat | SameKey(st, i, j) && i != j
      ensures !(PastUpdate(st.ops[i].phase) && PastUpdate(st.ops[j].phase))
    {
      assert OpOk(st, i) && OpOk(st, j);
      assert if i < j then PairOk(st, i, j) else PairOk(st, j, i);
    }
  }

  lemma RaceSpawnsNothing(i: nat, p: Phase, j: nat)
    ensures NoSpawns(Race(i, p, j))
  {
  }

  /** From a state in which references have been kept apart so far, repeating a call is safe
      under every schedule if and only if every earlier attempt has ended. */
  lemma RetrySafeExactly(st: State, c: Call)
    requires Dedup(st) && SameCall(st, c) && Keyed(c.reference) && c.amount >= 1
    requires Find(st.ledger, c.reference.value).None?
    requires c.user in st.wallets && Covers(st.wallets[c.user], c, 2)
    ensures (forall events | NoSpawns(events) :: PostsOnce(After(Next(st, Spawn(c)), events), c.reference))
            <==> Spaced(st, c)
  {
    if Spaced(st, c) {
      NextDedup(st, Spawn(c));
      forall events | NoSpawns(events)
        ensures PostsOnce(After(Next(st, Spawn(c)), events), c.reference)
      {
        AfterDedup(Next(st, Spawn(c)), events);
        DedupPostsOnce(After(Next(st, Spawn(c)), events), c.reference);
      }
    } else {
      var i :| 0 <= i < |st.ops| && st.ops[i].call.reference == c.reference && !Ended(st.ops[i].phase);
      FewerCovered(st.wallets[c.user], c, 2);
      RetryPostsTwice(st, i);
      RaceSpawnsNothing(i, st.ops[i].phase, |st.ops|);
      assert !PostsOnce(After(Next(st, Spawn(c)), Race(i, st.ops[i].phase, |st.ops|)), c.reference);
    }
  }
}
