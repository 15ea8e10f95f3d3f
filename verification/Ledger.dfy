/** The money step: wallets, the append-only ledger and `applyTransaction` as one
    committed session sees it. Amounts are integer paise. */
module Ledger {
  import opened Wrappers

  type UserId = string

  datatype TxType =
    | Credit | Debit | Topup | Settlement | Refund | Charge | CodCredit
    | TransferDebit | TransferCredit | DisputeCharge | RtoCharge

  datatype Wallet = Wallet(balance: int, escrow: int, isActive: bool)

  datatype Row = Row(user: UserId, txType: TxType, amount: int, before: int, after: int,
                     reference: Option<string>)

  datatype Books = Books(wallets: map<UserId, Wallet>, ledger: seq<Row>)

  datatype Call = Call(user: UserId, txType: TxType, amount: int, reference: Option<string>)

  datatype Error =
    | WalletNotFound | WalletInactive | InsufficientBalance | InsufficientEscrow | AmountBelowMinimum
    | NotFound | AccessDenied | InvalidRequest | InvalidTransition | Duplicate | CarrierFailed

  /** What a successful money step hands back: the row is an old one when the
      reference had been used before. */
  datatype Applied = Applied(books: Books, row: Row, alreadyProcessed: bool)

  predicate IsDebit(t: TxType) {
    t in {Debit, TxType.Charge, Settlement, TransferDebit, DisputeCharge, RtoCharge}
  }

  function Signed(t: TxType, amount: int): int {
    if IsDebit(t) then -amount else amount
  }

  /** An absent or empty reference switches deduplication off. */
  predicate Keyed(reference: Option<string>) {
    reference.Some? && reference.value != ""
  }

  /** First ledger row carrying a reference. */
  function Find(ledger: seq<Row>, text: string): Option<Row> {
    if ledger == [] then None
    else
      var earlier := Find(ledger[..|ledger| - 1], text);
      if earlier.Some? then earlier
      else if ledger[|ledger| - 1].reference == Some(text) then Some(ledger[|ledger| - 1])
      else None
  }

  function Moved(w: Wallet, c: Call): Wallet {
    w.(balance := w.balance + Signed(c.txType, c.amount),
       escrow := if c.txType.CodCredit? then w.escrow - c.amount else w.escrow)
  }

  function RowOf(w: Wallet, c: Call): Row {
    Row(c.user, c.txType, c.amount, w.balance, w.balance + Signed(c.txType, c.amount), c.reference)
  }

  /** One `applyTransaction` inside a session: an error aborts the session. */
  function Apply(b: Books, c: Call): Result<Applied, Error> {
    if c.user !in b.wallets then Err(WalletNotFound)
    else
      var w := b.wallets[c.user];
      if !w.isActive then Err(WalletInactive)
      else if Keyed(c.reference) && Find(b.ledger, c.reference.value).Some? then
        Ok(Applied(b, Find(b.ledger, c.reference.value).value, true))
      else if c.txType.CodCredit? && w.escrow < c.amount then Err(InsufficientEscrow)
      else if IsDebit(c.txType) && w.balance < c.amount then Err(InsufficientBalance)
      else if c.amount < 1 then Err(AmountBelowMinimum)
      else
        Ok(Applied(Books(b.wallets[c.user := Moved(w, c)], b.ledger + [RowOf(w, c)]), RowOf(w, c), false))
  }

  // ---- Independent readings of the ledger ----

  /** Signed sum of a user's rows. */
  function Fold(ledger: seq<Row>, u: UserId): int {
    if ledger == [] then 0
    else
      var r := ledger[|ledger| - 1];
      Fold(ledger[..|ledger| - 1], u) + (if r.user == u then Signed(r.txType, r.amount) else 0)
  }

  /** Signed sum of the rows that carry a reference. */
  function Movement(ledger: seq<Row>, text: string): int {
    if ledger == [] then 0
    else
      var r := ledger[|ledger| - 1];
      Movement(ledger[..|ledger| - 1], text)
      + (if r.reference == Some(text) then Signed(r.txType, r.amount) else 0)
  }

  ghost predicate RowOk(b: Books, i: nat)
    requires i < |b.ledger|
  {
    var r := b.ledger[i];
    && r.user in b.wallets
    && r.amount >= 1
    && r.before == Fold(b.ledger[..i], r.user)
    && r.after == r.before + Signed(r.txType, r.amount)
  }

  ghost predicate UniqueReferences(ledger: seq<Row>) {
    forall i, j | 0 <= i < j < |ledger| && Keyed(ledger[i].reference) ::
      ledger[i].reference != ledger[j].reference
  }

  /** Balances are the fold of the ledger from 0, rows chain, references do not repeat. */
  ghost predicate Sound(b: Books) {
    && (forall u | u in b.wallets ::
          b.wallets[u].balance == Fold(b.ledger, u) && b.wallets[u].balance >= 0 && b.wallets[u].escrow >= 0)
    && (forall i | 0 <= i < |b.ledger| :: RowOk(b, i))
    && UniqueReferences(b.ledger)
  }

  // ---- Lookup ----

  lemma {:induction false} FindWitness(ledger: seq<Row>, text: string)
    ensures Find(ledger, text).Some? <==> exists i :: 0 <= i < |ledger| && ledger[i].reference == Some(text)
    ensures Find(ledger, text).Some? ==>
              Find(ledger, text).value in ledger && Find(ledger, text).value.reference == Some(text)
  {
    if ledger != [] {
      FindWitness(ledger[..|ledger| - 1], text);
      var n := |ledger| - 1;
      if Find(ledger[..n], text).Some? {
        var i :| 0 <= i < n && ledger[..n][i].reference == Some(text);
        assert ledger[i].reference == Some(text);
      }
      assert forall i | 0 <= i < n :: ledger[i] == ledger[..n][i];
    }
  }

  lemma FindAppend(ledger: seq<Row>, r: Row, text: string)
    ensures Find(ledger + [r], text) ==
            (if Find(ledger, text).Some? then Find(ledger, text)
             else if r.reference == Some(text) then Some(r) else None)
  {
    assert (ledger + [r])[..|ledger|] == ledger;
  }

  lemma FoldAppend(ledger: seq<Row>, r: Row, u: UserId)
    ensures Fold(ledger + [r], u) == Fold(ledger, u) + (if r.user == u then Signed(r.txType, r.amount) else 0)
  {
    assert (ledger + [r])[..|ledger|] == ledger;
  }

  /** With unique references the sum over a reference's rows is that of its one row. */
  lemma {:induction false} MovementOfFound(ledger: seq<Row>, text: string)
    requires UniqueReferences(ledger) && text != ""
    ensures Movement(ledger, text) ==
            (match Find(ledger, text)
             case None => 0
             case Some(r) => Signed(r.txType, r.amount))
  {
    if ledger != [] {
      var n := |ledger| - 1;
      assert forall i | 0 <= i < n :: ledger[i] == ledger[..n][i];
      MovementOfFound(ledger[..n], text);
      FindWitness(ledger[..n], text);
      if Find(ledger[..n], text).Some? {
        var i :| 0 <= i < n && ledger[..n][i].reference == Some(text);
        assert ledger[i].reference == Some(text) && Keyed(ledger[i].reference);
        assert ledger[n].reference != Some(text);
      }
    }
  }

  // ---- One step ----

  lemma ApplySound(b: Books, c: Call)
    requires Sound(b) && Apply(b, c).Ok?
    ensures Sound(Apply(b, c).value.books)
  {
    var a := Apply(b, c).value;
    if !a.alreadyProcessed {
      var l, l' := b.ledger, a.books.ledger;
      var r := a.row;
      forall u | u in a.books.wallets
        ensures a.books.wallets[u].balance == Fold(l', u)
      {
        FoldAppend(l, r, u);
      }
      forall i | 0 <= i < |l'|
        ensures RowOk(a.books, i)
      {
        if i < |l| {
          assert RowOk(b, i);
          assert l'[..i] == l[..i];
        } else {
          assert l'[..i] == l;
        }
      }
      forall i, j | 0 <= i < j < |l'| && Keyed(l'[i].reference)
        ensures l'[i].reference != l'[j].reference
      {
        if j == |l| && l'[i].reference == r.reference {
          assert l[i].reference == Some(r.reference.value);
          FindWitness(l, r.reference.value);
          assert false;
        }
      }
    }
  }

  /** The row a reference leads to after a step: the old one if there was one, else
      the new one if the step used that reference. */
  lemma ApplyFinds(b: Books, c: Call, text: string)
    requires Apply(b, c).Ok? && text != ""
    ensures var a := Apply(b, c).value;
            Find(a.books.ledger, text) ==
            (if Find(b.ledger, text).Some? then Find(b.ledger, text)
             else if c.reference == Some(text) then Some(a.row) else None)
  {
    var a := Apply(b, c).value;
    if !a.alreadyProcessed {
      FindAppend(b.ledger, a.row, text);
    }
  }

  /** A successful call leaves its reference in the ledger, so a replay moves nothing. */
  lemma ReplayMovesNothing(b: Books, c: Call, again: Call)
    requires Apply(b, c).Ok? && Keyed(c.reference) && again.reference == c.reference
    ensures var b' := Apply(b, c).value.books;
            Apply(b', again).Ok? ==> Apply(b', again).value.books == b' && Apply(b', again).value.alreadyProcessed
  {
    ApplyFinds(b, c, c.reference.value);
  }

  // ---- A batch of calls, each its own session ----

  function PostBatch(b: Books, calls: seq<Call>): Books {
    if calls == [] then b
    else
      var p := PostBatch(b, calls[..|calls| - 1]);
      match Apply(p, calls[|calls| - 1])
      case Ok(a) => a.books
      case Err(_) => p
  }

  predicate Succeeds(b: Books, calls: seq<Call>, i: nat)
    requires i < |calls|
  {
    Apply(PostBatch(b, calls[..i]), calls[i]).Ok?
  }

  /** Call i is the first successful use of its reference, counting the rows already there. */
  ghost predicate FirstUse(b: Books, calls: seq<Call>, i: nat)
    requires i < |calls|
  {
    && Succeeds(b, calls, i)
    && (Keyed(calls[i].reference) ==>
          && (forall k | 0 <= k < |b.ledger| :: b.ledger[k].reference != calls[i].reference)
          && (forall j | 0 <= j < i && Succeeds(b, calls, j) :: calls[j].reference != calls[i].reference))
  }

  /** Sum of a user's first uses among the first n calls. */
  ghost function FirstUses(b: Books, calls: seq<Call>, n: nat, u: UserId): int
    requires n <= |calls|
  {
    if n == 0 then 0
    else
      FirstUses(b, calls, n - 1, u)
      + (if FirstUse(b, calls, n - 1) && calls[n - 1].user == u
         then Signed(calls[n - 1].txType, calls[n - 1].amount) else 0)
  }

  lemma {:induction false} BatchFinds(b: Books, calls: seq<Call>, n: nat, text: string)
    requires n <= |calls| && text != ""
    ensures Find(PostBatch(b, calls[..n]).ledger, text).Some? <==>
            || Find(b.ledger, text).Some?
            || exists j :: 0 <= j < n && Succeeds(b, calls, j) && calls[j].reference == Some(text)
  {
    if n > 0 {
      BatchFinds(b, calls, n - 1, text);
      var p := PostBatch(b, calls[..n - 1]);
      assert calls[..n][..n - 1] == calls[..n - 1];
      if Apply(p, calls[n - 1]).Ok? {
        assert Succeeds(b, calls, n - 1);
        ApplyFinds(p, calls[n - 1], text);
      } else {
        assert !Succeeds(b, calls, n - 1);
      }
    }
  }

  lemma {:induction false} BatchSound(b: Books, calls: seq<Call>)
    requires Sound(b)
    ensures Sound(PostBatch(b, calls))
    ensures PostBatch(b, calls).wallets.Keys == b.wallets.Keys
  {
    if calls != [] {
      var n := |calls| - 1;
      BatchSound(b, calls[..n]);
      if Apply(PostBatch(b, calls[..n]), calls[n]).Ok? {
        ApplySound(PostBatch(b, calls[..n]), calls[n]);
      }
    }
  }

  lemma FirstUseIsPosting(b: Books, calls: seq<Call>, i: nat)
    requires i < |calls|
    ensures FirstUse(b, calls, i) <==>
            && Succeeds(b, calls, i)
            && !Apply(PostBatch(b, calls[..i]), calls[i]).value.alreadyProcessed
  {
    if Keyed(calls[i].reference) {
      var text := calls[i].reference.value;
      BatchFinds(b, calls, i, text);
      FindWitness(b.ledger, text);
    }
  }

  /** A batch of calls, retries and failures included, moves each user's balance by
      exactly the signed sum over the first successful use of each reference. */
  lemma {:induction false} BatchMovesFirstUses(b: Books, calls: seq<Call>, n: nat, u: UserId)
    requires n <= |calls| && u in b.wallets
    ensures u in PostBatch(b, calls[..n]).wallets
    ensures PostBatch(b, calls[..n]).wallets[u].balance == b.wallets[u].balance + FirstUses(b, calls, n, u)
  {
    if n > 0 {
      BatchMovesFirstUses(b, calls, n - 1, u);
      FirstUseIsPosting(b, calls, n - 1);
      assert calls[..n][..n - 1] == calls[..n - 1];
    } else {
      assert calls[..0] == [];
    }
  }

  // ---- transferToMerchant ----

  /** Both legs as written: one session, one reference. */
  function Transfer(b: Books, distributor: UserId, merchant: UserId, amount: int,
                    debitRef: string, creditRef: string): Result<Books, Error> {
    var first :- Apply(b, Call(distributor, TransferDebit, amount, Some(debitRef)));
    var second :- Apply(first.books, Call(merchant, TransferCredit, amount, Some(creditRef)));
    Ok(second.books)
  }

  function Total(b: Books, u: UserId, v: UserId): int
    requires u in b.wallets && v in b.wallets
  {
    b.wallets[u].balance + b.wallets[v].balance
  }

  /** With the shared reference the merchant's leg is taken as processed: a fresh
      transfer debits the distributor and credits nobody. */
  lemma SharedReferenceTransferLosesCredit(b: Books, d: UserId, m: UserId, amount: int, ref: string)
    requires d != m && ref != "" && Find(b.ledger, ref).None?
    requires Transfer(b, d, m, amount, ref, ref).Ok?
    ensures var b' := Transfer(b, d, m, amount, ref, ref).value;
            && b'.wallets == b.wallets[d := b.wallets[d].(balance := b.wallets[d].balance - amount)]
            && b'.ledger == b.ledger + [RowOf(b.wallets[d], Call(d, TransferDebit, amount, Some(ref)))]
            && Total(b', d, m) == Total(b, d, m) - amount
  {
    ApplyFinds(b, Call(d, TransferDebit, amount, Some(ref)), ref);
  }

  /** A transfer keeps the two balances' total exactly when the credit is deduplicated with
      the debit or not at all: the credit's reference is used before, or by the debit, if
      and only if the debit's is. */
  lemma TransferConserves(b: Books, d: UserId, m: UserId, amount: int, debitRef: string, creditRef: string)
    requires d != m && debitRef != "" && creditRef != ""
    requires Transfer(b, d, m, amount, debitRef, creditRef).Ok?
    ensures Total(Transfer(b, d, m, amount, debitRef, creditRef).value, d, m) == Total(b, d, m) <==>
            (Find(b.ledger, debitRef).Some? <==> Find(b.ledger, creditRef).Some? || debitRef == creditRef)
  {
    ApplyFinds(b, Call(d, TransferDebit, amount, Some(debitRef)), creditRef);
  }
}
