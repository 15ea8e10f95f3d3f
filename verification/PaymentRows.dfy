/** Razorpay payments with nothing assumed about payment ids: which order each id was
    credited for, and when successful orders share a ledger row. */
module PaymentRows {
  import opened Wrappers
  import opened Ledger
  import opened References
  import opened Services
  import opened Protocol
  import opened Runs
  import opened Guarantees

  /** The order and payment id a command would credit. */
  predicate MayCredit(cmd: Cmd) {
    cmd.Pay? && (cmd.p.Verify? || cmd.p.Captured?)
  }

  /** Who was credited: the order of the first command to post under each payment id. */
  function Credited(cmds: seq<Cmd>): map<string, string> {
    if cmds == [] then map[]
    else
      var n := |cmds| - 1;
      var m := Credited(cmds[..n]);
      if MayCredit(cmds[n]) && Seen(Run(cmds[..n]).books, ForPayment(cmds[n].p.razorpayId)).None?
         && Seen(Run(cmds).books, ForPayment(cmds[n].p.razorpayId)).Some?
      then m[cmds[n].p.razorpayId := cmds[n].p.order] else m
  }

  /** A payment id has a row exactly when it was credited for some order, and the row is a
      TOPUP of that order's amount in its owner's wallet. */
  ghost predicate CreditOk(b: Books, payments: map<string, Payment>, m: map<string, string>, id: string) {
    var row := Seen(b, ForPayment(id));
    && (row.Some? <==> id in m)
    && (row.Some? ==>
          && m[id] in payments && row.value.user == payments[m[id]].user
          && row.value.amount == payments[m[id]].amount && row.value.txType == TxType.Topup)
  }

  ghost predicate CreditsOk(db: Db, m: map<string, string>) {
    forall id :: CreditOk(db.books, db.payments, m, id)
  }

  ghost predicate SuccessSeen(b: Books, p: Payment) {
    p.status == PaySuccess ==> p.razorpayId.Some? && Seen(b, ForPayment(p.razorpayId.value)).Some?
  }

  ghost predicate AllSuccessSeen(db: Db) {
    forall o | o in db.payments :: SuccessSeen(db.books, db.payments[o])
  }

  ghost predicate KeepsPayers(m: map<string, Payment>, m': map<string, Payment>) {
    forall o | o in m :: o in m' && m'[o].user == m[o].user && m'[o].amount == m[o].amount
  }

  lemma CreditsFrame(db: Db, db': Db, m: map<string, string>)
    requires CreditsOk(db, m) && KeepsPayers(db.payments, db'.payments)
    requires forall id :: Seen(db'.books, ForPayment(id)) == Seen(db.books, ForPayment(id))
    ensures CreditsOk(db', m)
  {
    forall id
      ensures CreditOk(db'.books, db'.payments, m, id)
    {
      assert CreditOk(db.books, db.payments, m, id);
    }
  }

  lemma CreditPosts(db: Db, m: map<string, string>, order: string, id: string)
    requires CreditsOk(db, m) && order in db.payments && CreditPayment(db, order, db.payments[order], id).Ok?
    ensures var db' := CreditPayment(db, order, db.payments[order], id).value;
            CreditsOk(db', if Seen(db.books, ForPayment(id)).None? then m[id := order] else m)
  {
    var p := db.payments[order];
    var db' := CreditPayment(db, order, p, id).value;
    var m' := if Seen(db.books, ForPayment(id)).None? then m[id := order] else m;
    PostView(db.books, p.user, TxType.Topup, p.amount, ForPayment(id));
    forall k
      ensures CreditOk(db'.books, db'.payments, m', k)
    {
      assert CreditOk(db.books, db.payments, m, k);
      assert k != id ==> ForPayment(k) != ForPayment(id);
    }
  }

  lemma CreditSuccess(db: Db, order: string, id: string)
    requires AllSuccessSeen(db) && order in db.payments && CreditPayment(db, order, db.payments[order], id).Ok?
    ensures AllSuccessSeen(CreditPayment(db, order, db.payments[order], id).value)
    ensures Seen(CreditPayment(db, order, db.payments[order], id).value.books, ForPayment(id)).Some?
  {
    var p := db.payments[order];
    var db' := CreditPayment(db, order, p, id).value;
    PostView(db.books, p.user, TxType.Topup, p.amount, ForPayment(id));
    forall o | o in db'.payments
      ensures SuccessSeen(db'.books, db'.payments[o])
    {
      if o != order {
        assert SuccessSeen(db.books, db.payments[o]);
        if db.payments[o].razorpayId.Some? && db.payments[o].razorpayId.value != id {
          assert ForPayment(db.payments[o].razorpayId.value) != ForPayment(id);
        }
      }
    }
  }

  /** The commands of the other groups post no payment row and write no payment. */
  lemma OtherPayments(db: Db, cmd: Cmd)
    requires Good(db) && Plausible(cmd) && !cmd.Pay?
    ensures Step(db, cmd).payments == db.payments
    ensures forall id :: Seen(Step(db, cmd).books, ForPayment(id)) == Seen(db.books, ForPayment(id))
  {
    match cmd
    case Money(m) =>
      MoneyView(db, m);
      MoneyRecords(db, m);
    case Contest(c) => ContestView(db, c);
    case Ship(s) =>
      ShipWrites(db, s);
      ShipView(db, s);
  }

  lemma WrittenKeepsPayers(db: Db, db': Db, o: string)
    requires PaymentWritten(db.payments, db'.payments, o) && db'.books == db.books
    ensures KeepsPayers(db.payments, db'.payments)
    ensures AllSuccessSeen(db) ==> AllSuccessSeen(db')
  {
    if AllSuccessSeen(db) {
      forall k | k in db'.payments
        ensures SuccessSeen(db'.books, db'.payments[k])
      {
        assert k in db.payments ==> SuccessSeen(db.books, db.payments[k]);
      }
    }
  }

  lemma PayStep(db: Db, cmd: PayCmd, m: map<string, string>)
    requires CreditsOk(db, m) && AllSuccessSeen(db)
    ensures var db' := StepPay(db, cmd);
            var grows := MayCredit(Pay(cmd)) && Seen(db.books, ForPayment(cmd.razorpayId)).None?
                         && Seen(db'.books, ForPayment(cmd.razorpayId)).Some?;
            AllSuccessSeen(db') && CreditsOk(db', if grows then m[cmd.razorpayId := cmd.order] else m)
  {
    var db' := StepPay(db, cmd);
    PayCredits(db, cmd);
    if db' == db.(payments := db'.payments) && PaymentWritten(db.payments, db'.payments, cmd.order) {
      WrittenKeepsPayers(db, db', cmd.order);
      CreditsFrame(db, db', m);
    } else {
      CreditSuccess(db, cmd.order, cmd.razorpayId);
      CreditPosts(db, m, cmd.order, cmd.razorpayId);
    }
  }

  /** Over every run, whatever the payment ids: each id has moved money for at most one order,
      the first to post under it, and every SUCCESS payment has a row under its id. */
  lemma {:induction false} RunCredits(cmds: seq<Cmd>)
    requires AllPlausible(cmds)
    ensures CreditsOk(Run(cmds), Credited(cmds)) && AllSuccessSeen(Run(cmds))
  {
    if cmds != [] {
      var n := |cmds| - 1;
      var db := Run(cmds[..n]);
      RunCredits(cmds[..n]);
      RunGood(cmds[..n]);
      if cmds[n].Pay? {
        PayStep(db, cmds[n].p, Credited(cmds[..n]));
      } else {
        OtherPayments(db, cmds[n]);
        CreditsFrame(db, Run(cmds), Credited(cmds[..n]));
        SameSuccess(db, Run(cmds));
      }
    }
  }

  lemma SameSuccess(db: Db, db': Db)
    requires AllSuccessSeen(db) && db'.payments == db.payments
    requires forall id :: Seen(db'.books, ForPayment(id)) == Seen(db.books, ForPayment(id))
    ensures AllSuccessSeen(db')
  {
    forall o | o in db'.payments
      ensures SuccessSeen(db'.books, db'.payments[o])
    {
      assert SuccessSeen(db.books, db.payments[o]);
    }
  }

  /** A payment id has moved the amount of the order it was first posted for, or nothing. */
  lemma IdMovesForItsOrder(cmds: seq<Cmd>, id: string)
    requires AllPlausible(cmds)
    ensures var db, m := Run(cmds), Credited(cmds);
            (id in m ==> m[id] in db.payments)
            && Movement(db.books.ledger, Text(ForPayment(id))) == if id in m then db.payments[m[id]].amount else 0
  {
    RunGood(cmds);
    RunCredits(cmds);
    MovesIsNet(Run(cmds), ForPayment(id));
    assert CreditOk(Run(cmds).books, Run(cmds).payments, Credited(cmds), id);
  }

  // ---- When every success has a row to itself ----

  predicate Succeeded(db: Db, o: string) {
    o in db.payments && db.payments[o].status == PaySuccess
  }

  /** Row i is the row of order o. */
  ghost predicate RowOfOrder(db: Db, o: string, i: nat) {
    Succeeded(db, o) && db.payments[o].razorpayId.Some?
    && OnlyRow(db.books.ledger, i, Text(ForPayment(db.payments[o].razorpayId.value)))
  }

  ghost predicate RowsApart(db: Db) {
    forall o, p, i: nat, j: nat | o != p && RowOfOrder(db, o, i) && RowOfOrder(db, p, j) :: i != j
  }

  ghost predicate IdsApart(db: Db) {
    forall o, p | o != p && Succeeded(db, o) && Succeeded(db, p) :: db.payments[o].razorpayId != db.payments[p].razorpayId
  }

  lemma SuccessRow(cmds: seq<Cmd>, o: string) returns (i: nat)
    requires AllPlausible(cmds) && Succeeded(Run(cmds), o)
    ensures RowOfOrder(Run(cmds), o, i)
  {
    RunGood(cmds);
    RunCredits(cmds);
    var db := Run(cmds);
    assert SuccessSeen(db.books, db.payments[o]);
    i := SeenIsOnlyRow(db, ForPayment(db.payments[o].razorpayId.value));
  }

  /** In every run, no two SUCCESS orders share a ledger row if and only if no two of them
      share a payment id. */
  lemma SuccessRowsApartExactly(cmds: seq<Cmd>)
    requires AllPlausible(cmds)
    ensures RowsApart(Run(cmds)) <==> IdsApart(Run(cmds))
  {
    var db := Run(cmds);
    if IdsApart(db) {
      forall o, p, i: nat, j: nat | o != p && RowOfOrder(db, o, i) && RowOfOrder(db, p, j)
        ensures i != j
      {
        var a, b := db.payments[o].razorpayId.value, db.payments[p].razorpayId.value;
        if Text(ForPayment(a)) == Text(ForPayment(b)) {
          TextInjective(ForPayment(a), ForPayment(b));
        }
      }
    } else {
      var o, p :| o != p && Succeeded(db, o) && Succeeded(db, p) && db.payments[o].razorpayId == db.payments[p].razorpayId;
      var i := SuccessRow(cmds, o);
      assert RowOfOrder(db, p, i);
    }
  }
}
