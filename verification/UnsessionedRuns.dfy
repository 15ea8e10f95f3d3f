/** Whole runs on a standalone server, one service at a time: nothing is rolled back, so a
    failed service leaves the money it had moved. */
module UnsessionedRuns {
  import opened Wrappers
  import opened Ledger
  import opened References
  import opened Services
  import opened Protocol
  import opened Runs
  import opened Unsessioned
  import opened Lifecycles

  /** As `Committed`, when the errors in `late` leave moved money behind. */
  function Kept(db: Db, r: Result<Db, Error>, left: Books, late: set<Error>): Db {
    match r
    case Ok(db') => db'
    case Err(e) => if e in late then db.(books := left) else db
  }

  function KeptMoney(db: Db, cmd: MoneyCmd): Db {
    match cmd
    case TopUp(c, t, own, m, stamp) =>
      Kept(db, TopupWallet(db, c, t, own, m, stamp), LeftPost(db.books, t, TxType.Topup, m, ForTopup(stamp)), MONEY_ERRORS)
    case SendFunds(c, t, own, m, stamp) =>
      Kept(db, TransferToMerchant(db, c, t, own, m, stamp),
           LeftTransfer(db.books, c.userId, t, m, Text(ForTransfer(stamp))), MONEY_ERRORS)
    case RefundByHand(c, u, m, stamp) =>
      Kept(db, ManualRefund(db, c, u, m, stamp), LeftRefund(db.books, u, m, ForManualRefund(stamp)), MONEY_ERRORS)
    case DecideRefund(c, id, ok, note) =>
      Kept(db, ProcessRequest(db, c, id, ok, note), LeftRequest(db, id), MONEY_ERRORS)
    case Settle(c, id, ok) => Kept(db, ProcessSettlement(db, c, id, ok), LeftSettlement(db, id), MONEY_ERRORS)
    case _ => StepMoney(db, cmd)
  }

  function KeptPay(db: Db, cmd: PayCmd): Db {
    match cmd
    case Verify(c, id, o, r, ok) =>
      var (db', error) := VerifyPayment(db, c, id, o, r, ok);
      if error.Some? && error.value in MONEY_ERRORS then db.(books := LeftPayment(db, o, r)) else db'
    case Captured(o, r) => Kept(db, PaymentCaptured(db, o, r), LeftPayment(db, o, r), MONEY_ERRORS)
    case _ => StepPay(db, cmd)
  }

  function KeptContest(db: Db, cmd: ContestCmd): Db {
    match cmd
    case Raise(awb, x, c, now) =>
      Kept(db, RaiseDispute(db, awb, x, c, now), LeftDispute(db, awb, Disputed, TxType.DisputeCharge, x), MONEY_ERRORS + {Duplicate})
    case Resolve(awb, ok, c) => Kept(db, ResolveDispute(db, awb, ok, c), LeftVerdict(db, awb), MONEY_ERRORS)
    case _ => StepContest(db, cmd)
  }

  function KeptShip(db: Db, cmd: ShipCmd): Db {
    match cmd
    case NewBooking(awb, k) =>
      Kept(db, Book(db, awb, k), LeftBooking(db, awb, k), MONEY_ERRORS + {Duplicate, InvalidRequest})
    case CarrierRefused(awb) => Kept(db, Compensate(db, awb), LeftRefunds(db, awb, false), MONEY_ERRORS)
    case SetStatus(awb, next, c) => Kept(db, UpdateStatus(db, awb, next, c), LeftStatus(db, awb, next), MONEY_ERRORS)
    case Delete(awb, c, ok) => Kept(db, DeleteShipment(db, awb, c, ok), LeftRefunds(db, awb, true), MONEY_ERRORS)
    case Remit(awb, c) => Kept(db, RemitCod(db, awb, c), LeftRemittance(db, awb), MONEY_ERRORS)
    case _ => StepShip(db, cmd)
  }

  function KeptStep(db: Db, cmd: Cmd): Db {
    match cmd
    case Money(m) => KeptMoney(db, m)
    case Pay(p) => KeptPay(db, p)
    case Contest(c) => KeptContest(db, c)
    case Ship(s) => KeptShip(db, s)
  }

  function KeptRun(cmds: seq<Cmd>): Db {
    if cmds == [] then EMPTY else KeptStep(KeptRun(cmds[..|cmds| - 1]), cmds[|cmds| - 1])
  }

  // ---- Amounts ----

  /** The amounts a caller gives are not negative. */
  predicate NonNegative(cmd: Cmd) {
    && (cmd.Money? && cmd.m.TopUp? ==> cmd.m.amount >= 0)
    && (cmd.Money? && cmd.m.SendFunds? ==> cmd.m.amount >= 0)
    && (cmd.Money? && cmd.m.RefundByHand? ==> cmd.m.amount >= 0)
    && (cmd.Contest? && cmd.c.Raise? ==> cmd.c.extra >= 0)
    && (cmd.Ship? && cmd.s.NewBooking? ==> cmd.s.booking.merchantCost >= 0 && cmd.s.booking.distributorCost >= 0)
  }

  ghost predicate AllNonNegative(cmds: seq<Cmd>) {
    forall i | 0 <= i < |cmds| :: NonNegative(cmds[i])
  }

  ghost predicate ShipmentAmounts(m: map<Awb, Shipment>) {
    forall k | k in m :: m[k].merchantCost >= 0 && m[k].distributorCost >= 0 && m[k].codAmount >= 0
  }

  ghost predicate Amounts(db: Db) {
    && ShipmentAmounts(db.shipments)
    && (forall k | k in db.cods :: db.cods[k].amount >= 0)
    && (forall k | k in db.disputes :: db.disputes[k].extra >= 0)
    && (forall k | k in db.payments :: db.payments[k].amount >= 0)
    && (forall k | k in db.settlements :: db.settlements[k].amount >= 0)
    && (forall k | k in db.requests :: db.requests[k].amount >= 0)
  }

  // ---- Books after a call that may have failed half-way ----

  lemma LeftPostSound(b: Books, user: UserId, t: TxType, amount: int, r: Ref)
    requires amount >= 0
    ensures KeepsSound(b, LeftPost(b, user, t, amount, r))
  {
    LeftApplySound(b, Call(user, t, amount, Some(Text(r))));
  }

  lemma LeftApplySound(b: Books, c: Call)
    requires c.amount >= 0
    ensures KeepsSound(b, LeftApply(b, c))
  {
    if Sound(b) {
      if Apply(b, c).Ok? {
        ApplySound(b, c);
      } else {
        FailedStepSound(b, c);
      }
    }
  }

  lemma LeftLegsSound(b: Books, s: Shipment, awb: Awb, e: Event, t: TxType, m: int, d: int, skipZero: bool)
    requires m >= 0 && d >= 0
    ensures KeepsSound(b, LeftLegs(b, s, awb, e, t, m, d, skipZero))
  {
    LeftPostSound(b, s.merchant, t, m, ForLeg(e, awb, Leg.Merchant));
    if m > 0 || !skipZero {
      var first := Post(b, s.merchant, t, m, ForLeg(e, awb, Leg.Merchant));
      if first.Ok? && s.distributor.Some? {
        LeftPostSound(first.value, s.distributor.value, t, d, ForLeg(e, awb, Leg.Distributor));
      }
    } else if s.distributor.Some? {
      LeftPostSound(b, s.distributor.value, t, d, ForLeg(e, awb, Leg.Distributor));
    }
  }

  /** A pair of legs that succeeds leaves what the pair posts. */
  lemma PostedLegs(b: Books, s: Shipment, awb: Awb, e: Event, t: TxType, m: int, d: int, skipZero: bool)
    requires PostLegs(b, s, awb, e, t, m, d, skipZero).Ok?
    ensures PostLegs(b, s, awb, e, t, m, d, skipZero).value == LeftLegs(b, s, awb, e, t, m, d, skipZero)
  {
  }

  lemma LeftTransferSound(b: Books, from: UserId, to: UserId, amount: int, text: string)
    requires amount >= 0
    ensures KeepsSound(b, LeftTransfer(b, from, to, amount, text))
  {
    var sent := Call(from, TransferDebit, amount, Some(text));
    LeftApplySound(b, sent);
    if Apply(b, sent).Ok? {
      LeftApplySound(Apply(b, sent).value.books, Call(to, TransferCredit, amount, Some(text)));
    }
  }

  lemma LeftRefundSound(b: Books, user: UserId, amount: int, r: Ref)
    requires amount >= 0
    ensures KeepsSound(b, LeftRefund(b, user, amount, r))
  {
    LeftPostSound(b, user, TxType.Refund, amount, r);
  }

  /** What a command may do to the books: nothing, or this. */
  predicate BooksAre(b: Books, b': Books, left: Books) {
    b' == b || b' == left
  }

  lemma TopUpKeeps(db: Db, cmd: MoneyCmd)
    requires cmd.TopUp? && cmd.amount >= 0
    ensures KeepsSound(db.books, KeptMoney(db, cmd).books)
  {
    LeftPostSound(db.books, cmd.target, TxType.Topup, cmd.amount, ForTopup(cmd.stamp));
    assert BooksAre(db.books, KeptMoney(db, cmd).books, LeftPost(db.books, cmd.target, TxType.Topup, cmd.amount, ForTopup(cmd.stamp)));
  }

  lemma SendKeeps(db: Db, cmd: MoneyCmd)
    requires cmd.SendFunds? && cmd.amount >= 0
    ensures KeepsSound(db.books, KeptMoney(db, cmd).books)
  {
    LeftTransferSound(db.books, cmd.caller.userId, cmd.merchant, cmd.amount, Text(ForTransfer(cmd.stamp)));
    assert BooksAre(db.books, KeptMoney(db, cmd).books,
                    LeftTransfer(db.books, cmd.caller.userId, cmd.merchant, cmd.amount, Text(ForTransfer(cmd.stamp))));
  }

  lemma ByHandKeeps(db: Db, cmd: MoneyCmd)
    requires cmd.RefundByHand? && cmd.amount >= 0
    ensures KeepsSound(db.books, KeptMoney(db, cmd).books)
  {
    LeftRefundSound(db.books, cmd.user, cmd.amount, ForManualRefund(cmd.stamp));
    assert BooksAre(db.books, KeptMoney(db, cmd).books, LeftRefund(db.books, cmd.user, cmd.amount, ForManualRefund(cmd.stamp)));
  }

  lemma DecideKeeps(db: Db, cmd: MoneyCmd)
    requires cmd.DecideRefund? && Amounts(db)
    ensures KeepsSound(db.books, KeptMoney(db, cmd).books)
  {
    if cmd.id in db.requests {
      LeftRefundSound(db.books, db.requests[cmd.id].merchant, db.requests[cmd.id].amount, ForRefundRequest(cmd.id));
    }
    assert BooksAre(db.books, KeptMoney(db, cmd).books, LeftRequest(db, cmd.id));
  }

  lemma SettleKeeps(db: Db, cmd: MoneyCmd)
    requires cmd.Settle? && Amounts(db)
    ensures KeepsSound(db.books, KeptMoney(db, cmd).books)
  {
    if cmd.id in db.settlements {
      var s := db.settlements[cmd.id];
      LeftPostSound(db.books, s.to, TxType.Settlement, s.amount, SettlementRef(cmd.id, s));
    }
    assert BooksAre(db.books, KeptMoney(db, cmd).books, LeftSettlement(db, cmd.id));
  }

  lemma MoneyKeeps(db: Db, cmd: MoneyCmd)
    requires Amounts(db) && NonNegative(Money(cmd))
    ensures KeepsSound(db.books, KeptMoney(db, cmd).books)
  {
    match cmd
    case NewWallet(u) => CreateWalletSound(db, u);
    case SetActive(u, a) => SetActiveSound(db, u, a);
    case TopUp(_, _, _, _, _) => TopUpKeeps(db, cmd);
    case SendFunds(_, _, _, _, _) => SendKeeps(db, cmd);
    case RefundByHand(_, _, _, _) => ByHandKeeps(db, cmd);
    case DecideRefund(_, _, _, _) => DecideKeeps(db, cmd);
    case Settle(_, _, _) => SettleKeeps(db, cmd);
    case _ => AskView(db, cmd);
  }

  lemma CreditBooks(db: Db, order: string, p: Payment, razorpayId: string)
    requires CreditPayment(db, order, p, razorpayId).Ok?
    ensures CreditPayment(db, order, p, razorpayId).value.books == LeftPost(db.books, p.user, TxType.Topup, p.amount, ForPayment(razorpayId))
  {
  }

  lemma PayKeeps(db: Db, cmd: PayCmd)
    requires Amounts(db)
    ensures KeepsSound(db.books, KeptPay(db, cmd).books)
  {
    PayCredits(db, cmd);
    if (cmd.Verify? || cmd.Captured?) && cmd.order in db.payments {
      var p := db.payments[cmd.order];
      LeftPostSound(db.books, p.user, TxType.Topup, p.amount, ForPayment(cmd.razorpayId));
      if CreditPayment(db, cmd.order, p, cmd.razorpayId).Ok? {
        CreditBooks(db, cmd.order, p, cmd.razorpayId);
      }
      assert BooksAre(db.books, KeptPay(db, cmd).books, LeftPayment(db, cmd.order, cmd.razorpayId));
    }
  }

  lemma RaiseKeeps(db: Db, cmd: ContestCmd)
    requires cmd.Raise? && cmd.extra >= 0
    ensures KeepsSound(db.books, KeptContest(db, cmd).books)
  {
    if cmd.awb in db.shipments {
      var s, x := db.shipments[cmd.awb], cmd.extra;
      LeftLegsSound(db.books, s, cmd.awb, Disputed, TxType.DisputeCharge, x, x, false);
      if PostLegs(db.books, s, cmd.awb, Disputed, TxType.DisputeCharge, x, x, false).Ok? {
        PostedLegs(db.books, s, cmd.awb, Disputed, TxType.DisputeCharge, x, x, false);
      }
    }
    assert BooksAre(db.books, KeptContest(db, cmd).books, LeftDispute(db, cmd.awb, Disputed, TxType.DisputeCharge, cmd.extra));
  }

  lemma ResolveKeeps(db: Db, cmd: ContestCmd)
    requires cmd.Resolve? && Amounts(db)
    ensures KeepsSound(db.books, KeptContest(db, cmd).books)
  {
    if cmd.awb in db.shipments && cmd.awb in db.disputes {
      var s, x := db.shipments[cmd.awb], db.disputes[cmd.awb].extra;
      LeftLegsSound(db.books, s, cmd.awb, Reversed, TxType.Refund, x, x, false);
      if PostLegs(db.books, s, cmd.awb, Reversed, TxType.Refund, x, x, false).Ok? {
        PostedLegs(db.books, s, cmd.awb, Reversed, TxType.Refund, x, x, false);
      }
    }
    assert BooksAre(db.books, KeptContest(db, cmd).books, LeftVerdict(db, cmd.awb));
  }

  lemma ContestKeeps(db: Db, cmd: ContestCmd)
    requires Amounts(db) && NonNegative(Contest(cmd))
    ensures KeepsSound(db.books, KeptContest(db, cmd).books)
  {
    if cmd.Raise? {
      RaiseKeeps(db, cmd);
    } else if cmd.Resolve? {
      ResolveKeeps(db, cmd);
    }
  }

  lemma LeftRefundsSound(db: Db, awb: Awb, skipZero: bool)
    requires Amounts(db)
    ensures KeepsSound(db.books, LeftRefunds(db, awb, skipZero))
    ensures awb in db.shipments ==>
              var s := db.shipments[awb];
              var r := PostLegs(db.books, s, awb, Refunded, TxType.Refund, s.merchantCost, s.distributorCost, skipZero);
              r.Ok? ==> r.value == LeftRefunds(db, awb, skipZero)
  {
    if awb in db.shipments {
      var s := db.shipments[awb];
      LeftLegsSound(db.books, s, awb, Refunded, TxType.Refund, s.merchantCost, s.distributorCost, skipZero);
      if PostLegs(db.books, s, awb, Refunded, TxType.Refund, s.merchantCost, s.distributorCost, skipZero).Ok? {
        PostedLegs(db.books, s, awb, Refunded, TxType.Refund, s.merchantCost, s.distributorCost, skipZero);
      }
    }
  }

  lemma BookKeeps(db: Db, cmd: ShipCmd)
    requires cmd.NewBooking? && NonNegative(Ship(cmd))
    ensures KeepsSound(db.books, KeptShip(db, cmd).books)
  {
    var k := cmd.booking;
    LeftLegsSound(db.books, Draft(k), cmd.awb, Charged, TxType.Charge, k.merchantCost, k.distributorCost, false);
    if PostLegs(db.books, Draft(k), cmd.awb, Charged, TxType.Charge, k.merchantCost, k.distributorCost, false).Ok? {
      PostedLegs(db.books, Draft(k), cmd.awb, Charged, TxType.Charge, k.merchantCost, k.distributorCost, false);
    }
    assert BooksAre(db.books, KeptShip(db, cmd).books, LeftBooking(db, cmd.awb, k));
  }

  lemma RefusedKeeps(db: Db, cmd: ShipCmd)
    requires cmd.CarrierRefused? && Amounts(db)
    ensures KeepsSound(db.books, KeptShip(db, cmd).books)
  {
    LeftRefundsSound(db, cmd.awb, false);
    assert BooksAre(db.books, KeptShip(db, cmd).books, LeftRefunds(db, cmd.awb, false));
  }

  lemma CancelBooks(db: Db, awb: Awb)
    requires Amounts(db) && awb in db.shipments && PerformCancellation(db, awb, db.shipments[awb]).Ok?
    ensures PerformCancellation(db, awb, db.shipments[awb]).value.books == LeftRefunds(db, awb, true)
  {
    LeftRefundsSound(db, awb, true);
  }

  lemma DeleteKeeps(db: Db, cmd: ShipCmd)
    requires cmd.Delete? && Amounts(db)
    ensures KeepsSound(db.books, KeptShip(db, cmd).books)
  {
    LeftRefundsSound(db, cmd.awb, true);
    if cmd.awb in db.shipments && PerformCancellation(db, cmd.awb, db.shipments[cmd.awb]).Ok? {
      CancelBooks(db, cmd.awb);
    }
    assert BooksAre(db.books, KeptShip(db, cmd).books, LeftRefunds(db, cmd.awb, true));
  }

  lemma RtoKeeps(db: Db, awb: Awb)
    requires awb in db.shipments
    ensures KeepsSound(db.books, LeftStatus(db, awb, Rto))
    ensures ReturnToOrigin(db, awb, db.shipments[awb]).Ok? ==>
              ReturnToOrigin(db, awb, db.shipments[awb]).value.books == LeftStatus(db, awb, Rto)
  {
    var s := db.shipments[awb];
    LeftLegsSound(db.books, s, awb, ReturnedToOrigin, TxType.RtoCharge, RTO_CHARGE, RTO_CHARGE, false);
    if ReturnToOrigin(db, awb, s).Ok? {
      PostedLegs(db.books, s, awb, ReturnedToOrigin, TxType.RtoCharge, RTO_CHARGE, RTO_CHARGE, false);
    }
  }

  lemma CancelRoute(db: Db, awb: Awb, c: Caller)
    requires awb in db.shipments
    ensures var r := UpdateStatus(db, awb, Cancelled, c);
            r == Ok(db) || (r.Err? && r.error !in MONEY_ERRORS) || r == PerformCancellation(db, awb, db.shipments[awb])
  {
  }

  lemma CancelKeeps(db: Db, cmd: ShipCmd)
    requires cmd.SetStatus? && Amounts(db) && cmd.awb in db.shipments && cmd.next == Cancelled
    ensures KeepsSound(db.books, KeptShip(db, cmd).books)
  {
    var r := UpdateStatus(db, cmd.awb, Cancelled, cmd.caller);
    LeftRefundsSound(db, cmd.awb, true);
    CancelRoute(db, cmd.awb, cmd.caller);
    if r.Ok? && r != Ok(db) {
      CancelBooks(db, cmd.awb);
    }
    assert KeptShip(db, cmd) == Kept(db, r, LeftStatus(db, cmd.awb, Cancelled), MONEY_ERRORS);
  }

  lemma RtoStatusKeeps(db: Db, cmd: ShipCmd)
    requires cmd.SetStatus? && cmd.awb in db.shipments && cmd.next == Rto
    ensures KeepsSound(db.books, KeptShip(db, cmd).books)
  {
    RtoKeeps(db, cmd.awb);
    assert BooksAre(db.books, KeptShip(db, cmd).books, LeftStatus(db, cmd.awb, Rto));
  }

  lemma OtherStatusKeeps(db: Db, cmd: ShipCmd)
    requires cmd.SetStatus? && Amounts(db) && cmd.awb in db.shipments && cmd.next != Cancelled && cmd.next != Rto
    ensures KeepsSound(db.books, KeptShip(db, cmd).books)
  {
    var s := db.shipments[cmd.awb];
    AddEscrowView(db.books, s.merchant, s.codAmount);
    assert BooksAre(db.books, KeptShip(db, cmd).books, AddEscrow(db.books, s.merchant, s.codAmount));
  }

  lemma StatusKeeps(db: Db, cmd: ShipCmd)
    requires cmd.SetStatus? && Amounts(db)
    ensures KeepsSound(db.books, KeptShip(db, cmd).books)
  {
    if cmd.awb in db.shipments {
      if cmd.next == Cancelled {
        CancelKeeps(db, cmd);
      } else if cmd.next == Rto {
        RtoStatusKeeps(db, cmd);
      } else {
        OtherStatusKeeps(db, cmd);
      }
    }
  }

  lemma RemitKeeps(db: Db, cmd: ShipCmd)
    requires cmd.Remit? && Amounts(db)
    ensures KeepsSound(db.books, KeptShip(db, cmd).books)
  {
    if cmd.awb in db.cods {
      var c := db.cods[cmd.awb];
      LeftPostSound(db.books, c.merchant, TxType.CodCredit, c.amount, ForCod(cmd.awb));
    }
    assert BooksAre(db.books, KeptShip(db, cmd).books, LeftRemittance(db, cmd.awb));
  }

  lemma ShipKeeps(db: Db, cmd: ShipCmd)
    requires Amounts(db) && NonNegative(Ship(cmd))
    ensures KeepsSound(db.books, KeptShip(db, cmd).books)
  {
    match cmd
    case NewBooking(_, _) => BookKeeps(db, cmd);
    case CarrierRefused(_) => RefusedKeeps(db, cmd);
    case SetStatus(_, _, _) => StatusKeeps(db, cmd);
    case Delete(_, _, _) => DeleteKeeps(db, cmd);
    case Remit(_, _) => RemitKeeps(db, cmd);
    case _ => SameBooksView(db, cmd);
  }

  // ---- Records are written only by services that succeed ----

  predicate SameRecords(db: Db, db': Db) {
    db' == db.(books := db'.books)
  }

  lemma KeptCommitted(db: Db, r: Result<Db, Error>, left: Books, late: set<Error>)
    ensures SameRecords(Committed(db, r), Kept(db, r, left, late))
  {
  }

  lemma FundRecordsKept(db: Db, cmd: MoneyCmd)
    requires cmd.TopUp? || cmd.SendFunds? || cmd.RefundByHand?
    ensures SameRecords(db, StepMoney(db, cmd)) && SameRecords(db, KeptMoney(db, cmd))
  {
  }

  lemma MoneyRecordsKept(db: Db, cmd: MoneyCmd)
    ensures SameRecords(StepMoney(db, cmd), KeptMoney(db, cmd))
  {
    match cmd
    case DecideRefund(c, id, ok, note) =>
      KeptCommitted(db, ProcessRequest(db, c, id, ok, note), LeftRequest(db, id), MONEY_ERRORS);
    case Settle(c, id, ok) => KeptCommitted(db, ProcessSettlement(db, c, id, ok), LeftSettlement(db, id), MONEY_ERRORS);
    case TopUp(_, _, _, _, _) => FundRecordsKept(db, cmd);
    case SendFunds(_, _, _, _, _) => FundRecordsKept(db, cmd);
    case RefundByHand(_, _, _, _) => FundRecordsKept(db, cmd);
    case _ =>
  }

  lemma PayRecordsKept(db: Db, cmd: PayCmd)
    ensures SameRecords(StepPay(db, cmd), KeptPay(db, cmd))
  {
  }

  lemma ContestRecordsKept(db: Db, cmd: ContestCmd)
    ensures SameRecords(StepContest(db, cmd), KeptContest(db, cmd))
  {
    match cmd
    case Raise(awb, x, c, now) =>
      KeptCommitted(db, RaiseDispute(db, awb, x, c, now), LeftDispute(db, awb, Disputed, TxType.DisputeCharge, x),
                    MONEY_ERRORS + {Duplicate});
    case Resolve(awb, ok, c) => KeptCommitted(db, ResolveDispute(db, awb, ok, c), LeftVerdict(db, awb), MONEY_ERRORS);
    case _ =>
  }

  lemma ShipRecordsKept(db: Db, cmd: ShipCmd)
    ensures SameRecords(StepShip(db, cmd), KeptShip(db, cmd))
  {
    match cmd
    case NewBooking(awb, k) =>
      KeptCommitted(db, Book(db, awb, k), LeftBooking(db, awb, k), MONEY_ERRORS + {Duplicate, InvalidRequest});
    case CarrierRefused(awb) => KeptCommitted(db, Compensate(db, awb), LeftRefunds(db, awb, false), MONEY_ERRORS);
    case SetStatus(awb, next, c) => KeptCommitted(db, UpdateStatus(db, awb, next, c), LeftStatus(db, awb, next), MONEY_ERRORS);
    case Delete(awb, c, ok) => KeptCommitted(db, DeleteShipment(db, awb, c, ok), LeftRefunds(db, awb, true), MONEY_ERRORS);
    case Remit(awb, c) => KeptCommitted(db, RemitCod(db, awb, c), LeftRemittance(db, awb), MONEY_ERRORS);
    case _ =>
  }

  lemma KeptRecords(db: Db, cmd: Cmd)
    ensures SameRecords(Step(db, cmd), KeptStep(db, cmd))
  {
    match cmd
    case Money(m) => MoneyRecordsKept(db, m);
    case Pay(p) => PayRecordsKept(db, p);
    case Contest(c) => ContestRecordsKept(db, c);
    case Ship(s) => ShipRecordsKept(db, s);
  }

  lemma DecideAmounts(db: Db, cmd: MoneyCmd)
    requires Amounts(db) && cmd.DecideRefund?
    ensures Amounts(StepMoney(db, cmd))
  {
    ProcessedRecords(db, cmd.caller, cmd.id, cmd.approve, cmd.hasNote);
    DecideWrites(db, cmd);
  }

  lemma SettledRecords(db: Db, cmd: MoneyCmd)
    requires cmd.Settle? || cmd.NewSettlement?
    ensures var db' := StepMoney(db, cmd); db' == db.(books := db'.books, settlements := db'.settlements)
  {
  }

  lemma SettlementAmounts(db: Db, cmd: MoneyCmd)
    requires Amounts(db) && (cmd.Settle? || cmd.NewSettlement?)
    ensures Amounts(StepMoney(db, cmd))
  {
    SettledRecords(db, cmd);
    if cmd.Settle? {
      SettleWrites(db, cmd);
    } else {
      CreateWrites(db, cmd);
    }
  }

  lemma AskAmounts(db: Db, cmd: MoneyCmd)
    requires Amounts(db) && cmd.AskRefund?
    ensures Amounts(StepMoney(db, cmd))
  {
  }

  lemma MoneyAmounts(db: Db, cmd: MoneyCmd)
    requires Amounts(db)
    ensures Amounts(StepMoney(db, cmd))
  {
    match cmd
    case AskRefund(_, _, _, _, _) => AskAmounts(db, cmd);
    case DecideRefund(_, _, _, _) => DecideAmounts(db, cmd);
    case NewSettlement(_, _, _, _, _) => SettlementAmounts(db, cmd);
    case Settle(_, _, _) => SettlementAmounts(db, cmd);
    case NewWallet(_) =>
    case SetActive(_, _) =>
    case _ => FundRecordsKept(db, cmd);
  }

  lemma PayAmounts(db: Db, cmd: PayCmd)
    requires Amounts(db)
    ensures Amounts(StepPay(db, cmd))
  {
    PayView(db, cmd);
    if cmd.Verify? {
      VerifyWrites(db, cmd);
    } else {
      OtherPayWrites(db, cmd);
    }
  }

  lemma ContestAmounts(db: Db, cmd: ContestCmd)
    requires Amounts(db) && NonNegative(Contest(cmd))
    ensures Amounts(StepContest(db, cmd))
  {
  }

  predicate Stored(s: Shipment) {
    s.merchantCost >= 0 && s.distributorCost >= 0
  }

  lemma BookedAmounts(db: Db, cmd: ShipCmd)
    requires (cmd.NewBooking? || cmd.NewReturn?) && NonNegative(Ship(cmd))
    ensures cmd.awb !in db.shipments && cmd.awb in StepShip(db, cmd).shipments ==> Stored(StepShip(db, cmd).shipments[cmd.awb])
  {
  }

  /** New and changed COD records: the amount of the shipment delivered, or as it was. */
  ghost predicate CodAmounts(db: Db, db': Db) {
    forall k | k in db'.cods ::
      || (k in db.cods && db'.cods[k].amount == db.cods[k].amount)
      || (k in db.shipments && db'.cods[k].amount == db.shipments[k].codAmount)
  }

  lemma DeliveredAmounts(db: Db, awb: Awb)
    requires awb in db.shipments && Deliver(db, awb, db.shipments[awb]).Ok?
    ensures CodAmounts(db, Deliver(db, awb, db.shipments[awb]).value)
  {
  }

  lemma StatusAmounts(db: Db, cmd: ShipCmd)
    requires cmd.SetStatus? && cmd.next == Delivered
    ensures CodAmounts(db, StepShip(db, cmd))
  {
    if cmd.awb in db.shipments && Deliver(db, cmd.awb, db.shipments[cmd.awb]).Ok? {
      DeliveredAmounts(db, cmd.awb);
    }
  }

  lemma RemittedAmounts(db: Db, cmd: ShipCmd)
    requires cmd.Remit?
    ensures CodAmounts(db, StepShip(db, cmd))
  {
  }

  lemma WrittenAmounts(m: map<Awb, Shipment>, m': map<Awb, Shipment>, k: Awb)
    requires ShipmentAmounts(m) && Writes(m, m', k) && (k !in m && k in m' ==> Stored(m'[k]))
    ensures ShipmentAmounts(m')
  {
  }

  lemma ShipAmounts(db: Db, cmd: ShipCmd)
    requires Amounts(db) && NonNegative(Ship(cmd))
    ensures Amounts(StepShip(db, cmd))
  {
    ShipWrites(db, cmd);
    if cmd.NewBooking? || cmd.NewReturn? {
      BookedAmounts(db, cmd);
    } else if cmd.Remit? {
      RemittedAmounts(db, cmd);
    } else if cmd.SetStatus? && cmd.next == Delivered {
      StatusAmounts(db, cmd);
    }
    WrittenAmounts(db.shipments, StepShip(db, cmd).shipments, cmd.awb);
  }

  lemma StepAmounts(db: Db, cmd: Cmd)
    requires Amounts(db) && NonNegative(cmd)
    ensures Amounts(Step(db, cmd))
  {
    match cmd
    case Money(m) => MoneyAmounts(db, m);
    case Pay(p) => PayAmounts(db, p);
    case Contest(c) => ContestAmounts(db, c);
    case Ship(s) => ShipAmounts(db, s);
  }

  lemma StepKeeps(db: Db, cmd: Cmd)
    requires Amounts(db) && NonNegative(cmd)
    ensures KeepsSound(db.books, KeptStep(db, cmd).books) && Amounts(KeptStep(db, cmd))
  {
    StepAmounts(db, cmd);
    KeptRecords(db, cmd);
    match cmd
    case Money(m) => MoneyKeeps(db, m);
    case Pay(p) => PayKeeps(db, p);
    case Contest(c) => ContestKeeps(db, c);
    case Ship(s) => ShipKeeps(db, s);
  }

  /** Without sessions, one service at a time and amounts not negative: whatever fails
      half-way, every balance is still the fold of the ledger and not negative, rows chain
      and no reference repeats. What a failure costs is the agreement of legs and records. */
  lemma {:induction false} KeptRunSound(cmds: seq<Cmd>)
    requires AllNonNegative(cmds)
    ensures Sound(KeptRun(cmds).books) && Amounts(KeptRun(cmds))
  {
    if cmds != [] {
      KeptRunSound(cmds[..|cmds| - 1]);
      StepKeeps(KeptRun(cmds[..|cmds| - 1]), cmds[|cmds| - 1]);
    }
  }
}
