/** What a failed service leaves behind when there is no session to abort: the money steps
    that were made before the failing one, and of the failing one at most its wallet update. */
module Unsessioned {
  import opened Wrappers
  import opened Ledger
  import opened References
  import opened Services

  const MONEY_ERRORS := {WalletNotFound, WalletInactive, InsufficientBalance, InsufficientEscrow, AmountBelowMinimum}

  /** The minimum amount is checked by the insert, when the wallet is already written. */
  function LeftApply(b: Books, c: Call): Books {
    match Apply(b, c)
    case Ok(a) => a.books
    case Err(AmountBelowMinimum) => b.(wallets := b.wallets[c.user := Moved(b.wallets[c.user], c)])
    case Err(_) => b
  }

  function LeftPost(b: Books, user: UserId, t: TxType, amount: int, r: Ref): Books {
    LeftApply(b, Call(user, t, amount, Some(Text(r))))
  }

  function LeftLegs(b: Books, s: Shipment, awb: Awb, e: Event, t: TxType, m: int, d: int, skipZero: bool): Books {
    var first := if m > 0 || !skipZero then Post(b, s.merchant, t, m, ForLeg(e, awb, Leg.Merchant)) else Ok(b);
    match first
    case Err(_) => LeftPost(b, s.merchant, t, m, ForLeg(e, awb, Leg.Merchant))
    case Ok(b1) =>
      if s.distributor.Some? && (d > 0 || !skipZero)
      then LeftPost(b1, s.distributor.value, t, d, ForLeg(e, awb, Leg.Distributor)) else b1
  }

  function LeftTransfer(b: Books, from: UserId, to: UserId, amount: int, text: string): Books {
    match Apply(b, Call(from, TransferDebit, amount, Some(text)))
    case Err(_) => LeftApply(b, Call(from, TransferDebit, amount, Some(text)))
    case Ok(sent) => LeftApply(sent.books, Call(to, TransferCredit, amount, Some(text)))
  }

  function LeftRefund(b: Books, user: UserId, amount: int, r: Ref): Books {
    if Find(b.ledger, Text(r)).Some? then b else LeftPost(b, user, TxType.Refund, amount, r)
  }

  function LeftRequest(db: Db, id: string): Books {
    if id in db.requests
    then LeftRefund(db.books, db.requests[id].merchant, db.requests[id].amount, ForRefundRequest(id)) else db.books
  }

  function LeftSettlement(db: Db, id: string): Books {
    if id in db.settlements
    then LeftPost(db.books, db.settlements[id].to, TxType.Settlement, db.settlements[id].amount,
                  SettlementRef(id, db.settlements[id]))
    else db.books
  }

  function LeftRefunds(db: Db, awb: Awb, skipZero: bool): Books {
    if awb in db.shipments
    then var s := db.shipments[awb];
         LeftLegs(db.books, s, awb, Refunded, TxType.Refund, s.merchantCost, s.distributorCost, skipZero)
    else db.books
  }

  function LeftStatus(db: Db, awb: Awb, next: Status): Books {
    if next == Cancelled then LeftRefunds(db, awb, true)
    else if next == Rto && awb in db.shipments
    then LeftLegs(db.books, db.shipments[awb], awb, ReturnedToOrigin, TxType.RtoCharge, RTO_CHARGE, RTO_CHARGE, false)
    else db.books
  }

  function LeftRemittance(db: Db, awb: Awb): Books {
    if awb in db.cods then LeftPost(db.books, db.cods[awb].merchant, TxType.CodCredit, db.cods[awb].amount, ForCod(awb))
    else db.books
  }

  function LeftDispute(db: Db, awb: Awb, e: Event, t: TxType, extra: int): Books {
    if awb in db.shipments then LeftLegs(db.books, db.shipments[awb], awb, e, t, extra, extra, false) else db.books
  }

  function LeftVerdict(db: Db, awb: Awb): Books {
    if awb in db.disputes then LeftDispute(db, awb, Reversed, TxType.Refund, db.disputes[awb].extra) else db.books
  }

  function LeftPayment(db: Db, order: string, razorpayId: string): Books {
    if order in db.payments
    then LeftPost(db.books, db.payments[order].user, TxType.Topup, db.payments[order].amount, ForPayment(razorpayId))
    else db.books
  }

  function LeftBooking(db: Db, awb: Awb, k: Booking): Books {
    LeftLegs(db.books, Draft(k), awb, Charged, TxType.Charge, k.merchantCost, k.distributorCost, false)
  }

  /** The booking saga when nothing is rolled back: a refused booking keeps what it charged,
      a refused compensation what it refunded. */
  function CreateShipmentLeaving(db: Db, awb: Awb, k: Booking, carrier: Option<string>): (Db, Option<Error>) {
    match Book(db, awb, k)
    case Err(e) => (db.(books := LeftBooking(db, awb, k)), Some(e))
    case Ok(booked) =>
      if carrier.Some? || Compensate(booked, awb).Ok? then CreateShipment(db, awb, k, carrier)
      else (booked.(books := LeftRefunds(booked, awb, false)), Some(CarrierFailed))
  }

  /** A failed money step without a session breaks the books exactly when the amount was
      negative and got as far as the insert: the wallet has moved and no row accounts for it. */
  lemma FailedStepSound(b: Books, c: Call)
    requires Sound(b) && Apply(b, c).Err?
    ensures Sound(LeftApply(b, c)) <==> Apply(b, c).error != AmountBelowMinimum || c.amount == 0
  {
    if Apply(b, c).error == AmountBelowMinimum {
      var b' := LeftApply(b, c);
      if c.amount == 0 {
        assert b'.wallets == b.wallets;
      } else {
        assert b.wallets[c.user].balance == Fold(b'.ledger, c.user) != b'.wallets[c.user].balance;
      }
    }
  }

  /** Two legs without a session, for amounts of at least one paisa: when the pair fails, the
      books keep the merchant's leg if that was posted now, and are unchanged if and only if
      it failed or had been posted before. */
  lemma FailedLegsKeepFirst(b: Books, s: Shipment, awb: Awb, e: Event, t: TxType, m: int, d: int)
    requires Sound(b) && WfAwb(awb) && m >= 1 && d >= 1 && PostLegs(b, s, awb, e, t, m, d, false).Err?
    ensures var left, r := LeftLegs(b, s, awb, e, t, m, d, false), ForLeg(e, awb, Leg.Merchant);
            var first := Post(b, s.merchant, t, m, r);
            && Sound(left)
            && (left == b <==> first.Err? || Find(b.ledger, Text(r)).Some?)
            && (first.Ok? ==> left == first.value)
  {
    var c := Call(s.merchant, t, m, Some(Text(ForLeg(e, awb, Leg.Merchant))));
    if Apply(b, c).Ok? {
      ApplySound(b, c);
    }
  }
}
