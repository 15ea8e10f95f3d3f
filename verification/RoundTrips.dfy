/** Commands of a run that answer each other: what was charged is returned, what was paid is
    paid once. */
module RoundTrips {
  import opened Wrappers
  import opened Ledger
  import opened References
  import opened Services
  import opened Protocol
  import opened Effects
  import opened Outcomes
  import opened ShipmentOutcomes
  import R = Runs

  ghost predicate SameBalances(b: Books, b': Books) {
    && b'.wallets.Keys == b.wallets.Keys
    && forall u | u in b.wallets :: b'.wallets[u].balance == b.wallets[u].balance
  }

  /** The amount is in the user's wallet, everything else as it was. */
  ghost predicate PaidInto(b: Books, b': Books, user: UserId, amount: int) {
    && b'.wallets.Keys == b.wallets.Keys && user in b.wallets
    && forall u | u in b.wallets :: b'.wallets[u].balance == b.wallets[u].balance + (if u == user then amount else 0)
  }

  // ---- Disputes ----

  lemma RaisedThere(db: Db, awb: Awb, extra: int, admin: Caller, now: int)
    requires LegsOk(db) && RaiseDispute(db, awb, extra, admin, now).Ok?
    ensures var db' := RaiseDispute(db, awb, extra, admin, now).value;
            && awb in db.shipments && db'.shipments == db.shipments
            && awb in db'.disputes && db'.disputes[awb].extra == extra && db'.disputes[awb].status == Open
            && PaysEach(db.books, db'.books, db.shipments[awb], -extra)
  {
    assert WfAwb(awb);
    RaiseOutcome(db, awb, extra, admin, now);
    var s := db.shipments[awb];
    forall leg | Party(s, leg).Some?
      ensures Due(db.books, s, awb, Disputed, leg, extra, false)
    {
      UndisputedIsDue(db, awb, leg, extra);
    }
    ChargedEach(db.books, RaiseDispute(db, awb, extra, admin, now).value.books, s, awb, extra);
  }

  lemma UndisputedIsDue(db: Db, awb: Awb, leg: Leg, extra: int)
    requires LegsOk(db) && awb in db.shipments && awb !in db.disputes && Party(db.shipments[awb], leg).Some?
    ensures Due(db.books, db.shipments[awb], awb, Disputed, leg, extra, false)
  {
    assert LegOk(db.books, Get(db.shipments, awb), Get(db.disputes, awb), awb, leg);
  }

  lemma ChargedEach(b: Books, b': Books, s: Shipment, awb: Awb, extra: int)
    requires Effects.Moves(b, b', s, awb, Disputed, extra, extra, false, false)
    requires forall leg | Party(s, leg).Some? :: Due(b, s, awb, Disputed, leg, extra, false)
    ensures PaysEach(b, b', s, -extra)
  {
    assert Party(s, Leg.Merchant).Some? && (s.distributor.Some? ==> Party(s, Leg.Distributor).Some?);
  }

  function Contested(db: Db, awb: Awb, extra: int, admin: Caller, now: int, approve: bool): Db {
    R.Step(R.Step(db, R.Contest(R.Raise(awb, extra, admin, now))), R.Contest(R.Resolve(awb, approve, admin)))
  }

  lemma PaidBack(b: Books, b1: Books, b2: Books, s: Shipment, extra: int)
    requires PaysEach(b, b1, s, -extra) && PaysEach(b1, b2, s, extra)
    ensures SameBalances(b, b2)
  {
  }

  lemma ApprovedThere(db: Db, awb: Awb, admin: Caller)
    requires LegsOk(db) && ResolveDispute(db, awb, true, admin).Ok?
    ensures var db' := ResolveDispute(db, awb, true, admin).value;
            && awb in db'.disputes && db'.disputes[awb].status == Approved
            && PaysEach(db.books, db'.books, db.shipments[awb], db.disputes[awb].extra)
  {
    assert WfAwb(awb);
    VerdictOutcome(db, awb, true, admin);
    ApprovalReturns(db, awb, admin);
  }

  lemma ContestedIs(db: Db, awb: Awb, extra: int, admin: Caller, now: int, approve: bool)
    requires RaiseDispute(db, awb, extra, admin, now).Ok?
    requires ResolveDispute(RaiseDispute(db, awb, extra, admin, now).value, awb, approve, admin).Ok?
    ensures Contested(db, awb, extra, admin, now, approve) ==
            ResolveDispute(RaiseDispute(db, awb, extra, admin, now).value, awb, approve, admin).value
  {
  }

  lemma ReturnedAll(db: Db, d1: Db, awb: Awb, extra: int, admin: Caller, now: int)
    requires LegsOk(db) && RaiseDispute(db, awb, extra, admin, now) == Ok(d1) && ResolveDispute(d1, awb, true, admin).Ok?
    ensures var end := ResolveDispute(d1, awb, true, admin).value;
            awb in end.disputes && end.disputes[awb].status == Approved && SameBalances(db.books, end.books)
  {
    RaisedThere(db, awb, extra, admin, now);
    RaiseLegs(db, awb, extra, admin, now);
    ApprovedThere(d1, awb, admin);
    PaidBack(db.books, d1.books, ResolveDispute(d1, awb, true, admin).value.books, db.shipments[awb], extra);
  }

  /** A dispute raised and approved: everybody has what they had before. */
  lemma ApprovedRoundTrip(db: Db, awb: Awb, extra: int, admin: Caller, now: int)
    requires LegsOk(db) && RaiseDispute(db, awb, extra, admin, now).Ok?
    requires ResolveDispute(RaiseDispute(db, awb, extra, admin, now).value, awb, true, admin).Ok?
    ensures var end := Contested(db, awb, extra, admin, now, true);
            awb in end.disputes && end.disputes[awb].status == Approved && SameBalances(db.books, end.books)
  {
    ReturnedAll(db, RaiseDispute(db, awb, extra, admin, now).value, awb, extra, admin, now);
    ContestedIs(db, awb, extra, admin, now, true);
  }

  /** Raised and rejected: the parties are out the extra charge. */
  lemma RejectedRoundTrip(db: Db, awb: Awb, extra: int, admin: Caller, now: int)
    requires LegsOk(db) && RaiseDispute(db, awb, extra, admin, now).Ok?
    ensures var end := Contested(db, awb, extra, admin, now, false);
            && awb in end.disputes && end.disputes[awb].status == Rejected
            && PaysEach(db.books, end.books, db.shipments[awb], -extra)
  {
    RaisedThere(db, awb, extra, admin, now);
    assert WfAwb(awb);
    VerdictOutcome(RaiseDispute(db, awb, extra, admin, now).value, awb, false, admin);
  }

  // ---- Payments ----

  /** An order verified with a good signature pays the owner once; the gateway's capture of the
      same payment, coming after, changes nothing. */
  lemma PaidOnce(db: Db, caller: Caller, order: string, id: string, amount: int, razorpayId: string)
    requires CreateOrder(db, caller, order, id, amount).Ok? && !Used(db.books, ForPayment(razorpayId))
    ensures var d1 := R.Step(db, R.Pay(R.NewOrder(caller, order, id, amount)));
            var d2 := R.Step(d1, R.Pay(R.Verify(caller, id, order, razorpayId, true)));
            && order in d2.payments && d2.payments[order].status == PaySuccess
            && PaidInto(db.books, d2.books, caller.userId, amount)
            && R.Step(d2, R.Pay(R.Captured(order, razorpayId))) == d2
  {
    OrderOutcome(db, caller, order, id, amount);
    var d1 := CreateOrder(db, caller, order, id, amount).value;
    VerifyOutcome(d1, caller, id, order, razorpayId);
    CaptureOutcome(VerifyPayment(d1, caller, id, order, razorpayId, true).0, order, razorpayId);
  }

  /** The other way round: captured first, the verification reports success and pays nothing. */
  lemma CapturedFirst(db: Db, caller: Caller, order: string, id: string, amount: int, razorpayId: string, valid: bool)
    requires CreateOrder(db, caller, order, id, amount).Ok? && !Used(db.books, ForPayment(razorpayId))
    ensures var d1 := R.Step(db, R.Pay(R.NewOrder(caller, order, id, amount)));
            var d2 := R.Step(d1, R.Pay(R.Captured(order, razorpayId)));
            && PaidInto(db.books, d2.books, caller.userId, amount)
            && VerifyPayment(d2, caller, id, order, razorpayId, valid) == (d2, None)
            && R.Step(d2, R.Pay(R.Verify(caller, id, order, razorpayId, valid))) == d2
  {
    OrderOutcome(db, caller, order, id, amount);
    CaptureOutcome(CreateOrder(db, caller, order, id, amount).value, order, razorpayId);
  }

  // ---- Wallets and refunds ----

  /** A new wallet, topped up, holds exactly the amount. */
  lemma FundedWallet(db: Db, admin: Caller, user: UserId, amount: int, stamp: string)
    requires user !in db.books.wallets && admin.role == SuperAdmin && amount >= 1 && !Used(db.books, ForTopup(stamp))
    ensures var end := R.Step(R.Step(db, R.Money(R.NewWallet(user))), R.Money(R.TopUp(admin, user, false, amount, stamp)));
            && user in end.books.wallets && end.books.wallets[user] == Wallet(amount, 0, true)
            && forall v | v in db.books.wallets :: v in end.books.wallets && end.books.wallets[v] == db.books.wallets[v]
  {
    WalletCreated(db, user);
    TopupOutcome(CreateWallet(db, user), admin, user, false, amount, stamp);
  }

  /** A refund asked for and approved is paid once: deciding it again changes nothing. */
  lemma RefundPaidOnce(db: Db, merchant: Caller, admin: Caller, id: string, awb: Awb, amount: int, distributor: Option<UserId>,
                       approve: bool, hasNote: bool)
    requires RequestsOk(db) && SubmitRequest(db, merchant, id, awb, amount, distributor).Ok?
    requires admin.role == SuperAdmin && Active(db.books, merchant.userId)
    ensures var d1 := R.Step(db, R.Money(R.AskRefund(merchant, id, awb, amount, distributor)));
            var d2 := R.Step(d1, R.Money(R.DecideRefund(admin, id, true, false)));
            && id in d2.requests && d2.requests[id].status == RequestApproved
            && PaidInto(db.books, d2.books, merchant.userId, amount)
            && R.Step(d2, R.Money(R.DecideRefund(admin, id, approve, hasNote))) == d2
  {
    RequestOutcome(db, merchant, id, awb, amount, distributor);
    assert RequestOk(db.books, db.requests, id);
    var d1 := SubmitRequest(db, merchant, id, awb, amount, distributor).value;
    DecisionOutcome(d1, admin, id, true, false);
    DecisionOutcome(ProcessRequest(d1, admin, id, true, false).value, admin, id, approve, hasNote);
  }
}
