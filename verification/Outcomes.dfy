/** The wallet, refund, settlement and payment services from outside: exactly when each
    succeeds, and what it then has done to balances, rows and records. */
module Outcomes {
  import opened Wrappers
  import opened Ledger
  import opened References
  import opened Services
  import opened Protocol
  import opened Effects

  predicate OnlyBooks(db: Db, db': Db) {
    db' == db.(books := db'.books)
  }

  // ---- Wallets ----

  /** A new wallet is empty and active; one that exists is kept, and every other. */
  lemma WalletCreated(db: Db, u: UserId)
    ensures var db' := CreateWallet(db, u);
            && OnlyBooks(db, db') && db'.books.ledger == db.books.ledger
            && db'.books.wallets.Keys == db.books.wallets.Keys + {u}
            && (u !in db.books.wallets ==> db'.books.wallets[u] == Wallet(0, 0, true))
            && forall v | v in db.books.wallets :: db'.books.wallets[v] == db.books.wallets[v]
  {
  }

  predicate MayTopUp(caller: Caller, own: bool) {
    caller.role == SuperAdmin || (caller.role == DistributorRole && own)
  }

  /** A top-up by an administrator, or by a distributor of their own merchant, succeeds exactly
      for an active wallet and a positive amount, and puts exactly the amount into it. */
  lemma TopupOutcome(db: Db, caller: Caller, target: UserId, own: bool, amount: int, stamp: string)
    ensures var r, ref := TopupWallet(db, caller, target, own, amount, stamp), ForTopup(stamp);
            && (r.Ok? <==> MayTopUp(caller, own) && Active(db.books, target) && (Used(db.books, ref) || amount >= 1))
            && (r == Err(AccessDenied) <==> !MayTopUp(caller, own))
            && (r.Ok? ==>
                  && OnlyBooks(db, r.value)
                  && if Used(db.books, ref) then r.value == db
                     else Posted(db.books, r.value.books, target, TxType.Topup, amount, amount, 0, ref))
  {
    CreditExactly(db.books, target, TxType.Topup, amount, ForTopup(stamp));
  }

  /** A refund by hand is the same for an administrator; under a used reference it succeeds
      without looking at the wallet. */
  lemma ManualRefundOutcome(db: Db, caller: Caller, user: UserId, amount: int, stamp: string)
    ensures var r, ref := ManualRefund(db, caller, user, amount, stamp), ForManualRefund(stamp);
            && (r.Ok? <==> caller.role == SuperAdmin && (Used(db.books, ref) || (Active(db.books, user) && amount >= 1)))
            && (r.Ok? ==>
                  && OnlyBooks(db, r.value)
                  && if Used(db.books, ref) then r.value == db
                     else Posted(db.books, r.value.books, user, TxType.Refund, amount, amount, 0, ref))
  {
    CreditExactly(db.books, user, TxType.Refund, amount, ForManualRefund(stamp));
  }

  /** A transfer under a new reference takes the amount from the distributor and, both legs
      sharing the reference, gives it to nobody. */
  lemma TransferOutcome(db: Db, caller: Caller, merchant: UserId, own: bool, amount: int, stamp: string)
    ensures var r, ref := TransferToMerchant(db, caller, merchant, own, amount, stamp), ForTransfer(stamp);
            && (r.Ok? <==> caller.role == DistributorRole && own && Active(db.books, caller.userId) && Active(db.books, merchant)
                           && (Used(db.books, ref) || (amount >= 1 && db.books.wallets[caller.userId].balance >= amount)))
            && (r.Ok? ==>
                  && OnlyBooks(db, r.value)
                  && if Used(db.books, ref) then r.value == db
                     else Posted(db.books, r.value.books, caller.userId, TransferDebit, amount, -amount, 0, ref))
  {
    var ref := ForTransfer(stamp);
    DebitExactly(db.books, caller.userId, TransferDebit, amount, ref);
    var sent := Post(db.books, caller.userId, TransferDebit, amount, ref);
    if sent.Ok? {
      if !Used(db.books, ref) {
        PostedShows(db.books, sent.value, caller.userId, TransferDebit, amount, -amount, 0, ref);
      }
      CreditExactly(sent.value, merchant, TransferCredit, amount, ref);
    }
  }

  // ---- Refund requests ----

  /** A merchant asks for a refund of their own shipment, once at a time, not after delivery. */
  lemma RequestOutcome(db: Db, caller: Caller, id: string, awb: Awb, amount: int, distributor: Option<UserId>)
    ensures var r := SubmitRequest(db, caller, id, awb, amount, distributor);
            && (r.Ok? <==>
                  && caller.role == MerchantRole && awb in db.shipments && !db.shipments[awb].deleted
                  && db.shipments[awb].merchant == caller.userId && db.shipments[awb].status != Delivered
                  && (forall k | k in db.requests && db.requests[k].awb == awb :: db.requests[k].status != RequestPending)
                  && amount >= 1 && id !in db.requests)
            && (r.Ok? ==>
                  r.value == db.(requests := db.requests[id := Request(caller.userId, distributor, awb, amount, RequestPending)]))
  {
  }

  predicate MayDecide(caller: Caller, q: Request) {
    caller.role == SuperAdmin || (caller.role == DistributorRole && q.distributor == Some(caller.userId))
  }

  predicate CanRefund(b: Books, q: Request, ref: Ref) {
    q.merchant in b.wallets && (Used(b, ref) || (Active(b, q.merchant) && q.amount >= 1))
  }

  /** Approval pays the merchant exactly the amount asked and marks the request approved; a
      rejection, which needs a note, marks it rejected and pays nothing. */
  lemma DecisionOutcome(db: Db, caller: Caller, id: string, approve: bool, hasNote: bool)
    ensures var r, ref := ProcessRequest(db, caller, id, approve, hasNote), ForRefundRequest(id);
            && (r.Ok? <==> id in db.requests && db.requests[id].status == RequestPending && MayDecide(caller, db.requests[id])
                           && (if approve then CanRefund(db.books, db.requests[id], ref) else hasNote))
            && (r.Ok? ==>
                  var q := db.requests[id];
                  && r.value == db.(books := r.value.books,
                                    requests := db.requests[id := q.(status := if approve then RequestApproved else RequestRejected)])
                  && if approve && !Used(db.books, ref)
                     then Posted(db.books, r.value.books, q.merchant, TxType.Refund, q.amount, q.amount, 0, ref)
                     else r.value.books == db.books)
  {
    if id in db.requests {
      CreditExactly(db.books, db.requests[id].merchant, TxType.Refund, db.requests[id].amount, ForRefundRequest(id));
    }
  }

  /** Where requests and ledger agree, as they do after any run, an approval always pays. */
  lemma ApprovalPays(db: Db, caller: Caller, id: string, hasNote: bool)
    requires RequestsOk(db) && ProcessRequest(db, caller, id, true, hasNote).Ok?
    ensures var q := db.requests[id];
            Posted(db.books, ProcessRequest(db, caller, id, true, hasNote).value.books, q.merchant, TxType.Refund,
                   q.amount, q.amount, 0, ForRefundRequest(id))
  {
    DecisionOutcome(db, caller, id, true, hasNote);
    assert RequestOk(db.books, db.requests, id);
  }

  // ---- Settlements ----

  lemma SettlementCreated(db: Db, caller: Caller, id: string, to: UserId, amount: int, reference: Option<string>)
    ensures var r := CreateSettlement(db, caller, id, to, amount, reference);
            && (r.Ok? <==>
                  && (caller.role == SuperAdmin || caller.role == DistributorRole) && caller.userId != to
                  && (forall k | k in db.settlements && db.settlements[k].status == SettlementPending ::
                        var s := db.settlements[k];
                        && !(s.from == caller.userId && s.to == to && s.amount == amount)
                        && !(s.from == to && s.to == caller.userId))
                  && amount >= 1 && id !in db.settlements)
            && (r.Ok? ==>
                  r.value == db.(settlements :=
                    db.settlements[id := SettlementDoc(caller.userId, to, amount, SettlementPending, reference)]))
  {
  }

  predicate CanSettle(b: Books, s: SettlementDoc, ref: Ref) {
    Active(b, s.to) && (Used(b, ref) || (s.amount >= 1 && b.wallets[s.to].balance >= s.amount))
  }

  /** A success takes the amount from the receiving wallet and completes the settlement; a
      failure moves nothing and fails it. */
  lemma SettlementOutcome(db: Db, caller: Caller, id: string, success: bool)
    ensures var r := ProcessSettlement(db, caller, id, success);
            && (r.Ok? <==> caller.role == SuperAdmin && id in db.settlements && db.settlements[id].status == SettlementPending
                           && (success ==> CanSettle(db.books, db.settlements[id], SettlementRef(id, db.settlements[id]))))
            && (r.Ok? ==>
                  var s := db.settlements[id];
                  var ref := SettlementRef(id, s);
                  && r.value == db.(books := r.value.books,
                                    settlements := db.settlements[id := s.(status := if success then SettlementCompleted else SettlementFailed)])
                  && if success && !Used(db.books, ref)
                     then Posted(db.books, r.value.books, s.to, TxType.Settlement, s.amount, -s.amount, 0, ref)
                     else r.value.books == db.books)
  {
    if id in db.settlements {
      var s := db.settlements[id];
      DebitExactly(db.books, s.to, TxType.Settlement, s.amount, SettlementRef(id, s));
    }
  }

  /** It goes under its own reference if it has one that is not empty, else under its id. */
  lemma SettlementReference(id: string, s: SettlementDoc)
    ensures Text(SettlementRef(id, s)) ==
            (if s.reference.Some? && |s.reference.value| > 0 then s.reference.value else "SETTLE-" + id)
  {
  }

  // ---- Razorpay ----

  lemma OrderOutcome(db: Db, caller: Caller, order: string, id: string, amount: int)
    ensures var r := CreateOrder(db, caller, order, id, amount);
            && (r.Ok? <==>
                  && (caller.role == MerchantRole || caller.role == DistributorRole) && Active(db.books, caller.userId)
                  && amount >= 10000 && order !in db.payments)
            && (r.Ok? ==> r.value == db.(payments := db.payments[order := Payment(id, caller.userId, amount, PayPending, None)]))
  {
  }

  predicate CanCredit(b: Books, p: Payment, razorpayId: string) {
    Active(b, p.user) && (Used(b, ForPayment(razorpayId)) || p.amount >= 1)
  }

  /** The order is a success under the payment id, and its owner has the amount if the id was
      new; nothing else changed. */
  predicate Credited(db: Db, db': Db, order: string, razorpayId: string)
    requires order in db.payments
  {
    var p := db.payments[order];
    && db' == db.(books := db'.books, payments := db.payments[order := p.(status := PaySuccess, razorpayId := Some(razorpayId))])
    && if Used(db.books, ForPayment(razorpayId)) then db'.books == db.books
       else Posted(db.books, db'.books, p.user, TxType.Topup, p.amount, p.amount, 0, ForPayment(razorpayId))
  }

  lemma CreditOutcome(db: Db, order: string, razorpayId: string)
    requires order in db.payments
    ensures var r := CreditPayment(db, order, db.payments[order], razorpayId);
            && (r.Ok? <==> CanCredit(db.books, db.payments[order], razorpayId))
            && (r.Ok? ==> Credited(db, r.value, order, razorpayId))
  {
    var p := db.payments[order];
    CreditExactly(db.books, p.user, TxType.Topup, p.amount, ForPayment(razorpayId));
  }

  predicate Mine(db: Db, caller: Caller, id: string, order: string) {
    order in db.payments && db.payments[order].id == id && db.payments[order].user == caller.userId
  }

  predicate Verifiable(db: Db, caller: Caller, id: string, order: string) {
    Mine(db, caller, id, order) && db.payments[order].status !in {PaySuccess, PayFailed}
  }

  /** Verification of one's own unfinished payment with a good signature: no error exactly when
      the amount can be credited, and then it is. */
  lemma VerifyOutcome(db: Db, caller: Caller, id: string, order: string, razorpayId: string)
    requires Verifiable(db, caller, id, order)
    ensures var (db', error) := VerifyPayment(db, caller, id, order, razorpayId, true);
            && (error.None? <==> CanCredit(db.books, db.payments[order], razorpayId))
            && if error.None? then Credited(db, db', order, razorpayId) else db' == db
  {
    assert OwnsPayment(db.payments, id, caller.userId);
    CreditOutcome(db, order, razorpayId);
  }

  /** With a bad one it fails the payment and moves nothing. */
  lemma BadSignatureOutcome(db: Db, caller: Caller, id: string, order: string, razorpayId: string)
    requires Verifiable(db, caller, id, order)
    ensures VerifyPayment(db, caller, id, order, razorpayId, false) ==
            (db.(payments := db.payments[order := db.payments[order].(status := PayFailed)]), Some(InvalidRequest))
  {
    assert OwnsPayment(db.payments, id, caller.userId);
  }

  /** Any other verification changes nothing, and is no error only for a payment that already
      is a success. */
  lemma OtherVerification(db: Db, caller: Caller, id: string, order: string, razorpayId: string, valid: bool)
    requires !Verifiable(db, caller, id, order)
    ensures var (db', error) := VerifyPayment(db, caller, id, order, razorpayId, valid);
            db' == db && (error.None? <==> order in db.payments && db.payments[order].status == PaySuccess)
  {
  }

  /** So whenever a verification reports no error, the payment is a success. */
  lemma VerifiedIsSuccess(db: Db, caller: Caller, id: string, order: string, razorpayId: string, valid: bool)
    requires VerifyPayment(db, caller, id, order, razorpayId, valid).1.None?
    ensures var db' := VerifyPayment(db, caller, id, order, razorpayId, valid).0;
            order in db'.payments && db'.payments[order].status == PaySuccess
  {
    if !Verifiable(db, caller, id, order) {
      OtherVerification(db, caller, id, order, razorpayId, valid);
    } else if valid {
      VerifyOutcome(db, caller, id, order, razorpayId);
    } else {
      BadSignatureOutcome(db, caller, id, order, razorpayId);
    }
  }

  /** The gateway's capture of a known order that is no success yet: exactly when it can be
      credited, whatever its status, and then it is. Any other capture changes nothing. */
  lemma CaptureOutcome(db: Db, order: string, razorpayId: string)
    ensures var r := PaymentCaptured(db, order, razorpayId);
            if order in db.payments && db.payments[order].status != PaySuccess then
              && (r.Ok? <==> CanCredit(db.books, db.payments[order], razorpayId))
              && (r.Ok? ==> Credited(db, r.value, order, razorpayId))
            else r == Ok(db)
  {
    if order in db.payments {
      CreditOutcome(db, order, razorpayId);
    }
  }

  /** A failure reported by the gateway fails a pending payment only; a refund marks a success
      under that payment id only. Neither moves money. */
  lemma GatewayEvents(db: Db, order: string, razorpayId: string, k: string)
    requires k in db.payments
    ensures var failed, refunded := PaymentFailed(db, order), RefundProcessed(db, order, razorpayId);
            && failed == db.(payments := failed.payments) && refunded == db.(payments := refunded.payments)
            && failed.payments.Keys == db.payments.Keys == refunded.payments.Keys
            && failed.payments[k] == db.payments[k].(status :=
                 if k == order && db.payments[k].status == PayPending then PayFailed else db.payments[k].status)
            && refunded.payments[k] == db.payments[k].(status :=
                 if k == order && db.payments[k].status == PaySuccess && db.payments[k].razorpayId == Some(razorpayId)
                 then PayRefunded else db.payments[k].status)
  {
  }
}
