/** Whole runs: any sequence of service calls, carrier events and cron jobs, each
    committed or aborted, from an empty database. */
module Runs {
  import opened Wrappers
  import opened Ledger
  import opened References
  import opened Services
  import opened Protocol

  /** Wallets, refunds, refund requests and settlements. */
  datatype MoneyCmd =
    | NewWallet(user: UserId)
    | SetActive(user: UserId, active: bool)
    | TopUp(caller: Caller, target: UserId, own: bool, amount: int, stamp: string)
    | SendFunds(caller: Caller, merchant: UserId, own: bool, amount: int, stamp: string)
    | RefundByHand(caller: Caller, user: UserId, amount: int, stamp: string)
    | AskRefund(caller: Caller, id: string, awb: Awb, amount: int, distributor: Option<UserId>)
    | DecideRefund(caller: Caller, id: string, approve: bool, hasNote: bool)
    | NewSettlement(caller: Caller, id: string, to: UserId, amount: int, reference: Option<string>)
    | Settle(caller: Caller, id: string, success: bool)

  datatype PayCmd =
    | NewOrder(caller: Caller, order: string, id: string, amount: int)
    | Verify(caller: Caller, id: string, order: string, razorpayId: string, signatureValid: bool)
    | Captured(order: string, razorpayId: string)
    | Failed(order: string)
    | RefundedByGateway(order: string, razorpayId: string)

  datatype ContestCmd =
    | Raise(awb: Awb, extra: int, caller: Caller, now: int)
    | Proof(awb: Awb, caller: Caller)
    | Resolve(awb: Awb, approve: bool, caller: Caller)
    | Expire(now: int, byListing: bool)

  datatype ShipCmd =
    | NewBooking(awb: Awb, booking: Booking)
    | CarrierRefused(awb: Awb)
    | CarrierAccepted(awb: Awb, carrierAwb: string)
    | NewReturn(awb: Awb, merchant: UserId, distributor: Option<UserId>, warehouse: UserId, carrierAwb: string)
    | SetStatus(awb: Awb, next: Status, caller: Caller)
    | Delete(awb: Awb, caller: Caller, carrierCancels: bool)
    | Edit(awb: Awb, caller: Caller, edits: Edits)
    | CarrierEvent(awb: Awb, event: string)
    | Poll(awb: Awb, seen: Shipment, next: Status)
    | Remit(awb: Awb, caller: Caller)

  datatype Cmd = Money(m: MoneyCmd) | Pay(p: PayCmd) | Contest(c: ContestCmd) | Ship(s: ShipCmd)

  /** A failed session leaves the database as it was. */
  function Committed(db: Db, r: Result<Db, Error>): Db {
    match r
    case Ok(db') => db'
    case Err(_) => db
  }

  function StepMoney(db: Db, cmd: MoneyCmd): Db {
    match cmd
    case NewWallet(u) => CreateWallet(db, u)
    case SetActive(u, a) => SetWalletActive(db, u, a)
    case TopUp(c, t, own, m, stamp) => Committed(db, TopupWallet(db, c, t, own, m, stamp))
    case SendFunds(c, t, own, m, stamp) => Committed(db, TransferToMerchant(db, c, t, own, m, stamp))
    case RefundByHand(c, u, m, stamp) => Committed(db, ManualRefund(db, c, u, m, stamp))
    case AskRefund(c, id, awb, m, d) => Committed(db, SubmitRequest(db, c, id, awb, m, d))
    case DecideRefund(c, id, ok, note) => Committed(db, ProcessRequest(db, c, id, ok, note))
    case NewSettlement(c, id, to, m, r) => Committed(db, CreateSettlement(db, c, id, to, m, r))
    case Settle(c, id, ok) => Committed(db, ProcessSettlement(db, c, id, ok))
  }

  function StepPay(db: Db, cmd: PayCmd): Db {
    match cmd
    case NewOrder(c, o, id, m) => Committed(db, CreateOrder(db, c, o, id, m))
    case Verify(c, id, o, r, ok) => VerifyPayment(db, c, id, o, r, ok).0
    case Captured(o, r) => Committed(db, PaymentCaptured(db, o, r))
    case Failed(o) => PaymentFailed(db, o)
    case RefundedByGateway(o, r) => RefundProcessed(db, o, r)
  }

  function StepContest(db: Db, cmd: ContestCmd): Db {
    match cmd
    case Raise(awb, x, c, now) => Committed(db, RaiseDispute(db, awb, x, c, now))
    case Proof(awb, c) => Committed(db, SubmitProof(db, awb, c))
    case Resolve(awb, ok, c) => Committed(db, ResolveDispute(db, awb, ok, c))
    case Expire(now, byListing) => ExpireDisputes(db, now, if byListing then Closed else Expired)
  }

  function StepShip(db: Db, cmd: ShipCmd): Db {
    match cmd
    case NewBooking(awb, k) => Committed(db, Book(db, awb, k))
    case CarrierRefused(awb) => Committed(db, Compensate(db, awb))
    case CarrierAccepted(awb, c) => Committed(db, CompleteBooking(db, awb, c))
    case NewReturn(awb, m, d, w, c) => Committed(db, BookReverse(db, awb, m, d, w, c))
    case SetStatus(awb, next, c) => Committed(db, UpdateStatus(db, awb, next, c))
    case Delete(awb, c, ok) => Committed(db, DeleteShipment(db, awb, c, ok))
    case Edit(awb, c, e) => Committed(db, UpdateShipment(db, awb, c, e))
    case CarrierEvent(awb, e) => Committed(db, Webhook(db, awb, e))
    case Poll(awb, seen, next) => PollSave(db, awb, seen, next)
    case Remit(awb, c) => Committed(db, RemitCod(db, awb, c))
  }

  function Step(db: Db, cmd: Cmd): Db {
    match cmd
    case Money(m) => StepMoney(db, m)
    case Pay(p) => StepPay(db, p)
    case Contest(c) => StepContest(db, c)
    case Ship(s) => StepShip(db, s)
  }

  const EMPTY := Db(Books(map[], []), map[], map[], map[], map[], map[], map[])

  function Run(cmds: seq<Cmd>): Db {
    if cmds == [] then EMPTY else Step(Run(cmds[..|cmds| - 1]), cmds[|cmds| - 1])
  }

  /** Waybills come from the generator; a settlement's free text spells no generated reference. */
  ghost predicate Plausible(cmd: Cmd) {
    && (cmd.Ship? && cmd.s.NewBooking? ==> WfAwb(cmd.s.awb))
    && (cmd.Ship? && cmd.s.NewReturn? ==> WfAwb(cmd.s.awb))
    && (cmd.Money? && cmd.m.NewSettlement? && Keyed(cmd.m.reference) ==> Wf(Free(cmd.m.reference.value)))
  }

  ghost predicate AllPlausible(cmds: seq<Cmd>) {
    forall i | 0 <= i < |cmds| :: Plausible(cmds[i])
  }

  // ---- Families of references, one per group of commands ----

  datatype Family = Cash | Asked | Gateway | Freight | Contested | Remittance

  function FamilyOf(r: Ref): Family {
    match r
    case ForLeg(e, _, _) => if e == Disputed || e == Reversed then Contested else Freight
    case ForCod(_) => Remittance
    case ForRefundRequest(_) => Asked
    case ForPayment(_) => Gateway
    case _ => Cash
  }

  ghost predicate OnlyShows(b: Books, b': Books, f: Family) {
    forall q | Wf(q) && FamilyOf(q) != f :: Seen(b', q) == Seen(b, q)
  }

  ghost predicate KeepsSound(b: Books, b': Books) {
    Sound(b) ==> Sound(b')
  }

  // ---- Money commands ----

  ghost predicate SettlementsOk(db: Db) {
    forall id | id in db.settlements :: Wf(SettlementRef(id, db.settlements[id]))
  }

  lemma TransferView(b: Books, d: UserId, m: UserId, amount: int, r: Ref)
    requires Wf(r) && Transfer(b, d, m, amount, Text(r), Text(r)).Ok?
    ensures var b' := Transfer(b, d, m, amount, Text(r), Text(r)).value;
            Lawful(b, b') && SeenExcept(b, b', r) && SameEscrow(b, b')
  {
    var b1 := Post(b, d, TransferDebit, amount, r).value;
    PostView(b, d, TransferDebit, amount, r);
    PostView(b1, m, TransferCredit, amount, r);
  }

  lemma {:induction false} FoldOfStranger(ledger: seq<Row>, u: UserId)
    requires forall i | 0 <= i < |ledger| :: ledger[i].user != u
    ensures Fold(ledger, u) == 0
  {
    if ledger != [] {
      FoldOfStranger(ledger[..|ledger| - 1], u);
    }
  }

  lemma CreateWalletSound(db: Db, u: UserId)
    ensures KeepsSound(db.books, CreateWallet(db, u).books)
  {
    var b, b' := db.books, CreateWallet(db, u).books;
    if u !in b.wallets && Sound(b) {
      forall i | 0 <= i < |b.ledger|
        ensures b.ledger[i].user != u && RowOk(b', i)
      {
        assert RowOk(b, i);
      }
      FoldOfStranger(b.ledger, u);
    }
  }

  lemma SetActiveSound(db: Db, u: UserId, active: bool)
    ensures KeepsSound(db.books, SetWalletActive(db, u, active).books)
  {
    var b, b' := db.books, SetWalletActive(db, u, active).books;
    if Sound(b) {
      forall i | 0 <= i < |b'.ledger|
        ensures RowOk(b', i)
      {
        assert RowOk(b, i);
      }
    }
  }

  function MoneyFamily(cmd: MoneyCmd): Family {
    if cmd.DecideRefund? then Asked else Cash
  }

  predicate MovesFunds(cmd: MoneyCmd) {
    !cmd.NewWallet? && !cmd.SetActive?
  }

  lemma RefundView(b: Books, user: UserId, amount: int, r: Ref)
    requires Wf(r) && ProcessRefund(b, user, amount, r).Ok?
    ensures var b' := ProcessRefund(b, user, amount, r).value;
            Lawful(b, b') && SeenExcept(b, b', r) && SameEscrow(b, b')
  {
    if Find(b.ledger, Text(r)).None? {
      PostView(b, user, TxType.Refund, amount, r);
    }
  }

  /** What a money command leaves of the books. */
  ghost predicate MoneySeen(db: Db, cmd: MoneyCmd) {
    var b' := StepMoney(db, cmd).books;
    && KeepsSound(db.books, b') && OnlyShows(db.books, b', MoneyFamily(cmd))
    && (MovesFunds(cmd) ==> SameEscrow(db.books, b'))
  }

  lemma PostSeen(b: Books, user: UserId, t: TxType, amount: int, r: Ref)
    requires Wf(r) && Post(b, user, t, amount, r).Ok?
    ensures var b' := Post(b, user, t, amount, r).value;
            KeepsSound(b, b') && OnlyShows(b, b', FamilyOf(r)) && (!t.CodCredit? ==> SameEscrow(b, b'))
  {
    PostView(b, user, t, amount, r);
  }

  lemma TopUpView(db: Db, cmd: MoneyCmd)
    requires cmd.TopUp?
    ensures MoneySeen(db, cmd)
  {
    if TopupWallet(db, cmd.caller, cmd.target, cmd.own, cmd.amount, cmd.stamp).Ok? {
      PostSeen(db.books, cmd.target, TxType.Topup, cmd.amount, ForTopup(cmd.stamp));
    }
  }

  lemma SendView(db: Db, cmd: MoneyCmd)
    requires cmd.SendFunds?
    ensures MoneySeen(db, cmd)
  {
    if TransferToMerchant(db, cmd.caller, cmd.merchant, cmd.own, cmd.amount, cmd.stamp).Ok? {
      TransferView(db.books, cmd.caller.userId, cmd.merchant, cmd.amount, ForTransfer(cmd.stamp));
    }
  }

  lemma ByHandView(db: Db, cmd: MoneyCmd)
    requires cmd.RefundByHand?
    ensures MoneySeen(db, cmd)
  {
    if ManualRefund(db, cmd.caller, cmd.user, cmd.amount, cmd.stamp).Ok? {
      RefundView(db.books, cmd.user, cmd.amount, ForManualRefund(cmd.stamp));
    }
  }

  lemma DecideView(db: Db, cmd: MoneyCmd)
    requires cmd.DecideRefund?
    ensures MoneySeen(db, cmd)
  {
    if ProcessRequest(db, cmd.caller, cmd.id, cmd.approve, cmd.hasNote).Ok? && cmd.approve {
      RefundView(db.books, db.requests[cmd.id].merchant, db.requests[cmd.id].amount, ForRefundRequest(cmd.id));
    }
  }

  lemma SettleView(db: Db, cmd: MoneyCmd)
    requires SettlementsOk(db) && cmd.Settle?
    ensures MoneySeen(db, cmd)
  {
    if ProcessSettlement(db, cmd.caller, cmd.id, cmd.success).Ok? && cmd.success {
      var s := db.settlements[cmd.id];
      PostSeen(db.books, s.to, TxType.Settlement, s.amount, SettlementRef(cmd.id, s));
    }
  }

  lemma WalletView(db: Db, cmd: MoneyCmd)
    requires cmd.NewWallet? || cmd.SetActive?
    ensures MoneySeen(db, cmd)
  {
    if cmd.NewWallet? {
      CreateWalletSound(db, cmd.user);
    } else {
      SetActiveSound(db, cmd.user, cmd.active);
    }
  }

  lemma AskView(db: Db, cmd: MoneyCmd)
    requires cmd.AskRefund? || cmd.NewSettlement?
    ensures MoneySeen(db, cmd)
  {
    assert StepMoney(db, cmd).books == db.books;
  }

  lemma MoneyView(db: Db, cmd: MoneyCmd)
    requires SettlementsOk(db)
    ensures MoneySeen(db, cmd)
  {
    if cmd.NewWallet? || cmd.SetActive? {
      WalletView(db, cmd);
    } else if cmd.TopUp? {
      TopUpView(db, cmd);
    } else if cmd.SendFunds? {
      SendView(db, cmd);
    } else if cmd.RefundByHand? {
      ByHandView(db, cmd);
    } else if cmd.DecideRefund? {
      DecideView(db, cmd);
    } else if cmd.Settle? {
      SettleView(db, cmd);
    } else {
      AskView(db, cmd);
    }
  }

  /** Which records a money command may write. */
  ghost predicate MoneyRecorded(db: Db, cmd: MoneyCmd) {
    var db' := StepMoney(db, cmd);
    && db' == db.(books := db'.books, requests := db'.requests, settlements := db'.settlements)
    && (!cmd.DecideRefund? && !cmd.AskRefund? ==> db'.requests == db.requests)
    && SettlementsOk(db')
  }

  lemma AskRecords(db: Db, cmd: MoneyCmd)
    requires SettlementsOk(db) && cmd.AskRefund?
    ensures MoneyRecorded(db, cmd)
  {
    var db' := StepMoney(db, cmd);
    assert db' == db.(requests := db'.requests);
  }

  lemma ProcessedRecords(db: Db, c: Caller, id: string, approve: bool, hasNote: bool)
    ensures var db' := Committed(db, ProcessRequest(db, c, id, approve, hasNote));
            db' == db.(books := db'.books, requests := db'.requests)
  {
  }

  lemma DecideRecords(db: Db, cmd: MoneyCmd)
    requires SettlementsOk(db) && cmd.DecideRefund?
    ensures MoneyRecorded(db, cmd)
  {
    ProcessedRecords(db, cmd.caller, cmd.id, cmd.approve, cmd.hasNote);
  }

  lemma NewSettlementRecords(db: Db, cmd: MoneyCmd)
    requires SettlementsOk(db) && Plausible(Money(cmd)) && cmd.NewSettlement?
    ensures MoneyRecorded(db, cmd)
  {
  }

  lemma SettleRecords(db: Db, cmd: MoneyCmd)
    requires SettlementsOk(db) && cmd.Settle?
    ensures MoneyRecorded(db, cmd)
  {
  }

  lemma WalletRecords(db: Db, cmd: MoneyCmd)
    requires SettlementsOk(db) && (cmd.NewWallet? || cmd.SetActive?)
    ensures MoneyRecorded(db, cmd)
  {
    var db' := StepMoney(db, cmd);
    assert db' == db.(books := db'.books);
  }

  lemma FundRecords(db: Db, cmd: MoneyCmd)
    requires SettlementsOk(db) && (cmd.TopUp? || cmd.SendFunds?)
    ensures MoneyRecorded(db, cmd)
  {
    var db' := StepMoney(db, cmd);
    assert db' == db.(books := db'.books);
  }

  lemma ByHandRecords(db: Db, cmd: MoneyCmd)
    requires SettlementsOk(db) && cmd.RefundByHand?
    ensures MoneyRecorded(db, cmd)
  {
    var db' := StepMoney(db, cmd);
    assert db' == db.(books := db'.books);
  }

  lemma MoneyRecords(db: Db, cmd: MoneyCmd)
    requires SettlementsOk(db) && Plausible(Money(cmd))
    ensures MoneyRecorded(db, cmd)
  {
    if cmd.AskRefund? {
      AskRecords(db, cmd);
    } else if cmd.DecideRefund? {
      DecideRecords(db, cmd);
    } else if cmd.NewSettlement? {
      NewSettlementRecords(db, cmd);
    } else if cmd.Settle? {
      SettleRecords(db, cmd);
    } else if cmd.NewWallet? || cmd.SetActive? {
      WalletRecords(db, cmd);
    } else if cmd.RefundByHand? {
      ByHandRecords(db, cmd);
    } else {
      FundRecords(db, cmd);
    }
  }

  lemma AskRequests(db: Db, cmd: MoneyCmd)
    requires RequestsOk(db) && cmd.AskRefund?
    ensures RequestsOk(StepMoney(db, cmd))
  {
    var db' := StepMoney(db, cmd);
    if SubmitRequest(db, cmd.caller, cmd.id, cmd.awb, cmd.amount, cmd.distributor).Ok? {
      forall k
        ensures RequestOk(db'.books, db'.requests, k)
      {
        assert RequestOk(db.books, db.requests, k);
      }
    }
  }

  lemma DecideRequests(db: Db, cmd: MoneyCmd)
    requires RequestsOk(db) && cmd.DecideRefund?
    ensures RequestsOk(StepMoney(db, cmd))
  {
    if ProcessRequest(db, cmd.caller, cmd.id, cmd.approve, cmd.hasNote).Ok? {
      ProcessKeepsRequests(db, cmd.caller, cmd.id, cmd.approve, cmd.hasNote);
    }
  }

  lemma MoneyRequests(db: Db, cmd: MoneyCmd)
    requires SettlementsOk(db) && RequestsOk(db) && Plausible(Money(cmd))
    ensures RequestsOk(StepMoney(db, cmd))
  {
    if cmd.DecideRefund? {
      DecideRequests(db, cmd);
    } else if cmd.AskRefund? {
      AskRequests(db, cmd);
    } else {
      MoneyView(db, cmd);
      MoneyRecords(db, cmd);
      RequestsFrame(db, StepMoney(db, cmd));
    }
  }

  // ---- Payment commands ----

  /** Without a credit, at most the named payment is written and it is no success. */
  predicate PaymentWritten(m: map<string, Payment>, m': map<string, Payment>, o: string) {
    || m' == m
    || (o in m' && m' == m[o := m'[o]] && m'[o].status != PaySuccess
        && (o in m ==> m'[o].user == m[o].user && m'[o].amount == m[o].amount))
  }

  /** A payment command credits at most the one payment it names. */
  lemma PayCredits(db: Db, cmd: PayCmd)
    ensures var db' := StepPay(db, cmd);
            || (db' == db.(payments := db'.payments) && PaymentWritten(db.payments, db'.payments, cmd.order))
            || ((cmd.Verify? || cmd.Captured?) && cmd.order in db.payments
                && CreditPayment(db, cmd.order, db.payments[cmd.order], cmd.razorpayId) == Ok(db'))
  {
  }

  lemma PayView(db: Db, cmd: PayCmd)
    ensures var db' := StepPay(db, cmd);
            && KeepsSound(db.books, db'.books) && OnlyShows(db.books, db'.books, Gateway) && SameEscrow(db.books, db'.books)
            && db' == db.(books := db'.books, payments := db'.payments)
  {
    PayCredits(db, cmd);
    if cmd.Verify? || cmd.Captured? {
      if cmd.order in db.payments && CreditPayment(db, cmd.order, db.payments[cmd.order], cmd.razorpayId).Ok? {
        var p := db.payments[cmd.order];
        PostView(db.books, p.user, TxType.Topup, p.amount, ForPayment(cmd.razorpayId));
      }
    }
  }

  /** One order per payment id. */
  ghost predicate OneOrder(cmd: Cmd, orderOf: string -> string) {
    && (cmd.Pay? && cmd.p.Verify? ==> orderOf(cmd.p.razorpayId) == cmd.p.order)
    && (cmd.Pay? && cmd.p.Captured? ==> orderOf(cmd.p.razorpayId) == cmd.p.order)
  }

  lemma PayPayments(db: Db, cmd: PayCmd, orderOf: string -> string)
    requires PaymentsOk(db, orderOf) && OneOrder(Pay(cmd), orderOf)
    ensures PaymentsOk(StepPay(db, cmd), orderOf)
  {
    var db' := StepPay(db, cmd);
    PayCredits(db, cmd);
    if (cmd.Verify? || cmd.Captured?) && cmd.order in db.payments
       && CreditPayment(db, cmd.order, db.payments[cmd.order], cmd.razorpayId) == Ok(db') {
      CreditKeepsPayments(db, orderOf, cmd.order, cmd.razorpayId);
    } else {
      PaymentsFrame(db, db', orderOf);
    }
  }

  // ---- Dispute commands ----

  /** What a dispute command leaves of the books, and which records it may write. */
  ghost predicate ContestSeen(db: Db, cmd: ContestCmd) {
    var db' := StepContest(db, cmd);
    && KeepsSound(db.books, db'.books) && OnlyShows(db.books, db'.books, Contested) && SameEscrow(db.books, db'.books)
    && db' == db.(books := db'.books, disputes := db'.disputes)
  }

  lemma RaiseView(db: Db, cmd: ContestCmd)
    requires LegsOk(db) && cmd.Raise?
    ensures ContestSeen(db, cmd)
  {
    if RaiseDispute(db, cmd.awb, cmd.extra, cmd.caller, cmd.now).Ok? {
      PostLegsView(db.books, db.shipments[cmd.awb], cmd.awb, Disputed, TxType.DisputeCharge, cmd.extra, cmd.extra, false);
    }
  }

  lemma ResolveView(db: Db, cmd: ContestCmd)
    requires LegsOk(db) && cmd.Resolve?
    ensures ContestSeen(db, cmd)
  {
    if ResolveDispute(db, cmd.awb, cmd.approve, cmd.caller).Ok? && cmd.approve {
      var d := db.disputes[cmd.awb];
      PostLegsView(db.books, db.shipments[cmd.awb], cmd.awb, Reversed, TxType.Refund, d.extra, d.extra, false);
    }
  }

  lemma ContestView(db: Db, cmd: ContestCmd)
    requires LegsOk(db)
    ensures ContestSeen(db, cmd)
  {
    if cmd.Raise? {
      RaiseView(db, cmd);
    } else if cmd.Resolve? {
      ResolveView(db, cmd);
    }
  }

  lemma RaiseKeepsLegs(db: Db, cmd: ContestCmd)
    requires LegsOk(db) && cmd.Raise?
    ensures LegsOk(StepContest(db, cmd))
  {
    if RaiseDispute(db, cmd.awb, cmd.extra, cmd.caller, cmd.now).Ok? {
      RaiseLegs(db, cmd.awb, cmd.extra, cmd.caller, cmd.now);
    }
  }

  lemma ResolveKeepsLegs(db: Db, cmd: ContestCmd)
    requires LegsOk(db) && cmd.Resolve?
    ensures LegsOk(StepContest(db, cmd))
  {
    if ResolveDispute(db, cmd.awb, cmd.approve, cmd.caller).Ok? {
      ResolveLegs(db, cmd.awb, cmd.approve, cmd.caller);
    }
  }

  lemma ContestLegs(db: Db, cmd: ContestCmd)
    requires LegsOk(db)
    ensures LegsOk(StepContest(db, cmd))
  {
    if cmd.Raise? {
      RaiseKeepsLegs(db, cmd);
    } else if cmd.Resolve? {
      ResolveKeepsLegs(db, cmd);
    } else {
      ContestFrame(db, cmd);
    }
  }

  lemma ExpireFrame(db: Db, now: int, to: DisputeStatus)
    requires LegsOk(db) && to != Approved
    ensures LegsOk(ExpireDisputes(db, now, to))
  {
    LegsFrame(db, ExpireDisputes(db, now, to));
  }

  lemma ProofFrame(db: Db, awb: Awb, c: Caller)
    requires LegsOk(db) && SubmitProof(db, awb, c).Ok?
    ensures LegsOk(SubmitProof(db, awb, c).value)
  {
    LegsFrame(db, SubmitProof(db, awb, c).value);
  }

  lemma ContestFrame(db: Db, cmd: ContestCmd)
    requires LegsOk(db) && (cmd.Proof? || cmd.Expire?)
    ensures LegsOk(StepContest(db, cmd))
  {
    if cmd.Expire? {
      ExpireFrame(db, cmd.now, if cmd.byListing then Closed else Expired);
    } else if SubmitProof(db, cmd.awb, cmd.caller).Ok? {
      ProofFrame(db, cmd.awb, cmd.caller);
    }
  }

  // ---- Shipping commands ----

  ghost predicate CodAmountsOk(db: Db) {
    forall k | k in db.shipments :: db.shipments[k].codAmount >= 0
  }

  /** Every write of a status is also the last entry of the history. */
  ghost predicate HistoryOk(db: Db) {
    forall k | k in db.shipments ::
      db.shipments[k].history != [] && db.shipments[k].history[|db.shipments[k].history| - 1] == db.shipments[k].status
  }

  /** What one command may do to a stored shipment. */
  predicate Evolves(s: Shipment, s': Shipment) {
    && SameMoney(s, s') && s'.merchant == s.merchant
    && (s.codAmount >= 0 ==> s'.codAmount >= 0)
    && ((s'.status == s.status && s'.history == s.history) || s'.history == s.history + [s'.status])
  }

  predicate Newborn(s: Shipment) {
    s.codAmount >= 0 && s.status == OrderCreated && s.history == [OrderCreated]
  }

  /** At most the named shipment is written: not at all, evolved, or newly created. */
  predicate Writes(m: map<Awb, Shipment>, m': map<Awb, Shipment>, k: Awb) {
    || m' == m
    || (k in m && k in m' && m' == m[k := m'[k]] && Evolves(m[k], m'[k]))
    || (k !in m && k in m' && m' == m[k := m'[k]] && Newborn(m'[k]))
  }

  lemma DeliverWrites(db: Db, awb: Awb)
    requires awb in db.shipments && Deliver(db, awb, db.shipments[awb]).Ok?
    ensures var db' := Deliver(db, awb, db.shipments[awb]).value;
            && Writes(db.shipments, db'.shipments, awb)
            && db' == db.(books := db'.books, shipments := db'.shipments, cods := db'.cods)
  {
  }

  lemma StatusWrites(db: Db, awb: Awb, next: Status, c: Caller)
    requires UpdateStatus(db, awb, next, c).Ok?
    ensures var db' := UpdateStatus(db, awb, next, c).value;
            && Writes(db.shipments, db'.shipments, awb)
            && db' == db.(books := db'.books, shipments := db'.shipments, cods := db'.cods)
            && (next != Delivered ==> db'.cods == db.cods)
  {
    if next == Delivered && db.shipments[awb].status != next {
      DeliverWrites(db, awb);
    }
  }

  /** Which records a shipping command may write. */
  ghost predicate ShipWritten(db: Db, cmd: ShipCmd) {
    var db' := StepShip(db, cmd);
    && Writes(db.shipments, db'.shipments, cmd.awb)
    && db' == db.(books := db'.books, shipments := db'.shipments, cods := db'.cods)
    && (!cmd.Remit? && !(cmd.SetStatus? && cmd.next == Delivered) ==> db'.cods == db.cods)
    && (!cmd.NewBooking? && !cmd.NewReturn? ==> db'.shipments.Keys == db.shipments.Keys)
  }

  lemma BookWrites(db: Db, cmd: ShipCmd)
    requires cmd.NewBooking?
    ensures ShipWritten(db, cmd)
  {
  }

  lemma ReturnWrites(db: Db, cmd: ShipCmd)
    requires cmd.NewReturn?
    ensures ShipWritten(db, cmd)
  {
  }

  lemma CarrierWrites(db: Db, cmd: ShipCmd)
    requires cmd.CarrierRefused? || cmd.CarrierAccepted?
    ensures ShipWritten(db, cmd)
  {
  }

  lemma DeleteWrites(db: Db, cmd: ShipCmd)
    requires cmd.Delete?
    ensures ShipWritten(db, cmd)
  {
  }

  lemma SetStatusWrites(db: Db, cmd: ShipCmd)
    requires cmd.SetStatus?
    ensures ShipWritten(db, cmd)
  {
    if UpdateStatus(db, cmd.awb, cmd.next, cmd.caller).Ok? {
      StatusWrites(db, cmd.awb, cmd.next, cmd.caller);
    }
  }

  lemma EditWrites(db: Db, cmd: ShipCmd)
    requires cmd.Edit?
    ensures ShipWritten(db, cmd)
  {
  }

  lemma EventWrites(db: Db, cmd: ShipCmd)
    requires cmd.CarrierEvent?
    ensures ShipWritten(db, cmd)
  {
  }

  lemma PollWrites(db: Db, cmd: ShipCmd)
    requires cmd.Poll?
    ensures ShipWritten(db, cmd)
  {
  }

  lemma RemitWrites(db: Db, cmd: ShipCmd)
    requires cmd.Remit?
    ensures ShipWritten(db, cmd)
  {
  }

  lemma ShipWrites(db: Db, cmd: ShipCmd)
    ensures ShipWritten(db, cmd)
  {
    if cmd.NewBooking? {
      BookWrites(db, cmd);
    } else if cmd.NewReturn? {
      ReturnWrites(db, cmd);
    } else if cmd.CarrierRefused? || cmd.CarrierAccepted? {
      CarrierWrites(db, cmd);
    } else if cmd.Delete? {
      DeleteWrites(db, cmd);
    } else if cmd.SetStatus? {
      SetStatusWrites(db, cmd);
    } else if cmd.Edit? {
      EditWrites(db, cmd);
    } else if cmd.CarrierEvent? {
      EventWrites(db, cmd);
    } else if cmd.Poll? {
      PollWrites(db, cmd);
    } else {
      RemitWrites(db, cmd);
    }
  }

  lemma WritesEvolve(m: map<Awb, Shipment>, m': map<Awb, Shipment>, k: Awb, a: Awb)
    requires Writes(m, m', k) && a in m
    ensures a in m' && Evolves(m[a], m'[a])
  {
  }

  lemma WritesKeepAmounts(db: Db, db': Db, k: Awb)
    requires Writes(db.shipments, db'.shipments, k)
    ensures CodAmountsOk(db) ==> CodAmountsOk(db')
  {
  }

  lemma WritesKeepHistory(db: Db, db': Db, k: Awb)
    requires Writes(db.shipments, db'.shipments, k)
    ensures HistoryOk(db) ==> HistoryOk(db')
  {
  }

  lemma WritesKeep(db: Db, db': Db, k: Awb)
    requires Writes(db.shipments, db'.shipments, k)
    ensures forall a | a in db.shipments :: a in db'.shipments && Evolves(db.shipments[a], db'.shipments[a])
    ensures CodAmountsOk(db) ==> CodAmountsOk(db')
    ensures HistoryOk(db) ==> HistoryOk(db')
  {
    WritesKeepAmounts(db, db', k);
    WritesKeepHistory(db, db', k);
    forall a | a in db.shipments
      ensures a in db'.shipments && Evolves(db.shipments[a], db'.shipments[a])
    {
      WritesEvolve(db.shipments, db'.shipments, k, a);
    }
  }

  predicate PostsShipLegs(cmd: ShipCmd) {
    cmd.NewBooking? || cmd.CarrierRefused? || cmd.Delete? || (cmd.SetStatus? && cmd.next in {Cancelled, Rto})
  }

  lemma CancelView(db: Db, awb: Awb, s: Shipment, skipZero: bool)
    requires WfAwb(awb) && PostLegs(db.books, s, awb, Refunded, TxType.Refund, s.merchantCost, s.distributorCost, skipZero).Ok?
    ensures var b' := PostLegs(db.books, s, awb, Refunded, TxType.Refund, s.merchantCost, s.distributorCost, skipZero).value;
            KeepsSound(db.books, b') && OnlyShows(db.books, b', Freight) && SameEscrow(db.books, b')
  {
    PostLegsView(db.books, s, awb, Refunded, TxType.Refund, s.merchantCost, s.distributorCost, skipZero);
  }

  lemma StatusView(db: Db, awb: Awb, next: Status, c: Caller)
    requires LegsOk(db) && UpdateStatus(db, awb, next, c).Ok? && next in {Cancelled, Rto}
    ensures var b' := UpdateStatus(db, awb, next, c).value.books;
            KeepsSound(db.books, b') && OnlyShows(db.books, b', Freight) && SameEscrow(db.books, b')
  {
    var s := db.shipments[awb];
    if s.status != next {
      if next == Cancelled {
        CancelView(db, awb, s, true);
      } else {
        PostLegsView(db.books, s, awb, ReturnedToOrigin, TxType.RtoCharge, RTO_CHARGE, RTO_CHARGE, false);
      }
    }
  }

  /** What a command that posts shipment legs leaves of the books. */
  ghost predicate FreightSeen(db: Db, cmd: ShipCmd) {
    var b' := StepShip(db, cmd).books;
    KeepsSound(db.books, b') && OnlyShows(db.books, b', Freight) && SameEscrow(db.books, b')
  }

  lemma BookView(db: Db, cmd: ShipCmd)
    requires Plausible(Ship(cmd)) && cmd.NewBooking?
    ensures FreightSeen(db, cmd)
  {
    if Book(db, cmd.awb, cmd.booking).Ok? {
      var k := cmd.booking;
      PostLegsView(db.books, Draft(k), cmd.awb, Charged, TxType.Charge, k.merchantCost, k.distributorCost, false);
    }
  }

  lemma RefusedView(db: Db, cmd: ShipCmd)
    requires LegsOk(db) && cmd.CarrierRefused?
    ensures FreightSeen(db, cmd)
  {
    if Compensate(db, cmd.awb).Ok? {
      CancelView(db, cmd.awb, db.shipments[cmd.awb], false);
    }
  }

  lemma DeleteView(db: Db, cmd: ShipCmd)
    requires LegsOk(db) && cmd.Delete?
    ensures FreightSeen(db, cmd)
  {
    if DeleteShipment(db, cmd.awb, cmd.caller, cmd.carrierCancels).Ok? {
      CancelView(db, cmd.awb, db.shipments[cmd.awb], true);
    }
  }

  lemma ShipLegsView(db: Db, cmd: ShipCmd)
    requires LegsOk(db) && Plausible(Ship(cmd)) && PostsShipLegs(cmd)
    ensures FreightSeen(db, cmd)
  {
    if cmd.NewBooking? {
      BookView(db, cmd);
    } else if cmd.CarrierRefused? {
      RefusedView(db, cmd);
    } else if cmd.Delete? {
      DeleteView(db, cmd);
    } else if UpdateStatus(db, cmd.awb, cmd.next, cmd.caller).Ok? {
      StatusView(db, cmd.awb, cmd.next, cmd.caller);
    }
  }

  /** What the other shipping commands leave of the books. */
  ghost predicate QuietSeen(db: Db, cmd: ShipCmd) {
    var b' := StepShip(db, cmd).books;
    && KeepsSound(db.books, b') && OnlyShows(db.books, b', Remittance)
    && (!cmd.Remit? && !cmd.SetStatus? ==> b' == db.books)
    && (cmd.SetStatus? && cmd.next != Delivered ==> b' == db.books)
    && (cmd.SetStatus? ==> b'.ledger == db.books.ledger)
  }

  lemma QuietStatusView(db: Db, cmd: ShipCmd)
    requires CodAmountsOk(db) && cmd.SetStatus? && !PostsShipLegs(cmd)
    ensures QuietSeen(db, cmd)
  {
    if cmd.awb in db.shipments {
      AddEscrowView(db.books, db.shipments[cmd.awb].merchant, db.shipments[cmd.awb].codAmount);
    }
  }

  lemma RemitView(db: Db, cmd: ShipCmd)
    requires cmd.Remit?
    ensures QuietSeen(db, cmd)
  {
    if RemitCod(db, cmd.awb, cmd.caller).Ok? && cmd.caller.role == DistributorRole {
      var cod := db.cods[cmd.awb];
      PostSeen(db.books, cod.merchant, TxType.CodCredit, cod.amount, ForCod(cmd.awb));
    }
  }

  lemma SameBooksView(db: Db, cmd: ShipCmd)
    requires cmd.CarrierAccepted? || cmd.NewReturn? || cmd.Edit? || cmd.CarrierEvent? || cmd.Poll?
    ensures QuietSeen(db, cmd)
  {
    assert StepShip(db, cmd).books == db.books;
  }

  lemma ShipQuietView(db: Db, cmd: ShipCmd)
    requires CodAmountsOk(db) && !PostsShipLegs(cmd)
    ensures QuietSeen(db, cmd)
  {
    if cmd.SetStatus? {
      QuietStatusView(db, cmd);
    } else if cmd.Remit? {
      RemitView(db, cmd);
    } else {
      SameBooksView(db, cmd);
    }
  }

  lemma ShipView(db: Db, cmd: ShipCmd)
    requires LegsOk(db) && CodAmountsOk(db) && Plausible(Ship(cmd))
    ensures var b' := StepShip(db, cmd).books;
            KeepsSound(db.books, b') && OnlyShows(db.books, b', if PostsShipLegs(cmd) then Freight else Remittance)
  {
    if PostsShipLegs(cmd) {
      ShipLegsView(db, cmd);
    } else {
      ShipQuietView(db, cmd);
    }
  }

  lemma StatusLegs(db: Db, awb: Awb, next: Status, c: Caller)
    requires LegsOk(db) && UpdateStatus(db, awb, next, c).Ok? && db.shipments[awb].status != next
    requires next in {Cancelled, Rto}
    ensures LegsOk(UpdateStatus(db, awb, next, c).value)
  {
    var r := UpdateStatus(db, awb, next, c).value;
    if next == Cancelled {
      RefundLegs(db, awb, db.shipments[awb], r.books, r.shipments[awb], true);
    } else {
      RtoLegs(db, awb);
    }
  }

  lemma ReturnLegs(db: Db, awb: Awb, m: UserId, d: Option<UserId>, w: UserId, c: string)
    requires LegsOk(db) && WfAwb(awb) && BookReverse(db, awb, m, d, w, c).Ok?
    ensures LegsOk(BookReverse(db, awb, m, d, w, c).value)
  {
    var db' := BookReverse(db, awb, m, d, w, c).value;
    forall leg
      ensures LegOk(db'.books, Get(db'.shipments, awb), Get(db'.disputes, awb), awb, leg)
    {
      assert LegOk(db.books, Get(db.shipments, awb), Get(db.disputes, awb), awb, leg);
    }
    LegsStep(db, db', Charged, awb);
  }

  lemma RefusedLegs(db: Db, cmd: ShipCmd)
    requires LegsOk(db) && cmd.CarrierRefused?
    ensures LegsOk(StepShip(db, cmd))
  {
    if Compensate(db, cmd.awb).Ok? {
      var db' := StepShip(db, cmd);
      RefundLegs(db, cmd.awb, db.shipments[cmd.awb], db'.books, db'.shipments[cmd.awb], false);
    }
  }

  lemma DeletedLegs(db: Db, cmd: ShipCmd)
    requires LegsOk(db) && cmd.Delete?
    ensures LegsOk(StepShip(db, cmd))
  {
    if DeleteShipment(db, cmd.awb, cmd.caller, cmd.carrierCancels).Ok? {
      var db' := StepShip(db, cmd);
      RefundLegs(db, cmd.awb, db.shipments[cmd.awb], db'.books, db'.shipments[cmd.awb], true);
    }
  }

  lemma BookedLegs(db: Db, cmd: ShipCmd)
    requires LegsOk(db) && Plausible(Ship(cmd)) && cmd.NewBooking?
    ensures LegsOk(StepShip(db, cmd))
  {
    if Book(db, cmd.awb, cmd.booking).Ok? {
      BookLegs(db, cmd.awb, cmd.booking);
    }
  }

  lemma SetStatusLegs(db: Db, cmd: ShipCmd)
    requires LegsOk(db) && cmd.SetStatus? && cmd.next in {Cancelled, Rto}
    ensures LegsOk(StepShip(db, cmd))
  {
    if UpdateStatus(db, cmd.awb, cmd.next, cmd.caller).Ok? && db.shipments[cmd.awb].status != cmd.next {
      StatusLegs(db, cmd.awb, cmd.next, cmd.caller);
    }
  }

  lemma ShipPostedLegs(db: Db, cmd: ShipCmd)
    requires LegsOk(db) && Plausible(Ship(cmd)) && PostsShipLegs(cmd)
    ensures LegsOk(StepShip(db, cmd))
  {
    if cmd.NewBooking? {
      BookedLegs(db, cmd);
    } else if cmd.CarrierRefused? {
      RefusedLegs(db, cmd);
    } else if cmd.Delete? {
      DeletedLegs(db, cmd);
    } else {
      SetStatusLegs(db, cmd);
    }
  }

  lemma ShipLegs(db: Db, cmd: ShipCmd)
    requires LegsOk(db) && CodAmountsOk(db) && Plausible(Ship(cmd))
    ensures LegsOk(StepShip(db, cmd))
  {
    if PostsShipLegs(cmd) {
      ShipPostedLegs(db, cmd);
    } else if cmd.NewReturn? {
      if cmd.awb !in db.shipments {
        ReturnLegs(db, cmd.awb, cmd.merchant, cmd.distributor, cmd.warehouse, cmd.carrierAwb);
      }
    } else {
      ShipQuietView(db, cmd);
      ShipWrites(db, cmd);
      WritesKeep(db, StepShip(db, cmd), cmd.awb);
      LegsFrame(db, StepShip(db, cmd));
    }
  }

  // ---- Invariants of every run ----

  ghost predicate Good(db: Db) {
    && Sound(db.books) && LegsOk(db) && SettlementsOk(db) && RequestsOk(db) && CodAmountsOk(db) && HistoryOk(db)
  }

  lemma MoneyGood(db: Db, cmd: MoneyCmd)
    requires Good(db) && Plausible(Money(cmd))
    ensures Good(StepMoney(db, cmd))
  {
    MoneyView(db, cmd);
    MoneyRecords(db, cmd);
    MoneyRequests(db, cmd);
    LegsFrame(db, StepMoney(db, cmd));
  }

  lemma PayGood(db: Db, cmd: PayCmd)
    requires Good(db)
    ensures Good(StepPay(db, cmd))
  {
    PayView(db, cmd);
    LegsFrame(db, StepPay(db, cmd));
    RequestsFrame(db, StepPay(db, cmd));
  }

  lemma ContestGood(db: Db, cmd: ContestCmd)
    requires Good(db)
    ensures Good(StepContest(db, cmd))
  {
    ContestView(db, cmd);
    ContestLegs(db, cmd);
    RequestsFrame(db, StepContest(db, cmd));
  }

  lemma ShipRecordsGood(db: Db, cmd: ShipCmd)
    requires Good(db)
    ensures var db' := StepShip(db, cmd); SettlementsOk(db') && CodAmountsOk(db') && HistoryOk(db') && db'.requests == db.requests
  {
    ShipWrites(db, cmd);
    WritesKeepAmounts(db, StepShip(db, cmd), cmd.awb);
    WritesKeepHistory(db, StepShip(db, cmd), cmd.awb);
  }

  lemma ShipBooksGood(db: Db, cmd: ShipCmd)
    requires Good(db) && Plausible(Ship(cmd))
    ensures Sound(StepShip(db, cmd).books) && RequestsOk(StepShip(db, cmd))
  {
    ShipView(db, cmd);
    ShipRecordsGood(db, cmd);
    RequestsFrame(db, StepShip(db, cmd));
  }

  lemma ShipGood(db: Db, cmd: ShipCmd)
    requires Good(db) && Plausible(Ship(cmd))
    ensures Good(StepShip(db, cmd))
  {
    ShipLegs(db, cmd);
    ShipRecordsGood(db, cmd);
    ShipBooksGood(db, cmd);
  }

  lemma StepGood(db: Db, cmd: Cmd)
    requires Good(db) && Plausible(cmd)
    ensures Good(Step(db, cmd))
  {
    match cmd
    case Money(m) => MoneyGood(db, m);
    case Pay(p) => PayGood(db, p);
    case Contest(c) => ContestGood(db, c);
    case Ship(s) => ShipGood(db, s);
  }

  /** Over every run the books stay sound, so balances are the fold of the ledger from
      0 and no reference repeats; leg postings, refund requests and status histories
      stay consistent with their records. */
  lemma {:induction false} RunGood(cmds: seq<Cmd>)
    requires AllPlausible(cmds)
    ensures Good(Run(cmds))
  {
    if cmds != [] {
      RunGood(cmds[..|cmds| - 1]);
      StepGood(Run(cmds[..|cmds| - 1]), cmds[|cmds| - 1]);
    }
  }
}
