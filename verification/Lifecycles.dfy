/** The course of disputes, refund requests, settlements and payments over a run: what is
    never written again, which statuses follow which, and which records exclude each other. */
module Lifecycles {
  import opened Wrappers
  import opened Ledger
  import opened References
  import opened Services
  import opened Protocol
  import opened Runs
  import opened Guarantees

  // ---- One record, from an earlier to a later moment ----

  predicate Decided(s: DisputeStatus) {
    s != Open && s != UnderReview
  }

  predicate DisputeAdvances(d: Dispute, d': Dispute) {
    && d'.extra == d.extra && d'.expiresAt == d.expiresAt
    && (Decided(d.status) ==> d' == d)
    && (d.status == UnderReview ==> d'.status in {UnderReview, Approved, Rejected})
  }

  predicate RequestAdvances(q: Request, q': Request) {
    q' == q.(status := q'.status) && (q.status != RequestPending ==> q' == q)
  }

  predicate SettlementAdvances(s: SettlementDoc, s': SettlementDoc) {
    s' == s.(status := s'.status) && (s.status != SettlementPending ==> s' == s)
  }

  predicate PaymentAdvances(p: Payment, p': Payment) {
    && p'.id == p.id && p'.user == p.user && p'.amount == p.amount
    && (p.status != PayPending ==> p'.status != PayPending)
  }

  ghost predicate DisputesAdvance(m: map<Awb, Dispute>, m': map<Awb, Dispute>) {
    forall k | k in m :: k in m' && DisputeAdvances(m[k], m'[k])
  }

  ghost predicate RequestsAdvance(m: map<string, Request>, m': map<string, Request>) {
    forall k | k in m :: k in m' && RequestAdvances(m[k], m'[k])
  }

  ghost predicate SettlementsAdvance(m: map<string, SettlementDoc>, m': map<string, SettlementDoc>) {
    forall k | k in m :: k in m' && SettlementAdvances(m[k], m'[k])
  }

  ghost predicate PaymentsAdvance(m: map<string, Payment>, m': map<string, Payment>) {
    forall k | k in m :: k in m' && PaymentAdvances(m[k], m'[k])
  }

  ghost predicate Advances(db: Db, db': Db) {
    && DisputesAdvance(db.disputes, db'.disputes) && RequestsAdvance(db.requests, db'.requests)
    && SettlementsAdvance(db.settlements, db'.settlements) && PaymentsAdvance(db.payments, db'.payments)
  }

  // ---- Records that exclude each other ----

  /** No two pending settlements are the same transfer, and none is the way back of another. */
  ghost predicate SettlementsApart(m: map<string, SettlementDoc>) {
    forall i, j | i in m && j in m && m[i].status == SettlementPending && m[j].status == SettlementPending ::
      && !(m[i].from == m[j].to && m[i].to == m[j].from)
      && (i != j ==> !(m[i].from == m[j].from && m[i].to == m[j].to && m[i].amount == m[j].amount))
  }

  ghost predicate OnePending(m: map<string, Request>) {
    forall i, j | i in m && j in m && m[i].status == RequestPending && m[j].status == RequestPending && i != j ::
      m[i].awb != m[j].awb
  }

  ghost predicate Apart(db: Db) {
    SettlementsApart(db.settlements) && OnePending(db.requests)
  }

  // ---- Step by step ----

  lemma AskCourse(db: Db, cmd: MoneyCmd)
    requires cmd.AskRefund? && OnePending(db.requests)
    ensures RequestsAdvance(db.requests, StepMoney(db, cmd).requests) && OnePending(StepMoney(db, cmd).requests)
  {
  }

  /** At most one pending request is written, and only its status. */
  predicate RequestDecided(m: map<string, Request>, m': map<string, Request>, id: string) {
    || m' == m
    || (id in m && id in m' && m' == m[id := m'[id]] && RequestAdvances(m[id], m'[id]) && m'[id].status != RequestPending)
  }

  lemma DecideWrites(db: Db, cmd: MoneyCmd)
    requires cmd.DecideRefund?
    ensures RequestDecided(db.requests, StepMoney(db, cmd).requests, cmd.id)
  {
  }

  lemma DecideCourse(m: map<string, Request>, m': map<string, Request>, id: string)
    requires RequestDecided(m, m', id) && OnePending(m)
    ensures RequestsAdvance(m, m') && OnePending(m')
  {
  }

  /** At most one settlement is new, pending and unlike the others that are. */
  ghost predicate SettlementAdded(m: map<string, SettlementDoc>, m': map<string, SettlementDoc>, id: string) {
    || m' == m
    || (id !in m && id in m' && m' == m[id := m'[id]] && m'[id].from != m'[id].to && m'[id].amount >= 1
        && !HasPendingTwin(m, m'[id].from, m'[id].to, m'[id].amount) && !HasPendingBetween(m, m'[id].to, m'[id].from))
  }

  predicate SettlementProcessed(m: map<string, SettlementDoc>, m': map<string, SettlementDoc>, id: string) {
    || m' == m
    || (id in m && id in m' && m' == m[id := m'[id]] && SettlementAdvances(m[id], m'[id]) && m'[id].status != SettlementPending)
  }

  lemma CreateWrites(db: Db, cmd: MoneyCmd)
    requires cmd.NewSettlement?
    ensures SettlementAdded(db.settlements, StepMoney(db, cmd).settlements, cmd.id)
  {
  }

  lemma SettleWrites(db: Db, cmd: MoneyCmd)
    requires cmd.Settle?
    ensures SettlementProcessed(db.settlements, StepMoney(db, cmd).settlements, cmd.id)
  {
  }

  lemma CreatedCourse(m: map<string, SettlementDoc>, m': map<string, SettlementDoc>, id: string)
    requires SettlementAdded(m, m', id) && SettlementsApart(m)
    ensures SettlementsAdvance(m, m') && SettlementsApart(m')
  {
  }

  lemma ProcessedCourse(m: map<string, SettlementDoc>, m': map<string, SettlementDoc>, id: string)
    requires SettlementProcessed(m, m', id) && SettlementsApart(m)
    ensures SettlementsAdvance(m, m') && SettlementsApart(m')
  {
  }

  lemma OtherSettlements(db: Db, cmd: MoneyCmd)
    requires !cmd.NewSettlement? && !cmd.Settle?
    ensures StepMoney(db, cmd).settlements == db.settlements
  {
  }

  lemma SettlementCourse(db: Db, cmd: MoneyCmd)
    requires SettlementsApart(db.settlements)
    ensures SettlementsAdvance(db.settlements, StepMoney(db, cmd).settlements)
    ensures SettlementsApart(StepMoney(db, cmd).settlements)
  {
    if cmd.NewSettlement? {
      CreateWrites(db, cmd);
      CreatedCourse(db.settlements, StepMoney(db, cmd).settlements, cmd.id);
    } else if cmd.Settle? {
      SettleWrites(db, cmd);
      ProcessedCourse(db.settlements, StepMoney(db, cmd).settlements, cmd.id);
    } else {
      OtherSettlements(db, cmd);
    }
  }

  lemma MoneyCourse(db: Db, cmd: MoneyCmd)
    requires Good(db) && Apart(db) && Plausible(Money(cmd))
    ensures Advances(db, StepMoney(db, cmd)) && Apart(StepMoney(db, cmd))
  {
    MoneyRecords(db, cmd);
    if cmd.AskRefund? {
      AskCourse(db, cmd);
    } else if cmd.DecideRefund? {
      DecideWrites(db, cmd);
      DecideCourse(db.requests, StepMoney(db, cmd).requests, cmd.id);
    }
    SettlementCourse(db, cmd);
  }

  /** At most the named payment is written; an old one moves on. */
  predicate PaymentWrites(m: map<string, Payment>, m': map<string, Payment>, o: string) {
    || m' == m
    || (o in m' && m' == m[o := m'[o]] && (if o in m then PaymentAdvances(m[o], m'[o]) else m'[o].amount >= MINIMUM_TOPUP))
  }

  lemma CreditWrites(db: Db, order: string, p: Payment, razorpayId: string)
    requires CreditPayment(db, order, p, razorpayId).Ok?
    ensures CreditPayment(db, order, p, razorpayId).value.payments ==
            db.payments[order := p.(status := PaySuccess, razorpayId := Some(razorpayId))]
  {
  }

  /** What a verification leaves of the payments. */
  predicate Verified(m: map<string, Payment>, m': map<string, Payment>, c: Caller, id: string, o: string, r: string, valid: bool) {
    || m' == m
    || (o in m && m[o].status != PaySuccess && m[o].status != PayFailed && m[o].id == id && m[o].user == c.userId
        && m' == m[o := if valid then m[o].(status := PaySuccess, razorpayId := Some(r)) else m[o].(status := PayFailed)])
  }

  lemma VerifyOutcome(db: Db, c: Caller, id: string, o: string, r: string, valid: bool)
    ensures Verified(db.payments, VerifyPayment(db, c, id, o, r, valid).0.payments, c, id, o, r, valid)
  {
    if valid && o in db.payments && CreditPayment(db, o, db.payments[o], r).Ok? {
      CreditWrites(db, o, db.payments[o], r);
    }
  }

  lemma BadSignature(db: Db, c: Caller, id: string, o: string, r: string)
    requires o in db.payments && db.payments[o].status == PayRefunded
    requires db.payments[o].id == id && db.payments[o].user == c.userId
    ensures VerifyPayment(db, c, id, o, r, false).0 == db.(payments := db.payments[o := db.payments[o].(status := PayFailed)])
  {
    assert OwnsPayment(db.payments, id, c.userId);
  }

  lemma VerifyWrites(db: Db, cmd: PayCmd)
    requires cmd.Verify?
    ensures PaymentWrites(db.payments, StepPay(db, cmd).payments, cmd.order)
  {
    VerifyOutcome(db, cmd.caller, cmd.id, cmd.order, cmd.razorpayId, cmd.signatureValid);
  }

  lemma OtherPayWrites(db: Db, cmd: PayCmd)
    requires !cmd.Verify?
    ensures PaymentWrites(db.payments, StepPay(db, cmd).payments, cmd.order)
  {
  }

  lemma PaymentCourse(m: map<string, Payment>, m': map<string, Payment>, o: string)
    requires PaymentWrites(m, m', o)
    ensures PaymentsAdvance(m, m')
  {
  }

  /** A payment that was credited is marked failed by exactly one thing: after the gateway
      refunded it, its owner's verification with a bad signature. The credit stays posted. */
  lemma CreditedFailsExactly(db: Db, cmd: PayCmd, order: string)
    requires order in db.payments && db.payments[order].status in {PaySuccess, PayRefunded}
    ensures order in StepPay(db, cmd).payments
    ensures StepPay(db, cmd).payments[order].status == PayFailed <==>
            && cmd.Verify? && cmd.order == order && db.payments[order].status == PayRefunded && !cmd.signatureValid
            && cmd.id == db.payments[order].id && cmd.caller.userId == db.payments[order].user
    ensures StepPay(db, cmd).payments[order].status == PayFailed ==> StepPay(db, cmd).books == db.books
  {
    if cmd.Verify? && cmd.order == order {
      VerifiedFails(db, cmd);
    } else if cmd.Verify? {
      VerifyWrites(db, cmd);
    }
  }

  lemma VerifiedFails(db: Db, cmd: PayCmd)
    requires cmd.Verify? && cmd.order in db.payments && db.payments[cmd.order].status in {PaySuccess, PayRefunded}
    ensures var db', p := StepPay(db, cmd), db.payments[cmd.order];
            && cmd.order in db'.payments
            && (db'.payments[cmd.order].status == PayFailed <==>
                  p.status == PayRefunded && !cmd.signatureValid && cmd.id == p.id && cmd.caller.userId == p.user)
            && (db'.payments[cmd.order].status == PayFailed ==> db'.books == db.books)
  {
    var p := db.payments[cmd.order];
    if p.status == PayRefunded && !cmd.signatureValid && cmd.id == p.id && cmd.caller.userId == p.user {
      BadSignature(db, cmd.caller, cmd.id, cmd.order, cmd.razorpayId);
    } else {
      VerifyOutcome(db, cmd.caller, cmd.id, cmd.order, cmd.razorpayId, cmd.signatureValid);
    }
  }

  lemma PayCourse(db: Db, cmd: PayCmd)
    requires Apart(db)
    ensures Advances(db, StepPay(db, cmd)) && Apart(StepPay(db, cmd))
  {
    PayView(db, cmd);
    if cmd.Verify? {
      VerifyWrites(db, cmd);
    } else {
      OtherPayWrites(db, cmd);
    }
    PaymentCourse(db.payments, StepPay(db, cmd).payments, cmd.order);
  }

  lemma DisputeCourse(db: Db, cmd: ContestCmd)
    ensures DisputesAdvance(db.disputes, StepContest(db, cmd).disputes)
  {
  }

  lemma ContestCourse(db: Db, cmd: ContestCmd)
    requires Good(db) && Apart(db)
    ensures Advances(db, StepContest(db, cmd)) && Apart(StepContest(db, cmd))
  {
    ContestView(db, cmd);
    DisputeCourse(db, cmd);
  }

  lemma StepCourse(db: Db, cmd: Cmd)
    requires Good(db) && Apart(db) && Plausible(cmd)
    ensures Advances(db, Step(db, cmd)) && Apart(Step(db, cmd))
  {
    match cmd
    case Money(m) => MoneyCourse(db, m);
    case Pay(p) => PayCourse(db, p);
    case Contest(c) => ContestCourse(db, c);
    case Ship(s) => ShipWrites(db, s);
  }

  // ---- Whole runs ----

  /** In every run at most one refund request per shipment is pending, and among pending
      settlements none repeats another or runs against it. */
  lemma {:induction false} RunApart(cmds: seq<Cmd>)
    requires AllPlausible(cmds)
    ensures Apart(Run(cmds))
  {
    if cmds != [] {
      var n := |cmds| - 1;
      RunApart(cmds[..n]);
      RunGood(cmds[..n]);
      StepCourse(Run(cmds[..n]), cmds[n]);
    }
  }

  lemma AdvancesOn(a: Db, b: Db, c: Db)
    requires Advances(a, b) && Advances(b, c)
    ensures Advances(a, c)
  {
  }

  lemma LastAdvances(cmds: seq<Cmd>)
    requires AllPlausible(cmds) && cmds != []
    ensures Advances(Run(cmds[..|cmds| - 1]), Run(cmds))
  {
    RunGood(cmds[..|cmds| - 1]);
    RunApart(cmds[..|cmds| - 1]);
    StepCourse(Run(cmds[..|cmds| - 1]), cmds[|cmds| - 1]);
  }

  /** From any moment of a run to its end: verdicts, decided requests and processed
      settlements stand, no payment becomes pending again, and no amount is ever rewritten. */
  lemma {:induction false} RunAdvances(cmds: seq<Cmd>, n: nat)
    requires AllPlausible(cmds) && n <= |cmds|
    ensures Advances(Run(cmds[..n]), Run(cmds))
  {
    if n == |cmds| {
      assert cmds[..n] == cmds;
    } else {
      var last := |cmds| - 1;
      assert cmds[..last][..n] == cmds[..n];
      RunAdvances(cmds[..last], n);
      LastAdvances(cmds);
      AdvancesOn(Run(cmds[..n]), Run(cmds[..last]), Run(cmds));
    }
  }

  /** A shipment, once stored, keeps its owner, its legs and their costs to the end of the run. */
  lemma {:induction false} RunOwners(cmds: seq<Cmd>, n: nat, awb: Awb)
    requires AllPlausible(cmds) && n <= |cmds| && awb in Run(cmds[..n]).shipments
    ensures awb in Run(cmds).shipments
    ensures SameMoney(Run(cmds[..n]).shipments[awb], Run(cmds).shipments[awb])
    ensures Run(cmds).shipments[awb].merchant == Run(cmds[..n]).shipments[awb].merchant
  {
    if n == |cmds| {
      assert cmds[..n] == cmds;
    } else {
      var last := |cmds| - 1;
      assert cmds[..last][..n] == cmds[..n];
      RunOwners(cmds[..last], n, awb);
      RunGood(cmds[..last]);
      StepOwner(Run(cmds[..last]), cmds[last], awb);
    }
  }

  lemma StepOwner(db: Db, cmd: Cmd, awb: Awb)
    requires Good(db) && Plausible(cmd) && awb in db.shipments
    ensures awb in Step(db, cmd).shipments
    ensures SameMoney(db.shipments[awb], Step(db, cmd).shipments[awb])
    ensures Step(db, cmd).shipments[awb].merchant == db.shipments[awb].merchant
  {
    match cmd
    case Money(m) => MoneyRecords(db, m);
    case Pay(p) => PayView(db, p);
    case Contest(c) => ContestView(db, c);
    case Ship(s) =>
      ShipWrites(db, s);
      WritesEvolve(db.shipments, StepShip(db, s).shipments, s.awb, awb);
  }

  /** Once a dispute is decided its money is final: whatever follows, both legs have moved
      for it what they had moved then. */
  lemma VerdictIsFinal(cmds: seq<Cmd>, n: nat, awb: Awb, leg: Leg)
    requires AllPlausible(cmds) && n <= |cmds| && WfAwb(awb)
    requires awb in Run(cmds[..n]).disputes && Decided(Run(cmds[..n]).disputes[awb].status)
    ensures DisputeMovement(Run(cmds), awb, leg) == DisputeMovement(Run(cmds[..n]), awb, leg)
    ensures awb in Run(cmds).disputes && Run(cmds).disputes[awb] == Run(cmds[..n]).disputes[awb]
  {
    RunGood(cmds[..n]);
    RunAdvances(cmds, n);
    RunOwners(cmds, n, awb);
    LegMovements(cmds[..n], awb, leg);
    LegMovements(cmds, awb, leg);
  }
}
