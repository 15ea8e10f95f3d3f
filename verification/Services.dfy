/** The money-moving services as functions on the committed database. Each is one
    session: an error means the session aborted and nothing changed. A shipment, its
    COD record and its weight dispute are named by the shipment's waybill (each is
    unique per shipment); user directory facts and carrier answers are inputs. */
module Services {
  import opened Wrappers
  import opened Ledger
  import opened References

  // ---- Records ----

  datatype Role = SuperAdmin | DistributorRole | MerchantRole | WarehouseRole

  datatype Caller = Caller(role: Role, userId: UserId)

  datatype Status =
    | OrderCreated | PickedUp | ArrivedAtHub | InTransit | OutForDelivery | Delivered | DeliveryFailed
    | RtoInitiated | RtoInTransit | RtoDelivered | Rto | Cancelled

  datatype CodState = CodAwaited | CodCollected | CodPaidOut

  datatype Shipment = Shipment(
    merchant: UserId, distributor: Option<UserId>, warehouse: UserId,
    merchantCost: int, distributorCost: int,
    isCod: bool, codAmount: int, codState: CodState, payoutPaid: bool,
    status: Status, history: seq<Status>, deleted: bool,
    carrierAwb: Option<string>, carrierBooked: bool)

  datatype CodStage = CodPending | SettledToVexaro | Remitted

  datatype Cod = Cod(merchant: UserId, distributor: Option<UserId>, amount: int, stage: CodStage)

  datatype DisputeStatus = Open | UnderReview | Approved | Rejected | Expired | Closed

  datatype Dispute = Dispute(extra: int, status: DisputeStatus, expiresAt: int)

  datatype PaymentStatus = PayPending | PaySuccess | PayFailed | PayRefunded

  datatype Payment = Payment(id: string, user: UserId, amount: int, status: PaymentStatus, razorpayId: Option<string>)

  datatype SettlementStatus = SettlementPending | SettlementCompleted | SettlementFailed

  datatype SettlementDoc = SettlementDoc(from: UserId, to: UserId, amount: int, status: SettlementStatus,
                                         reference: Option<string>)

  datatype RequestStatus = RequestPending | RequestApproved | RequestRejected

  datatype Request = Request(merchant: UserId, distributor: Option<UserId>, awb: Awb, amount: int, status: RequestStatus)

  datatype Db = Db(
    books: Books,
    shipments: map<Awb, Shipment>,
    cods: map<Awb, Cod>,
    disputes: map<Awb, Dispute>,
    payments: map<string, Payment>,        // by Razorpay order id
    settlements: map<string, SettlementDoc>,
    requests: map<string, Request>)

  const RTO_CHARGE := 4000
  const DISPUTE_WINDOW_MS := 3 * 24 * 60 * 60 * 1000
  const MINIMUM_TOPUP := 10000

  // ---- Posting ----

  function Post(b: Books, user: UserId, t: TxType, amount: int, r: Ref): Result<Books, Error> {
    var a :- Apply(b, Call(user, t, amount, Some(Text(r))));
    Ok(a.books)
  }

  predicate HasLeg(s: Shipment, leg: Leg) {
    leg.Merchant? || s.distributor.Some?
  }

  /** Merchant leg, then distributor leg if there is a distributor. */
  function PostLegs(b: Books, s: Shipment, awb: Awb, e: Event, t: TxType, m: int, d: int, skipZero: bool)
    : Result<Books, Error>
  {
    var b1 :- if m > 0 || !skipZero then Post(b, s.merchant, t, m, ForLeg(e, awb, Leg.Merchant)) else Ok(b);
    if s.distributor.Some? && (d > 0 || !skipZero)
    then Post(b1, s.distributor.value, t, d, ForLeg(e, awb, Leg.Distributor)) else Ok(b1)
  }

  function WithStatus(s: Shipment, next: Status): Shipment {
    s.(status := next, history := s.history + [next])
  }

  // ---- Wallet service ----

  function CreateWallet(db: Db, user: UserId): Db {
    if user in db.books.wallets then db
    else db.(books := db.books.(wallets := db.books.wallets[user := Wallet(0, 0, true)]))
  }

  /** The wallet's active flag as an operator of the database may set it. */
  function SetWalletActive(db: Db, user: UserId, active: bool): Db {
    if user !in db.books.wallets then db
    else db.(books := db.books.(wallets :=
               db.books.wallets[user := db.books.wallets[user].(isActive := active)]))
  }

  function TopupWallet(db: Db, caller: Caller, target: UserId, ownMerchant: bool, amount: int, stamp: string)
    : Result<Db, Error>
  {
    if caller.role == DistributorRole && !ownMerchant then Err(AccessDenied)
    else if caller.role != DistributorRole && caller.role != SuperAdmin then Err(AccessDenied)
    else
      var b :- Post(db.books, target, TxType.Topup, amount, ForTopup(stamp));
      Ok(db.(books := b))
  }

  /** Both legs carry the one reference built from the clock. */
  function TransferToMerchant(db: Db, caller: Caller, merchant: UserId, ownMerchant: bool, amount: int, stamp: string)
    : Result<Db, Error>
  {
    if caller.role != DistributorRole || !ownMerchant then Err(AccessDenied)
    else
      var b :- Transfer(db.books, caller.userId, merchant, amount, Text(ForTransfer(stamp)), Text(ForTransfer(stamp)));
      Ok(db.(books := b))
  }

  // ---- Refund service ----

  function ProcessRefund(b: Books, user: UserId, amount: int, r: Ref): Result<Books, Error> {
    if Find(b.ledger, Text(r)).Some? then Ok(b) else Post(b, user, TxType.Refund, amount, r)
  }

  function ManualRefund(db: Db, caller: Caller, user: UserId, amount: int, stamp: string): Result<Db, Error> {
    if caller.role != SuperAdmin then Err(AccessDenied)
    else
      var b :- ProcessRefund(db.books, user, amount, ForManualRefund(stamp));
      Ok(db.(books := b))
  }

  predicate HasPendingRequest(requests: map<string, Request>, awb: Awb) {
    exists k :: k in requests && requests[k].awb == awb && requests[k].status == RequestPending
  }

  function SubmitRequest(db: Db, caller: Caller, id: string, awb: Awb, amount: int, distributor: Option<UserId>)
    : Result<Db, Error>
  {
    if caller.role != MerchantRole then Err(AccessDenied)
    else if awb !in db.shipments || db.shipments[awb].deleted || db.shipments[awb].merchant != caller.userId then Err(NotFound)
    else if db.shipments[awb].status == Delivered then Err(InvalidRequest)
    else if HasPendingRequest(db.requests, awb) then Err(Duplicate)
    else if amount < 1 || id in db.requests then Err(InvalidRequest)
    else Ok(db.(requests := db.requests[id := Request(caller.userId, distributor, awb, amount, RequestPending)]))
  }

  function ProcessRequest(db: Db, caller: Caller, id: string, approve: bool, hasNote: bool): Result<Db, Error> {
    if caller.role != SuperAdmin && caller.role != DistributorRole then Err(AccessDenied)
    else if !approve && !hasNote then Err(InvalidRequest)
    else if id !in db.requests then Err(NotFound)
    else
      var q := db.requests[id];
      if caller.role == DistributorRole && q.distributor != Some(caller.userId) then Err(AccessDenied)
      else if q.status != RequestPending then Err(Duplicate)
      else if approve then
        if q.merchant !in db.books.wallets then Err(WalletNotFound)
        else
          var b :- ProcessRefund(db.books, q.merchant, q.amount, ForRefundRequest(id));
          Ok(db.(books := b, requests := db.requests[id := q.(status := RequestApproved)]))
      else Ok(db.(requests := db.requests[id := q.(status := RequestRejected)]))
  }

  // ---- Settlement service ----

  predicate HasPendingBetween(settlements: map<string, SettlementDoc>, from: UserId, to: UserId) {
    exists k :: k in settlements && settlements[k].from == from && settlements[k].to == to
                && settlements[k].status == SettlementPending
  }

  predicate HasPendingTwin(settlements: map<string, SettlementDoc>, from: UserId, to: UserId, amount: int) {
    exists k :: k in settlements && settlements[k].from == from && settlements[k].to == to
                && settlements[k].amount == amount && settlements[k].status == SettlementPending
  }

  function CreateSettlement(db: Db, caller: Caller, id: string, to: UserId, amount: int, reference: Option<string>)
    : Result<Db, Error>
  {
    if caller.role != SuperAdmin && caller.role != DistributorRole then Err(AccessDenied)
    else if caller.userId == to then Err(InvalidRequest)
    else if HasPendingTwin(db.settlements, caller.userId, to, amount) then Err(Duplicate)
    else if HasPendingBetween(db.settlements, to, caller.userId) then Err(Duplicate)
    else if amount < 1 || id in db.settlements then Err(InvalidRequest)
    else Ok(db.(settlements := db.settlements[id := SettlementDoc(caller.userId, to, amount, SettlementPending, reference)]))
  }

  function SettlementRef(id: string, s: SettlementDoc): Ref {
    if Keyed(s.reference) then Free(s.reference.value) else ForSettlement(id)
  }

  function ProcessSettlement(db: Db, caller: Caller, id: string, success: bool): Result<Db, Error> {
    if caller.role != SuperAdmin then Err(AccessDenied)
    else if id !in db.settlements then Err(NotFound)
    else if db.settlements[id].status != SettlementPending then Err(Duplicate)
    else
      var s := db.settlements[id];
      var b :- if success then Post(db.books, s.to, TxType.Settlement, s.amount, SettlementRef(id, s)) else Ok(db.books);
      var status := if success then SettlementCompleted else SettlementFailed;
      Ok(db.(books := b, settlements := db.settlements[id := s.(status := status)]))
  }

  // ---- Booking ----

  /** What pricing and the request decide before the first session opens. */
  datatype Booking = Booking(
    merchant: UserId, distributor: Option<UserId>, warehouse: UserId,
    merchantCost: int, distributorCost: int, isCod: bool, codAmount: int)

  function Draft(k: Booking): Shipment {
    Shipment(k.merchant, k.distributor, k.warehouse, k.merchantCost, k.distributorCost, k.isCod, k.codAmount,
             if k.isCod then CodAwaited else CodPaidOut, !k.isCod,
             OrderCreated, [OrderCreated], false, None, false)
  }

  /** First session of a booking: both charges and the local draft. */
  function Book(db: Db, awb: Awb, k: Booking): Result<Db, Error> {
    var s := Draft(k);
    var b :- PostLegs(db.books, s, awb, Charged, TxType.Charge, k.merchantCost, k.distributorCost, false);
    if awb in db.shipments then Err(Duplicate)
    else if k.codAmount < 0 then Err(InvalidRequest)
    else Ok(db.(books := b, shipments := db.shipments[awb := s]))
  }

  /** Second session, after the carrier refused: refund both legs and cancel. */
  function Compensate(db: Db, awb: Awb): Result<Db, Error> {
    if awb !in db.shipments || db.shipments[awb].carrierBooked then Err(InvalidRequest)
    else
      var s := db.shipments[awb];
      var b :- PostLegs(db.books, s, awb, Refunded, TxType.Refund, s.merchantCost, s.distributorCost, false);
      Ok(db.(books := b, shipments := db.shipments[awb := WithStatus(s, Cancelled)]))
  }

  function CompleteBooking(db: Db, awb: Awb, carrierAwb: string): Result<Db, Error> {
    if awb !in db.shipments then Err(NotFound)
    else Ok(db.(shipments := db.shipments[awb := db.shipments[awb].(carrierAwb := Some(carrierAwb), carrierBooked := true)]))
  }

  /** The whole request: the compensation's own failure is swallowed. */
  function CreateShipment(db: Db, awb: Awb, k: Booking, carrier: Option<string>): (Db, Option<Error>) {
    match Book(db, awb, k)
    case Err(e) => (db, Some(e))
    case Ok(booked) =>
      match carrier
      case None =>
        (match Compensate(booked, awb)
         case Ok(done) => (done, Some(CarrierFailed))
         case Err(_) => (booked, Some(CarrierFailed)))
      case Some(c) =>
        (match CompleteBooking(booked, awb, c)
         case Ok(done) => (done, None)
         case Err(e) => (booked, Some(e)))
  }

  /** A return pickup is created already booked, with no charge and no COD. */
  function BookReverse(db: Db, awb: Awb, merchant: UserId, distributor: Option<UserId>, warehouse: UserId, carrierAwb: string)
    : Result<Db, Error>
  {
    if awb in db.shipments then Err(Duplicate)
    else Ok(db.(shipments := db.shipments[awb :=
                  Shipment(merchant, distributor, warehouse, 0, 0, false, 0, CodPaidOut, true,
                           OrderCreated, [OrderCreated], false, Some(carrierAwb), true)]))
  }

  // ---- Status changes ----

  function Transitions(s: Status): set<Status> {
    match s
    case OrderCreated => {PickedUp, Cancelled}
    case PickedUp => {ArrivedAtHub}
    case ArrivedAtHub => {OutForDelivery}
    case OutForDelivery => {Delivered, DeliveryFailed}
    case DeliveryFailed => {OutForDelivery, Rto}
    case _ => {}
  }

  predicate MayAccess(s: Shipment, caller: Caller) {
    match caller.role
    case SuperAdmin => true
    case MerchantRole => s.merchant == caller.userId
    case DistributorRole => s.distributor == Some(caller.userId)
    case WarehouseRole => s.warehouse == caller.userId
  }

  function FindWithAccess(db: Db, awb: Awb, caller: Caller): Result<Shipment, Error> {
    if awb !in db.shipments || db.shipments[awb].deleted then Err(NotFound)
    else if !MayAccess(db.shipments[awb], caller) then Err(AccessDenied)
    else Ok(db.shipments[awb])
  }

  predicate RoleMaySet(role: Role, next: Status) {
    && (role == MerchantRole ==> next == Cancelled)
    && (role == WarehouseRole ==>
          next in {PickedUp, ArrivedAtHub, OutForDelivery, DeliveryFailed, Rto, Delivered})
  }

  function PerformCancellation(db: Db, awb: Awb, s: Shipment): Result<Db, Error> {
    if s.status != OrderCreated then Err(InvalidTransition)
    else
      var b :- PostLegs(db.books, s, awb, Refunded, TxType.Refund, s.merchantCost, s.distributorCost, true);
      Ok(db.(books := b, shipments := db.shipments[awb := WithStatus(s, Cancelled).(deleted := true)]))
  }

  function ReturnToOrigin(db: Db, awb: Awb, s: Shipment): Result<Db, Error> {
    var b :- PostLegs(db.books, s, awb, ReturnedToOrigin, TxType.RtoCharge, RTO_CHARGE, RTO_CHARGE, false);
    Ok(db.(books := b, shipments := db.shipments[awb := WithStatus(s, Rto)]))
  }

  /** `findOneAndUpdate` on the merchant's active wallet: no match, no change. */
  function AddEscrow(b: Books, user: UserId, amount: int): Books {
    if user in b.wallets && b.wallets[user].isActive
    then b.(wallets := b.wallets[user := b.wallets[user].(escrow := b.wallets[user].escrow + amount)])
    else b
  }

  function Deliver(db: Db, awb: Awb, s: Shipment): Result<Db, Error> {
    if s.isCod then
      if awb in db.cods then Err(Duplicate)
      else if s.codAmount < 0 then Err(InvalidRequest)
      else Ok(db.(books := AddEscrow(db.books, s.merchant, s.codAmount),
                  cods := db.cods[awb := Cod(s.merchant, s.distributor, s.codAmount, CodPending)],
                  shipments := db.shipments[awb :=
                    WithStatus(s, Delivered).(codState := CodCollected, payoutPaid := false)]))
    else Ok(db.(shipments := db.shipments[awb := WithStatus(s, Delivered).(codState := CodPaidOut, payoutPaid := true)]))
  }

  function UpdateStatus(db: Db, awb: Awb, next: Status, caller: Caller): Result<Db, Error> {
    var s :- FindWithAccess(db, awb, caller);
    if !RoleMaySet(caller.role, next) then Err(AccessDenied)
    else if s.status == next then Ok(db)
    else if next !in Transitions(s.status) then Err(InvalidTransition)
    else if next == Cancelled then PerformCancellation(db, awb, s)
    else if next == Rto then ReturnToOrigin(db, awb, s)
    else if next == Delivered then Deliver(db, awb, s)
    else Ok(db.(shipments := db.shipments[awb := WithStatus(s, next)]))
  }

  /** An empty carrier waybill counts as none. */
  predicate NamesCarrierAwb(s: Shipment) {
    s.carrierAwb.Some? && s.carrierAwb.value != ""
  }

  function DeleteShipment(db: Db, awb: Awb, caller: Caller, carrierCancels: bool): Result<Db, Error> {
    var s :- FindWithAccess(db, awb, caller);
    if s.status != OrderCreated then Err(InvalidTransition)
    else if s.carrierBooked && NamesCarrierAwb(s) && !carrierCancels then Err(CarrierFailed)
    else PerformCancellation(db, awb, s)
  }

  /** The fields of an edit that other services later read; `core` says that weight, dimensions
      or service type are given too. */
  datatype Edits = Edits(isCod: Option<bool>, codAmount: Option<int>, core: bool,
                         warehouse: Option<UserId>, carrierAwb: Option<string>)

  function Edited(s: Shipment, e: Edits): Shipment {
    s.(isCod := if e.isCod.Some? then e.isCod.value else s.isCod,
       codAmount := if e.codAmount.Some? then e.codAmount.value else s.codAmount,
       warehouse := if e.warehouse.Some? then e.warehouse.value else s.warehouse,
       carrierAwb := if e.carrierAwb.Some? then e.carrierAwb else s.carrierAwb)
  }

  function UpdateShipment(db: Db, awb: Awb, caller: Caller, e: Edits): Result<Db, Error> {
    var s :- FindWithAccess(db, awb, caller);
    if s.status in {Delivered, Cancelled, Rto} then Err(InvalidRequest)
    else if s.status != OrderCreated && (e.isCod.Some? || e.codAmount.Some? || e.core) then Err(InvalidRequest)
    else if e.codAmount.Some? && e.codAmount.value < 0 then Err(InvalidRequest)
    else Ok(db.(shipments := db.shipments[awb := Edited(s, e)]))
  }

  /** The carrier's event names after trimming and lower-casing. */
  function WebhookStatus(event: string): Option<Status> {
    if event in {"order_created", "booked"} then Some(OrderCreated)
    else if event in {"pickup", "picked_up", "pickedup", "picked up"} then Some(PickedUp)
    else if event in {"arrived", "arrived_at_hub", "arrived at hub"} then Some(ArrivedAtHub)
    else if event in {"out_for_delivery", "out for delivery"} then Some(OutForDelivery)
    else if event in {"delivery_failed", "delivery failed"} then Some(DeliveryFailed)
    else if event == "delivered" then Some(Delivered)
    else if event in {"rto", "return_to_origin"} then Some(Rto)
    else if event in {"cancelled", "cancel"} then Some(Cancelled)
    else None
  }

  /** A carrier event writes the status and moves no money. Any status may go back to
      OrderCreated. */
  function Webhook(db: Db, awb: Awb, event: string): Result<Db, Error> {
    if awb !in db.shipments || db.shipments[awb].deleted then Err(NotFound)
    else
      var s := db.shipments[awb];
      match WebhookStatus(event)
      case None => Err(InvalidRequest)
      case Some(next) =>
        if next == s.status then Ok(db)
        else if next !in Transitions(s.status) && next != OrderCreated then Err(InvalidTransition)
        else Ok(db.(shipments := db.shipments[awb := WithStatus(s, next).(deleted := next == Cancelled)]))
  }

  /** The tracking poll's selection. */
  predicate Polled(s: Shipment) {
    s.status !in {Delivered, RtoDelivered, Cancelled, Rto} && s.carrierAwb.Some? && s.carrierBooked
  }

  /** The poll saves a selected document if the carrier's answer differs from it. */
  predicate Saves(seen: Shipment, next: Status) {
    Polled(seen) && seen.status != next
  }

  /** The save of one polled document: `seen` is the shipment as the poll selected it, which
      by now may have another status. The save writes the status and pushes to the history
      without looking. */
  function PollSave(db: Db, awb: Awb, seen: Shipment, next: Status): Db {
    if awb in db.shipments && Saves(seen, next)
    then db.(shipments := db.shipments[awb := WithStatus(db.shipments[awb], next)])
    else db
  }

  // ---- COD remittance ----

  function RemitCod(db: Db, awb: Awb, caller: Caller): Result<Db, Error> {
    if caller.role != SuperAdmin && caller.role != DistributorRole then Err(AccessDenied)
    else if awb !in db.cods then Err(NotFound)
    else
      var c := db.cods[awb];
      if caller.role == SuperAdmin then
        if c.stage != CodPending then Err(InvalidRequest)
        else Ok(db.(cods := db.cods[awb := c.(stage := SettledToVexaro)]))
      else if c.stage != SettledToVexaro then Err(InvalidRequest)
      else if c.distributor != Some(caller.userId) then Err(AccessDenied)
      else
        var b :- Post(db.books, c.merchant, TxType.CodCredit, c.amount, ForCod(awb));
        Ok(db.(books := b, cods := db.cods[awb := c.(stage := Remitted)],
               shipments := if awb in db.shipments
                            then db.shipments[awb := db.shipments[awb].(codState := CodPaidOut, payoutPaid := true)]
                            else db.shipments))
  }

  // ---- Weight disputes ----

  function RaiseDispute(db: Db, awb: Awb, extra: int, caller: Caller, now: int): Result<Db, Error> {
    if caller.role != SuperAdmin then Err(AccessDenied)
    else if awb !in db.shipments || db.shipments[awb].deleted then Err(NotFound)
    else
      var b :- PostLegs(db.books, db.shipments[awb], awb, Disputed, TxType.DisputeCharge, extra, extra, false);
      if awb in db.disputes then Err(Duplicate)
      else Ok(db.(books := b, disputes := db.disputes[awb := Dispute(extra, Open, now + DISPUTE_WINDOW_MS)]))
  }

  function SubmitProof(db: Db, awb: Awb, caller: Caller): Result<Db, Error> {
    if awb !in db.disputes then Err(NotFound)
    else if db.disputes[awb].status != Open then Err(InvalidRequest)
    else if awb !in db.shipments || db.shipments[awb].merchant != caller.userId then Err(AccessDenied)
    else Ok(db.(disputes := db.disputes[awb := db.disputes[awb].(status := UnderReview)]))
  }

  function ResolveDispute(db: Db, awb: Awb, approve: bool, caller: Caller): Result<Db, Error> {
    if caller.role != SuperAdmin then Err(AccessDenied)
    else if awb !in db.disputes then Err(NotFound)
    else
      var d := db.disputes[awb];
      if d.status != Open && d.status != UnderReview then Err(InvalidRequest)
      else if awb !in db.shipments then Err(NotFound)
      else
        var b :- if approve
                 then PostLegs(db.books, db.shipments[awb], awb, Reversed, TxType.Refund, d.extra, d.extra, false)
                 else Ok(db.books);
        Ok(db.(books := b, disputes := db.disputes[awb := d.(status := if approve then Approved else Rejected)]))
  }

  /** Open disputes past their window: the cron job writes Expired, the list query Closed. */
  function ExpireDisputes(db: Db, now: int, to: DisputeStatus): Db {
    db.(disputes := map k | k in db.disputes ::
          if db.disputes[k].status == Open && db.disputes[k].expiresAt < now
          then db.disputes[k].(status := to) else db.disputes[k])
  }

  // ---- Razorpay ----

  function CreateOrder(db: Db, caller: Caller, order: string, id: string, amount: int): Result<Db, Error> {
    if caller.role != MerchantRole && caller.role != DistributorRole then Err(AccessDenied)
    else if caller.userId !in db.books.wallets then Err(WalletNotFound)
    else if !db.books.wallets[caller.userId].isActive then Err(WalletInactive)
    else if amount < MINIMUM_TOPUP || order in db.payments then Err(InvalidRequest)
    else Ok(db.(payments := db.payments[order := Payment(id, caller.userId, amount, PayPending, None)]))
  }

  function CreditPayment(db: Db, order: string, p: Payment, razorpayId: string): Result<Db, Error> {
    var b :- Post(db.books, p.user, TxType.Topup, p.amount, ForPayment(razorpayId));
    Ok(db.(books := b, payments := db.payments[order := p.(status := PaySuccess, razorpayId := Some(razorpayId))]))
  }

  predicate OwnsPayment(payments: map<string, Payment>, id: string, user: UserId) {
    exists o :: o in payments && payments[o].id == id && payments[o].user == user
  }

  /** Verification by the client: a bad signature is an error that does change the
      payment, so the database and the error come back together. */
  function VerifyPayment(db: Db, caller: Caller, id: string, order: string, razorpayId: string, signatureValid: bool)
    : (Db, Option<Error>)
  {
    if order in db.payments && db.payments[order].status == PaySuccess then (db, None)
    else if !OwnsPayment(db.payments, id, caller.userId) then (db, Some(NotFound))
    else if order !in db.payments || db.payments[order].id != id || db.payments[order].user != caller.userId then
      (db, Some(InvalidRequest))
    else
      var p := db.payments[order];
      if p.status == PayFailed then (db, Some(InvalidRequest))
      else if !signatureValid then
        (db.(payments := db.payments[order := p.(status := PayFailed)]), Some(InvalidRequest))
      else
        match CreditPayment(db, order, p, razorpayId)
        case Ok(db') => (db', None)
        case Err(e) => (db, Some(e))
  }

  function PaymentCaptured(db: Db, order: string, razorpayId: string): Result<Db, Error> {
    if order !in db.payments || db.payments[order].status == PaySuccess then Ok(db)
    else CreditPayment(db, order, db.payments[order], razorpayId)
  }

  function PaymentFailed(db: Db, order: string): Db {
    if order in db.payments && db.payments[order].status == PayPending
    then db.(payments := db.payments[order := db.payments[order].(status := PayFailed)]) else db
  }

  /** `order` is the payment document the database finds for the refunded payment id. */
  function RefundProcessed(db: Db, order: string, razorpayId: string): Db {
    if order in db.payments && db.payments[order].razorpayId == Some(razorpayId) && db.payments[order].status == PaySuccess
    then db.(payments := db.payments[order := db.payments[order].(status := PayRefunded)]) else db
  }
}
