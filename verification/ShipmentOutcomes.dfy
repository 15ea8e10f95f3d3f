/** Booking, status changes, COD, disputes and carrier writes from outside: exactly when each
    succeeds, and what it then has done to balances, rows and records. */
module ShipmentOutcomes {
  import opened Wrappers
  import opened Ledger
  import opened References
  import opened Services
  import opened Protocol
  import opened Effects

  predicate Stored(db: Db, awb: Awb) {
    awb in db.shipments && !db.shipments[awb].deleted
  }

  /** One shipment is written, and the books. */
  predicate Rewrites(db: Db, db': Db, awb: Awb, s: Shipment) {
    db' == db.(books := db'.books, shipments := db.shipments[awb := s])
  }

  // ---- Who may do what ----

  /** The status graph as a set of edges. */
  const STEPS: set<(Status, Status)> := {
    (OrderCreated, PickedUp), (OrderCreated, Cancelled), (PickedUp, ArrivedAtHub), (ArrivedAtHub, OutForDelivery),
    (OutForDelivery, Delivered), (OutForDelivery, DeliveryFailed), (DeliveryFailed, OutForDelivery), (DeliveryFailed, Rto)}

  lemma TransitionsAreSteps(s: Status, next: Status)
    ensures next in Transitions(s) <==> (s, next) in STEPS
  {
  }

  /** An administrator sees every shipment, anyone else those they are a party to. */
  lemma AccessExactly(s: Shipment, caller: Caller)
    ensures MayAccess(s, caller) <==>
            || caller.role == SuperAdmin
            || (caller.role == MerchantRole && caller.userId == s.merchant)
            || (caller.role == DistributorRole && Some(caller.userId) == s.distributor)
            || (caller.role == WarehouseRole && caller.userId == s.warehouse)
  {
  }

  /** A merchant may only cancel; a warehouse may do anything on the way but cancel; the others
      may do whatever the graph allows. */
  lemma RolesExactly(s: Status, next: Status, role: Role)
    requires (s, next) in STEPS
    ensures RoleMaySet(role, next) <==>
            match role
            case SuperAdmin => true
            case DistributorRole => true
            case MerchantRole => next == Cancelled
            case WarehouseRole => next != Cancelled
  {
  }

  // ---- Status changes ----

  /** The requests that reach the graph. */
  predicate Permitted(db: Db, awb: Awb, next: Status, caller: Caller) {
    Stored(db, awb) && MayAccess(db.shipments[awb], caller) && RoleMaySet(caller.role, next)
  }

  lemma RefusedStatus(db: Db, awb: Awb, next: Status, caller: Caller)
    ensures var r := UpdateStatus(db, awb, next, caller);
            && (r == Err(NotFound) <==> !Stored(db, awb))
            && (r == Err(AccessDenied) <==> Stored(db, awb) && !Permitted(db, awb, next, caller))
            && (Permitted(db, awb, next, caller) && db.shipments[awb].status == next ==> r == Ok(db))
            && (Permitted(db, awb, next, caller) && db.shipments[awb].status != next ==>
                  (r == Err(InvalidTransition) <==> (db.shipments[awb].status, next) !in STEPS))
  {
    if Stored(db, awb) {
      TransitionsAreSteps(db.shipments[awb].status, next);
      if Permitted(db, awb, next, caller) && db.shipments[awb].status != next && (db.shipments[awb].status, next) in STEPS {
        StepErrors(db, awb, next, caller);
      }
    }
  }

  lemma StepErrors(db: Db, awb: Awb, next: Status, caller: Caller)
    requires Permitted(db, awb, next, caller) && db.shipments[awb].status != next && next in Transitions(db.shipments[awb].status)
    ensures var r := UpdateStatus(db, awb, next, caller);
            r.Err? ==> r.error !in {NotFound, AccessDenied, InvalidTransition}
  {
  }

  /** A change that is permitted, not vacuous and in the graph. */
  predicate Goes(db: Db, awb: Awb, next: Status, caller: Caller) {
    Permitted(db, awb, next, caller) && (db.shipments[awb].status, next) in STEPS
  }

  /** The stops on the way write the status, with its entry in the history, and nothing else. */
  lemma StopOutcome(db: Db, awb: Awb, next: Status, caller: Caller)
    requires Goes(db, awb, next, caller) && next !in {Cancelled, Rto, Delivered}
    ensures var s := db.shipments[awb];
            UpdateStatus(db, awb, next, caller) ==
            Ok(db.(shipments := db.shipments[awb := s.(status := next, history := s.history + [next])]))
  {
    TransitionsAreSteps(db.shipments[awb].status, next);
  }

  /** Cancelling returns each leg its cost, unless it cost nothing or was returned before, and
      succeeds exactly when the wallets concerned are active. */
  lemma CancelOutcome(db: Db, awb: Awb, caller: Caller)
    requires WfAwb(awb) && Goes(db, awb, Cancelled, caller)
    ensures CancelledAs(db, awb, UpdateStatus(db, awb, Cancelled, caller))
  {
    TransitionsAreSteps(db.shipments[awb].status, Cancelled);
    CancellationEffect(db, awb);
  }

  ghost predicate CancelledAs(db: Db, awb: Awb, r: Result<Db, Error>)
    requires awb in db.shipments
  {
    var s := db.shipments[awb];
    && (r.Ok? <==> Granted(db.books, s, awb, Refunded, Leg.Merchant, s.merchantCost, true)
                   && Granted(db.books, s, awb, Refunded, Leg.Distributor, s.distributorCost, true))
    && (r.Ok? ==>
          && Rewrites(db, r.value, awb, s.(status := Cancelled, history := s.history + [Cancelled], deleted := true))
          && Effects.Moves(db.books, r.value.books, s, awb, Refunded, s.merchantCost, s.distributorCost, true, true)
          && Rows(db.books, r.value.books, s, awb, Refunded, TxType.Refund, s.merchantCost, s.distributorCost, true))
  }

  lemma CancellationEffect(db: Db, awb: Awb)
    requires WfAwb(awb) && awb in db.shipments && db.shipments[awb].status == OrderCreated
    ensures CancelledAs(db, awb, PerformCancellation(db, awb, db.shipments[awb]))
  {
    var s := db.shipments[awb];
    CreditLegs(db.books, s, awb, Refunded, s.merchantCost, s.distributorCost, true);
  }

  /** Deleting is cancelling, of a shipment not yet picked up, once its carrier has cancelled. */
  lemma DeleteOutcome(db: Db, awb: Awb, caller: Caller, carrierCancels: bool)
    requires WfAwb(awb)
    ensures var r := DeleteShipment(db, awb, caller, carrierCancels);
            if Stored(db, awb) && MayAccess(db.shipments[awb], caller) && db.shipments[awb].status == OrderCreated
               && (db.shipments[awb].carrierBooked && db.shipments[awb].carrierAwb !in {None, Some("")} ==> carrierCancels)
            then CancelledAs(db, awb, r) else r.Err?
  {
    if awb in db.shipments && db.shipments[awb].status == OrderCreated {
      CancellationEffect(db, awb);
    }
  }

  /** A return to origin charges each leg 40 rupees, unless charged before, and succeeds exactly
      when both can pay. */
  lemma RtoOutcome(db: Db, awb: Awb, caller: Caller)
    requires WfAwb(awb) && Goes(db, awb, Rto, caller)
    ensures var r, s := UpdateStatus(db, awb, Rto, caller), db.shipments[awb];
            && (r.Ok? <==> Granted(db.books, s, awb, ReturnedToOrigin, Leg.Merchant, 4000, false)
                           && Granted(db.books, s, awb, ReturnedToOrigin, Leg.Distributor, 4000, false)
                           && Afforded(db.books, s, awb, ReturnedToOrigin, 4000, 4000, false))
            && (r.Ok? ==>
                  && Rewrites(db, r.value, awb, s.(status := Rto, history := s.history + [Rto]))
                  && Effects.Moves(db.books, r.value.books, s, awb, ReturnedToOrigin, 4000, 4000, false, false)
                  && Rows(db.books, r.value.books, s, awb, ReturnedToOrigin, TxType.RtoCharge, 4000, 4000, false))
  {
    TransitionsAreSteps(db.shipments[awb].status, Rto);
    DebitLegs(db.books, db.shipments[awb], awb, ReturnedToOrigin, TxType.RtoCharge, 4000, 4000, false);
  }

  /** Afterwards every leg the shipment has shows an RTO row. */
  lemma RtoRowsThere(db: Db, awb: Awb, caller: Caller, leg: Leg)
    requires WfAwb(awb) && Goes(db, awb, Rto, caller) && UpdateStatus(db, awb, Rto, caller).Ok?
    ensures Party(db.shipments[awb], leg).Some? ==>
              Used(UpdateStatus(db, awb, Rto, caller).value.books, ForLeg(ReturnedToOrigin, awb, leg))
  {
    RtoOutcome(db, awb, caller);
  }

  /** On a store where legs agree, as after any run, each leg has then moved 40 rupees for it. */
  lemma RtoCharges(db: Db, awb: Awb, caller: Caller, leg: Leg)
    requires LegsOk(db) && WfAwb(awb) && Goes(db, awb, Rto, caller) && UpdateStatus(db, awb, Rto, caller).Ok?
    requires Party(db.shipments[awb], leg).Some?
    ensures Net(UpdateStatus(db, awb, Rto, caller).value.books, ForLeg(ReturnedToOrigin, awb, leg)) == -4000
  {
    TransitionsAreSteps(db.shipments[awb].status, Rto);
    RtoRowsThere(db, awb, caller, leg);
    RtoLegs(db, awb);
    var db' := UpdateStatus(db, awb, Rto, caller).value;
    assert LegOk(db'.books, Get(db'.shipments, awb), Get(db'.disputes, awb), awb, leg);
  }

  /** A delivery of a COD shipment succeeds exactly when it has no COD record yet and nothing
      negative to collect. It then has one, pending, for its merchant, distributor and amount;
      the merchant's escrow, if the wallet is active, is up by that amount and no other wallet
      has changed; the amount is collected and the payout open. A prepaid shipment is paid out
      and no money moves. */
  lemma DeliveryOutcome(db: Db, awb: Awb, caller: Caller)
    requires Goes(db, awb, Delivered, caller)
    ensures var r, s := UpdateStatus(db, awb, Delivered, caller), db.shipments[awb];
            var s' := s.(status := Delivered, history := s.history + [Delivered]);
            && (r.Ok? <==> !s.isCod || (awb !in db.cods && s.codAmount >= 0))
            && (r.Ok? && s.isCod ==>
                  && r.value == db.(books := r.value.books, cods := r.value.cods, shipments := r.value.shipments)
                  && r.value.shipments == db.shipments[awb := s'.(codState := CodCollected, payoutPaid := false)]
                  && r.value.cods == db.cods[awb := Cod(s.merchant, s.distributor, s.codAmount, CodPending)]
                  && Deposited(db.books, r.value.books, s.merchant, s.codAmount))
            && (r.Ok? && !s.isCod ==>
                  r.value == db.(shipments := db.shipments[awb := s'.(codState := CodPaidOut, payoutPaid := true)]))
  {
    TransitionsAreSteps(db.shipments[awb].status, Delivered);
  }

  /** The user's escrow, in an active wallet, is up by the amount; nothing else changed. */
  predicate Deposited(b: Books, b': Books, u: UserId, amount: int) {
    && b'.ledger == b.ledger && b'.wallets.Keys == b.wallets.Keys
    && (forall v | v in b.wallets && (v != u || !Active(b, u)) :: b'.wallets[v] == b.wallets[v])
    && (Active(b, u) ==> b'.wallets[u] == Wallet(b.wallets[u].balance, b.wallets[u].escrow + amount, true))
  }

  // ---- Booking ----

  /** A local draft of what was booked, not yet with the carrier. */
  predicate DraftOf(s: Shipment, k: Booking) {
    && s.merchant == k.merchant && s.distributor == k.distributor && s.warehouse == k.warehouse
    && s.merchantCost == k.merchantCost && s.distributorCost == k.distributorCost
    && s.isCod == k.isCod && s.codAmount == k.codAmount
    && s.codState == (if k.isCod then CodAwaited else CodPaidOut) && s.payoutPaid == !k.isCod
    && s.status == OrderCreated && s.history == [OrderCreated] && !s.deleted && s.carrierAwb.None? && !s.carrierBooked
  }

  lemma DraftIsDraft(k: Booking)
    ensures DraftOf(Draft(k), k)
  {
  }

  /** A booking succeeds exactly with a new waybill, nothing negative to collect, and both
      parties able to pay; it charges them and stores the draft. */
  lemma BookOutcome(db: Db, awb: Awb, k: Booking, s: Shipment)
    requires WfAwb(awb) && DraftOf(s, k)
    ensures var r := Book(db, awb, k);
            && (r.Ok? <==> awb !in db.shipments && k.codAmount >= 0
                           && Granted(db.books, s, awb, Charged, Leg.Merchant, k.merchantCost, false)
                           && Granted(db.books, s, awb, Charged, Leg.Distributor, k.distributorCost, false)
                           && Afforded(db.books, s, awb, Charged, k.merchantCost, k.distributorCost, false))
            && (r.Ok? ==>
                  && Rewrites(db, r.value, awb, s)
                  && Effects.Moves(db.books, r.value.books, s, awb, Charged, k.merchantCost, k.distributorCost, false, false)
                  && Rows(db.books, r.value.books, s, awb, Charged, TxType.Charge, k.merchantCost, k.distributorCost, false))
  {
    assert s == Draft(k);
    DebitLegs(db.books, s, awb, Charged, TxType.Charge, k.merchantCost, k.distributorCost, false);
  }

  /** The carrier's acceptance is written on the shipment and nowhere else. */
  lemma AcceptanceOutcome(db: Db, awb: Awb, carrierAwb: string)
    ensures CompleteBooking(db, awb, carrierAwb) ==
            if awb in db.shipments
            then Ok(db.(shipments := db.shipments[awb := db.shipments[awb].(carrierAwb := Some(carrierAwb), carrierBooked := true)]))
            else Err(NotFound)
  {
  }

  /** A compensation returns both legs and cancels; it is for shipments the carrier did not take. */
  lemma CompensationOutcome(db: Db, awb: Awb)
    requires WfAwb(awb)
    ensures var r := Compensate(db, awb);
            if awb !in db.shipments || db.shipments[awb].carrierBooked then r == Err(InvalidRequest)
            else
              var s := db.shipments[awb];
              && (r.Ok? <==> Granted(db.books, s, awb, Refunded, Leg.Merchant, s.merchantCost, false)
                             && Granted(db.books, s, awb, Refunded, Leg.Distributor, s.distributorCost, false))
              && (r.Ok? ==>
                    && Rewrites(db, r.value, awb, s.(status := Cancelled, history := s.history + [Cancelled]))
                    && Effects.Moves(db.books, r.value.books, s, awb, Refunded, s.merchantCost, s.distributorCost, false, true)
                    && Rows(db.books, r.value.books, s, awb, Refunded, TxType.Refund, s.merchantCost, s.distributorCost, false))
  {
    if awb in db.shipments {
      var s := db.shipments[awb];
      CreditLegs(db.books, s, awb, Refunded, s.merchantCost, s.distributorCost, false);
    }
  }

  /** What an edit may write: anything before pickup, afterwards neither COD nor the other core
      fields, at the end of the journey nothing. */
  lemma EditOutcome(db: Db, awb: Awb, caller: Caller, e: Edits)
    ensures var r := UpdateShipment(db, awb, caller, e);
            && (r.Ok? <==>
                  && Stored(db, awb) && MayAccess(db.shipments[awb], caller)
                  && db.shipments[awb].status !in {Delivered, Cancelled, Rto}
                  && (db.shipments[awb].status == OrderCreated || (e.isCod.None? && e.codAmount.None? && !e.core))
                  && (e.codAmount.Some? ==> e.codAmount.value >= 0))
            && (r.Ok? ==>
                  && awb in r.value.shipments
                  && var s, s' := db.shipments[awb], r.value.shipments[awb];
                     && r.value == db.(shipments := db.shipments[awb := s'])
                     && s' == s.(isCod := s'.isCod, codAmount := s'.codAmount, warehouse := s'.warehouse, carrierAwb := s'.carrierAwb)
                     && (s'.isCod <==> e.isCod == Some(true) || (e.isCod.None? && s.isCod))
                     && (if e.codAmount.Some? then Some(s'.codAmount) == e.codAmount else s'.codAmount == s.codAmount)
                     && (if e.warehouse.Some? then Some(s'.warehouse) == e.warehouse else s'.warehouse == s.warehouse)
                     && (if e.carrierAwb.Some? then s'.carrierAwb == e.carrierAwb else s'.carrierAwb == s.carrierAwb))
  {
  }

  // ---- Carrier writes ----

  /** The name under which the carrier reports a status, for the eight it reports. */
  function EventNames(s: Status): set<string> {
    match s
    case OrderCreated => {"order_created", "booked"}
    case PickedUp => {"pickup", "picked_up", "pickedup", "picked up"}
    case ArrivedAtHub => {"arrived", "arrived_at_hub", "arrived at hub"}
    case OutForDelivery => {"out_for_delivery", "out for delivery"}
    case DeliveryFailed => {"delivery_failed", "delivery failed"}
    case Delivered => {"delivered"}
    case Rto => {"rto", "return_to_origin"}
    case Cancelled => {"cancelled", "cancel"}
    case _ => {}
  }

  lemma EventsExactly(event: string, s: Status)
    ensures WebhookStatus(event) == Some(s) <==> event in EventNames(s)
  {
    match s
    case OrderCreated =>
    case PickedUp =>
    case ArrivedAtHub =>
    case OutForDelivery =>
    case DeliveryFailed =>
    case Delivered =>
    case Rto =>
    case Cancelled =>
    case _ =>
  }

  /** A carrier event writes the status it names, where the graph allows it or back to the
      start, on one stored shipment; it moves no money. */
  lemma EventOutcome(db: Db, awb: Awb, event: string, next: Status)
    requires event in EventNames(next)
    ensures var r := Webhook(db, awb, event);
            if !Stored(db, awb) then r == Err(NotFound)
            else
              var s := db.shipments[awb];
              if s.status == next then r == Ok(db)
              else if (s.status, next) in STEPS || next == OrderCreated then
                r == Ok(db.(shipments := db.shipments[awb :=
                       s.(status := next, history := s.history + [next], deleted := next == Cancelled)]))
              else r == Err(InvalidTransition)
  {
    EventsExactly(event, next);
    if awb in db.shipments {
      TransitionsAreSteps(db.shipments[awb].status, next);
    }
  }

  lemma UnknownEvent(db: Db, awb: Awb, event: string)
    requires forall s :: event !in EventNames(s)
    ensures Webhook(db, awb, event) == Err(if Stored(db, awb) then InvalidRequest else NotFound)
  {
    if WebhookStatus(event).Some? {
      EventsExactly(event, WebhookStatus(event).value);
    }
  }

  // ---- COD remittance ----

  /** First an administrator settles a pending record with Vexaro, which moves no money; then
      its distributor remits it: the merchant's wallet moves the amount from escrow to balance,
      the record is remitted and the shipment paid out. */
  lemma RemitOutcome(db: Db, awb: Awb, caller: Caller)
    ensures var r := RemitCod(db, awb, caller);
            && (caller.role !in {SuperAdmin, DistributorRole} || awb !in db.cods ==> r.Err?)
            && (awb in db.cods && caller.role == SuperAdmin ==>
                  if db.cods[awb].stage == CodPending
                  then r == Ok(db.(cods := db.cods[awb := db.cods[awb].(stage := SettledToVexaro)])) else r.Err?)
            && (awb in db.cods && caller.role == DistributorRole ==> RemittedAs(db, awb, caller, r))
  {
    if awb in db.cods {
      ReleaseExactly(db.books, db.cods[awb].merchant, db.cods[awb].amount, ForCod(awb));
    }
  }

  predicate CanRelease(b: Books, c: Cod, ref: Ref) {
    Active(b, c.merchant) && (Used(b, ref) || (c.amount >= 1 && b.wallets[c.merchant].escrow >= c.amount))
  }

  predicate RemittedAs(db: Db, awb: Awb, caller: Caller, r: Result<Db, Error>)
    requires awb in db.cods
  {
    var c, ref := db.cods[awb], ForCod(awb);
    && (r.Ok? <==> c.stage == SettledToVexaro && c.distributor == Some(caller.userId) && CanRelease(db.books, c, ref))
    && (r.Ok? ==>
          && r.value == db.(books := r.value.books, cods := db.cods[awb := c.(stage := Remitted)], shipments := r.value.shipments)
          && r.value.shipments == (if awb in db.shipments
                                   then db.shipments[awb := db.shipments[awb].(codState := CodPaidOut, payoutPaid := true)]
                                   else db.shipments)
          && if Used(db.books, ref) then r.value.books == db.books
             else Posted(db.books, r.value.books, c.merchant, TxType.CodCredit, c.amount, c.amount, -c.amount, ref))
  }

  // ---- Weight disputes ----

  /** Raising a dispute charges each leg the extra, once, and opens it for three days. */
  lemma RaiseOutcome(db: Db, awb: Awb, extra: int, caller: Caller, now: int)
    requires WfAwb(awb)
    ensures var r := RaiseDispute(db, awb, extra, caller, now);
            if caller.role != SuperAdmin || !Stored(db, awb) || awb in db.disputes then r.Err?
            else
              var s := db.shipments[awb];
              && (r.Ok? <==> Granted(db.books, s, awb, Disputed, Leg.Merchant, extra, false)
                             && Granted(db.books, s, awb, Disputed, Leg.Distributor, extra, false)
                             && Afforded(db.books, s, awb, Disputed, extra, extra, false))
              && (r.Ok? ==>
                    && r.value == db.(books := r.value.books, disputes := db.disputes[awb := Dispute(extra, Open, now + 259200000)])
                    && Effects.Moves(db.books, r.value.books, s, awb, Disputed, extra, extra, false, false)
                    && Rows(db.books, r.value.books, s, awb, Disputed, TxType.DisputeCharge, extra, extra, false))
  {
    if awb in db.shipments {
      DebitLegs(db.books, db.shipments[awb], awb, Disputed, TxType.DisputeCharge, extra, extra, false);
    }
  }

  lemma ProofOutcome(db: Db, awb: Awb, caller: Caller)
    ensures var r := SubmitProof(db, awb, caller);
            && (r.Ok? <==> awb in db.disputes && db.disputes[awb].status == Open
                           && awb in db.shipments && db.shipments[awb].merchant == caller.userId)
            && (r.Ok? ==> r.value == db.(disputes := db.disputes[awb := db.disputes[awb].(status := UnderReview)]))
  {
  }

  /** Approval returns each leg the extra, unless returned before, and marks the dispute
      approved; rejection moves nothing and marks it rejected. */
  lemma VerdictOutcome(db: Db, awb: Awb, approve: bool, caller: Caller)
    requires WfAwb(awb)
    ensures var r := ResolveDispute(db, awb, approve, caller);
            if caller.role != SuperAdmin || awb !in db.disputes || db.disputes[awb].status !in {Open, UnderReview}
               || awb !in db.shipments
            then r.Err?
            else
              var s, d := db.shipments[awb], db.disputes[awb];
              if approve then
                && (r.Ok? <==> Granted(db.books, s, awb, Reversed, Leg.Merchant, d.extra, false)
                               && Granted(db.books, s, awb, Reversed, Leg.Distributor, d.extra, false))
                && (r.Ok? ==>
                      && r.value == db.(books := r.value.books, disputes := db.disputes[awb := d.(status := Approved)])
                      && Effects.Moves(db.books, r.value.books, s, awb, Reversed, d.extra, d.extra, false, true)
                      && Rows(db.books, r.value.books, s, awb, Reversed, TxType.Refund, d.extra, d.extra, false))
              else r == Ok(db.(disputes := db.disputes[awb := d.(status := Rejected)]))
  {
    if awb in db.shipments && awb in db.disputes {
      CreditLegs(db.books, db.shipments[awb], awb, Reversed, db.disputes[awb].extra, db.disputes[awb].extra, false);
    }
  }

  /** Where legs and disputes agree, an undecided dispute has returned nothing yet. */
  lemma UndecidedIsDue(db: Db, awb: Awb, leg: Leg)
    requires LegsOk(db) && awb in db.shipments && awb in db.disputes && db.disputes[awb].status in {Open, UnderReview}
    requires Party(db.shipments[awb], leg).Some?
    ensures Due(db.books, db.shipments[awb], awb, Reversed, leg, db.disputes[awb].extra, false)
  {
    assert LegOk(db.books, Get(db.shipments, awb), Get(db.disputes, awb), awb, leg);
  }

  lemma ReturnedLeg(b: Books, b': Books, s: Shipment, awb: Awb, leg: Leg, extra: int)
    requires ShownLeg(b, b', s, awb, Reversed, TxType.Refund, leg, extra, false) && Due(b, s, awb, Reversed, leg, extra, false)
    ensures Net(b', ForLeg(Reversed, awb, leg)) == extra
  {
  }

  /** On a store where legs and disputes agree, as after any run, an approval pays the extra
      to each party of the shipment, to one who is both twice, and every leg shows its return. */
  lemma ApprovalReturns(db: Db, awb: Awb, caller: Caller)
    requires LegsOk(db) && ResolveDispute(db, awb, true, caller).Ok?
    ensures var b', s, extra := ResolveDispute(db, awb, true, caller).value.books, db.shipments[awb], db.disputes[awb].extra;
            && (forall leg | Party(s, leg).Some? :: Net(b', ForLeg(Reversed, awb, leg)) == extra)
            && PaysEach(db.books, b', s, extra)
  {
    VerdictOutcome(db, awb, true, caller);
    var s, extra := db.shipments[awb], db.disputes[awb].extra;
    var b' := ResolveDispute(db, awb, true, caller).value.books;
    forall leg | Party(s, leg).Some?
      ensures Net(b', ForLeg(Reversed, awb, leg)) == extra && Due(db.books, s, awb, Reversed, leg, extra, false)
    {
      UndecidedIsDue(db, awb, leg);
      ReturnedLeg(db.books, b', s, awb, leg, extra);
    }
    assert Party(s, Leg.Merchant).Some?;
    DuePaid(db.books, b', s, awb, extra);
  }

  ghost predicate PaysEach(b: Books, b': Books, s: Shipment, amount: int) {
    && b'.wallets.Keys == b.wallets.Keys
    && forall u | u in b.wallets :: b'.wallets[u].balance ==
         b.wallets[u].balance + (if u == s.merchant then amount else 0) + (if Some(u) == s.distributor then amount else 0)
  }

  lemma DuePaid(b: Books, b': Books, s: Shipment, awb: Awb, extra: int)
    requires Effects.Moves(b, b', s, awb, Reversed, extra, extra, false, true)
    requires forall leg | Party(s, leg).Some? :: Due(b, s, awb, Reversed, leg, extra, false)
    ensures PaysEach(b, b', s, extra)
  {
    assert Due(b, s, awb, Reversed, Leg.Merchant, extra, false);
    assert s.distributor.Some? ==> Party(s, Leg.Distributor).Some?;
  }

  /** Exactly the open disputes past their window are written, by the cron job and by listing. */
  lemma ExpiryOutcome(db: Db, now: int, to: DisputeStatus, awb: Awb)
    requires awb in db.disputes
    ensures var db', d := ExpireDisputes(db, now, to), db.disputes[awb];
            && db' == db.(disputes := db'.disputes) && db'.disputes.Keys == db.disputes.Keys
            && db'.disputes[awb] == d.(status := if d.status == Open && now > d.expiresAt then to else d.status)
  {
  }

  /** So a dispute nobody has answered lapses after exactly three days. */
  lemma LapsesAfterThreeDays(db: Db, awb: Awb, extra: int, caller: Caller, raised: int, now: int)
    requires RaiseDispute(db, awb, extra, caller, raised).Ok?
    ensures var db' := RaiseDispute(db, awb, extra, caller, raised).value;
            ExpireDisputes(db', now, Expired).disputes[awb].status == Expired <==> now > raised + 3 * 24 * 60 * 60 * 1000
  {
  }
}
