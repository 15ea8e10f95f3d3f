/** The services in the form the program has them: statements that look up, update in
    place and append, inside a session that is rolled back when a statement throws.
    Each method is proved against the function of the same service in Services, with what a
    failed call leaves behind when there are no sessions as in Unsessioned. */
module Backend {
  import opened Wrappers
  import opened Ledger
  import opened References
  import S = Services
  import opened Services
  import opened Unsessioned

  /** What the driver reports: a standalone server, or anything else. */
  datatype Topology = Single | ReplicaSet

  const AWB_RETRY_ATTEMPTS := 5

  function ErrorOf<T>(r: Result<T, Error>): Option<Error> {
    match r
    case Ok(_) => None
    case Err(e) => Some(e)
  }

  /** Outcome of a service against its specification. An error in `late` is one raised after
      money was moved: with a session that is undone, without one `left` is what stays. */
  ghost predicate Meets(spec: Result<Db, Error>, before: Db, left: Books, late: set<Error>, after: Db,
                        error: Option<Error>, rollsBack: bool)
  {
    match spec
    case Ok(db) => error.None? && after == db
    case Err(e) => error == Some(e) && after == if rollsBack || e !in late then before else before.(books := left)
  }

  /** A service that writes once, at its end. */
  ghost predicate Whole(spec: Result<Db, Error>, before: Db, after: Db, error: Option<Error>) {
    match spec
    case Ok(db) => error.None? && after == db
    case Err(e) => error == Some(e) && after == before
  }

  /** Nothing was charged, nothing is to be collected or paid out. */
  predicate FreeOfCharge(s: Shipment) {
    s.merchantCost == 0 && s.distributorCost == 0 && !s.isCod && s.codAmount == 0 && s.codState.CodPaidOut? && s.payoutPaid
  }

  predicate Newborn(s: Shipment) {
    s.status == OrderCreated && s.history == [OrderCreated] && !s.deleted
  }

  /** A shipment after the poll has saved it, or left it alone. */
  function AfterPoll(s: Shipment, awb: Awb, answers: map<Awb, Status>): Shipment {
    if awb in answers && Saves(s, answers[awb]) then WithStatus(s, answers[awb]) else s
  }

  class Store {
    var supported: Option<bool>
    var wallets: map<UserId, Wallet>
    var ledger: seq<Row>
    var shipments: map<Awb, Shipment>
    var cods: map<Awb, Cod>
    var disputes: map<Awb, Dispute>
    var payments: map<string, Payment>
    var settlements: map<string, SettlementDoc>
    var requests: map<string, Request>

    function Books(): Books
      reads this`wallets, this`ledger
    {
      Ledger.Books(wallets, ledger)
    }

    function State(): Db
      reads this
    {
      Db(Books(), shipments, cods, disputes, payments, settlements, requests)
    }

    /** A fresh process on an empty database. */
    constructor ()
      ensures supported.None? && State() == Db(Ledger.Books(map[], []), map[], map[], map[], map[], map[], map[])
    {
      supported, wallets, ledger := None, map[], [];
      shipments, cods, disputes := map[], map[], map[];
      payments, settlements, requests := map[], map[], map[];
    }

    // ---- Sessions ----

    /** Decided once, when first asked with a live connection; no topology means that
        reading it threw. */
    method CheckTransactionSupport(ready: bool, topology: Option<Topology>) returns (yes: bool)
      modifies this`supported
      ensures old(supported).Some? ==> supported == old(supported) && yes == supported.value
      ensures old(supported).None? && !ready ==> supported.None? && !yes
      ensures old(supported).None? && ready ==> supported == Some(topology == Some(ReplicaSet)) && yes == supported.value
    {
      if supported.Some? {
        return supported.value;
      }
      if !ready {
        return false;
      }
      supported := Some(topology == Some(ReplicaSet));
      return supported.value;
    }

    predicate RollsBack()
      reads this`supported
    {
      supported == Some(true)
    }

    /** Abort: with a session the statements since it began are undone. */
    method Abort(start: Db)
      modifies this
      ensures supported == old(supported)
      ensures State() == if RollsBack() then start else old(State())
    {
      if supported == Some(true) {
        wallets, ledger := start.books.wallets, start.books.ledger;
        shipments, cods, disputes := start.shipments, start.cods, start.disputes;
        payments, settlements, requests := start.payments, start.settlements, start.requests;
      }
    }

    // ---- Wallet statements ----

    method DebitWallet(user: UserId, amount: int) returns (r: Result<Wallet, Error>)
      modifies this`wallets
      ensures r == if user !in old(wallets) then Err(WalletNotFound)
                   else if !old(wallets)[user].isActive then Err(WalletInactive)
                   else if old(wallets)[user].balance < amount then Err(InsufficientBalance)
                   else Ok(old(wallets)[user].(balance := old(wallets)[user].balance - amount))
      ensures wallets == if r.Ok? then old(wallets)[user := r.value] else old(wallets)
    {
      if user in wallets && wallets[user].isActive && wallets[user].balance >= amount {
        wallets := wallets[user := wallets[user].(balance := wallets[user].balance - amount)];
        return Ok(wallets[user]);
      }
      if user !in wallets {
        return Err(WalletNotFound);
      }
      if !wallets[user].isActive {
        return Err(WalletInactive);
      }
      return Err(InsufficientBalance);
    }

    method CreditWallet(user: UserId, amount: int) returns (r: Result<Wallet, Error>)
      modifies this`wallets
      ensures r == if user !in old(wallets) then Err(WalletNotFound)
                   else if !old(wallets)[user].isActive then Err(WalletInactive)
                   else Ok(old(wallets)[user].(balance := old(wallets)[user].balance + amount))
      ensures wallets == if r.Ok? then old(wallets)[user := r.value] else old(wallets)
    {
      if user in wallets && wallets[user].isActive {
        wallets := wallets[user := wallets[user].(balance := wallets[user].balance + amount)];
        return Ok(wallets[user]);
      }
      if user !in wallets {
        return Err(WalletNotFound);
      }
      return Err(WalletInactive);
    }

    method ReleaseEscrow(user: UserId, amount: int) returns (r: Result<Wallet, Error>)
      requires user in wallets && wallets[user].isActive
      modifies this`wallets
      ensures var w := old(wallets)[user];
              r == if w.escrow < amount then Err(InsufficientEscrow)
                   else Ok(w.(balance := w.balance + amount, escrow := w.escrow - amount))
      ensures wallets == if r.Ok? then old(wallets)[user := r.value] else old(wallets)
    {
      var w := wallets[user];
      if w.escrow < amount {
        return Err(InsufficientEscrow);
      }
      wallets := wallets[user := w.(balance := w.balance + amount, escrow := w.escrow - amount)];
      return Ok(wallets[user]);
    }

    /** First ledger row with a reference, read from the front. */
    method FindTransaction(text: string) returns (r: Option<Row>)
      ensures r == Find(ledger, text)
    {
      var i := 0;
      while i < |ledger|
        invariant 0 <= i <= |ledger|
        invariant Find(ledger[..i], text).None?
      {
        assert ledger[..i + 1][..i] == ledger[..i];
        if ledger[i].reference == Some(text) {
          FindEarly(ledger, i + 1, text);
          return Some(ledger[i]);
        }
        i := i + 1;
      }
      assert ledger[..i] == ledger;
      return None;
    }

    /** `applyTransaction`: on an error the caller's session is to be aborted, because the
        row may be rejected after the wallet was updated. */
    method ApplyTransaction(user: UserId, t: TxType, amount: int, reference: Option<string>)
      returns (r: Result<Applied, Error>)
      modifies this`wallets, this`ledger
      ensures r == Apply(old(Books()), Call(user, t, amount, reference))
      ensures Books() == LeftApply(old(Books()), Call(user, t, amount, reference))
    {
      if user !in wallets {
        return Err(WalletNotFound);
      }
      if !wallets[user].isActive {
        return Err(WalletInactive);
      }
      if Keyed(reference) {
        var existing := FindTransaction(reference.value);
        if existing.Some? {
          return Ok(Applied(Books(), existing.value, true));
        }
      }
      var before := wallets[user].balance;
      var updated: Result<Wallet, Error>;
      if t == TxType.CodCredit {
        updated := ReleaseEscrow(user, amount);
      } else if IsDebit(t) {
        updated := DebitWallet(user, amount);
      } else {
        updated := CreditWallet(user, amount);
      }
      if updated.Err? {
        return Err(updated.error);
      }
      if amount < 1 {
        return Err(AmountBelowMinimum);
      }
      var row := Row(user, t, amount, before, updated.value.balance, reference);
      ledger := ledger + [row];
      return Ok(Applied(Books(), row, false));
    }

    method PostTo(user: UserId, t: TxType, amount: int, ref: Ref) returns (error: Option<Error>)
      modifies this`wallets, this`ledger
      ensures error == ErrorOf(S.Post(old(Books()), user, t, amount, ref))
      ensures Books() == LeftPost(old(Books()), user, t, amount, ref)
    {
      var r := ApplyTransaction(user, t, amount, Some(Text(ref)));
      return if r.Ok? then None else Some(r.error);
    }

    /** The merchant's call, then the distributor's if the shipment has one. */
    method PostShipmentLegs(s: Shipment, awb: Awb, e: Event, t: TxType, m: int, d: int, skipZero: bool)
      returns (error: Option<Error>)
      modifies this`wallets, this`ledger
      ensures error == ErrorOf(S.PostLegs(old(Books()), s, awb, e, t, m, d, skipZero))
      ensures Books() == LeftLegs(old(Books()), s, awb, e, t, m, d, skipZero)
      ensures error.None? ==> Books() == S.PostLegs(old(Books()), s, awb, e, t, m, d, skipZero).value
    {
      error := None;
      if m > 0 || !skipZero {
        error := PostTo(s.merchant, t, m, ForLeg(e, awb, Leg.Merchant));
        if error.Some? {
          return;
        }
      }
      if s.distributor.Some? && (d > 0 || !skipZero) {
        error := PostTo(s.distributor.value, t, d, ForLeg(e, awb, Leg.Distributor));
      }
    }

    // ---- Wallet, refund and settlement services ----

    method CreateWallet(user: UserId)
      modifies this`wallets
      ensures State() == S.CreateWallet(old(State()), user)
    {
      if user !in wallets {
        wallets := wallets[user := Wallet(0, 0, true)];
      }
    }

    method SetWalletActive(user: UserId, active: bool)
      modifies this`wallets
      ensures State() == S.SetWalletActive(old(State()), user, active)
    {
      if user in wallets {
        wallets := wallets[user := wallets[user].(isActive := active)];
      }
    }

    method TopupWallet(caller: Caller, target: UserId, ownMerchant: bool, amount: int, stamp: string)
      returns (error: Option<Error>)
      modifies this
      ensures Meets(S.TopupWallet(old(State()), caller, target, ownMerchant, amount, stamp), old(State()),
                    LeftPost(old(Books()), target, TxType.Topup, amount, ForTopup(stamp)),
                    MONEY_ERRORS, State(), error, old(RollsBack()))
      ensures supported == old(supported)
    {
      if caller.role == DistributorRole {
        if !ownMerchant {
          return Some(AccessDenied);
        }
      } else if caller.role != SuperAdmin {
        return Some(AccessDenied);
      }
      var start := State();
      error := PostTo(target, TxType.Topup, amount, ForTopup(stamp));
      if error.Some? {
        Abort(start);
      }
    }

    method TransferToMerchant(caller: Caller, merchant: UserId, ownMerchant: bool, amount: int, stamp: string)
      returns (error: Option<Error>)
      modifies this
      ensures Meets(S.TransferToMerchant(old(State()), caller, merchant, ownMerchant, amount, stamp), old(State()),
                    LeftTransfer(old(Books()), caller.userId, merchant, amount, Text(ForTransfer(stamp))),
                    MONEY_ERRORS, State(), error, old(RollsBack()))
      ensures supported == old(supported)
    {
      if caller.role != DistributorRole || !ownMerchant {
        return Some(AccessDenied);
      }
      var start := State();
      var reference := Some(Text(ForTransfer(stamp)));
      var sent := ApplyTransaction(caller.userId, TransferDebit, amount, reference);
      if sent.Err? {
        Abort(start);
        return Some(sent.error);
      }
      var received := ApplyTransaction(merchant, TransferCredit, amount, reference);
      if received.Err? {
        Abort(start);
        return Some(received.error);
      }
      return None;
    }

    method ProcessRefund(user: UserId, amount: int, ref: Ref) returns (error: Option<Error>)
      modifies this`wallets, this`ledger
      ensures error == ErrorOf(S.ProcessRefund(old(Books()), user, amount, ref))
      ensures Books() == LeftRefund(old(Books()), user, amount, ref)
    {
      var existing := FindTransaction(Text(ref));
      if existing.Some? {
        return None;
      }
      error := PostTo(user, TxType.Refund, amount, ref);
    }

    method RefundWallet(caller: Caller, user: UserId, amount: int, stamp: string) returns (error: Option<Error>)
      modifies this
      ensures Meets(S.ManualRefund(old(State()), caller, user, amount, stamp), old(State()),
                    LeftRefund(old(Books()), user, amount, ForManualRefund(stamp)),
                    MONEY_ERRORS, State(), error, old(RollsBack()))
      ensures supported == old(supported)
    {
      if caller.role != SuperAdmin {
        return Some(AccessDenied);
      }
      var start := State();
      error := ProcessRefund(user, amount, ForManualRefund(stamp));
      if error.Some? {
        Abort(start);
      }
    }

    method ProcessRefundRequest(caller: Caller, id: string, approve: bool, hasNote: bool) returns (error: Option<Error>)
      modifies this
      ensures Meets(S.ProcessRequest(old(State()), caller, id, approve, hasNote), old(State()),
                    LeftRequest(old(State()), id),
                    MONEY_ERRORS, State(), error, old(RollsBack()))
      ensures supported == old(supported)
    {
      if caller.role != SuperAdmin && caller.role != DistributorRole {
        return Some(AccessDenied);
      }
      if !approve && !hasNote {
        return Some(InvalidRequest);
      }
      if id !in requests {
        return Some(NotFound);
      }
      var q := requests[id];
      if caller.role == DistributorRole && q.distributor != Some(caller.userId) {
        return Some(AccessDenied);
      }
      if q.status != RequestPending {
        return Some(Duplicate);
      }
      if !approve {
        requests := requests[id := q.(status := RequestRejected)];
        return None;
      }
      if q.merchant !in wallets {
        return Some(WalletNotFound);
      }
      var start := State();
      error := ProcessRefund(q.merchant, q.amount, ForRefundRequest(id));
      if error.Some? {
        Abort(start);
        return;
      }
      requests := requests[id := q.(status := RequestApproved)];
    }

    method SubmitRefundRequest(caller: Caller, id: string, awb: Awb, amount: int, distributor: Option<UserId>)
      returns (error: Option<Error>)
      modifies this`requests
      ensures Whole(S.SubmitRequest(old(State()), caller, id, awb, amount, distributor), old(State()), State(), error)
    {
      if caller.role != MerchantRole {
        return Some(AccessDenied);
      }
      if awb !in shipments || shipments[awb].deleted || shipments[awb].merchant != caller.userId {
        return Some(NotFound);
      }
      if shipments[awb].status == Delivered {
        return Some(InvalidRequest);
      }
      if HasPendingRequest(requests, awb) {
        return Some(Duplicate);
      }
      if amount < 1 || id in requests {
        return Some(InvalidRequest);
      }
      requests := requests[id := Request(caller.userId, distributor, awb, amount, RequestPending)];
      return None;
    }

    method CreateSettlement(caller: Caller, id: string, to: UserId, amount: int, reference: Option<string>)
      returns (error: Option<Error>)
      modifies this`settlements
      ensures Whole(S.CreateSettlement(old(State()), caller, id, to, amount, reference), old(State()), State(), error)
    {
      if caller.role != SuperAdmin && caller.role != DistributorRole {
        return Some(AccessDenied);
      }
      if caller.userId == to {
        return Some(InvalidRequest);
      }
      if HasPendingTwin(settlements, caller.userId, to, amount) || HasPendingBetween(settlements, to, caller.userId) {
        return Some(Duplicate);
      }
      if amount < 1 || id in settlements {
        return Some(InvalidRequest);
      }
      settlements := settlements[id := SettlementDoc(caller.userId, to, amount, SettlementPending, reference)];
      return None;
    }

    method ProcessSettlement(caller: Caller, id: string, success: bool) returns (error: Option<Error>)
      modifies this
      ensures Meets(S.ProcessSettlement(old(State()), caller, id, success), old(State()),
                    LeftSettlement(old(State()), id),
                    MONEY_ERRORS, State(), error, old(RollsBack()))
      ensures supported == old(supported)
    {
      if caller.role != SuperAdmin {
        return Some(AccessDenied);
      }
      if id !in settlements {
        return Some(NotFound);
      }
      var s := settlements[id];
      if s.status != SettlementPending {
        return Some(Duplicate);
      }
      var start := State();
      if success {
        error := PostTo(s.to, TxType.Settlement, s.amount, SettlementRef(id, s));
        if error.Some? {
          Abort(start);
          return;
        }
      }
      settlements := settlements[id := s.(status := if success then SettlementCompleted else SettlementFailed)];
      return None;
    }

    // ---- Booking ----

    /** The retry loop: the first of the drawn candidates not in use, among five. */
    method GenerateUniqueAwb(drawn: seq<Awb>) returns (r: Result<Awb, Error>)
      requires |drawn| >= AWB_RETRY_ATTEMPTS
      ensures match r
              case Ok(awb) =>
                exists i :: 0 <= i < AWB_RETRY_ATTEMPTS && drawn[i] == awb && awb !in shipments
                            && forall j | 0 <= j < i :: drawn[j] in shipments
              case Err(e) => e == Duplicate && forall j | 0 <= j < AWB_RETRY_ATTEMPTS :: drawn[j] in shipments
    {
      for attempt := 0 to AWB_RETRY_ATTEMPTS
        invariant forall j | 0 <= j < attempt :: drawn[j] in shipments
      {
        if drawn[attempt] !in shipments {
          return Ok(drawn[attempt]);
        }
      }
      return Err(Duplicate);
    }

    /** `Shipment.create` for a draft: the unique waybill, the schema's minimum. */
    method StoreDraft(awb: Awb, s: Shipment) returns (error: Option<Error>)
      modifies this`shipments
      ensures error == if awb in old(shipments) then Some(Duplicate)
                       else if s.codAmount < 0 then Some(InvalidRequest) else None
      ensures shipments == if error.None? then old(shipments)[awb := s] else old(shipments)
    {
      if awb in shipments {
        return Some(Duplicate);
      }
      if s.codAmount < 0 {
        return Some(InvalidRequest);
      }
      shipments := shipments[awb := s];
      return None;
    }

    method OpenBooking(awb: Awb, k: Booking) returns (error: Option<Error>)
      modifies this
      ensures Meets(S.Book(old(State()), awb, k), old(State()),
                    LeftBooking(old(State()), awb, k),
                    MONEY_ERRORS + {Duplicate, InvalidRequest}, State(), error, old(RollsBack()))
      ensures supported == old(supported)
    {
      BookOutcome(State(), awb, k);
      var start := State();
      var s := Draft(k);
      error := PostShipmentLegs(s, awb, Charged, TxType.Charge, k.merchantCost, k.distributorCost, false);
      if error.Some? {
        Abort(start);
        return;
      }
      error := StoreDraft(awb, s);
      if error.Some? {
        Abort(start);
      }
    }

    method CompensateBooking(awb: Awb) returns (error: Option<Error>)
      modifies this
      ensures Meets(S.Compensate(old(State()), awb), old(State()),
                    LeftRefunds(old(State()), awb, false),
                    MONEY_ERRORS, State(), error, old(RollsBack()))
      ensures supported == old(supported)
    {
      if awb !in shipments || shipments[awb].carrierBooked {
        return Some(InvalidRequest);
      }
      var start := State();
      var s := shipments[awb];
      error := PostShipmentLegs(s, awb, Refunded, TxType.Refund, s.merchantCost, s.distributorCost, false);
      if error.Some? {
        Abort(start);
        return;
      }
      shipments := shipments[awb := WithStatus(s, Cancelled)];
    }

    method CompleteBooking(awb: Awb, carrierAwb: string) returns (error: Option<Error>)
      modifies this`shipments
      ensures Whole(S.CompleteBooking(old(State()), awb, carrierAwb), old(State()), State(), error)
    {
      if awb !in shipments {
        return Some(NotFound);
      }
      shipments := shipments[awb := shipments[awb].(carrierAwb := Some(carrierAwb), carrierBooked := true)];
      return None;
    }

    /** The saga: charge and draft, call the carrier, then complete or compensate. */
    method CreateShipment(awb: Awb, k: Booking, carrier: Option<string>) returns (error: Option<Error>)
      modifies this
      ensures (State(), error) == if old(RollsBack()) then S.CreateShipment(old(State()), awb, k, carrier)
                                  else CreateShipmentLeaving(old(State()), awb, k, carrier)
      ensures supported == old(supported)
    {
      error := OpenBooking(awb, k);
      if error.Some? {
        return;
      }
      if carrier.None? {
        var ignored := CompensateBooking(awb);
        return Some(CarrierFailed);
      }
      error := CompleteBooking(awb, carrier.value);
    }

    /** `Shipment.create` for a return pickup; the waybill is a unique index. */
    method StoreReturn(awb: Awb, merchant: UserId, distributor: Option<UserId>, warehouse: UserId, carrierAwb: string)
      returns (error: Option<Error>)
      modifies this`shipments
      ensures Whole(S.BookReverse(old(State()), awb, merchant, distributor, warehouse, carrierAwb),
                    old(State()), State(), error)
    {
      if awb in shipments {
        return Some(Duplicate);
      }
      shipments := shipments[awb := Shipment(merchant, distributor, warehouse, 0, 0, false, 0, CodPaidOut, true,
                                             OrderCreated, [OrderCreated], false, Some(carrierAwb), true)];
      return None;
    }

    /** A return pickup, booked with the carrier before it is stored. The waybill is drawn
        again once when the first is in use; the second is not looked up. */
    method CreateReverseShipment(first: Awb, second: Awb, merchant: UserId, distributor: Option<UserId>,
                                 warehouse: UserId, carrierAwb: string)
      returns (error: Option<Error>)
      modifies this`shipments
      ensures error == if first in old(shipments) && second in old(shipments) then Some(Duplicate) else None
      ensures shipments.Keys == old(shipments).Keys + (if error.Some? then {} else if first in old(shipments) then {second} else {first})
      ensures forall k | k in old(shipments) :: shipments[k] == old(shipments)[k]
      ensures forall k | k in shipments && k !in old(shipments) ::
                var s := shipments[k];
                && s.merchant == merchant && s.distributor == distributor && s.warehouse == warehouse
                && s.carrierAwb == Some(carrierAwb) && s.carrierBooked && Newborn(s) && FreeOfCharge(s)
    {
      var awb := first;
      if awb in shipments {
        awb := second;
      }
      error := StoreReturn(awb, merchant, distributor, warehouse, carrierAwb);
    }

    method UpdateShipment(awb: Awb, caller: Caller, e: Edits) returns (error: Option<Error>)
      modifies this`shipments
      ensures Whole(S.UpdateShipment(old(State()), awb, caller, e), old(State()), State(), error)
    {
      if awb !in shipments || shipments[awb].deleted {
        return Some(NotFound);
      }
      var s := shipments[awb];
      if !MayAccess(s, caller) {
        return Some(AccessDenied);
      }
      if s.status in {Delivered, Cancelled, Rto} {
        return Some(InvalidRequest);
      }
      if s.status != OrderCreated && (e.isCod.Some? || e.codAmount.Some? || e.core) {
        return Some(InvalidRequest);
      }
      if e.isCod.Some? {
        s := s.(isCod := e.isCod.value);
      }
      if e.codAmount.Some? {
        if e.codAmount.value < 0 {
          return Some(InvalidRequest);
        }
        s := s.(codAmount := e.codAmount.value);
      }
      if e.carrierAwb.Some? {
        s := s.(carrierAwb := e.carrierAwb);
      }
      if e.warehouse.Some? {
        s := s.(warehouse := e.warehouse.value);
      }
      shipments := shipments[awb := s];
      return None;
    }

    // ---- Status changes ----

    method CancelInSession(awb: Awb, s: Shipment) returns (error: Option<Error>)
      requires awb in shipments
      modifies this
      ensures Meets(S.PerformCancellation(old(State()), awb, s), old(State()),
                    LeftLegs(old(Books()), s, awb, Refunded, TxType.Refund, s.merchantCost, s.distributorCost, true),
                    MONEY_ERRORS, State(), error, old(RollsBack()))
      ensures supported == old(supported)
    {
      if s.status != OrderCreated {
        return Some(InvalidTransition);
      }
      var start := State();
      error := PostShipmentLegs(s, awb, Refunded, TxType.Refund, s.merchantCost, s.distributorCost, true);
      if error.Some? {
        Abort(start);
        return;
      }
      shipments := shipments[awb := WithStatus(s, Cancelled).(deleted := true)];
    }

    method ReturnInSession(awb: Awb, s: Shipment) returns (error: Option<Error>)
      modifies this
      ensures Meets(S.ReturnToOrigin(old(State()), awb, s), old(State()),
                    LeftLegs(old(Books()), s, awb, ReturnedToOrigin, TxType.RtoCharge, RTO_CHARGE, RTO_CHARGE, false),
                    MONEY_ERRORS, State(), error, old(RollsBack()))
      ensures supported == old(supported)
    {
      var start := State();
      error := PostShipmentLegs(s, awb, ReturnedToOrigin, TxType.RtoCharge, RTO_CHARGE, RTO_CHARGE, false);
      if error.Some? {
        Abort(start);
        return;
      }
      shipments := shipments[awb := WithStatus(s, Rto)];
    }

    method DeliverInSession(awb: Awb, s: Shipment) returns (error: Option<Error>)
      modifies this
      ensures Whole(S.Deliver(old(State()), awb, s), old(State()), State(), error)
      ensures supported == old(supported)
    {
      var done := WithStatus(s, Delivered);
      if s.isCod {
        if awb in cods {
          return Some(Duplicate);
        }
        if s.codAmount < 0 {
          return Some(InvalidRequest);
        }
        cods := cods[awb := Cod(s.merchant, s.distributor, s.codAmount, CodPending)];
        if s.merchant in wallets && wallets[s.merchant].isActive {
          wallets := wallets[s.merchant := wallets[s.merchant].(escrow := wallets[s.merchant].escrow + s.codAmount)];
        }
        done := done.(codState := CodCollected, payoutPaid := false);
      } else {
        done := done.(codState := CodPaidOut, payoutPaid := true);
      }
      shipments := shipments[awb := done];
      return None;
    }

    method UpdateStatus(awb: Awb, next: Status, caller: Caller) returns (error: Option<Error>)
      modifies this
      ensures Meets(S.UpdateStatus(old(State()), awb, next, caller), old(State()),
                    LeftStatus(old(State()), awb, next),
                    MONEY_ERRORS, State(), error, old(RollsBack()))
      ensures supported == old(supported)
    {
      if awb !in shipments || shipments[awb].deleted {
        return Some(NotFound);
      }
      var s := shipments[awb];
      if !MayAccess(s, caller) || !RoleMaySet(caller.role, next) {
        return Some(AccessDenied);
      }
      if s.status == next {
        return None;
      }
      if next !in Transitions(s.status) {
        return Some(InvalidTransition);
      }
      match next
      case Cancelled => error := CancelInSession(awb, s);
      case Rto => error := ReturnInSession(awb, s);
      case Delivered => error := DeliverInSession(awb, s);
      case _ =>
        shipments := shipments[awb := WithStatus(s, next)];
        error := None;
    }

    method DeleteShipment(awb: Awb, caller: Caller, carrierCancels: bool) returns (error: Option<Error>)
      modifies this
      ensures Meets(S.DeleteShipment(old(State()), awb, caller, carrierCancels), old(State()),
                    LeftRefunds(old(State()), awb, true),
                    MONEY_ERRORS, State(), error, old(RollsBack()))
      ensures supported == old(supported)
    {
      if awb !in shipments || shipments[awb].deleted {
        return Some(NotFound);
      }
      var s := shipments[awb];
      if !MayAccess(s, caller) {
        return Some(AccessDenied);
      }
      if s.status != OrderCreated {
        return Some(InvalidTransition);
      }
      if s.carrierBooked && NamesCarrierAwb(s) && !carrierCancels {
        return Some(CarrierFailed);
      }
      error := CancelInSession(awb, s);
    }

    method CarrierWebhook(awb: Awb, event: string) returns (error: Option<Error>)
      modifies this`shipments
      ensures Whole(S.Webhook(old(State()), awb, event), old(State()), State(), error)
    {
      if awb !in shipments || shipments[awb].deleted {
        return Some(NotFound);
      }
      var s := shipments[awb];
      var next := WebhookStatus(event);
      if next.None? {
        return Some(InvalidRequest);
      }
      if next.value == s.status {
        return None;
      }
      if next.value !in Transitions(s.status) && next.value != OrderCreated {
        return Some(InvalidTransition);
      }
      var s' := s.(history := s.history + [next.value], status := next.value);
      if next.value == Cancelled {
        s' := s'.(deleted := true);
      }
      shipments := shipments[awb := s'];
      return None;
    }

    /** The save of one document of the poll's selection, made when the carrier has answered. */
    method SavePolled(awb: Awb, seen: Shipment, next: Status)
      modifies this`shipments
      ensures shipments == S.PollSave(old(State()), awb, seen, next).shipments
    {
      if awb in shipments && Polled(seen) && seen.status != next {
        shipments := shipments[awb := shipments[awb].(status := next, history := shipments[awb].history + [next])];
      }
    }

    /** The shipments selected by the cron poll, as documents. */
    method SelectActive() returns (active: map<Awb, Shipment>)
      ensures forall k :: k in active <==> k in shipments && Polled(shipments[k])
      ensures forall k | k in active :: active[k] == shipments[k]
    {
      active := map k | k in shipments && Polled(shipments[k]) :: shipments[k];
    }

    /** The cron poll from one selection, undisturbed: every active shipment that the carrier
        reports in another status gets it, every other stays as it was. */
    method PollActiveShipments(answers: map<Awb, Status>)
      modifies this`shipments
      ensures shipments.Keys == old(shipments).Keys
      ensures forall k | k in shipments ::
                shipments[k] == AfterPoll(old(shipments)[k], k, answers)
    {
      var active := SelectActive();
      var rest := active.Keys;
      while rest != {}
        invariant rest <= active.Keys <= shipments.Keys == old(shipments).Keys
        invariant forall k | k in rest :: shipments[k] == old(shipments)[k]
        invariant forall k | k in shipments && k !in rest ::
                    shipments[k] == AfterPoll(old(shipments)[k], k, answers)
      {
        var awb :| awb in rest;
        if awb in answers {
          SavePolled(awb, active[awb], answers[awb]);
        }
        rest := rest - {awb};
      }
    }

    // ---- COD remittance ----

    method RemitCod(awb: Awb, caller: Caller) returns (error: Option<Error>)
      modifies this
      ensures Meets(S.RemitCod(old(State()), awb, caller), old(State()),
                    LeftRemittance(old(State()), awb),
                    MONEY_ERRORS, State(), error, old(RollsBack()))
      ensures supported == old(supported)
    {
      if caller.role != SuperAdmin && caller.role != DistributorRole {
        return Some(AccessDenied);
      }
      if awb !in cods {
        return Some(NotFound);
      }
      var c := cods[awb];
      if caller.role == SuperAdmin {
        if c.stage != CodPending {
          return Some(InvalidRequest);
        }
        cods := cods[awb := c.(stage := SettledToVexaro)];
        return None;
      }
      if c.stage != SettledToVexaro {
        return Some(InvalidRequest);
      }
      if c.distributor != Some(caller.userId) {
        return Some(AccessDenied);
      }
      var start := State();
      error := PostTo(c.merchant, TxType.CodCredit, c.amount, ForCod(awb));
      if error.Some? {
        Abort(start);
        return;
      }
      cods := cods[awb := c.(stage := Remitted)];
      if awb in shipments {
        shipments := shipments[awb := shipments[awb].(codState := CodPaidOut, payoutPaid := true)];
      }
    }

    // ---- Weight disputes ----

    method RaiseWeightDispute(awb: Awb, extra: int, caller: Caller, now: int) returns (error: Option<Error>)
      modifies this
      ensures Meets(S.RaiseDispute(old(State()), awb, extra, caller, now), old(State()),
                    LeftDispute(old(State()), awb, Disputed, TxType.DisputeCharge, extra),
                    MONEY_ERRORS + {Duplicate}, State(), error, old(RollsBack()))
      ensures supported == old(supported)
    {
      if caller.role != SuperAdmin {
        return Some(AccessDenied);
      }
      if awb !in shipments || shipments[awb].deleted {
        return Some(NotFound);
      }
      var start := State();
      error := PostShipmentLegs(shipments[awb], awb, Disputed, TxType.DisputeCharge, extra, extra, false);
      if error.None? && awb in disputes {
        error := Some(Duplicate);
      }
      if error.Some? {
        Abort(start);
        return;
      }
      disputes := disputes[awb := Dispute(extra, Open, now + DISPUTE_WINDOW_MS)];
    }

    method SubmitDisputeProof(awb: Awb, caller: Caller) returns (error: Option<Error>)
      modifies this`disputes
      ensures Whole(S.SubmitProof(old(State()), awb, caller), old(State()), State(), error)
    {
      if awb !in disputes {
        return Some(NotFound);
      }
      if disputes[awb].status != Open {
        return Some(InvalidRequest);
      }
      if awb !in shipments || shipments[awb].merchant != caller.userId {
        return Some(AccessDenied);
      }
      disputes := disputes[awb := disputes[awb].(status := UnderReview)];
      return None;
    }

    method ResolveWeightDispute(awb: Awb, approve: bool, caller: Caller) returns (error: Option<Error>)
      modifies this
      ensures Meets(S.ResolveDispute(old(State()), awb, approve, caller), old(State()),
                    LeftVerdict(old(State()), awb),
                    MONEY_ERRORS, State(), error, old(RollsBack()))
      ensures supported == old(supported)
    {
      if caller.role != SuperAdmin {
        return Some(AccessDenied);
      }
      if awb !in disputes {
        return Some(NotFound);
      }
      var d := disputes[awb];
      if d.status != Open && d.status != UnderReview {
        return Some(InvalidRequest);
      }
      if awb !in shipments {
        return Some(NotFound);
      }
      var start := State();
      if approve {
        error := PostShipmentLegs(shipments[awb], awb, Reversed, TxType.Refund, d.extra, d.extra, false);
        if error.Some? {
          Abort(start);
          return;
        }
        d := d.(status := Approved);
      } else {
        d := d.(status := Rejected);
      }
      disputes := disputes[awb := d];
      return None;
    }

    /** One bulk statement over the open disputes past their window. */
    method ExpireDisputes(now: int, to: DisputeStatus)
      modifies this`disputes
      ensures State() == S.ExpireDisputes(old(State()), now, to)
    {
      disputes := map k | k in disputes ::
        if disputes[k].status == Open && disputes[k].expiresAt < now then disputes[k].(status := to) else disputes[k];
    }

    // ---- Razorpay ----

    method CreateOrder(caller: Caller, order: string, id: string, amount: int) returns (error: Option<Error>)
      modifies this`payments
      ensures Whole(S.CreateOrder(old(State()), caller, order, id, amount), old(State()), State(), error)
    {
      if caller.role != MerchantRole && caller.role != DistributorRole {
        return Some(AccessDenied);
      }
      if caller.userId !in wallets {
        return Some(WalletNotFound);
      }
      if !wallets[caller.userId].isActive {
        return Some(WalletInactive);
      }
      if amount < MINIMUM_TOPUP || order in payments {
        return Some(InvalidRequest);
      }
      payments := payments[order := Payment(id, caller.userId, amount, PayPending, None)];
      return None;
    }

    method CreditInSession(order: string, razorpayId: string) returns (error: Option<Error>)
      requires order in payments
      modifies this
      ensures Meets(S.CreditPayment(old(State()), order, old(payments)[order], razorpayId), old(State()),
                    LeftPayment(old(State()), order, razorpayId),
                    MONEY_ERRORS, State(), error, old(RollsBack()))
      ensures supported == old(supported)
    {
      var start := State();
      var p := payments[order];
      error := PostTo(p.user, TxType.Topup, p.amount, ForPayment(razorpayId));
      if error.Some? {
        Abort(start);
        return;
      }
      payments := payments[order := p.(status := PaySuccess, razorpayId := Some(razorpayId))];
    }

    method VerifyPayment(caller: Caller, id: string, order: string, razorpayId: string, signatureValid: bool)
      returns (error: Option<Error>)
      modifies this
      ensures var spec := S.VerifyPayment(old(State()), caller, id, order, razorpayId, signatureValid);
              && error == spec.1
              && State() == if old(RollsBack()) || spec.1.None? || spec.1.value !in MONEY_ERRORS then spec.0
                            else old(State()).(books := LeftPayment(old(State()), order, razorpayId))
      ensures supported == old(supported)
    {
      if order in payments && payments[order].status == PaySuccess {
        return None;
      }
      if !OwnsPayment(payments, id, caller.userId) {
        return Some(NotFound);
      }
      if order !in payments || payments[order].id != id || payments[order].user != caller.userId {
        return Some(InvalidRequest);
      }
      if payments[order].status == PayFailed {
        return Some(InvalidRequest);
      }
      if !signatureValid {
        payments := payments[order := payments[order].(status := PayFailed)];
        return Some(InvalidRequest);
      }
      error := CreditInSession(order, razorpayId);
    }

    /** Gateway events; an unknown order is ignored. */
    method PaymentCaptured(order: string, razorpayId: string) returns (error: Option<Error>)
      modifies this
      ensures Meets(S.PaymentCaptured(old(State()), order, razorpayId), old(State()),
                    LeftPayment(old(State()), order, razorpayId),
                    MONEY_ERRORS, State(), error, old(RollsBack()))
      ensures supported == old(supported)
    {
      if order !in payments || payments[order].status == PaySuccess {
        return None;
      }
      error := CreditInSession(order, razorpayId);
    }

    method PaymentFailed(order: string)
      modifies this`payments
      ensures State() == S.PaymentFailed(old(State()), order)
    {
      if order in payments && payments[order].status == PayPending {
        payments := payments[order := payments[order].(status := PayFailed)];
      }
    }

    method RefundProcessed(order: string, razorpayId: string)
      modifies this`payments
      ensures State() == S.RefundProcessed(old(State()), order, razorpayId)
    {
      if order in payments && payments[order].razorpayId == Some(razorpayId) && payments[order].status == PaySuccess {
        payments := payments[order := payments[order].(status := PayRefunded)];
      }
    }
  }

  /** The order of a booking's refusals: the charges, the waybill, the amount to collect. */
  lemma BookOutcome(db: Db, awb: Awb, k: Booking)
    ensures var posted := PostLegs(db.books, Draft(k), awb, Charged, TxType.Charge, k.merchantCost, k.distributorCost, false);
            S.Book(db, awb, k) ==
            if posted.Err? then Err(posted.error)
            else if awb in db.shipments then Err(Duplicate)
            else if k.codAmount < 0 then Err(InvalidRequest)
            else Ok(db.(books := posted.value, shipments := db.shipments[awb := Draft(k)]))
  {
  }

  /** A reference found in a prefix of the ledger is the one found in the whole. */
  lemma {:induction false} FindEarly(ledger: seq<Row>, n: nat, text: string)
    requires n <= |ledger| && Find(ledger[..n], text).Some?
    ensures Find(ledger, text) == Find(ledger[..n], text)
  {
    if n < |ledger| {
      assert ledger[..|ledger| - 1][..n] == ledger[..n];
      FindEarly(ledger[..|ledger| - 1], n, text);
    } else {
      assert ledger[..n] == ledger;
    }
  }
}
