/** The life of one COD shipment through nine commands of a run, from booking to remittance:
    what it costs its parties and what it pays them in the end. */
module Journey {
  import opened Wrappers
  import opened Ledger
  import opened References
  import opened Services
  import opened Protocol
  import opened Effects
  import opened ShipmentOutcomes
  import R = Runs

  /** The shipment's own warehouse, any administrator, the shipment's distributor. */
  datatype Staff = Staff(warehouse: Caller, admin: Caller, distributor: Caller)

  predicate StaffOf(staff: Staff, k: Booking) {
    && staff.warehouse == Caller(WarehouseRole, k.warehouse)
    && staff.admin.role == SuperAdmin
    && staff.distributor.role == DistributorRole && k.distributor == Some(staff.distributor.userId)
  }

  function Booked(db: Db, awb: Awb, k: Booking, carrierAwb: string): Db {
    R.Step(R.Step(db, R.Ship(R.NewBooking(awb, k))), R.Ship(R.CarrierAccepted(awb, carrierAwb)))
  }

  function Stop(db: Db, awb: Awb, staff: Staff, next: Status): Db {
    R.Step(db, R.Ship(R.SetStatus(awb, next, staff.warehouse)))
  }

  function Travelled(db: Db, awb: Awb, staff: Staff): Db {
    Stop(Stop(Stop(db, awb, staff, PickedUp), awb, staff, ArrivedAtHub), awb, staff, OutForDelivery)
  }

  function Settled(db: Db, awb: Awb, staff: Staff): Db {
    R.Step(R.Step(db, R.Ship(R.Remit(awb, staff.admin))), R.Ship(R.Remit(awb, staff.distributor)))
  }

  /** The parties and the money of the booking are still the shipment's. */
  predicate OfBooking(s: Shipment, k: Booking) {
    && s.merchant == k.merchant && s.distributor == k.distributor && s.warehouse == k.warehouse
    && s.isCod == k.isCod && s.codAmount == k.codAmount && !s.deleted
  }

  predicate At(db: Db, awb: Awb, k: Booking, status: Status) {
    awb in db.shipments && OfBooking(db.shipments[awb], k) && db.shipments[awb].status == status
  }

  lemma BookedThere(db: Db, awb: Awb, k: Booking, carrierAwb: string)
    requires WfAwb(awb) && Book(db, awb, k).Ok?
    ensures var db' := Booked(db, awb, k, carrierAwb);
            && At(db', awb, k, OrderCreated)
            && db' == db.(books := Book(db, awb, k).value.books, shipments := db'.shipments)
  {
    DraftIsDraft(k);
    BookOutcome(db, awb, k, Draft(k));
    AcceptanceOutcome(Book(db, awb, k).value, awb, carrierAwb);
  }

  lemma StopThere(db: Db, awb: Awb, k: Booking, staff: Staff, status: Status, next: Status)
    requires At(db, awb, k, status) && StaffOf(staff, k) && (status, next) in STEPS && next in {PickedUp, ArrivedAtHub, OutForDelivery}
    ensures var db' := Stop(db, awb, staff, next); At(db', awb, k, next) && db' == db.(shipments := db'.shipments)
  {
    AccessExactly(db.shipments[awb], staff.warehouse);
    RolesExactly(status, next, WarehouseRole);
    StopOutcome(db, awb, next, staff.warehouse);
  }

  lemma TravelledThere(db: Db, awb: Awb, k: Booking, staff: Staff)
    requires At(db, awb, k, OrderCreated) && StaffOf(staff, k)
    ensures var db' := Travelled(db, awb, staff); At(db', awb, k, OutForDelivery) && db' == db.(shipments := db'.shipments)
  {
    StopThere(db, awb, k, staff, OrderCreated, PickedUp);
    var d1 := Stop(db, awb, staff, PickedUp);
    StopThere(d1, awb, k, staff, PickedUp, ArrivedAtHub);
    var d2 := Stop(d1, awb, staff, ArrivedAtHub);
    StopThere(d2, awb, k, staff, ArrivedAtHub, OutForDelivery);
  }

  /** Delivered, with the COD record pending and the amount in escrow. */
  lemma DeliveredThere(db: Db, awb: Awb, k: Booking, staff: Staff)
    requires At(db, awb, k, OutForDelivery) && StaffOf(staff, k) && k.isCod && k.codAmount >= 0 && awb !in db.cods
    requires Active(db.books, k.merchant)
    ensures var db' := Stop(db, awb, staff, Delivered);
            && At(db', awb, k, Delivered)
            && awb in db'.cods && db'.cods[awb] == Cod(k.merchant, k.distributor, k.codAmount, CodPending)
            && Deposited(db.books, db'.books, k.merchant, k.codAmount)
  {
    AccessExactly(db.shipments[awb], staff.warehouse);
    RolesExactly(OutForDelivery, Delivered, WarehouseRole);
    DeliveryOutcome(db, awb, staff.warehouse);
  }

  lemma SettledThere(db: Db, awb: Awb, k: Booking, staff: Staff)
    requires At(db, awb, k, Delivered) && StaffOf(staff, k) && k.codAmount >= 1
    requires awb in db.cods && db.cods[awb] == Cod(k.merchant, k.distributor, k.codAmount, CodPending)
    requires Active(db.books, k.merchant) && db.books.wallets[k.merchant].escrow >= k.codAmount && !Used(db.books, ForCod(awb))
    ensures var db' := Settled(db, awb, staff);
            && At(db', awb, k, Delivered) && db'.shipments[awb].payoutPaid && db'.shipments[awb].codState.CodPaidOut?
            && awb in db'.cods && db'.cods[awb].stage == Remitted
            && Posted(db.books, db'.books, k.merchant, TxType.CodCredit, k.codAmount, k.codAmount, -k.codAmount, ForCod(awb))
  {
    RemitOutcome(db, awb, staff.admin);
    var d1 := R.Step(db, R.Ship(R.Remit(awb, staff.admin)));
    assert d1 == db.(cods := db.cods[awb := db.cods[awb].(stage := SettledToVexaro)]);
    RemitOutcome(d1, awb, staff.distributor);
  }

  function Lived(db: Db, awb: Awb, k: Booking, carrierAwb: string, staff: Staff): Db {
    Settled(Stop(Travelled(Booked(db, awb, k, carrierAwb), awb, staff), awb, staff, Delivered), awb, staff)
  }

  /** A wallet at the end, given what its user paid for the booking and was remitted. */
  ghost predicate LifeOf(b: Books, b': Books, k: Booking) {
    && b'.wallets.Keys == b.wallets.Keys
    && forall u | u in b.wallets ::
         && b'.wallets[u].escrow == b.wallets[u].escrow
         && b'.wallets[u].balance == b.wallets[u].balance
              - (if u == k.merchant then k.merchantCost else 0) - (if Some(u) == k.distributor then k.distributorCost else 0)
              + (if u == k.merchant then k.codAmount else 0)
  }

  lemma ChargedBoth(db: Db, awb: Awb, k: Booking)
    requires R.Good(db) && WfAwb(awb) && Book(db, awb, k).Ok?
    ensures var b' := Book(db, awb, k).value.books;
            && b'.wallets.Keys == db.books.wallets.Keys && Active(b', k.merchant)
            && (Used(b', ForCod(awb)) <==> Used(db.books, ForCod(awb)))
            && forall u | u in db.books.wallets ::
                 && b'.wallets[u].escrow == db.books.wallets[u].escrow
                 && b'.wallets[u].balance == db.books.wallets[u].balance
                      - (if u == k.merchant then k.merchantCost else 0) - (if Some(u) == k.distributor then k.distributorCost else 0)
  {
    DraftIsDraft(k);
    var s := Draft(k);
    BookOutcome(db, awb, k, s);
    assert Get(db.shipments, awb) == None;
    assert LegOk(db.books, Get(db.shipments, awb), Get(db.disputes, awb), awb, Leg.Merchant);
    assert LegOk(db.books, Get(db.shipments, awb), Get(db.disputes, awb), awb, Leg.Distributor);
    assert Due(db.books, s, awb, Charged, Leg.Merchant, k.merchantCost, false);
    assert k.distributor.Some? ==> Due(db.books, s, awb, Charged, Leg.Distributor, k.distributorCost, false);
  }

  lemma LifeAdds(b: Books, b1: Books, b2: Books, b3: Books, awb: Awb, k: Booking)
    requires b1.wallets.Keys == b.wallets.Keys && Active(b1, k.merchant)
    requires forall u | u in b.wallets ::
               && b1.wallets[u].escrow == b.wallets[u].escrow
               && b1.wallets[u].balance == b.wallets[u].balance
                    - (if u == k.merchant then k.merchantCost else 0) - (if Some(u) == k.distributor then k.distributorCost else 0)
    requires Deposited(b1, b2, k.merchant, k.codAmount)
    requires Posted(b2, b3, k.merchant, TxType.CodCredit, k.codAmount, k.codAmount, -k.codAmount, ForCod(awb))
    ensures LifeOf(b, b3, k)
  {
  }

  /** Whoever is booked and served in order: the shipment ends delivered and paid out, its COD
      record remitted, each party is out its price, the merchant has the amount collected, and
      escrow is as it was. */
  lemma CodLife(db: Db, awb: Awb, k: Booking, carrierAwb: string, staff: Staff)
    requires R.Good(db) && EscrowOk(db) && WfAwb(awb) && StaffOf(staff, k) && k.isCod && k.codAmount >= 1
    requires Book(db, awb, k).Ok? && awb !in db.cods
    ensures var end := Lived(db, awb, k, carrierAwb, staff);
            && At(end, awb, k, Delivered) && end.shipments[awb].payoutPaid && awb in end.cods && end.cods[awb].stage == Remitted
            && LifeOf(db.books, end.books, k)
  {
    ChargedBoth(db, awb, k);
    BookedThere(db, awb, k, carrierAwb);
    var d1 := Booked(db, awb, k, carrierAwb);
    TravelledThere(d1, awb, k, staff);
    var d2 := Travelled(d1, awb, staff);
    DeliveredThere(d2, awb, k, staff);
    var d3 := Stop(d2, awb, staff, Delivered);
    assert CodRow(db, awb);
    EscrowCovers(db, d1.books, d3.books, k);
    SettledThere(d3, awb, k, staff);
    LifeAdds(db.books, d1.books, d3.books, Settled(d3, awb, staff).books, awb, k);
  }

  lemma EscrowCovers(db: Db, b1: Books, b2: Books, k: Booking)
    requires R.Good(db) && Active(b1, k.merchant) && b1.wallets.Keys == db.books.wallets.Keys
    requires b1.wallets[k.merchant].escrow == db.books.wallets[k.merchant].escrow
    requires Deposited(b1, b2, k.merchant, k.codAmount)
    ensures Active(b2, k.merchant) && b2.wallets[k.merchant].escrow >= k.codAmount
  {
  }
}
