/** What holds of the money after any run. Movements are sums over the whole ledger. */
module Guarantees {
  import opened Wrappers
  import opened Ledger
  import opened References
  import opened Services
  import opened Protocol
  import opened Runs

  function Moves(db: Db, e: Event, awb: Awb, leg: Leg): int {
    Movement(db.books.ledger, Text(ForLeg(e, awb, leg)))
  }

  function BookingMovement(db: Db, awb: Awb, leg: Leg): int {
    Moves(db, Charged, awb, leg) + Moves(db, Refunded, awb, leg)
  }

  function DisputeMovement(db: Db, awb: Awb, leg: Leg): int {
    Moves(db, Disputed, awb, leg) + Moves(db, Reversed, awb, leg)
  }

  lemma MovesIsNet(db: Db, r: Ref)
    requires Sound(db.books) && Wf(r)
    ensures Movement(db.books.ledger, Text(r)) == Net(db.books, r)
  {
    TextNonEmpty(r);
    MovementOfFound(db.books.ledger, Text(r));
  }

  // ---- Shipment legs ----

  ghost predicate LegMoved(db: Db, awb: Awb, leg: Leg) {
    if awb in db.shipments && HasLeg(db.shipments[awb], leg) then
      && BookingMovement(db, awb, leg) in {0, -Cost(db.shipments[awb], leg)}
      && Moves(db, ReturnedToOrigin, awb, leg) in {0, -RTO_CHARGE}
      && DisputeMovement(db, awb, leg) ==
           (if awb in db.disputes && db.disputes[awb].status != Approved then -db.disputes[awb].extra else 0)
    else
      && BookingMovement(db, awb, leg) == 0
      && Moves(db, ReturnedToOrigin, awb, leg) == 0
      && DisputeMovement(db, awb, leg) == 0
  }

  lemma GoodLegMoved(db: Db, awb: Awb, leg: Leg)
    requires Good(db) && WfAwb(awb)
    ensures LegMoved(db, awb, leg)
  {
    assert LegOk(db.books, Get(db.shipments, awb), Get(db.disputes, awb), awb, leg);
    forall e: Event
      ensures Moves(db, e, awb, leg) == Net(db.books, ForLeg(e, awb, leg))
    {
      MovesIsNet(db, ForLeg(e, awb, leg));
    }
  }

  /** For every run mixing services with arbitrary carrier events and polls, a leg has
      paid its booking once or not at all, 40 rupees of RTO once or not at all, and its
      dispute's extra charge exactly while the dispute stands. */
  lemma LegMovements(cmds: seq<Cmd>, awb: Awb, leg: Leg)
    requires AllPlausible(cmds) && WfAwb(awb)
    ensures LegMoved(Run(cmds), awb, leg)
  {
    RunGood(cmds);
    GoodLegMoved(Run(cmds), awb, leg);
  }

  /** For every run, each wallet's balance is the signed fold of its ledger from 0 and
      is not negative. */
  lemma BalanceIsFold(cmds: seq<Cmd>, u: UserId)
    requires AllPlausible(cmds) && u in Run(cmds).books.wallets
    ensures Run(cmds).books.wallets[u].balance == Fold(Run(cmds).books.ledger, u) >= 0
  {
    RunGood(cmds);
  }

  // ---- Booking saga ----

  ghost predicate SagaAll(db: Db) {
    forall k | k in db.shipments :: SagaOk(db.books, k, db.shipments[k])
  }

  /** A carrier event or poll that would write CANCELLED, or overwrite it. */
  predicate CarrierCrosses(db: Db, cmd: Cmd) {
    && cmd.Ship? && cmd.s.awb in db.shipments
    && (|| (cmd.s.CarrierEvent? && WebhookStatus(cmd.s.event).Some?
            && Crosses(db.shipments[cmd.s.awb].status, WebhookStatus(cmd.s.event).value))
        || (cmd.s.Poll? && Saves(cmd.s.seen, cmd.s.next) && Crosses(db.shipments[cmd.s.awb].status, cmd.s.next)))
  }

  ghost predicate NoCarrierCancel(cmds: seq<Cmd>) {
    forall n | 0 <= n < |cmds| :: !CarrierCrosses(Run(cmds[..n]), cmds[n])
  }

  /** The shipments not named by the step keep their refund rows. */
  lemma SagaFrame(db: Db, db': Db, awb: Awb)
    requires LegsOk(db) && SagaAll(db)
    requires forall k, leg | WfAwb(k) && k != awb ::
               Seen(db'.books, ForLeg(Refunded, k, leg)) == Seen(db.books, ForLeg(Refunded, k, leg))
    requires forall k | k in db'.shipments && k != awb :: k in db.shipments && db'.shipments[k] == db.shipments[k]
    requires awb in db'.shipments ==> SagaOk(db'.books, awb, db'.shipments[awb])
    ensures SagaAll(db')
  {
    forall k | k in db'.shipments
      ensures SagaOk(db'.books, k, db'.shipments[k])
    {
      if k != awb {
        assert SagaOk(db.books, k, db.shipments[k]);
        forall leg
          ensures Seen(db'.books, ForLeg(Refunded, k, leg)) == Seen(db.books, ForLeg(Refunded, k, leg))
        {
          assert WfAwb(k);
        }
      }
    }
  }

  lemma RefundedSaga(db: Db, awb: Awb, s': Shipment, b': Books, skipZero: bool)
    requires LegsOk(db) && SagaAll(db) && awb in db.shipments
    requires s'.status == Cancelled && SameMoney(db.shipments[awb], s')
    requires var s := db.shipments[awb];
             PostLegs(db.books, s, awb, Refunded, TxType.Refund, s.merchantCost, s.distributorCost, skipZero) == Ok(b')
    ensures SagaAll(db.(books := b', shipments := db.shipments[awb := s']))
  {
    var s := db.shipments[awb];
    PostLegsView(db.books, s, awb, Refunded, TxType.Refund, s.merchantCost, s.distributorCost, skipZero);
    forall leg | HasLeg(s', leg) && Cost(s', leg) > 0
      ensures Seen(b', ForLeg(Refunded, awb, leg)).Some?
    {
    }
    SagaFrame(db, db.(books := b', shipments := db.shipments[awb := s']), awb);
  }

  /** A shipment that was just created has no refund rows. */
  lemma NewShipmentUnrefunded(db: Db, cmd: ShipCmd, leg: Leg)
    requires Good(db) && Plausible(Ship(cmd)) && (cmd.NewBooking? || cmd.NewReturn?) && cmd.awb !in db.shipments
    ensures Seen(StepShip(db, cmd).books, ForLeg(Refunded, cmd.awb, leg)).None?
  {
    assert LegOk(db.books, Get(db.shipments, cmd.awb), Get(db.disputes, cmd.awb), cmd.awb, leg);
    if cmd.NewBooking? && Book(db, cmd.awb, cmd.booking).Ok? {
      var k := cmd.booking;
      PostLegsView(db.books, Draft(k), cmd.awb, Charged, TxType.Charge, k.merchantCost, k.distributorCost, false);
    }
  }

  /** Booking posts no refund of any shipment. */
  lemma BookingRefunds(db: Db, cmd: ShipCmd)
    requires Good(db) && Plausible(Ship(cmd)) && (cmd.NewBooking? || cmd.NewReturn?)
    ensures var b' := StepShip(db, cmd).books;
            forall k, leg | WfAwb(k) :: Seen(b', ForLeg(Refunded, k, leg)) == Seen(db.books, ForLeg(Refunded, k, leg))
  {
    if cmd.NewBooking? && Book(db, cmd.awb, cmd.booking).Ok? {
      var k := cmd.booking;
      PostLegsView(db.books, Draft(k), cmd.awb, Charged, TxType.Charge, k.merchantCost, k.distributorCost, false);
    }
  }

  lemma BookingSaga(db: Db, cmd: ShipCmd)
    requires Good(db) && SagaAll(db) && Plausible(Ship(cmd)) && (cmd.NewBooking? || cmd.NewReturn?)
    ensures SagaAll(StepShip(db, cmd))
  {
    var db' := StepShip(db, cmd);
    ShipWrites(db, cmd);
    BookingRefunds(db, cmd);
    if cmd.awb !in db.shipments {
      NewShipmentUnrefunded(db, cmd, Leg.Merchant);
      NewShipmentUnrefunded(db, cmd, Leg.Distributor);
      SagaFrame(db, db', cmd.awb);
    } else {
      BookedTwice(db, cmd);
    }
  }

  lemma BookedTwice(db: Db, cmd: ShipCmd)
    requires (cmd.NewBooking? || cmd.NewReturn?) && cmd.awb in db.shipments
    ensures StepShip(db, cmd) == db
  {
  }

  lemma RefusedSaga(db: Db, cmd: ShipCmd)
    requires Good(db) && SagaAll(db) && cmd.CarrierRefused?
    ensures SagaAll(StepShip(db, cmd))
  {
    if Compensate(db, cmd.awb).Ok? {
      var db' := Compensate(db, cmd.awb).value;
      RefundedSaga(db, cmd.awb, db'.shipments[cmd.awb], db'.books, false);
    }
  }

  lemma CancellationSaga(db: Db, awb: Awb)
    requires Good(db) && SagaAll(db) && awb in db.shipments && PerformCancellation(db, awb, db.shipments[awb]).Ok?
    ensures SagaAll(PerformCancellation(db, awb, db.shipments[awb]).value)
  {
    var db' := PerformCancellation(db, awb, db.shipments[awb]).value;
    RefundedSaga(db, awb, db'.shipments[awb], db'.books, true);
  }

  lemma DeletedSaga(db: Db, cmd: ShipCmd)
    requires Good(db) && SagaAll(db) && cmd.Delete?
    ensures SagaAll(StepShip(db, cmd))
  {
    if DeleteShipment(db, cmd.awb, cmd.caller, cmd.carrierCancels).Ok? {
      CancellationSaga(db, cmd.awb);
    }
  }

  lemma CancelledSaga(db: Db, cmd: ShipCmd)
    requires Good(db) && SagaAll(db) && cmd.SetStatus? && cmd.next == Cancelled
    ensures SagaAll(StepShip(db, cmd))
  {
    if UpdateStatus(db, cmd.awb, Cancelled, cmd.caller).Ok? && db.shipments[cmd.awb].status != Cancelled {
      CancellationSaga(db, cmd.awb);
    }
  }

  lemma CancelSaga(db: Db, cmd: ShipCmd)
    requires Good(db) && SagaAll(db)
    requires cmd.CarrierRefused? || cmd.Delete? || (cmd.SetStatus? && cmd.next == Cancelled)
    ensures SagaAll(StepShip(db, cmd))
  {
    if cmd.CarrierRefused? {
      RefusedSaga(db, cmd);
    } else if cmd.Delete? {
      DeletedSaga(db, cmd);
    } else {
      CancelledSaga(db, cmd);
    }
  }

  predicate QuietShip(cmd: ShipCmd) {
    && !cmd.NewBooking? && !cmd.NewReturn? && !cmd.CarrierRefused? && !cmd.Delete?
    && !(cmd.SetStatus? && cmd.next == Cancelled)
  }

  ghost predicate StaysAside(db: Db, cmd: ShipCmd) {
    var m, m' := db.shipments, StepShip(db, cmd).shipments;
    cmd.awb in m && cmd.awb in m' ==> !Crosses(m[cmd.awb].status, m'[cmd.awb].status)
  }

  lemma StatusAside(db: Db, cmd: ShipCmd)
    requires cmd.SetStatus? && cmd.next != Cancelled
    ensures StaysAside(db, cmd)
  {
  }

  lemma CarrierAside(db: Db, cmd: ShipCmd)
    requires !CarrierCrosses(db, Ship(cmd)) && (cmd.CarrierEvent? || cmd.Poll?)
    ensures StaysAside(db, cmd)
  {
  }

  /** The remaining shipping commands neither refund nor cross CANCELLED. */
  lemma QuietStatus(db: Db, cmd: ShipCmd)
    requires !CarrierCrosses(db, Ship(cmd)) && QuietShip(cmd)
    ensures StaysAside(db, cmd)
  {
    if cmd.SetStatus? {
      StatusAside(db, cmd);
    } else if cmd.CarrierEvent? || cmd.Poll? {
      CarrierAside(db, cmd);
    }
  }

  lemma NamedSaga(db: Db, cmd: ShipCmd)
    requires Good(db) && SagaAll(db) && Plausible(Ship(cmd)) && !CarrierCrosses(db, Ship(cmd)) && QuietShip(cmd)
    ensures cmd.awb in StepShip(db, cmd).shipments ==>
              SagaOk(StepShip(db, cmd).books, cmd.awb, StepShip(db, cmd).shipments[cmd.awb])
  {
    ShipWrites(db, cmd);
    QuietStatus(db, cmd);
    QuietRefunds(db, cmd);
    if cmd.awb in db.shipments {
      assert SagaOk(db.books, cmd.awb, db.shipments[cmd.awb]);
      assert WfAwb(cmd.awb);
    }
  }

  lemma QuietSaga(db: Db, cmd: ShipCmd)
    requires Good(db) && SagaAll(db) && Plausible(Ship(cmd)) && !CarrierCrosses(db, Ship(cmd)) && QuietShip(cmd)
    ensures SagaAll(StepShip(db, cmd))
  {
    ShipWrites(db, cmd);
    NamedSaga(db, cmd);
    QuietRefunds(db, cmd);
    SagaFrame(db, StepShip(db, cmd), cmd.awb);
  }

  lemma QuietRefunds(db: Db, cmd: ShipCmd)
    requires Good(db) && Plausible(Ship(cmd))
    requires !cmd.NewBooking? && !cmd.CarrierRefused? && !cmd.Delete? && !(cmd.SetStatus? && cmd.next == Cancelled)
    ensures var b' := StepShip(db, cmd).books;
            forall k, leg | WfAwb(k) :: Seen(b', ForLeg(Refunded, k, leg)) == Seen(db.books, ForLeg(Refunded, k, leg))
  {
    if cmd.SetStatus? && cmd.next == Rto {
      if UpdateStatus(db, cmd.awb, Rto, cmd.caller).Ok? && db.shipments[cmd.awb].status != Rto {
        PostLegsView(db.books, db.shipments[cmd.awb], cmd.awb, ReturnedToOrigin, TxType.RtoCharge, RTO_CHARGE, RTO_CHARGE, false);
      }
    } else {
      ShipQuietView(db, cmd);
    }
  }

  lemma OtherSaga(db: Db, db': Db)
    requires LegsOk(db) && SagaAll(db) && db'.shipments == db.shipments
    requires forall q | Wf(q) && FamilyOf(q) == Freight :: Seen(db'.books, q) == Seen(db.books, q)
    ensures SagaAll(db')
  {
    forall k | k in db.shipments
      ensures SagaOk(db'.books, k, db'.shipments[k])
    {
      assert SagaOk(db.books, k, db.shipments[k]) && WfAwb(k);
      assert forall leg :: FamilyOf(ForLeg(Refunded, k, leg)) == Freight;
    }
  }

  lemma StepSaga(db: Db, cmd: Cmd)
    requires Good(db) && SagaAll(db) && Plausible(cmd) && !CarrierCrosses(db, cmd)
    ensures SagaAll(Step(db, cmd))
  {
    match cmd
    case Money(m) =>
      MoneyView(db, m);
      MoneyRecords(db, m);
      OtherSaga(db, Step(db, cmd));
    case Pay(p) =>
      PayView(db, p);
      OtherSaga(db, Step(db, cmd));
    case Contest(c) =>
      ContestView(db, c);
      OtherSaga(db, Step(db, cmd));
    case Ship(s) =>
      if s.NewBooking? || s.NewReturn? {
        BookingSaga(db, s);
      } else if s.CarrierRefused? || s.Delete? || (s.SetStatus? && s.next == Cancelled) {
        CancelSaga(db, s);
      } else {
        QuietSaga(db, s);
      }
  }

  lemma EarlierUncrossed(cmds: seq<Cmd>, n: nat)
    requires NoCarrierCancel(cmds) && n < |cmds|
    ensures NoCarrierCancel(cmds[..n])
  {
    forall i | 0 <= i < n
      ensures !CarrierCrosses(Run(cmds[..n][..i]), cmds[..n][i])
    {
      assert cmds[..n][..i] == cmds[..i];
    }
  }

  lemma {:induction false} RunSaga(cmds: seq<Cmd>)
    requires AllPlausible(cmds) && NoCarrierCancel(cmds)
    ensures SagaAll(Run(cmds))
  {
    if cmds != [] {
      var n := |cmds| - 1;
      EarlierUncrossed(cmds, n);
      RunSaga(cmds[..n]);
      RunGood(cmds[..n]);
      StepSaga(Run(cmds[..n]), cmds[n]);
    }
  }

  /** A leg's booking position as the saga promises it. */
  ghost predicate BookingSettled(db: Db, awb: Awb, leg: Leg) {
    BookingMovement(db, awb, leg) ==
      (if awb in db.shipments && HasLeg(db.shipments[awb], leg) && db.shipments[awb].status != Cancelled
       then -Cost(db.shipments[awb], leg) else 0)
  }

  lemma SagaSettled(db: Db, awb: Awb, leg: Leg)
    requires Good(db) && SagaAll(db) && WfAwb(awb)
    ensures BookingSettled(db, awb, leg)
  {
    assert LegOk(db.books, Get(db.shipments, awb), Get(db.disputes, awb), awb, leg);
    MovesIsNet(db, ForLeg(Charged, awb, leg));
    MovesIsNet(db, ForLeg(Refunded, awb, leg));
    if awb in db.shipments && HasLeg(db.shipments[awb], leg) {
      assert SagaOk(db.books, awb, db.shipments[awb]);
    }
  }

  /** Booking saga, whatever failed where: no shipment, no movement; CANCELLED, net zero
      on both legs; otherwise each leg is out its cost. */
  lemma SagaOutcome(cmds: seq<Cmd>, awb: Awb, leg: Leg)
    requires AllPlausible(cmds) && NoCarrierCancel(cmds) && WfAwb(awb)
    ensures BookingSettled(Run(cmds), awb, leg)
  {
    RunGood(cmds);
    RunSaga(cmds);
    SagaSettled(Run(cmds), awb, leg);
  }

  predicate WalletActive(b: Books, u: UserId) {
    u in b.wallets && b.wallets[u].isActive
  }

  /** The wallets a refund has to reach are there and active. */
  predicate Refundable(b: Books, s: Shipment) {
    && (s.merchantCost > 0 ==> WalletActive(b, s.merchant))
    && (s.distributor.Some? && s.distributorCost > 0 ==> WalletActive(b, s.distributor.value))
  }

  lemma RefundPosts(b: Books, user: UserId, amount: int, r: Ref)
    requires amount >= 1
    ensures Post(b, user, TxType.Refund, amount, r).Ok? <==> WalletActive(b, user)
    ensures Post(b, user, TxType.Refund, amount, r).Ok? ==>
              forall u :: WalletActive(Post(b, user, TxType.Refund, amount, r).value, u) <==> WalletActive(b, u)
  {
  }

  /** The refund of both legs goes through exactly when it can reach the wallets. */
  lemma CancellationPosts(b: Books, s: Shipment, awb: Awb)
    requires s.merchantCost >= 0 && (s.distributor.Some? ==> s.distributorCost >= 0)
    ensures PostLegs(b, s, awb, Refunded, TxType.Refund, s.merchantCost, s.distributorCost, true).Ok?
            <==> Refundable(b, s)
  {
    var first := if s.merchantCost > 0
                 then Post(b, s.merchant, TxType.Refund, s.merchantCost, ForLeg(Refunded, awb, Leg.Merchant)) else Ok(b);
    if s.merchantCost > 0 {
      RefundPosts(b, s.merchant, s.merchantCost, ForLeg(Refunded, awb, Leg.Merchant));
    }
    if s.distributor.Some? && s.distributorCost > 0 && first.Ok? {
      RefundPosts(first.value, s.distributor.value, s.distributorCost, ForLeg(Refunded, awb, Leg.Distributor));
    }
  }

  lemma CancelledLegs(db: Db, awb: Awb)
    requires Good(db) && SagaAll(db) && awb in db.shipments && PerformCancellation(db, awb, db.shipments[awb]).Ok?
    ensures var db' := PerformCancellation(db, awb, db.shipments[awb]).value;
            Sound(db'.books) && LegsOk(db') && SagaAll(db')
  {
    var s := db.shipments[awb];
    var db' := PerformCancellation(db, awb, s).value;
    RefundLegs(db, awb, s, db'.books, db'.shipments[awb], true);
    CancellationSaga(db, awb);
    PostLegsView(db.books, s, awb, Refunded, TxType.Refund, s.merchantCost, s.distributorCost, true);
  }

  lemma CancellationPermitted(db: Db, awb: Awb)
    requires LegsOk(db) && awb in db.shipments && db.shipments[awb].status == OrderCreated
    ensures PerformCancellation(db, awb, db.shipments[awb]).Ok? <==> Refundable(db.books, db.shipments[awb])
  {
    CostsNonNegative(db, awb);
    CancellationPosts(db.books, db.shipments[awb], awb);
  }

  lemma CancellationZeroes(db: Db, awb: Awb)
    requires Good(db) && SagaAll(db) && awb in db.shipments && PerformCancellation(db, awb, db.shipments[awb]).Ok?
    ensures forall leg :: BookingMovement(PerformCancellation(db, awb, db.shipments[awb]).value, awb, leg) == 0
  {
    CancelledLegs(db, awb);
    CancelledClear(PerformCancellation(db, awb, db.shipments[awb]).value, awb);
  }

  /** A shipment still in ORDER_CREATED can be cancelled exactly when the wallets to be
      refunded are active, and that brings both legs to zero. */
  lemma CancellationClears(db: Db, awb: Awb)
    requires Good(db) && SagaAll(db) && awb in db.shipments && db.shipments[awb].status == OrderCreated
    ensures var r := PerformCancellation(db, awb, db.shipments[awb]);
            && (r.Ok? <==> Refundable(db.books, db.shipments[awb]))
            && (r.Ok? ==> forall leg :: BookingMovement(r.value, awb, leg) == 0)
  {
    CancellationPermitted(db, awb);
    if PerformCancellation(db, awb, db.shipments[awb]).Ok? {
      CancellationZeroes(db, awb);
    }
  }

  lemma CostsNonNegative(db: Db, awb: Awb)
    requires LegsOk(db) && awb in db.shipments
    ensures var s := db.shipments[awb]; s.merchantCost >= 0 && (s.distributor.Some? ==> s.distributorCost >= 0)
  {
    assert LegOk(db.books, Get(db.shipments, awb), Get(db.disputes, awb), awb, Leg.Merchant);
    assert LegOk(db.books, Get(db.shipments, awb), Get(db.disputes, awb), awb, Leg.Distributor);
  }

  lemma CancelledClear(db: Db, awb: Awb)
    requires Sound(db.books) && LegsOk(db) && SagaAll(db) && awb in db.shipments && db.shipments[awb].status == Cancelled
    ensures forall leg :: BookingMovement(db, awb, leg) == 0
  {
    forall leg
      ensures BookingMovement(db, awb, leg) == 0
    {
      assert LegOk(db.books, Get(db.shipments, awb), Get(db.disputes, awb), awb, leg);
      MovesIsNet(db, ForLeg(Charged, awb, leg));
      MovesIsNet(db, ForLeg(Refunded, awb, leg));
      assert SagaOk(db.books, awb, db.shipments[awb]);
    }
  }

  lemma ChargedWalletsActive(b: Books, s: Shipment, awb: Awb, m: int, d: int)
    requires WfAwb(awb) && PostLegs(b, s, awb, Charged, TxType.Charge, m, d, false).Ok?
    ensures var b' := PostLegs(b, s, awb, Charged, TxType.Charge, m, d, false).value;
            WalletActive(b', s.merchant) && (s.distributor.Some? ==> WalletActive(b', s.distributor.value))
  {
    PostLegsView(b, s, awb, Charged, TxType.Charge, m, d, false);
    var b1 := Post(b, s.merchant, TxType.Charge, m, ForLeg(Charged, awb, Leg.Merchant)).value;
    PostView(b, s.merchant, TxType.Charge, m, ForLeg(Charged, awb, Leg.Merchant));
  }

  lemma RefundLegsPost(b: Books, s: Shipment, awb: Awb)
    requires WalletActive(b, s.merchant) && (s.distributor.Some? ==> WalletActive(b, s.distributor.value))
    requires s.merchantCost >= 1 && (s.distributor.Some? ==> s.distributorCost >= 1)
    ensures PostLegs(b, s, awb, Refunded, TxType.Refund, s.merchantCost, s.distributorCost, false).Ok?
  {
    RefundPosts(b, s.merchant, s.merchantCost, ForLeg(Refunded, awb, Leg.Merchant));
    if s.distributor.Some? {
      var b1 := Post(b, s.merchant, TxType.Refund, s.merchantCost, ForLeg(Refunded, awb, Leg.Merchant)).value;
      RefundPosts(b1, s.distributor.value, s.distributorCost, ForLeg(Refunded, awb, Leg.Distributor));
    }
  }

  lemma BookedCosts(db: Db, awb: Awb, k: Booking)
    requires Good(db) && WfAwb(awb) && awb !in db.shipments && Book(db, awb, k).Ok?
    ensures k.merchantCost >= 1 && (k.distributor.Some? ==> k.distributorCost >= 1)
  {
    PostLegsView(db.books, Draft(k), awb, Charged, TxType.Charge, k.merchantCost, k.distributorCost, false);
    assert LegOk(db.books, Get(db.shipments, awb), Get(db.disputes, awb), awb, Leg.Merchant);
    assert LegOk(db.books, Get(db.shipments, awb), Get(db.disputes, awb), awb, Leg.Distributor);
  }

  lemma BookedGood(db: Db, awb: Awb, k: Booking)
    requires Good(db) && SagaAll(db) && WfAwb(awb) && Book(db, awb, k).Ok?
    ensures Good(Book(db, awb, k).value) && SagaAll(Book(db, awb, k).value)
  {
    ShipGood(db, NewBooking(awb, k));
    BookingSaga(db, NewBooking(awb, k));
  }

  /** The wallets that were charged are active, so the refund cannot fail. */
  lemma CompensationSucceeds(db: Db, awb: Awb, k: Booking)
    requires Good(db) && WfAwb(awb) && awb !in db.shipments && Book(db, awb, k).Ok?
    ensures Compensate(Book(db, awb, k).value, awb).Ok?
  {
    BookedCosts(db, awb, k);
    ChargedWalletsActive(db.books, Draft(k), awb, k.merchantCost, k.distributorCost);
    RefundLegsPost(Book(db, awb, k).value.books, Draft(k), awb);
  }

  lemma CompensatedGood(booked: Db, awb: Awb)
    requires Good(booked) && SagaAll(booked) && WfAwb(awb) && Compensate(booked, awb).Ok?
    ensures Good(Compensate(booked, awb).value) && SagaAll(Compensate(booked, awb).value)
  {
    ShipGood(booked, CarrierRefused(awb));
    RefusedSaga(booked, CarrierRefused(awb));
  }

  lemma CompensationOutcome(db: Db, awb: Awb, k: Booking)
    requires Good(db) && SagaAll(db) && WfAwb(awb) && awb !in db.shipments && Book(db, awb, k).Ok?
    ensures var r := Compensate(Book(db, awb, k).value, awb);
            && r.Ok? && awb in r.value.shipments && r.value.shipments[awb].status == Cancelled
            && BookingSettled(r.value, awb, Leg.Merchant) && BookingSettled(r.value, awb, Leg.Distributor)
  {
    BookedGood(db, awb, k);
    CompensationSucceeds(db, awb, k);
    CompensatedGood(Book(db, awb, k).value, awb);
    SagaSettled(Compensate(Book(db, awb, k).value, awb).value, awb, Leg.Merchant);
    SagaSettled(Compensate(Book(db, awb, k).value, awb).value, awb, Leg.Distributor);
  }

  lemma CompletionOutcome(db: Db, awb: Awb, k: Booking, carrierAwb: string)
    requires Good(db) && SagaAll(db) && WfAwb(awb) && awb !in db.shipments && Book(db, awb, k).Ok?
    ensures var r := CompleteBooking(Book(db, awb, k).value, awb, carrierAwb);
            && r.Ok? && awb in r.value.shipments && r.value.shipments[awb].status == OrderCreated
            && BookingSettled(r.value, awb, Leg.Merchant) && BookingSettled(r.value, awb, Leg.Distributor)
  {
    var booked := Book(db, awb, k).value;
    BookedGood(db, awb, k);
    ShipGood(booked, CarrierAccepted(awb, carrierAwb));
    QuietSaga(booked, CarrierAccepted(awb, carrierAwb));
    SagaSettled(CompleteBooking(booked, awb, carrierAwb).value, awb, Leg.Merchant);
    SagaSettled(CompleteBooking(booked, awb, carrierAwb).value, awb, Leg.Distributor);
  }

  /** One booking request from start to end: a refused session changes nothing; when the
      carrier refuses, the compensation cannot be refused in turn and leaves CANCELLED
      with both legs at zero; otherwise the shipment is booked and each leg has paid. */
  lemma CreateShipmentOutcome(db: Db, awb: Awb, k: Booking, carrier: Option<string>)
    requires Good(db) && SagaAll(db) && WfAwb(awb) && awb !in db.shipments
    ensures var (db', error) := CreateShipment(db, awb, k, carrier);
            && (Book(db, awb, k).Err? ==> db' == db)
            && (Book(db, awb, k).Ok? ==>
                  && awb in db'.shipments
                  && db'.shipments[awb].status == (if carrier.None? then Cancelled else OrderCreated)
                  && (error.None? <==> carrier.Some?)
                  && BookingSettled(db', awb, Leg.Merchant) && BookingSettled(db', awb, Leg.Distributor))
  {
    if Book(db, awb, k).Ok? {
      if carrier.None? {
        CompensationOutcome(db, awb, k);
      } else {
        CompletionOutcome(db, awb, k, carrier.value);
      }
    }
  }

  /** Two settlements sharing a free-text reference: the later one is marked completed
      but moves money exactly when nothing was posted under its reference before. */
  lemma SettlementMoves(db: Db, caller: Caller, id: string)
    requires Good(db) && ProcessSettlement(db, caller, id, true).Ok?
    ensures var s, db' := db.settlements[id], ProcessSettlement(db, caller, id, true).value;
            && db'.settlements[id].status == SettlementCompleted
            && s.to in db.books.wallets && s.to in db'.books.wallets
            && db'.books.wallets[s.to].balance == db.books.wallets[s.to].balance
                 - (if Seen(db.books, SettlementRef(id, s)).None? then s.amount else 0)
  {
    TextNonEmpty(SettlementRef(id, db.settlements[id]));
  }

  // ---- COD escrow ----

  predicate MerchantsActive(db: Db) {
    forall k | k in db.shipments :: MerchantActive(db, db.shipments[k])
  }

  ghost predicate ActiveThroughout(cmds: seq<Cmd>) {
    forall n | 0 <= n <= |cmds| :: MerchantsActive(Run(cmds[..n]))
  }

  lemma {:induction false} OwedToStranger(cods: map<Awb, Cod>, keys: set<Awb>, u: UserId)
    requires forall k | k in cods :: cods[k].merchant != u
    ensures Owed(cods, keys, u) == 0
    decreases |keys|
  {
    if keys != {} {
      var k :| k in keys;
      OwedPick(cods, keys, k, u);
      OwedToStranger(cods, keys - {k}, u);
    }
  }

  lemma NewWalletEscrow(db: Db, u: UserId)
    requires EscrowOk(db)
    ensures EscrowOk(CreateWallet(db, u))
  {
    var db' := CreateWallet(db, u);
    if u !in db.books.wallets {
      OwedToStranger(db.cods, db.cods.Keys, u);
      forall v | v in db'.books.wallets
        ensures EscrowMatches(db', v)
      {
        if v != u {
          assert EscrowMatches(db, v);
        }
      }
      forall k
        ensures CodRow(db', k)
      {
        assert CodRow(db, k);
      }
    }
  }

  lemma FundsEscrow(db: Db, cmd: MoneyCmd)
    requires Good(db) && EscrowOk(db) && Plausible(Money(cmd)) && MovesFunds(cmd)
    ensures EscrowOk(StepMoney(db, cmd))
  {
    MoneyView(db, cmd);
    MoneyRecords(db, cmd);
    EscrowFrame(db, StepMoney(db, cmd));
  }

  lemma ActiveEscrow(db: Db, u: UserId, active: bool)
    requires EscrowOk(db)
    ensures EscrowOk(SetWalletActive(db, u, active))
  {
    EscrowFrame(db, SetWalletActive(db, u, active));
  }

  lemma MoneyEscrow(db: Db, cmd: MoneyCmd)
    requires Good(db) && EscrowOk(db) && Plausible(Money(cmd))
    ensures EscrowOk(StepMoney(db, cmd))
  {
    if cmd.NewWallet? {
      NewWalletEscrow(db, cmd.user);
    } else if cmd.SetActive? {
      ActiveEscrow(db, cmd.user, cmd.active);
    } else {
      FundsEscrow(db, cmd);
    }
  }

  lemma ShipEscrow(db: Db, cmd: ShipCmd)
    requires Good(db) && EscrowOk(db) && Plausible(Ship(cmd)) && MerchantsActive(db)
    ensures EscrowOk(StepShip(db, cmd))
  {
    var db' := StepShip(db, cmd);
    ShipWrites(db, cmd);
    if cmd.Remit? {
      if RemitCod(db, cmd.awb, cmd.caller).Ok? {
        if cmd.caller.role == SuperAdmin {
          StageKeepsEscrow(db, cmd.awb, cmd.caller);
        } else {
          ReleaseKeepsEscrow(db, cmd.awb, cmd.caller);
        }
      }
    } else if cmd.SetStatus? && cmd.next == Delivered {
      DeliveryEscrow(db, cmd.awb, cmd.caller);
    } else if PostsShipLegs(cmd) {
      ShipLegsView(db, cmd);
      EscrowFrame(db, db');
    } else {
      ShipQuietView(db, cmd);
      EscrowFrame(db, db');
    }
  }

  lemma DeliveryEscrow(db: Db, awb: Awb, caller: Caller)
    requires EscrowOk(db) && MerchantsActive(db)
    ensures EscrowOk(Committed(db, UpdateStatus(db, awb, Delivered, caller)))
  {
    var r := UpdateStatus(db, awb, Delivered, caller);
    if r.Ok? && db.shipments[awb].status != Delivered {
      assert r == Deliver(db, awb, db.shipments[awb]);
      DeliverKeepsEscrow(db, awb);
    }
  }

  lemma StepEscrow(db: Db, cmd: Cmd)
    requires Good(db) && EscrowOk(db) && Plausible(cmd) && MerchantsActive(db)
    ensures EscrowOk(Step(db, cmd))
  {
    match cmd
    case Money(m) => MoneyEscrow(db, m);
    case Pay(p) =>
      PayView(db, p);
      EscrowFrame(db, Step(db, cmd));
    case Contest(c) =>
      ContestView(db, c);
      EscrowFrame(db, Step(db, cmd));
    case Ship(s) => ShipEscrow(db, s);
  }

  /** While every merchant with shipments holds an active wallet, each wallet's escrow
      is the sum of its COD records not yet REMITTED, however often carrier events reset
      a shipment and it is delivered again. */
  lemma {:induction false} EscrowIsOwed(cmds: seq<Cmd>)
    requires AllPlausible(cmds) && ActiveThroughout(cmds)
    ensures EscrowOk(Run(cmds))
  {
    if cmds != [] {
      var n := |cmds| - 1;
      forall i | 0 <= i <= n
        ensures MerchantsActive(Run(cmds[..n][..i]))
      {
        assert cmds[..n][..i] == cmds[..i];
      }
      EscrowIsOwed(cmds[..n]);
      RunGood(cmds[..n]);
      StepEscrow(Run(cmds[..n]), cmds[n]);
    }
  }

  /** Hence no remittance in such a run is ever refused for lack of escrow. */
  lemma RunNeverShort(cmds: seq<Cmd>, awb: Awb, caller: Caller)
    requires AllPlausible(cmds) && ActiveThroughout(cmds)
    ensures RemitCod(Run(cmds), awb, caller).Err? ==> RemitCod(Run(cmds), awb, caller).error != InsufficientEscrow
  {
    EscrowIsOwed(cmds);
    var db := Run(cmds);
    if caller.role == DistributorRole && awb in db.cods && db.cods[awb].stage == SettledToVexaro
       && db.cods[awb].distributor == Some(caller.userId) {
      RemitNeverShort(db, awb, caller);
    }
  }

  // ---- Razorpay ----

  ghost predicate OneOrderPerPayment(cmds: seq<Cmd>, orderOf: string -> string) {
    forall i | 0 <= i < |cmds| :: OneOrder(cmds[i], orderOf)
  }

  lemma StepPayments(db: Db, cmd: Cmd, orderOf: string -> string)
    requires Good(db) && PaymentsOk(db, orderOf) && Plausible(cmd) && OneOrder(cmd, orderOf)
    ensures PaymentsOk(Step(db, cmd), orderOf)
  {
    var db' := Step(db, cmd);
    match cmd
    case Money(m) =>
      MoneyView(db, m);
      MoneyRecords(db, m);
      PaymentsFrame(db, db', orderOf);
    case Pay(p) =>
      PayPayments(db, p, orderOf);
    case Contest(c) =>
      ContestView(db, c);
      PaymentsFrame(db, db', orderOf);
    case Ship(s) =>
      ShipWrites(db, s);
      ShipView(db, s);
      PaymentsFrame(db, db', orderOf);
  }

  lemma {:induction false} RunPayments(cmds: seq<Cmd>, orderOf: string -> string)
    requires AllPlausible(cmds) && OneOrderPerPayment(cmds, orderOf)
    ensures PaymentsOk(Run(cmds), orderOf)
  {
    if cmds != [] {
      RunPayments(cmds[..|cmds| - 1], orderOf);
      RunGood(cmds[..|cmds| - 1]);
      StepPayments(Run(cmds[..|cmds| - 1]), cmds[|cmds| - 1], orderOf);
    }
  }

  /** Row i is the only row carrying a reference. */
  ghost predicate OnlyRow(ledger: seq<Row>, i: nat, text: string) {
    && i < |ledger| && ledger[i].reference == Some(text)
    && forall j | 0 <= j < |ledger| && ledger[j].reference == Some(text) :: j == i
  }

  lemma SeenIsOnlyRow(db: Db, r: Ref) returns (i: nat)
    requires Sound(db.books) && Wf(r) && Seen(db.books, r).Some?
    ensures OnlyRow(db.books.ledger, i, Text(r)) && db.books.ledger[i] == Seen(db.books, r).value
  {
    TextNonEmpty(r);
    FindWitness(db.books.ledger, Text(r));
    i :| 0 <= i < |db.books.ledger| && db.books.ledger[i] == Seen(db.books, r).value;
  }

  /** In any replay and order of verifications and gateway events, a SUCCESS payment has
      exactly one row under its payment id: a TOPUP of its amount in its owner's wallet. */
  lemma SuccessHasOneRow(cmds: seq<Cmd>, orderOf: string -> string, order: string)
    requires AllPlausible(cmds) && OneOrderPerPayment(cmds, orderOf)
    requires order in Run(cmds).payments && Run(cmds).payments[order].status == PaySuccess
    ensures var db := Run(cmds);
            var p := db.payments[order];
            && p.razorpayId.Some?
            && exists i: nat :: OnlyRow(db.books.ledger, i, Text(ForPayment(p.razorpayId.value)))
                 && db.books.ledger[i].user == p.user && db.books.ledger[i].amount == p.amount
                 && db.books.ledger[i].txType == TxType.Topup
  {
    RunGood(cmds);
    RunPayments(cmds, orderOf);
    var db := Run(cmds);
    var p := db.payments[order];
    assert OrderOk(db.books, orderOf, order, p);
    assert PaymentOk(db.books, db.payments, orderOf, p.razorpayId.value);
    var i := SeenIsOnlyRow(db, ForPayment(p.razorpayId.value));
  }

  /** And each payment id has moved its order's amount once or not at all, whatever the
      payment's status says now. */
  lemma PaymentCreditsAtMostOnce(cmds: seq<Cmd>, orderOf: string -> string, id: string)
    requires AllPlausible(cmds) && OneOrderPerPayment(cmds, orderOf)
    ensures var db := Run(cmds);
            var moved := Movement(db.books.ledger, Text(ForPayment(id)));
            moved == 0 || (orderOf(id) in db.payments && moved == db.payments[orderOf(id)].amount)
  {
    RunGood(cmds);
    RunPayments(cmds, orderOf);
    MovesIsNet(Run(cmds), ForPayment(id));
    assert PaymentOk(Run(cmds).books, Run(cmds).payments, orderOf, id);
  }

  /** An approved refund request has moved its amount, any other nothing. */
  lemma RequestMoved(cmds: seq<Cmd>, id: string)
    requires AllPlausible(cmds)
    ensures var db := Run(cmds);
            Movement(db.books.ledger, Text(ForRefundRequest(id))) ==
            (if id in db.requests && db.requests[id].status == RequestApproved then db.requests[id].amount else 0)
  {
    RunGood(cmds);
    MovesIsNet(Run(cmds), ForRefundRequest(id));
    assert RequestOk(Run(cmds).books, Run(cmds).requests, id);
  }
}
