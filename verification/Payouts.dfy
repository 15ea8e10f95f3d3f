/** COD records against their shipments: whose they are, and when a shipment counts as
    paid out, over every run. */
module Payouts {
  import opened Wrappers
  import opened Ledger
  import opened References
  import opened Services
  import opened Protocol
  import opened Runs

  predicate PaidOut(s: Shipment) {
    s.codState == CodPaidOut && s.payoutPaid
  }

  /** A COD record belongs to its shipment's merchant and distributor, and once it is
      REMITTED the shipment is paid out. */
  predicate RecordFits(c: Cod, s: Shipment) {
    c.merchant == s.merchant && c.distributor == s.distributor && (c.stage.Remitted? ==> PaidOut(s))
  }

  ghost predicate CodsOk(db: Db) {
    forall k | k in db.cods :: k in db.shipments && RecordFits(db.cods[k], db.shipments[k])
  }

  /** A command that writes no COD record keeps a paid-out shipment paid out. */
  ghost predicate KeepsPaid(db: Db, cmd: ShipCmd) {
    var db' := StepShip(db, cmd);
    cmd.awb in db.cods && cmd.awb in db.shipments && PaidOut(db.shipments[cmd.awb]) ==>
      cmd.awb in db'.shipments && PaidOut(db'.shipments[cmd.awb])
  }

  lemma CarrierKeepsPaid(db: Db, cmd: ShipCmd)
    requires cmd.CarrierRefused? || cmd.CarrierAccepted? || cmd.CarrierEvent? || cmd.Poll?
    ensures KeepsPaid(db, cmd)
  {
  }

  lemma EditKeepsPaid(db: Db, cmd: ShipCmd)
    requires cmd.Edit? || cmd.Delete?
    ensures KeepsPaid(db, cmd)
  {
  }

  lemma DeliveryKeepsPaid(db: Db, awb: Awb)
    requires awb in db.shipments && awb in db.cods && Deliver(db, awb, db.shipments[awb]).Ok?
    ensures PaidOut(Deliver(db, awb, db.shipments[awb]).value.shipments[awb])
  {
  }

  lemma StatusKeepsPaid(db: Db, cmd: ShipCmd)
    requires cmd.SetStatus?
    ensures KeepsPaid(db, cmd)
  {
    if cmd.next == Delivered && cmd.awb in db.cods && cmd.awb in db.shipments
       && UpdateStatus(db, cmd.awb, Delivered, cmd.caller).Ok? && db.shipments[cmd.awb].status != Delivered {
      DeliveryKeepsPaid(db, cmd.awb);
    }
  }

  lemma OtherKeepsPaid(db: Db, cmd: ShipCmd)
    requires !cmd.Remit?
    ensures KeepsPaid(db, cmd)
  {
    if cmd.SetStatus? {
      StatusKeepsPaid(db, cmd);
    } else if cmd.Edit? || cmd.Delete? {
      EditKeepsPaid(db, cmd);
    } else if !cmd.NewBooking? && !cmd.NewReturn? {
      CarrierKeepsPaid(db, cmd);
    } else {
      ShipWrites(db, cmd);
    }
  }

  /** At most one record is new: that of shipment k, for its own parties, not yet remitted. */
  predicate AddsOwn(db: Db, db': Db, k: Awb) {
    || db'.cods == db.cods
    || (k !in db.cods && k in db'.cods && k in db'.shipments && db'.cods == db.cods[k := db'.cods[k]]
        && db'.cods[k].stage.CodPending? && RecordFits(db'.cods[k], db'.shipments[k]))
  }

  lemma DeliverAddsOwn(db: Db, awb: Awb)
    requires awb in db.shipments && Deliver(db, awb, db.shipments[awb]).Ok?
    ensures AddsOwn(db, Deliver(db, awb, db.shipments[awb]).value, awb)
  {
  }

  lemma StatusAddsOwn(db: Db, awb: Awb, next: Status, c: Caller)
    requires UpdateStatus(db, awb, next, c).Ok?
    ensures AddsOwn(db, UpdateStatus(db, awb, next, c).value, awb)
  {
    StatusWrites(db, awb, next, c);
    if next == Delivered && db.shipments[awb].status != Delivered {
      DeliverAddsOwn(db, awb);
    }
  }

  lemma DeliveryRecords(db: Db, cmd: ShipCmd)
    requires cmd.SetStatus?
    ensures AddsOwn(db, StepShip(db, cmd), cmd.awb)
  {
    if UpdateStatus(db, cmd.awb, cmd.next, cmd.caller).Ok? {
      StatusAddsOwn(db, cmd.awb, cmd.next, cmd.caller);
    }
  }

  lemma RemitRecords(db: Db, cmd: ShipCmd)
    requires CodsOk(db) && cmd.Remit?
    ensures CodsOk(StepShip(db, cmd))
  {
    if RemitCod(db, cmd.awb, cmd.caller).Ok? {
      var db' := RemitCod(db, cmd.awb, cmd.caller).value;
      assert RecordFits(db.cods[cmd.awb], db.shipments[cmd.awb]);
      forall k | k in db'.cods
        ensures k in db'.shipments && RecordFits(db'.cods[k], db'.shipments[k])
      {
        if k != cmd.awb {
          assert RecordFits(db.cods[k], db.shipments[k]);
        }
      }
    }
  }

  lemma ShipCods(db: Db, cmd: ShipCmd)
    requires CodsOk(db)
    ensures CodsOk(StepShip(db, cmd))
  {
    if cmd.Remit? {
      RemitRecords(db, cmd);
    } else {
      var db' := StepShip(db, cmd);
      ShipWrites(db, cmd);
      OtherKeepsPaid(db, cmd);
      if cmd.SetStatus? {
        DeliveryRecords(db, cmd);
      }
      forall k | k in db'.cods
        ensures k in db'.shipments && RecordFits(db'.cods[k], db'.shipments[k])
      {
        if k in db.cods {
          assert RecordFits(db.cods[k], db.shipments[k]);
          WritesEvolve(db.shipments, db'.shipments, cmd.awb, k);
        }
      }
    }
  }

  lemma OtherCods(db: Db, db': Db)
    requires CodsOk(db) && db'.cods == db.cods && db'.shipments == db.shipments
    ensures CodsOk(db')
  {
  }

  lemma StepCods(db: Db, cmd: Cmd)
    requires Good(db) && CodsOk(db) && Plausible(cmd)
    ensures CodsOk(Step(db, cmd))
  {
    match cmd
    case Money(m) =>
      MoneyRecords(db, m);
      OtherCods(db, Step(db, cmd));
    case Pay(p) =>
      PayView(db, p);
      OtherCods(db, Step(db, cmd));
    case Contest(c) =>
      ContestView(db, c);
      OtherCods(db, Step(db, cmd));
    case Ship(s) => ShipCods(db, s);
  }

  /** Over every run, webhook resets, edits and second deliveries included, each COD record
      is that of its shipment's merchant and distributor, and a remitted one leaves the
      shipment paid out for good. */
  lemma {:induction false} RunCods(cmds: seq<Cmd>)
    requires AllPlausible(cmds)
    ensures CodsOk(Run(cmds))
  {
    if cmds != [] {
      RunCods(cmds[..|cmds| - 1]);
      RunGood(cmds[..|cmds| - 1]);
      StepCods(Run(cmds[..|cmds| - 1]), cmds[|cmds| - 1]);
    }
  }
}
