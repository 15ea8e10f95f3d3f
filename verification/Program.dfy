/** The commands of a run carried out by the imperative services on one store: every command
    is the transition of Runs with sessions, that of UnsessionedRuns without, so what holds
    after any run holds of the store. */
module Program {
  import opened Wrappers
  import opened Ledger
  import opened References
  import opened Services
  import opened Protocol
  import opened Runs
  import opened Guarantees
  import opened UnsessionedRuns
  import B = Backend

  method ExecuteMoney(store: B.Store, cmd: MoneyCmd)
    modifies store
    ensures store.supported == old(store.supported)
    ensures store.State() == if old(store.RollsBack()) then StepMoney(old(store.State()), cmd)
                             else KeptMoney(old(store.State()), cmd)
  {
    match cmd
    case NewWallet(u) => store.CreateWallet(u);
    case SetActive(u, a) => store.SetWalletActive(u, a);
    case TopUp(c, t, own, m, stamp) => var _ := store.TopupWallet(c, t, own, m, stamp);
    case SendFunds(c, t, own, m, stamp) => var _ := store.TransferToMerchant(c, t, own, m, stamp);
    case RefundByHand(c, u, m, stamp) => var _ := store.RefundWallet(c, u, m, stamp);
    case AskRefund(c, id, awb, m, d) => var _ := store.SubmitRefundRequest(c, id, awb, m, d);
    case DecideRefund(c, id, ok, note) => var _ := store.ProcessRefundRequest(c, id, ok, note);
    case NewSettlement(c, id, to, m, r) => var _ := store.CreateSettlement(c, id, to, m, r);
    case Settle(c, id, ok) => var _ := store.ProcessSettlement(c, id, ok);
  }

  method ExecutePay(store: B.Store, cmd: PayCmd)
    modifies store
    ensures store.supported == old(store.supported)
    ensures store.State() == if old(store.RollsBack()) then StepPay(old(store.State()), cmd)
                             else KeptPay(old(store.State()), cmd)
  {
    match cmd
    case NewOrder(c, o, id, m) => var _ := store.CreateOrder(c, o, id, m);
    case Verify(c, id, o, r, ok) => var _ := store.VerifyPayment(c, id, o, r, ok);
    case Captured(o, r) => var _ := store.PaymentCaptured(o, r);
    case Failed(o) => store.PaymentFailed(o);
    case RefundedByGateway(o, r) => store.RefundProcessed(o, r);
  }

  method ExecuteContest(store: B.Store, cmd: ContestCmd)
    modifies store
    ensures store.supported == old(store.supported)
    ensures store.State() == if old(store.RollsBack()) then StepContest(old(store.State()), cmd)
                             else KeptContest(old(store.State()), cmd)
  {
    match cmd
    case Raise(awb, x, c, now) => var _ := store.RaiseWeightDispute(awb, x, c, now);
    case Proof(awb, c) => var _ := store.SubmitDisputeProof(awb, c);
    case Resolve(awb, ok, c) => var _ := store.ResolveWeightDispute(awb, ok, c);
    case Expire(now, byListing) => store.ExpireDisputes(now, if byListing then Closed else Expired);
  }

  predicate IsBooking(cmd: ShipCmd) {
    cmd.NewBooking? || cmd.CarrierRefused? || cmd.CarrierAccepted? || cmd.NewReturn?
  }

  method ExecuteBooking(store: B.Store, cmd: ShipCmd)
    requires IsBooking(cmd)
    modifies store
    ensures store.supported == old(store.supported)
    ensures store.State() == if old(store.RollsBack()) then StepShip(old(store.State()), cmd)
                             else KeptShip(old(store.State()), cmd)
  {
    match cmd
    case NewBooking(awb, k) => var _ := store.OpenBooking(awb, k);
    case CarrierRefused(awb) => var _ := store.CompensateBooking(awb);
    case CarrierAccepted(awb, c) => var _ := store.CompleteBooking(awb, c);
    case NewReturn(awb, m, d, w, c) => var _ := store.StoreReturn(awb, m, d, w, c);
  }

  method ExecuteShip(store: B.Store, cmd: ShipCmd)
    modifies store
    ensures store.supported == old(store.supported)
    ensures store.State() == if old(store.RollsBack()) then StepShip(old(store.State()), cmd)
                             else KeptShip(old(store.State()), cmd)
  {
    match cmd
    case SetStatus(awb, next, c) => var _ := store.UpdateStatus(awb, next, c);
    case Delete(awb, c, ok) => var _ := store.DeleteShipment(awb, c, ok);
    case Edit(awb, c, e) => var _ := store.UpdateShipment(awb, c, e);
    case CarrierEvent(awb, e) => var _ := store.CarrierWebhook(awb, e);
    case Poll(awb, seen, next) => store.SavePolled(awb, seen, next);
    case Remit(awb, c) => var _ := store.RemitCod(awb, c);
    case _ => ExecuteBooking(store, cmd);
  }

  /** One command, in either mode the transition of the model, which keeps its invariants. */
  method Execute(store: B.Store, cmd: Cmd)
    modifies store
    ensures store.supported == old(store.supported)
    ensures store.State() == if old(store.RollsBack()) then Step(old(store.State()), cmd) else KeptStep(old(store.State()), cmd)
    ensures old(store.RollsBack() && Good(store.State())) && Plausible(cmd) ==> Good(store.State())
  {
    ghost var before := store.State();
    match cmd {
      case Money(m) => ExecuteMoney(store, m);
      case Pay(p) => ExecutePay(store, p);
      case Contest(c) => ExecuteContest(store, c);
      case Ship(s) => ExecuteShip(store, s);
    }
    if store.supported == Some(true) && Good(before) && Plausible(cmd) {
      StepGood(before, cmd);
    }
  }

  /** What a maintainer may rely on after any run: balances are the signed fold of the ledger
      and not negative, every leg has moved what its shipment and dispute say, every refund
      request its amount exactly when approved. */
  ghost predicate Guaranteed(db: Db) {
    && (forall u | u in db.books.wallets :: db.books.wallets[u].balance == Fold(db.books.ledger, u) >= 0)
    && (forall awb, leg | WfAwb(awb) :: LegMoved(db, awb, leg))
    && (forall id :: Movement(db.books.ledger, Text(ForRefundRequest(id))) ==
                     (if id in db.requests && db.requests[id].status == RequestApproved then db.requests[id].amount else 0))
  }

  lemma RunGuaranteed(cmds: seq<Cmd>)
    requires AllPlausible(cmds)
    ensures Guaranteed(Run(cmds))
  {
    forall u | u in Run(cmds).books.wallets
      ensures Run(cmds).books.wallets[u].balance == Fold(Run(cmds).books.ledger, u) >= 0
    {
      BalanceIsFold(cmds, u);
    }
    forall awb, leg | WfAwb(awb)
      ensures LegMoved(Run(cmds), awb, leg)
    {
      LegMovements(cmds, awb, leg);
    }
    forall id
      ensures Movement(Run(cmds).books.ledger, Text(ForRefundRequest(id))) ==
              (if id in Run(cmds).requests && Run(cmds).requests[id].status == RequestApproved
               then Run(cmds).requests[id].amount else 0)
    {
      RequestMoved(cmds, id);
    }
  }

  /** Also without sessions: balances are the signed fold of the ledger and not negative. */
  ghost predicate Balanced(db: Db) {
    forall u | u in db.books.wallets :: db.books.wallets[u].balance == Fold(db.books.ledger, u) >= 0
  }

  lemma KeptRunBalanced(cmds: seq<Cmd>)
    requires AllNonNegative(cmds)
    ensures Balanced(KeptRun(cmds))
  {
    KeptRunSound(cmds);
  }

  ghost function Served(topology: B.Topology, cmds: seq<Cmd>): Db {
    if topology.ReplicaSet? then Run(cmds) else KeptRun(cmds)
  }

  lemma ServedNext(topology: B.Topology, cmds: seq<Cmd>, i: nat)
    requires i < |cmds|
    ensures Served(topology, cmds[..i + 1]) ==
            if topology.ReplicaSet? then Step(Served(topology, cmds[..i]), cmds[i])
            else KeptStep(Served(topology, cmds[..i]), cmds[i])
  {
    assert cmds[..i + 1][..i] == cmds[..i];
  }

  /** A process on an empty database, serving any commands in turn. */
  method Serve(topology: B.Topology, cmds: seq<Cmd>) returns (store: B.Store)
    ensures fresh(store) && (store.RollsBack() <==> topology.ReplicaSet?)
    ensures store.State() == Served(topology, cmds)
    ensures topology.ReplicaSet? && AllPlausible(cmds) ==> Guaranteed(store.State())
    ensures topology.Single? && AllNonNegative(cmds) ==> Balanced(store.State())
  {
    store := new B.Store();
    var _ := store.CheckTransactionSupport(true, Some(topology));
    for i := 0 to |cmds|
      invariant fresh(store) && (store.RollsBack() <==> topology.ReplicaSet?)
      invariant store.State() == Served(topology, cmds[..i])
    {
      Execute(store, cmds[i]);
      ServedNext(topology, cmds, i);
    }
    assert cmds[..|cmds|] == cmds;
    if topology.ReplicaSet? && AllPlausible(cmds) {
      RunGuaranteed(cmds);
    }
    if topology.Single? && AllNonNegative(cmds) {
      KeptRunBalanced(cmds);
    }
  }
}
