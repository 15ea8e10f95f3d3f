/** What a posting does, said of wallets and rows alone: when it succeeds, whose balance moves
    which way and by how much, and what stays as it was. */
module Effects {
  import opened Wrappers
  import opened Ledger
  import opened References
  import opened Services
  import opened Protocol

  predicate Active(b: Books, u: UserId) {
    u in b.wallets && b.wallets[u].isActive
  }

  function BalanceOf(b: Books, u: UserId): int {
    if u in b.wallets then b.wallets[u].balance else 0
  }

  /** One wallet's balance and escrow move by the given amounts and one row tells of it; every
      other wallet and row is as it was. */
  predicate Posted(b: Books, b': Books, u: UserId, t: TxType, amount: int, toBalance: int, toEscrow: int, r: Ref) {
    && u in b.wallets
    && b'.wallets == b.wallets[u := Wallet(b.wallets[u].balance + toBalance, b.wallets[u].escrow + toEscrow, b.wallets[u].isActive)]
    && b'.ledger == b.ledger + [Row(u, t, amount, b.wallets[u].balance, b.wallets[u].balance + toBalance, Some(Text(r)))]
  }

  predicate Used(b: Books, r: Ref) {
    Seen(b, r).Some?
  }

  // ---- The money step ----

  /** What a type does to balance and escrow. */
  function ToBalance(t: TxType, amount: int): int {
    match t
    case Credit => amount
    case Topup => amount
    case Refund => amount
    case TransferCredit => amount
    case CodCredit => amount
    case Debit => -amount
    case Charge => -amount
    case Settlement => -amount
    case TransferDebit => -amount
    case DisputeCharge => -amount
    case RtoCharge => -amount
  }

  function ToEscrow(t: TxType, amount: int): int {
    if t.CodCredit? then -amount else 0
  }

  /** The step succeeds exactly for an active wallet, under a reference used before or with a
      positive amount that leaves neither balance nor escrow short; a used reference, if one is
      given, hands back its row and moves nothing, otherwise wallet and ledger tell the move. */
  lemma ApplyExactly(b: Books, c: Call)
    ensures var r := Apply(b, c);
            var seen := c.reference.Some? && c.reference.value != "" && Find(b.ledger, c.reference.value).Some?;
            var x, y := ToBalance(c.txType, c.amount), ToEscrow(c.txType, c.amount);
            && (r.Ok? <==> Active(b, c.user)
                           && (seen || (c.amount >= 1 && (x < 0 ==> b.wallets[c.user].balance + x >= 0)
                                        && (y < 0 ==> b.wallets[c.user].escrow + y >= 0))))
            && (r.Ok? && seen ==> r.value == Applied(b, Find(b.ledger, c.reference.value).value, true))
            && (r.Ok? && !seen ==>
                  var w := b.wallets[c.user];
                  var row := Row(c.user, c.txType, c.amount, w.balance, w.balance + x, c.reference);
                  r.value == Applied(Books(b.wallets[c.user := Wallet(w.balance + x, w.escrow + y, true)], b.ledger + [row]), row, false))
  {
  }

  // ---- One posting ----

  /** Top-ups, refunds and incoming transfers: an active wallet gains exactly the amount. */
  lemma CreditExactly(b: Books, u: UserId, t: TxType, amount: int, r: Ref)
    requires Text(r) != "" && t in {Credit, Topup, Refund, TransferCredit}
    ensures var p := Post(b, u, t, amount, r);
            && (p.Ok? <==> Active(b, u) && (Used(b, r) || amount >= 1))
            && (p.Ok? ==> if Used(b, r) then p.value == b else Posted(b, p.value, u, t, amount, amount, 0, r))
  {
  }

  /** Charges, settlements and outgoing transfers: an active wallet that has the amount loses it. */
  lemma DebitExactly(b: Books, u: UserId, t: TxType, amount: int, r: Ref)
    requires Text(r) != "" && t in {Debit, TxType.Charge, Settlement, TransferDebit, DisputeCharge, RtoCharge}
    ensures var p := Post(b, u, t, amount, r);
            && (p.Ok? <==> Active(b, u) && (Used(b, r) || (amount >= 1 && b.wallets[u].balance >= amount)))
            && (p.Ok? ==> if Used(b, r) then p.value == b else Posted(b, p.value, u, t, amount, -amount, 0, r))
  {
  }

  /** A remittance moves the amount from escrow to balance. */
  lemma ReleaseExactly(b: Books, u: UserId, amount: int, r: Ref)
    requires Text(r) != ""
    ensures var p := Post(b, u, TxType.CodCredit, amount, r);
            && (p.Ok? <==> Active(b, u) && (Used(b, r) || (amount >= 1 && b.wallets[u].escrow >= amount)))
            && (p.Ok? ==> if Used(b, r) then p.value == b else Posted(b, p.value, u, TxType.CodCredit, amount, amount, -amount, r))
  {
  }

  /** A posting shows its own reference and no other. */
  lemma PostedShows(b: Books, b': Books, u: UserId, t: TxType, amount: int, toBalance: int, toEscrow: int, r: Ref)
    requires Wf(r) && Posted(b, b', u, t, amount, toBalance, toEscrow, r) && !Used(b, r)
    ensures Used(b', r) && SeenExcept(b, b', r)
    ensures Seen(b', r).value.user == u && Seen(b', r).value.txType == t && Seen(b', r).value.amount == amount
  {
    var row := Row(u, t, amount, b.wallets[u].balance, b.wallets[u].balance + toBalance, Some(Text(r)));
    FindAppend(b.ledger, row, Text(r));
    forall q | Wf(q) && q != r
      ensures Seen(b', q) == Seen(b, q)
    {
      if Text(q) == Text(r) {
        TextInjective(q, r);
      }
      FindAppend(b.ledger, row, Text(q));
    }
  }

  // ---- Both legs of a shipment ----

  function Party(s: Shipment, leg: Leg): Option<UserId> {
    match leg
    case Merchant => Some(s.merchant)
    case Distributor => s.distributor
  }

  /** The leg is posted by this call: there is such a leg, its amount is not skipped, and its
      reference is new. */
  predicate Due(b: Books, s: Shipment, awb: Awb, e: Event, leg: Leg, amount: int, skipZero: bool) {
    Party(s, leg).Some? && (amount > 0 || !skipZero) && !Used(b, ForLeg(e, awb, leg))
  }

  function DueLeg(b: Books, s: Shipment, awb: Awb, e: Event, leg: Leg, amount: int, skipZero: bool, u: UserId): int {
    if Party(s, leg) == Some(u) && Due(b, s, awb, e, leg, amount, skipZero) then amount else 0
  }

  /** What the call posts to a user: the sum over the legs that are theirs. */
  function DueTo(b: Books, s: Shipment, awb: Awb, e: Event, m: int, d: int, skipZero: bool, u: UserId): int {
    DueLeg(b, s, awb, e, Leg.Merchant, m, skipZero, u) + DueLeg(b, s, awb, e, Leg.Distributor, d, skipZero, u)
  }

  function Gain(credit: bool, amount: int): int {
    if credit then amount else -amount
  }

  /** Every wallet's balance gained or lost what it was due; nothing else of it changed. */
  ghost predicate Moves(b: Books, b': Books, s: Shipment, awb: Awb, e: Event, m: int, d: int, skipZero: bool, credit: bool) {
    && b'.wallets.Keys == b.wallets.Keys
    && forall u | u in b.wallets ::
         b'.wallets[u] == b.wallets[u].(balance := b.wallets[u].balance + Gain(credit, DueTo(b, s, awb, e, m, d, skipZero, u)))
  }

  predicate ShownLeg(b: Books, b': Books, s: Shipment, awb: Awb, e: Event, t: TxType, leg: Leg, amount: int, skipZero: bool) {
    var r := ForLeg(e, awb, leg);
    if Due(b, s, awb, e, leg, amount, skipZero) then
      && Used(b', r) && Some(Seen(b', r).value.user) == Party(s, leg)
      && Seen(b', r).value.txType == t && Seen(b', r).value.amount == amount
    else Seen(b', r) == Seen(b, r)
  }

  /** Each leg that was called for has its row, new ones with the party, type and amount. */
  ghost predicate Rows(b: Books, b': Books, s: Shipment, awb: Awb, e: Event, t: TxType, m: int, d: int, skipZero: bool) {
    && SeenExceptLegs(b, b', e, awb)
    && ShownLeg(b, b', s, awb, e, t, Leg.Merchant, m, skipZero)
    && ShownLeg(b, b', s, awb, e, t, Leg.Distributor, d, skipZero)
  }

  predicate Called(s: Shipment, leg: Leg, amount: int, skipZero: bool) {
    Party(s, leg).Some? && (amount > 0 || !skipZero)
  }

  /** The call of one leg, or nothing if it is not called for. */
  function LegCall(b: Books, s: Shipment, awb: Awb, e: Event, t: TxType, leg: Leg, amount: int, skipZero: bool): Result<Books, Error> {
    if Called(s, leg, amount, skipZero) then Post(b, Party(s, leg).value, t, amount, ForLeg(e, awb, leg)) else Ok(b)
  }

  lemma LegsInTurn(b: Books, s: Shipment, awb: Awb, e: Event, t: TxType, m: int, d: int, skipZero: bool)
    ensures var first := LegCall(b, s, awb, e, t, Leg.Merchant, m, skipZero);
            PostLegs(b, s, awb, e, t, m, d, skipZero) ==
            if first.Err? then first else LegCall(first.value, s, awb, e, t, Leg.Distributor, d, skipZero)
  {
  }

  predicate LegMade(b: Books, b': Books, s: Shipment, awb: Awb, e: Event, t: TxType, leg: Leg, amount: int, toBalance: int, skipZero: bool) {
    if Due(b, s, awb, e, leg, amount, skipZero)
    then Posted(b, b', Party(s, leg).value, t, amount, toBalance, 0, ForLeg(e, awb, leg)) else b' == b
  }

  /** Every wallet's balance moved by the amount given for it. */
  ghost predicate MovedBy(b: Books, b': Books, change: UserId -> int) {
    && b'.wallets.Keys == b.wallets.Keys
    && forall u | u in b.wallets :: b'.wallets[u] == b.wallets[u].(balance := b.wallets[u].balance + change(u))
  }

  lemma LegMoves(b: Books, b': Books, s: Shipment, awb: Awb, e: Event, t: TxType, leg: Leg, amount: int, skipZero: bool, credit: bool)
    requires LegMade(b, b', s, awb, e, t, leg, amount, Gain(credit, amount), skipZero)
    ensures MovedBy(b, b', u => Gain(credit, DueLeg(b, s, awb, e, leg, amount, skipZero, u)))
  {
  }

  lemma MovesAdd(b: Books, b1: Books, b2: Books, f: UserId -> int, g: UserId -> int)
    requires MovedBy(b, b1, f) && MovedBy(b1, b2, g)
    ensures MovedBy(b, b2, u => f(u) + g(u))
  {
  }

  lemma BothLegsMove(b: Books, b1: Books, b2: Books, s: Shipment, awb: Awb, e: Event, t: TxType, m: int, d: int, skipZero: bool, credit: bool)
    requires LegMade(b, b1, s, awb, e, t, Leg.Merchant, m, Gain(credit, m), skipZero)
    requires LegMade(b1, b2, s, awb, e, t, Leg.Distributor, d, Gain(credit, d), skipZero)
    requires Seen(b1, ForLeg(e, awb, Leg.Distributor)) == Seen(b, ForLeg(e, awb, Leg.Distributor))
    ensures Moves(b, b2, s, awb, e, m, d, skipZero, credit)
  {
    LegMoves(b, b1, s, awb, e, t, Leg.Merchant, m, skipZero, credit);
    LegMoves(b1, b2, s, awb, e, t, Leg.Distributor, d, skipZero, credit);
    var f := u => Gain(credit, DueLeg(b, s, awb, e, Leg.Merchant, m, skipZero, u));
    var g := u => Gain(credit, DueLeg(b1, s, awb, e, Leg.Distributor, d, skipZero, u));
    MovesAdd(b, b1, b2, f, g);
    forall u | u in b.wallets
      ensures b2.wallets[u] == b.wallets[u].(balance := b.wallets[u].balance + Gain(credit, DueTo(b, s, awb, e, m, d, skipZero, u)))
    {
      assert f(u) + g(u) == Gain(credit, DueTo(b, s, awb, e, m, d, skipZero, u));
    }
  }

  lemma BothLegsShown(b: Books, b1: Books, b2: Books, s: Shipment, awb: Awb, e: Event, t: TxType, m: int, d: int, skipZero: bool)
    requires SeenExcept(b, b1, ForLeg(e, awb, Leg.Merchant)) && ShownLeg(b, b1, s, awb, e, t, Leg.Merchant, m, skipZero)
    requires SeenExcept(b1, b2, ForLeg(e, awb, Leg.Distributor)) && ShownLeg(b1, b2, s, awb, e, t, Leg.Distributor, d, skipZero)
    requires Seen(b1, ForLeg(e, awb, Leg.Distributor)) == Seen(b, ForLeg(e, awb, Leg.Distributor))
    requires Seen(b2, ForLeg(e, awb, Leg.Merchant)) == Seen(b1, ForLeg(e, awb, Leg.Merchant))
    ensures Rows(b, b2, s, awb, e, t, m, d, skipZero)
  {
  }

  lemma BothLegsMade(b: Books, b1: Books, b2: Books, s: Shipment, awb: Awb, e: Event, t: TxType, m: int, d: int, skipZero: bool, credit: bool)
    requires WfAwb(awb)
    requires LegMade(b, b1, s, awb, e, t, Leg.Merchant, m, Gain(credit, m), skipZero)
    requires LegMade(b1, b2, s, awb, e, t, Leg.Distributor, d, Gain(credit, d), skipZero)
    ensures Moves(b, b2, s, awb, e, m, d, skipZero, credit) && Rows(b, b2, s, awb, e, t, m, d, skipZero)
  {
    MerchantShown(b, b1, s, awb, e, t, m, Gain(credit, m), skipZero);
    DistributorShown(b1, b2, s, awb, e, t, d, Gain(credit, d), skipZero);
    BothLegsMove(b, b1, b2, s, awb, e, t, m, d, skipZero, credit);
    BothLegsShown(b, b1, b2, s, awb, e, t, m, d, skipZero);
  }

  lemma MerchantShown(b: Books, b1: Books, s: Shipment, awb: Awb, e: Event, t: TxType, m: int, toBalance: int, skipZero: bool)
    requires WfAwb(awb) && LegMade(b, b1, s, awb, e, t, Leg.Merchant, m, toBalance, skipZero)
    ensures SeenExcept(b, b1, ForLeg(e, awb, Leg.Merchant)) && Seen(b1, ForLeg(e, awb, Leg.Distributor)) == Seen(b, ForLeg(e, awb, Leg.Distributor))
    ensures ShownLeg(b, b1, s, awb, e, t, Leg.Merchant, m, skipZero)
  {
    if Due(b, s, awb, e, Leg.Merchant, m, skipZero) {
      PostedShows(b, b1, s.merchant, t, m, toBalance, 0, ForLeg(e, awb, Leg.Merchant));
    }
  }

  lemma DistributorShown(b: Books, b1: Books, s: Shipment, awb: Awb, e: Event, t: TxType, d: int, toBalance: int, skipZero: bool)
    requires WfAwb(awb) && LegMade(b, b1, s, awb, e, t, Leg.Distributor, d, toBalance, skipZero)
    ensures SeenExcept(b, b1, ForLeg(e, awb, Leg.Distributor)) && Seen(b1, ForLeg(e, awb, Leg.Merchant)) == Seen(b, ForLeg(e, awb, Leg.Merchant))
    ensures ShownLeg(b, b1, s, awb, e, t, Leg.Distributor, d, skipZero)
  {
    if Due(b, s, awb, e, Leg.Distributor, d, skipZero) {
      PostedShows(b, b1, s.distributor.value, t, d, toBalance, 0, ForLeg(e, awb, Leg.Distributor));
    }
  }

  /** The call of a leg goes through. */
  predicate Granted(b: Books, s: Shipment, awb: Awb, e: Event, leg: Leg, amount: int, skipZero: bool) {
    Called(s, leg, amount, skipZero) ==>
      Active(b, Party(s, leg).value) && (Used(b, ForLeg(e, awb, leg)) || amount >= 1)
  }

  /** ... and has the money, for a charge: what the merchant's leg took before is gone. */
  predicate Afforded(b: Books, s: Shipment, awb: Awb, e: Event, m: int, d: int, skipZero: bool) {
    && (Due(b, s, awb, e, Leg.Merchant, m, skipZero) ==> BalanceOf(b, s.merchant) >= m)
    && (Due(b, s, awb, e, Leg.Distributor, d, skipZero) ==>
          BalanceOf(b, s.distributor.value)
          - (if s.distributor == Some(s.merchant) && Due(b, s, awb, e, Leg.Merchant, m, skipZero) then m else 0) >= d)
  }

  lemma CreditLeg(b: Books, s: Shipment, awb: Awb, e: Event, leg: Leg, amount: int, skipZero: bool)
    requires WfAwb(awb)
    ensures var p := LegCall(b, s, awb, e, TxType.Refund, leg, amount, skipZero);
            && (p.Ok? <==> Granted(b, s, awb, e, leg, amount, skipZero))
            && (p.Ok? ==> LegMade(b, p.value, s, awb, e, TxType.Refund, leg, amount, amount, skipZero))
  {
    if Called(s, leg, amount, skipZero) {
      CreditExactly(b, Party(s, leg).value, TxType.Refund, amount, ForLeg(e, awb, leg));
    }
  }

  lemma DebitLeg(b: Books, s: Shipment, awb: Awb, e: Event, t: TxType, leg: Leg, amount: int, skipZero: bool)
    requires WfAwb(awb) && t in {TxType.Charge, DisputeCharge, RtoCharge}
    ensures var p := LegCall(b, s, awb, e, t, leg, amount, skipZero);
            && (p.Ok? <==> Granted(b, s, awb, e, leg, amount, skipZero)
                           && (Due(b, s, awb, e, leg, amount, skipZero) ==> BalanceOf(b, Party(s, leg).value) >= amount))
            && (p.Ok? ==> LegMade(b, p.value, s, awb, e, t, leg, amount, -amount, skipZero))
  {
    if Called(s, leg, amount, skipZero) {
      DebitExactly(b, Party(s, leg).value, t, amount, ForLeg(e, awb, leg));
    }
  }

  /** Refunding the legs of a shipment succeeds exactly when every leg called for can be
      credited or was before, and credits each new one to its party. */
  lemma CreditLegs(b: Books, s: Shipment, awb: Awb, e: Event, m: int, d: int, skipZero: bool)
    requires WfAwb(awb)
    ensures var p := PostLegs(b, s, awb, e, TxType.Refund, m, d, skipZero);
            && (p.Ok? <==> Granted(b, s, awb, e, Leg.Merchant, m, skipZero) && Granted(b, s, awb, e, Leg.Distributor, d, skipZero))
            && (p.Ok? ==> Moves(b, p.value, s, awb, e, m, d, skipZero, true) && Rows(b, p.value, s, awb, e, TxType.Refund, m, d, skipZero))
  {
    LegsInTurn(b, s, awb, e, TxType.Refund, m, d, skipZero);
    CreditLeg(b, s, awb, e, Leg.Merchant, m, skipZero);
    var first := LegCall(b, s, awb, e, TxType.Refund, Leg.Merchant, m, skipZero);
    if first.Ok? {
      var b1 := first.value;
      MerchantShown(b, b1, s, awb, e, TxType.Refund, m, m, skipZero);
      CreditLeg(b1, s, awb, e, Leg.Distributor, d, skipZero);
      assert Granted(b1, s, awb, e, Leg.Distributor, d, skipZero) <==> Granted(b, s, awb, e, Leg.Distributor, d, skipZero);
      var second := LegCall(b1, s, awb, e, TxType.Refund, Leg.Distributor, d, skipZero);
      if second.Ok? {
        BothLegsMade(b, b1, second.value, s, awb, e, TxType.Refund, m, d, skipZero, true);
      }
    }
  }

  /** Charging them needs the money as well. */
  lemma DebitLegs(b: Books, s: Shipment, awb: Awb, e: Event, t: TxType, m: int, d: int, skipZero: bool)
    requires WfAwb(awb) && t in {TxType.Charge, DisputeCharge, RtoCharge}
    ensures var p := PostLegs(b, s, awb, e, t, m, d, skipZero);
            && (p.Ok? <==> Granted(b, s, awb, e, Leg.Merchant, m, skipZero) && Granted(b, s, awb, e, Leg.Distributor, d, skipZero)
                           && Afforded(b, s, awb, e, m, d, skipZero))
            && (p.Ok? ==> Moves(b, p.value, s, awb, e, m, d, skipZero, false) && Rows(b, p.value, s, awb, e, t, m, d, skipZero))
  {
    LegsInTurn(b, s, awb, e, t, m, d, skipZero);
    DebitLeg(b, s, awb, e, t, Leg.Merchant, m, skipZero);
    var first := LegCall(b, s, awb, e, t, Leg.Merchant, m, skipZero);
    if first.Ok? {
      var b1 := first.value;
      MerchantShown(b, b1, s, awb, e, t, m, -m, skipZero);
      DebitLeg(b1, s, awb, e, t, Leg.Distributor, d, skipZero);
      assert Granted(b1, s, awb, e, Leg.Distributor, d, skipZero) <==> Granted(b, s, awb, e, Leg.Distributor, d, skipZero);
      var second := LegCall(b1, s, awb, e, t, Leg.Distributor, d, skipZero);
      if second.Ok? {
        BothLegsMade(b, b1, second.value, s, awb, e, t, m, d, skipZero, false);
      }
    }
  }
}
