/** What every service keeps: each shipment leg's postings, the escrow equation, the
    Razorpay payments and the refund requests, service by service. */
module Protocol {
  import opened Wrappers
  import opened Ledger
  import opened References
  import opened Services

  // ---- The ledger as seen through references ----

  function Seen(b: Books, r: Ref): Option<Row> {
    Find(b.ledger, Text(r))
  }

  /** Signed amount of the row carrying a reference, 0 without one. */
  function Net(b: Books, r: Ref): int {
    match Seen(b, r)
    case None => 0
    case Some(row) => Signed(row.txType, row.amount)
  }

  /** A step that keeps the books sound and the set of wallets. */
  ghost predicate Lawful(b: Books, b': Books) {
    && (Sound(b) ==> Sound(b'))
    && b.wallets.Keys <= b'.wallets.Keys
  }

  ghost predicate SameEscrow(b: Books, b': Books) {
    && b'.wallets.Keys == b.wallets.Keys
    && forall u | u in b.wallets ::
         b'.wallets[u].escrow == b.wallets[u].escrow && b'.wallets[u].isActive == b.wallets[u].isActive
  }

  /** Only rows of one reference may be new. */
  ghost predicate SeenExcept(b: Books, b': Books, r: Ref) {
    forall q | Wf(q) && q != r :: Seen(b', q) == Seen(b, q)
  }

  /** Only the legs of one event of one shipment may be new. */
  ghost predicate SeenExceptLegs(b: Books, b': Books, e: Event, awb: Awb) {
    forall q | Wf(q) && !(q.ForLeg? && q.event == e && q.awb == awb) :: Seen(b', q) == Seen(b, q)
  }

  lemma TextNonEmpty(r: Ref)
    requires Wf(r)
    ensures Text(r) != ""
  {
  }

  lemma PostView(b: Books, user: UserId, t: TxType, amount: int, r: Ref)
    requires Wf(r) && Post(b, user, t, amount, r).Ok?
    ensures var b' := Post(b, user, t, amount, r).value;
            && Lawful(b, b') && SeenExcept(b, b', r)
            && b'.wallets.Keys == b.wallets.Keys && (!t.CodCredit? ==> SameEscrow(b, b'))
            && Seen(b', r).Some?
            && (Seen(b, r).Some? ==> b' == b)
            && (Seen(b, r).None? ==>
                  && amount >= 1
                  && Seen(b', r).value.user == user && Seen(b', r).value.txType == t && Seen(b', r).value.amount == amount)
  {
    var c := Call(user, t, amount, Some(Text(r)));
    var b' := Post(b, user, t, amount, r).value;
    TextNonEmpty(r);
    if Sound(b) {
      ApplySound(b, c);
    }
    ApplyFinds(b, c, Text(r));
    forall q | Wf(q) && q != r
      ensures Seen(b', q) == Seen(b, q)
    {
      TextNonEmpty(q);
      if Text(q) == Text(r) {
        TextInjective(q, r);
      }
      ApplyFinds(b, c, Text(q));
    }
  }

  /** What a leg looks like after its event was posted (or skipped for a zero amount). */
  ghost predicate LegPosted(b: Books, b': Books, s: Shipment, r: Ref, t: TxType, amount: int, skipZero: bool)
    requires r.ForLeg?
  {
    if HasLeg(s, r.leg) && (amount > 0 || !skipZero) then
      && Seen(b', r).Some?
      && (Seen(b, r).Some? ==> Seen(b', r) == Seen(b, r))
      && (Seen(b, r).None? ==> amount >= 1 && Net(b', r) == Signed(t, amount))
    else Seen(b', r) == Seen(b, r)
  }

  lemma PostLegsView(b: Books, s: Shipment, awb: Awb, e: Event, t: TxType, m: int, d: int, skipZero: bool)
    requires WfAwb(awb) && !t.CodCredit? && PostLegs(b, s, awb, e, t, m, d, skipZero).Ok?
    ensures var b' := PostLegs(b, s, awb, e, t, m, d, skipZero).value;
            && Lawful(b, b') && SameEscrow(b, b') && SeenExceptLegs(b, b', e, awb)
            && LegPosted(b, b', s, ForLeg(e, awb, Leg.Merchant), t, m, skipZero)
            && LegPosted(b, b', s, ForLeg(e, awb, Leg.Distributor), t, d, skipZero)
  {
    var rm, rd := ForLeg(e, awb, Leg.Merchant), ForLeg(e, awb, Leg.Distributor);
    var b1 := if m > 0 || !skipZero then Post(b, s.merchant, t, m, rm).value else b;
    if m > 0 || !skipZero {
      PostView(b, s.merchant, t, m, rm);
    }
    if s.distributor.Some? && (d > 0 || !skipZero) {
      PostView(b1, s.distributor.value, t, d, rd);
    }
  }

  // ---- Shipment legs ----

  function Cost(s: Shipment, leg: Leg): int {
    match leg
    case Merchant => s.merchantCost
    case Distributor => s.distributorCost
  }

  /** A leg's postings, given its shipment and dispute if any: no shipment or no such
      leg, no rows; otherwise the charge is the cost, a refund returns the cost, an RTO
      charge is 40 rupees, a dispute charges its extra and its approval returns it. */
  ghost predicate LegOk(b: Books, s: Option<Shipment>, d: Option<Dispute>, awb: Awb, leg: Leg) {
    if s.None? || !HasLeg(s.value, leg) then
      forall e: Event :: Seen(b, ForLeg(e, awb, leg)).None?
    else
      var cost := Cost(s.value, leg);
      && cost >= 0
      && Net(b, ForLeg(Charged, awb, leg)) == -cost
      && (Seen(b, ForLeg(Refunded, awb, leg)).Some? ==> Net(b, ForLeg(Refunded, awb, leg)) == cost)
      && (Seen(b, ForLeg(ReturnedToOrigin, awb, leg)).Some? ==>
            Net(b, ForLeg(ReturnedToOrigin, awb, leg)) == -RTO_CHARGE)
      && (d.None? ==> Seen(b, ForLeg(Disputed, awb, leg)).None? && Seen(b, ForLeg(Reversed, awb, leg)).None?)
      && (d.Some? ==>
            && d.value.extra >= 1
            && Net(b, ForLeg(Disputed, awb, leg)) == -d.value.extra
            && (Seen(b, ForLeg(Reversed, awb, leg)).Some? <==> d.value.status == Approved)
            && (Seen(b, ForLeg(Reversed, awb, leg)).Some? ==>
                  Net(b, ForLeg(Reversed, awb, leg)) == d.value.extra))
  }

  function Get<T>(m: map<string, T>, k: string): Option<T> {
    if k in m then Some(m[k]) else None
  }

  ghost predicate LegsOk(db: Db) {
    && (forall awb | awb in db.shipments :: WfAwb(awb))
    && (forall awb | awb in db.disputes :: awb in db.shipments)
    && (forall awb, leg | WfAwb(awb) ::
          LegOk(db.books, Get(db.shipments, awb), Get(db.disputes, awb), awb, leg))
  }

  predicate SameMoney(s: Shipment, s': Shipment) {
    s'.distributor == s.distributor && s'.merchantCost == s.merchantCost && s'.distributorCost == s.distributorCost
  }

  lemma LegFrame(b: Books, b': Books, s: Option<Shipment>, s': Option<Shipment>,
                 d: Option<Dispute>, d': Option<Dispute>, awb: Awb, leg: Leg)
    requires LegOk(b, s, d, awb, leg)
    requires forall e: Event :: Seen(b', ForLeg(e, awb, leg)) == Seen(b, ForLeg(e, awb, leg))
    requires s.Some? == s'.Some? && (s.Some? ==> SameMoney(s.value, s'.value))
    requires d.Some? == d'.Some?
    requires d.Some? ==> d'.value.extra == d.value.extra && (d'.value.status == Approved <==> d.value.status == Approved)
    ensures LegOk(b', s', d', awb, leg)
  {
  }

  /** Steps that post no leg rows and change no cost or dispute verdict. */
  lemma LegsFrame(db: Db, db': Db)
    requires LegsOk(db)
    requires forall e: Event, awb, leg | WfAwb(awb) ::
               Seen(db'.books, ForLeg(e, awb, leg)) == Seen(db.books, ForLeg(e, awb, leg))
    requires db'.shipments.Keys == db.shipments.Keys
    requires forall k | k in db.shipments :: SameMoney(db.shipments[k], db'.shipments[k])
    requires db'.disputes.Keys == db.disputes.Keys
    requires forall k | k in db.disputes ::
               db'.disputes[k].extra == db.disputes[k].extra
               && (db'.disputes[k].status == Approved <==> db.disputes[k].status == Approved)
    ensures LegsOk(db')
  {
    forall awb, leg | WfAwb(awb)
      ensures LegOk(db'.books, Get(db'.shipments, awb), Get(db'.disputes, awb), awb, leg)
    {
      LegFrame(db.books, db'.books, Get(db.shipments, awb), Get(db'.shipments, awb),
               Get(db.disputes, awb), Get(db'.disputes, awb), awb, leg);
    }
  }

  /** Steps that post one event's legs for one shipment: the other shipments are framed,
      the one concerned is the caller's business. */
  lemma LegsStep(db: Db, db': Db, e: Event, awb: Awb)
    requires LegsOk(db) && WfAwb(awb) && SeenExceptLegs(db.books, db'.books, e, awb)
    requires db'.shipments.Keys == db.shipments.Keys + {awb}
    requires db'.disputes.Keys <= db.disputes.Keys + {awb} && db.disputes.Keys <= db'.disputes.Keys
    requires forall k | k in db.shipments && k != awb :: db'.shipments[k] == db.shipments[k]
    requires forall k | k in db.disputes && k != awb :: db'.disputes[k] == db.disputes[k]
    requires forall leg :: LegOk(db'.books, Get(db'.shipments, awb), Get(db'.disputes, awb), awb, leg)
    ensures LegsOk(db')
  {
    forall a, leg | WfAwb(a)
      ensures LegOk(db'.books, Get(db'.shipments, a), Get(db'.disputes, a), a, leg)
    {
      if a != awb {
        LegFrame(db.books, db'.books, Get(db.shipments, a), Get(db'.shipments, a),
                 Get(db.disputes, a), Get(db'.disputes, a), a, leg);
      }
    }
  }

  /** The rows of the other events of a leg are as they were. */
  lemma OtherEvents(b: Books, b': Books, e: Event, awb: Awb, leg: Leg)
    requires SeenExceptLegs(b, b', e, awb) && WfAwb(awb)
    ensures forall f: Event | f != e :: Seen(b', ForLeg(f, awb, leg)) == Seen(b, ForLeg(f, awb, leg))
  {
  }

  lemma ChargedLeg(b: Books, b': Books, s: Shipment, awb: Awb, leg: Leg)
    requires LegOk(b, None, None, awb, leg) && SeenExceptLegs(b, b', Charged, awb) && WfAwb(awb)
    requires LegPosted(b, b', s, ForLeg(Charged, awb, leg), TxType.Charge, Cost(s, leg), false)
    ensures LegOk(b', Some(s), None, awb, leg)
  {
    OtherEvents(b, b', Charged, awb, leg);
  }

  lemma RefundedLeg(b: Books, b': Books, s: Shipment, s': Shipment, d: Option<Dispute>, awb: Awb, leg: Leg, skipZero: bool)
    requires LegOk(b, Some(s), d, awb, leg) && SameMoney(s, s') && SeenExceptLegs(b, b', Refunded, awb) && WfAwb(awb)
    requires LegPosted(b, b', s, ForLeg(Refunded, awb, leg), TxType.Refund, Cost(s, leg), skipZero)
    ensures LegOk(b', Some(s'), d, awb, leg)
  {
    OtherEvents(b, b', Refunded, awb, leg);
  }

  lemma ReturnedLeg(b: Books, b': Books, s: Shipment, s': Shipment, d: Option<Dispute>, awb: Awb, leg: Leg)
    requires LegOk(b, Some(s), d, awb, leg) && SameMoney(s, s') && SeenExceptLegs(b, b', ReturnedToOrigin, awb) && WfAwb(awb)
    requires LegPosted(b, b', s, ForLeg(ReturnedToOrigin, awb, leg), TxType.RtoCharge, RTO_CHARGE, false)
    ensures LegOk(b', Some(s'), d, awb, leg)
  {
    OtherEvents(b, b', ReturnedToOrigin, awb, leg);
  }

  lemma DisputedLeg(b: Books, b': Books, s: Shipment, d: Dispute, awb: Awb, leg: Leg)
    requires LegOk(b, Some(s), None, awb, leg) && d.extra >= 1 && d.status == Open
    requires SeenExceptLegs(b, b', Disputed, awb) && WfAwb(awb)
    requires LegPosted(b, b', s, ForLeg(Disputed, awb, leg), TxType.DisputeCharge, d.extra, false)
    ensures LegOk(b', Some(s), Some(d), awb, leg)
  {
    OtherEvents(b, b', Disputed, awb, leg);
  }

  lemma ApprovedLeg(b: Books, b': Books, s: Shipment, d: Dispute, awb: Awb, leg: Leg)
    requires LegOk(b, Some(s), Some(d), awb, leg) && d.status != Approved
    requires LegPosted(b, b', s, ForLeg(Reversed, awb, leg), TxType.Refund, d.extra, false)
    requires SeenExceptLegs(b, b', Reversed, awb) && WfAwb(awb)
    ensures LegOk(b', Some(s), Some(d.(status := Approved)), awb, leg)
  {
    OtherEvents(b, b', Reversed, awb, leg);
  }

  lemma BookLegs(db: Db, awb: Awb, k: Booking)
    requires LegsOk(db) && WfAwb(awb) && Book(db, awb, k).Ok?
    ensures LegsOk(Book(db, awb, k).value)
  {
    var s := Draft(k);
    PostLegsView(db.books, s, awb, Charged, TxType.Charge, k.merchantCost, k.distributorCost, false);
    var db' := Book(db, awb, k).value;
    assert Get(db.shipments, awb) == None && Get(db.disputes, awb) == None;
    assert Get(db'.shipments, awb) == Some(s) && Get(db'.disputes, awb) == None;
    forall leg
      ensures LegOk(db'.books, Some(s), None, awb, leg)
    {
      assert LegOk(db.books, Get(db.shipments, awb), Get(db.disputes, awb), awb, leg);
      ChargedLeg(db.books, db'.books, s, awb, leg);
    }
    LegsStep(db, db', Charged, awb);
  }

  lemma RefundLegs(db: Db, awb: Awb, s: Shipment, b': Books, s': Shipment, skipZero: bool)
    requires LegsOk(db) && awb in db.shipments && db.shipments[awb] == s && SameMoney(s, s')
    requires PostLegs(db.books, s, awb, Refunded, TxType.Refund, s.merchantCost, s.distributorCost, skipZero) == Ok(b')
    ensures LegsOk(db.(books := b', shipments := db.shipments[awb := s']))
  {
    PostLegsView(db.books, s, awb, Refunded, TxType.Refund, s.merchantCost, s.distributorCost, skipZero);
    var db' := db.(books := b', shipments := db.shipments[awb := s']);
    assert Get(db.shipments, awb) == Some(s) && Get(db'.shipments, awb) == Some(s');
    forall leg
      ensures LegOk(b', Some(s'), Get(db'.disputes, awb), awb, leg)
    {
      assert LegOk(db.books, Get(db.shipments, awb), Get(db.disputes, awb), awb, leg);
      RefundedLeg(db.books, b', s, s', Get(db.disputes, awb), awb, leg, skipZero);
    }
    LegsStep(db, db', Refunded, awb);
  }

  lemma RtoLegs(db: Db, awb: Awb)
    requires LegsOk(db) && awb in db.shipments && ReturnToOrigin(db, awb, db.shipments[awb]).Ok?
    ensures LegsOk(ReturnToOrigin(db, awb, db.shipments[awb]).value)
  {
    var s := db.shipments[awb];
    PostLegsView(db.books, s, awb, ReturnedToOrigin, TxType.RtoCharge, RTO_CHARGE, RTO_CHARGE, false);
    var db' := ReturnToOrigin(db, awb, s).value;
    var s' := WithStatus(s, Rto);
    assert Get(db.shipments, awb) == Some(s) && Get(db'.shipments, awb) == Some(s');
    forall leg
      ensures LegOk(db'.books, Some(s'), Get(db'.disputes, awb), awb, leg)
    {
      assert LegOk(db.books, Get(db.shipments, awb), Get(db.disputes, awb), awb, leg);
      ReturnedLeg(db.books, db'.books, s, s', Get(db.disputes, awb), awb, leg);
    }
    LegsStep(db, db', ReturnedToOrigin, awb);
  }

  lemma DisputePosts(db: Db, awb: Awb, s: Shipment, extra: int, b': Books)
    requires LegsOk(db) && Get(db.shipments, awb) == Some(s) && Get(db.disputes, awb) == None
    requires PostLegs(db.books, s, awb, Disputed, TxType.DisputeCharge, extra, extra, false) == Ok(b')
    ensures extra >= 1
  {
    PostLegsView(db.books, s, awb, Disputed, TxType.DisputeCharge, extra, extra, false);
    assert LegOk(db.books, Get(db.shipments, awb), Get(db.disputes, awb), awb, Leg.Merchant);
  }

  lemma DisputeLegs(db: Db, awb: Awb, s: Shipment, d: Dispute, b': Books)
    requires LegsOk(db) && Get(db.shipments, awb) == Some(s) && Get(db.disputes, awb) == None && d.status == Open
    requires PostLegs(db.books, s, awb, Disputed, TxType.DisputeCharge, d.extra, d.extra, false) == Ok(b')
    ensures LegsOk(db.(books := b', disputes := db.disputes[awb := d]))
  {
    DisputePosts(db, awb, s, d.extra, b');
    PostLegsView(db.books, s, awb, Disputed, TxType.DisputeCharge, d.extra, d.extra, false);
    forall leg
      ensures LegOk(b', Some(s), Some(d), awb, leg)
    {
      assert LegOk(db.books, Get(db.shipments, awb), Get(db.disputes, awb), awb, leg);
      DisputedLeg(db.books, b', s, d, awb, leg);
    }
    LegsStep(db, db.(books := b', disputes := db.disputes[awb := d]), Disputed, awb);
  }

  lemma RaiseLegs(db: Db, awb: Awb, extra: int, caller: Caller, now: int)
    requires LegsOk(db) && RaiseDispute(db, awb, extra, caller, now).Ok?
    ensures LegsOk(RaiseDispute(db, awb, extra, caller, now).value)
  {
    DisputeLegs(db, awb, db.shipments[awb], Dispute(extra, Open, now + DISPUTE_WINDOW_MS),
                RaiseDispute(db, awb, extra, caller, now).value.books);
  }

  lemma ApproveLegs(db: Db, awb: Awb, caller: Caller)
    requires LegsOk(db) && ResolveDispute(db, awb, true, caller).Ok?
    ensures LegsOk(ResolveDispute(db, awb, true, caller).value)
  {
    var s, d := db.shipments[awb], db.disputes[awb];
    var db' := ResolveDispute(db, awb, true, caller).value;
    PostLegsView(db.books, s, awb, Reversed, TxType.Refund, d.extra, d.extra, false);
    assert Get(db.shipments, awb) == Some(s) == Get(db'.shipments, awb);
    assert Get(db.disputes, awb) == Some(d) && Get(db'.disputes, awb) == Some(d.(status := Approved));
    forall leg
      ensures LegOk(db'.books, Some(s), Some(d.(status := Approved)), awb, leg)
    {
      assert LegOk(db.books, Get(db.shipments, awb), Get(db.disputes, awb), awb, leg);
      ApprovedLeg(db.books, db'.books, s, d, awb, leg);
    }
    LegsStep(db, db', Reversed, awb);
  }

  lemma ResolveLegs(db: Db, awb: Awb, approve: bool, caller: Caller)
    requires LegsOk(db) && ResolveDispute(db, awb, approve, caller).Ok?
    ensures LegsOk(ResolveDispute(db, awb, approve, caller).value)
  {
    if approve {
      ApproveLegs(db, awb, caller);
    } else {
      LegsFrame(db, ResolveDispute(db, awb, false, caller).value);
    }
  }

  // ---- Booking saga: which shipments are refunded ----

  /** Cancelled shipments have had both charged legs refunded, the others none. */
  ghost predicate SagaOk(b: Books, awb: Awb, s: Shipment) {
    forall leg | HasLeg(s, leg) && Cost(s, leg) > 0 ::
      Seen(b, ForLeg(Refunded, awb, leg)).Some? <==> s.status == Cancelled
  }

  /** The two sides of the CANCELLED boundary. */
  predicate Crosses(s: Status, next: Status) {
    s != next && (s == Cancelled || next == Cancelled)
  }

  /** A status written without money keeps the saga invariant exactly when it does not
      cross into or out of CANCELLED, for any shipment that was charged at all. */
  lemma StatusWriteKeepsSaga(b: Books, awb: Awb, s: Shipment, next: Status, gone: bool)
    requires SagaOk(b, awb, s) && s.merchantCost > 0
    ensures SagaOk(b, awb, WithStatus(s, next).(deleted := gone)) <==> !Crosses(s.status, next)
  {
    var s' := WithStatus(s, next).(deleted := gone);
    if Crosses(s.status, next) {
      assert HasLeg(s', Leg.Merchant) && Cost(s', Leg.Merchant) > 0;
      assert HasLeg(s, Leg.Merchant) && Cost(s, Leg.Merchant) > 0;
    }
  }

  // ---- Escrow ----

  function Owes(cods: map<Awb, Cod>, k: Awb, u: UserId): int {
    if k in cods && cods[k].merchant == u && cods[k].stage != Remitted then cods[k].amount else 0
  }

  /** COD still owed to a merchant: the sum over the records not yet REMITTED. */
  ghost function Owed(cods: map<Awb, Cod>, keys: set<Awb>, u: UserId): int
    decreases |keys|
  {
    if keys == {} then 0
    else
      var k :| k in keys;
      Owes(cods, k, u) + Owed(cods, keys - {k}, u)
  }

  lemma {:induction false} OwedPick(cods: map<Awb, Cod>, keys: set<Awb>, k: Awb, u: UserId)
    requires k in keys
    ensures Owed(cods, keys, u) == Owes(cods, k, u) + Owed(cods, keys - {k}, u)
    decreases |keys|
  {
    var j :| j in keys && Owed(cods, keys, u) == Owes(cods, j, u) + Owed(cods, keys - {j}, u);
    if j != k {
      OwedPick(cods, keys - {j}, k, u);
      OwedPick(cods, keys - {k}, j, u);
      assert keys - {j} - {k} == keys - {k} - {j};
    }
  }

  lemma {:induction false} OwedSame(cods: map<Awb, Cod>, cods': map<Awb, Cod>, keys: set<Awb>, u: UserId)
    requires forall k | k in keys :: Owes(cods', k, u) == Owes(cods, k, u)
    ensures Owed(cods', keys, u) == Owed(cods, keys, u)
    decreases |keys|
  {
    if keys != {} {
      var k :| k in keys;
      OwedPick(cods, keys, k, u);
      OwedPick(cods', keys, k, u);
      OwedSame(cods, cods', keys - {k}, u);
    }
  }

  lemma OwedUpdate(cods: map<Awb, Cod>, k: Awb, c: Cod, u: UserId)
    ensures Owed(cods[k := c], cods.Keys + {k}, u) ==
            Owed(cods, cods.Keys, u) - Owes(cods, k, u) + Owes(cods[k := c], k, u)
  {
    var rest := cods.Keys - {k};
    OwedPick(cods[k := c], cods.Keys + {k}, k, u);
    assert cods.Keys + {k} - {k} == rest;
    OwedSame(cods, cods[k := c], rest, u);
    if k in cods {
      OwedPick(cods, cods.Keys, k, u);
    } else {
      assert rest == cods.Keys;
    }
  }

  lemma {:induction false} OwedNonNegative(cods: map<Awb, Cod>, keys: set<Awb>, u: UserId)
    requires forall k | k in cods :: cods[k].amount >= 0
    ensures Owed(cods, keys, u) >= 0
    decreases |keys|
  {
    if keys != {} {
      var k :| k in keys;
      OwedPick(cods, keys, k, u);
      OwedNonNegative(cods, keys - {k}, u);
    }
  }

  ghost predicate EscrowMatches(db: Db, u: UserId)
    requires u in db.books.wallets
  {
    db.books.wallets[u].escrow == Owed(db.cods, db.cods.Keys, u)
  }

  /** A COD record is remitted exactly when its row is in the ledger. */
  ghost predicate CodRow(db: Db, k: Awb) {
    Seen(db.books, ForCod(k)).Some? <==> k in db.cods && db.cods[k].stage == Remitted
  }

  ghost predicate EscrowOk(db: Db) {
    && (forall u | u in db.books.wallets :: EscrowMatches(db, u))
    && (forall k | k in db.cods :: db.cods[k].merchant in db.books.wallets && db.cods[k].amount >= 0)
    && (forall k :: CodRow(db, k))
  }

  predicate MerchantActive(db: Db, s: Shipment) {
    s.merchant in db.books.wallets && db.books.wallets[s.merchant].isActive
  }

  lemma AddEscrowView(b: Books, u: UserId, amount: int)
    ensures var b' := AddEscrow(b, u, amount);
            && b'.ledger == b.ledger && b'.wallets.Keys == b.wallets.Keys
            && (Sound(b) && amount >= 0 ==> Sound(b'))
  {
    var b' := AddEscrow(b, u, amount);
    if Sound(b) && amount >= 0 {
      forall i | 0 <= i < |b'.ledger|
        ensures RowOk(b', i)
      {
        assert RowOk(b, i);
      }
    }
  }

  /** What a COD delivery does to what is owed and to the COD rows. */
  lemma CodDelivered(db: Db, awb: Awb)
    requires EscrowOk(db) && awb in db.shipments && Deliver(db, awb, db.shipments[awb]).Ok? && db.shipments[awb].isCod
    ensures var s, db' := db.shipments[awb], Deliver(db, awb, db.shipments[awb]).value;
            && db'.books == AddEscrow(db.books, s.merchant, s.codAmount)
            && db'.books.wallets.Keys == db.books.wallets.Keys
            && (forall k :: CodRow(db', k))
            && (forall u :: Owed(db'.cods, db'.cods.Keys, u) ==
                            Owed(db.cods, db.cods.Keys, u) + (if u == s.merchant then s.codAmount else 0))
  {
    var s := db.shipments[awb];
    var db' := Deliver(db, awb, s).value;
    var c := Cod(s.merchant, s.distributor, s.codAmount, CodPending);
    AddEscrowView(db.books, s.merchant, s.codAmount);
    assert db'.cods == db.cods[awb := c] && db'.cods.Keys == db.cods.Keys + {awb};
    forall u
      ensures Owed(db'.cods, db'.cods.Keys, u) ==
              Owed(db.cods, db.cods.Keys, u) + (if u == s.merchant then s.codAmount else 0)
    {
      OwedUpdate(db.cods, awb, c, u);
    }
    forall k
      ensures CodRow(db', k)
    {
      assert CodRow(db, k);
    }
  }

  lemma DeliveredEscrow(db: Db, awb: Awb)
    requires EscrowOk(db) && awb in db.shipments && Deliver(db, awb, db.shipments[awb]).Ok? && db.shipments[awb].isCod
    requires db.shipments[awb].merchant in db.books.wallets
    requires MerchantActive(db, db.shipments[awb]) || db.shipments[awb].codAmount == 0
    ensures EscrowOk(Deliver(db, awb, db.shipments[awb]).value)
  {
    CodDelivered(db, awb);
    var db' := Deliver(db, awb, db.shipments[awb]).value;
    forall u | u in db'.books.wallets
      ensures EscrowMatches(db', u)
    {
      assert EscrowMatches(db, u);
    }
  }

  lemma UncreditedEscrow(db: Db, awb: Awb)
    requires EscrowOk(db) && awb in db.shipments && Deliver(db, awb, db.shipments[awb]).Ok? && db.shipments[awb].isCod
    requires db.shipments[awb].merchant !in db.books.wallets
             || (!MerchantActive(db, db.shipments[awb]) && db.shipments[awb].codAmount != 0)
    ensures !EscrowOk(Deliver(db, awb, db.shipments[awb]).value)
  {
    var s := db.shipments[awb];
    var db' := Deliver(db, awb, s).value;
    CodDelivered(db, awb);
    assert db'.cods[awb].merchant == s.merchant;
    if s.merchant in db.books.wallets {
      assert EscrowMatches(db, s.merchant);
      assert !EscrowMatches(db', s.merchant);
    }
  }

  /** Delivering a COD shipment keeps the escrow equation exactly when the merchant's
      wallet is there and active, or there and nothing is to be collected. */
  lemma DeliverKeepsEscrow(db: Db, awb: Awb)
    requires EscrowOk(db) && awb in db.shipments && Deliver(db, awb, db.shipments[awb]).Ok?
    ensures var s := db.shipments[awb];
            EscrowOk(Deliver(db, awb, s).value) <==>
            (!s.isCod || (s.merchant in db.books.wallets && (MerchantActive(db, s) || s.codAmount == 0)))
  {
    var s := db.shipments[awb];
    if !s.isCod {
      EscrowFrame(db, Deliver(db, awb, s).value);
    } else if s.merchant in db.books.wallets && (MerchantActive(db, s) || s.codAmount == 0) {
      DeliveredEscrow(db, awb);
    } else {
      UncreditedEscrow(db, awb);
    }
  }

  /** Steps that leave COD records and escrow balances alone. */
  lemma EscrowFrame(db: Db, db': Db)
    requires EscrowOk(db) && db'.cods == db.cods
    requires db'.books.wallets.Keys == db.books.wallets.Keys
    requires forall u | u in db.books.wallets :: db'.books.wallets[u].escrow == db.books.wallets[u].escrow
    requires forall k :: Seen(db'.books, ForCod(k)) == Seen(db.books, ForCod(k))
    ensures EscrowOk(db')
  {
    forall u | u in db'.books.wallets
      ensures EscrowMatches(db', u)
    {
      assert EscrowMatches(db, u);
    }
    forall k
      ensures CodRow(db', k)
    {
      assert CodRow(db, k);
    }
  }

  lemma StageKeepsEscrow(db: Db, awb: Awb, caller: Caller)
    requires EscrowOk(db) && RemitCod(db, awb, caller).Ok? && caller.role == SuperAdmin
    ensures EscrowOk(RemitCod(db, awb, caller).value)
  {
    var db' := RemitCod(db, awb, caller).value;
    assert db'.cods.Keys == db.cods.Keys + {awb};
    forall u | u in db'.books.wallets
      ensures EscrowMatches(db', u)
    {
      OwedUpdate(db.cods, awb, db'.cods[awb], u);
      assert EscrowMatches(db, u);
    }
    forall k
      ensures CodRow(db', k)
    {
      assert CodRow(db, k);
    }
  }

  lemma ReleaseMoves(db: Db, awb: Awb, caller: Caller)
    requires EscrowOk(db) && RemitCod(db, awb, caller).Ok? && caller.role == DistributorRole
    ensures var db', c := RemitCod(db, awb, caller).value, db.cods[awb];
            var call := Call(c.merchant, TxType.CodCredit, c.amount, Some(Text(ForCod(awb))));
            && c.stage != Remitted && c.merchant in db.books.wallets
            && db'.cods == db.cods[awb := c.(stage := Remitted)]
            && db'.books.wallets == db.books.wallets[c.merchant := Moved(db.books.wallets[c.merchant], call)]
            && SeenExcept(db.books, db'.books, ForCod(awb)) && Seen(db'.books, ForCod(awb)).Some?
  {
    var c := db.cods[awb];
    assert CodRow(db, awb);
    PostView(db.books, c.merchant, TxType.CodCredit, c.amount, ForCod(awb));
  }

  lemma ReleaseKeepsEscrow(db: Db, awb: Awb, caller: Caller)
    requires EscrowOk(db) && RemitCod(db, awb, caller).Ok? && caller.role == DistributorRole
    ensures EscrowOk(RemitCod(db, awb, caller).value)
  {
    var db' := RemitCod(db, awb, caller).value;
    var c := db.cods[awb];
    ReleaseMoves(db, awb, caller);
    assert db'.cods.Keys == db.cods.Keys + {awb};
    forall u | u in db'.books.wallets
      ensures EscrowMatches(db', u)
    {
      OwedUpdate(db.cods, awb, c.(stage := Remitted), u);
      assert EscrowMatches(db, u);
    }
    CodRowsAfter(db, db', awb);
  }

  lemma CodRowsAfter(db: Db, db': Db, awb: Awb)
    requires forall k :: CodRow(db, k)
    requires SeenExcept(db.books, db'.books, ForCod(awb)) && Seen(db'.books, ForCod(awb)).Some?
    requires awb in db.cods && db'.cods == db.cods[awb := db.cods[awb].(stage := Remitted)]
    ensures forall k :: CodRow(db', k)
  {
    forall k
      ensures CodRow(db', k)
    {
      assert CodRow(db, k);
      assert k != awb ==> ForCod(k) != ForCod(awb);
    }
  }

  /** The insufficient-escrow branch is dead: once a settled COD may be remitted, its
      merchant's escrow covers it, so remittance fails only for a wallet switched off
      or an amount below one paisa. */
  lemma RemitNeverShort(db: Db, awb: Awb, caller: Caller)
    requires EscrowOk(db) && awb in db.cods && db.cods[awb].stage == SettledToVexaro
    requires caller.role == DistributorRole && db.cods[awb].distributor == Some(caller.userId)
    ensures RemitCod(db, awb, caller).Err? ==> RemitCod(db, awb, caller).error != InsufficientEscrow
    ensures RemitCod(db, awb, caller).Ok? <==>
            db.books.wallets[db.cods[awb].merchant].isActive && db.cods[awb].amount >= 1
  {
    var c := db.cods[awb];
    assert CodRow(db, awb) && EscrowMatches(db, c.merchant);
    OwedPick(db.cods, db.cods.Keys, awb, c.merchant);
    OwedNonNegative(db.cods, db.cods.Keys - {awb}, c.merchant);
  }

  // ---- Razorpay payments ----

  /** A successful payment's row is in its owner's wallet for its amount, and every
      payment row belongs to the one order of its payment id. */
  ghost predicate PaymentOk(b: Books, payments: map<string, Payment>, orderOf: string -> string, razorpayId: string) {
    Seen(b, ForPayment(razorpayId)).Some? ==>
      var row := Seen(b, ForPayment(razorpayId)).value;
      && orderOf(razorpayId) in payments
      && row.user == payments[orderOf(razorpayId)].user
      && row.amount == payments[orderOf(razorpayId)].amount
      && row.txType == TxType.Topup
  }

  ghost predicate OrderOk(b: Books, orderOf: string -> string, order: string, p: Payment) {
    p.status == PaySuccess ==>
      && p.razorpayId.Some? && orderOf(p.razorpayId.value) == order
      && Seen(b, ForPayment(p.razorpayId.value)).Some?
  }

  ghost predicate PaymentsOk(db: Db, orderOf: string -> string) {
    && (forall id :: PaymentOk(db.books, db.payments, orderOf, id))
    && (forall o | o in db.payments :: OrderOk(db.books, orderOf, o, db.payments[o]))
  }

  lemma PaymentsFrame(db: Db, db': Db, orderOf: string -> string)
    requires PaymentsOk(db, orderOf)
    requires forall id :: Seen(db'.books, ForPayment(id)) == Seen(db.books, ForPayment(id))
    requires db.payments.Keys <= db'.payments.Keys
    requires forall o | o in db.payments ::
               db'.payments[o].user == db.payments[o].user && db'.payments[o].amount == db.payments[o].amount
    requires forall o | o in db'.payments && db'.payments[o].status == PaySuccess ::
               o in db.payments && db'.payments[o] == db.payments[o]
    ensures PaymentsOk(db', orderOf)
  {
    forall id
      ensures PaymentOk(db'.books, db'.payments, orderOf, id)
    {
      assert PaymentOk(db.books, db.payments, orderOf, id);
    }
    forall o | o in db'.payments
      ensures OrderOk(db'.books, orderOf, o, db'.payments[o])
    {
      if o in db.payments {
        assert OrderOk(db.books, orderOf, o, db.payments[o]);
      }
    }
  }

  lemma CreditKeepsPayments(db: Db, orderOf: string -> string, order: string, razorpayId: string)
    requires PaymentsOk(db, orderOf) && order in db.payments && orderOf(razorpayId) == order
    requires CreditPayment(db, order, db.payments[order], razorpayId).Ok?
    ensures PaymentsOk(CreditPayment(db, order, db.payments[order], razorpayId).value, orderOf)
  {
    var p := db.payments[order];
    var db' := CreditPayment(db, order, p, razorpayId).value;
    PostView(db.books, p.user, TxType.Topup, p.amount, ForPayment(razorpayId));
    forall id
      ensures PaymentOk(db'.books, db'.payments, orderOf, id)
    {
      assert PaymentOk(db.books, db.payments, orderOf, id);
      assert id != razorpayId ==> ForPayment(id) != ForPayment(razorpayId);
    }
    forall o | o in db'.payments
      ensures OrderOk(db'.books, orderOf, o, db'.payments[o])
    {
      assert OrderOk(db.books, orderOf, o, db.payments[o]);
      if o != order && db.payments[o].status == PaySuccess {
        assert db.payments[o].razorpayId.value != razorpayId;
      }
    }
  }

  /** Without one order per payment id the promise fails: a payment id already credited
      for one order turns a second order into a success that credits nothing. */
  lemma SharedPaymentIdCreditsOnce(db: Db, order: string, razorpayId: string)
    requires order in db.payments && db.payments[order].status != PaySuccess
    requires Seen(db.books, ForPayment(razorpayId)).Some?
    requires PaymentCaptured(db, order, razorpayId).Ok?
    ensures var db' := PaymentCaptured(db, order, razorpayId).value;
            db'.payments[order].status == PaySuccess && db'.books == db.books
  {
    PostView(db.books, db.payments[order].user, TxType.Topup, db.payments[order].amount, ForPayment(razorpayId));
  }

  /** A capture of an order not yet successful always makes it one; it moves no money if and
      only if the payment id has been credited before, and otherwise exactly the order's
      amount into its owner's wallet. */
  lemma CaptureCreditsExactly(db: Db, order: string, razorpayId: string)
    requires order in db.payments && db.payments[order].status != PaySuccess
    requires PaymentCaptured(db, order, razorpayId).Ok?
    ensures var db', p := PaymentCaptured(db, order, razorpayId).value, db.payments[order];
            && db'.payments[order].status == PaySuccess
            && (db'.books == db.books <==> Seen(db.books, ForPayment(razorpayId)).Some?)
            && (Seen(db.books, ForPayment(razorpayId)).None? ==>
                  p.user in db.books.wallets && p.user in db'.books.wallets
                  && db'.books.wallets[p.user].balance == db.books.wallets[p.user].balance + p.amount)
  {
    PostView(db.books, db.payments[order].user, TxType.Topup, db.payments[order].amount, ForPayment(razorpayId));
  }

  // ---- Refund requests ----

  /** A request is approved exactly when its refund row is there, for the merchant and amount asked. */
  ghost predicate RequestOk(b: Books, requests: map<string, Request>, id: string) {
    var row := Seen(b, ForRefundRequest(id));
    && (row.Some? <==> id in requests && requests[id].status == RequestApproved)
    && (row.Some? ==>
          && row.value.user == requests[id].merchant && row.value.amount == requests[id].amount
          && row.value.txType == TxType.Refund)
  }

  ghost predicate RequestsOk(db: Db) {
    forall id :: RequestOk(db.books, db.requests, id)
  }

  lemma RequestsFrame(db: Db, db': Db)
    requires RequestsOk(db)
    requires forall id :: Seen(db'.books, ForRefundRequest(id)) == Seen(db.books, ForRefundRequest(id))
    requires db'.requests == db.requests
    ensures RequestsOk(db')
  {
    forall id
      ensures RequestOk(db'.books, db'.requests, id)
    {
      assert RequestOk(db.books, db.requests, id);
    }
  }

  lemma ProcessKeepsRequests(db: Db, caller: Caller, id: string, approve: bool, hasNote: bool)
    requires RequestsOk(db) && ProcessRequest(db, caller, id, approve, hasNote).Ok?
    ensures RequestsOk(ProcessRequest(db, caller, id, approve, hasNote).value)
  {
    var q := db.requests[id];
    var db' := ProcessRequest(db, caller, id, approve, hasNote).value;
    assert RequestOk(db.books, db.requests, id);
    if approve {
      PostView(db.books, q.merchant, TxType.Refund, q.amount, ForRefundRequest(id));
    }
    forall k
      ensures RequestOk(db'.books, db'.requests, k)
    {
      assert RequestOk(db.books, db.requests, k);
      assert k != id ==> ForRefundRequest(k) != ForRefundRequest(id);
    }
  }
}
