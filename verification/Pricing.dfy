/** The price of a shipment: slab choice, the booking chain that rounds at every step, the
    quote that rounds once, and what the stored shipment remembers. Amounts are in paise,
    weights in kilograms, both exact; `Round` is `toFixed` to the nearest paisa. */
module Pricing {
  import opened Wrappers

  datatype Slab = Slab(upTo: real, baseRate: real, ratePerKg: real)

  datatype RateCard = RateCard(slabs: seq<Slab>, fuelSurcharge: real, codCharge: real, codPercent: real,
                               markup: Option<real>)

  datatype Margin = Margin(percent: real, flat: real)

  /** Who buys: directly, or through a distributor with or without a margin of their own. */
  datatype Chain = Direct | Through(margin: Option<Margin>)

  datatype Parcel = Parcel(declared: real, length: real, breadth: real, height: real, isCod: bool, codAmount: real)

  datatype Cost = Cost(volumetric: real, billing: real, carrier: int, distributor: int, merchant: int,
                       vexaroProfit: int, distributorProfit: int)

  const DEFAULT_MARKUP := 25.0

  const VOLUMETRIC_DIVISOR := 5000.0

  // ---- Rounding ----

  /** The nearest whole number, ties away from zero. */
  function Round(x: real): int {
    if x >= 0.0 then (x + 0.5).Floor else -(-x + 0.5).Floor
  }

  lemma RoundNear(x: real)
    ensures -0.5 <= Round(x) as real - x <= 0.5
  {
    var f := if x >= 0.0 then (x + 0.5).Floor else (-x + 0.5).Floor;
    assert f as real <= (if x >= 0.0 then x + 0.5 else -x + 0.5) < f as real + 1.0;
    assert (-f) as real == -(f as real);
  }

  lemma RoundWhole(n: int)
    ensures Round(n as real) == n
  {
    if n >= 0 {
      assert (n as real + 0.5).Floor == n;
    } else {
      assert -(n as real) == (-n) as real;
      assert ((-n) as real + 0.5).Floor == -n;
    }
  }

  /** Rounding never takes an amount below a whole number it was not below. */
  lemma RoundAbove(n: int, x: real)
    requires n as real <= x
    ensures n <= Round(x)
  {
    RoundNear(x);
    assert (n - Round(x)) as real <= 0.5;
  }

  // ---- Choosing a slab ----

  /** Behind every slab with no greater bound: a stable sort. */
  function InsertSlab(sorted: seq<Slab>, s: Slab): seq<Slab> {
    if sorted == [] then [s]
    else
      var n := |sorted| - 1;
      if s.upTo < sorted[n].upTo then InsertSlab(sorted[..n], s) + [sorted[n]] else sorted + [s]
  }

  function SortSlabs(slabs: seq<Slab>): seq<Slab> {
    if slabs == [] then [] else InsertSlab(SortSlabs(slabs[..|slabs| - 1]), slabs[|slabs| - 1])
  }

  function FirstCovering(slabs: seq<Slab>, weight: real): Option<Slab> {
    if slabs == [] then None
    else if weight <= slabs[0].upTo then Some(slabs[0])
    else FirstCovering(slabs[1..], weight)
  }

  function FindMatchingSlab(slabs: seq<Slab>, weight: real): Option<Slab> {
    var sorted := SortSlabs(slabs);
    var found := FirstCovering(sorted, weight);
    if found.Some? then found else if sorted == [] then None else Some(sorted[|sorted| - 1])
  }

  predicate Ascending(slabs: seq<Slab>) {
    forall i, j | 0 <= i < j < |slabs| :: slabs[i].upTo <= slabs[j].upTo
  }

  lemma {:induction false} InsertMembers(sorted: seq<Slab>, s: Slab)
    ensures forall x :: x in InsertSlab(sorted, s) <==> x in sorted || x == s
    ensures InsertSlab(sorted, s) != []
  {
    if sorted != [] {
      var n := |sorted| - 1;
      assert sorted == sorted[..n] + [sorted[n]];
      InsertMembers(sorted[..n], s);
    }
  }

  lemma {:induction false} InsertAscends(sorted: seq<Slab>, s: Slab)
    requires Ascending(sorted)
    ensures Ascending(InsertSlab(sorted, s))
  {
    if sorted != [] {
      var n := |sorted| - 1;
      if s.upTo < sorted[n].upTo {
        InsertAscends(sorted[..n], s);
        InsertMembers(sorted[..n], s);
        var t := InsertSlab(sorted[..n], s);
        forall i | 0 <= i < |t|
          ensures t[i].upTo <= sorted[n].upTo
        {
          assert t[i] in t;
        }
      } else {
        assert forall i | 0 <= i < |sorted| :: sorted[i].upTo <= sorted[n].upTo;
      }
    }
  }

  lemma {:induction false} SortFacts(slabs: seq<Slab>)
    ensures Ascending(SortSlabs(slabs))
    ensures forall x :: x in SortSlabs(slabs) <==> x in slabs
    ensures slabs != [] ==> SortSlabs(slabs) != []
  {
    if slabs != [] {
      var n := |slabs| - 1;
      assert slabs == slabs[..n] + [slabs[n]];
      SortFacts(slabs[..n]);
      InsertAscends(SortSlabs(slabs[..n]), slabs[n]);
      InsertMembers(SortSlabs(slabs[..n]), slabs[n]);
    }
  }

  lemma AscendingEnds(slabs: seq<Slab>, x: Slab)
    requires Ascending(slabs) && x in slabs
    ensures slabs[0].upTo <= x.upTo <= slabs[|slabs| - 1].upTo
  {
    var i :| 0 <= i < |slabs| && slabs[i] == x;
  }

  lemma {:induction false} FirstCoveringLeast(slabs: seq<Slab>, weight: real, x: Slab)
    requires Ascending(slabs) && x in slabs
    ensures var r := FirstCovering(slabs, weight);
            if r.Some? then r.value in slabs && weight <= r.value.upTo && (weight <= x.upTo ==> r.value.upTo <= x.upTo)
            else x.upTo < weight
  {
    AscendingEnds(slabs, x);
    if slabs[0].upTo < weight {
      if |slabs| == 1 {
        assert FirstCovering(slabs[1..], weight) == None;
      } else {
        var next := if x == slabs[0] then slabs[1] else x;
        assert next in slabs[1..];
        FirstCoveringLeast(slabs[1..], weight, next);
      }
    }
  }

  /** Against any slab of the card: the slab found covers the weight, and with no greater
      bound, if that one covers it; and if the slab found does not cover it, it is the largest. */
  lemma LeastCoveringSlab(slabs: seq<Slab>, weight: real, x: Slab)
    requires x in slabs
    ensures var r := FindMatchingSlab(slabs, weight);
            && r.Some? && r.value in slabs
            && (weight <= x.upTo ==> weight <= r.value.upTo <= x.upTo)
            && (r.value.upTo < weight ==> x.upTo <= r.value.upTo)
  {
    SortFacts(slabs);
    FirstCoveringLeast(SortSlabs(slabs), weight, x);
    AscendingEnds(SortSlabs(slabs), x);
  }

  lemma OnlyEmptyCardFails(slabs: seq<Slab>, weight: real)
    ensures FindMatchingSlab(slabs, weight).None? <==> slabs == []
    ensures slabs != [] ==> FindMatchingSlab(slabs, weight).value in slabs
  {
    if slabs != [] {
      LeastCoveringSlab(slabs, weight, slabs[0]);
    }
  }

  // ---- The booking chain ----

  function Volumetric(length: real, breadth: real, height: real): real {
    if length == 0.0 || breadth == 0.0 || height == 0.0 then 0.0
    else Round(100.0 * (length * breadth * height / VOLUMETRIC_DIVISOR)) as real / 100.0
  }

  function Max(a: real, b: real): real {
    if a >= b then a else b
  }

  function Markup(card: RateCard): real {
    if card.markup.Some? then card.markup.value else DEFAULT_MARKUP
  }

  function PlusPercent(amount: real, percent: real): real {
    amount * (1.0 + percent / 100.0)
  }

  /** The charge before any rounding or markup. */
  function Total(card: RateCard, slab: Slab, weight: real, isCod: bool, codAmount: real): real {
    var base := slab.baseRate + slab.ratePerKg * weight;
    var fuel := base * (card.fuelSurcharge / 100.0);
    var cod := if isCod then card.codCharge + codAmount * card.codPercent / 100.0 else 0.0;
    base + fuel + cod
  }

  function DistributorCost(carrier: int, s: real, chain: Chain): int {
    if chain.Through? then Round(PlusPercent(carrier as real, s)) else carrier
  }

  function MerchantCost(carrier: int, s: real, chain: Chain): int {
    match chain
    case Direct => Round(PlusPercent(carrier as real, s))
    case Through(None) => DistributorCost(carrier, s, chain)
    case Through(Some(m)) =>
      Round(PlusPercent(DistributorCost(carrier, s, chain) as real, m.percent) + m.flat)
  }

  function CalculateShippingCost(card: RateCard, chain: Chain, p: Parcel): Option<Cost> {
    var volumetric := Volumetric(p.length, p.breadth, p.height);
    var billing := Max(p.declared, volumetric);
    match FindMatchingSlab(card.slabs, billing)
    case None => None
    case Some(slab) =>
      var carrier := Round(Total(card, slab, billing, p.isCod, p.codAmount));
      var distributor := DistributorCost(carrier, Markup(card), chain);
      var merchant := MerchantCost(carrier, Markup(card), chain);
      Some(Cost(volumetric, billing, carrier, distributor, merchant,
                Round((distributor - carrier) as real), Round((merchant - distributor) as real)))
  }

  // ---- The quote ----

  datatype Viewer = MerchantViewer(chain: Chain) | DistributorViewer | OtherViewer

  function FinalCharge(total: real, s: real, viewer: Viewer): real {
    match viewer
    case MerchantViewer(Through(Some(m))) => PlusPercent(PlusPercent(total, s), m.percent) + m.flat
    case MerchantViewer(_) => PlusPercent(total, s)
    case DistributorViewer => PlusPercent(total, s)
    case OtherViewer => total
  }

  function CalculateRate(card: RateCard, viewer: Viewer, weight: real, isCod: bool, codAmount: real): Option<int> {
    match FindMatchingSlab(card.slabs, weight)
    case None => None
    case Some(slab) => Some(Round(FinalCharge(Total(card, slab, weight, isCod, codAmount), Markup(card), viewer)))
  }

  // ---- Profits ----

  predicate FairCard(card: RateCard) {
    && card.fuelSurcharge >= 0.0 && card.codCharge >= 0.0 && card.codPercent >= 0.0 && Markup(card) >= 0.0
    && forall i | 0 <= i < |card.slabs| :: card.slabs[i].baseRate >= 0.0 && card.slabs[i].ratePerKg >= 0.0
  }

  predicate FairChain(chain: Chain) {
    chain.Through? && chain.margin.Some? ==> chain.margin.value.percent >= 0.0 && chain.margin.value.flat >= 0.0
  }

  lemma ProductNonNegative(a: real, b: real)
    requires a >= 0.0 && b >= 0.0
    ensures a * b >= 0.0
  {
  }

  lemma TotalNonNegative(card: RateCard, slab: Slab, weight: real, isCod: bool, codAmount: real)
    requires FairCard(card) && slab in card.slabs && weight >= 0.0 && codAmount >= 0.0
    ensures Total(card, slab, weight, isCod, codAmount) >= 0.0
  {
    ProductNonNegative(slab.ratePerKg, weight);
    ProductNonNegative(slab.baseRate + slab.ratePerKg * weight, card.fuelSurcharge / 100.0);
    ProductNonNegative(codAmount, card.codPercent);
  }

  /** A markup on a non-negative amount never brings it down. */
  lemma MarkedUp(cost: int, percent: real, flat: real)
    requires cost >= 0 && percent >= 0.0 && flat >= 0.0
    ensures Round(PlusPercent(cost as real, percent) + flat) >= cost
    ensures Round(PlusPercent(cost as real, percent)) >= cost
  {
    var c := cost as real;
    ProductNonNegative(c, percent / 100.0);
    assert PlusPercent(c, percent) == c + c * (percent / 100.0);
    RoundAbove(cost, PlusPercent(c, percent) + flat);
    RoundAbove(cost, PlusPercent(c, percent));
  }

  lemma ChainAscends(carrier: int, s: real, chain: Chain)
    requires carrier >= 0 && s >= 0.0 && FairChain(chain)
    ensures carrier <= DistributorCost(carrier, s, chain) <= MerchantCost(carrier, s, chain)
  {
    MarkedUp(carrier, s, 0.0);
    var d := DistributorCost(carrier, s, chain);
    if chain.Through? && chain.margin.Some? {
      MarkedUp(d, chain.margin.value.percent, chain.margin.value.flat);
    }
  }

  /** The merchant's price over the carrier's is split between the two profits without loss,
      and neither is negative. */
  lemma ProfitsAddUp(card: RateCard, chain: Chain, p: Parcel)
    requires FairCard(card) && FairChain(chain)
    requires p.declared >= 0.0 && p.codAmount >= 0.0
    ensures CalculateShippingCost(card, chain, p).None? <==> card.slabs == []
    ensures card.slabs != [] ==>
              var c := CalculateShippingCost(card, chain, p).value;
              c.merchant - c.carrier == c.vexaroProfit + c.distributorProfit
              && c.vexaroProfit >= 0 && c.distributorProfit >= 0 && c.carrier >= 0
  {
    var billing := Max(p.declared, Volumetric(p.length, p.breadth, p.height));
    OnlyEmptyCardFails(card.slabs, billing);
    if card.slabs != [] {
      var slab := FindMatchingSlab(card.slabs, billing).value;
      var total := Total(card, slab, billing, p.isCod, p.codAmount);
      TotalNonNegative(card, slab, billing, p.isCod, p.codAmount);
      RoundAbove(0, total);
      var c := CalculateShippingCost(card, chain, p).value;
      ChainAscends(Round(total), Markup(card), chain);
      RoundWhole(c.distributor - c.carrier);
      RoundWhole(c.merchant - c.distributor);
    }
  }

  // ---- Booked against quoted ----

  function Abs(x: real): real {
    if x >= 0.0 then x else -x
  }

  lemma ScaledError(a: real, b: real, e: real, percent: real)
    requires Abs(a - b) <= e && percent >= 0.0
    ensures Abs(PlusPercent(a, percent) - PlusPercent(b, percent)) <= PlusPercent(e, percent)
  {
    var k, d := 1.0 + percent / 100.0, a - b;
    ProductNonNegative(e - d, k);
    ProductNonNegative(e + d, k);
    assert (e - d) * k == e * k - d * k && (e + d) * k == e * k + d * k;
    assert d * k == a * k - b * k;
  }

  function MarginPercent(chain: Chain): real {
    if chain.Through? && chain.margin.Some? then chain.margin.value.percent else 0.0
  }

  /** With s and m for one plus each percentage: half of (s m + m + 2). The terms are the
      rounding of the carrier's price, scaled by both, of the distributor's, scaled by the
      margin, of the merchant's and of the quote. */
  function RoundingBound(markup: real, margin: real): real {
    var s, m := 1.0 + markup / 100.0, 1.0 + margin / 100.0;
    0.5 * (s * m + m + 2.0)
  }

  /** One more percentage and one more rounding, from an amount that is off by at most `e`. */
  lemma NextError(cost: int, exact: real, e: real, percent: real, flat: real)
    requires Abs(cost as real - exact) <= e && percent >= 0.0
    ensures Abs(Round(PlusPercent(cost as real, percent) + flat) as real - (PlusPercent(exact, percent) + flat))
            <= PlusPercent(e, percent) + 0.5
    ensures Abs(Round(PlusPercent(cost as real, percent)) as real - PlusPercent(exact, percent))
            <= PlusPercent(e, percent) + 0.5
  {
    ScaledError(cost as real, exact, e, percent);
    RoundNear(PlusPercent(cost as real, percent) + flat);
    RoundNear(PlusPercent(cost as real, percent));
  }

  lemma BoundExpands(markup: real, margin: real)
    ensures PlusPercent(PlusPercent(0.5, markup) + 0.5, margin) + 1.0 == RoundingBound(markup, margin)
  {
    var s, m := 1.0 + markup / 100.0, 1.0 + margin / 100.0;
    assert (0.5 * s + 0.5) * m + 1.0 == 0.5 * (s * m + m + 2.0);
  }

  lemma BoundWithoutMargin(markup: real)
    ensures PlusPercent(0.5, markup) + 0.5 <= RoundingBound(markup, 0.0) - 0.5
  {
    var s := 1.0 + markup / 100.0;
    assert s * (1.0 + 0.0 / 100.0) == s;
  }

  lemma ChainError(total: real, s: real, chain: Chain)
    requires s >= 0.0 && FairChain(chain)
    ensures Abs(MerchantCost(Round(total), s, chain) as real - FinalCharge(total, s, MerchantViewer(chain)))
            <= RoundingBound(s, MarginPercent(chain)) - 0.5
  {
    RoundNear(total);
    NextError(Round(total), total, 0.5, s, 0.0);
    if chain.Through? && chain.margin.Some? {
      NextError(DistributorCost(Round(total), s, chain), PlusPercent(total, s), PlusPercent(0.5, s) + 0.5,
                MarginPercent(chain), chain.margin.value.flat);
      BoundExpands(s, MarginPercent(chain));
    } else {
      BoundWithoutMargin(s);
    }
  }

  lemma AddQuoteError(booked: int, exact: real, e: real)
    requires Abs(booked as real - exact) <= e
    ensures Abs((booked - Round(exact)) as real) <= e + 0.5
  {
    RoundNear(exact);
    assert (booked - Round(exact)) as real == booked as real - Round(exact) as real;
  }

  /** Without dimensions the booked price of a merchant is within the rounding bound of the
      quoted one; a shipment is bookable exactly when it can be quoted. */
  lemma BookedNearQuoted(card: RateCard, chain: Chain, weight: real, isCod: bool, codAmount: real)
    requires Markup(card) >= 0.0 && FairChain(chain) && weight >= 0.0
    ensures var booked := CalculateShippingCost(card, chain, Parcel(weight, 0.0, 0.0, 0.0, isCod, codAmount));
            var quoted := CalculateRate(card, MerchantViewer(chain), weight, isCod, codAmount);
            && (booked.Some? <==> quoted.Some?)
            && (booked.Some? ==>
                  Abs((booked.value.merchant - quoted.value) as real) <= RoundingBound(Markup(card), MarginPercent(chain)))
  {
    var found := FindMatchingSlab(card.slabs, weight);
    if found.Some? {
      var total := Total(card, found.value, weight, isCod, codAmount);
      ChainError(total, Markup(card), chain);
      AddQuoteError(MerchantCost(Round(total), Markup(card), chain), FinalCharge(total, Markup(card), MerchantViewer(chain)),
                    RoundingBound(Markup(card), MarginPercent(chain)) - 0.5);
    }
  }

  /** The distributor's quote is as close to the distributor's booked cost. */
  lemma DistributorNearQuoted(card: RateCard, margin: Option<Margin>, weight: real, isCod: bool, codAmount: real)
    requires Markup(card) >= 0.0 && weight >= 0.0
    ensures var booked := CalculateShippingCost(card, Through(margin), Parcel(weight, 0.0, 0.0, 0.0, isCod, codAmount));
            var quoted := CalculateRate(card, DistributorViewer, weight, isCod, codAmount);
            && (booked.Some? <==> quoted.Some?)
            && (booked.Some? ==> Abs((booked.value.distributor - quoted.value) as real) <= PlusPercent(0.5, Markup(card)) + 1.0)
  {
    var found := FindMatchingSlab(card.slabs, weight);
    if found.Some? {
      var total := Total(card, found.value, weight, isCod, codAmount);
      RoundNear(total);
      NextError(Round(total), total, 0.5, Markup(card), 0.0);
      AddQuoteError(DistributorCost(Round(total), Markup(card), Through(margin)), PlusPercent(total, Markup(card)),
                    PlusPercent(0.5, Markup(card)) + 0.5);
    }
  }

  /** They are not always equal: one and a half paise with the default markup. */
  lemma BookedDiffersFromQuoted()
    ensures var card := RateCard([Slab(10.0, 1.5, 0.0)], 0.0, 0.0, 0.0, None);
            var booked := CalculateShippingCost(card, Direct, Parcel(1.0, 0.0, 0.0, 0.0, false, 0.0));
            var quoted := CalculateRate(card, MerchantViewer(Direct), 1.0, false, 0.0);
            booked.Some? && quoted.Some? && booked.value.merchant == 3 && quoted.value == 2
  {
    var slabs := [Slab(10.0, 1.5, 0.0)];
    assert slabs[..0] == [];
    assert SortSlabs(slabs) == slabs;
    assert FindMatchingSlab(slabs, 1.0) == Some(slabs[0]);
    assert Round(1.5) == 2 && Round(2.5) == 3 && Round(1.875) == 2;
  }

  // ---- When they are equal ----

  predicate Whole(x: real) {
    x.Floor as real == x
  }

  function Booked(card: RateCard, chain: Chain, weight: real, isCod: bool, codAmount: real): Option<int> {
    match CalculateShippingCost(card, chain, Parcel(weight, 0.0, 0.0, 0.0, isCod, codAmount))
    case None => None
    case Some(c) => Some(c.merchant)
  }

  predicate AsQuoted(card: RateCard, chain: Chain, weight: real, isCod: bool, codAmount: real) {
    Booked(card, chain, weight, isCod, codAmount) == CalculateRate(card, MerchantViewer(chain), weight, isCod, codAmount)
  }

  /** Equal when nothing is there to round before the last step: a whole charge and, if a
      margin comes on top, a whole marked-up charge. */
  lemma WholeChargesAsQuoted(card: RateCard, chain: Chain, weight: real, isCod: bool, codAmount: real)
    requires weight >= 0.0 && card.slabs != []
    requires var slab := FindMatchingSlab(card.slabs, weight);
             slab.Some? ==>
               var total := Total(card, slab.value, weight, isCod, codAmount);
               Whole(total) && (chain.Through? && chain.margin.Some? ==> Whole(PlusPercent(total, Markup(card))))
    ensures AsQuoted(card, chain, weight, isCod, codAmount)
  {
    var slab := FindMatchingSlab(card.slabs, weight);
    OnlyEmptyCardFails(card.slabs, weight);
    var total := Total(card, slab.value, weight, isCod, codAmount);
    RoundWhole(total.Floor);
    if chain.Through? && chain.margin.Some? {
      RoundWhole(PlusPercent(total, Markup(card)).Floor);
    }
  }

  /** No markup, no percentage, and a flat margin of whole paise. */
  predicate Unrounded(markup: real, chain: Chain) {
    markup == 0.0 && (chain.Through? && chain.margin.Some? ==> chain.margin.value.percent == 0.0 && Whole(chain.margin.value.flat))
  }

  lemma NoPercent(x: real)
    ensures PlusPercent(x, 0.0) == x
  {
  }

  lemma RoundShift(x: real, f: real)
    requires x >= 0.0 && f >= 0.0 && Whole(f)
    ensures Round(x + f) == Round(x) + f.Floor
  {
    assert (x + f + 0.5).Floor == (x + 0.5).Floor + f.Floor;
  }

  lemma UnroundedAsQuoted(card: RateCard, chain: Chain, weight: real, isCod: bool, codAmount: real)
    requires FairCard(card) && FairChain(chain) && weight >= 0.0 && codAmount >= 0.0 && Unrounded(Markup(card), chain)
    ensures AsQuoted(card, chain, weight, isCod, codAmount)
  {
    var slab := FindMatchingSlab(card.slabs, weight);
    OnlyEmptyCardFails(card.slabs, weight);
    if slab.Some? {
      var total := Total(card, slab.value, weight, isCod, codAmount);
      TotalNonNegative(card, slab.value, weight, isCod, codAmount);
      NoPercent(total);
      NoPercent(Round(total) as real);
      RoundWhole(Round(total));
      if chain.Through? && chain.margin.Some? {
        RoundAbove(0, total);
        RoundShift(total, chain.margin.value.flat);
        RoundShift(Round(total) as real, chain.margin.value.flat);
      }
    }
  }

  /** Two charges that round to one paisa, and are quoted apart. */
  lemma QuotedApart(g: real, f: real) returns (x: real, y: real)
    requires g >= 1.0 && f >= 0.0 && (g > 1.0 || !Whole(f))
    ensures 0.0 <= x && 0.0 <= y && Round(x) == Round(y) == 1
    ensures Round(x * g + f) < Round(y * g + f)
  {
    x := 0.5;
    var low := x * g + f + 0.5;
    if g > 1.0 {
      var part := (g - 1.0) / (2.0 * g);
      assert part * g == (g - 1.0) / 2.0;
      ProductNonNegative(1.0 / g, g - 1.0);
      assert 0.0 < part < 1.0;
      y := 1.5 - part;
      assert y * g + f + 0.5 == low + (g + 1.0) / 2.0;
    } else {
      var part := f - f.Floor as real;
      y := 1.5 - part;
      assert y * g + f + 0.5 == (f.Floor + 2) as real;
      assert (y * g + f + 0.5).Floor == f.Floor + 2;
      assert low.Floor == f.Floor + 1;
    }
  }

  function OneSlab(total: real, markup: Option<real>): RateCard {
    RateCard([Slab(1.0, total, 0.0)], 0.0, 0.0, 0.0, markup)
  }

  lemma OneSlabTotal(total: real, markup: Option<real>)
    requires total >= 0.0 && Markup(OneSlab(0.0, markup)) >= 0.0
    ensures FairCard(OneSlab(total, markup)) && FindMatchingSlab(OneSlab(total, markup).slabs, 1.0) == Some(Slab(1.0, total, 0.0))
    ensures Total(OneSlab(total, markup), Slab(1.0, total, 0.0), 1.0, false, 0.0) == total
  {
    var slabs := [Slab(1.0, total, 0.0)];
    assert slabs[..0] == [];
    assert SortSlabs(slabs) == slabs;
  }

  lemma OneSlabPrices(total: real, markup: Option<real>, chain: Chain)
    requires total >= 0.0 && Markup(OneSlab(0.0, markup)) >= 0.0
    ensures var p := Markup(OneSlab(0.0, markup));
            && Booked(OneSlab(total, markup), chain, 1.0, false, 0.0) == Some(MerchantCost(Round(total), p, chain))
            && CalculateRate(OneSlab(total, markup), MerchantViewer(chain), 1.0, false, 0.0)
               == Some(Round(FinalCharge(total, p, MerchantViewer(chain))))
  {
    OneSlabTotal(total, markup);
  }

  function Factor(markup: real, chain: Chain): real {
    PlusPercent(PlusPercent(1.0, markup), MarginPercent(chain))
  }

  function Flat(chain: Chain): real {
    if chain.Through? && chain.margin.Some? then chain.margin.value.flat else 0.0
  }

  lemma ProductsRegroup(t: real, s: real, m: real, factor: real)
    requires factor == 1.0 * s * m
    ensures t * s * m == t * factor
  {
  }

  lemma FinalIsLinear(total: real, markup: real, chain: Chain, factor: real, flat: real)
    requires factor == Factor(markup, chain) && flat == Flat(chain)
    ensures FinalCharge(total, markup, MerchantViewer(chain)) == total * factor + flat
  {
    ProductsRegroup(total, 1.0 + markup / 100.0, 1.0 + MarginPercent(chain) / 100.0, factor);
    NoPercent(PlusPercent(total, markup));
  }

  lemma RoundSame(x: real, y: real)
    requires x == y
    ensures Round(x) == Round(y)
  {
  }

  lemma FactorAboveOne(markup: real, chain: Chain)
    requires markup >= 0.0 && FairChain(chain) && !Unrounded(markup, chain)
    ensures Factor(markup, chain) >= 1.0 && (Factor(markup, chain) > 1.0 || !Whole(Flat(chain)))
  {
    var a, b := markup / 100.0, MarginPercent(chain) / 100.0;
    ProductNonNegative(a, b);
    assert Factor(markup, chain) == 1.0 + a + b + a * b;
    assert Whole(0.0);
  }

  lemma OneSlabAsQuoted(total: real, markup: Option<real>, chain: Chain, factor: real, flat: real)
    requires total >= 0.0 && Markup(OneSlab(0.0, markup)) >= 0.0 && Round(total) == 1
    requires factor == Factor(Markup(OneSlab(0.0, markup)), chain) && flat == Flat(chain)
    ensures FairCard(OneSlab(total, markup))
    ensures AsQuoted(OneSlab(total, markup), chain, 1.0, false, 0.0) <==>
            MerchantCost(1, Markup(OneSlab(0.0, markup)), chain) == Round(total * factor + flat)
  {
    OneSlabTotal(total, markup);
    OneSlabPrices(total, markup, chain);
    FinalIsLinear(total, Markup(OneSlab(0.0, markup)), chain, factor, flat);
    RoundSame(FinalCharge(total, Markup(OneSlab(0.0, markup)), MerchantViewer(chain)), total * factor + flat);
  }

  /** Some card with this markup is not booked at the quoted price. */
  lemma MarkupDiffers(markup: Option<real>, chain: Chain) returns (card: RateCard)
    requires Markup(OneSlab(0.0, markup)) >= 0.0 && FairChain(chain)
    requires !Unrounded(Markup(OneSlab(0.0, markup)), chain)
    ensures card.markup == markup && FairCard(card) && !AsQuoted(card, chain, 1.0, false, 0.0)
  {
    var p := Markup(OneSlab(0.0, markup));
    var factor, flat := Factor(p, chain), Flat(chain);
    FactorAboveOne(p, chain);
    var x, y := QuotedApart(factor, flat);
    OneSlabAsQuoted(x, markup, chain, factor, flat);
    OneSlabAsQuoted(y, markup, chain, factor, flat);
    if AsQuoted(OneSlab(x, markup), chain, 1.0, false, 0.0) {
      card := OneSlab(y, markup);
    } else {
      card := OneSlab(x, markup);
    }
  }

  /** Given the markup and the chain, every card, weight and COD amount is booked at the
      quoted price if and only if there is no markup, no margin percentage, and a flat
      margin of whole paise. */
  lemma AsQuotedExactly(markup: Option<real>, chain: Chain)
    requires Markup(OneSlab(0.0, markup)) >= 0.0 && FairChain(chain)
    ensures Unrounded(Markup(OneSlab(0.0, markup)), chain) <==>
            forall card: RateCard, weight, isCod, codAmount
              | card.markup == markup && FairCard(card) && weight >= 0.0 && codAmount >= 0.0 ::
              AsQuoted(card, chain, weight, isCod, codAmount)
  {
    if Unrounded(Markup(OneSlab(0.0, markup)), chain) {
      forall card: RateCard, weight, isCod, codAmount
        | card.markup == markup && FairCard(card) && weight >= 0.0 && codAmount >= 0.0
        ensures AsQuoted(card, chain, weight, isCod, codAmount)
      {
        UnroundedAsQuoted(card, chain, weight, isCod, codAmount);
      }
    } else {
      var card := MarkupDiffers(markup, chain);
    }
  }

  // ---- The stored shipment ----

  class ShipmentDocument {
    var weight: real
    var declaredWeight: real
    var volumetricWeight: real
    var billingWeight: real
    var length: real
    var breadth: real
    var height: real
    var carrierCost: int
    var distributorCost: int
    var merchantCost: int
    var vexaroProfit: int
    var distributorProfit: int

    /** The document as booking fills it in: the dimensions are not among its fields. */
    constructor (declared: real, c: Cost)
      ensures weight == declared && declaredWeight == declared
      ensures volumetricWeight == c.volumetric && billingWeight == c.billing
      ensures length == 0.0 && breadth == 0.0 && height == 0.0
      ensures carrierCost == c.carrier && distributorCost == c.distributor && merchantCost == c.merchant
      ensures vexaroProfit == c.vexaroProfit && distributorProfit == c.distributorProfit
    {
      weight, declaredWeight := declared, declared;
      volumetricWeight, billingWeight := c.volumetric, c.billing;
      length, breadth, height := 0.0, 0.0, 0.0;
      carrierCost, distributorCost, merchantCost := c.carrier, c.distributor, c.merchant;
      vexaroProfit, distributorProfit := c.vexaroProfit, c.distributorProfit;
    }

    method PreSave()
      modifies this
      ensures declaredWeight == (if old(declaredWeight) == 0.0 then old(weight) else old(declaredWeight))
      ensures weight == declaredWeight
      ensures volumetricWeight == Volumetric(length, breadth, height)
      ensures billingWeight == Max(declaredWeight, volumetricWeight)
      ensures vexaroProfit == Round((distributorCost - carrierCost) as real)
      ensures distributorProfit == Round((merchantCost - distributorCost) as real)
      ensures (length, breadth, height) == old((length, breadth, height))
      ensures (carrierCost, distributorCost, merchantCost) == old((carrierCost, distributorCost, merchantCost))
    {
      if declaredWeight == 0.0 {
        declaredWeight := weight;
      }
      weight := declaredWeight;
      volumetricWeight := Volumetric(length, breadth, height);
      billingWeight := Max(declaredWeight, volumetricWeight);
      vexaroProfit := Round((distributorCost - carrierCost) as real);
      distributorProfit := Round((merchantCost - distributorCost) as real);
    }
  }

  /** Booking prices by the volumetric weight but does not store the dimensions, so saving
      resets it: the stored billing weight is the priced one if and only if the volumetric
      weight was not above the declared one. The profits survive the save. */
  method BookAndSave(card: RateCard, chain: Chain, p: Parcel) returns (doc: ShipmentDocument?)
    requires p.declared >= 0.0
    ensures doc == null <==> CalculateShippingCost(card, chain, p).None?
    ensures doc != null ==> fresh(doc)
    ensures doc != null ==>
              var c := CalculateShippingCost(card, chain, p).value;
              && (doc.billingWeight == c.billing <==> Volumetric(p.length, p.breadth, p.height) <= p.declared)
              && doc.billingWeight == p.declared && doc.volumetricWeight == 0.0
              && doc.vexaroProfit == c.vexaroProfit && doc.distributorProfit == c.distributorProfit
              && doc.merchantCost == c.merchant
  {
    var c := CalculateShippingCost(card, chain, p);
    if c.None? {
      return null;
    }
    var stored := new ShipmentDocument(p.declared, c.value);
    stored.PreSave();
    return stored;
  }
}
