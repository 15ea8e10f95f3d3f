/** What a price is made of, stated of the prices alone: slab, weight, fuel surcharge, COD,
    markup and margin, each by what changing it does to the booked cost and to the quote. */
module PriceLaws {
  import opened Wrappers
  import opened Pricing

  function Near(a: real, b: real): real {
    Abs(a - b)
  }

  /** The slab a weight is charged by: the least that covers it, or the largest if none does. */
  ghost predicate ChargedBy(slabs: seq<Slab>, s: Slab, weight: real) {
    && s in slabs
    && (forall x | x in slabs && weight <= x.upTo :: weight <= s.upTo <= x.upTo)
    && (s.upTo < weight ==> forall x | x in slabs :: x.upTo <= s.upTo)
  }

  lemma MatchingSlabCharges(slabs: seq<Slab>, weight: real)
    requires slabs != []
    ensures FindMatchingSlab(slabs, weight).Some? && ChargedBy(slabs, FindMatchingSlab(slabs, weight).value, weight)
  {
    LeastCoveringSlab(slabs, weight, slabs[0]);
    forall x | x in slabs
      ensures weight <= x.upTo ==> weight <= FindMatchingSlab(slabs, weight).value.upTo <= x.upTo
      ensures FindMatchingSlab(slabs, weight).value.upTo < weight ==> x.upTo <= FindMatchingSlab(slabs, weight).value.upTo
    {
      LeastCoveringSlab(slabs, weight, x);
    }
  }

  // ---- Arithmetic ----

  lemma TotalParts(card: RateCard, slab: Slab, weight: real, isCod: bool, codAmount: real)
    ensures var base := slab.baseRate + slab.ratePerKg * weight;
            Total(card, slab, weight, isCod, codAmount) ==
            base * (1.0 + card.fuelSurcharge / 100.0)
            + (if isCod then card.codCharge + codAmount * card.codPercent / 100.0 else 0.0)
  {
    var base := slab.baseRate + slab.ratePerKg * weight;
    assert base * (1.0 + card.fuelSurcharge / 100.0) == base + base * (card.fuelSurcharge / 100.0);
  }

  /** Rounding before and after scaling. */
  lemma ScaledRounding(x: real, k: real)
    requires k >= 0.0
    ensures Near(Round(x * k) as real, Round(x) as real * k) <= 0.5 + 0.5 * k
  {
    RoundNear(x * k);
    RoundNear(x);
    var e := Round(x) as real - x;
    ProductNonNegative(0.5 - e, k);
    ProductNonNegative(0.5 + e, k);
    assert (0.5 - e) * k == 0.5 * k - e * k && (0.5 + e) * k == 0.5 * k + e * k;
    assert Round(x) as real * k == x * k + e * k;
  }

  lemma ShiftedRounding(x: real, d: real)
    ensures Near((Round(x + d) - Round(x)) as real, d) <= 1.0
  {
    RoundNear(x + d);
    RoundNear(x);
  }

  /** From an amount rounded once to the exact one, scaled by a non-negative factor. */
  lemma RoundedBase(x: real, k: real, flat: real)
    requires k >= 0.0
    ensures Near(Round(x * k + flat) as real, Round(x) as real * k + flat) <= 0.5 + 0.5 * k
  {
    RoundNear(x * k + flat);
    RoundNear(x);
    var e := Round(x) as real - x;
    ProductNonNegative(0.5 - e, k);
    ProductNonNegative(0.5 + e, k);
    assert (0.5 - e) * k == 0.5 * k - e * k && (0.5 + e) * k == 0.5 * k + e * k;
    assert Round(x) as real * k == x * k + e * k;
  }

  // ---- One unmarked price ----

  /** The price before markup of a weight. */
  function Plain(card: RateCard, weight: real, isCod: bool, codAmount: real): int
    requires card.slabs != []
  {
    MatchingSlabCharges(card.slabs, weight);
    Round(Total(card, FindMatchingSlab(card.slabs, weight).value, weight, isCod, codAmount))
  }

  ghost predicate PlainOk(card: RateCard, weight: real, price: int) {
    exists s :: ChargedBy(card.slabs, s, weight) && Near(price as real, s.baseRate + s.ratePerKg * weight) <= 0.5
  }

  lemma PlainBase(card: RateCard, weight: real, codAmount: real)
    requires card.slabs != [] && card.fuelSurcharge == 0.0
    ensures PlainOk(card, weight, Plain(card, weight, false, codAmount))
  {
    MatchingSlabCharges(card.slabs, weight);
    var s := FindMatchingSlab(card.slabs, weight).value;
    TotalParts(card, s, weight, false, codAmount);
    RoundNear(Total(card, s, weight, false, codAmount));
    assert ChargedBy(card.slabs, s, weight) && Near(Plain(card, weight, false, codAmount) as real, s.baseRate + s.ratePerKg * weight) <= 0.5;
  }

  function Factor(percent: real): real {
    1.0 + percent / 100.0
  }

  /** Within the rounding of both prices. */
  predicate Scaled(with: int, without: int, k: real) {
    Near(with as real, without as real * k) <= 0.5 + 0.5 * k
  }

  lemma FuelTotal(card: RateCard, slab: Slab, weight: real, codAmount: real, base: real, k: real)
    requires base == slab.baseRate + slab.ratePerKg * weight && k == Factor(card.fuelSurcharge)
    ensures Total(card, slab, weight, false, codAmount) == base * k
  {
    assert base * k == base + base * (card.fuelSurcharge / 100.0);
  }

  lemma PlainFuel(card: RateCard, weight: real, codAmount: real)
    requires card.slabs != [] && card.fuelSurcharge >= 0.0
    ensures Scaled(Plain(card, weight, false, codAmount), Plain(card.(fuelSurcharge := 0.0), weight, false, codAmount),
                   Factor(card.fuelSurcharge))
  {
    MatchingSlabCharges(card.slabs, weight);
    var s := FindMatchingSlab(card.slabs, weight).value;
    FuelRounding(card, s, weight, codAmount, s.baseRate + s.ratePerKg * weight, Factor(card.fuelSurcharge));
  }

  lemma FuelRounding(card: RateCard, s: Slab, weight: real, codAmount: real, base: real, k: real)
    requires base == s.baseRate + s.ratePerKg * weight && k == Factor(card.fuelSurcharge) && k >= 0.0
    ensures Scaled(Round(Total(card, s, weight, false, codAmount)),
                   Round(Total(card.(fuelSurcharge := 0.0), s, weight, false, codAmount)), k)
  {
    FuelTotal(card, s, weight, codAmount, base, k);
    FuelTotal(card.(fuelSurcharge := 0.0), s, weight, codAmount, base, 1.0);
    ScaledRounding(base, k);
  }

  predicate CodApart(cod: int, prepaid: int, card: RateCard, codAmount: real) {
    Near((cod - prepaid) as real, card.codCharge + codAmount * card.codPercent / 100.0) <= 1.0
  }

  lemma PlainCod(card: RateCard, weight: real, codAmount: real)
    requires card.slabs != []
    ensures CodApart(Plain(card, weight, true, codAmount), Plain(card, weight, false, codAmount), card, codAmount)
  {
    MatchingSlabCharges(card.slabs, weight);
    var s := FindMatchingSlab(card.slabs, weight).value;
    TotalParts(card, s, weight, true, codAmount);
    TotalParts(card, s, weight, false, codAmount);
    ShiftedRounding(Total(card, s, weight, false, codAmount), card.codCharge + codAmount * card.codPercent / 100.0);
  }

  // ---- The booked cost ----

  lemma BookedPlain(card: RateCard, chain: Chain, p: Parcel)
    requires card.slabs != []
    ensures var c := CalculateShippingCost(card, chain, p);
            && c.Some? && c.value.volumetric == Volumetric(p.length, p.breadth, p.height)
            && c.value.billing == Max(p.declared, c.value.volumetric)
            && c.value.carrier == Plain(card, c.value.billing, p.isCod, p.codAmount)
            && c.value.distributor == DistributorCost(c.value.carrier, Markup(card), chain)
            && c.value.merchant == MerchantCost(c.value.carrier, Markup(card), chain)
  {
    MatchingSlabCharges(card.slabs, Max(p.declared, Volumetric(p.length, p.breadth, p.height)));
  }

  /** The volume in cubic centimetres over 5000, to a hundredth of a kilogram; no volume
      without all dimensions. */
  predicate VolumeOf(v: real, length: real, breadth: real, height: real) {
    && Near(v, length * breadth * height / 5000.0) <= 0.005
    && (v * 100.0).Floor as real == v * 100.0
    && (length == 0.0 || breadth == 0.0 || height == 0.0 ==> v == 0.0)
  }

  predicate Greater(w: real, a: real, b: real) {
    w >= a && w >= b && (w == a || w == b)
  }

  /** What a parcel weighs for its price: the declared weight or, if more, that of its volume. */
  lemma BilledWeight(card: RateCard, chain: Chain, p: Parcel)
    requires card.slabs != []
    ensures var c := CalculateShippingCost(card, chain, p);
            && c.Some? && Greater(c.value.billing, p.declared, c.value.volumetric)
            && VolumeOf(c.value.volumetric, p.length, p.breadth, p.height)
  {
    BookedPlain(card, chain, p);
    var c := CalculateShippingCost(card, chain, p).value;
    GreaterOf(p.declared, c.volumetric);
    VolumetricWeight(c.volumetric, p.length, p.breadth, p.height);
  }

  lemma GreaterOf(a: real, b: real)
    ensures Greater(Max(a, b), a, b)
  {
  }

  lemma VolumetricWeight(v: real, length: real, breadth: real, height: real)
    requires v == Volumetric(length, breadth, height)
    ensures VolumeOf(v, length, breadth, height)
  {
    HundredthsOf(length * breadth * height / 5000.0);
  }

  lemma HundredthsOf(x: real)
    ensures var v := Round(100.0 * x) as real / 100.0;
            Near(v, x) <= 0.005 && (v * 100.0).Floor as real == v * 100.0
  {
    RoundNear(100.0 * x);
  }

  /** Without surcharge and COD the carrier's price is base and per-kilogram rate of the slab
      that the billed weight falls into, to the nearest paisa. */
  lemma PlainCarrierPrice(card: RateCard, chain: Chain, p: Parcel)
    requires card.slabs != [] && card.fuelSurcharge == 0.0 && !p.isCod
    ensures var c := CalculateShippingCost(card, chain, p);
            c.Some? && PlainOk(card, c.value.billing, c.value.carrier)
  {
    BookedPlain(card, chain, p);
    PlainBase(card, CalculateShippingCost(card, chain, p).value.billing, p.codAmount);
  }

  /** The fuel surcharge scales the carrier's price of a prepaid parcel. */
  lemma FuelScalesCarrier(card: RateCard, chain: Chain, p: Parcel)
    requires card.slabs != [] && card.fuelSurcharge >= 0.0 && !p.isCod
    ensures var with, without := CalculateShippingCost(card, chain, p),
                                 CalculateShippingCost(card.(fuelSurcharge := 0.0), chain, p);
            with.Some? && without.Some? && Scaled(with.value.carrier, without.value.carrier, Factor(card.fuelSurcharge))
  {
    BookedPlain(card, chain, p);
    BookedPlain(card.(fuelSurcharge := 0.0), chain, p);
    PlainFuel(card, CalculateShippingCost(card, chain, p).value.billing, p.codAmount);
  }

  /** Cash on delivery adds its charge and its percentage of the amount, not surcharged. */
  lemma CodAddsToCarrier(card: RateCard, chain: Chain, p: Parcel)
    requires card.slabs != []
    ensures var cod, prepaid := CalculateShippingCost(card, chain, p.(isCod := true)),
                                CalculateShippingCost(card, chain, p.(isCod := false));
            cod.Some? && prepaid.Some? && CodApart(cod.value.carrier, prepaid.value.carrier, card, p.codAmount)
  {
    BookedPlain(card, chain, p.(isCod := true));
    BookedPlain(card, chain, p.(isCod := false));
    PlainCod(card, CalculateShippingCost(card, chain, p.(isCod := true)).value.billing, p.codAmount);
  }

  /** The platform's percentage: as on the card, 25 if it names none. */
  function MarkupFactor(card: RateCard): real {
    Factor(match card.markup case Some(m) => m case None => 25.0)
  }

  /** A percentage and a flat amount on a cost, to the nearest paisa. */
  predicate MarkedBy(price: int, cost: int, factor: real, flat: real) {
    Near(price as real, cost as real * factor + flat) <= 0.5
  }

  /** Who pays what on top of the carrier's price: a direct merchant the markup, a distributor
      the markup, and that distributor's merchant the margin on it. */
  predicate MarkedUpBy(card: RateCard, chain: Chain, carrier: int, distributor: int, merchant: int) {
    match chain
    case Direct => distributor == carrier && MarkedBy(merchant, carrier, MarkupFactor(card), 0.0)
    case Through(None) => MarkedBy(distributor, carrier, MarkupFactor(card), 0.0) && merchant == distributor
    case Through(Some(m)) =>
      MarkedBy(distributor, carrier, MarkupFactor(card), 0.0) && MarkedBy(merchant, distributor, Factor(m.percent), m.flat)
  }

  lemma PercentMarks(cost: int, percent: real, flat: real)
    ensures MarkedBy(Round(PlusPercent(cost as real, percent) + flat), cost, Factor(percent), flat)
    ensures MarkedBy(Round(PlusPercent(cost as real, percent)), cost, Factor(percent), 0.0)
  {
    RoundNear(PlusPercent(cost as real, percent));
    RoundNear(PlusPercent(cost as real, percent) + flat);
  }

  lemma DistributorMarks(card: RateCard, carrier: int, margin: Option<Margin>)
    ensures MarkedBy(DistributorCost(carrier, Markup(card), Through(margin)), carrier, MarkupFactor(card), 0.0)
    ensures MarkedBy(MerchantCost(carrier, Markup(card), Direct), carrier, MarkupFactor(card), 0.0)
  {
    PercentMarks(carrier, Markup(card), 0.0);
  }

  lemma MerchantMarks(carrier: int, s: real, m: Margin)
    ensures MarkedBy(MerchantCost(carrier, s, Through(Some(m))), DistributorCost(carrier, s, Through(Some(m))), Factor(m.percent), m.flat)
  {
    PercentMarks(DistributorCost(carrier, s, Through(Some(m))), m.percent, m.flat);
  }

  lemma ChainMarks(card: RateCard, chain: Chain, carrier: int)
    ensures MarkedUpBy(card, chain, carrier, DistributorCost(carrier, Markup(card), chain), MerchantCost(carrier, Markup(card), chain))
  {
    match chain
    case Direct => DistributorMarks(card, carrier, None);
    case Through(None) => DistributorMarks(card, carrier, None);
    case Through(Some(m)) =>
      DistributorMarks(card, carrier, Some(m));
      MerchantMarks(carrier, Markup(card), m);
  }

  lemma MarkupOnBooked(card: RateCard, chain: Chain, p: Parcel)
    requires card.slabs != []
    ensures var c := CalculateShippingCost(card, chain, p);
            c.Some? && MarkedUpBy(card, chain, c.value.carrier, c.value.distributor, c.value.merchant)
  {
    BookedPlain(card, chain, p);
    ChainMarks(card, chain, CalculateShippingCost(card, chain, p).value.carrier);
  }

  /** The platform keeps what the distributor pays over the carrier, a direct sale none of it;
      the distributor's side keeps the rest. */
  lemma ProfitsBooked(card: RateCard, chain: Chain, p: Parcel)
    requires card.slabs != []
    ensures var c := CalculateShippingCost(card, chain, p);
            && c.Some? && c.value.vexaroProfit == c.value.distributor - c.value.carrier
            && c.value.distributorProfit == c.value.merchant - c.value.distributor
            && (chain.Direct? ==> c.value.vexaroProfit == 0)
  {
    BookedPlain(card, chain, p);
    var c := CalculateShippingCost(card, chain, p).value;
    RoundWhole(c.distributor - c.carrier);
    RoundWhole(c.merchant - c.distributor);
  }

  // ---- The quote ----

  lemma QuotedPlain(card: RateCard, weight: real, isCod: bool, codAmount: real)
    requires card.slabs != []
    ensures CalculateRate(card, OtherViewer, weight, isCod, codAmount) == Some(Plain(card, weight, isCod, codAmount))
  {
    MatchingSlabCharges(card.slabs, weight);
  }

  /** The quote without markup: base and rate of the slab, scaled by the surcharge, plus COD. */
  lemma UnmarkedQuote(card: RateCard, weight: real, codAmount: real)
    requires card.slabs != []
    ensures var prepaid, cod := CalculateRate(card, OtherViewer, weight, false, codAmount),
                                CalculateRate(card, OtherViewer, weight, true, codAmount);
            var without := CalculateRate(card.(fuelSurcharge := 0.0), OtherViewer, weight, false, codAmount);
            && prepaid.Some? && cod.Some? && without.Some?
            && PlainOk(card, weight, without.value)
            && (card.fuelSurcharge >= 0.0 ==> Scaled(prepaid.value, without.value, Factor(card.fuelSurcharge)))
            && CodApart(cod.value, prepaid.value, card, codAmount)
  {
    var zero := card.(fuelSurcharge := 0.0);
    QuotedPlain(card, weight, false, codAmount);
    QuotedPlain(card, weight, true, codAmount);
    QuotedPlain(zero, weight, false, codAmount);
    PlainBase(zero, weight, codAmount);
    SameSlabs(card, zero, weight, Plain(zero, weight, false, codAmount));
    PlainCod(card, weight, codAmount);
    if card.fuelSurcharge >= 0.0 {
      PlainFuel(card, weight, codAmount);
    }
  }

  lemma SameSlabs(card: RateCard, other: RateCard, weight: real, price: int)
    requires other.slabs == card.slabs && PlainOk(other, weight, price)
    ensures PlainOk(card, weight, price)
  {
    var s :| ChargedBy(other.slabs, s, weight) && Near(price as real, s.baseRate + s.ratePerKg * weight) <= 0.5;
    assert ChargedBy(card.slabs, s, weight);
  }

  /** The factor and flat amount that a viewer is charged over the unmarked price. */
  function Charged(card: RateCard, viewer: Viewer): (real, real) {
    match viewer
    case OtherViewer => (1.0, 0.0)
    case MerchantViewer(Through(Some(m))) => (MarkupFactor(card) * (1.0 + m.percent / 100.0), m.flat)
    case _ => (MarkupFactor(card), 0.0)
  }

  /** Within the rounding of both. */
  predicate MarkedQuote(quote: int, plain: int, factor: real, flat: real) {
    Near(quote as real, plain as real * factor + flat) <= 0.5 + 0.5 * factor
  }

  /** Each viewer's quote against the unmarked one: markup, then the distributor's margin. */
  lemma MarkupOnQuote(card: RateCard, viewer: Viewer, weight: real, isCod: bool, codAmount: real)
    requires card.slabs != [] && Charged(card, viewer).0 >= 0.0
    ensures var quote, plain := CalculateRate(card, viewer, weight, isCod, codAmount),
                                CalculateRate(card, OtherViewer, weight, isCod, codAmount);
            && quote.Some? && plain.Some?
            && MarkedQuote(quote.value, plain.value, Charged(card, viewer).0, Charged(card, viewer).1)
  {
    MatchingSlabCharges(card.slabs, weight);
    var total := Total(card, FindMatchingSlab(card.slabs, weight).value, weight, isCod, codAmount);
    ChargedIsLinear(card, viewer, total);
    RoundedQuote(total, Charged(card, viewer).0, Charged(card, viewer).1, FinalCharge(total, Markup(card), viewer));
  }

  lemma RoundedQuote(total: real, factor: real, flat: real, charge: real)
    requires factor >= 0.0 && charge == total * factor + flat
    ensures MarkedQuote(Round(charge), Round(total), factor, flat)
  {
    RoundedBase(total, factor, flat);
  }

  lemma ChargedIsLinear(card: RateCard, viewer: Viewer, total: real)
    ensures FinalCharge(total, Markup(card), viewer) == total * Charged(card, viewer).0 + Charged(card, viewer).1
  {
    match viewer
    case MerchantViewer(Through(Some(m))) =>
      var a, b := MarkupFactor(card), 1.0 + m.percent / 100.0;
      assert total * a * b == total * (a * b);
    case _ =>
  }
}
