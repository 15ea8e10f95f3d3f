/** Ledger references: the texts the services build, and the fact that no two of
    them coincide. Ids, clock stamps and carrier payment ids are opaque strings. */
module References {

  type Awb = string

  datatype Leg = Merchant | Distributor

  /** The shipment events that post one row per leg. */
  datatype Event = Charged | Refunded | ReturnedToOrigin | Disputed | Reversed

  datatype Ref =
    | ForLeg(event: Event, awb: Awb, leg: Leg)
    | ForCod(cod: string)
    | ForTopup(stamp: string)
    | ForTransfer(stamp: string)
    | ForManualRefund(stamp: string)
    | ForRefundRequest(request: string)
    | ForPayment(payment: string)
    | ForSettlement(settlement: string)
    | Free(text: string)

  function EventText(e: Event): string {
    match e
    case Charged => "CHARGE-"
    case Refunded => "REFUND-"
    case ReturnedToOrigin => "RTO-"
    case Disputed => "DISP-"
    case Reversed => "REVS-"
  }

  function LegText(l: Leg): string {
    match l
    case Merchant => "-MERCH"
    case Distributor => "-DIST"
  }

  function Text(r: Ref): string {
    match r
    case ForLeg(e, awb, l) => EventText(e) + (awb + LegText(l))
    case ForCod(id) => "COD-" + id
    case ForTopup(t) => "TOPUP-" + t
    case ForTransfer(t) => "TXFR-" + t
    case ForManualRefund(t) => "REFUND-MANUAL-" + t
    case ForRefundRequest(id) => "REFUND-REQ-" + id
    case ForPayment(id) => "PAY-" + id
    case ForSettlement(id) => "SETTLE-" + id
    case Free(text) => text
  }

  /** Generated air waybill numbers start with VX-. */
  predicate WfAwb(awb: Awb) {
    "VX-" <= awb
  }

  predicate Generated(r: Ref) {
    match r
    case ForLeg(_, awb, _) => WfAwb(awb)
    case Free(_) => false
    case _ => true
  }

  /** A settlement's free text is assumed not to spell a generated reference. */
  ghost predicate Wf(r: Ref) {
    match r
    case Free(text) => text != "" && forall g: Ref | Generated(g) :: Text(g) != text
    case _ => Generated(r)
  }

  /** The first four characters tell the prefixes apart, except the three that start REFUND-. */
  function Head(r: Ref): string
    requires Generated(r)
  {
    match r
    case ForLeg(Charged, _, _) => "CHAR"
    case ForLeg(Refunded, _, _) => "REFU"
    case ForLeg(ReturnedToOrigin, _, _) => "RTO-"
    case ForLeg(Disputed, _, _) => "DISP"
    case ForLeg(Reversed, _, _) => "REVS"
    case ForCod(_) => "COD-"
    case ForTopup(_) => "TOPU"
    case ForTransfer(_) => "TXFR"
    case ForManualRefund(_) => "REFU"
    case ForRefundRequest(_) => "REFU"
    case ForPayment(_) => "PAY-"
    case ForSettlement(_) => "SETT"
  }

  lemma HeadOfText(r: Ref)
    requires Generated(r)
    ensures |Text(r)| >= 4 && Text(r)[..4] == Head(r)
  {
  }

  lemma HeadsDiffer(a: Ref, b: Ref)
    requires Generated(a) && Generated(b) && Head(a) == Head(b)
    ensures
      || (a.ForLeg? && b.ForLeg? && a.event == b.event)
      || (a.ForCod? && b.ForCod?) || (a.ForTopup? && b.ForTopup?) || (a.ForTransfer? && b.ForTransfer?)
      || (a.ForPayment? && b.ForPayment?) || (a.ForSettlement? && b.ForSettlement?)
      || (Head(a) == "REFU" && Head(b) == "REFU")
  {
    assert Head(a)[0] == Head(b)[0] && Head(a)[1] == Head(b)[1] && Head(a)[2] == Head(b)[2];
  }

  /** What tells the three REFUND- families apart is the eighth character. */
  lemma RefundFamilies(a: Ref, b: Ref)
    requires Generated(a) && Generated(b) && Head(a) == "REFU" && Head(b) == "REFU"
    requires Text(a) == Text(b)
    ensures
      || (a.ForLeg? && b.ForLeg? && a.event == b.event)
      || (a.ForManualRefund? && b.ForManualRefund?) || (a.ForRefundRequest? && b.ForRefundRequest?)
  {
    assert "RTO-"[1] != "REFU"[1] && "REVS"[2] != "REFU"[2];
    assert a.ForLeg? ==> a.event == Refunded && a.awb[0] == 'V';
    assert b.ForLeg? ==> b.event == Refunded && b.awb[0] == 'V';
    assert |Text(a)| > 7 && Text(a)[7] == Text(b)[7];
    assert a.ForLeg? ==> Text(a)[7] == 'V';
    assert b.ForLeg? ==> Text(b)[7] == 'V';
  }

  lemma SuffixCancels(p: string, a: string, b: string)
    requires p + a == p + b
    ensures a == b
  {
    assert (p + a)[|p|..] == a && (p + b)[|p|..] == b;
  }

  lemma LegEnds(a: Awb, l: Leg, b: Awb, k: Leg)
    requires a + LegText(l) == b + LegText(k)
    ensures a == b && l == k
  {
    var s, t := a + LegText(l), b + LegText(k);
    assert s[|s| - 1] == LegText(l)[|LegText(l)| - 1] && t[|t| - 1] == LegText(k)[|LegText(k)| - 1];
    assert l == k;
    assert s[..|a|] == a && t[..|b|] == b;
  }

  /** Two references with the same text are the same event, key and leg. */
  lemma TextInjective(a: Ref, b: Ref)
    requires Wf(a) && Wf(b) && Text(a) == Text(b)
    ensures a == b
  {
    if a.Free? || b.Free? {
      return;
    }
    HeadOfText(a);
    HeadOfText(b);
    HeadsDiffer(a, b);
    if Head(a) == "REFU" {
      RefundFamilies(a, b);
    }
    match a
    case ForLeg(e, awb, l) =>
      SuffixCancels(EventText(e), awb + LegText(l), b.awb + LegText(b.leg));
      LegEnds(awb, l, b.awb, b.leg);
    case ForCod(id) => SuffixCancels("COD-", id, b.cod);
    case ForTopup(t) => SuffixCancels("TOPUP-", t, b.stamp);
    case ForTransfer(t) => SuffixCancels("TXFR-", t, b.stamp);
    case ForManualRefund(t) => SuffixCancels("REFUND-MANUAL-", t, b.stamp);
    case ForRefundRequest(id) => SuffixCancels("REFUND-REQ-", id, b.request);
    case ForPayment(id) => SuffixCancels("PAY-", id, b.payment);
    case ForSettlement(id) => SuffixCancels("SETTLE-", id, b.settlement);
  }

  /** The VX- prefix is what keeps shipment refunds apart from the other two refund
      families: a waybill called REQ-7 would share a refund request's reference. */
  lemma PrefixIsNeeded()
    ensures Text(ForLeg(Refunded, "REQ-7", Merchant)) == Text(ForRefundRequest("7-MERCH"))
  {
    assert "REFUND-" + ("REQ-7" + "-MERCH") == "REFUND-REQ-" + "7-MERCH";
  }
}
