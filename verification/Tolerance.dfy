/** Variances between an invoiced value and its reference, and exactly which ones are tolerated. */
module Tolerance {
  import opened Prelude
  import opened Money
  import opened Schemas

  datatype Field = TotalField | TaxField | UnitPriceField | QuantityField | QuantityReceivedField

  datatype Variance = Variance(
    field: Field, invoiceValue: real, referenceValue: real, absoluteDelta: real, percentDelta: real,
    toleranceAbs: real, tolerancePct: real, withinTolerance: bool,
    exceptionType: Option<ExceptionType>, valueImpact: Option<real>)

  function PercentDelta(delta: real, reference: real): real {
    if reference != 0.0 then Q(Abs(delta) / Abs(reference) * 100.0)
    else if Abs(delta) > 0.0 then 100.0 else 0.0
  }

  function BuildVariance(
    field: Field, invoiceValue: real, referenceValue: real,
    toleranceAbs: real, tolerancePct: real, exceptionType: ExceptionType): Variance
  {
    var delta := invoiceValue - referenceValue;
    var pct := PercentDelta(delta, referenceValue);
    var within := Abs(delta) <= toleranceAbs || pct <= tolerancePct;
    Variance(field, Q(invoiceValue), Q(referenceValue), Q(delta), pct, toleranceAbs, tolerancePct, within,
             if within then None else Some(exceptionType), None)
  }

  /** The quantity whose value is at risk: the invoiced one, or the ordered one when none was printed. */
  function PricedQuantity(line: InvoiceLine, poLine: PoLine): real {
    if line.quantity != 0.0 then line.quantity else poLine.quantityOrdered
  }

  /** The cash at stake in a unit price difference, over the whole line. */
  function ValueAtRisk(line: InvoiceLine, poLine: PoLine): real {
    Abs(line.unitPrice - poLine.unitPrice) * PricedQuantity(line, poLine)
  }

  function BuildPriceVariance(line: InvoiceLine, poLine: PoLine, cfg: MatchingConfig): Variance {
    var delta := line.unitPrice - poLine.unitPrice;
    var pct := PercentDelta(delta, poLine.unitPrice);
    var impact := Q(ValueAtRisk(line, poLine));
    var within := pct <= cfg.priceTolerancePct || impact <= cfg.priceToleranceAbs;
    Variance(UnitPriceField, Q(line.unitPrice), Q(poLine.unitPrice), Q(delta), pct,
             cfg.priceToleranceAbs, cfg.priceTolerancePct, within,
             if within then None else Some(ExceptionType.PriceVariance), Some(impact))
  }

  /** Unrounded form of "the rounded percentage is at most t". A zero reference counts as 0% or 100%. */
  predicate PercentRegion(delta: real, reference: real, t: real) {
    if reference != 0.0 then 100.0 * Abs(delta) < (FloorCents(t) + 0.005) * Abs(reference)
    else if delta == 0.0 then 0.0 <= t
    else 100.0 <= t
  }

  predicate ToleranceRegion(delta: real, reference: real, toleranceAbs: real, tolerancePct: real) {
    Abs(delta) <= toleranceAbs || PercentRegion(delta, reference, tolerancePct)
  }

  /** Unrounded form of "the rounded value at risk is at most t". */
  predicate ImpactRegion(impact: real, t: real) {
    if impact >= 0.0 then impact < FloorCents(t) + 0.005 else impact <= FloorCents(t) + 0.005
  }

  predicate PriceRegion(line: InvoiceLine, poLine: PoLine, cfg: MatchingConfig) {
    || PercentRegion(line.unitPrice - poLine.unitPrice, poLine.unitPrice, cfg.priceTolerancePct)
    || ImpactRegion(ValueAtRisk(line, poLine), cfg.priceToleranceAbs)
  }

  lemma ScaleBelow(a: real, b: real, c: real)
    requires b > 0.0
    ensures a / b < c <==> a < c * b
  {
    var q := a / b;
    assert q * b == a;
    if q < c {
      assert (c - q) * b > 0.0;
    } else {
      assert (q - c) * b >= 0.0;
    }
  }

  lemma PercentExact(delta: real, reference: real, t: real)
    ensures PercentDelta(delta, reference) <= t <==> PercentRegion(delta, reference, t)
  {
    if reference != 0.0 {
      var ratio := Abs(delta) / Abs(reference);
      var bound := FloorCents(t) + 0.005;
      assert ratio >= 0.0;
      QAtMost(ratio * 100.0, t);
      ScaleBelow(Abs(delta), Abs(reference), bound / 100.0);
      assert (bound / 100.0) * Abs(reference) * 100.0 == bound * Abs(reference);
    }
  }

  lemma VarianceExact(field: Field, value: real, reference: real, tAbs: real, tPct: real, kind: ExceptionType)
    ensures BuildVariance(field, value, reference, tAbs, tPct, kind).withinTolerance
       <==> ToleranceRegion(value - reference, reference, tAbs, tPct)
  {
    PercentExact(value - reference, reference, tPct);
  }

  lemma ImpactExact(impact: real, t: real)
    ensures Q(impact) <= t <==> ImpactRegion(impact, t)
  {
    QAtMost(impact, t);
  }

  lemma PriceExact(line: InvoiceLine, poLine: PoLine, cfg: MatchingConfig)
    ensures BuildPriceVariance(line, poLine, cfg).withinTolerance <==> PriceRegion(line, poLine, cfg)
  {
    PercentExact(line.unitPrice - poLine.unitPrice, poLine.unitPrice, cfg.priceTolerancePct);
    ImpactExact(ValueAtRisk(line, poLine), cfg.priceToleranceAbs);
  }

  /** An overcharge and an undercharge of the same size get the same verdict and the same percentage. */
  lemma VarianceSymmetric(field: Field, reference: real, delta: real, tAbs: real, tPct: real, kind: ExceptionType)
    ensures var over := BuildVariance(field, reference + delta, reference, tAbs, tPct, kind);
            var under := BuildVariance(field, reference - delta, reference, tAbs, tPct, kind);
            && over.withinTolerance == under.withinTolerance
            && over.percentDelta == under.percentDelta
            && over.absoluteDelta == -under.absoluteDelta
  {
    assert Abs(reference + delta - reference) == Abs(reference - delta - reference);
  }
}
