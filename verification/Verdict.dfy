/** When a match is postable, said without variances, exception lists or rounding,
    and how that verdict reacts to the settings. */
module Verdict {
  import opened Prelude
  import opened Money
  import opened Schemas
  import opened Tolerance
  import opened Pairing
  import opened Receipts
  import opened Matching

  predicate LineAcceptable(
    line: InvoiceLine, poLine: PoLine, received: map<int, real>, threeWay: bool, cfg: MatchingConfig)
  {
    && PriceRegion(line, poLine, cfg)
    && ToleranceRegion(line.quantity - poLine.quantityOrdered, poLine.quantityOrdered,
                       cfg.quantityToleranceAbs, cfg.quantityTolerancePct)
    && (threeWay ==>
          line.quantity <= if poLine.lineNumber in received then received[poLine.lineNumber]
                           else poLine.quantityReceived)
  }

  predicate LinesAcceptable(
    text: Text, lines: seq<InvoiceLine>, poLines: seq<PoLine>, received: map<int, real>, threeWay: bool,
    cfg: MatchingConfig)
  {
    var pairs := Pairs(text, lines, poLines);
    forall k :: 0 <= k < |lines| ==>
      pairs[k].Some? && pairs[k].value < |poLines|
      && LineAcceptable(lines[k], poLines[pairs[k].value], received, threeWay, cfg)
  }

  predicate HeaderAcceptable(
    text: Text, invoice: Invoice, po: PurchaseOrder, receipts: seq<GoodsReceipt>, cfg: MatchingConfig)
  {
    && (po.goodsReceiptRequired ==> receipts != [])
    && text.upper(OrElse(invoice.currency, po.currency)) == text.upper(po.currency)
    && ToleranceRegion(invoice.Total() - po.grossAmount, po.grossAmount, cfg.totalToleranceAbs, cfg.totalTolerancePct)
    && (invoice.taxAmount.Some? && po.taxAmount != 0.0 ==>
          ToleranceRegion(invoice.taxAmount.value - po.taxAmount, po.taxAmount, cfg.taxToleranceAbs,
                          cfg.totalTolerancePct))
  }

  predicate Acceptable(
    text: Text, invoice: Invoice, order: Option<PurchaseOrder>, receipts: seq<GoodsReceipt>, cfg: MatchingConfig)
  {
    && order.Some?
    && HeaderAcceptable(text, invoice, order.value, receipts, cfg)
    && LinesAcceptable(text, invoice.lineItems, order.value.lines, Received(Lines(receipts)),
                       order.value.goodsReceiptRequired, cfg)
    && invoice.confidence >= cfg.minExtractionConfidence
    && invoice.Total() <= cfg.autoPostCeiling
  }

  lemma LineVerdict(
    line: InvoiceLine, poLine: PoLine, received: map<int, real>, threeWay: bool, cfg: MatchingConfig)
    ensures PairedExceptions(line, poLine, received, threeWay, cfg) == []
       <==> LineAcceptable(line, poLine, received, threeWay, cfg)
  {
    PriceExact(line, poLine, cfg);
    VarianceExact(QuantityField, line.quantity, poLine.quantityOrdered,
                  cfg.quantityToleranceAbs, cfg.quantityTolerancePct, ExceptionType.QuantityVariance);
  }

  lemma HeaderVerdict(
    text: Text, invoice: Invoice, po: PurchaseOrder, receipts: seq<GoodsReceipt>, cfg: MatchingConfig)
    ensures HeaderExceptions(text, invoice, po, receipts, cfg) == []
       <==> HeaderAcceptable(text, invoice, po, receipts, cfg)
  {
    VarianceExact(TotalField, invoice.Total(), po.grossAmount,
                  cfg.totalToleranceAbs, cfg.totalTolerancePct, ExceptionType.TotalVariance);
    if invoice.taxAmount.Some? {
      VarianceExact(TaxField, invoice.taxAmount.value, po.taxAmount,
                    cfg.taxToleranceAbs, cfg.totalTolerancePct, ExceptionType.TaxVariance);
    }
  }

  lemma LinesVerdict(
    text: Text, lines: seq<InvoiceLine>, poLines: seq<PoLine>, received: map<int, real>, threeWay: bool,
    cfg: MatchingConfig)
    ensures Flatten(ExceptionsByLine(text, lines, poLines, received, threeWay, cfg)) == []
       <==> LinesAcceptable(text, lines, poLines, received, threeWay, cfg)
  {
    var pairs := Pairs(text, lines, poLines);
    var byLine := ExceptionsByLine(text, lines, poLines, received, threeWay, cfg);
    FlattenEmpty(byLine);
    forall k | 0 <= k < |lines|
      ensures byLine[k] == [] <==>
              pairs[k].Some? && pairs[k].value < |poLines|
              && LineAcceptable(lines[k], poLines[pairs[k].value], received, threeWay, cfg)
    {
      if pairs[k].Some? && pairs[k].value < |poLines| {
        LineVerdict(lines[k], poLines[pairs[k].value], received, threeWay, cfg);
      }
    }
  }

  lemma {:induction false} FlattenEmpty<T>(xss: seq<seq<T>>)
    ensures Flatten(xss) == [] <==> forall k :: 0 <= k < |xss| ==> xss[k] == []
  {
    if xss != [] {
      FlattenEmpty(xss[..|xss| - 1]);
    }
  }

  /** Postable, without exceptions, and acceptable are the same thing, for every input. */
  lemma VerdictExact(
    text: Text, invoice: Invoice, order: Option<PurchaseOrder>, receipts: seq<GoodsReceipt>, cfg: MatchingConfig)
    ensures var report := Evaluate(text, invoice, order, receipts, cfg);
            && (report.IsPostable() <==> report.exceptions == [])
            && (report.IsPostable() <==> Acceptable(text, invoice, order, receipts, cfg))
            && NoDuplicates(report.exceptions)
  {
    if order.Some? {
      HeaderVerdict(text, invoice, order.value, receipts, cfg);
      LinesVerdict(text, invoice.lineItems, order.value.lines, Received(Lines(receipts)),
                   order.value.goodsReceiptRequired, cfg);
      DedupSameElements(AllExceptions(text, invoice, order.value, receipts, cfg));
    }
  }

  /** An exact match is reported as such: the softer outcome appears only with a visible header difference. */
  lemma OutcomeExact(
    text: Text, invoice: Invoice, po: PurchaseOrder, receipts: seq<GoodsReceipt>, cfg: MatchingConfig)
    requires Acceptable(text, invoice, Some(po), receipts, cfg)
    ensures Evaluate(text, invoice, Some(po), receipts, cfg).outcome == Matched
       <==> Q(invoice.Total() - po.grossAmount) == 0.0
            && (invoice.taxAmount.Some? && po.taxAmount != 0.0 ==> Q(invoice.taxAmount.value - po.taxAmount) == 0.0)
  {
    hide Acceptable, AllExceptions;
    VerdictExact(text, invoice, Some(po), receipts, cfg);
    var variances := HeaderVariances(invoice, po, cfg);
    assert TotalVarianceOf(invoice, po, cfg) in variances;
    if TaxCompared(invoice, po) {
      assert TaxVarianceOf(invoice, po, cfg) in variances;
    }
  }

  // Settings

  /** every tolerance of b is at least as wide as that of a, its ceiling as high, its threshold as low */
  predicate AtLeastAsLoose(b: MatchingConfig, a: MatchingConfig) {
    && a.priceTolerancePct <= b.priceTolerancePct && a.priceToleranceAbs <= b.priceToleranceAbs
    && a.quantityTolerancePct <= b.quantityTolerancePct && a.quantityToleranceAbs <= b.quantityToleranceAbs
    && a.totalTolerancePct <= b.totalTolerancePct && a.totalToleranceAbs <= b.totalToleranceAbs
    && a.taxToleranceAbs <= b.taxToleranceAbs
    && a.autoPostCeiling <= b.autoPostCeiling
    && b.minExtractionConfidence <= a.minExtractionConfidence
  }

  lemma LineLoosening(
    line: InvoiceLine, pair: Option<nat>, poLines: seq<PoLine>, received: map<int, real>, threeWay: bool,
    a: MatchingConfig, b: MatchingConfig, e: ExceptionType)
    requires AtLeastAsLoose(b, a)
    requires e in LineExceptions(line, pair, poLines, received, threeWay, b)
    ensures e in LineExceptions(line, pair, poLines, received, threeWay, a)
  {
    if pair.Some? && pair.value < |poLines| {
      var poLine := poLines[pair.value];
      assert BuildPriceVariance(line, poLine, a).withinTolerance ==>
          BuildPriceVariance(line, poLine, b).withinTolerance;
      assert BuildQuantityVariance(line, poLine, a).withinTolerance ==>
          BuildQuantityVariance(line, poLine, b).withinTolerance;
    }
  }

  lemma AllLinesLoosening(
    text: Text, lines: seq<InvoiceLine>, poLines: seq<PoLine>, received: map<int, real>, threeWay: bool,
    a: MatchingConfig, b: MatchingConfig, e: ExceptionType)
    requires AtLeastAsLoose(b, a)
    requires e in Flatten(ExceptionsByLine(text, lines, poLines, received, threeWay, b))
    ensures e in Flatten(ExceptionsByLine(text, lines, poLines, received, threeWay, a))
  {
    var pairs := Pairs(text, lines, poLines);
    var byA := ExceptionsByLine(text, lines, poLines, received, threeWay, a);
    var byB := ExceptionsByLine(text, lines, poLines, received, threeWay, b);
    FlattenElements(byA);
    FlattenElements(byB);
    var k :| 0 <= k < |byB| && e in byB[k];
    LineLoosening(lines[k], pairs[k], poLines, received, threeWay, a, b, e);
    assert e in byA[k];
  }

  lemma HeaderLoosening(
    text: Text, invoice: Invoice, po: PurchaseOrder, receipts: seq<GoodsReceipt>,
    a: MatchingConfig, b: MatchingConfig, e: ExceptionType)
    requires AtLeastAsLoose(b, a)
    requires e in HeaderExceptions(text, invoice, po, receipts, b)
    ensures e in HeaderExceptions(text, invoice, po, receipts, a)
  {
    assert TotalVarianceOf(invoice, po, a).withinTolerance ==> TotalVarianceOf(invoice, po, b).withinTolerance;
    assert TaxCompared(invoice, po) && TaxVarianceOf(invoice, po, a).withinTolerance ==>
        TaxVarianceOf(invoice, po, b).withinTolerance;
  }

  /** Loosening the settings never adds an exception, so what was postable stays postable. */
  lemma LooseningOnlyRemoves(
    text: Text, invoice: Invoice, order: Option<PurchaseOrder>, receipts: seq<GoodsReceipt>,
    a: MatchingConfig, b: MatchingConfig)
    requires AtLeastAsLoose(b, a)
    ensures var tight := Evaluate(text, invoice, order, receipts, a);
            var loose := Evaluate(text, invoice, order, receipts, b);
            && (forall e :: e in loose.exceptions ==> e in tight.exceptions)
            && (tight.IsPostable() ==> loose.IsPostable())
  {
    if order.Some? {
      var po := order.value;
      var allA, allB := AllExceptions(text, invoice, po, receipts, a), AllExceptions(text, invoice, po, receipts, b);
      DedupSameElements(allA);
      DedupSameElements(allB);
      forall e | e in allB
        ensures e in allA
      {
        if e in HeaderExceptions(text, invoice, po, receipts, b) {
          HeaderLoosening(text, invoice, po, receipts, a, b, e);
        } else if e !in GateExceptions(invoice, b) {
          AllLinesLoosening(text, invoice.lineItems, po.lines, Received(Lines(receipts)), po.goodsReceiptRequired, a, b,
                            e);
        }
      }
      VerdictExact(text, invoice, order, receipts, a);
      VerdictExact(text, invoice, order, receipts, b);
      if Evaluate(text, invoice, order, receipts, a).IsPostable() {
        NonEmptyCarries(allB, allA);
      }
    }
  }
}
