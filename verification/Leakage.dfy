/** How much more than the purchase order an invoice can bill, line by line, and still match. */
module Leakage {
  import opened Prelude
  import opened Money
  import opened Schemas
  import opened Tolerance
  import opened Pairing
  import opened Receipts
  import opened Matching
  import opened Verdict
  import opened OrderIndependence

  predicate NonNegativeOrder(po: PurchaseOrder) {
    forall i :: 0 <= i < |po.lines| ==> po.lines[i].quantityOrdered >= 0.0 && po.lines[i].unitPrice >= 0.0
  }

  predicate NonNegativeQuantities(invoice: Invoice) {
    forall k :: 0 <= k < |invoice.lineItems| ==> invoice.lineItems[k].quantity >= 0.0
  }

  function Billed(lines: seq<InvoiceLine>): (r: seq<real>)
    ensures |r| == |lines|
  {
    seq(|lines|, k requires 0 <= k < |lines| => lines[k].quantity * lines[k].unitPrice)
  }

  function Ordered(poLines: seq<PoLine>): (r: seq<real>)
    ensures |r| == |poLines|
  {
    seq(|poLines|, i requires 0 <= i < |poLines| => poLines[i].quantityOrdered * poLines[i].unitPrice)
  }

  /** The widest factor a rounded percentage lets through. */
  function Factor(pct: real): real {
    1.0 + (FloorCents(pct) + 0.005) / 100.0
  }

  /** The absolute tolerance on a line's value, plus what rounding hides. */
  function Slack(cfg: MatchingConfig): real {
    Max(0.0, FloorCents(cfg.priceToleranceAbs) + 0.005)
  }

  function QuantityLimit(poLine: PoLine, cfg: MatchingConfig): real {
    Factor(cfg.quantityTolerancePct) * poLine.quantityOrdered + Max(0.0, cfg.quantityToleranceAbs)
  }

  function PriceLimit(poLine: PoLine, cfg: MatchingConfig): real {
    Factor(cfg.priceTolerancePct) * poLine.unitPrice
  }

  /** The most a purchase order line can be stretched to: price and quantity both at their limits. */
  function Allowance(poLine: PoLine, cfg: MatchingConfig): real {
    PriceLimit(poLine, cfg) * QuantityLimit(poLine, cfg)
  }

  function Allowances(poLines: seq<PoLine>, cfg: MatchingConfig): (r: seq<real>)
    ensures |r| == |poLines|
  {
    seq(|poLines|, i requires 0 <= i < |poLines| => Allowance(poLines[i], cfg))
  }

  lemma FactorAtLeastOne(pct: real)
    requires pct >= 0.0
    ensures Factor(pct) >= 1.0
  {
  }

  lemma MulMono(a: real, b: real, c: real)
    requires a <= b && c >= 0.0
    ensures a * c <= b * c
  {
    assert (b - a) * c >= 0.0;
  }

  /** A tolerated percentage keeps the value below the factor, whatever the sign of the difference. */
  lemma PercentCaps(value: real, reference: real, pct: real)
    requires reference >= 0.0 && 0.0 <= pct < 100.0
    requires PercentRegion(value - reference, reference, pct)
    ensures 0.0 <= value <= Factor(pct) * reference
  {
    var f := (pct * 100.0).Floor;
    assert f <= 9999;
    var share := (FloorCents(pct) + 0.005) / 100.0;
    assert 0.0 <= share < 1.0;
    if reference != 0.0 {
      assert Abs(value - reference) * 100.0 < share * 100.0 * reference;
      MulMono(share, 1.0, reference);
      assert Factor(pct) * reference == reference + share * reference;
    }
  }

  lemma Stretch(x: real, f: real)
    requires x >= 0.0 && f >= 1.0
    ensures f * x >= x
  {
    MulMono(1.0, f, x);
  }

  lemma LimitsAtLeastOrdered(poLine: PoLine, cfg: MatchingConfig)
    requires poLine.quantityOrdered >= 0.0 && poLine.unitPrice >= 0.0
    requires cfg.quantityTolerancePct >= 0.0 && cfg.priceTolerancePct >= 0.0
    ensures QuantityLimit(poLine, cfg) >= poLine.quantityOrdered + Max(0.0, cfg.quantityToleranceAbs)
    ensures PriceLimit(poLine, cfg) >= poLine.unitPrice
  {
    var fq, fp := Factor(cfg.quantityTolerancePct), Factor(cfg.priceTolerancePct);
    FactorAtLeastOne(cfg.quantityTolerancePct);
    FactorAtLeastOne(cfg.priceTolerancePct);
    Stretch(poLine.quantityOrdered, fq);
    Stretch(poLine.unitPrice, fp);
    assert QuantityLimit(poLine, cfg) == fq * poLine.quantityOrdered + Max(0.0, cfg.quantityToleranceAbs);
    assert PriceLimit(poLine, cfg) == fp * poLine.unitPrice;
  }

  lemma QuantityCap(line: InvoiceLine, poLine: PoLine, cfg: MatchingConfig)
    requires poLine.quantityOrdered >= 0.0 && poLine.unitPrice >= 0.0
    requires 0.0 <= cfg.quantityTolerancePct < 100.0 && cfg.priceTolerancePct >= 0.0
    requires ToleranceRegion(line.quantity - poLine.quantityOrdered, poLine.quantityOrdered,
                             cfg.quantityToleranceAbs, cfg.quantityTolerancePct)
    ensures line.quantity <= QuantityLimit(poLine, cfg)
    ensures cfg.quantityToleranceAbs <= 0.0 ==> line.quantity >= 0.0
  {
    LimitsAtLeastOrdered(poLine, cfg);
    if PercentRegion(line.quantity - poLine.quantityOrdered, poLine.quantityOrdered, cfg.quantityTolerancePct) {
      PercentCaps(line.quantity, poLine.quantityOrdered, cfg.quantityTolerancePct);
    }
  }

  /** Price and quantity caps combine; the absolute price tolerance adds its slack once. */
  lemma ExtensionCap(quantity: real, limit: real, price: real, reference: real, cap: real, slack: real)
    requires 0.0 <= quantity <= limit && 0.0 <= reference <= cap && slack >= 0.0
    requires price <= cap || Abs(price - reference) * quantity <= slack
    ensures quantity * price <= cap * limit + slack
  {
    MulMono(quantity, limit, cap);
    if price <= cap {
      MulMono(price, cap, quantity);
    } else {
      assert price * quantity == (price - reference) * quantity + reference * quantity;
      MulMono(reference, cap, quantity);
    }
  }

  lemma SlackNonNegative(cfg: MatchingConfig)
    ensures Slack(cfg) >= 0.0
  {
  }

  lemma RiskBelowSlack(line: InvoiceLine, poLine: PoLine, cfg: MatchingConfig)
    requires line.quantity >= 0.0
    requires ImpactRegion(ValueAtRisk(line, poLine), cfg.priceToleranceAbs)
    ensures Abs(line.unitPrice - poLine.unitPrice) * line.quantity <= Slack(cfg)
  {
    if line.quantity != 0.0 {
      assert ValueAtRisk(line, poLine) == Abs(line.unitPrice - poLine.unitPrice) * line.quantity;
    } else {
      assert Abs(line.unitPrice - poLine.unitPrice) * 0.0 == 0.0;
    }
  }

  lemma LineCap(line: InvoiceLine, poLine: PoLine, received: map<int, real>, threeWay: bool, cfg: MatchingConfig)
    requires poLine.quantityOrdered >= 0.0 && poLine.unitPrice >= 0.0
    requires 0.0 <= cfg.quantityTolerancePct < 100.0 && 0.0 <= cfg.priceTolerancePct < 100.0
    requires cfg.quantityToleranceAbs <= 0.0 || line.quantity >= 0.0
    requires LineAcceptable(line, poLine, received, threeWay, cfg)
    ensures line.quantity * line.unitPrice <= Allowance(poLine, cfg) + Slack(cfg)
  {
    hide Factor, Slack, PercentRegion, ImpactRegion, ValueAtRisk, ToleranceRegion, QuantityLimit;
    SlackNonNegative(cfg);
    QuantityCap(line, poLine, cfg);
    LimitsAtLeastOrdered(poLine, cfg);
    if PercentRegion(line.unitPrice - poLine.unitPrice, poLine.unitPrice, cfg.priceTolerancePct) {
      PercentCaps(line.unitPrice, poLine.unitPrice, cfg.priceTolerancePct);
    } else {
      RiskBelowSlack(line, poLine, cfg);
    }
    ExtensionCap(line.quantity, QuantityLimit(poLine, cfg), line.unitPrice, poLine.unitPrice,
                 PriceLimit(poLine, cfg), Slack(cfg));
  }

  lemma AllowanceNonNegative(poLine: PoLine, cfg: MatchingConfig)
    requires poLine.quantityOrdered >= 0.0 && poLine.unitPrice >= 0.0
    requires cfg.quantityTolerancePct >= 0.0 && cfg.priceTolerancePct >= 0.0
    ensures Allowance(poLine, cfg) >= 0.0
  {
    LimitsAtLeastOrdered(poLine, cfg);
    MulMono(0.0, PriceLimit(poLine, cfg), QuantityLimit(poLine, cfg));
  }

  lemma {:induction false} SumCapped(xs: seq<real>, ys: seq<real>, slack: real)
    requires |xs| == |ys|
    requires forall k :: 0 <= k < |xs| ==> xs[k] <= ys[k] + slack
    ensures Sum(xs) <= Sum(ys) + slack * |xs| as real
  {
    if xs != [] {
      SumCapped(xs[..|xs| - 1], ys[..|ys| - 1], slack);
    }
  }

  /** The settings under which the bound below holds for every invoice. */
  predicate Guarded(cfg: MatchingConfig) {
    cfg.priceTolerancePct < 100.0 && cfg.quantityTolerancePct < 100.0 && cfg.quantityToleranceAbs <= 0.0
  }

  /** The purchase order line each invoice line of an acceptable invoice is paired with. */
  function Partners(text: Text, lines: seq<InvoiceLine>, poLines: seq<PoLine>): (r: seq<nat>)
    ensures |r| == |lines|
  {
    var pairs := Pairs(text, lines, poLines);
    seq(|lines|, k requires 0 <= k < |lines| => if pairs[k].Some? then pairs[k].value else 0)
  }

  lemma PartnersDistinct(
    text: Text, lines: seq<InvoiceLine>, poLines: seq<PoLine>, received: map<int, real>, threeWay: bool,
    cfg: MatchingConfig)
    requires LinesAcceptable(text, lines, poLines, received, threeWay, cfg)
    ensures var at := Partners(text, lines, poLines);
            && (forall k :: 0 <= k < |at| ==> at[k] < |poLines|)
            && (forall j, k :: 0 <= j < k < |at| ==> at[j] != at[k])
            && (forall k :: 0 <= k < |at| ==> LineAcceptable(lines[k], poLines[at[k]], received, threeWay, cfg))
  {
    var at := Partners(text, lines, poLines);
    forall j, k | 0 <= j < k < |at|
      ensures at[j] != at[k]
    {
      PairsInjective(text, lines, poLines, j, k);
    }
  }

  /** Values that sit on distinct positions and exceed their caps by at most slack each. */
  lemma InjectiveBound(values: seq<real>, caps: seq<real>, at: seq<nat>, slack: real)
    requires |at| == |values|
    requires forall i :: 0 <= i < |caps| ==> caps[i] >= 0.0
    requires forall k :: 0 <= k < |at| ==> at[k] < |caps|
    requires forall j, k :: 0 <= j < k < |at| ==> at[j] != at[k]
    requires forall k :: 0 <= k < |at| ==> values[k] <= caps[at[k]] + slack
    ensures Sum(values) <= Sum(caps) + slack * |values| as real
    ensures |values| <= |caps|
  {
    Pigeonhole(at, |caps|);
    SubSum(caps, at);
    SumCapped(values, seq(|at|, k requires 0 <= k < |at| => caps[at[k]]), slack);
  }

  lemma LinesBound(
    lines: seq<InvoiceLine>, poLines: seq<PoLine>, at: seq<nat>, received: map<int, real>, threeWay: bool,
    cfg: MatchingConfig)
    requires forall i :: 0 <= i < |poLines| ==> poLines[i].quantityOrdered >= 0.0 && poLines[i].unitPrice >= 0.0
    requires 0.0 <= cfg.priceTolerancePct < 100.0 && 0.0 <= cfg.quantityTolerancePct < 100.0
    requires cfg.quantityToleranceAbs <= 0.0 || forall k :: 0 <= k < |lines| ==> lines[k].quantity >= 0.0
    requires |at| == |lines|
    requires forall k :: 0 <= k < |at| ==> at[k] < |poLines|
    requires forall j, k :: 0 <= j < k < |at| ==> at[j] != at[k]
    requires forall k :: 0 <= k < |at| ==> LineAcceptable(lines[k], poLines[at[k]], received, threeWay, cfg)
    ensures Sum(Billed(lines)) <= Sum(Allowances(poLines, cfg)) + Slack(cfg) * |lines| as real
    ensures |lines| <= |poLines|
  {
    hide Allowance, Slack, LineAcceptable;
    var caps, billed, slack := Allowances(poLines, cfg), Billed(lines), Slack(cfg);
    forall i | 0 <= i < |poLines|
      ensures caps[i] >= 0.0
    {
      AllowanceNonNegative(poLines[i], cfg);
    }
    forall k | 0 <= k < |lines|
      ensures billed[k] <= caps[at[k]] + slack
    {
      LineCap(lines[k], poLines[at[k]], received, threeWay, cfg);
    }
    InjectiveBound(billed, caps, at, slack);
  }

  /** A postable invoice bills at most the stretched purchase order plus the slack on each of its lines,
      and has no more lines than the order. */
  lemma LeakageBound(
    text: Text, invoice: Invoice, po: PurchaseOrder, receipts: seq<GoodsReceipt>, cfg: MatchingConfig)
    requires NonNegativeOrder(po)
    requires 0.0 <= cfg.priceTolerancePct < 100.0 && 0.0 <= cfg.quantityTolerancePct < 100.0
    requires cfg.quantityToleranceAbs <= 0.0 || NonNegativeQuantities(invoice)
    requires Evaluate(text, invoice, Some(po), receipts, cfg).IsPostable()
    ensures Sum(Billed(invoice.lineItems))
         <= Sum(Allowances(po.lines, cfg)) + Slack(cfg) * |invoice.lineItems| as real
    ensures |invoice.lineItems| <= |po.lines|
  {
    hide Allowance, Allowances, Slack, LineAcceptable, LinesAcceptable, Evaluate, HeaderAcceptable, Billed, Sum, Pairs,
      Partners, Received;
    VerdictExact(text, invoice, Some(po), receipts, cfg);
    PartnersDistinct(text, invoice.lineItems, po.lines, Received(Lines(receipts)), po.goodsReceiptRequired, cfg);
    LinesBound(invoice.lineItems, po.lines, Partners(text, invoice.lineItems, po.lines),
               Received(Lines(receipts)), po.goodsReceiptRequired, cfg);
  }

  lemma {:induction false} SumTimes(xs: seq<real>, ys: seq<real>, factor: real)
    requires |ys| == |xs| && forall i :: 0 <= i < |xs| ==> ys[i] == factor * xs[i]
    ensures Sum(ys) == factor * Sum(xs)
  {
    if xs != [] {
      var n := |xs| - 1;
      SumTimes(xs[..n], ys[..n], factor);
    }
  }

  lemma SumScaled(poLines: seq<PoLine>, cfg: MatchingConfig, factor: real)
    requires forall i :: 0 <= i < |poLines| ==>
               Allowance(poLines[i], cfg) == factor * (poLines[i].quantityOrdered * poLines[i].unitPrice)
    ensures Sum(Allowances(poLines, cfg)) == factor * Sum(Ordered(poLines))
  {
    hide Allowance;
    assert forall i :: 0 <= i < |poLines| ==> Allowances(poLines, cfg)[i] == factor * Ordered(poLines)[i];
    SumTimes(Ordered(poLines), Allowances(poLines, cfg), factor);
  }

  lemma DefaultSlack(cfg: MatchingConfig)
    requires cfg.priceToleranceAbs == 5.0
    ensures Slack(cfg) == 5.005
  {
    assert FloorCents(5.0) == 5.0;
  }

  lemma DefaultAllowance(poLine: PoLine, cfg: MatchingConfig)
    requires cfg.priceTolerancePct == 2.0 && cfg.quantityTolerancePct == 0.0 && cfg.quantityToleranceAbs == 0.0
    ensures Allowance(poLine, cfg) == 1.02005 * 1.00005 * (poLine.quantityOrdered * poLine.unitPrice)
  {
    assert FloorCents(2.0) == 2.0 && FloorCents(0.0) == 0.0;
    assert Factor(2.0) == 1.02005 && Factor(0.0) == 1.00005;
    assert PriceLimit(poLine, cfg) == 1.02005 * poLine.unitPrice;
    assert QuantityLimit(poLine, cfg) == 1.00005 * poLine.quantityOrdered;
  }

  /** With the shipped tolerances: 2% on price, nothing on quantity, five euros on a line. */
  lemma DefaultLeakageBound(
    text: Text, invoice: Invoice, po: PurchaseOrder, receipts: seq<GoodsReceipt>, cfg: MatchingConfig)
    requires NonNegativeOrder(po)
    requires cfg.priceTolerancePct == DEFAULT_CONFIG.priceTolerancePct
    requires cfg.priceToleranceAbs == DEFAULT_CONFIG.priceToleranceAbs
    requires cfg.quantityTolerancePct == DEFAULT_CONFIG.quantityTolerancePct
    requires cfg.quantityToleranceAbs == DEFAULT_CONFIG.quantityToleranceAbs
    requires Evaluate(text, invoice, Some(po), receipts, cfg).IsPostable()
    ensures Sum(Billed(invoice.lineItems))
         <= 1.02005 * 1.00005 * Sum(Ordered(po.lines)) + 5.005 * |invoice.lineItems| as real
    ensures |invoice.lineItems| <= |po.lines|
  {
    hide Evaluate, Allowance;
    LeakageBound(text, invoice, po, receipts, cfg);
    DefaultSlack(cfg);
    forall i | 0 <= i < |po.lines|
      ensures Allowance(po.lines[i], cfg) == 1.02005 * 1.00005 * (po.lines[i].quantityOrdered * po.lines[i].unitPrice)
    {
      DefaultAllowance(po.lines[i], cfg);
    }
    SumScaled(po.lines, cfg, 1.02005 * 1.00005);
  }

  // Why each guard is needed

  function OneLineInvoice(quantity: real, unitPrice: real, confidence: real): Invoice {
    Invoice(None, true, None, None, None, None, None, Some(0.0), "0",
            [InvoiceLine(None, Some(1), "", None, quantity, unitPrice, 0.0)], confidence)
  }

  function OneLineOrder(quantity: real, unitPrice: real): PurchaseOrder {
    PurchaseOrder("PO", "V", "EUR", "open", false, 0.0, 0.0, [PoLine(1, None, "", quantity, 0.0, 0.0, unitPrice)])
  }

  lemma OneLinePostable(text: Text, invoice: Invoice, po: PurchaseOrder, cfg: MatchingConfig)
    requires cfg.autoPostCeiling >= 0.0 && cfg.totalTolerancePct >= 0.0
    requires exists q, p :: invoice == OneLineInvoice(q, p, cfg.minExtractionConfidence)
    requires exists q, p :: po == OneLineOrder(q, p)
    requires LineAcceptable(invoice.lineItems[0], po.lines[0], map[], false, cfg)
    ensures Evaluate(text, invoice, Some(po), [], cfg).IsPostable()
  {
    hide Evaluate, LineAcceptable;
    VerdictExact(text, invoice, Some(po), [], cfg);
    PairedWithQuoted(text, invoice.lineItems, po.lines, 0);
    assert Received(Lines([])) == map[];
  }

  lemma OneLineSums(line: InvoiceLine, poLine: PoLine, cfg: MatchingConfig)
    ensures Sum(Billed([line])) == line.quantity * line.unitPrice
    ensures Sum(Allowances([poLine], cfg)) == Allowance(poLine, cfg)
  {
    hide Allowance;
    var extension := line.quantity * line.unitPrice;
    assert Billed([line])[0] == extension;
    assert Billed([line]) == [] + [extension];
    SumAppend([], extension);
    assert Allowances([poLine], cfg) == [] + [Allowance(poLine, cfg)];
    SumAppend([], Allowance(poLine, cfg));
  }

  /** An unordered line may be billed in any quantity. */
  lemma AnyQuantity(line: InvoiceLine, poLine: PoLine, cfg: MatchingConfig)
    requires cfg.quantityTolerancePct >= 100.0 && cfg.priceTolerancePct >= 0.0
    requires poLine.quantityOrdered == 0.0 && line.unitPrice == poLine.unitPrice == 1.0
    ensures LineAcceptable(line, poLine, map[], false, cfg)
  {
  }

  /** A free line may be billed at any price. */
  lemma AnyPrice(line: InvoiceLine, poLine: PoLine, cfg: MatchingConfig)
    requires cfg.priceTolerancePct >= 100.0 && cfg.quantityTolerancePct >= 0.0
    requires poLine.unitPrice == 0.0 && line.quantity == poLine.quantityOrdered == 1.0
    ensures LineAcceptable(line, poLine, map[], false, cfg)
  {
  }

  /** A tolerated negative quantity makes the value at risk negative, whatever the price. */
  lemma AnyPriceAtNegativeQuantity(line: InvoiceLine, poLine: PoLine, cfg: MatchingConfig)
    requires cfg.quantityToleranceAbs > 0.0 && cfg.priceToleranceAbs >= 0.0
    requires poLine.unitPrice == poLine.quantityOrdered == 0.0 && line.quantity == -cfg.quantityToleranceAbs
    ensures LineAcceptable(line, poLine, map[], false, cfg)
  {
    MulMono(0.0, Abs(line.unitPrice), cfg.quantityToleranceAbs);
    assert ValueAtRisk(line, poLine) == -(Abs(line.unitPrice) * cfg.quantityToleranceAbs);
  }

  lemma ZeroAllowance(poLine: PoLine, cfg: MatchingConfig)
    requires poLine.unitPrice == 0.0
    ensures Allowance(poLine, cfg) == 0.0
  {
    assert PriceLimit(poLine, cfg) == 0.0;
  }

  /** Without the guard, some postable invoice exceeds the bound by any amount one cares to name. */
  lemma UnguardedLeaks(text: Text, cfg: MatchingConfig, excess: real) returns (invoice: Invoice, po: PurchaseOrder)
    requires cfg.autoPostCeiling >= 0.0 && cfg.totalTolerancePct >= 0.0
    requires cfg.priceTolerancePct >= 0.0 && cfg.quantityTolerancePct >= 0.0 && cfg.priceToleranceAbs >= 0.0
    requires !Guarded(cfg)
    ensures NonNegativeOrder(po) && |invoice.lineItems| == |po.lines| == 1
    ensures Evaluate(text, invoice, Some(po), [], cfg).IsPostable()
    ensures Sum(Billed(invoice.lineItems)) == Sum(Allowances(po.lines, cfg)) + Slack(cfg) + excess
  {
    hide Evaluate, LineAcceptable, Allowance, Slack;
    var quantity, unitPrice;
    if cfg.quantityTolerancePct >= 100.0 {
      po := OneLineOrder(0.0, 1.0);
      quantity, unitPrice := Allowance(po.lines[0], cfg) + Slack(cfg) + excess, 1.0;
      invoice := OneLineInvoice(quantity, unitPrice, cfg.minExtractionConfidence);
      AnyQuantity(invoice.lineItems[0], po.lines[0], cfg);
    } else if cfg.priceTolerancePct >= 100.0 {
      po := OneLineOrder(1.0, 0.0);
      quantity, unitPrice := 1.0, Slack(cfg) + excess;
      invoice := OneLineInvoice(quantity, unitPrice, cfg.minExtractionConfidence);
      AnyPrice(invoice.lineItems[0], po.lines[0], cfg);
      ZeroAllowance(po.lines[0], cfg);
    } else {
      po := OneLineOrder(0.0, 0.0);
      quantity, unitPrice := -cfg.quantityToleranceAbs, -((Slack(cfg) + excess) / cfg.quantityToleranceAbs);
      invoice := OneLineInvoice(quantity, unitPrice, cfg.minExtractionConfidence);
      AnyPriceAtNegativeQuantity(invoice.lineItems[0], po.lines[0], cfg);
      ZeroAllowance(po.lines[0], cfg);
    }
    OneLinePostable(text, invoice, po, cfg);
    OneLineSums(invoice.lineItems[0], po.lines[0], cfg);
    assert invoice.lineItems == [invoice.lineItems[0]] && po.lines == [po.lines[0]];
  }
}
