/** Two-way and three-way matching of an invoice against its purchase order and goods receipts. */
module Matching {
  import opened Prelude
  import opened Money
  import opened Schemas
  import opened Tolerance
  import opened Pairing
  import opened Receipts

  datatype MatchType = TwoWay | ThreeWay | NonPo

  datatype MatchOutcome = Matched | MatchedWithinTolerance | Exception

  datatype LineMatch = LineMatch(
    invoiceLineNumber: int, poLineNumber: Option<int>, description: string, matched: bool,
    quantityInvoiced: real, quantityOrdered: real, quantityReceived: real,
    variances: seq<Variance>, exceptions: seq<ExceptionType>)

  datatype MatchReport = MatchReport(
    matchType: MatchType, outcome: MatchOutcome, poNumber: Option<string>, grNumbers: seq<string>,
    vendorId: Option<string>, headerVariances: seq<Variance>, lineMatches: seq<LineMatch>,
    exceptions: seq<ExceptionType>, matchedAmount: real, confidence: real)
  {
    predicate IsPostable() {
      outcome == Matched || outcome == MatchedWithinTolerance
    }
  }

  // One line

  function LineNumber(line: InvoiceLine, index: int): int {
    if line.lineNumber.Some? && line.lineNumber.value != 0 then line.lineNumber.value else index
  }

  function QuantityReceived(received: map<int, real>, poLine: PoLine): real {
    if poLine.lineNumber in received then received[poLine.lineNumber] else poLine.quantityReceived
  }

  function BuildQuantityVariance(line: InvoiceLine, poLine: PoLine, cfg: MatchingConfig): Variance {
    BuildVariance(QuantityField, line.quantity, poLine.quantityOrdered,
                  cfg.quantityToleranceAbs, cfg.quantityTolerancePct, ExceptionType.QuantityVariance)
  }

  function BuildReceiptVariance(line: InvoiceLine, quantityReceived: real, cfg: MatchingConfig): Variance {
    BuildVariance(QuantityReceivedField, line.quantity, quantityReceived,
                  cfg.quantityToleranceAbs, cfg.quantityTolerancePct, ExceptionType.QuantityVariance)
  }

  function Flag(raised: bool, kind: ExceptionType): seq<ExceptionType> {
    if raised then [kind] else []
  }

  function PairedExceptions(
    line: InvoiceLine, poLine: PoLine, received: map<int, real>, threeWay: bool,
    cfg: MatchingConfig): seq<ExceptionType>
  {
    Flag(!BuildPriceVariance(line, poLine, cfg).withinTolerance, ExceptionType.PriceVariance)
    + Flag(!BuildQuantityVariance(line, poLine, cfg).withinTolerance, ExceptionType.QuantityVariance)
    + Flag(threeWay && line.quantity > QuantityReceived(received, poLine), MissingGoodsReceipt)
  }

  function LineExceptions(
    line: InvoiceLine, pair: Option<nat>, poLines: seq<PoLine>, received: map<int, real>,
    threeWay: bool, cfg: MatchingConfig): seq<ExceptionType>
  {
    if pair.Some? && pair.value < |poLines|
    then PairedExceptions(line, poLines[pair.value], received, threeWay, cfg)
    else [LineNotOnPo]
  }

  function JudgeLine(
    line: InvoiceLine, index: int, pair: Option<nat>, poLines: seq<PoLine>, received: map<int, real>,
    threeWay: bool, cfg: MatchingConfig): LineMatch
  {
    var exceptions := LineExceptions(line, pair, poLines, received, threeWay, cfg);
    if pair.Some? && pair.value < |poLines|
    then
      var poLine := poLines[pair.value];
      var quantityReceived := QuantityReceived(received, poLine);
      LineMatch(LineNumber(line, index), Some(poLine.lineNumber),
                if line.description != "" then line.description else poLine.description,
                exceptions == [], line.quantity, poLine.quantityOrdered, quantityReceived,
                [BuildPriceVariance(line, poLine, cfg), BuildQuantityVariance(line, poLine, cfg)]
                + (if threeWay then [BuildReceiptVariance(line, quantityReceived, cfg)] else []),
                exceptions)
    else
      LineMatch(LineNumber(line, index), None, line.description, false, line.quantity, 0.0, 0.0, [], exceptions)
  }

  /** Each line's own exceptions, in line order. */
  function ExceptionsByLine(
    text: Text, lines: seq<InvoiceLine>, poLines: seq<PoLine>, received: map<int, real>,
    threeWay: bool, cfg: MatchingConfig): (r: seq<seq<ExceptionType>>)
    ensures |r| == |lines|
  {
    var pairs := Pairs(text, lines, poLines);
    seq(|lines|, k requires 0 <= k < |lines| => LineExceptions(lines[k], pairs[k], poLines, received, threeWay, cfg))
  }

  function LineMatches(
    text: Text, lines: seq<InvoiceLine>, poLines: seq<PoLine>, received: map<int, real>,
    threeWay: bool, cfg: MatchingConfig): (r: seq<LineMatch>)
    ensures |r| == |lines|
  {
    var pairs := Pairs(text, lines, poLines);
    seq(|lines|, k requires 0 <= k < |lines| => JudgeLine(lines[k], k + 1, pairs[k], poLines, received, threeWay, cfg))
  }

  method MatchLine(
    line: InvoiceLine, index: int, pair: Option<nat>, poLines: seq<PoLine>, received: map<int, real>,
    threeWay: bool, cfg: MatchingConfig)
    returns (lineMatch: LineMatch)
    requires pair.Some? ==> pair.value < |poLines|
    ensures lineMatch == JudgeLine(line, index, pair, poLines, received, threeWay, cfg)
    ensures lineMatch.exceptions == LineExceptions(line, pair, poLines, received, threeWay, cfg)
  {
    hide BuildPriceVariance, BuildQuantityVariance, BuildReceiptVariance;
    if pair.None? {
      return LineMatch(LineNumber(line, index), None, line.description, false, line.quantity, 0.0, 0.0, [],
                       [LineNotOnPo]);
    }
    var poLine := poLines[pair.value];
    var quantityReceived :=
      if poLine.lineNumber in received then received[poLine.lineNumber] else poLine.quantityReceived;
    var price := BuildPriceVariance(line, poLine, cfg);
    var quantity := BuildQuantityVariance(line, poLine, cfg);
    var variances := [price, quantity];
    var exceptions := [];
    if !price.withinTolerance {
      exceptions := exceptions + [ExceptionType.PriceVariance];
    }
    if !quantity.withinTolerance {
      exceptions := exceptions + [ExceptionType.QuantityVariance];
    }
    if threeWay {
      variances := variances + [BuildReceiptVariance(line, quantityReceived, cfg)];
      if line.quantity > quantityReceived {
        exceptions := exceptions + [MissingGoodsReceipt];
      }
    }
    lineMatch := LineMatch(
      LineNumber(line, index), Some(poLine.lineNumber),
      if line.description != "" then line.description else poLine.description,
      exceptions == [], line.quantity, poLine.quantityOrdered, quantityReceived, variances, exceptions);
  }

  method MatchLines(
    text: Text, invoice: Invoice, po: PurchaseOrder, received: map<int, real>, threeWay: bool, cfg: MatchingConfig)
    returns (lineMatches: seq<LineMatch>, exceptions: seq<ExceptionType>)
    ensures lineMatches == LineMatches(text, invoice.lineItems, po.lines, received, threeWay, cfg)
    ensures exceptions == Flatten(ExceptionsByLine(text, invoice.lineItems, po.lines, received, threeWay, cfg))
  {
    hide JudgeLine, LineExceptions, PairLine;
    lineMatches, exceptions := [], [];
    var consumed: set<int> := {};
    var lines := invoice.lineItems;
    ghost var pairs := Pairs(text, lines, po.lines);
    ghost var expected := LineMatches(text, lines, po.lines, received, threeWay, cfg);
    ghost var byLine := ExceptionsByLine(text, lines, po.lines, received, threeWay, cfg);
    for i := 0 to |lines|
      invariant consumed == Consumed(pairs[..i], po.lines)
      invariant lineMatches == expected[..i]
      invariant exceptions == Flatten(byLine[..i])
    {
      PairsAt(text, lines, po.lines, i);
      PairInRange(text, lines, po.lines, i);
      ConsumedStep(pairs, po.lines, i);
      TakeOneMore(expected, i);
      FlattenOneMore(byLine, i);
      var pair := PairLine(text, lines[i], po.lines, consumed);
      if pair.Some? {
        consumed := consumed + {po.lines[pair.value].lineNumber};
      }
      var lineMatch := MatchLine(lines[i], i + 1, pair, po.lines, received, threeWay, cfg);
      lineMatches := lineMatches + [lineMatch];
      exceptions := exceptions + lineMatch.exceptions;
    }
    assert expected[..|lines|] == expected;
    assert byLine[..|lines|] == byLine;
  }

  // The whole invoice

  function TotalVarianceOf(invoice: Invoice, po: PurchaseOrder, cfg: MatchingConfig): Variance {
    BuildVariance(TotalField, invoice.Total(), po.grossAmount,
                  cfg.totalToleranceAbs, cfg.totalTolerancePct, ExceptionType.TotalVariance)
  }

  function TaxVarianceOf(invoice: Invoice, po: PurchaseOrder, cfg: MatchingConfig): Variance
    requires invoice.taxAmount.Some?
  {
    BuildVariance(TaxField, invoice.taxAmount.value, po.taxAmount,
                  cfg.taxToleranceAbs, cfg.totalTolerancePct, ExceptionType.TaxVariance)
  }

  predicate TaxCompared(invoice: Invoice, po: PurchaseOrder) {
    invoice.taxAmount.Some? && po.taxAmount != 0.0
  }

  function HeaderVariances(invoice: Invoice, po: PurchaseOrder, cfg: MatchingConfig): seq<Variance> {
    [TotalVarianceOf(invoice, po, cfg)]
    + (if TaxCompared(invoice, po) then [TaxVarianceOf(invoice, po, cfg)] else [])
  }

  predicate CurrencyDiffers(text: Text, invoice: Invoice, po: PurchaseOrder) {
    text.upper(OrElse(invoice.currency, po.currency)) != text.upper(po.currency)
  }

  function HeaderExceptions(
    text: Text, invoice: Invoice, po: PurchaseOrder, receipts: seq<GoodsReceipt>,
    cfg: MatchingConfig): seq<ExceptionType>
  {
    Flag(po.goodsReceiptRequired && receipts == [], MissingGoodsReceipt)
    + Flag(CurrencyDiffers(text, invoice, po), CurrencyMismatch)
    + Flag(!TotalVarianceOf(invoice, po, cfg).withinTolerance, ExceptionType.TotalVariance)
    + Flag(TaxCompared(invoice, po) && !TaxVarianceOf(invoice, po, cfg).withinTolerance, ExceptionType.TaxVariance)
  }

  function GateExceptions(invoice: Invoice, cfg: MatchingConfig): seq<ExceptionType> {
    Flag(invoice.confidence < cfg.minExtractionConfidence, LowConfidenceExtraction)
    + Flag(invoice.Total() > cfg.autoPostCeiling, OverAutoPostCeiling)
  }

  function AllExceptions(
    text: Text, invoice: Invoice, po: PurchaseOrder, receipts: seq<GoodsReceipt>,
    cfg: MatchingConfig): seq<ExceptionType>
  {
    HeaderExceptions(text, invoice, po, receipts, cfg)
    + Flatten(ExceptionsByLine(text, invoice.lineItems, po.lines, Received(Lines(receipts)), po.goodsReceiptRequired,
                               cfg))
    + GateExceptions(invoice, cfg)
  }

  function OutcomeOf(exceptions: seq<ExceptionType>, headerVariances: seq<Variance>): MatchOutcome {
    if exceptions != [] then Exception
    else if exists v :: v in headerVariances && v.absoluteDelta != 0.0 then MatchedWithinTolerance
    else Matched
  }

  function GrNumbers(receipts: seq<GoodsReceipt>): seq<string> {
    seq(|receipts|, k requires 0 <= k < |receipts| => receipts[k].grNumber)
  }

  function Evaluate(
    text: Text, invoice: Invoice, order: Option<PurchaseOrder>, receipts: seq<GoodsReceipt>,
    cfg: MatchingConfig): MatchReport
  {
    if order.None? then
      MatchReport(NonPo, Exception, None, [], None, [], [], [MissingPo], invoice.Total(), invoice.confidence)
    else
      var po := order.value;
      var exceptions := Dedup(AllExceptions(text, invoice, po, receipts, cfg));
      var headerVariances := HeaderVariances(invoice, po, cfg);
      MatchReport(
        if po.goodsReceiptRequired then ThreeWay else TwoWay,
        OutcomeOf(exceptions, headerVariances),
        Some(po.poNumber), GrNumbers(receipts), Some(po.vendorId), headerVariances,
        LineMatches(text, invoice.lineItems, po.lines, Received(Lines(receipts)), po.goodsReceiptRequired, cfg),
        exceptions, Q(invoice.Total()), invoice.confidence)
  }

  method CheckHeader(
    text: Text, invoice: Invoice, po: PurchaseOrder, receipts: seq<GoodsReceipt>, cfg: MatchingConfig)
    returns (exceptions: seq<ExceptionType>, headerVariances: seq<Variance>)
    ensures exceptions == HeaderExceptions(text, invoice, po, receipts, cfg)
    ensures headerVariances == HeaderVariances(invoice, po, cfg)
  {
    hide BuildVariance;
    exceptions, headerVariances := [], [];
    if po.goodsReceiptRequired && receipts == [] {
      exceptions := exceptions + [MissingGoodsReceipt];
    }
    if text.upper(OrElse(invoice.currency, po.currency)) != text.upper(po.currency) {
      exceptions := exceptions + [CurrencyMismatch];
    }
    var totalVariance := TotalVarianceOf(invoice, po, cfg);
    headerVariances := headerVariances + [totalVariance];
    if !totalVariance.withinTolerance {
      exceptions := exceptions + [ExceptionType.TotalVariance];
    }
    if invoice.taxAmount.Some? && po.taxAmount != 0.0 {
      var taxVariance := TaxVarianceOf(invoice, po, cfg);
      headerVariances := headerVariances + [taxVariance];
      if !taxVariance.withinTolerance {
        exceptions := exceptions + [ExceptionType.TaxVariance];
      }
    }
  }

  method CheckGates(invoice: Invoice, cfg: MatchingConfig) returns (exceptions: seq<ExceptionType>)
    ensures exceptions == GateExceptions(invoice, cfg)
  {
    exceptions := [];
    if invoice.confidence < cfg.minExtractionConfidence {
      exceptions := exceptions + [LowConfidenceExtraction];
    }
    if invoice.Total() > cfg.autoPostCeiling {
      exceptions := exceptions + [OverAutoPostCeiling];
    }
  }

  method MatchInvoice(
    text: Text, invoice: Invoice, order: Option<PurchaseOrder>, receipts: seq<GoodsReceipt>, cfg: MatchingConfig)
    returns (report: MatchReport)
    ensures report == Evaluate(text, invoice, order, receipts, cfg)
  {
    if order.None? {
      return MatchReport(NonPo, Exception, None, [], None, [], [], [MissingPo], invoice.Total(), invoice.confidence);
    }
    var po := order.value;
    var exceptions, headerVariances := CheckHeader(text, invoice, po, receipts, cfg);
    var received := ReceivedQuantities(receipts);
    var lineMatches, lineExceptions := MatchLines(text, invoice, po, received, po.goodsReceiptRequired, cfg);
    var gateExceptions := CheckGates(invoice, cfg);
    exceptions := exceptions + lineExceptions + gateExceptions;
    var deduped := Dedup(exceptions);
    report := MatchReport(
      if po.goodsReceiptRequired then ThreeWay else TwoWay, OutcomeOf(deduped, headerVariances),
      Some(po.poNumber), GrNumbers(receipts), Some(po.vendorId),
      headerVariances, lineMatches, deduped, Q(invoice.Total()), invoice.confidence);
  }
}
