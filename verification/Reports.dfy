/** What a match report says, told on the fields of the invoice, the order, the receipts and the settings. */
module Reports {
  import opened Prelude
  import opened Money
  import opened Schemas
  import opened Tolerance
  import opened Pairing
  import opened Receipts
  import opened Matching
  import opened Verdict
  import opened Decide

  function Off(value: real, reference: real): real {
    if value < reference then reference - value else value - reference
  }

  /** The largest amount in cents not above a threshold, and half a cent: what rounds to the threshold lies below. */
  function Reach(threshold: real): real {
    (threshold * 100.0).Floor as real / 100.0 + 0.005
  }

  /** Off by more than the percentage, which is rounded to cents before it is compared. Off a reference of zero counts
      as 100 per cent. */
  predicate PercentStrays(value: real, reference: real, percent: real) {
    if reference != 0.0 then 100.0 * Off(value, reference) >= Reach(percent) * Off(reference, 0.0)
    else if value == 0.0 then percent < 0.0
    else percent < 100.0
  }

  /** Off by more than the absolute tolerance and by more than the percentage. */
  predicate Strays(value: real, reference: real, absolute: real, percent: real) {
    Off(value, reference) > absolute && PercentStrays(value, reference, percent)
  }

  function Priced(line: InvoiceLine, poLine: PoLine): real {
    if line.quantity != 0.0 then line.quantity else poLine.quantityOrdered
  }

  /** What a difference in unit price comes to over the whole line. */
  function Stake(line: InvoiceLine, poLine: PoLine): real {
    Off(line.unitPrice, poLine.unitPrice) * Priced(line, poLine)
  }

  /** A unit price off by more than the percentage, with more at stake than the absolute tolerance over the quantity
      billed, or over the quantity ordered when none is printed. */
  predicate PriceStrays(line: InvoiceLine, poLine: PoLine, cfg: MatchingConfig) {
    var stake := Stake(line, poLine);
    && PercentStrays(line.unitPrice, poLine.unitPrice, cfg.priceTolerancePct)
    && (stake > Reach(cfg.priceToleranceAbs) || (stake >= 0.0 && stake == Reach(cfg.priceToleranceAbs)))
  }

  /** A receipt line names the order line. */
  ghost predicate Booked(receipts: seq<GoodsReceipt>, number: int) {
    exists receipt, line :: receipt in receipts && line in receipt.lines && line.poLineNumber == number
  }

  /** All that is booked for an order line, or what the order itself records when nothing is. */
  ghost function Arrived(receipts: seq<GoodsReceipt>, poLine: PoLine): real {
    if Booked(receipts, poLine.lineNumber) then QuantityFor(Lines(receipts), poLine.lineNumber)
    else poLine.quantityReceived
  }

  predicate Paired(partners: seq<Option<nat>>, poLines: seq<PoLine>, k: nat) {
    k < |partners| && partners[k].Some? && partners[k].value < |poLines|
  }

  /** What each kind of exception is raised for on an order. */
  ghost predicate RaisedOn(
    e: ExceptionType, text: Text, invoice: Invoice, po: PurchaseOrder, receipts: seq<GoodsReceipt>,
    cfg: MatchingConfig, partners: seq<Option<nat>>)
    requires |partners| == |invoice.lineItems|
  {
    var total := if invoice.totalAmount.Some? then invoice.totalAmount.value else 0.0;
    var lines, poLines := invoice.lineItems, po.lines;
    match e
    case CurrencyMismatch =>
      && invoice.currency.Some? && invoice.currency.value != ""
      && text.upper(invoice.currency.value) != text.upper(po.currency)
    case TotalVariance => Strays(total, po.grossAmount, cfg.totalToleranceAbs, cfg.totalTolerancePct)
    case TaxVariance =>
      && invoice.taxAmount.Some? && po.taxAmount != 0.0
      && Strays(invoice.taxAmount.value, po.taxAmount, cfg.taxToleranceAbs, cfg.totalTolerancePct)
    case LowConfidenceExtraction => invoice.confidence < cfg.minExtractionConfidence
    case OverAutoPostCeiling => total > cfg.autoPostCeiling
    case LineNotOnPo => exists k :: 0 <= k < |partners| && partners[k].None?
    case PriceVariance =>
      exists k: nat :: Paired(partners, poLines, k) && PriceStrays(lines[k], poLines[partners[k].value], cfg)
    case QuantityVariance =>
      exists k: nat :: Paired(partners, poLines, k) &&
        Strays(lines[k].quantity, poLines[partners[k].value].quantityOrdered, cfg.quantityToleranceAbs,
               cfg.quantityTolerancePct)
    case MissingGoodsReceipt =>
      && po.goodsReceiptRequired
      && (|| receipts == []
          || exists k: nat :: Paired(partners, poLines, k) &&
               lines[k].quantity > Arrived(receipts, poLines[partners[k].value]))
    case _ => false
  }

  /** What each kind of exception is raised for at the match node. */
  ghost predicate Raised(
    e: ExceptionType, text: Text, invoice: Invoice, order: Option<PurchaseOrder>, receipts: seq<GoodsReceipt>,
    cfg: MatchingConfig, partners: seq<Option<nat>>, duplicate: bool, vendor: Option<string>)
    requires |partners| == |invoice.lineItems|
  {
    match e
    case DuplicateInvoice => duplicate
    case UnknownVendor => vendor.None? && invoice.vendorName.Some? && invoice.vendorName.value != ""
    case MissingPo => order.None?
    case _ => order.Some? && RaisedOn(e, text, invoice, order.value, receipts, cfg, partners)
  }

  lemma {:induction false} LineOfReceipt(receipts: seq<GoodsReceipt>, line: ReceiptLine)
    ensures line in Lines(receipts) <==> exists receipt :: receipt in receipts && line in receipt.lines
  {
    if receipts != [] {
      var n := |receipts| - 1;
      LineOfReceipt(receipts[..n], line);
      assert receipts == receipts[..n] + [receipts[n]];
    }
  }

  lemma ArrivedIsReceived(receipts: seq<GoodsReceipt>, poLine: PoLine)
    ensures Arrived(receipts, poLine) == QuantityReceived(Received(Lines(receipts)), poLine)
  {
    var lines, number := Lines(receipts), poLine.lineNumber;
    ReceivedExact(lines);
    if Booked(receipts, number) {
      var receipt, line :| receipt in receipts && line in receipt.lines && line.poLineNumber == number;
      LineOfReceipt(receipts, line);
    }
    if number in Mentioned(lines) {
      var line :| line in lines && line.poLineNumber == number;
      LineOfReceipt(receipts, line);
    }
  }

  lemma PercentStraysExactly(value: real, reference: real, percent: real)
    ensures PercentDelta(value - reference, reference) <= percent <==> !PercentStrays(value, reference, percent)
  {
    hide PercentDelta, Q, Reach, FloorCents;
    PercentExact(value - reference, reference, percent);
    assert Abs(value - reference) == Off(value, reference) && Abs(reference) == Off(reference, 0.0);
    assert FloorCents(percent) + 0.005 == Reach(percent) by { SameReach(percent); }
  }

  lemma SameReach(threshold: real)
    ensures FloorCents(threshold) + 0.005 == Reach(threshold)
  {
  }

  lemma StraysExactly(field: Field, value: real, reference: real, tAbs: real, tPct: real, kind: ExceptionType)
    ensures BuildVariance(field, value, reference, tAbs, tPct, kind).withinTolerance
       <==> !Strays(value, reference, tAbs, tPct)
  {
    hide PercentDelta, PercentStrays, Q;
    PercentStraysExactly(value, reference, tPct);
  }

  lemma SameFactors(line: InvoiceLine, poLine: PoLine)
    ensures Abs(line.unitPrice - poLine.unitPrice) == Off(line.unitPrice, poLine.unitPrice)
    ensures PricedQuantity(line, poLine) == Priced(line, poLine)
  {
  }

  lemma StakeIs(line: InvoiceLine, poLine: PoLine)
    ensures ValueAtRisk(line, poLine) == Stake(line, poLine)
  {
    hide Abs, Off, PricedQuantity, Priced;
    SameFactors(line, poLine);
  }

  lemma PriceStraysExactly(line: InvoiceLine, poLine: PoLine, cfg: MatchingConfig)
    ensures BuildPriceVariance(line, poLine, cfg).withinTolerance <==> !PriceStrays(line, poLine, cfg)
  {
    hide PercentDelta, PercentStrays, Q, Reach, FloorCents, Stake, ValueAtRisk;
    PercentStraysExactly(line.unitPrice, poLine.unitPrice, cfg.priceTolerancePct);
    StakeIs(line, poLine);
    ImpactExact(ValueAtRisk(line, poLine), cfg.priceToleranceAbs);
    SameReach(cfg.priceToleranceAbs);
  }

  lemma PairedRaises(
    e: ExceptionType, line: InvoiceLine, poLine: PoLine, receipts: seq<GoodsReceipt>, threeWay: bool,
    cfg: MatchingConfig)
    ensures e in PairedExceptions(line, poLine, Received(Lines(receipts)), threeWay, cfg) <==>
            || (e.PriceVariance? && PriceStrays(line, poLine, cfg))
            || (e.QuantityVariance? &&
                Strays(line.quantity, poLine.quantityOrdered, cfg.quantityToleranceAbs, cfg.quantityTolerancePct))
            || (e.MissingGoodsReceipt? && threeWay && line.quantity > Arrived(receipts, poLine))
  {
    hide BuildVariance, BuildPriceVariance, Strays, PriceStrays, QuantityReceived, Arrived, Received;
    PriceStraysExactly(line, poLine, cfg);
    StraysExactly(QuantityField, line.quantity, poLine.quantityOrdered, cfg.quantityToleranceAbs,
                  cfg.quantityTolerancePct, ExceptionType.QuantityVariance);
    ArrivedIsReceived(receipts, poLine);
  }

  /** Something one of the lines is stopped for. */
  ghost predicate LineRaised(
    e: ExceptionType, invoice: Invoice, po: PurchaseOrder, receipts: seq<GoodsReceipt>, cfg: MatchingConfig,
    partners: seq<Option<nat>>, k: nat)
    requires |partners| == |invoice.lineItems| && k < |partners|
  {
    if !Paired(partners, po.lines, k) then e.LineNotOnPo?
    else
      var line, poLine := invoice.lineItems[k], po.lines[partners[k].value];
      || (e.PriceVariance? && PriceStrays(line, poLine, cfg))
      || (e.QuantityVariance? &&
          Strays(line.quantity, poLine.quantityOrdered, cfg.quantityToleranceAbs, cfg.quantityTolerancePct))
      || (e.MissingGoodsReceipt? && po.goodsReceiptRequired && line.quantity > Arrived(receipts, poLine))
  }

  lemma SomeLineRaises(
    e: ExceptionType, text: Text, invoice: Invoice, po: PurchaseOrder, receipts: seq<GoodsReceipt>,
    cfg: MatchingConfig, partners: seq<Option<nat>>)
    requires IsPairing(text, invoice.lineItems, po.lines, partners)
    ensures e in Flatten(ExceptionsByLine(text, invoice.lineItems, po.lines, Received(Lines(receipts)),
                                          po.goodsReceiptRequired, cfg))
       <==> exists k: nat :: k < |partners| && LineRaised(e, invoice, po, receipts, cfg, partners, k)
  {
    hide PairedExceptions, Strays, PriceStrays, Arrived, Received, Pairs, GreedyChoice;
    PairingUnique(text, invoice.lineItems, po.lines, partners);
    var byLine := ExceptionsByLine(text, invoice.lineItems, po.lines, Received(Lines(receipts)),
                                   po.goodsReceiptRequired, cfg);
    FlattenElements(byLine);
    forall k: nat | k < |partners|
      ensures e in byLine[k] <==> LineRaised(e, invoice, po, receipts, cfg, partners, k)
    {
      if Paired(partners, po.lines, k) {
        PairedRaises(e, invoice.lineItems[k], po.lines[partners[k].value], receipts, po.goodsReceiptRequired, cfg);
      }
    }
  }

  lemma FlagMember(e: ExceptionType, raised: bool, kind: ExceptionType)
    ensures e in Flag(raised, kind) <==> raised && e == kind
  {
  }

  lemma HeaderRaises(
    e: ExceptionType, text: Text, invoice: Invoice, po: PurchaseOrder, receipts: seq<GoodsReceipt>,
    cfg: MatchingConfig)
    ensures var total := if invoice.totalAmount.Some? then invoice.totalAmount.value else 0.0;
            e in HeaderExceptions(text, invoice, po, receipts, cfg) <==>
            || (e.MissingGoodsReceipt? && po.goodsReceiptRequired && receipts == [])
            || (e.CurrencyMismatch? && invoice.currency.Some? && invoice.currency.value != ""
                && text.upper(invoice.currency.value) != text.upper(po.currency))
            || (e.TotalVariance? && Strays(total, po.grossAmount, cfg.totalToleranceAbs, cfg.totalTolerancePct))
            || (e.TaxVariance? && invoice.taxAmount.Some? && po.taxAmount != 0.0
                && Strays(invoice.taxAmount.value, po.taxAmount, cfg.taxToleranceAbs, cfg.totalTolerancePct))
  {
    hide BuildVariance, Strays, Flag;
    StraysExactly(TotalField, invoice.Total(), po.grossAmount, cfg.totalToleranceAbs, cfg.totalTolerancePct,
                  ExceptionType.TotalVariance);
    if invoice.taxAmount.Some? {
      StraysExactly(TaxField, invoice.taxAmount.value, po.taxAmount, cfg.taxToleranceAbs, cfg.totalTolerancePct,
                    ExceptionType.TaxVariance);
    }
    FlagMember(e, po.goodsReceiptRequired && receipts == [], MissingGoodsReceipt);
    FlagMember(e, CurrencyDiffers(text, invoice, po), CurrencyMismatch);
    FlagMember(e, !TotalVarianceOf(invoice, po, cfg).withinTolerance, ExceptionType.TotalVariance);
    FlagMember(e, TaxCompared(invoice, po) && !TaxVarianceOf(invoice, po, cfg).withinTolerance,
               ExceptionType.TaxVariance);
  }

  lemma GateRaises(e: ExceptionType, invoice: Invoice, cfg: MatchingConfig)
    ensures var total := if invoice.totalAmount.Some? then invoice.totalAmount.value else 0.0;
            e in GateExceptions(invoice, cfg) <==>
            || (e.LowConfidenceExtraction? && invoice.confidence < cfg.minExtractionConfidence)
            || (e.OverAutoPostCeiling? && total > cfg.autoPostCeiling)
  {
  }

  lemma InRange(text: Text, invoice: Invoice, po: PurchaseOrder, partners: seq<Option<nat>>)
    requires IsPairing(text, invoice.lineItems, po.lines, partners)
    ensures forall k :: 0 <= k < |partners| && partners[k].Some? ==> partners[k].value < |po.lines|
  {
  }

  lemma EngineRaises(
    e: ExceptionType, text: Text, invoice: Invoice, po: PurchaseOrder, receipts: seq<GoodsReceipt>,
    cfg: MatchingConfig, partners: seq<Option<nat>>)
    requires IsPairing(text, invoice.lineItems, po.lines, partners)
    ensures e in Evaluate(text, invoice, Some(po), receipts, cfg).exceptions
       <==> RaisedOn(e, text, invoice, po, receipts, cfg, partners)
  {
    hide HeaderExceptions, ExceptionsByLine, GateExceptions, Strays, PriceStrays, Arrived, Received, Pairs;
    HeaderRaises(e, text, invoice, po, receipts, cfg);
    GateRaises(e, invoice, cfg);
    SomeLineRaises(e, text, invoice, po, receipts, cfg, partners);
    DedupSameElements(AllExceptions(text, invoice, po, receipts, cfg));
    InRange(text, invoice, po, partners);
    LinesTogether(e, text, invoice, po, receipts, cfg, partners);
  }

  lemma LinesTogether(
    e: ExceptionType, text: Text, invoice: Invoice, po: PurchaseOrder, receipts: seq<GoodsReceipt>,
    cfg: MatchingConfig, partners: seq<Option<nat>>)
    requires |partners| == |invoice.lineItems|
    requires forall k :: 0 <= k < |partners| && partners[k].Some? ==> partners[k].value < |po.lines|
    ensures var some := exists k: nat :: k < |partners| && LineRaised(e, invoice, po, receipts, cfg, partners, k);
            && (e.LineNotOnPo? || e.PriceVariance? || e.QuantityVariance? ==>
                  (some <==> RaisedOn(e, text, invoice, po, receipts, cfg, partners)))
            && (e.MissingGoodsReceipt? ==>
                  (RaisedOn(e, text, invoice, po, receipts, cfg, partners) <==>
                     some || (po.goodsReceiptRequired && receipts == [])))
            && (some ==> e.LineNotOnPo? || e.PriceVariance? || e.QuantityVariance? || e.MissingGoodsReceipt?)
  {
    hide Strays, PriceStrays, Arrived;
    forall k: nat | k < |partners|
      ensures partners[k].Some? <==> Paired(partners, po.lines, k)
    {
    }
    var lines, poLines := invoice.lineItems, po.lines;
    if RaisedOn(e, text, invoice, po, receipts, cfg, partners) {
      match e {
        case LineNotOnPo =>
          var k: nat :| k < |partners| && partners[k].None?;
          assert LineRaised(e, invoice, po, receipts, cfg, partners, k);
        case PriceVariance =>
          var k: nat :| Paired(partners, poLines, k) && PriceStrays(lines[k], poLines[partners[k].value], cfg);
          assert LineRaised(e, invoice, po, receipts, cfg, partners, k);
        case QuantityVariance =>
          var k: nat :| Paired(partners, poLines, k) &&
            Strays(lines[k].quantity, poLines[partners[k].value].quantityOrdered, cfg.quantityToleranceAbs,
                   cfg.quantityTolerancePct);
          assert LineRaised(e, invoice, po, receipts, cfg, partners, k);
        case MissingGoodsReceipt =>
          if receipts != [] {
            var k: nat :| Paired(partners, poLines, k) &&
              lines[k].quantity > Arrived(receipts, poLines[partners[k].value]);
            assert LineRaised(e, invoice, po, receipts, cfg, partners, k);
          }
        case _ =>
      }
    }
  }

  /** Every kind of exception is raised for exactly what it is meant for, each once. */
  lemma RaisedExactly(
    text: Text, invoice: Invoice, order: Option<PurchaseOrder>, receipts: seq<GoodsReceipt>, cfg: MatchingConfig,
    partners: seq<Option<nat>>, duplicate: bool, vendor: Option<string>)
    requires if order.Some? then IsPairing(text, invoice.lineItems, order.value.lines, partners)
             else |partners| == |invoice.lineItems|
    ensures var found := NodeReport(text, invoice, order, receipts, cfg, duplicate, vendor).exceptions;
            && (forall e :: e in found <==>
                  Raised(e, text, invoice, order, receipts, cfg, partners, duplicate, vendor))
            && NoDuplicates(found)
  {
    hide NodeReport, Acceptable, Strays, PriceStrays, Arrived, AllExceptions, GreedyChoice;
    NodeVerdict(text, invoice, order, receipts, cfg, duplicate, vendor);
    if order.Some? {
      forall e
        ensures e in Evaluate(text, invoice, order, receipts, cfg).exceptions
           <==> RaisedOn(e, text, invoice, order.value, receipts, cfg, partners)
      {
        EngineRaises(e, text, invoice, order.value, receipts, cfg, partners);
      }
    }
  }

  /** A three-way match that may be posted bills no line beyond what has arrived for its order line: the quantities of
      all receipt lines that name it, or when none does the quantity the order records. */
  lemma BillsWhatArrived(
    text: Text, invoice: Invoice, po: PurchaseOrder, receipts: seq<GoodsReceipt>, cfg: MatchingConfig,
    partners: seq<Option<nat>>, duplicate: bool, vendor: Option<string>, k: nat)
    requires IsPairing(text, invoice.lineItems, po.lines, partners) && k < |partners|
    requires po.goodsReceiptRequired
    requires NodeReport(text, invoice, Some(po), receipts, cfg, duplicate, vendor).IsPostable()
    ensures partners[k].Some? && partners[k].value < |po.lines|
    ensures var poLine := po.lines[partners[k].value];
            invoice.lineItems[k].quantity <=
            if exists receipt, line :: receipt in receipts && line in receipt.lines &&
                                       line.poLineNumber == poLine.lineNumber
            then QuantityFor(Lines(receipts), poLine.lineNumber)
            else poLine.quantityReceived
  {
    hide NodeReport, Acceptable, Strays, PriceStrays, AllExceptions, GreedyChoice;
    RaisedExactly(text, invoice, Some(po), receipts, cfg, partners, duplicate, vendor);
    NodeVerdict(text, invoice, Some(po), receipts, cfg, duplicate, vendor);
    InRange(text, invoice, po, partners);
    assert !Raised(LineNotOnPo, text, invoice, Some(po), receipts, cfg, partners, duplicate, vendor);
    assert Paired(partners, po.lines, k);
    assert !Raised(MissingGoodsReceipt, text, invoice, Some(po), receipts, cfg, partners, duplicate, vendor);
  }

  // The rest of the report

  /** A difference as it is shown: its figures rounded to cents, its tolerances, whether it is within them, and the
      exception it raises if it is not. */
  predicate Compared(
    v: Variance, field: Field, value: real, reference: real, absolute: real, percent: real, kind: ExceptionType,
    strays: bool)
  {
    && v.field == field && v.invoiceValue == Q(value) && v.referenceValue == Q(reference)
    && v.absoluteDelta == Q(value - reference)
    && v.percentDelta == (if reference != 0.0 then Q(Off(value, reference) / Off(reference, 0.0) * 100.0)
                          else if value == 0.0 then 0.0 else 100.0)
    && v.toleranceAbs == absolute && v.tolerancePct == percent && v.withinTolerance == !strays
    && v.exceptionType == if strays then Some(kind) else None
  }

  predicate PriceShown(v: Variance, line: InvoiceLine, poLine: PoLine, cfg: MatchingConfig) {
    && Compared(v, UnitPriceField, line.unitPrice, poLine.unitPrice, cfg.priceToleranceAbs, cfg.priceTolerancePct,
                ExceptionType.PriceVariance, PriceStrays(line, poLine, cfg))
    && v.valueImpact == Some(Q(Stake(line, poLine)))
  }

  predicate Shown(
    v: Variance, field: Field, value: real, reference: real, absolute: real, percent: real, kind: ExceptionType)
  {
    Compared(v, field, value, reference, absolute, percent, kind, Strays(value, reference, absolute, percent))
    && v.valueImpact.None?
  }

  lemma VarianceShown(field: Field, value: real, reference: real, tAbs: real, tPct: real, kind: ExceptionType)
    ensures Shown(BuildVariance(field, value, reference, tAbs, tPct, kind), field, value, reference, tAbs, tPct, kind)
  {
    hide Strays, Q;
    StraysExactly(field, value, reference, tAbs, tPct, kind);
    OffIs(value, reference);
  }

  lemma OffIs(value: real, reference: real)
    ensures Off(value, reference) == Abs(value - reference) && Off(reference, 0.0) == Abs(reference)
  {
  }

  lemma PriceVarianceShown(line: InvoiceLine, poLine: PoLine, cfg: MatchingConfig)
    ensures PriceShown(BuildPriceVariance(line, poLine, cfg), line, poLine, cfg)
  {
    hide PriceStrays, Q, Off, Stake, ValueAtRisk;
    PriceStraysExactly(line, poLine, cfg);
    OffIs(line.unitPrice, poLine.unitPrice);
    StakeIs(line, poLine);
  }

  /** What the report says of a line and the order line it is paired with. */
  ghost predicate PairShown(
    m: LineMatch, line: InvoiceLine, poLine: PoLine, receipts: seq<GoodsReceipt>, threeWay: bool,
    cfg: MatchingConfig)
  {
    && m.poLineNumber == Some(poLine.lineNumber)
    && m.description == (if line.description != "" then line.description else poLine.description)
    && m.quantityOrdered == poLine.quantityOrdered && m.quantityReceived == Arrived(receipts, poLine)
    && |m.variances| == (if threeWay then 3 else 2)
    && PriceShown(m.variances[0], line, poLine, cfg)
    && Shown(m.variances[1], QuantityField, line.quantity, poLine.quantityOrdered, cfg.quantityToleranceAbs,
             cfg.quantityTolerancePct, ExceptionType.QuantityVariance)
    && (threeWay ==>
          Shown(m.variances[2], QuantityReceivedField, line.quantity, Arrived(receipts, poLine),
                cfg.quantityToleranceAbs, cfg.quantityTolerancePct, ExceptionType.QuantityVariance))
  }

  /** What the report says of the line at k. */
  ghost predicate LineShown(
    m: LineMatch, invoice: Invoice, po: PurchaseOrder, receipts: seq<GoodsReceipt>, cfg: MatchingConfig,
    partners: seq<Option<nat>>, k: nat)
    requires |partners| == |invoice.lineItems| && k < |partners|
  {
    var line := invoice.lineItems[k];
    && m.invoiceLineNumber
       == (if line.lineNumber.Some? && line.lineNumber.value != 0 then line.lineNumber.value else k + 1)
    && m.quantityInvoiced == line.quantity && (m.matched <==> m.exceptions == [])
    && (forall e :: e in m.exceptions <==> LineRaised(e, invoice, po, receipts, cfg, partners, k))
    && if Paired(partners, po.lines, k) then
         PairShown(m, line, po.lines[partners[k].value], receipts, po.goodsReceiptRequired, cfg)
       else
         && m.poLineNumber.None? && m.description == line.description
         && m.quantityOrdered == 0.0 && m.quantityReceived == 0.0 && m.variances == []
  }

  lemma PairedShown(
    line: InvoiceLine, index: int, pair: Option<nat>, poLines: seq<PoLine>, receipts: seq<GoodsReceipt>,
    threeWay: bool, cfg: MatchingConfig)
    requires pair.Some? && pair.value < |poLines|
    ensures PairShown(JudgeLine(line, index, pair, poLines, Received(Lines(receipts)), threeWay, cfg), line,
                      poLines[pair.value], receipts, threeWay, cfg)
  {
    hide BuildVariance, BuildPriceVariance, Shown, PriceShown, PairedExceptions, QuantityReceived, Arrived, Received;
    var poLine := poLines[pair.value];
    ArrivedIsReceived(receipts, poLine);
    PriceVarianceShown(line, poLine, cfg);
    VarianceShown(QuantityField, line.quantity, poLine.quantityOrdered, cfg.quantityToleranceAbs,
                  cfg.quantityTolerancePct, ExceptionType.QuantityVariance);
    VarianceShown(QuantityReceivedField, line.quantity, Arrived(receipts, poLine), cfg.quantityToleranceAbs,
                  cfg.quantityTolerancePct, ExceptionType.QuantityVariance);
  }

  lemma JudgedShown(
    invoice: Invoice, po: PurchaseOrder, receipts: seq<GoodsReceipt>, cfg: MatchingConfig,
    partners: seq<Option<nat>>, k: nat)
    requires |partners| == |invoice.lineItems| && k < |partners|
    requires partners[k].Some? ==> partners[k].value < |po.lines|
    ensures LineShown(JudgeLine(invoice.lineItems[k], k + 1, partners[k], po.lines, Received(Lines(receipts)),
                                po.goodsReceiptRequired, cfg),
                      invoice, po, receipts, cfg, partners, k)
  {
    hide BuildVariance, BuildPriceVariance, PairedExceptions, PairShown, Strays, PriceStrays, Received, Arrived;
    var line := invoice.lineItems[k];
    if Paired(partners, po.lines, k) {
      var poLine := po.lines[partners[k].value];
      forall e
        ensures e in PairedExceptions(line, poLine, Received(Lines(receipts)), po.goodsReceiptRequired, cfg)
           <==> LineRaised(e, invoice, po, receipts, cfg, partners, k)
      {
        PairedRaises(e, line, poLine, receipts, po.goodsReceiptRequired, cfg);
      }
      PairedShown(line, k + 1, partners[k], po.lines, receipts, po.goodsReceiptRequired, cfg);
    }
  }

  /** The header differences: the totals always, the taxes when both are there. */
  predicate HeaderShown(variances: seq<Variance>, invoice: Invoice, po: PurchaseOrder, cfg: MatchingConfig) {
    var total := if invoice.totalAmount.Some? then invoice.totalAmount.value else 0.0;
    && |variances| == (if invoice.taxAmount.Some? && po.taxAmount != 0.0 then 2 else 1)
    && Shown(variances[0], TotalField, total, po.grossAmount, cfg.totalToleranceAbs, cfg.totalTolerancePct,
             ExceptionType.TotalVariance)
    && (invoice.taxAmount.Some? && po.taxAmount != 0.0 ==>
          Shown(variances[1], TaxField, invoice.taxAmount.value, po.taxAmount, cfg.taxToleranceAbs,
                cfg.totalTolerancePct, ExceptionType.TaxVariance))
  }

  lemma HeaderVariancesShown(invoice: Invoice, po: PurchaseOrder, cfg: MatchingConfig)
    ensures HeaderShown(HeaderVariances(invoice, po, cfg), invoice, po, cfg)
  {
    hide BuildVariance, Shown;
    VarianceShown(TotalField, invoice.Total(), po.grossAmount, cfg.totalToleranceAbs, cfg.totalTolerancePct,
                  ExceptionType.TotalVariance);
    if invoice.taxAmount.Some? {
      VarianceShown(TaxField, invoice.taxAmount.value, po.taxAmount, cfg.taxToleranceAbs, cfg.totalTolerancePct,
                    ExceptionType.TaxVariance);
    }
  }

  lemma LinesShown(
    text: Text, invoice: Invoice, po: PurchaseOrder, receipts: seq<GoodsReceipt>, cfg: MatchingConfig,
    partners: seq<Option<nat>>, k: nat)
    requires IsPairing(text, invoice.lineItems, po.lines, partners) && k < |invoice.lineItems|
    ensures LineShown(LineMatches(text, invoice.lineItems, po.lines, Received(Lines(receipts)),
                                  po.goodsReceiptRequired, cfg)[k],
                      invoice, po, receipts, cfg, partners, k)
  {
    hide JudgeLine, LineShown, GreedyChoice, Received, Pairs;
    PairingUnique(text, invoice.lineItems, po.lines, partners);
    InRange(text, invoice, po, partners);
    JudgedShown(invoice, po, receipts, cfg, partners, k);
  }

  lemma NodeKeeps(
    text: Text, invoice: Invoice, order: Option<PurchaseOrder>, receipts: seq<GoodsReceipt>, cfg: MatchingConfig,
    duplicate: bool, vendor: Option<string>)
    ensures var report := NodeReport(text, invoice, order, receipts, cfg, duplicate, vendor);
            var engine := Evaluate(text, invoice, order, receipts, cfg);
            && report == engine.(exceptions := report.exceptions, outcome := report.outcome,
                                 vendorId := if vendor.Some? then vendor else engine.vendorId)
            && ((report.exceptions == engine.exceptions && report.outcome == engine.outcome)
                || (report.exceptions != [] && report.outcome == Exception))
  {
    hide Evaluate, Dedup;
    var engine := Evaluate(text, invoice, order, receipts, cfg);
    DedupSameElements([DuplicateInvoice] + engine.exceptions);
    DedupSameElements(WithDuplicate(engine, duplicate).exceptions + [UnknownVendor]);
  }

  /** Everything else the match node reports: which documents were compared, the differences in the header and in every
      line, the amount matched, the vendor to pay and the outcome. */
  lemma ReportReads(
    text: Text, invoice: Invoice, po: PurchaseOrder, receipts: seq<GoodsReceipt>, cfg: MatchingConfig,
    partners: seq<Option<nat>>, duplicate: bool, vendor: Option<string>)
    requires IsPairing(text, invoice.lineItems, po.lines, partners)
    ensures var report := NodeReport(text, invoice, Some(po), receipts, cfg, duplicate, vendor);
            && report.matchType == (if po.goodsReceiptRequired then ThreeWay else TwoWay)
            && report.poNumber == Some(po.poNumber)
            && |report.grNumbers| == |receipts|
            && (forall k :: 0 <= k < |receipts| ==> report.grNumbers[k] == receipts[k].grNumber)
            && report.vendorId == (if vendor.Some? then vendor else Some(po.vendorId))
            && report.confidence == invoice.confidence
            && report.matchedAmount == Q(if invoice.totalAmount.Some? then invoice.totalAmount.value else 0.0)
            && HeaderShown(report.headerVariances, invoice, po, cfg)
            && |report.lineMatches| == |invoice.lineItems|
            && (forall k: nat :: k < |invoice.lineItems| ==>
                  LineShown(report.lineMatches[k], invoice, po, receipts, cfg, partners, k))
            && report.outcome == (if report.exceptions != [] then Exception
                                  else if forall v :: v in report.headerVariances ==> v.absoluteDelta == 0.0
                                  then Matched
                                  else MatchedWithinTolerance)
  {
    hide NodeReport, AllExceptions, HeaderVariances, HeaderShown, LineShown, LineMatches, GreedyChoice, Received;
    HeaderVariancesShown(invoice, po, cfg);
    NodeKeeps(text, invoice, Some(po), receipts, cfg, duplicate, vendor);
    forall k: nat | k < |invoice.lineItems|
      ensures LineShown(LineMatches(text, invoice.lineItems, po.lines, Received(Lines(receipts)),
                                    po.goodsReceiptRequired, cfg)[k],
                        invoice, po, receipts, cfg, partners, k)
    {
      LinesShown(text, invoice, po, receipts, cfg, partners, k);
    }
  }

  /** Without an order there is nothing to compare, and the amount is the one printed. */
  lemma NonPoReads(
    text: Text, invoice: Invoice, receipts: seq<GoodsReceipt>, cfg: MatchingConfig, duplicate: bool,
    vendor: Option<string>)
    ensures var report := NodeReport(text, invoice, None, receipts, cfg, duplicate, vendor);
            && report.matchType == NonPo && report.outcome == Exception && MissingPo in report.exceptions
            && report.poNumber.None? && report.vendorId == vendor
            && report.matchedAmount == (if invoice.totalAmount.Some? then invoice.totalAmount.value else 0.0)
            && report.confidence == invoice.confidence
            && report.grNumbers == [] && report.headerVariances == [] && report.lineMatches == []
  {
    hide NodeReport;
    NodeKeeps(text, invoice, None, receipts, cfg, duplicate, vendor);
    NodeVerdict(text, invoice, None, receipts, cfg, duplicate, vendor);
  }

  /** The shipped settings in figures: what a difference from the order has to reach before it stops an invoice, and the
      gates. */
  lemma ShippedThresholds(line: InvoiceLine, poLine: PoLine, po: PurchaseOrder, total: real, tax: real)
    ensures var c := DEFAULT_CONFIG;
            && (poLine.unitPrice != 0.0 ==>
                  (PriceStrays(line, poLine, c) <==>
                     && 100.0 * Off(line.unitPrice, poLine.unitPrice) >= 2.005 * Off(poLine.unitPrice, 0.0)
                     && Stake(line, poLine) >= 5.005))
            && (poLine.quantityOrdered != 0.0 ==>
                  (Strays(line.quantity, poLine.quantityOrdered, c.quantityToleranceAbs, c.quantityTolerancePct) <==>
                     100.0 * Off(line.quantity, poLine.quantityOrdered) >= 0.005 * Off(poLine.quantityOrdered, 0.0)))
            && (po.grossAmount != 0.0 ==>
                  (Strays(total, po.grossAmount, c.totalToleranceAbs, c.totalTolerancePct) <==>
                     && Off(total, po.grossAmount) > 10.0
                     && 100.0 * Off(total, po.grossAmount) >= 1.005 * Off(po.grossAmount, 0.0)))
            && (po.taxAmount != 0.0 ==>
                  (Strays(tax, po.taxAmount, c.taxToleranceAbs, c.totalTolerancePct) <==>
                     && Off(tax, po.taxAmount) > 1.0
                     && 100.0 * Off(tax, po.taxAmount) >= 1.005 * Off(po.taxAmount, 0.0)))
            && c.autoPostCeiling == 25000.0 && c.minExtractionConfidence == 0.75 && c.remittanceToleranceAbs == 2.0
  {
    hide Stake;
    assert Reach(2.0) == 2.005 && Reach(5.0) == 5.005 && Reach(0.0) == 0.005 && Reach(1.0) == 1.005;
  }

  // The order of the exceptions

  /** When a kind of exception is found: the duplicate first, then the header, the lines, the gates, and the vendor
      last. */
  function StageOf(e: ExceptionType): nat {
    match e
    case DuplicateInvoice => 0
    case CurrencyMismatch => 1
    case TotalVariance => 2
    case TaxVariance => 3
    case LowConfidenceExtraction => 5
    case OverAutoPostCeiling => 6
    case UnknownVendor => 7
    case _ => 4
  }

  /** Earlier kinds before later ones. A missing receipt may be the header's or a line's. */
  ghost predicate Staged(found: seq<ExceptionType>) {
    forall i, j :: 0 <= i < j < |found| && !found[i].MissingGoodsReceipt? && !found[j].MissingGoodsReceipt? ==>
      StageOf(found[i]) <= StageOf(found[j])
  }

  lemma StagedTogether(xs: seq<ExceptionType>, ys: seq<ExceptionType>, n: nat)
    requires Staged(xs) && Staged(ys)
    requires forall e :: e in xs && !e.MissingGoodsReceipt? ==> StageOf(e) <= n
    requires forall e :: e in ys && !e.MissingGoodsReceipt? ==> n <= StageOf(e)
    ensures Staged(xs + ys)
  {
    hide StageOf;
    forall i, j | 0 <= i < j < |xs + ys| && !(xs + ys)[i].MissingGoodsReceipt? && !(xs + ys)[j].MissingGoodsReceipt?
      ensures StageOf((xs + ys)[i]) <= StageOf((xs + ys)[j])
    {
      if i < |xs| <= j {
        assert xs[i] in xs && ys[j - |xs|] in ys;
      }
    }
  }

  lemma DedupStaged(xs: seq<ExceptionType>)
    requires Staged(xs)
    ensures Staged(Dedup(xs))
  {
    hide StageOf;
    DedupSameElements(xs);
    var found := Dedup(xs);
    forall i, j | 0 <= i < j < |found| && !found[i].MissingGoodsReceipt? && !found[j].MissingGoodsReceipt?
      ensures StageOf(found[i]) <= StageOf(found[j])
    {
      DedupKeepsOrder(xs, i, j);
      var p :| 0 <= p < |xs| && xs[p] == found[i] && found[j] !in xs[..p + 1];
      assert found[j] in xs;
      var q :| 0 <= q < |xs| && xs[q] == found[j];
      assert forall r :: 0 <= r < p + 1 ==> xs[..p + 1][r] == xs[r] && xs[..p + 1][r] != found[j];
    }
  }

  lemma HeaderStaged(
    text: Text, invoice: Invoice, po: PurchaseOrder, receipts: seq<GoodsReceipt>, cfg: MatchingConfig)
    ensures Staged(HeaderExceptions(text, invoice, po, receipts, cfg))
    ensures forall e :: e in HeaderExceptions(text, invoice, po, receipts, cfg) ==>
              1 <= StageOf(e) <= 4 && (!e.MissingGoodsReceipt? ==> StageOf(e) <= 3)
  {
    hide BuildVariance, CurrencyDiffers;
  }

  lemma LinesStaged(
    text: Text, lines: seq<InvoiceLine>, poLines: seq<PoLine>, received: map<int, real>, threeWay: bool,
    cfg: MatchingConfig)
    ensures var found := Flatten(ExceptionsByLine(text, lines, poLines, received, threeWay, cfg));
            Staged(found) && forall e :: e in found ==> StageOf(e) == 4
  {
    hide LineExceptions, Pairs, StageOf;
    var byLine := ExceptionsByLine(text, lines, poLines, received, threeWay, cfg);
    FlattenElements(byLine);
    var found := Flatten(byLine);
    forall e | e in found
      ensures StageOf(e) == 4
    {
      var k :| 0 <= k < |byLine| && e in byLine[k];
      LineStaged(lines[k], Pairs(text, lines, poLines)[k], poLines, received, threeWay, cfg, e);
    }
    assert forall i :: 0 <= i < |found| ==> found[i] in found;
  }

  lemma LineStaged(
    line: InvoiceLine, pair: Option<nat>, poLines: seq<PoLine>, received: map<int, real>, threeWay: bool,
    cfg: MatchingConfig, e: ExceptionType)
    requires e in LineExceptions(line, pair, poLines, received, threeWay, cfg)
    ensures StageOf(e) == 4
  {
    hide BuildPriceVariance, BuildQuantityVariance;
  }

  lemma EngineStaged(
    text: Text, invoice: Invoice, order: Option<PurchaseOrder>, receipts: seq<GoodsReceipt>, cfg: MatchingConfig)
    ensures var found := Evaluate(text, invoice, order, receipts, cfg).exceptions;
            Staged(found) && forall e :: e in found ==> 1 <= StageOf(e) <= 6
  {
    hide HeaderExceptions, ExceptionsByLine, Staged;
    if order.None? {
      assert Staged([MissingPo]) by { OneStaged(MissingPo); }
    } else {
      var po := order.value;
      var header := HeaderExceptions(text, invoice, po, receipts, cfg);
      var byLine := Flatten(ExceptionsByLine(text, invoice.lineItems, po.lines, Received(Lines(receipts)),
                                             po.goodsReceiptRequired, cfg));
      HeaderStaged(text, invoice, po, receipts, cfg);
      LinesStaged(text, invoice.lineItems, po.lines, Received(Lines(receipts)), po.goodsReceiptRequired, cfg);
      StagedTogether(header, byLine, 4);
      GatesStaged(invoice, cfg);
      StagedTogether(header + byLine, GateExceptions(invoice, cfg), 5);
      DedupStaged(AllExceptions(text, invoice, po, receipts, cfg));
      DedupSameElements(AllExceptions(text, invoice, po, receipts, cfg));
      EarlierStages(header, byLine);
    }
  }

  lemma OneStaged(e: ExceptionType)
    ensures Staged([e]) && Staged([])
  {
  }

  lemma GatesStaged(invoice: Invoice, cfg: MatchingConfig)
    ensures Staged(GateExceptions(invoice, cfg))
    ensures forall e :: e in GateExceptions(invoice, cfg) ==> 5 <= StageOf(e) <= 6
  {
  }

  lemma EarlierStages(header: seq<ExceptionType>, byLine: seq<ExceptionType>)
    requires forall e :: e in header && !e.MissingGoodsReceipt? ==> StageOf(e) <= 3
    requires forall e :: e in byLine ==> StageOf(e) == 4
    ensures forall e :: e in header + byLine ==> StageOf(e) <= 4
  {
  }

  /** The exceptions stand in the order in which they are looked for. */
  lemma RaisedInOrder(
    text: Text, invoice: Invoice, order: Option<PurchaseOrder>, receipts: seq<GoodsReceipt>, cfg: MatchingConfig,
    duplicate: bool, vendor: Option<string>)
    ensures Staged(NodeReport(text, invoice, order, receipts, cfg, duplicate, vendor).exceptions)
  {
    hide Evaluate, Staged;
    var engine := Evaluate(text, invoice, order, receipts, cfg);
    EngineStaged(text, invoice, order, receipts, cfg);
    OneStaged(DuplicateInvoice);
    OneStaged(UnknownVendor);
    StagedTogether([DuplicateInvoice], engine.exceptions, 0);
    DedupStaged([DuplicateInvoice] + engine.exceptions);
    DedupSameElements([DuplicateInvoice] + engine.exceptions);
    var hardened := WithDuplicate(engine, duplicate).exceptions;
    StagedTogether(hardened, [UnknownVendor], 7);
    DedupStaged(hardened + [UnknownVendor]);
  }
}
