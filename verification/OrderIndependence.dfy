/** Neither the order of invoice lines nor the booking order of deliveries changes a verdict
    when the invoice quotes purchase order line numbers. */
module OrderIndependence {
  import opened Prelude
  import opened Schemas
  import opened Tolerance
  import opened Pairing
  import opened Receipts
  import opened Matching

  ghost predicate OnOrder(line: InvoiceLine, poLines: seq<PoLine>) {
    && line.poLineNumber.Some?
    && exists i :: 0 <= i < |poLines| && poLines[i].lineNumber == line.poLineNumber.value
  }

  /** Every invoice line quotes its own purchase order line, and the order numbers its lines uniquely. */
  ghost predicate QuotesLines(lines: seq<InvoiceLine>, poLines: seq<PoLine>) {
    && (forall i, j :: 0 <= i < j < |poLines| ==> poLines[i].lineNumber != poLines[j].lineNumber)
    && (forall k :: 0 <= k < |lines| ==> OnOrder(lines[k], poLines))
    && (forall j, k :: 0 <= j < k < |lines| ==> lines[j].poLineNumber != lines[k].poLineNumber)
  }

  lemma {:induction false} PairedWithQuoted(text: Text, lines: seq<InvoiceLine>, poLines: seq<PoLine>, k: nat)
    requires QuotesLines(lines, poLines)
    requires k < |lines|
    ensures var pair := Pairs(text, lines, poLines)[k];
            pair.Some? && pair.value < |poLines| && poLines[pair.value].lineNumber == lines[k].poLineNumber.value
    decreases k
  {
    var pairs := Pairs(text, lines, poLines);
    assert OnOrder(lines[k], poLines);
    var number := lines[k].poLineNumber.value;
    var consumed := Consumed(pairs[..k], poLines);
    forall j | 0 <= j < k
      ensures number !in Takes(pairs[..k][j], poLines)
    {
      PairedWithQuoted(text, lines, poLines, j);
    }
    ConsumedExact(pairs[..k], poLines, number);
    var i :| 0 <= i < |poLines| && poLines[i].lineNumber == number;
    assert NumberHit(lines[k], poLines[i], consumed);
    PairsAt(text, lines, poLines, k);
    PairLineIsGreedy(text, lines[k], poLines, consumed);
  }

  function Permuted<T>(xs: seq<T>, perm: seq<nat>): (r: seq<T>)
    requires |perm| == |xs| && forall k :: 0 <= k < |perm| ==> perm[k] < |xs|
    ensures |r| == |xs|
    ensures forall k :: 0 <= k < |r| ==> r[k] == xs[perm[k]]
  {
    seq(|xs|, k requires 0 <= k < |xs| => xs[perm[k]])
  }

  lemma PermutedStillQuotes(lines: seq<InvoiceLine>, poLines: seq<PoLine>, perm: seq<nat>)
    requires QuotesLines(lines, poLines) && IsPermutation(perm, |lines|)
    ensures QuotesLines(Permuted(lines, perm), poLines)
  {
    var p := Permuted(lines, perm);
    forall j, k | 0 <= j < k < |p|
      ensures p[j].poLineNumber != p[k].poLineNumber
    {
      assert perm[j] != perm[k];
    }
  }

  /** A line keeps its partner, and so its own exceptions, wherever it stands. */
  lemma LineExceptionsMove(
    text: Text, lines: seq<InvoiceLine>, poLines: seq<PoLine>, received: map<int, real>, threeWay: bool,
    cfg: MatchingConfig, perm: seq<nat>, k: nat)
    requires QuotesLines(lines, poLines) && IsPermutation(perm, |lines|)
    requires k < |lines|
    ensures ExceptionsByLine(text, Permuted(lines, perm), poLines, received, threeWay, cfg)[k]
         == ExceptionsByLine(text, lines, poLines, received, threeWay, cfg)[perm[k]]
  {
    hide LineExceptions, Pairs, OnOrder;
    var moved := Permuted(lines, perm);
    PermutedStillQuotes(lines, poLines, perm);
    PairedWithQuoted(text, moved, poLines, k);
    PairedWithQuoted(text, lines, poLines, perm[k]);
    var i, j := Pairs(text, moved, poLines)[k].value, Pairs(text, lines, poLines)[perm[k]].value;
    assert poLines[i].lineNumber == poLines[j].lineNumber;
    assert i == j;
  }

  lemma LinesPermute(
    text: Text, lines: seq<InvoiceLine>, poLines: seq<PoLine>, received: map<int, real>, threeWay: bool,
    cfg: MatchingConfig, perm: seq<nat>, e: ExceptionType)
    requires QuotesLines(lines, poLines) && IsPermutation(perm, |lines|)
    ensures e in Flatten(ExceptionsByLine(text, Permuted(lines, perm), poLines, received, threeWay, cfg))
       <==> e in Flatten(ExceptionsByLine(text, lines, poLines, received, threeWay, cfg))
  {
    hide LineExceptions, Pairs, QuotesLines;
    var byMoved := ExceptionsByLine(text, Permuted(lines, perm), poLines, received, threeWay, cfg);
    var byLine := ExceptionsByLine(text, lines, poLines, received, threeWay, cfg);
    forall k | 0 <= k < |lines|
      ensures byMoved[k] == byLine[perm[k]]
    {
      LineExceptionsMove(text, lines, poLines, received, threeWay, cfg, perm, k);
    }
    FlattenPermuted(byMoved, byLine, perm);
  }

  lemma HeaderIgnoresLines(
    text: Text, invoice: Invoice, lines: seq<InvoiceLine>, po: PurchaseOrder,
    receipts: seq<GoodsReceipt>, rebooked: seq<GoodsReceipt>, cfg: MatchingConfig)
    requires receipts == [] <==> rebooked == []
    ensures var other := invoice.(lineItems := lines);
            && HeaderExceptions(text, invoice, po, receipts, cfg) == HeaderExceptions(text, other, po, rebooked, cfg)
            && HeaderVariances(invoice, po, cfg) == HeaderVariances(other, po, cfg)
            && GateExceptions(invoice, cfg) == GateExceptions(other, cfg)
  {
    hide BuildVariance;
  }

  lemma AllExceptionsPermute(
    text: Text, invoice: Invoice, po: PurchaseOrder, receipts: seq<GoodsReceipt>, rebooked: seq<GoodsReceipt>,
    perm: seq<nat>, cfg: MatchingConfig, e: ExceptionType)
    requires QuotesLines(invoice.lineItems, po.lines) && IsPermutation(perm, |invoice.lineItems|)
    requires Received(Lines(receipts)) == Received(Lines(rebooked))
    requires receipts == [] <==> rebooked == []
    ensures e in AllExceptions(text, invoice, po, receipts, cfg)
       <==> e in AllExceptions(text, invoice.(lineItems := Permuted(invoice.lineItems, perm)), po, rebooked, cfg)
  {
    hide LineExceptions, Pairs, Received, QuotesLines, ExceptionsByLine, HeaderExceptions, GateExceptions;
    var moved := Permuted(invoice.lineItems, perm);
    LinesPermute(text, invoice.lineItems, po.lines, Received(Lines(receipts)), po.goodsReceiptRequired, cfg, perm, e);
    var invoice' := invoice.(lineItems := moved);
    HeaderIgnoresLines(text, invoice, moved, po, receipts, rebooked, cfg);
  }

  /** Permuting the invoice lines, and re-booking the deliveries in any way that keeps what was received of each line,
      leaves the exceptions raised, the outcome and the amount as they were. */
  lemma OrderIndependent(
    text: Text, invoice: Invoice, po: PurchaseOrder, receipts: seq<GoodsReceipt>, rebooked: seq<GoodsReceipt>,
    perm: seq<nat>, cfg: MatchingConfig)
    requires QuotesLines(invoice.lineItems, po.lines) && IsPermutation(perm, |invoice.lineItems|)
    requires Received(Lines(receipts)) == Received(Lines(rebooked))
    requires receipts == [] <==> rebooked == []
    ensures var before := Evaluate(text, invoice, Some(po), receipts, cfg);
            var after := Evaluate(text, invoice.(lineItems := Permuted(invoice.lineItems, perm)), Some(po), rebooked,
                                  cfg);
            && (forall e :: e in before.exceptions <==> e in after.exceptions)
            && before.outcome == after.outcome
            && before.matchedAmount == after.matchedAmount
            && before.headerVariances == after.headerVariances
  {
    hide AllExceptions, QuotesLines, LineMatches;
    var invoice' := invoice.(lineItems := Permuted(invoice.lineItems, perm));
    var allBefore := AllExceptions(text, invoice, po, receipts, cfg);
    var allAfter := AllExceptions(text, invoice', po, rebooked, cfg);
    forall e
      ensures e in allBefore <==> e in allAfter
    {
      AllExceptionsPermute(text, invoice, po, receipts, rebooked, perm, cfg, e);
    }
    DedupSameElements(allBefore);
    DedupSameElements(allAfter);
    NonEmptyCarries(allBefore, allAfter);
    NonEmptyCarries(allAfter, allBefore);
    HeaderIgnoresLines(text, invoice, invoice'.lineItems, po, receipts, rebooked, cfg);
  }

  /** Whatever the invoice quotes, the report knows of the receipts only which there are and what was received of each
      line: re-booked in another order or grouping, or with a delivery split in two, it is the same report. */
  lemma RebookingChangesNothing(
    text: Text, invoice: Invoice, po: PurchaseOrder, receipts: seq<GoodsReceipt>, rebooked: seq<GoodsReceipt>,
    cfg: MatchingConfig)
    requires Received(Lines(receipts)) == Received(Lines(rebooked)) && (receipts == [] <==> rebooked == [])
    ensures Evaluate(text, invoice, Some(po), rebooked, cfg)
         == Evaluate(text, invoice, Some(po), receipts, cfg).(grNumbers := GrNumbers(rebooked))
  {
    hide Received, Lines;
  }

  lemma SplittingChangesNothing(
    text: Text, invoice: Invoice, po: PurchaseOrder, receipts: seq<GoodsReceipt>, rebooked: seq<GoodsReceipt>,
    cfg: MatchingConfig, xs: seq<ReceiptLine>, line: ReceiptLine, part: real, ys: seq<ReceiptLine>)
    requires Lines(receipts) == xs + [line] + ys
    requires Lines(rebooked) == xs + [line.(quantityReceived := part),
                                      line.(quantityReceived := line.quantityReceived - part)] + ys
    ensures Evaluate(text, invoice, Some(po), rebooked, cfg)
         == Evaluate(text, invoice, Some(po), receipts, cfg).(grNumbers := GrNumbers(rebooked))
  {
    hide Received, Evaluate;
    ReceivedSplit(xs, line, part, ys);
    RebookingChangesNothing(text, invoice, po, receipts, rebooked, cfg);
  }
}
