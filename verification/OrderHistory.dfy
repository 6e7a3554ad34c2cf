/** What the matching engine never looks at: whose order it is, what state it is in and how much of it was billed. */
module OrderHistory {
  import opened Prelude
  import opened Schemas
  import opened Pairing
  import opened Receipts
  import opened Tolerance
  import opened Verdict

  predicate SameLine(a: PoLine, b: PoLine) {
    a.(quantityInvoiced := b.quantityInvoiced) == b
  }

  predicate SameLines(a: seq<PoLine>, b: seq<PoLine>) {
    |a| == |b| && forall k :: 0 <= k < |a| ==> SameLine(a[k], b[k])
  }

  /** Equal but for the vendor, the status and the quantities already invoiced. */
  predicate SameTerms(a: PurchaseOrder, b: PurchaseOrder) {
    a.(vendorId := b.vendorId, status := b.status, lines := b.lines) == b && SameLines(a.lines, b.lines)
  }

  lemma SameGreedy(
    text: Text, line: InvoiceLine, a: seq<PoLine>, b: seq<PoLine>, consumed: set<int>, r: Option<nat>)
    requires SameLines(a, b) && GreedyChoice(text, line, a, consumed, r)
    ensures GreedyChoice(text, line, b, consumed, r)
  {
    assert forall k :: 0 <= k < |a| ==> SameLine(a[k], b[k]);
    assert NoNumberHit(line, a, consumed) == NoNumberHit(line, b, consumed);
    assert NoCodeHit(text, line, a, consumed) == NoCodeHit(text, line, b, consumed);
    if exists i :: 0 <= i < |b| && FuzzyHit(text, line, b[i], consumed) {
      var i :| 0 <= i < |b| && FuzzyHit(text, line, b[i], consumed);
      assert FuzzyHit(text, line, a[i], consumed);
    }
  }

  lemma SamePartner(text: Text, line: InvoiceLine, a: seq<PoLine>, b: seq<PoLine>, consumed: set<int>)
    requires SameLines(a, b)
    ensures PairLine(text, line, a, consumed) == PairLine(text, line, b, consumed)
  {
    hide GreedyChoice, PairLine, SameLines;
    var r := PairLine(text, line, a, consumed);
    GreedyChoiceUnique(text, line, a, consumed, r);
    SameGreedy(text, line, a, b, consumed, r);
    GreedyChoiceUnique(text, line, b, consumed, r);
  }

  lemma {:induction false} SameConsumed(pairs: seq<Option<nat>>, a: seq<PoLine>, b: seq<PoLine>)
    requires SameLines(a, b)
    ensures Consumed(pairs, a) == Consumed(pairs, b)
  {
    if pairs != [] {
      SameConsumed(pairs[..|pairs| - 1], a, b);
      assert pairs[|pairs| - 1].Some? && pairs[|pairs| - 1].value < |a| ==>
          SameLine(a[pairs[|pairs| - 1].value], b[pairs[|pairs| - 1].value]);
    }
  }

  lemma {:induction false} SamePairs(text: Text, lines: seq<InvoiceLine>, a: seq<PoLine>, b: seq<PoLine>)
    requires SameLines(a, b)
    ensures Pairs(text, lines, a) == Pairs(text, lines, b)
  {
    hide PairLine, SameLines, Consumed;
    if lines != [] {
      var n := |lines| - 1;
      SamePairs(text, lines[..n], a, b);
      var init := Pairs(text, lines[..n], a);
      SameConsumed(init, a, b);
      SamePartner(text, lines[n], a, b, Consumed(init, a));
    }
  }

  lemma SameLineVerdict(
    line: InvoiceLine, a: PoLine, b: PoLine, received: map<int, real>, threeWay: bool, cfg: MatchingConfig)
    requires SameLine(a, b)
    ensures LineAcceptable(line, a, received, threeWay, cfg) == LineAcceptable(line, b, received, threeWay, cfg)
  {
    hide PercentRegion, ImpactRegion;
    assert b.unitPrice == a.unitPrice && b.quantityOrdered == a.quantityOrdered && b.lineNumber == a.lineNumber;
    assert b.quantityReceived == a.quantityReceived;
    assert ValueAtRisk(line, b) == ValueAtRisk(line, a);
  }

  lemma SameLinesVerdict(
    text: Text, lines: seq<InvoiceLine>, a: seq<PoLine>, b: seq<PoLine>, received: map<int, real>, threeWay: bool,
    cfg: MatchingConfig)
    requires SameLines(a, b)
    ensures LinesAcceptable(text, lines, a, received, threeWay, cfg)
       <==> LinesAcceptable(text, lines, b, received, threeWay, cfg)
  {
    hide Pairs, LineAcceptable;
    SamePairs(text, lines, a, b);
    forall line: InvoiceLine, j | 0 <= j < |a|
      ensures LineAcceptable(line, a[j], received, threeWay, cfg) == LineAcceptable(line, b[j], received, threeWay, cfg)
    {
      SameLineVerdict(line, a[j], b[j], received, threeWay, cfg);
    }
  }

  /** The verdict on an invoice is the same on every order with the same terms: billed or not, open or closed,
      whoever the order was placed with. */
  lemma VerdictIgnoresHistory(
    text: Text, invoice: Invoice, a: PurchaseOrder, b: PurchaseOrder, receipts: seq<GoodsReceipt>, cfg: MatchingConfig)
    requires SameTerms(a, b)
    ensures Acceptable(text, invoice, Some(a), receipts, cfg) <==> Acceptable(text, invoice, Some(b), receipts, cfg)
  {
    hide LinesAcceptable, Received, SameLines;
    SameLinesVerdict(text, invoice.lineItems, a.lines, b.lines, Received(Lines(receipts)), a.goodsReceiptRequired, cfg);
  }
}
