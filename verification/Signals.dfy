/** What the extraction score rewards, told on the fields of the invoice: each of its seven checks, what each of them is
    worth, and that the order of the lines does not matter. */
module Signals {
  import opened Prelude
  import opened Money
  import opened Schemas
  import opened Confidence

  predicate Close(x: real, y: real) {
    -0.05 <= x - y <= 0.05
  }

  function Yes(b: bool): real {
    if b then 1.0 else 0.0
  }

  /** The lines' totals, in the order they are printed. */
  predicate Totals(lines: seq<InvoiceLine>, totals: seq<real>) {
    |totals| == |lines| && forall k :: 0 <= k < |lines| ==> totals[k] == lines[k].lineTotal
  }

  /** The lines add up to the subtotal exactly when the sum of all their totals, rounded half-even to cents, is within
      five cents of it. Without a subtotal or without lines there is nothing to check, and half the credit. */
  lemma LinesSumExactly(invoice: Invoice, totals: seq<real>, cents: int)
    requires Totals(invoice.lineItems, totals) && NearestEven(cents, 100.0 * Sum(totals))
    ensures SignalOf(invoice, LinesSumToSubtotal)
         == if invoice.subtotal.Some? && invoice.lineItems != []
            then Yes(Close(cents as real / 100.0, invoice.subtotal.value))
            else 0.5
  {
    QEvenIsNearest(Sum(totals), cents);
    assert LineTotals(invoice.lineItems) == totals && |invoice.lineItems| == |totals|;
  }

  /** Subtotal and tax make up the total to within five cents, when all three are printed. */
  lemma TotalsExactly(invoice: Invoice)
    ensures SignalOf(invoice, TotalsReconcile)
         == if invoice.subtotal.Some? && invoice.taxAmount.Some? && invoice.totalAmount.Some?
            then Yes(Close(invoice.subtotal.value + invoice.taxAmount.value, invoice.totalAmount.value))
            else 0.5
  {
  }

  predicate Prints(line: InvoiceLine) {
    line.lineTotal != 0.0
  }

  /** What a line comes to again is its quantity times its unit price, rounded half-even to cents. */
  lemma RecomputedExactly(line: InvoiceLine, product: real, cents: int)
    requires product == line.quantity * line.unitPrice
    ensures RecomputedTotal(line) == cents as real / 100.0 <==> NearestEven(cents, 100.0 * product)
  {
    hide QEven, NearestEven;
    assert Extended(line) == product;
    QEvenIsNearest(Extended(line), cents);
  }

  /** What a line comes to again is within five cents of the total printed. */
  predicate Agrees(line: InvoiceLine) {
    Prints(line) && Close(RecomputedTotal(line), line.lineTotal)
  }

  /** The lines that print a total. */
  function Printing(lines: seq<InvoiceLine>): set<int> {
    set k | 0 <= k < |lines| && Prints(lines[k])
  }

  /** Those among them whose own arithmetic agrees with it. */
  function Agreeing(lines: seq<InvoiceLine>): set<int> {
    set k | 0 <= k < |lines| && Agrees(lines[k])
  }

  lemma OneLineMore(lines: seq<InvoiceLine>)
    requires lines != []
    ensures var n := |lines| - 1;
            && |Printing(lines)| == |Printing(lines[..n])| + (if Prints(lines[n]) then 1 else 0)
            && |Agreeing(lines)| == |Agreeing(lines[..n])| + (if Agrees(lines[n]) then 1 else 0)
  {
    hide Prints, Agrees;
    var n := |lines| - 1;
    assert Printing(lines) == Printing(lines[..n]) + if Prints(lines[n]) then {n} else {};
    assert Agreeing(lines) == Agreeing(lines[..n]) + if Agrees(lines[n]) then {n} else {};
  }

  lemma LineScoreStep(lines: seq<InvoiceLine>)
    requires lines != []
    ensures var n := |lines| - 1;
            LineScores(lines) == LineScores(lines[..n]) + if Prints(lines[n]) then [Yes(Agrees(lines[n]))] else []
  {
    hide RecomputedTotal;
  }

  lemma {:induction false} LineScoresCount(lines: seq<InvoiceLine>)
    ensures |LineScores(lines)| == |Printing(lines)|
    ensures Sum(LineScores(lines)) == |Agreeing(lines)| as real
  {
    hide Prints, Agrees;
    if lines != [] {
      hide LineScores, Printing, Agreeing;
      var n := |lines| - 1;
      LineScoresCount(lines[..n]);
      OneLineMore(lines);
      LineScoreStep(lines);
      AgreesPrints(lines[n]);
      if Prints(lines[n]) {
        SumAppend(LineScores(lines[..n]), Yes(Agrees(lines[n])));
      }
    }
  }

  lemma AgreesPrints(line: InvoiceLine)
    ensures Agrees(line) ==> Prints(line)
  {
  }

  /** The share of the lines printing a total whose own arithmetic agrees with it; half the credit when none prints
      one. */
  lemma LineArithmeticExactly(invoice: Invoice)
    ensures SignalOf(invoice, LineArithmetic)
         == if Printing(invoice.lineItems) == {} then 0.5
            else |Agreeing(invoice.lineItems)| as real / |Printing(invoice.lineItems)| as real
  {
    LineScoresCount(invoice.lineItems);
  }

  /** The remaining signals: a fifth for each required field, whether there are lines and an order number, and the
      model's own opinion cut to the unit interval. */
  lemma PlainSignalsExactly(invoice: Invoice)
    ensures SignalOf(invoice, RequiredFields)
         == (Yes(invoice.invoiceNumber.Some?) + Yes(invoice.dated) + Yes(invoice.vendorName.Some?)
             + Yes(invoice.totalAmount.Some?) + Yes(invoice.currency.Some?)) / 5.0
    ensures SignalOf(invoice, HasLineItems) == Yes(|invoice.lineItems| > 0)
    ensures SignalOf(invoice, HasPoReference)
         == Yes(invoice.purchaseOrderNumber.Some? && invoice.purchaseOrderNumber.value != "")
    ensures SignalOf(invoice, ModelSelfReport)
         == if invoice.confidence < 0.0 then 0.0 else if invoice.confidence > 1.0 then 1.0 else invoice.confidence
  {
  }

  /** What the seven signals are worth together; a ten-thousandth is the unit the score is rounded to, half-even. */
  lemma ScoreBlends(invoice: Invoice, blend: real, units: int)
    requires blend == 0.25 * SignalOf(invoice, RequiredFields) + 0.20 * SignalOf(invoice, TotalsReconcile)
                      + 0.15 * SignalOf(invoice, LinesSumToSubtotal) + 0.15 * SignalOf(invoice, LineArithmetic)
                      + 0.05 * SignalOf(invoice, HasLineItems) + 0.05 * SignalOf(invoice, HasPoReference)
                      + 0.15 * SignalOf(invoice, ModelSelfReport)
    requires NearestEven(units, 10000.0 * blend)
    ensures Score(invoice) == units as real / 10000.0
  {
    hide PresentFields, TotalsSignal, LinesSignal, ArithmeticSignal, Clamp;
    HalfEvenIsNearest(10000.0 * blend, units);
  }

  /** What an invoice loses by one check alone: all its checks come out full but this one, which comes out empty. */
  lemma OneCheckCosts(invoice: Invoice, failed: Signal)
    requires forall s :: SignalOf(invoice, s) == if s == failed then 0.0 else 1.0
    ensures Score(invoice) == match failed
                              case RequiredFields => 0.75
                              case TotalsReconcile => 0.80
                              case LinesSumToSubtotal => 0.85
                              case LineArithmetic => 0.85
                              case HasLineItems => 0.95
                              case HasPoReference => 0.95
                              case ModelSelfReport => 0.85
  {
    hide SignalOf;
    var units := match failed
      case RequiredFields => 7500
      case TotalsReconcile => 8000
      case LinesSumToSubtotal => 8500
      case LineArithmetic => 8500
      case HasLineItems => 9500
      case HasPoReference => 9500
      case ModelSelfReport => 8500;
    ScoreBlends(invoice, units as real / 10000.0, units);
  }

  // The order of the lines

  lemma {:induction false} SumsMove(xs: seq<InvoiceLine>, ys: seq<InvoiceLine>)
    requires multiset(xs) == multiset(ys)
    ensures Sum(LineTotals(xs)) == Sum(LineTotals(ys))
    ensures Sum(LineScores(xs)) == Sum(LineScores(ys)) && |LineScores(xs)| == |LineScores(ys)|
    decreases |xs|
  {
    hide LineScores, LineTotals;
    if xs == [] {
      assert |multiset(ys)| == 0;
    } else {
      var n := |xs| - 1;
      assert xs[n] in multiset(ys);
      var i :| 0 <= i < |ys| && ys[i] == xs[n];
      MultisetWithout(xs, n);
      MultisetWithout(ys, i);
      SumsMove(xs[..n] + xs[n + 1..], ys[..i] + ys[i + 1..]);
      TakenOut(xs, n);
      TakenOut(ys, i);
    }
  }

  lemma LineTotalsJoin(xs: seq<InvoiceLine>, ys: seq<InvoiceLine>)
    ensures Sum(LineTotals(xs + ys)) == Sum(LineTotals(xs)) + Sum(LineTotals(ys))
  {
    assert LineTotals(xs + ys) == LineTotals(xs) + LineTotals(ys);
    SumAdds(0.0, LineTotals(xs), LineTotals(ys));
  }

  lemma {:induction false} LineScoresJoin(xs: seq<InvoiceLine>, ys: seq<InvoiceLine>)
    ensures LineScores(xs + ys) == LineScores(xs) + LineScores(ys)
  {
    if ys == [] {
      assert xs + ys == xs;
    } else {
      hide LineScores, Prints, Agrees;
      var n := |ys| - 1;
      assert (xs + ys)[..|xs| + n] == xs + ys[..n];
      LineScoresJoin(xs, ys[..n]);
      LineScoreStep(xs + ys);
      LineScoreStep(ys);
    }
  }

  lemma TakenOut(lines: seq<InvoiceLine>, i: nat)
    requires i < |lines|
    ensures var rest, one := lines[..i] + lines[i + 1..], [lines[i]];
            && Sum(LineTotals(lines)) == Sum(LineTotals(rest)) + Sum(LineTotals(one))
            && Sum(LineScores(lines)) == Sum(LineScores(rest)) + Sum(LineScores(one))
            && |LineScores(lines)| == |LineScores(rest)| + |LineScores(one)|
  {
    hide LineScores, LineTotals;
    var xs, one, ys := lines[..i], [lines[i]], lines[i + 1..];
    assert lines == xs + one + ys;
    LineTotalsJoin(xs + one, ys);
    LineTotalsJoin(xs, one);
    LineTotalsJoin(xs, ys);
    LineScoresJoin(xs + one, ys);
    LineScoresJoin(xs, one);
    LineScoresJoin(xs, ys);
    SumAdds(0.0, LineScores(xs) + LineScores(one), LineScores(ys));
    SumAdds(0.0, LineScores(xs), LineScores(one));
    SumAdds(0.0, LineScores(xs), LineScores(ys));
  }

  /** Neither any signal nor the score depends on the order the lines are printed in. */
  lemma LineOrderIrrelevant(invoice: Invoice, lines: seq<InvoiceLine>)
    requires multiset(lines) == multiset(invoice.lineItems)
    ensures var moved := invoice.(lineItems := lines);
            (forall s :: SignalOf(moved, s) == SignalOf(invoice, s)) && Score(moved) == Score(invoice)
  {
    hide Round4, QEven, LineScores, LineTotals;
    SumsMove(lines, invoice.lineItems);
    assert |multiset(lines)| == |multiset(invoice.lineItems)|;
    forall s
      ensures SignalOf(invoice.(lineItems := lines), s) == SignalOf(invoice, s)
    {
      match s {
        case _ =>
      }
    }
  }
}
