/** The extraction score: a weighted blend of checks, of which only 15% is the model's own opinion. */
module Confidence {
  import opened Prelude
  import opened Money
  import opened Schemas
  import opened Matching
  import opened Verdict

  const ARITHMETIC_TOLERANCE := 0.05

  datatype Signal =
    | RequiredFields | HasLineItems | HasPoReference | LinesSumToSubtotal
    | TotalsReconcile | LineArithmetic | ModelSelfReport

  function WeightOf(s: Signal): real {
    match s
    case RequiredFields => 0.25
    case TotalsReconcile => 0.20
    case LinesSumToSubtotal => 0.15
    case LineArithmetic => 0.15
    case HasLineItems => 0.05
    case HasPoReference => 0.05
    case ModelSelfReport => 0.15
  }

  function Present(b: bool): nat {
    if b then 1 else 0
  }

  function PresentFields(invoice: Invoice): (n: nat)
    ensures n <= 5
  {
    Present(invoice.invoiceNumber.Some?) + Present(invoice.dated) + Present(invoice.vendorName.Some?)
    + Present(invoice.totalAmount.Some?) + Present(invoice.currency.Some?)
  }

  function Score01(ok: bool): real {
    if ok then 1.0 else 0.0
  }

  function LineTotals(lines: seq<InvoiceLine>): seq<real> {
    seq(|lines|, k requires 0 <= k < |lines| => lines[k].lineTotal)
  }

  function ComputedSubtotal(invoice: Invoice): real {
    QEven(Sum(LineTotals(invoice.lineItems)))
  }

  function LinesSignal(invoice: Invoice): real {
    if invoice.subtotal.Some? && invoice.lineItems != []
    then Score01(Abs(ComputedSubtotal(invoice) - invoice.subtotal.value) <= ARITHMETIC_TOLERANCE)
    else 0.5
  }

  function TotalsSignal(invoice: Invoice): real {
    if invoice.subtotal.Some? && invoice.taxAmount.Some? && invoice.totalAmount.Some?
    then Score01(Abs(invoice.subtotal.value + invoice.taxAmount.value - invoice.totalAmount.value)
                 <= ARITHMETIC_TOLERANCE)
    else 0.5
  }

  /** Quantity times unit price. */
  function Extended(line: InvoiceLine): real {
    line.quantity * line.unitPrice
  }

  function RecomputedTotal(line: InvoiceLine): real {
    QEven(Extended(line))
  }

  /** Scores of the lines that print a total. */
  function LineScores(lines: seq<InvoiceLine>): (r: seq<real>)
    ensures forall k :: 0 <= k < |r| ==> 0.0 <= r[k] <= 1.0
  {
    if lines == [] then []
    else
      var n := |lines| - 1;
      var init := LineScores(lines[..n]);
      if lines[n].lineTotal == 0.0 then init
      else init + [Score01(Abs(RecomputedTotal(lines[n]) - lines[n].lineTotal) <= ARITHMETIC_TOLERANCE)]
  }

  function Mean(xs: seq<real>): real
    requires xs != []
  {
    Sum(xs) / |xs| as real
  }

  function ArithmeticSignal(invoice: Invoice): real {
    var scores := LineScores(invoice.lineItems);
    if scores != [] then Mean(scores) else 0.5
  }

  function Clamp(x: real): real {
    Max(0.0, Min(1.0, x))
  }

  /** Everything the model cannot talk its way into. */
  function Evidence(invoice: Invoice): real {
    0.25 * (PresentFields(invoice) as real / 5.0)
    + 0.20 * TotalsSignal(invoice)
    + 0.15 * LinesSignal(invoice)
    + 0.15 * ArithmeticSignal(invoice)
    + 0.05 * Score01(invoice.lineItems != [])
    + 0.05 * Score01(Truthy(invoice.purchaseOrderNumber))
  }

  function Round4(x: real): real {
    HalfEven(x * 10000.0) as real / 10000.0
  }

  function Score(invoice: Invoice): real {
    Round4(Evidence(invoice) + 0.15 * Clamp(invoice.confidence))
  }

  /** What each signal measures. */
  function SignalOf(invoice: Invoice, s: Signal): real {
    match s
    case RequiredFields => PresentFields(invoice) as real / 5.0
    case HasLineItems => Score01(invoice.lineItems != [])
    case HasPoReference => Score01(Truthy(invoice.purchaseOrderNumber))
    case LinesSumToSubtotal => LinesSignal(invoice)
    case TotalsReconcile => TotalsSignal(invoice)
    case LineArithmetic => ArithmeticSignal(invoice)
    case ModelSelfReport => Clamp(invoice.confidence)
  }

  method ScoreExtraction(invoice: Invoice) returns (score: real, signals: map<Signal, real>)
    ensures score == Score(invoice)
    ensures forall s :: s in signals && signals[s] == SignalOf(invoice, s) && 0.0 <= signals[s] <= 1.0
  {
    signals := map[];
    signals := signals[RequiredFields := PresentFields(invoice) as real / 5.0];
    signals := signals[HasLineItems := Score01(invoice.lineItems != [])];
    signals := signals[HasPoReference := Score01(Truthy(invoice.purchaseOrderNumber))];
    signals := signals[LinesSumToSubtotal := LinesSignal(invoice)];
    signals := signals[TotalsReconcile := TotalsSignal(invoice)];
    signals := signals[LineArithmetic := ArithmeticSignal(invoice)];
    signals := signals[ModelSelfReport := Clamp(invoice.confidence)];
    var terms := [
      signals[RequiredFields] * WeightOf(RequiredFields),
      signals[TotalsReconcile] * WeightOf(TotalsReconcile),
      signals[LinesSumToSubtotal] * WeightOf(LinesSumToSubtotal),
      signals[LineArithmetic] * WeightOf(LineArithmetic),
      signals[HasLineItems] * WeightOf(HasLineItems),
      signals[HasPoReference] * WeightOf(HasPoReference),
      signals[ModelSelfReport] * WeightOf(ModelSelfReport)];
    score := Round4(Sum(terms));
    SumSeven(terms[0], terms[1], terms[2], terms[3], terms[4], terms[5], terms[6]);
    ArithmeticInUnit(invoice);
    forall s
      ensures s in signals && signals[s] == SignalOf(invoice, s) && 0.0 <= signals[s] <= 1.0
    {
      match s {
        case RequiredFields => DivideInUnit(PresentFields(invoice) as real, 5.0);
        case _ =>
      }
    }
  }

  lemma SumSeven(a: real, b: real, c: real, d: real, e: real, f: real, g: real)
    ensures Sum([a, b, c, d, e, f, g]) == a + b + c + d + e + f + g
  {
    SumThree(a, b, c);
    SumAppend([a, b, c], d);
    assert [a, b, c] + [d] == [a, b, c, d];
    SumAppend([a, b, c, d], e);
    assert [a, b, c, d] + [e] == [a, b, c, d, e];
    SumAppend([a, b, c, d, e], f);
    assert [a, b, c, d, e] + [f] == [a, b, c, d, e, f];
    SumAppend([a, b, c, d, e, f], g);
    assert [a, b, c, d, e, f] + [g] == [a, b, c, d, e, f, g];
  }

  lemma {:induction false} SumInRange(xs: seq<real>)
    requires forall k :: 0 <= k < |xs| ==> 0.0 <= xs[k] <= 1.0
    ensures 0.0 <= Sum(xs) <= |xs| as real
  {
    if xs != [] {
      SumInRange(xs[..|xs| - 1]);
    }
  }

  lemma ArithmeticInUnit(invoice: Invoice)
    ensures 0.0 <= ArithmeticSignal(invoice) <= 1.0
  {
    var scores := LineScores(invoice.lineItems);
    if scores != [] {
      SumInRange(scores);
      DivideInUnit(Sum(scores), |scores| as real);
    }
  }

  lemma DivideInUnit(a: real, b: real)
    requires 0.0 <= a <= b && b > 0.0
    ensures 0.0 <= a / b <= 1.0
  {
    var q := a / b;
    assert q * b == a;
    FactorSign(q, b);
    FactorSign(1.0 - q, b);
  }

  lemma FactorSign(x: real, b: real)
    requires b > 0.0
    ensures x * b >= 0.0 ==> x >= 0.0
  {
    if x < 0.0 {
      assert x * b < 0.0;
    }
  }

  lemma Round4Error(x: real)
    ensures Abs(Round4(x) - x) <= 0.00005
    ensures Round4(x) >= 0.75 <==> x >= 0.74995
  {
  }

  lemma Round4Monotone(x: real, y: real)
    requires x <= y
    ensures Round4(x) <= Round4(y)
  {
    HalfEvenMonotone(x * 10000.0, y * 10000.0);
  }

  lemma EvidenceRange(invoice: Invoice)
    ensures 0.0 <= Evidence(invoice) <= 0.85
  {
    ArithmeticInUnit(invoice);
  }

  /** The score is a probability-like number. */
  lemma ScoreInUnit(invoice: Invoice)
    ensures 0.0 <= Score(invoice) <= 1.0
  {
    EvidenceRange(invoice);
    Round4Monotone(0.0, Evidence(invoice) + 0.15 * Clamp(invoice.confidence));
    Round4Monotone(Evidence(invoice) + 0.15 * Clamp(invoice.confidence), 1.0);
  }

  /** A more confident model never lowers the score, and never moves it by more than 0.15 plus rounding. */
  lemma SelfReportInfluence(invoice: Invoice, low: real, high: real)
    requires low <= high
    ensures var a := Score(invoice.(confidence := low));
            var b := Score(invoice.(confidence := high));
            a <= b <= a + 0.15 + 0.0001
  {
    hide Round4;
    var e := Evidence(invoice);
    assert Evidence(invoice.(confidence := low)) == e == Evidence(invoice.(confidence := high));
    Round4Monotone(e + 0.15 * Clamp(low), e + 0.15 * Clamp(high));
    Round4Error(e + 0.15 * Clamp(low));
    Round4Error(e + 0.15 * Clamp(high));
  }

  /** Both arithmetic checks could be made, and both failed: the lines' totals, added up and rounded, are more than five
      cents off the subtotal, and subtotal and tax more than five cents off the total. */
  predicate ArithmeticRefuted(invoice: Invoice) {
    && invoice.subtotal.Some? && invoice.lineItems != [] && invoice.taxAmount.Some? && invoice.totalAmount.Some?
    && Abs(QEven(Sum(seq(|invoice.lineItems|, k requires 0 <= k < |invoice.lineItems| =>
                                                invoice.lineItems[k].lineTotal)))
           - invoice.subtotal.value) > 0.05
    && Abs(invoice.subtotal.value + invoice.taxAmount.value - invoice.totalAmount.value) > 0.05
  }

  /** Some self-report reaches the threshold exactly when the evidence alone is worth 0.59995. */
  lemma GateReachable(invoice: Invoice)
    ensures (exists c :: Score(invoice.(confidence := c)) >= 0.75) <==> Evidence(invoice) >= 0.59995
  {
    hide Round4;
    var best := invoice.(confidence := 1.0);
    Round4Error(Evidence(invoice) + 0.15 * Clamp(1.0));
    assert Score(best) == Round4(Evidence(invoice) + 0.15 * Clamp(1.0));
    forall c | Score(invoice.(confidence := c)) >= 0.75
      ensures Evidence(invoice) >= 0.59995
    {
      Round4Error(Evidence(invoice) + 0.15 * Clamp(c));
      assert Score(invoice.(confidence := c)) == Round4(Evidence(invoice) + 0.15 * Clamp(c));
    }
  }

  lemma EvidenceIgnoresClaim(invoice: Invoice, claim: real)
    ensures Evidence(invoice.(confidence := claim)) == Evidence(invoice)
  {
  }

  lemma RefutedSignals(invoice: Invoice)
    requires ArithmeticRefuted(invoice)
    ensures LinesSignal(invoice) == 0.0 && TotalsSignal(invoice) == 0.0
  {
    hide QEven, Sum;
    assert LineTotals(invoice.lineItems)
        == seq(|invoice.lineItems|, k requires 0 <= k < |invoice.lineItems| => invoice.lineItems[k].lineTotal);
  }

  lemma RefutedScore(invoice: Invoice, claim: real)
    requires ArithmeticRefuted(invoice)
    ensures Score(invoice.(confidence := claim)) <= 0.65
  {
    hide ArithmeticSignal, LinesSignal, TotalsSignal;
    RefutedSignals(invoice);
    EvidenceIgnoresClaim(invoice, claim);
    ArithmeticInUnit(invoice);
    assert Evidence(invoice) <= 0.5 by {
      hide Round4;
    }
    Round4Monotone(Evidence(invoice) + 0.15 * Clamp(claim), 0.65);
    assert Round4(0.65) == 0.65;
  }

  /** Refuted arithmetic keeps an invoice from posting, whatever the model claims, the order says or the receipts
      show. */
  lemma RefutedNeverPosts(
    text: Text, invoice: Invoice, claim: real, order: Option<PurchaseOrder>, receipts: seq<GoodsReceipt>,
    cfg: MatchingConfig)
    requires ArithmeticRefuted(invoice)
    requires cfg.minExtractionConfidence > 0.65
    ensures var claimed := invoice.(confidence := claim);
            && Score(claimed) <= 0.65
            && !Evaluate(text, claimed.(confidence := Score(claimed)), order, receipts, cfg).IsPostable()
  {
    hide Score, Evaluate, ArithmeticRefuted, HeaderAcceptable, LinesAcceptable;
    var claimed := invoice.(confidence := claim);
    RefutedScore(invoice, claim);
    VerdictExact(text, claimed.(confidence := Score(claimed)), order, receipts, cfg);
  }

  /** One refuted check is not enough: everything else right and a confident model still pass the gate. */
  lemma OneRefutedCheckMayPass(invoice: Invoice)
    requires PresentFields(invoice) == 5 && invoice.lineItems != [] && Truthy(invoice.purchaseOrderNumber)
    requires ArithmeticSignal(invoice) == 1.0
    requires TotalsSignal(invoice) == 1.0 || LinesSignal(invoice) == 1.0
    ensures exists c :: Score(invoice.(confidence := c)) >= 0.75
  {
    GateReachable(invoice);
    assert TotalsSignal(invoice) >= 0.0 && LinesSignal(invoice) >= 0.0;
  }
}
