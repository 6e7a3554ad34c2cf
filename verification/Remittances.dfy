/** Matching a customer's payment advice to open receivables. */
module Remittances {
  import opened Prelude
  import opened Money
  import opened Schemas

  datatype Advice = Advice(invoiceNumber: Option<string>, amountPaid: Option<real>)

  datatype Remittance = Remittance(
    customerId: Option<string>, customerName: Option<string>, advices: seq<Advice>, totalPaid: Option<real>)

  datatype Unresolved =
    | NoReference | NoOpenItem(invoiceNumber: string) | OffBy(invoiceNumber: string, delta: real)
    | ResidualLeft(residual: real) | ApplicationFailed(itemId: string)

  datatype Payment = Payment(item: ArItem, amount: real)

  /** The index of open items by normalised number; a later item replaces an earlier one. */
  function ByInvoice(text: Text, items: seq<ArItem>): map<string, ArItem> {
    if items == [] then map[]
    else
      var n := |items| - 1;
      ByInvoice(text, items[..n])[text.stripUpper(items[n].invoiceNumber) := items[n]]
  }

  /** Position k holds the last item numbered key. */
  predicate LastUnder(text: Text, items: seq<ArItem>, key: string, k: nat) {
    && k < |items| && text.stripUpper(items[k].invoiceNumber) == key
    && forall j :: k < j < |items| ==> text.stripUpper(items[j].invoiceNumber) != key
  }

  /** The index holds every normalised number present, each with the last item that carries it. */
  lemma {:induction false} ByInvoiceSound(text: Text, items: seq<ArItem>)
    ensures forall key :: key in ByInvoice(text, items) ==>
              && ByInvoice(text, items)[key] in items
              && text.stripUpper(ByInvoice(text, items)[key].invoiceNumber) == key
    ensures forall key, k: nat :: LastUnder(text, items, key, k) ==>
              key in ByInvoice(text, items) && ByInvoice(text, items)[key] == items[k]
    ensures forall i :: 0 <= i < |items| ==> text.stripUpper(items[i].invoiceNumber) in ByInvoice(text, items)
  {
    if items != [] {
      var n := |items| - 1;
      ByInvoiceSound(text, items[..n]);
      forall key, k: nat | LastUnder(text, items, key, k)
        ensures key in ByInvoice(text, items) && ByInvoice(text, items)[key] == items[k]
      {
        if k < n {
          assert text.stripUpper(items[n].invoiceNumber) != key;
          assert LastUnder(text, items[..n], key, k);
        }
      }
    }
  }

  function Target(text: Text, advice: Advice, index: map<string, ArItem>): Option<ArItem> {
    if !Truthy(advice.invoiceNumber) then None
    else
      var key := text.stripUpper(advice.invoiceNumber.value);
      if key in index then Some(index[key]) else None
  }

  function AmountFor(advice: Advice, item: ArItem): real {
    if advice.amountPaid.Some? && advice.amountPaid.value != 0.0 then advice.amountPaid.value else item.openAmount
  }

  /** The payments the advice lines amount to, before rounding. */
  function Payments(text: Text, advices: seq<Advice>, index: map<string, ArItem>): seq<Payment> {
    if advices == [] then []
    else
      var n := |advices| - 1;
      var init := Payments(text, advices[..n], index);
      var target := Target(text, advices[n], index);
      if target.None? then init else init + [Payment(target.value, AmountFor(advices[n], target.value))]
  }

  function Note(text: Text, advice: Advice, index: map<string, ArItem>, tolerance: real): seq<Unresolved> {
    if !Truthy(advice.invoiceNumber) then [NoReference]
    else
      var target := Target(text, advice, index);
      if target.None? then [NoOpenItem(advice.invoiceNumber.value)]
      else
        var delta := Abs(AmountFor(advice, target.value) - target.value.openAmount);
        if delta > tolerance then [OffBy(advice.invoiceNumber.value, Q(delta))] else []
  }

  function Notes(text: Text, advices: seq<Advice>, index: map<string, ArItem>, tolerance: real): seq<Unresolved> {
    if advices == [] then []
    else
      var n := |advices| - 1;
      Notes(text, advices[..n], index, tolerance) + Note(text, advices[n], index, tolerance)
  }

  function Amounts(payments: seq<Payment>): (r: seq<real>)
    ensures |r| == |payments| && forall k :: 0 <= k < |r| ==> r[k] == payments[k].amount
  {
    seq(|payments|, k requires 0 <= k < |payments| => payments[k].amount)
  }

  function Rounded(payments: seq<Payment>): (r: seq<Payment>)
    ensures |r| == |payments|
    ensures forall k :: 0 <= k < |r| ==> r[k] == Payment(payments[k].item, Q(payments[k].amount))
  {
    seq(|payments|, k requires 0 <= k < |payments| => Payment(payments[k].item, Q(payments[k].amount)))
  }

  function Declared(remittance: Remittance, appliedTotal: real): real {
    if remittance.totalPaid.Some? && remittance.totalPaid.value != 0.0 then remittance.totalPaid.value else appliedTotal
  }

  function PaymentsOf(text: Text, remittance: Remittance, items: seq<ArItem>): seq<Payment> {
    Payments(text, remittance.advices, ByInvoice(text, items))
  }

  function DeclaredOf(text: Text, remittance: Remittance, items: seq<ArItem>): real {
    Declared(remittance, Sum(Amounts(PaymentsOf(text, remittance, items))))
  }

  function ResidualOf(text: Text, remittance: Remittance, items: seq<ArItem>): real {
    Q(DeclaredOf(text, remittance, items) - Sum(Amounts(PaymentsOf(text, remittance, items))))
  }

  function UnresolvedOf(text: Text, remittance: Remittance, items: seq<ArItem>, tolerance: real): seq<Unresolved> {
    var residual := ResidualOf(text, remittance, items);
    Notes(text, remittance.advices, ByInvoice(text, items), tolerance)
    + (if Abs(residual) > tolerance then [ResidualLeft(residual)] else [])
  }

  lemma NothingYet(text: Text, index: map<string, ArItem>, tolerance: real)
    ensures Rounded(Payments(text, [], index)) == [] && Notes(text, [], index, tolerance) == []
    ensures Sum(Amounts(Payments(text, [], index))) == 0.0
  {
  }

  lemma AdviceStep(text: Text, advices: seq<Advice>, index: map<string, ArItem>, tolerance: real, i: nat)
    requires i < |advices|
    ensures Notes(text, advices[..i + 1], index, tolerance)
         == Notes(text, advices[..i], index, tolerance) + Note(text, advices[i], index, tolerance)
    ensures var before, after := Payments(text, advices[..i], index), Payments(text, advices[..i + 1], index);
            var target := Target(text, advices[i], index);
            if target.None? then after == before
            else
              var amount := AmountFor(advices[i], target.value);
              && Rounded(after) == Rounded(before) + [Payment(target.value, Q(amount))]
              && Sum(Amounts(after)) == Sum(Amounts(before)) + amount
  {
    hide Q, AmountFor, Note;
    assert advices[..i + 1][..i] == advices[..i];
    var before, target := Payments(text, advices[..i], index), Target(text, advices[i], index);
    if target.Some? {
      var payment := Payment(target.value, AmountFor(advices[i], target.value));
      assert Amounts(before + [payment]) == Amounts(before) + [payment.amount];
      SumAppend(Amounts(before), payment.amount);
    }
  }

  method MatchRemittance(text: Text, remittance: Remittance, items: seq<ArItem>, cfg: MatchingConfig)
    returns (applications: seq<Payment>, unresolved: seq<Unresolved>, residual: real)
    ensures applications == Rounded(PaymentsOf(text, remittance, items))
    ensures unresolved == UnresolvedOf(text, remittance, items, cfg.remittanceToleranceAbs)
    ensures residual == ResidualOf(text, remittance, items)
  {
    hide Q, Abs, ByInvoice, AmountFor, Payments, Notes, Rounded, Amounts;
    var index := ByInvoice(text, items);
    var advices := remittance.advices;
    applications, unresolved := [], [];
    var appliedTotal := 0.0;
    NothingYet(text, index, cfg.remittanceToleranceAbs);
    assert advices[..0] == [];
    for i := 0 to |advices|
      invariant applications == Rounded(Payments(text, advices[..i], index))
      invariant unresolved == Notes(text, advices[..i], index, cfg.remittanceToleranceAbs)
      invariant appliedTotal == Sum(Amounts(Payments(text, advices[..i], index)))
    {
      AdviceStep(text, advices, index, cfg.remittanceToleranceAbs, i);
      var advice := advices[i];
      if !Truthy(advice.invoiceNumber) {
        unresolved := unresolved + [NoReference];
        continue;
      }
      var key := text.stripUpper(advice.invoiceNumber.value);
      if key !in index {
        unresolved := unresolved + [NoOpenItem(advice.invoiceNumber.value)];
        continue;
      }
      var item := index[key];
      var amount := AmountFor(advice, item);
      var delta := Abs(amount - item.openAmount);
      if delta > cfg.remittanceToleranceAbs {
        unresolved := unresolved + [OffBy(advice.invoiceNumber.value, Q(delta))];
      }
      applications := applications + [Payment(item, Q(amount))];
      appliedTotal := appliedTotal + amount;
    }
    assert advices[..|advices|] == advices;
    var declaredTotal := Declared(remittance, appliedTotal);
    residual := Q(declaredTotal - appliedTotal);
    if Abs(residual) > cfg.remittanceToleranceAbs {
      unresolved := unresolved + [ResidualLeft(residual)];
    }
  }

  lemma {:induction false} RoundingDrift(payments: seq<Payment>)
    ensures Abs(Sum(Amounts(Rounded(payments))) - Sum(Amounts(payments))) <= 0.005 * |payments| as real
  {
    hide Q;
    if payments != [] {
      var n := |payments| - 1;
      RoundingDrift(payments[..n]);
      QError(payments[n].amount);
      assert Amounts(payments)[..n] == Amounts(payments[..n]);
      assert Amounts(Rounded(payments))[..n] == Amounts(Rounded(payments[..n]));
    }
  }

  /** A total is printed, and not as zero. */
  predicate PrintsTotal(remittance: Remittance) {
    remittance.totalPaid.Some? && remittance.totalPaid.value != 0.0
  }

  lemma DeclaredWhenPrinted(text: Text, remittance: Remittance, items: seq<ArItem>)
    requires PrintsTotal(remittance)
    ensures DeclaredOf(text, remittance, items) == remittance.totalPaid.value
  {
    hide PaymentsOf, Sum;
  }

  lemma {:induction false} NoResidualNoted(
    text: Text, advices: seq<Advice>, index: map<string, ArItem>, tolerance: real)
    ensures forall note :: note in Notes(text, advices, index, tolerance) ==>
              note.NoReference? || note.NoOpenItem? || note.OffBy?
  {
    hide Target, AmountFor, Q, Abs;
    if advices != [] {
      NoResidualNoted(text, advices[..|advices| - 1], index, tolerance);
    }
  }

  /** The residual is what the printed total exceeds the payments by, rounded to cents, and nothing without a printed
      total; and it is reported, as the last thing unresolved, exactly when it is larger than the tolerance. */
  lemma ResidualExactly(text: Text, remittance: Remittance, items: seq<ArItem>, tolerance: real)
    ensures var paid := Sum(Amounts(PaymentsOf(text, remittance, items)));
            var residual := ResidualOf(text, remittance, items);
            && (forall t :: remittance.totalPaid == Some(t) && t != 0.0 ==> residual == Q(t - paid))
            && (remittance.totalPaid.None? || remittance.totalPaid == Some(0.0) ==> residual == 0.0)
    ensures var residual := ResidualOf(text, remittance, items);
            var unresolved := UnresolvedOf(text, remittance, items, tolerance);
            && ((exists r :: ResidualLeft(r) in unresolved) <==> residual > tolerance || -residual > tolerance)
            && (forall r :: ResidualLeft(r) in unresolved ==> r == residual)
            && (unresolved != [] && unresolved[|unresolved| - 1].ResidualLeft? <==>
                  residual > tolerance || -residual > tolerance)
  {
    hide Q, PaymentsOf, Notes, Sum;
    QOfCents(0.0) by {
      WholeCents(0);
    }
    NoResidualNoted(text, remittance.advices, ByInvoice(text, items), tolerance);
    var residual := ResidualOf(text, remittance, items);
    var unresolved := UnresolvedOf(text, remittance, items, tolerance);
    if Abs(residual) > tolerance {
      assert unresolved[|unresolved| - 1] == ResidualLeft(residual);
      assert ResidualLeft(residual) in unresolved;
    } else {
      assert unresolved == Notes(text, remittance.advices, ByInvoice(text, items), tolerance);
    }
  }

  /** What one advice line comes to: a payment to the last open item under its number, of the amount it prints or of all
      that is open, and a note when it names none, when there is no such item, or when it is off by more than the
      tolerance. */
  lemma AdviceExactly(text: Text, advice: Advice, items: seq<ArItem>, tolerance: real, k: nat)
    ensures var payments := Payments(text, [advice], ByInvoice(text, items));
            var notes := Notes(text, [advice], ByInvoice(text, items), tolerance);
            if advice.invoiceNumber.None? || advice.invoiceNumber.value == "" then
              payments == [] && notes == [NoReference]
            else
              var number := advice.invoiceNumber.value;
              && ((forall item :: item in items ==> text.stripUpper(item.invoiceNumber) != text.stripUpper(number)) ==>
                    payments == [] && notes == [NoOpenItem(number)])
              && (k < |items| && text.stripUpper(items[k].invoiceNumber) == text.stripUpper(number)
                  && (forall j :: k < j < |items| ==>
                        text.stripUpper(items[j].invoiceNumber) != text.stripUpper(number)) ==>
                    var paid := if advice.amountPaid.Some? && advice.amountPaid.value != 0.0
                                then advice.amountPaid.value
                                else items[k].openAmount;
                    var off := if paid < items[k].openAmount then items[k].openAmount - paid
                               else paid - items[k].openAmount;
                    && payments == [Payment(items[k], paid)]
                    && notes == if off > tolerance then [OffBy(number, Q(off))] else [])
  {
    hide Q;
    var index := ByInvoice(text, items);
    ByInvoiceSound(text, items);
    assert [advice][..0] == [];
    if advice.invoiceNumber.Some? {
      var key := text.stripUpper(advice.invoiceNumber.value);
      if forall item :: item in items ==> text.stripUpper(item.invoiceNumber) != key {
        assert key !in index;
      }
      if LastUnder(text, items, key, k) {
        assert index[key] == items[k];
      }
    }
  }

  /** Several advice lines come to what each comes to, in their order. */
  lemma {:induction false} AdvicesTogether(
    text: Text, xs: seq<Advice>, ys: seq<Advice>, index: map<string, ArItem>, tolerance: real)
    ensures Payments(text, [], index) == [] && Notes(text, [], index, tolerance) == []
    ensures Payments(text, xs + ys, index) == Payments(text, xs, index) + Payments(text, ys, index)
    ensures Notes(text, xs + ys, index, tolerance)
         == Notes(text, xs, index, tolerance) + Notes(text, ys, index, tolerance)
  {
    hide Note, Target, AmountFor;
    if ys == [] {
      assert xs + ys == xs;
    } else {
      var n := |ys| - 1;
      assert (xs + ys)[..|xs| + n] == xs + ys[..n];
      AdvicesTogether(text, xs, ys[..n], index, tolerance);
    }
  }

  /** What is booked plus what is left over is what the customer declared, up to half a cent a figure. */
  lemma RemittanceAccounts(text: Text, remittance: Remittance, items: seq<ArItem>)
    ensures var payments := PaymentsOf(text, remittance, items);
            Abs(Sum(Amounts(Rounded(payments)))
                + ResidualOf(text, remittance, items) - DeclaredOf(text, remittance, items))
              <= 0.005 * (|payments| + 1) as real
    ensures var payments := PaymentsOf(text, remittance, items);
            PrintsTotal(remittance) ==>
              Abs(Sum(Amounts(Rounded(payments))) + ResidualOf(text, remittance, items) - remittance.totalPaid.value)
              <= 0.005 * (|payments| + 1) as real
    ensures |PaymentsOf(text, remittance, items)| <= |remittance.advices|
  {
    hide Q;
    var payments := PaymentsOf(text, remittance, items);
    RoundingDrift(payments);
    QError(DeclaredOf(text, remittance, items) - Sum(Amounts(payments)));
    PaymentsCount(text, remittance.advices, ByInvoice(text, items));
  }

  lemma {:induction false} PaymentsCount(text: Text, advices: seq<Advice>, index: map<string, ArItem>)
    ensures |Payments(text, advices, index)| <= |advices|
  {
    if advices != [] {
      PaymentsCount(text, advices[..|advices| - 1], index);
    }
  }

  lemma {:induction false} CentsDriftless(payments: seq<Payment>)
    requires forall k :: 0 <= k < |payments| ==> InCents(payments[k].amount)
    ensures Rounded(payments) == payments
    ensures InCents(Sum(Amounts(payments)))
  {
    hide Q, InCents;
    forall k | 0 <= k < |payments|
      ensures Rounded(payments)[k] == payments[k]
    {
      QOfCents(payments[k].amount);
    }
    if payments == [] {
      WholeCents(0);
    } else {
      var n := |payments| - 1;
      CentsDriftless(payments[..n]);
      assert Amounts(payments)[..n] == Amounts(payments[..n]);
      CentsClosed(Sum(Amounts(payments[..n])), payments[n].amount);
    }
  }

  /** When every figure is in cents the books agree exactly. */
  lemma RemittanceExactInCents(text: Text, remittance: Remittance, items: seq<ArItem>)
    requires forall k :: 0 <= k < |items| ==> InCents(items[k].openAmount)
    requires forall k :: 0 <= k < |remittance.advices| && remittance.advices[k].amountPaid.Some? ==>
               InCents(remittance.advices[k].amountPaid.value)
    requires remittance.totalPaid.Some? ==> InCents(remittance.totalPaid.value)
    ensures Sum(Amounts(Rounded(PaymentsOf(text, remittance, items)))) + ResidualOf(text, remittance, items)
         == DeclaredOf(text, remittance, items)
    ensures PrintsTotal(remittance) ==>
              Sum(Amounts(Rounded(PaymentsOf(text, remittance, items)))) + ResidualOf(text, remittance, items)
              == remittance.totalPaid.value
  {
    hide Q, InCents;
    var payments := PaymentsOf(text, remittance, items);
    ByInvoiceSound(text, items);
    PaymentsInCents(text, remittance.advices, items);
    CentsDriftless(payments);
    CentsClosed(DeclaredOf(text, remittance, items), Sum(Amounts(payments)));
    QOfCents(DeclaredOf(text, remittance, items) - Sum(Amounts(payments)));
  }

  lemma {:induction false} PaymentsInCents(text: Text, advices: seq<Advice>, items: seq<ArItem>)
    requires forall k :: 0 <= k < |items| ==> InCents(items[k].openAmount)
    requires forall k :: 0 <= k < |advices| && advices[k].amountPaid.Some? ==> InCents(advices[k].amountPaid.value)
    ensures forall k :: 0 <= k < |Payments(text, advices, ByInvoice(text, items))| ==>
              InCents(Payments(text, advices, ByInvoice(text, items))[k].amount)
  {
    hide InCents;
    ByInvoiceSound(text, items);
    if advices != [] {
      PaymentsInCents(text, advices[..|advices| - 1], items);
    }
  }
}
