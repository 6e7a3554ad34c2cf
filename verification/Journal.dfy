/** The payment journal derived from an invoice: net to clearing or expense, input tax, gross to payables. */
module Journal {
  import opened Prelude
  import opened Money
  import opened Schemas

  const GRIR_CLEARING_ACCOUNT := "191100"
  const INPUT_VAT_ACCOUNT := "154000"
  const ACCOUNTS_PAYABLE_ACCOUNT := "160000"
  const NON_PO_EXPENSE_ACCOUNT := "470000"

  datatype JournalLine = JournalLine(account: string, debit: real, credit: real, taxCode: Option<string>)

  function DebitColumn(lines: seq<JournalLine>): (r: seq<real>)
    ensures |r| == |lines| && forall k :: 0 <= k < |r| ==> r[k] == lines[k].debit
  {
    seq(|lines|, k requires 0 <= k < |lines| => lines[k].debit)
  }

  function CreditColumn(lines: seq<JournalLine>): (r: seq<real>)
    ensures |r| == |lines| && forall k :: 0 <= k < |r| ==> r[k] == lines[k].credit
  {
    seq(|lines|, k requires 0 <= k < |lines| => lines[k].credit)
  }

  datatype JournalEntry = JournalEntry(
    reference: string, currency: string, vendorId: Option<string>, poNumber: Option<string>, lines: seq<JournalLine>)
  {
    function Debits(): real {
      Sum(DebitColumn(lines))
    }

    function Credits(): real {
      Sum(CreditColumn(lines))
    }

    predicate IsBalanced() {
      Debits() == Credits() && Debits() > 0.0
    }
  }

  function Truncate(s: string, n: nat): string {
    if |s| <= n then s else s[..n]
  }

  /** What the ERP refuses to see twice. */
  function ReferenceOf(invoice: Invoice, runId: string): string {
    Truncate(FullReference(invoice, runId), 80)
  }

  function FullReference(invoice: Invoice, runId: string): string {
    OrElse(invoice.vendorName, "VENDOR") + "/" + OrElse(invoice.invoiceNumber, runId)
  }

  function Gross(invoice: Invoice): real {
    Q(invoice.Total())
  }

  /** Net and tax as they end up in the entry. */
  function NormalisedTax(invoice: Invoice): real {
    if invoice.taxAmount.Some? then Q(invoice.taxAmount.value)
    else if invoice.subtotal.Some? then Gross(invoice) - Q(invoice.subtotal.value)
    else 0.0
  }

  function NormalisedNet(invoice: Invoice): real {
    Gross(invoice) - NormalisedTax(invoice)
  }

  function EntryLines(net: real, tax: real, gross: real, hasPo: bool): seq<JournalLine> {
    [JournalLine(if hasPo then GRIR_CLEARING_ACCOUNT else NON_PO_EXPENSE_ACCOUNT, net, 0.0, None)]
    + (if tax > 0.0 then [JournalLine(INPUT_VAT_ACCOUNT, tax, 0.0, Some("V1"))] else [])
    + [JournalLine(ACCOUNTS_PAYABLE_ACCOUNT, 0.0, gross, None)]
  }

  function EntryOf(
    invoice: Invoice, order: Option<PurchaseOrder>, vendorId: Option<string>, runId: string,
    defaultCurrency: string): JournalEntry
  {
    JournalEntry(
      ReferenceOf(invoice, runId), OrElse(invoice.currency, defaultCurrency), vendorId,
      if order.Some? then Some(order.value.poNumber) else None,
      EntryLines(NormalisedNet(invoice), NormalisedTax(invoice), Gross(invoice), order.Some?))
  }

  method BuildJournal(
    invoice: Invoice, order: Option<PurchaseOrder>, vendorId: Option<string>, runId: string, defaultCurrency: string)
    returns (entry: JournalEntry)
    ensures entry == EntryOf(invoice, order, vendorId, runId, defaultCurrency)
  {
    hide Q, InCents;
    var gross := Q(invoice.Total());
    var tax := if invoice.taxAmount.Some? then Some(Q(invoice.taxAmount.value)) else None;
    var net := if invoice.subtotal.Some? then Some(Q(invoice.subtotal.value)) else None;
    RoundedAmounts(invoice);
    if net.None? {
      net := Some(if tax.Some? then Q(gross - tax.value) else gross);
    }
    if tax.None? {
      tax := Some(Q(gross - net.value));
    }
    if Q(net.value + tax.value) != gross {
      net := Some(Q(gross - tax.value));
    }
    assert net.value + tax.value == gross by {
      QOfCents(net.value + tax.value) by {
        CentsClosed(net.value, tax.value);
      }
    }
    assert net.value == NormalisedNet(invoice) && tax.value == NormalisedTax(invoice);
    var account := if order.Some? then GRIR_CLEARING_ACCOUNT else NON_PO_EXPENSE_ACCOUNT;
    var lines := [JournalLine(account, net.value, 0.0, None)];
    if tax.value > 0.0 {
      lines := lines + [JournalLine(INPUT_VAT_ACCOUNT, tax.value, 0.0, Some("V1"))];
    }
    lines := lines + [JournalLine(ACCOUNTS_PAYABLE_ACCOUNT, 0.0, gross, None)];
    entry := JournalEntry(
      ReferenceOf(invoice, runId), OrElse(invoice.currency, defaultCurrency), vendorId,
      if order.Some? then Some(order.value.poNumber) else None, lines);
  }

  /** Differences of rounded amounts are whole cents, so rounding them again changes nothing. */
  lemma RoundedAmounts(invoice: Invoice)
    ensures InCents(Gross(invoice)) && InCents(NormalisedTax(invoice)) && InCents(NormalisedNet(invoice))
    ensures Q(NormalisedTax(invoice)) == NormalisedTax(invoice) && Q(NormalisedNet(invoice)) == NormalisedNet(invoice)
    ensures invoice.subtotal.Some? ==> InCents(Q(invoice.subtotal.value))
    ensures Q(0.0) == 0.0 && InCents(0.0)
  {
    QError(invoice.Total());
    if invoice.taxAmount.Some? {
      QError(invoice.taxAmount.value);
    }
    if invoice.subtotal.Some? {
      QError(invoice.subtotal.value);
      CentsClosed(Gross(invoice), Q(invoice.subtotal.value));
    }
    CentsClosed(Gross(invoice), NormalisedTax(invoice));
    QOfCents(NormalisedTax(invoice));
    QOfCents(NormalisedNet(invoice));
  }

  lemma EntryTotals(
    invoice: Invoice, order: Option<PurchaseOrder>, vendorId: Option<string>, runId: string, defaultCurrency: string)
    ensures var entry := EntryOf(invoice, order, vendorId, runId, defaultCurrency);
            && entry.Credits() == Gross(invoice)
            && entry.Debits() == NormalisedNet(invoice) + Max(0.0, NormalisedTax(invoice))
            && entry.lines != []
  {
    var entry := EntryOf(invoice, order, vendorId, runId, defaultCurrency);
    var debits, credits := DebitColumn(entry.lines), CreditColumn(entry.lines);
    if NormalisedTax(invoice) > 0.0 {
      assert debits == [NormalisedNet(invoice), NormalisedTax(invoice), 0.0];
      assert credits == [0.0, 0.0, Gross(invoice)];
      SumThree(NormalisedNet(invoice), NormalisedTax(invoice), 0.0);
      SumThree(0.0, 0.0, Gross(invoice));
    } else {
      assert debits == [NormalisedNet(invoice), 0.0];
      assert credits == [0.0, Gross(invoice)];
      SumTwo(NormalisedNet(invoice), 0.0);
      SumTwo(0.0, Gross(invoice));
    }
  }

  /** Whatever is printed or missing, net and tax make up the gross to the cent; the entry may be posted
      exactly when that gross is positive and the tax is not negative, and then it moves exactly the gross. */
  lemma JournalExact(
    invoice: Invoice, order: Option<PurchaseOrder>, vendorId: Option<string>, runId: string, defaultCurrency: string)
    ensures var entry := EntryOf(invoice, order, vendorId, runId, defaultCurrency);
            && NormalisedNet(invoice) + NormalisedTax(invoice) == Gross(invoice)
            && (entry.IsBalanced() <==> Gross(invoice) > 0.0 && NormalisedTax(invoice) >= 0.0)
            && (entry.IsBalanced() ==> entry.Debits() == entry.Credits() == Gross(invoice))
  {
    EntryTotals(invoice, order, vendorId, runId, defaultCurrency);
  }

  /** The net and the tax booked for an invoice, case by case: a printed subtotal alone leaves the rest of the gross as
      tax, a printed tax alone leaves the rest as net, without either all of it is net, and with both the tax stays. */
  predicate Splits(invoice: Invoice, gross: real, net: real, tax: real) {
    match (invoice.subtotal, invoice.taxAmount)
    case (Some(subtotal), None) => net == Q(subtotal) && tax == gross - Q(subtotal)
    case (None, Some(printed)) => net == gross - Q(printed) && tax == Q(printed)
    case (None, None) => net == gross && tax == 0.0
    case (Some(subtotal), Some(printed)) =>
      && tax == Q(printed) && net == gross - Q(printed)
      && (net == Q(subtotal) <==> Q(subtotal) + Q(printed) == gross)
  }

  /** The net to clearing for an order and to expense without one, the tax if there is any to input tax under its code,
      and the gross to payables. */
  predicate BooksAs(lines: seq<JournalLine>, ordered: bool, gross: real, net: real, tax: real) {
    lines == [JournalLine(if ordered then "191100" else "470000", net, 0.0, None)]
             + (if tax > 0.0 then [JournalLine("154000", tax, 0.0, Some("V1"))] else [])
             + [JournalLine("160000", 0.0, gross, None)]
  }

  ghost predicate BooksGross(lines: seq<JournalLine>, invoice: Invoice, ordered: bool, gross: real) {
    exists net, tax :: Splits(invoice, gross, net, tax) && BooksAs(lines, ordered, gross, net, tax)
  }

  /** The lines book what the invoice prints. */
  ghost predicate BooksInvoice(lines: seq<JournalLine>, invoice: Invoice, ordered: bool) {
    BooksGross(lines, invoice, ordered, Q(if invoice.totalAmount.Some? then invoice.totalAmount.value else 0.0))
  }

  /** Everything an entry says, on the fields of the invoice and the order. */
  lemma EntryExactly(
    invoice: Invoice, order: Option<PurchaseOrder>, vendorId: Option<string>, runId: string, defaultCurrency: string)
    ensures var entry := EntryOf(invoice, order, vendorId, runId, defaultCurrency);
            && BooksInvoice(entry.lines, invoice, order.Some?)
            && entry.vendorId == vendorId
            && (order.Some? ==> entry.poNumber == Some(order.value.poNumber))
            && (order.None? ==> entry.poNumber.None?)
            && entry.currency == (if invoice.currency.Some? && invoice.currency.value != "" then invoice.currency.value
                                  else defaultCurrency)
    ensures var entry := EntryOf(invoice, order, vendorId, runId, defaultCurrency);
            var vendor := if invoice.vendorName.Some? && invoice.vendorName.value != "" then invoice.vendorName.value
                          else "VENDOR";
            var number := if invoice.invoiceNumber.Some? && invoice.invoiceNumber.value != ""
                          then invoice.invoiceNumber.value else runId;
            var whole := vendor + "/" + number;
            entry.reference == if |whole| > 80 then whole[..80] else whole
  {
    hide Q, InCents;
    var gross, net, tax := Gross(invoice), NormalisedNet(invoice), NormalisedTax(invoice);
    assert Splits(invoice, gross, net, tax);
    assert BooksAs(EntryOf(invoice, order, vendorId, runId, defaultCurrency).lines, order.Some?, gross, net, tax);
    assert BooksGross(EntryOf(invoice, order, vendorId, runId, defaultCurrency).lines, invoice, order.Some?, gross);
  }

  /** The gross is positive and the tax, printed or left over by a printed subtotal, is not negative. */
  predicate Balances(invoice: Invoice) {
    var gross := Q(if invoice.totalAmount.Some? then invoice.totalAmount.value else 0.0);
    && gross > 0.0
    && (invoice.taxAmount.Some? ==> Q(invoice.taxAmount.value) >= 0.0)
    && (invoice.taxAmount.None? && invoice.subtotal.Some? ==> Q(invoice.subtotal.value) <= gross)
  }

  /** Those are exactly the invoices whose entry may be posted, and then it moves exactly the gross. */
  lemma BalancedExactly(
    invoice: Invoice, order: Option<PurchaseOrder>, vendorId: Option<string>, runId: string, defaultCurrency: string)
    ensures var entry := EntryOf(invoice, order, vendorId, runId, defaultCurrency);
            && (entry.IsBalanced() <==> Balances(invoice))
            && (entry.IsBalanced() ==>
                  entry.Debits() == entry.Credits()
                  == Q(if invoice.totalAmount.Some? then invoice.totalAmount.value else 0.0))
  {
    hide Q, EntryLines, Sum;
    JournalExact(invoice, order, vendorId, runId, defaultCurrency);
  }

  /** What was printed survives when it already adds up. */
  lemma PrintedAmountsKept(invoice: Invoice)
    requires invoice.subtotal.Some? && invoice.taxAmount.Some?
    ensures NormalisedTax(invoice) == Q(invoice.taxAmount.value)
    ensures NormalisedNet(invoice) == Q(invoice.subtotal.value)
       <==> Q(Q(invoice.subtotal.value) + Q(invoice.taxAmount.value)) == Gross(invoice)
  {
    QError(invoice.subtotal.value);
    QError(invoice.taxAmount.value);
    CentsClosed(Q(invoice.subtotal.value), Q(invoice.taxAmount.value));
    QOfCents(Q(invoice.subtotal.value) + Q(invoice.taxAmount.value));
  }

  /** Two invoices of one vendor share a reference exactly when their numbers agree on the characters the
      vendor's name leaves room for; a name of 79 characters or more leaves none. */
  lemma ReferenceTellsNumbersApart(a: Invoice, b: Invoice, runA: string, runB: string)
    requires OrElse(a.vendorName, "VENDOR") == OrElse(b.vendorName, "VENDOR")
    ensures var room := 79 - |OrElse(a.vendorName, "VENDOR")|;
            (ReferenceOf(a, runA) == ReferenceOf(b, runB) <==>
               || room <= 0
               || Truncate(OrElse(a.invoiceNumber, runA), room) == Truncate(OrElse(b.invoiceNumber, runB), room))
  {
    var prefix := OrElse(a.vendorName, "VENDOR") + "/";
    var m, n := OrElse(a.invoiceNumber, runA), OrElse(b.invoiceNumber, runB);
    if |prefix| >= 80 {
      assert (prefix + m)[..80] == prefix[..80] == (prefix + n)[..80];
    } else {
      TruncateAfter(prefix, m, 80);
      TruncateAfter(prefix, n, 80);
      assert (prefix + Truncate(m, 80 - |prefix|))[|prefix|..] == Truncate(m, 80 - |prefix|);
      assert (prefix + Truncate(n, 80 - |prefix|))[|prefix|..] == Truncate(n, 80 - |prefix|);
    }
  }

  /** When invoices share a reference, whoever their vendors are: the slash is not escaped, and nothing counts past the
      80th character. */
  lemma ReferencesShared(a: Invoice, b: Invoice, runA: string, runB: string)
    ensures var s, t := FullReference(a, runA), FullReference(b, runB);
            ReferenceOf(a, runA) == ReferenceOf(b, runB) <==>
            || SameJoin(OrElse(a.vendorName, "VENDOR"), OrElse(a.invoiceNumber, runA),
                        OrElse(b.vendorName, "VENDOR"), OrElse(b.invoiceNumber, runB), '/')
            || (|s| >= 80 && |t| >= 80 && s[..80] == t[..80])
  {
    JoinExact(OrElse(a.vendorName, "VENDOR"), OrElse(a.invoiceNumber, runA),
              OrElse(b.vendorName, "VENDOR"), OrElse(b.invoiceNumber, runB), '/');
  }

  lemma TruncateAfter(prefix: string, s: string, n: nat)
    requires |prefix| <= n
    ensures Truncate(prefix + s, n) == prefix + Truncate(s, n - |prefix|)
  {
  }
}
