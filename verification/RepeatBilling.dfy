/** Several invoices on one order, one quiet run after another, each reading the order as the ERP then holds it. */
module RepeatBilling {
  import opened Prelude
  import opened Schemas
  import opened Journal
  import opened MockErp
  import opened Client
  import opened Verdict
  import opened Confidence
  import opened Repository
  import opened Workflow
  import opened OrderHistory
  import opened QuietRun

  datatype Bill = Bill(run: RunId, invoice: Invoice, vendor: Option<string>)

  /** The order a purchase order number leads to. */
  function OrderNamed(l: Ledger, number: string): Option<PurchaseOrder> {
    var i := FirstIndex(l.orders, (p: PurchaseOrder) => p.poNumber == number);
    if i.Some? then Some(l.orders[i.value]) else None
  }

  function QuietBill(env: Env, w: World, number: string, receipts: seq<GoodsReceipt>, b: Bill): World {
    var order := OrderNamed(w.ledger, number);
    if order.None? then w else Quiet(env, w, b.run, b.invoice, b.vendor, order.value, receipts)
  }

  function QuietBills(env: Env, w: World, number: string, receipts: seq<GoodsReceipt>, bills: seq<Bill>): World
    decreases |bills|
  {
    if bills == [] then w
    else QuietBills(env, QuietBill(env, w, number, receipts, bills[0]), number, receipts, bills[1..])
  }

  ghost predicate ClearBill(env: Env, w: World, b: Bill) {
    Unhindered(env, w, b.run, b.invoice)
  }

  predicate Unlike(env: Env, a: Bill, b: Bill) {
    && a.run != b.run && KeyOf(env, a.invoice) != KeyOf(env, b.invoice)
    && ReferenceOf(a.invoice, a.run) != ReferenceOf(b.invoice, b.run)
  }

  /** Every bill on a run, key and reference of its own, none of them known yet. */
  ghost predicate AllClear(env: Env, w: World, bills: seq<Bill>) {
    && (forall k :: 0 <= k < |bills| ==> ClearBill(env, w, bills[k]))
    && (forall j, k :: 0 <= j < k < |bills| ==> Unlike(env, bills[j], bills[k]))
  }

  predicate BillPasses(env: Env, order: PurchaseOrder, receipts: seq<GoodsReceipt>, b: Bill) {
    Passes(env, b.invoice, b.vendor, order, receipts)
  }

  /** The gross of the bills that pass. */
  function Passed(env: Env, order: PurchaseOrder, receipts: seq<GoodsReceipt>, bills: seq<Bill>): real {
    if bills == [] then 0.0
    else
      (if BillPasses(env, order, receipts, bills[0]) then Gross(bills[0].invoice) else 0.0)
      + Passed(env, order, receipts, bills[1..])
  }

  function TotalColumn(documents: seq<Document>): (r: seq<real>)
    ensures |r| == |documents| && forall k :: 0 <= k < |r| ==> r[k] == documents[k].total
  {
    seq(|documents|, k requires 0 <= k < |documents| => documents[k].total)
  }

  /** All the money in the ERP's journals. */
  function Booked(l: Ledger): real {
    Sum(TotalColumn(l.journals))
  }

  lemma SamePasses(env: Env, a: PurchaseOrder, b: PurchaseOrder, receipts: seq<GoodsReceipt>, bill: Bill)
    requires SameTerms(a, b)
    ensures BillPasses(env, a, receipts, bill) <==> BillPasses(env, b, receipts, bill)
  {
    hide Acceptable, Score, SameLines, Balances;
    VerdictIgnoresHistory(
      env.text, bill.invoice.(confidence := Score(bill.invoice)), a, b, ReceiptsOf(a, receipts), env.cfg);
  }

  /** Booking a payment on an order leaves its terms as they were, and marks it invoiced. */
  lemma StillNamed(l: Ledger, entry: JournalEntry, number: string)
    requires number != "" && entry.poNumber == Some(number) && Post(l, entry).1.Created?
    requires OrderNamed(l, number).Some?
    ensures var after := OrderNamed(Post(l, entry).0, number);
            && after == Some(Invoiced(OrderNamed(l, number).value))
            && SameTerms(OrderNamed(l, number).value, after.value)
  {
    hide DocumentFor;
    var i := FirstIndex(l.orders, (p: PurchaseOrder) => p.poNumber == number).value;
    var marked := MarkInvoiced(l.orders, Some(number));
    assert marked == l.orders[i := Invoiced(l.orders[i])];
    assert forall j :: 0 <= j < |marked| ==> marked[j].poNumber == l.orders[j].poNumber;
    assert marked[i].poNumber == number;
  }

  lemma BookedMore(l: Ledger, entry: JournalEntry)
    requires Post(l, entry).1.Created?
    ensures Booked(Post(l, entry).0) == Booked(l) + entry.Debits()
  {
    var (after, reply) := Post(l, entry);
    assert TotalColumn(after.journals)[..|l.journals|] == TotalColumn(l.journals);
  }

  /** One more bill on an order goes straight through exactly when it would have on the order nobody had billed yet,
      and then the ERP holds its gross on top of everything before. */
  lemma OneMoreBill(env: Env, w: World, number: string, receipts: seq<GoodsReceipt>, b: Bill)
    requires number != "" && OrderNamed(w.ledger, number).Some? && ClearBill(env, w, b)
    ensures var order, after := OrderNamed(w.ledger, number).value, QuietBill(env, w, number, receipts, b);
            var passes, named := BillPasses(env, order, receipts, b), OrderNamed(after.ledger, number);
            && b.run in after.tables.runs && (after.tables.runs[b.run].straightThrough <==> passes)
            && Booked(after.ledger) == Booked(w.ledger) + (if passes then Gross(b.invoice) else 0.0)
            && named == Some(if passes then Invoiced(order) else order) && SameTerms(order, named.value)
            && Apart(w, after, b.run)
  {
    hide Quiet, Unhindered, Booked, Passes, EntryFor, Post, KeyOf, HasReference, Gross, ReferenceOf;
    var order := OrderNamed(w.ledger, number).value;
    StraightThroughExactly(env, w, b.run, b.invoice, b.vendor, order, receipts);
    if BillPasses(env, order, receipts, b) {
      NotBooked(env, w, b);
      PassedBooks(env, w.ledger, b.run, b.invoice, b.vendor, order, receipts);
      var entry := EntryFor(env, b.run, b.invoice, b.vendor, order);
      StillNamed(w.ledger, entry, number);
      BookedMore(w.ledger, entry);
    }
  }

  lemma NotBooked(env: Env, w: World, b: Bill)
    requires ClearBill(env, w, b)
    ensures !HasReference(w.ledger, ReferenceOf(b.invoice, b.run))
  {
    hide HasReference, ReferenceOf, KeyOf, Unseen, HasJournal;
  }

  lemma OtherKey(env: Env, invoices: seq<InvoiceRow>, b: Bill, c: Bill)
    requires Unseen(invoices, KeyOf(env, c.invoice)) && Unlike(env, b, c)
    ensures Unseen(invoices + [InvoiceRow(b.run, KeyOf(env, b.invoice))], KeyOf(env, c.invoice))
  {
    hide KeyOf, ReferenceOf;
  }

  lemma OtherReference(l: Ledger, entry: JournalEntry, reference: string)
    requires !HasReference(l, reference) && entry.reference != reference && Post(l, entry).1.Created?
    ensures !HasReference(Post(l, entry).0, reference)
  {
    hide Post;
    PostEffect(l, entry);
  }

  lemma OtherJournal(w0: World, w: World, run: RunId, other: RunId)
    requires AddsJournal(w0, w, run) && run != other && !HasJournal(w0.tables.journals, other)
    ensures !HasJournal(w.tables.journals, other)
  {
    var n := |w0.tables.journals|;
    assert w.tables.journals == w.tables.journals[..n] + [w.tables.journals[n]];
  }

  /** A bill on its own run, key and reference stays unhindered while another is dealt with. */
  lemma StaysClear(env: Env, w: World, number: string, receipts: seq<GoodsReceipt>, b: Bill, c: Bill)
    requires ClearBill(env, w, b) && ClearBill(env, w, c) && Unlike(env, b, c)
    ensures ClearBill(env, QuietBill(env, w, number, receipts, b), c)
  {
    hide Quiet, Passes, EntryFor, Post, KeyOf, HasReference, HasJournal, ReferenceOf, Unseen;
    if OrderNamed(w.ledger, number).Some? {
      var order := OrderNamed(w.ledger, number).value;
      StraightThroughExactly(env, w, b.run, b.invoice, b.vendor, order, receipts);
      OtherKey(env, w.tables.invoices, b, c);
      if BillPasses(env, order, receipts, b) {
        PassedBooks(env, w.ledger, b.run, b.invoice, b.vendor, order, receipts);
        OtherReference(w.ledger, EntryFor(env, b.run, b.invoice, b.vendor, order), ReferenceOf(c.invoice, c.run));
        var after := QuietBill(env, w, number, receipts, b);
        OtherJournal(w.(ledger := after.ledger, owners := after.owners), after, b.run, c.run);
      }
    }
  }

  lemma RestClear(env: Env, w: World, number: string, receipts: seq<GoodsReceipt>, bills: seq<Bill>)
    requires AllClear(env, w, bills) && bills != []
    ensures AllClear(env, QuietBill(env, w, number, receipts, bills[0]), bills[1..])
  {
    hide ClearBill, Unlike, QuietBill;
    forall k | 0 <= k < |bills[1..]|
      ensures ClearBill(env, QuietBill(env, w, number, receipts, bills[0]), bills[1..][k])
    {
      StaysClear(env, w, number, receipts, bills[0], bills[k + 1]);
    }
  }

  lemma {:induction false} SamePassed(
    env: Env, a: PurchaseOrder, b: PurchaseOrder, receipts: seq<GoodsReceipt>, bills: seq<Bill>)
    requires SameTerms(a, b)
    ensures Passed(env, a, receipts, bills) == Passed(env, b, receipts, bills)
    ensures forall k :: 0 <= k < |bills| ==>
              (BillPasses(env, a, receipts, bills[k]) <==> BillPasses(env, b, receipts, bills[k]))
  {
    hide BillPasses, SameTerms, Gross;
    if bills != [] {
      SamePasses(env, a, b, receipts, bills[0]);
      SamePassed(env, a, b, receipts, bills[1..]);
      assert forall k :: 1 <= k < |bills| ==> bills[k] == bills[1..][k - 1];
    }
  }

  /** Any number of bills on one order: which of them go straight through is decided by each alone, as if the order had
      never been billed, and what the ERP then holds unattended on it is exactly their sum. */
  lemma {:induction false} NoMemoryOfBilling(
    env: Env, w: World, number: string, receipts: seq<GoodsReceipt>, bills: seq<Bill>)
    requires number != "" && OrderNamed(w.ledger, number).Some? && AllClear(env, w, bills)
    ensures var order, after := OrderNamed(w.ledger, number).value, QuietBills(env, w, number, receipts, bills);
            && (forall k :: 0 <= k < |bills| ==>
                  && bills[k].run in after.tables.runs
                  && (after.tables.runs[bills[k].run].straightThrough <==> BillPasses(env, order, receipts, bills[k])))
            && Booked(after.ledger) == Booked(w.ledger) + Passed(env, order, receipts, bills)
            && (forall r :: r in w.tables.runs && (forall k :: 0 <= k < |bills| ==> bills[k].run != r) ==>
                  r in after.tables.runs && after.tables.runs[r] == w.tables.runs[r])
    decreases |bills|
  {
    hide ClearBill, Unlike, QuietBill, BillPasses, SameTerms, Booked, Gross;
    if bills != [] {
      var order, first := OrderNamed(w.ledger, number).value, QuietBill(env, w, number, receipts, bills[0]);
      assert ClearBill(env, w, bills[0]);
      OneMoreBill(env, w, number, receipts, bills[0]);
      RestClear(env, w, number, receipts, bills);
      NoMemoryOfBilling(env, first, number, receipts, bills[1..]);
      SamePassed(env, order, OrderNamed(first.ledger, number).value, receipts, bills[1..]);
      assert forall k :: 1 <= k < |bills| ==> bills[k] == bills[1..][k - 1];
      assert forall k :: 1 <= k < |bills| ==> bills[k].run != bills[0].run by {
        assert forall k :: 1 <= k < |bills| ==> Unlike(env, bills[0], bills[k]);
        DifferentRuns(env, bills);
      }
    }
  }

  lemma DifferentRuns(env: Env, bills: seq<Bill>)
    requires forall k :: 1 <= k < |bills| ==> Unlike(env, bills[0], bills[k])
    ensures forall k :: 1 <= k < |bills| ==> bills[k].run != bills[0].run
  {
    hide KeyOf, ReferenceOf;
    forall k | 1 <= k < |bills|
      ensures bills[k].run != bills[0].run
    {
      assert Unlike(env, bills[0], bills[k]);
    }
  }
}
