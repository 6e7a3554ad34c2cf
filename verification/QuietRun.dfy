/** One run with nothing going wrong around it: exactly which invoices go straight through. */
module QuietRun {
  import opened Prelude
  import opened Schemas
  import opened Journal
  import opened MockErp
  import opened Client
  import opened Confidence
  import opened Verdict
  import opened Decide
  import opened OrderHistory
  import opened Repository
  import opened Workflow

  const GOOD := Io(true, true, true, true, true)

  /** Nobody else moved. */
  ghost predicate Apart(w0: World, w: World, run: RunId) {
    && w.procs.Keys == w0.procs.Keys + {run} && w.cash == w0.cash
    && (forall r :: r in w0.tables.runs && r != run ==> r in w.tables.runs && w.tables.runs[r] == w0.tables.runs[r])
  }

  /** The run stands at pc with ch; since w0 it stored these invoice rows and nothing was posted. */
  ghost predicate Stands(w0: World, w: World, run: RunId, pc: Pc, ch: Channel, stored: seq<InvoiceRow>) {
    && run in w.procs && w.procs[run].pc == pc && w.procs[run].ch == ch
    && run in w.tables.runs && !w.tables.runs[run].straightThrough
    && w.tables.invoices == w0.tables.invoices + stored
    && PostsNothing(w0, w) && Apart(w0, w, run)
  }

  lemma Started(env: Env, w: World, run: RunId)
    requires run !in w.procs && run !in w.cash
    ensures Stands(w, Step(env, w, Start(run, true)), run, At(ParseNode), EMPTY, [])
  {
    hide MaxSequence, RunStep, CashStep;
  }

  lemma Parsed(env: Env, w0: World, w: World, run: RunId)
    requires Stands(w0, w, run, At(ParseNode), EMPTY, [])
    ensures Stands(w0, Step(env, w, DoParse(run, true, GOOD)), run, At(ExtractNode), EMPTY, [])
  {
    hide MaxSequence, MatchStep, ResumeStep, BeginPostStep, SendStep, RecordStep, CashStep;
  }

  lemma Extracted(env: Env, w0: World, w: World, run: RunId, invoice: Invoice)
    requires Stands(w0, w, run, At(ExtractNode), EMPTY, [])
    ensures Stands(w0, Step(env, w, DoExtract(run, Some(invoice), GOOD)), run, At(PersistNode),
                   EMPTY.(invoice := Some(invoice.(confidence := Score(invoice)))), [])
  {
    hide MaxSequence, Score, MatchStep, ResumeStep, BeginPostStep, SendStep, RecordStep, CashStep;
  }

  lemma Persisted(env: Env, w0: World, w: World, run: RunId, ch: Channel)
    requires Stands(w0, w, run, At(PersistNode), ch, []) && ch.invoice.Some?
    ensures Stands(w0, Step(env, w, DoPersist(run, GOOD)), run, At(DuplicateNode), ch,
                   [InvoiceRow(run, Fingerprint(env.text, ch.invoice.value))])
  {
    hide Fingerprint, MatchStep, ResumeStep, BeginPostStep, SendStep, RecordStep, CashStep;
  }

  predicate Unseen(invoices: seq<InvoiceRow>, key: string) {
    forall row :: row in invoices ==> row.fingerprint != key
  }

  lemma Checked(env: Env, w0: World, w: World, run: RunId, ch: Channel)
    requires ch.invoice.Some?
    requires Stands(w0, w, run, At(DuplicateNode), ch, [InvoiceRow(run, Fingerprint(env.text, ch.invoice.value))])
    requires Unseen(w0.tables.invoices, Fingerprint(env.text, ch.invoice.value))
    ensures Stands(w0, Step(env, w, DoDuplicateCheck(run, GOOD)), run, At(VendorNode), ch.(duplicateOf := None),
                   [InvoiceRow(run, Fingerprint(env.text, ch.invoice.value))])
  {
    hide MaxSequence, Fingerprint, ParseStep, ExtractStep, PersistStep, VendorStep, FetchPoStep, MatchStep, RaiseStep,
      ResumeStep, BeginPostStep, SendStep, RecordStep, RejectStep, FailStep, CashStep;
    var key := Fingerprint(env.text, ch.invoice.value);
    assert forall k :: 0 <= k < |w0.tables.invoices| ==> w0.tables.invoices[k] in w0.tables.invoices;
    assert FindDuplicate(w.tables.invoices, key, run).None?;
  }

  lemma Resolved(
    env: Env, w0: World, w: World, run: RunId, ch: Channel, vendor: Option<string>, stored: seq<InvoiceRow>)
    requires ch.invoice.Some? && Stands(w0, w, run, At(VendorNode), ch, stored)
    ensures Stands(w0, Step(env, w, DoResolveVendor(run, vendor, GOOD)), run, At(FetchPoNode), ch.(vendor := vendor),
                   stored)
  {
    hide MaxSequence, MatchStep, ResumeStep, BeginPostStep, SendStep, RecordStep, CashStep;
  }

  function ReceiptsOf(order: PurchaseOrder, receipts: seq<GoodsReceipt>): seq<GoodsReceipt> {
    if order.goodsReceiptRequired then receipts else []
  }

  lemma FetchedOrder(
    env: Env, w0: World, w: World, run: RunId, ch: Channel, order: PurchaseOrder, receipts: seq<GoodsReceipt>,
    stored: seq<InvoiceRow>)
    requires ch.invoice.Some? && Truthy(ch.invoice.value.purchaseOrderNumber)
            && Stands(w0, w, run, At(FetchPoNode), ch, stored)
    ensures Stands(w0, Step(env, w, DoFetchPo(run, PoFound(order, receipts), GOOD)), run, At(MatchingNode),
                   ch.(order := Some(order), receipts := ReceiptsOf(order, receipts)), stored)
  {
    hide MaxSequence, MatchStep, ResumeStep, BeginPostStep, SendStep, RecordStep, CashStep;
  }

  lemma Matched(env: Env, w0: World, w: World, run: RunId, ch: Channel, stored: seq<InvoiceRow>)
    requires ch.invoice.Some? && !ch.error && Stands(w0, w, run, At(MatchingNode), ch, stored)
    ensures var report := ReportOf(env, ch);
            Stands(w0, Step(env, w, DoMatch(run, GOOD)), run, At(if report.IsPostable() then PostNode else RaiseNode),
                   ch.(report := Some(report)), stored)
  {
    hide MaxSequence, ReportOf, ResumeStep, BeginPostStep, SendStep, RecordStep, CashStep;
  }

  lemma Began(env: Env, w0: World, w: World, run: RunId, ch: Channel, stored: seq<InvoiceRow>)
    requires ch.invoice.Some? && Stands(w0, w, run, At(PostNode), ch, stored)
    ensures var entry := RunEntry(env, ch, run);
            var after := Step(env, w, BeginPost(run, GOOD));
            if entry.IsBalanced() then Stands(w0, after, run, Sending(entry, 0), ch, stored)
            else Stands(w0, after, run, Ended, ch.(error := true), stored)
  {
    hide MaxSequence, EntryOf, ParseStep, ExtractStep, PersistStep, DuplicateStep, VendorStep, FetchPoStep, MatchStep,
      RaiseStep, ResumeStep, SendStep, RecordStep, RejectStep, FailStep, CashStep;
  }

  lemma Answered(env: Env, w: World, run: RunId, entry: JournalEntry)
    requires run in w.procs && w.procs[run].pc == Sending(entry, 0)
    requires entry.IsBalanced() && entry.lines != [] && !HasReference(w.ledger, entry.reference)
    ensures var after := Step(env, w, Send(run, Delivery.Answered));
            && run in after.procs && after.procs[run].ch == w.procs[run].ch && after.tables == w.tables
            && after.procs[run].pc.Sent? && after.procs[run].pc.posting.Booked?
            && after.ledger == Post(w.ledger, entry).0 && after.procs.Keys == w.procs.Keys && after.cash == w.cash
            && after.payers == w.payers
  {
    hide Post, MatchStep, ResumeStep, BeginPostStep, RecordStep, CashStep;
    PostSucceeds(w.ledger, entry);
  }

  lemma Recorded(env: Env, w: World, run: RunId)
    requires run in w.procs && w.procs[run].pc.Sent? && w.procs[run].pc.posting.Booked?
    requires w.procs[run].ch.invoice.Some? && run in w.tables.runs && !HasJournal(w.tables.journals, run)
    ensures var after := Step(env, w, Record(run, GOOD));
            && run in after.tables.runs && after.tables.runs[run].straightThrough == !w.procs[run].ch.caseId
            && AddsJournal(w, after, run) && after.tables.invoices == w.tables.invoices
            && after.ledger == w.ledger && Apart(w, after, run)
  {
    hide MaxSequence, EntryOf, MatchStep, ResumeStep, BeginPostStep, SendStep, CashStep;
  }

  /** The invoice arrives, every write lands, every call is answered. */
  function UpToMatch(
    env: Env, w: World, run: RunId, invoice: Invoice, vendor: Option<string>, order: PurchaseOrder,
    receipts: seq<GoodsReceipt>): World
  {
    var w1 := Step(env, w, Start(run, true));
    var w2 := Step(env, w1, DoParse(run, true, GOOD));
    var w3 := Step(env, w2, DoExtract(run, Some(invoice), GOOD));
    var w4 := Step(env, w3, DoPersist(run, GOOD));
    var w5 := Step(env, w4, DoDuplicateCheck(run, GOOD));
    var w6 := Step(env, w5, DoResolveVendor(run, vendor, GOOD));
    var w7 := Step(env, w6, DoFetchPo(run, PoFound(order, receipts), GOOD));
    Step(env, w7, DoMatch(run, GOOD))
  }

  function Quiet(
    env: Env, w: World, run: RunId, invoice: Invoice, vendor: Option<string>, order: PurchaseOrder,
    receipts: seq<GoodsReceipt>): World
  {
    var matched := UpToMatch(env, w, run, invoice, vendor, order, receipts);
    var begun := Step(env, matched, BeginPost(run, GOOD));
    var sent := Step(env, begun, Send(run, Delivery.Answered));
    Step(env, sent, Record(run, GOOD))
  }

  /** What the run carries when it leaves the match node. */
  function MatchedChannel(
    env: Env, invoice: Invoice, vendor: Option<string>, order: PurchaseOrder,
    receipts: seq<GoodsReceipt>): (ch: Channel)
    ensures ch.invoice.Some? && ch.report == Some(ReportOf(env, ch.(report := None)))
  {
    var ch := EMPTY.(invoice := Some(invoice.(confidence := Score(invoice))), vendor := vendor,
                     order := Some(order), receipts := ReceiptsOf(order, receipts));
    ch.(report := Some(ReportOf(env, ch)))
  }

  lemma MatchReached(
    env: Env, w: World, run: RunId, invoice: Invoice, vendor: Option<string>, order: PurchaseOrder,
    receipts: seq<GoodsReceipt>)
    requires run !in w.procs && run !in w.cash && Truthy(invoice.purchaseOrderNumber)
    requires Unseen(w.tables.invoices, Fingerprint(env.text, invoice.(confidence := Score(invoice))))
    ensures var ch := MatchedChannel(env, invoice, vendor, order, receipts);
            Stands(w, UpToMatch(env, w, run, invoice, vendor, order, receipts), run,
                   At(if ch.report.value.IsPostable() then PostNode else RaiseNode), ch,
                   [InvoiceRow(run, Fingerprint(env.text, ch.invoice.value))])
  {
    hide Step, Stands, Score, Fingerprint, ReportOf, ReceiptsOf, Unseen;
    var scored := invoice.(confidence := Score(invoice));
    var stored := [InvoiceRow(run, Fingerprint(env.text, scored))];
    var ch3 := EMPTY.(invoice := Some(scored));
    var w1 := Step(env, w, Start(run, true));
    Started(env, w, run);
    var w2 := Step(env, w1, DoParse(run, true, GOOD));
    Parsed(env, w, w1, run);
    var w3 := Step(env, w2, DoExtract(run, Some(invoice), GOOD));
    Extracted(env, w, w2, run, invoice);
    var w4 := Step(env, w3, DoPersist(run, GOOD));
    Persisted(env, w, w3, run, ch3);
    var w5 := Step(env, w4, DoDuplicateCheck(run, GOOD));
    Checked(env, w, w4, run, ch3);
    var w6 := Step(env, w5, DoResolveVendor(run, vendor, GOOD));
    Resolved(env, w, w5, run, ch3, vendor, stored);
    var ch6 := ch3.(vendor := vendor);
    FetchedOrder(env, w, w6, run, ch6, order, receipts, stored);
    var w7 := Step(env, w6, DoFetchPo(run, PoFound(order, receipts), GOOD));
    Matched(env, w, w7, run, ch6.(order := Some(order), receipts := ReceiptsOf(order, receipts)), stored);
  }

  /** What one quiet run leaves: its invoice row, and a posting if there is one. */
  ghost predicate Leaves(w0: World, w: World, run: RunId, stored: seq<InvoiceRow>, entry: JournalEntry, posts: bool) {
    && run in w.tables.runs && (w.tables.runs[run].straightThrough <==> posts)
    && w.tables.invoices == w0.tables.invoices + stored && Apart(w0, w, run)
    && (if posts then AddsJournal(w0.(ledger := w.ledger, owners := w.owners), w, run)
        && w.ledger == Post(w0.ledger, entry).0
        else PostsNothing(w0, w))
  }

  lemma Stopped(env: Env, w: World, run: RunId)
    requires run in w.procs && w.procs[run].pc == Ended
    ensures Step(env, Step(env, w, Send(run, Delivery.Answered)), Record(run, GOOD)) == w
  {
    hide RunStep, CashStep;
  }

  lemma QuietPosts(env: Env, w0: World, matched: World, run: RunId, ch: Channel, stored: seq<InvoiceRow>)
    requires ch.invoice.Some? && !ch.caseId && Stands(w0, matched, run, At(PostNode), ch, stored)
    requires !HasJournal(w0.tables.journals, run)
    requires !HasReference(w0.ledger, ReferenceOf(ch.invoice.value, run))
    ensures var begun := Step(env, matched, BeginPost(run, GOOD));
            var after := Step(env, Step(env, begun, Send(run, Delivery.Answered)), Record(run, GOOD));
            var entry := RunEntry(env, ch, run);
            Leaves(w0, after, run, stored, entry, entry.IsBalanced())
  {
    hide Step, HasReference, HasJournal, EntryLines, ReferenceOf, Post;
    Began(env, w0, matched, run, ch, stored);
    EntryTotals(ch.invoice.value, ch.order, ch.vendor, run, env.currency);
    var begun := Step(env, matched, BeginPost(run, GOOD));
    if RunEntry(env, ch, run).IsBalanced() {
      Answered(env, begun, run, RunEntry(env, ch, run));
      Recorded(env, Step(env, begun, Send(run, Delivery.Answered)), run);
    } else {
      Stopped(env, begun, run);
    }
  }

  /** Exactly what one quiet run needs to go straight through. */
  predicate Passes(
    env: Env, invoice: Invoice, vendor: Option<string>, order: PurchaseOrder, receipts: seq<GoodsReceipt>)
  {
    && Acceptable(env.text, invoice.(confidence := Score(invoice)), Some(order), ReceiptsOf(order, receipts), env.cfg)
    && (vendor.Some? || !Truthy(invoice.vendorName))
    && Balances(invoice)
  }

  function KeyOf(env: Env, invoice: Invoice): string {
    Fingerprint(env.text, invoice.(confidence := Score(invoice)))
  }

  function EntryFor(
    env: Env, run: RunId, invoice: Invoice, vendor: Option<string>, order: PurchaseOrder): JournalEntry
  {
    EntryOf(invoice.(confidence := Score(invoice)), Some(order), vendor, run, env.currency)
  }

  /** Nothing is in the way of a run on this invoice. */
  ghost predicate Unhindered(env: Env, w: World, run: RunId, invoice: Invoice) {
    && run !in w.procs && run !in w.cash && Truthy(invoice.purchaseOrderNumber)
    && Unseen(w.tables.invoices, KeyOf(env, invoice))
    && !HasJournal(w.tables.journals, run) && !HasReference(w.ledger, ReferenceOf(invoice, run))
  }

  /** With nothing else in the way, an invoice on an order goes straight through exactly when it is acceptable, its
      vendor is known or was not printed, and its journal balances on a positive gross; and then it is booked, with the
      vendor found for it and whatever vendor the order names. */
  lemma StraightThroughExactly(
    env: Env, w: World, run: RunId, invoice: Invoice, vendor: Option<string>, order: PurchaseOrder,
    receipts: seq<GoodsReceipt>)
    requires Unhindered(env, w, run, invoice)
    ensures Leaves(w, Quiet(env, w, run, invoice, vendor, order, receipts), run, [InvoiceRow(run, KeyOf(env, invoice))],
                   EntryFor(env, run, invoice, vendor, order), Passes(env, invoice, vendor, order, receipts))
  {
    hide Step, Acceptable, NodeReport, Score, Fingerprint, UpToMatch, EntryOf, HasReference, HasJournal, Unseen,
      Balances;
    MatchReached(env, w, run, invoice, vendor, order, receipts);
    var ch := MatchedChannel(env, invoice, vendor, order, receipts);
    var scored := invoice.(confidence := Score(invoice));
    var matched := UpToMatch(env, w, run, invoice, vendor, order, receipts);
    var stored := [InvoiceRow(run, Fingerprint(env.text, scored))];
    NodeVerdict(env.text, scored, Some(order), ReceiptsOf(order, receipts), env.cfg, false, vendor);
    BalancedExactly(scored, Some(order), vendor, run, env.currency);
    SameFigures(invoice, Score(invoice), run);
    if ch.report.value.IsPostable() {
      QuietPosts(env, w, matched, run, ch, stored);
    } else {
      Waits(env, matched, run);
    }
  }

  lemma Waits(env: Env, w: World, run: RunId)
    requires run in w.procs && w.procs[run].pc == At(RaiseNode)
    ensures Step(env, Step(env, Step(env, w, BeginPost(run, GOOD)), Send(run, Delivery.Answered)), Record(run, GOOD))
            == w
  {
    hide RunStep, CashStep;
  }

  /** What passes is booked as soon as the ERP is asked, under a new reference. */
  lemma PassedBooks(
    env: Env, l: Ledger, run: RunId, invoice: Invoice, vendor: Option<string>, order: PurchaseOrder,
    receipts: seq<GoodsReceipt>)
    requires Passes(env, invoice, vendor, order, receipts) && !HasReference(l, ReferenceOf(invoice, run))
    ensures var entry := EntryFor(env, run, invoice, vendor, order);
            var (after, reply) := Post(l, entry);
            && reply.Created? && after.archive == l.archive + [reply.document] && Books(reply.document, entry)
            && entry.Debits() == Gross(invoice) && entry.reference == ReferenceOf(invoice, run)
            && entry.poNumber == Some(order.poNumber) && entry.vendorId == vendor
  {
    hide Acceptable, Score, HasReference, Balances, Gross, ReferenceOf, Post;
    var scored := invoice.(confidence := Score(invoice));
    BalancedExactly(scored, Some(order), vendor, run, env.currency);
    JournalExact(scored, Some(order), vendor, run, env.currency);
    EntryTotals(scored, Some(order), vendor, run, env.currency);
    SameFigures(invoice, Score(invoice), run);
    PostSucceeds(l, EntryFor(env, run, invoice, vendor, order));
    PostEffect(l, EntryFor(env, run, invoice, vendor, order));
  }

  lemma PassedLeaves(
    env: Env, w: World, run: RunId, invoice: Invoice, vendor: Option<string>, order: PurchaseOrder,
    receipts: seq<GoodsReceipt>)
    requires Unhindered(env, w, run, invoice) && Passes(env, invoice, vendor, order, receipts)
    ensures var archive := Quiet(env, w, run, invoice, vendor, order, receipts).ledger.archive;
            var n := |w.ledger.archive|;
            && |archive| == n + 1 && archive[..n] == w.ledger.archive
            && Books(archive[n], EntryFor(env, run, invoice, vendor, order))
            && archive[n].vendorId == vendor && archive[n].poNumber == Some(order.poNumber)
            && archive[n].total == Gross(invoice)
  {
    hide Quiet, Passes, EntryFor, Post, KeyOf, HasReference, HasJournal, ReferenceOf, Unseen, Gross;
    StraightThroughExactly(env, w, run, invoice, vendor, order, receipts);
    PassedBooks(env, w.ledger, run, invoice, vendor, order, receipts);
  }

  /** The score plays no part in the journal. */
  lemma SameFigures(invoice: Invoice, score: real, run: RunId)
    ensures var scored := invoice.(confidence := score);
            && Gross(scored) == Gross(invoice) && (Balances(scored) <==> Balances(invoice))
            && ReferenceOf(scored, run) == ReferenceOf(invoice, run)
  {
  }

  /** Whoever an order was placed with, the payment goes to the vendor resolved from the invoice: the two are never
      compared. */
  lemma VendorNeverCompared(
    env: Env, w: World, run: RunId, invoice: Invoice, vendor: string, order: PurchaseOrder, supplier: string,
    receipts: seq<GoodsReceipt>)
    requires Unhindered(env, w, run, invoice)
    ensures var placed := order.(vendorId := supplier);
            var passes := Passes(env, invoice, Some(vendor), order, receipts);
            && (passes <==> Passes(env, invoice, Some(vendor), placed, receipts))
            && Leaves(w, Quiet(env, w, run, invoice, Some(vendor), placed, receipts), run,
                      [InvoiceRow(run, KeyOf(env, invoice))], EntryFor(env, run, invoice, Some(vendor), placed), passes)
            && (passes ==>
                  var archive := Quiet(env, w, run, invoice, Some(vendor), placed, receipts).ledger.archive;
                  var n := |w.ledger.archive|;
                  && |archive| == n + 1 && archive[..n] == w.ledger.archive
                  && archive[n].vendorId == Some(vendor) && archive[n].poNumber == Some(order.poNumber)
                  && archive[n].total == Gross(invoice))
  {
    hide Acceptable, Score, Quiet, Leaves, Unhindered, KeyOf, Gross, Balances, EntryLines;
    var placed := order.(vendorId := supplier);
    assert SameTerms(order, placed);
    VerdictIgnoresHistory(
      env.text, invoice.(confidence := Score(invoice)), order, placed, ReceiptsOf(order, receipts), env.cfg);
    StraightThroughExactly(env, w, run, invoice, Some(vendor), placed, receipts);
    if Passes(env, invoice, Some(vendor), order, receipts) {
      assert Passes(env, invoice, Some(vendor), placed, receipts);
      PassedLeaves(env, w, run, invoice, Some(vendor), placed, receipts);
    }
  }
}
