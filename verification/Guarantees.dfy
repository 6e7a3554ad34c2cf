/** What every execution guarantees: any number of payable and receivable runs, any interleaving, any lost write,
    lost reply, retry, crash, redrive and human decision. */
module Guarantees {
  import opened Prelude
  import opened Money
  import opened Schemas
  import opened Tolerance
  import opened Journal
  import opened Numbering
  import opened MockErp
  import opened Client
  import opened Matching
  import opened Verdict
  import opened Decide
  import opened Leakage
  import opened Repository
  import opened Workflow
  import opened Views
  import opened RunInvariant
  import opened StepInvariant
  import opened CashInvariant
  import opened WorkflowInvariant

  lemma RunValid(env: Env, events: seq<Event>, run: RunId)
    requires ValidSeed(env.seed)
    requires run in Execute(env, events).procs
    ensures var w := Execute(env, events);
            Known(w) && RunInv(env, run, ViewOf(w, run))
  {
    hide RunInv, LedgerInv, Exclusive, OneJournalEach, EachCash, Execute, ValidSeed;
    AlwaysValid(env, events);
  }

  lemma CashValid(env: Env, events: seq<Event>, run: RunId)
    requires ValidSeed(env.seed)
    requires run in Execute(env, events).cash
    ensures var w := Execute(env, events);
            Known(w) && CashInv(env, CashViewOf(w, run))
  {
    hide CashInv, LedgerInv, Exclusive, OneJournalEach, EachRun, Execute, ValidSeed;
    AlwaysValid(env, events);
  }

  lemma AllKnown(env: Env, events: seq<Event>)
    requires ValidSeed(env.seed)
    ensures Known(Execute(env, events))
  {
    hide LedgerInv, Exclusive, OneJournalEach, EachRun, EachCash, Execute, ValidSeed, Known;
    AlwaysValid(env, events);
  }

  lemma ViewParts(w: World, run: RunId)
    requires Known(w) && run in w.procs
    ensures run in w.tables.runs
    ensures ViewOf(w, run).process == w.procs[run] && ViewOf(w, run).row == w.tables.runs[run]
    ensures ViewOf(w, run).trail == Trail(w.tables.audit, run)
  {
  }

  // One run at a time may go through on an invoice

  /** Of all the runs that ever saw one vendor, number and printed amount, at most one leaves the duplicate check
      clean. */
  lemma OneClearedPerKey(env: Env, events: seq<Event>, r: RunId, s: RunId)
    requires ValidSeed(env.seed)
    requires var procs := Execute(env, events).procs;
             && r in procs && s in procs && procs[r].cleared && procs[s].cleared
             && procs[r].ch.invoice.Some? && procs[s].ch.invoice.Some?
             && Fingerprint(env.text, procs[r].ch.invoice.value) == Fingerprint(env.text, procs[s].ch.invoice.value)
    ensures r == s
  {
    hide Fingerprint, EachRun, EachCash, LedgerInv, OneJournalEach, Execute, ValidSeed, Known;
    AlwaysValid(env, events);
  }

  /** A completing duplicate check of a run before which nobody else had stored the run's key. */
  ghost predicate ChecksAlone(env: Env, w: World, e: Event, run: RunId) {
    && e.DoDuplicateCheck? && e.run == run && e.io.survives && Enabled(w, e)
    && w.procs[run].ch.invoice.Some?
    && NobodyElse(w.tables.invoices, Fingerprint(env.text, w.procs[run].ch.invoice.value), run)
  }

  predicate NobodyElse(invoices: seq<InvoiceRow>, key: string, run: RunId) {
    forall row :: row in invoices && row.fingerprint == key ==> row.run == run
  }

  lemma FoundExactly(invoices: seq<InvoiceRow>, key: string, run: RunId)
    ensures FindDuplicate(invoices, key, run).None? <==> NobodyElse(invoices, key, run)
  {
    var found := FindDuplicate(invoices, key, run);
    if found.Some? {
      assert invoices[found.value] in invoices;
    }
  }

  lemma ClearsExactly(env: Env, w: World, run: RunId, io: Io)
    requires run in w.procs && w.procs[run].pc == At(DuplicateNode) && !w.procs[run].cleared
    ensures var e := DoDuplicateCheck(run, io);
            run in Step(env, w, e).procs && (Step(env, w, e).procs[run].cleared <==> ChecksAlone(env, w, e, run))
  {
    hide AppendAudit, Fingerprint, FindDuplicate, NobodyElse;
    if w.procs[run].ch.invoice.Some? {
      FoundExactly(w.tables.invoices, Fingerprint(env.text, w.procs[run].ch.invoice.value), run);
    }
  }

  lemma CheckedLate(env: Env, run: RunId, v: View)
    requires RunInv(env, run, v)
    ensures Stage(v.process.pc) <= 3 ==> !v.process.cleared
    ensures ClearedKey(env, v.process).Some? <==> v.process.cleared
  {
    hide Flow, Reported, Backed, Rowed, Audited, Fingerprint;
  }

  /** Every other step of a run leaves it as the duplicate check left it. */
  lemma ClearedOnlyByCheck(env: Env, w: World, e: Event, run: RunId)
    requires ValidSeed(env.seed) && Inv(env, w) && run in w.procs && !e.DoDuplicateCheck?
    ensures run in Step(env, w, e).procs && Step(env, w, e).procs[run].cleared == w.procs[run].cleared
  {
    hide RunInv, EachRun, EachCash, LedgerInv, Exclusive, OneJournalEach, Step, Enabled, ValidSeed, Changed,
      Fingerprint, ViewOf, ClearedKey;
    if RunOf(e) == Some(run) && Enabled(w, e) {
      var v := RunStepGood(env, w, e, run);
      CheckedLate(env, run, v);
      OpenHere(env, w, run);
      CheckedLate(env, run, ViewOf(w, run));
      ViewParts(w, run);
    } else {
      CashApart(env, w, e, run);
      StepFrame(env, w, e, run);
    }
  }

  lemma CashApart(env: Env, w: World, e: Event, run: RunId)
    requires Known(w) && run in w.procs
    ensures CashRunOf(e) == Some(run) ==> !Enabled(w, e)
  {
  }

  predicate IsCleared(w: World, run: RunId) {
    run in w.procs && w.procs[run].cleared
  }

  lemma StepClearsExactly(env: Env, w: World, e: Event, run: RunId)
    requires ValidSeed(env.seed) && Inv(env, w)
    ensures IsCleared(Step(env, w, e), run) <==> IsCleared(w, run) || ChecksAlone(env, w, e, run)
  {
    hide RunInv, EachRun, EachCash, LedgerInv, Exclusive, OneJournalEach, ValidSeed, Fingerprint, NobodyElse, RunStep,
      CashStep, Do, Awaits, CashAwaits;
    if run !in w.procs {
      NewcomerUncleared(env, w, e, run);
    } else if e.DoDuplicateCheck? && e.run == run && Enabled(w, e) {
      CheckStarts(env, w, e, run);
      ClearsExactly(env, w, run, e.io);
    } else if e.DoDuplicateCheck? {
      CashApart(env, w, e, run);
      StepFrame(env, w, e, run);
    } else {
      ClearedOnlyByCheck(env, w, e, run);
    }
  }

  lemma CheckStarts(env: Env, w: World, e: Event, run: RunId)
    requires Inv(env, w) && e.DoDuplicateCheck? && e.run == run && Enabled(w, e)
    ensures w.procs[run].pc == At(DuplicateNode) && !w.procs[run].cleared
  {
    hide RunInv, EachRun, EachCash, LedgerInv, Exclusive, OneJournalEach, Changed, ViewOf;
    OpenHere(env, w, run);
    ViewParts(w, run);
    CheckedLate(env, run, ViewOf(w, run));
  }

  lemma NewcomerUncleared(env: Env, w: World, e: Event, run: RunId)
    requires Inv(env, w) && run !in w.procs
    ensures !IsCleared(Step(env, w, e), run)
  {
    hide RunInv, CashInv, EachRun, EachCash, LedgerInv, Exclusive, OneJournalEach, Fingerprint, RunStep, CashStep, Do,
      Awaits, CashAwaits, MaxSequence, Keys, Reports, JournalsOf, DocumentsOf, RemittancesOf, MadeBy, Trail;
    if Enabled(w, e) {
      if RunOf(e).Some? {
        var v := RunStepGood(env, w, e, RunOf(e).value);
      } else if CashRunOf(e).Some? {
        var v := CashStepGood(env, w, e, CashRunOf(e).value);
      }
    }
  }

  ghost predicate HappensAt(env: Env, events: seq<Event>, what: (World, Event) -> bool, k: nat) {
    k < |events| && what(Execute(env, events[..k]), events[k])
  }

  /** Something happened at some event of an execution. */
  ghost predicate Ever(env: Env, events: seq<Event>, what: (World, Event) -> bool) {
    exists k: nat :: HappensAt(env, events, what, k)
  }

  lemma EverGrows(env: Env, events: seq<Event>, what: (World, Event) -> bool)
    requires events != []
    ensures var n := |events| - 1;
            Ever(env, events, what) <==> Ever(env, events[..n], what) || what(Execute(env, events[..n]), events[n])
  {
    hide Execute;
    var n := |events| - 1;
    forall k: nat | k < n
      ensures HappensAt(env, events, what, k) <==> HappensAt(env, events[..n], what, k)
    {
      assert events[..n][..k] == events[..k] && events[..n][k] == events[k];
    }
    assert HappensAt(env, events, what, n) <==> what(Execute(env, events[..n]), events[n]);
    if Ever(env, events, what) {
      var k: nat :| HappensAt(env, events, what, k);
      assert k < n ==> HappensAt(env, events[..n], what, k);
    }
    if Ever(env, events[..n], what) {
      var k: nat :| HappensAt(env, events[..n], what, k);
      assert HappensAt(env, events, what, k);
    }
  }

  /** The run completed a duplicate check before which nobody else had stored its key. */
  ghost function Alone(env: Env, run: RunId): (World, Event) -> bool {
    (w, e) => ChecksAlone(env, w, e, run)
  }

  /** In every execution a run is let through exactly when it was alone with its key at its duplicate check. */
  lemma {:induction false} ClearedExactly(env: Env, events: seq<Event>, run: RunId)
    requires ValidSeed(env.seed)
    ensures IsCleared(Execute(env, events), run) <==> Ever(env, events, Alone(env, run))
  {
    hide Step, Init, Inv, ValidSeed, ChecksAlone, IsCleared, Ever;
    if events == [] {
      NothingYet(env, run);
    } else {
      var before := events[..|events| - 1];
      ClearedExactly(env, before, run);
      AlwaysValid(env, before);
      StepClearsExactly(env, Execute(env, before), events[|events| - 1], run);
      EverGrows(env, events, Alone(env, run));
    }
  }

  lemma NothingYet(env: Env, run: RunId)
    ensures !IsCleared(Init(env), run) && !Ever(env, [], Alone(env, run))
  {
  }

  // Storing without checking

  /** At most one, not exactly one: two runs that store before either checks both see the other and both stop. */
  lemma BothMayStop(env: Env, w: World, r: RunId, s: RunId, io: Io)
    requires r != s && r in w.procs && s in w.procs && io.survives
    requires w.procs[r].pc == At(PersistNode) && w.procs[s].pc == At(PersistNode)
    requires w.procs[r].ch.invoice.Some? && w.procs[s].ch.invoice.Some?
    requires Fingerprint(env.text, w.procs[r].ch.invoice.value) == Fingerprint(env.text, w.procs[s].ch.invoice.value)
    ensures var stored := Step(env, Step(env, w, DoPersist(r, io)), DoPersist(s, io));
            var after := Step(env, Step(env, stored, DoDuplicateCheck(r, io)), DoDuplicateCheck(s, io));
            && r in after.procs && s in after.procs
            && after.procs[r].ch.duplicateOf.Some? && after.procs[s].ch.duplicateOf.Some?
  {
    hide AppendAudit, Fingerprint, FindDuplicate, DuplicateStep;
    var key := Fingerprint(env.text, w.procs[r].ch.invoice.value);
    var stored := Step(env, Step(env, w, DoPersist(r, io)), DoPersist(s, io));
    assert stored.tables.invoices == w.tables.invoices + [InvoiceRow(r, key)] + [InvoiceRow(s, key)];
    var n := |w.tables.invoices|;
    assert stored.tables.invoices[n] == InvoiceRow(r, key) && stored.tables.invoices[n + 1] == InvoiceRow(s, key);
    StopsOn(env, stored, r, n + 1, io);
    var checked := Step(env, stored, DoDuplicateCheck(r, io));
    StopsOn(env, checked, s, n, io);
  }

  lemma StopsOn(env: Env, w: World, run: RunId, i: nat, io: Io)
    requires run in w.procs && w.procs[run].pc == At(DuplicateNode) && w.procs[run].ch.invoice.Some? && io.survives
    requires i < |w.tables.invoices| && w.tables.invoices[i].run != run
    requires w.tables.invoices[i].fingerprint == Fingerprint(env.text, w.procs[run].ch.invoice.value)
    ensures var after := Step(env, w, DoDuplicateCheck(run, io));
            && run in after.procs && after.procs[run].ch.duplicateOf.Some?
            && after.tables.invoices == w.tables.invoices
            && after.procs.Keys == w.procs.Keys
            && forall r :: r in w.procs && r != run ==> after.procs[r] == w.procs[r]
  {
    hide MaxSequence, Fingerprint;
  }

  // Posting without a human

  /** A clean report and nobody asked. */
  lemma ClearedReport(env: Env, run: RunId, v: View)
    requires RunInv(env, run, v) && Cleared(v.process.ch)
    ensures var ch := v.process.ch;
            && ch.invoice.Some? && ch.duplicateOf.None? && v.process.cleared
            && Acceptable(env.text, ch.invoice.value, ch.order, ch.receipts, env.cfg)
            && (ch.vendor.Some? || !Truthy(ch.invoice.value.vendorName))
            && ch.report.value.exceptions == [] && ch.report.value in v.reports
            && Evaluate(env.text, ch.invoice.value, ch.order, ch.receipts, env.cfg).IsPostable()
            && ch.report.value.matchedAmount == Gross(ch.invoice.value)
            && Fingerprint(env.text, ch.invoice.value) in v.keys
            && (forall key :: key in v.keys ==> key == Fingerprint(env.text, ch.invoice.value))
            && forall a :: a in v.process.emitted ==> !AskedHuman(a)
  {
    hide RunInv, NodeReport, Acceptable, Fingerprint, AllExceptions, HeaderVariances, LineMatches, Q;
    ClearedMeans(env, run, v);
    var ch := v.process.ch;
    NodeVerdict(env.text, ch.invoice.value, ch.order, ch.receipts, env.cfg, ch.duplicateOf.Some?, ch.vendor);
    VerdictExact(env.text, ch.invoice.value, ch.order, ch.receipts, env.cfg);
    assert ch.order.Some? by { AcceptableHasOrder(env.text, ch.invoice.value, ch.order, ch.receipts, env.cfg); }
  }

  lemma ClearedMeans(env: Env, run: RunId, v: View)
    requires RunInv(env, run, v) && Cleared(v.process.ch)
    ensures var ch := v.process.ch;
            && ch.invoice.Some? && ch.report.value == ReportOf(env, ch) && ch.report.value in v.reports
            && (ch.duplicateOf.None? ==> v.process.cleared)
            && Fingerprint(env.text, ch.invoice.value) in v.keys
            && (forall key :: key in v.keys ==> key == Fingerprint(env.text, ch.invoice.value))
            && forall a :: a in v.process.emitted ==> !AskedHuman(a)
  {
    hide ReportOf, Fingerprint, RunEntry, Subsequence, Numbered, ApprovedBefore;
  }

  lemma AcceptableHasOrder(
    text: Text, invoice: Invoice, order: Option<PurchaseOrder>, receipts: seq<GoodsReceipt>, cfg: MatchingConfig)
    requires Acceptable(text, invoice, order, receipts, cfg)
    ensures order.Some? && invoice.Total() <= cfg.autoPostCeiling
    ensures ToleranceRegion(invoice.Total() - order.value.grossAmount, order.value.grossAmount,
                            cfg.totalToleranceAbs, cfg.totalTolerancePct)
    ensures order.value.goodsReceiptRequired ==> receipts != []
    ensures invoice.confidence >= cfg.minExtractionConfidence
  {
    hide ToleranceRegion, LinesAcceptable;
  }

  /** A document the ERP created for a run says what the run's invoice says. */
  lemma DocumentMeans(env: Env, run: RunId, v: View, d: Document)
    requires RunInv(env, run, v) && d in v.documents
    ensures var ch := v.process.ch;
            && ch.invoice.Some?
            && d.reference == ReferenceOf(ch.invoice.value, run)
            && d.total == Gross(ch.invoice.value) > 0.0
            && d.lines == EntryLines(NormalisedNet(ch.invoice.value), NormalisedTax(ch.invoice.value),
                                     Gross(ch.invoice.value), ch.order.Some?)
            && d.currency == OrElse(ch.invoice.value.currency, env.currency) && d.vendorId == ch.vendor
            && d.poNumber == (if ch.order.Some? then Some(ch.order.value.poNumber) else None)
            && NormalisedTax(ch.invoice.value) >= 0.0
            && BooksInvoice(d.lines, ch.invoice.value, ch.order.Some?) && Balances(ch.invoice.value)
  {
    hide Flow, Keyed, Reported, Rowed, Audited, Gross, NormalisedNet, NormalisedTax, EntryLines, ReferenceOf,
      BooksInvoice, Balances;
    var ch := v.process.ch;
    assert Fits(env, run, ch, d);
    EntryExactly(ch.invoice.value, ch.order, ch.vendor, run, env.currency);
    BalancedExactly(ch.invoice.value, ch.order, ch.vendor, run, env.currency);
    JournalExact(ch.invoice.value, ch.order, ch.vendor, run, env.currency);
  }

  lemma Warrant(env: Env, run: RunId, v: View, d: Document)
    requires RunInv(env, run, v) && d in v.documents
    ensures MayPost(v.process.ch)
    ensures v.process.ch.decision.None? ==> forall a :: a in v.process.emitted ==> !AskedHuman(a)
    ensures v.process.ch.decision.Some? ==> HumanDecision(true) in v.process.emitted
  {
    hide Flow, Keyed, Reported, Rowed, Fits, Subsequence, Numbered, ApprovedBefore;
  }

  /** Nothing is in the ERP for a run without a warrant: a clean report and nobody asked, or a stopped one and an
      approval among the run's events. */
  lemma NoDocumentWithoutWarrant(env: Env, events: seq<Event>, i: nat)
    requires ValidSeed(env.seed)
    requires i in Execute(env, events).owners
    ensures var w := Execute(env, events);
            var run := w.owners[i];
            && i < |w.ledger.archive| && run in w.procs
            && var p := w.procs[run];
               if p.ch.decision.None? then Cleared(p.ch) && forall a :: a in p.emitted ==> !AskedHuman(a)
               else Stopped(p.ch) && HumanDecision(true) in p.emitted
  {
    hide RunInv, Exclusive, OneJournalEach, Execute, ValidSeed, LedgerInv, EachCash, Trail, Keys, Reports, JournalsOf;
    var w := Execute(env, events);
    AlwaysValid(env, events);
    var run := w.owners[i];
    assert RunInv(env, run, ViewOf(w, run)) && w.ledger.archive[i] in ViewOf(w, run).documents;
    Warrant(env, run, ViewOf(w, run), w.ledger.archive[i]);
  }

  /** Created for a run on which no human has decided. */
  predicate Undecided(w: World, i: nat) {
    i in w.owners && i < |w.ledger.archive| && w.owners[i] in w.procs && w.procs[w.owners[i]].ch.decision.None?
  }

  /** What must be so whenever the ERP holds a document nobody decided on. */
  ghost predicate UnattendedFacts(env: Env, w: World, i: nat)
    requires Undecided(w, i)
  {
    var run := w.owners[i];
    var ch, d := w.procs[run].ch, w.ledger.archive[i];
    && (forall a :: a in w.procs[run].emitted ==> !AskedHuman(a))
    && ch.invoice.Some? && ch.order.Some? && ch.duplicateOf.None? && w.procs[run].cleared
    && InvoiceRow(run, Fingerprint(env.text, ch.invoice.value)) in w.tables.invoices
    && (ch.order.value.goodsReceiptRequired ==> ch.receipts != [])
    && (ch.vendor.Some? || !Truthy(ch.invoice.value.vendorName))
    && ch.report.Some? && ch.report.value.exceptions == [] && MatchRow(run, ch.report.value) in w.tables.matches
    && d.vendorId == ch.vendor && d.poNumber == Some(ch.order.value.poNumber)
    && d.total == Q(ch.invoice.value.Total()) == ch.report.value.matchedAmount
    && 0.0 < d.total <= Q(env.cfg.autoPostCeiling)
    && (InCents(env.cfg.autoPostCeiling) ==> d.total <= env.cfg.autoPostCeiling)
    && ch.invoice.value.confidence >= env.cfg.minExtractionConfidence
    && ToleranceRegion(ch.invoice.value.Total() - ch.order.value.grossAmount, ch.order.value.grossAmount,
                       env.cfg.totalToleranceAbs, env.cfg.totalTolerancePct)
  }

  lemma UndecidedView(env: Env, w: World, i: nat)
    requires Known(w) && Undecided(w, i) && RunInv(env, w.owners[i], ViewOf(w, w.owners[i]))
    ensures Cleared(w.procs[w.owners[i]].ch) && UnattendedFacts(env, w, i)
  {
    hide RunInv, Fingerprint, Acceptable, Evaluate, ToleranceRegion, Q, InCents, Trail, ReferenceOf, EntryLines,
      NormalisedNet, NormalisedTax;
    var run := w.owners[i];
    var v, ch, d := ViewOf(w, run), w.procs[run].ch, w.ledger.archive[i];
    assert d in v.documents;
    Warrant(env, run, v, d);
    ClearedReport(env, run, v);
    DocumentMeans(env, run, v, d);
    AcceptableHasOrder(env.text, ch.invoice.value, ch.order, ch.receipts, env.cfg);
    QMonotone(ch.invoice.value.Total(), env.cfg.autoPostCeiling);
    if InCents(env.cfg.autoPostCeiling) {
      QOfCents(env.cfg.autoPostCeiling);
    }
    assert MatchRow(run, ch.report.value) in w.tables.matches;
    assert InvoiceRow(run, Fingerprint(env.text, ch.invoice.value)) in w.tables.invoices;
  }

  /** Money moved without a human, whatever became of the reply, the rows and the flag: matched on an order without
      exceptions, unduplicated, its vendor known, the amount in the ERP the amount matched, positive, at most the
      ceiling and within tolerance of the order. */
  lemma UnattendedDocument(env: Env, events: seq<Event>, i: nat)
    requires ValidSeed(env.seed) && Undecided(Execute(env, events), i)
    ensures UnattendedFacts(env, Execute(env, events), i)
  {
    hide RunInv, Execute, ValidSeed, UnattendedFacts;
    RunValid(env, events, Execute(env, events).owners[i]);
    UndecidedView(env, Execute(env, events), i);
  }

  /** Two documents nobody decided on belong to one run or to different keys, over all seeds. */
  lemma OneUnattendedPerKey(env: Env, events: seq<Event>, i: nat, j: nat)
    requires ValidSeed(env.seed) && Undecided(Execute(env, events), i) && Undecided(Execute(env, events), j)
    requires var w := Execute(env, events);
             var a, b := w.procs[w.owners[i]].ch.invoice, w.procs[w.owners[j]].ch.invoice;
             a.Some? && b.Some? && Fingerprint(env.text, a.value) == Fingerprint(env.text, b.value)
    ensures Execute(env, events).owners[i] == Execute(env, events).owners[j]
  {
    hide Fingerprint, Execute, ValidSeed, ToleranceRegion, Q, InCents;
    UnattendedDocument(env, events, i);
    UnattendedDocument(env, events, j);
    var w := Execute(env, events);
    OneClearedPerKey(env, events, w.owners[i], w.owners[j]);
  }

  lemma PostedDocument(env: Env, run: RunId, v: View, row: JournalRow) returns (d: Document)
    requires RunInv(env, run, v) && row in v.journals && row.posted
    ensures d in v.documents && Mirrors(row, d)
  {
    hide Flow, Keyed, Reported, Rowed, Audited, Fits;
    d :| d in v.documents && Mirrors(row, d);
  }

  /** What the flag on a payable run's row says about the run. */
  lemma FlaggedMeans(env: Env, run: RunId, v: View)
    requires RunInv(env, run, v) && v.row.straightThrough
    ensures v.row.status == Completed && v.process.ch.decision.None? && Cleared(v.process.ch)
    ensures JournalPosted(true) in v.process.emitted
    ensures exists row :: row in v.journals && row.posted
  {
    hide ReportOf, Fingerprint, RunEntry, Subsequence, Numbered, ApprovedBefore;
  }

  /** A payable row that says straight through: completed, its journal recorded as posted, mirroring a document that
      nobody decided on. */
  lemma UnattendedPosting(env: Env, events: seq<Event>, run: RunId) returns (row: JournalRow, i: nat)
    requires ValidSeed(env.seed)
    requires run in Execute(env, events).procs
    requires run in Execute(env, events).tables.runs && Execute(env, events).tables.runs[run].straightThrough
    ensures var w := Execute(env, events);
            && w.tables.runs[run].status == Completed
            && row in w.tables.journals && row.run == run && row.posted
            && Undecided(w, i) && w.owners[i] == run && Mirrors(row, w.ledger.archive[i])
            && UnattendedFacts(env, w, i)
  {
    hide RunInv, Execute, ValidSeed, UnattendedFacts, Trail, Keys, Reports;
    var w := Execute(env, events);
    RunValid(env, events, run);
    var v := ViewOf(w, run);
    FlaggedMeans(env, run, v);
    row :| row in v.journals && row.posted;
    var d := PostedDocument(env, run, v, row);
    i :| i in w.owners && w.owners[i] == run && i < |w.ledger.archive| && w.ledger.archive[i] == d;
    UndecidedView(env, w, i);
  }

  /** With the shipped tolerances, what is billed unattended is bounded by what was ordered. */
  lemma UnattendedLeakage(env: Env, events: seq<Event>, i: nat)
    requires ValidSeed(env.seed) && Undecided(Execute(env, events), i)
    requires env.cfg.priceTolerancePct == DEFAULT_CONFIG.priceTolerancePct
    requires env.cfg.priceToleranceAbs == DEFAULT_CONFIG.priceToleranceAbs
    requires env.cfg.quantityTolerancePct == DEFAULT_CONFIG.quantityTolerancePct
    requires env.cfg.quantityToleranceAbs == DEFAULT_CONFIG.quantityToleranceAbs
    ensures var w := Execute(env, events);
            var ch := w.procs[w.owners[i]].ch;
            && ch.invoice.Some? && ch.order.Some?
            && (NonNegativeOrder(ch.order.value) ==>
                  var lines := ch.invoice.value.lineItems;
                  && Sum(Billed(lines))
                      <= 1.02005 * 1.00005 * Sum(Ordered(ch.order.value.lines)) + 5.005 * |lines| as real
                  && |lines| <= |ch.order.value.lines|)
  {
    hide RunInv, Fingerprint, Execute, ValidSeed, Acceptable, Evaluate, Trail, Keys, UnattendedFacts;
    var w := Execute(env, events);
    var run := w.owners[i];
    RunValid(env, events, run);
    UndecidedView(env, w, i);
    var ch := w.procs[run].ch;
    ClearedReport(env, run, ViewOf(w, run));
    AcceptableHasOrder(env.text, ch.invoice.value, ch.order, ch.receipts, env.cfg);
    if NonNegativeOrder(ch.order.value) {
      DefaultLeakageBound(env.text, ch.invoice.value, ch.order.value, ch.receipts, env.cfg);
    }
  }

  // Payments in the ERP

  /** Same vendor and same printed number, so the same payment. */
  predicate SamePayment(a: Invoice, b: Invoice) {
    && OrElse(a.vendorName, "VENDOR") == OrElse(b.vendorName, "VENDOR")
    && Truthy(a.invoiceNumber) && a.invoiceNumber == b.invoiceNumber
  }

  lemma ReferencesDiffer(l: Ledger, i: nat, j: nat)
    requires DocumentsInv(l) && |l.archive| - |l.journals| <= i < j < |l.archive|
    ensures l.archive[i].reference != l.archive[j].reference
  {
    hide BalancedDocument, DocumentNumber;
    var base := |l.archive| - |l.journals|;
    assert l.journals[i - base] == l.archive[i] && l.journals[j - base] == l.archive[j];
  }

  /** The document at a position belongs to the seed the ERP holds now. */
  predicate Current(w: World, i: nat) {
    |w.ledger.archive| - |w.ledger.journals| <= i < |w.ledger.archive|
  }

  /** Within one seed, the ERP never holds two documents asked for by one run, nor by two runs for the same
      payment, in spite of retries, lost replies, redrives and approvals. */
  lemma ErpNeverHoldsTwo(env: Env, events: seq<Event>, i: nat, j: nat)
    requires ValidSeed(env.seed)
    requires var w := Execute(env, events);
             i < j && Current(w, i) && Current(w, j) && i in w.owners && j in w.owners
    ensures var w := Execute(env, events);
            && w.owners[i] != w.owners[j]
            && w.owners[i] in w.procs && w.owners[j] in w.procs
            && var a, b := w.procs[w.owners[i]].ch.invoice, w.procs[w.owners[j]].ch.invoice;
               a.Some? && b.Some? && !SamePayment(a.value, b.value)
  {
    hide RunInv, Exclusive, OneJournalEach, EachCash, Execute, ValidSeed, DocumentsInv, Trail, Keys, Reports,
      JournalsOf, OrdersInv, ReceivablesInv, Truncate, Gross, EntryLines, NormalisedNet, NormalisedTax;
    var w := Execute(env, events);
    AlwaysValid(env, events);
    var r, s := w.owners[i], w.owners[j];
    assert RunInv(env, r, ViewOf(w, r)) && RunInv(env, s, ViewOf(w, s));
    DocumentMeans(env, r, ViewOf(w, r), w.ledger.archive[i]);
    DocumentMeans(env, s, ViewOf(w, s), w.ledger.archive[j]);
    ReferencesDiffer(w.ledger, i, j);
  }

  /** Every journal recorded as posted exists in the ERP, with the same number, reference and total. */
  lemma PostedRowsHaveDocuments(env: Env, events: seq<Event>, row: JournalRow) returns (i: nat)
    requires ValidSeed(env.seed)
    requires row in Execute(env, events).tables.journals && row.posted
    ensures var w := Execute(env, events);
            i in w.owners && w.owners[i] == row.run && i < |w.ledger.archive| && Mirrors(row, w.ledger.archive[i])
  {
    hide RunInv, Execute, ValidSeed, Trail, Keys, Reports;
    var w := Execute(env, events);
    AllKnown(env, events);
    RunValid(env, events, row.run);
    var v := ViewOf(w, row.run);
    assert row in v.journals;
    var d := PostedDocument(env, row.run, v, row);
    i :| i in w.owners && w.owners[i] == row.run && i < |w.ledger.archive| && w.ledger.archive[i] == d;
  }

  predicate NeverReseeded(events: seq<Event>) {
    forall k :: 0 <= k < |events| ==> events[k] != External(ReseedOp)
  }

  /** Until it is reseeded, the ERP still holds every document it ever created. */
  lemma {:induction false} HoldsAll(env: Env, events: seq<Event>)
    requires NeverReseeded(events)
    ensures var l := Execute(env, events).ledger;
            l.journals == l.archive
  {
    hide Step, Init;
    if events == [] {
      InitHoldsAll(env);
    } else {
      var before := events[..|events| - 1];
      HoldsAll(env, before);
      StepHoldsAll(env, Execute(env, before), events[|events| - 1]);
    }
  }

  lemma InitHoldsAll(env: Env)
    ensures Init(env).ledger.journals == Init(env).ledger.archive
  {
  }

  lemma PostHoldsAll(l: Ledger, entry: JournalEntry)
    requires l.journals == l.archive
    ensures Post(l, entry).0.journals == Post(l, entry).0.archive
  {
  }

  lemma CashHoldsAll(l: Ledger, id: string, amount: real)
    requires l.journals == l.archive
    ensures ApplyCash(l, id, amount).0.journals == ApplyCash(l, id, amount).0.archive
  {
  }

  lemma AttemptHoldsAll(l: Ledger, call: Call, delivery: Delivery, last: bool)
    requires l.journals == l.archive
    ensures var after := Attempt(l, call, delivery, last).0;
            after.journals == after.archive
  {
    hide Post, ApplyCash;
    match call {
      case PostCall(entry) => PostHoldsAll(l, entry);
      case CashCall(id, amount) => CashHoldsAll(l, id, amount);
    }
  }

  lemma StepHoldsAll(env: Env, w: World, e: Event)
    requires w.ledger.journals == w.ledger.archive && e != External(ReseedOp)
    ensures Step(env, w, e).ledger.journals == Step(env, w, e).ledger.archive
  {
    hide Post, ApplyCash, Attempt, Reseed, Move, CashMove, StartStep, StartCashStep, PaidPc;
    OnlyPostingPosts(env, w, e);
    if Enabled(w, e) {
      if e.Send? {
        var pc := w.procs[e.run].pc;
        AttemptHoldsAll(w.ledger, PostCall(pc.entry), e.delivery, pc.attempt == MAX_ATTEMPTS - 1);
      } else if e.Pay? {
        var pc := w.cash[e.run].pc;
        AttemptHoldsAll(w.ledger, CashCall(pc.left[0].item.id, pc.left[0].amount), e.delivery,
                        pc.attempt == MAX_ATTEMPTS - 1);
      } else if e.External? {
        match e.op {
          case PostOp(entry) => PostHoldsAll(w.ledger, entry);
          case CashOp(id, amount) => CashHoldsAll(w.ledger, id, amount);
          case ReseedOp => assert false;
        }
      }
    }
  }
}
