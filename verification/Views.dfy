/** Everything the tables, the ERP and the checkpoint hold about one run, and what each effect does to it. */
module Views {
  import opened Prelude
  import opened MockErp
  import opened Matching
  import opened Repository
  import opened Workflow

  datatype View = View(
    process: Process, row: RunRow, keys: set<string>, reports: set<MatchReport>, journals: set<JournalRow>,
    trail: seq<AuditRow>, documents: set<Document>)

  ghost function Keys(invoices: seq<InvoiceRow>, run: RunId): set<string> {
    set row | row in invoices && row.run == run :: row.fingerprint
  }

  ghost function Reports(matches: seq<MatchRow>, run: RunId): set<MatchReport> {
    set row | row in matches && row.run == run :: row.report
  }

  ghost function JournalsOf(journals: seq<JournalRow>, run: RunId): set<JournalRow> {
    set row | row in journals && row.run == run
  }

  /** The documents the ERP created at the request of a run. */
  ghost function DocumentsOf(archive: seq<Document>, owners: map<nat, RunId>, run: RunId): set<Document> {
    set i | i in owners && owners[i] == run && i < |archive| :: archive[i]
  }

  ghost function ViewOf(w: World, run: RunId): View
    requires run in w.procs && run in w.tables.runs
  {
    View(w.procs[run], w.tables.runs[run], Keys(w.tables.invoices, run), Reports(w.tables.matches, run),
         JournalsOf(w.tables.journals, run), Trail(w.tables.audit, run),
         DocumentsOf(w.ledger.archive, w.owners, run))
  }

  /** The same for a receivable run. */
  datatype CashView = CashView(
    process: CashProcess, row: RunRow, trail: seq<AuditRow>, remittances: set<RemittanceRow>, made: seq<Application>)

  ghost function RemittancesOf(remittances: seq<RemittanceRow>, run: RunId): set<RemittanceRow> {
    set row | row in remittances && row.run == run
  }

  /** The applications the ERP made at the request of a run, in order. */
  ghost function MadeBy(cashbook: seq<Application>, payers: map<nat, RunId>, run: RunId): seq<Application> {
    if cashbook == [] then []
    else
      var n := |cashbook| - 1;
      MadeBy(cashbook[..n], payers, run) + (if n in payers && payers[n] == run then [cashbook[n]] else [])
  }

  ghost function CashViewOf(w: World, run: RunId): CashView
    requires run in w.cash && run in w.tables.runs
  {
    CashView(w.cash[run], w.tables.runs[run], Trail(w.tables.audit, run), RemittancesOf(w.tables.remittances, run),
             MadeBy(w.ledger.cashbook, w.payers, run))
  }

  /** Every row belongs to a run that was started, payable or receivable but not both. */
  ghost predicate Known(w: World) {
    && w.procs.Keys + w.cash.Keys == w.tables.runs.Keys && w.procs.Keys !! w.cash.Keys
    && (forall row :: row in w.tables.invoices ==> row.run in w.procs)
    && (forall row :: row in w.tables.matches ==> row.run in w.procs)
    && (forall row :: row in w.tables.journals ==> row.run in w.procs)
    && (forall row :: row in w.tables.remittances ==> row.run in w.cash)
    && (forall row :: row in w.tables.audit ==> row.run in w.tables.runs)
    && (forall i :: i in w.owners ==> i < |w.ledger.archive| && w.owners[i] in w.procs)
    && (forall i :: i in w.payers ==> i < |w.ledger.cashbook| && w.payers[i] in w.cash)
  }

  /** Only one run's view may have changed. */
  ghost predicate Only(w: World, after: World, run: RunId) {
    && Known(w) && Known(after) && after.procs.Keys == w.procs.Keys && run in w.procs
    && (forall r :: r in w.procs && r != run ==> ViewOf(after, r) == ViewOf(w, r))
    && SameCash(w, after)
  }

  /** No receivable run's view has changed. */
  ghost predicate SameCash(w: World, after: World)
    requires Known(w) && Known(after)
  {
    after.cash.Keys == w.cash.Keys && forall c :: c in w.cash ==> CashViewOf(after, c) == CashViewOf(w, c)
  }

  /** No payable run's view has changed. */
  ghost predicate SamePayables(w: World, after: World)
    requires Known(w) && Known(after)
  {
    after.procs.Keys == w.procs.Keys && forall r :: r in w.procs ==> ViewOf(after, r) == ViewOf(w, r)
  }

  // The effects, on a view

  function StatusRow(row: RunRow, status: RunStatus, straightThrough: Option<bool>): RunRow {
    RunRow(row.kind, status, if straightThrough.Some? then straightThrough.value else row.straightThrough)
  }

  function Statused(v: View, status: RunStatus, straightThrough: Option<bool>, lands: bool): View {
    if lands
    then v.(row := StatusRow(v.row, status, straightThrough))
    else v
  }

  function Logged(v: View, run: RunId, action: Action, lands: bool): View {
    v.(process := v.process.(emitted := v.process.emitted + [action]),
       trail := if lands then v.trail + [AuditRow(run, |v.trail| + 1, action)] else v.trail)
  }

  function Left(v: View, node: Node, ch: Channel, next: Pc, io: Io): View {
    v.(process :=
         if io.survives then v.process.(ch := ch, pc := next, completed := v.process.completed + 1)
         else v.process.(pc := Crashed(node)))
  }

  /** Since w0 only one run moved, and this is its view now. */
  ghost predicate Changed(w0: World, w: World, run: RunId, v: View) {
    Only(w0, w, run) && ViewOf(w, run) == v && Numbered(v.trail)
  }

  ghost predicate Now(w0: World, w: World, run: RunId, v: View) {
    run in w.procs && w.procs[run] == v.process && Changed(w0, w, run, v)
  }

  lemma NowStart(w: World, run: RunId)
    requires Known(w) && run in w.procs && Numbered(Trail(w.tables.audit, run))
    ensures Now(w, w, run, ViewOf(w, run))
  {
  }

  lemma Compose(w0: World, w: World, run: RunId, v: View, after: World, next: View)
    requires Now(w0, w, run, v)
    requires Only(w, after, run) && ViewOf(after, run) == next && Numbered(next.trail)
    ensures Now(w0, after, run, next)
  {
    forall r | r in w0.procs && r != run
      ensures ViewOf(after, r) == ViewOf(w0, r)
    {
      assert ViewOf(w, r) == ViewOf(w0, r);
    }
    forall c | c in w0.cash
      ensures CashViewOf(after, c) == CashViewOf(w0, c)
    {
      assert CashViewOf(w, c) == CashViewOf(w0, c);
    }
  }

  /** A change to runs' rows and processes alone. */
  ghost predicate RowsOnly(w: World, after: World) {
    && after.procs.Keys == w.procs.Keys && after.cash.Keys == w.cash.Keys
    && after.tables.runs.Keys == w.tables.runs.Keys
    && after.tables == w.tables.(runs := after.tables.runs, cases := after.tables.cases)
    && after.ledger == w.ledger && after.owners == w.owners && after.payers == w.payers
  }

  lemma KnownStays(w: World, after: World)
    requires Known(w) && RowsOnly(w, after)
    ensures Known(after)
  {
  }

  lemma PayablesStay(w: World, after: World)
    requires Known(w) && RowsOnly(w, after) && Known(after)
    requires forall r :: r in w.procs ==> after.procs[r] == w.procs[r] && after.tables.runs[r] == w.tables.runs[r]
    ensures SamePayables(w, after)
  {
    hide Keys, Reports, JournalsOf, DocumentsOf, Trail;
  }

  lemma CashStays(w: World, after: World)
    requires Known(w) && RowsOnly(w, after) && Known(after)
    requires forall c :: c in w.cash ==> after.cash[c] == w.cash[c] && after.tables.runs[c] == w.tables.runs[c]
    ensures SameCash(w, after)
  {
    hide RemittancesOf, MadeBy, Trail;
  }

  /** More rows about known runs, and nothing else. */
  lemma RowsKnown(w: World, after: World)
    requires Known(w)
    requires after.tables == w.tables.(invoices := after.tables.invoices, matches := after.tables.matches,
                                       journals := after.tables.journals, remittances := after.tables.remittances)
    requires after == w.(tables := after.tables)
    requires forall row :: row in after.tables.invoices ==> row in w.tables.invoices || row.run in w.procs
    requires forall row :: row in after.tables.matches ==> row in w.tables.matches || row.run in w.procs
    requires forall row :: row in after.tables.journals ==> row in w.tables.journals || row.run in w.procs
    requires forall row :: row in after.tables.remittances ==> row in w.tables.remittances || row.run in w.cash
    ensures Known(after)
  {
  }

  /** Rows about payable runs alone. */
  lemma CashUntouched(w: World, after: World)
    requires Known(w) && Known(after) && after.cash == w.cash && after.ledger == w.ledger && after.payers == w.payers
    requires after.tables.runs == w.tables.runs && after.tables.audit == w.tables.audit
    requires after.tables.remittances == w.tables.remittances
    ensures SameCash(w, after)
  {
    hide RemittancesOf, MadeBy, Trail;
  }

  lemma StatusTables(t: Tables, run: RunId, status: RunStatus, straightThrough: Option<bool>)
    requires run in t.runs
    ensures UpdateRun(t, run, status, straightThrough)
         == t.(runs := t.runs[run := StatusRow(t.runs[run], status, straightThrough)])
  {
  }

  lemma RowEffect(w0: World, w: World, run: RunId, v: View, p: Process, row: RunRow)
    requires Now(w0, w, run, v)
    ensures Now(w0, w.(procs := w.procs[run := p], tables := w.tables.(runs := w.tables.runs[run := row])), run,
                v.(process := p, row := row))
  {
    hide Keys, Reports, JournalsOf, DocumentsOf, RemittancesOf, MadeBy, Trail, Numbered, SameCash;
    var after := w.(procs := w.procs[run := p], tables := w.tables.(runs := w.tables.runs[run := row]));
    KnownStays(w, after);
    CashStays(w, after);
    Compose(w0, w, run, v, after, v.(process := p, row := row));
  }

  lemma StatusEffect(
    w0: World, w: World, run: RunId, v: View, status: RunStatus, straightThrough: Option<bool>, lands: bool)
    requires Now(w0, w, run, v)
    ensures Now(w0, SetStatus(w, run, status, straightThrough, lands), run, Statused(v, status, straightThrough, lands))
  {
    hide Changed, Only, Numbered, UpdateRun, StatusRow;
    if lands {
      RowOf(w0, w, run, v);
      StatusTables(w.tables, run, status, straightThrough);
      RowEffect(w0, w, run, v, v.process, StatusRow(v.row, status, straightThrough));
      assert w.procs[run := v.process] == w.procs;
    }
  }

  lemma RowOf(w0: World, w: World, run: RunId, v: View)
    requires Now(w0, w, run, v)
    ensures run in w.tables.runs && w.tables.runs[run] == v.row
  {
  }

  lemma ProcessEffect(w0: World, w: World, run: RunId, v: View, p: Process)
    requires Now(w0, w, run, v)
    ensures Now(w0, w.(procs := w.procs[run := p]), run, v.(process := p))
  {
    hide Changed;
    RowOf(w0, w, run, v);
    RowEffect(w0, w, run, v, p, v.row);
    assert w.tables.runs[run := v.row] == w.tables.runs;
  }

  lemma AppendEffect(t: Tables, run: RunId, action: Action, r: RunId)
    requires Numbered(Trail(t.audit, run))
    ensures var after := AppendAudit(t, run, action);
            && after == t.(audit := after.audit)
            && (forall row :: row in after.audit ==> row in t.audit || row.run == run)
            && Numbered(Trail(after.audit, run))
            && Trail(after.audit, r)
            == if r == run then Trail(t.audit, r) + [AuditRow(run, |Trail(t.audit, r)| + 1, action)]
                else Trail(t.audit, r)
  {
    hide MaxSequence, Trail, Numbered;
    AppendNumbers(t, run, action, r);
  }

  lemma AuditEffect(w0: World, w: World, run: RunId, v: View, action: Action)
    requires Now(w0, w, run, v)
    ensures Now(w0, w.(tables := AppendAudit(w.tables, run, action)), run,
                v.(trail := v.trail + [AuditRow(run, |v.trail| + 1, action)]))
  {
    hide MaxSequence, Trail, Numbered, AppendAudit, Keys, Reports, JournalsOf, DocumentsOf, RemittancesOf, MadeBy;
    AppendEffect(w.tables, run, action, run);
    forall r | r != run
      ensures Trail(AppendAudit(w.tables, run, action).audit, r) == Trail(w.tables.audit, r)
    {
      AppendEffect(w.tables, run, action, r);
    }
    Compose(w0, w, run, v, w.(tables := AppendAudit(w.tables, run, action)),
            v.(trail := v.trail + [AuditRow(run, |v.trail| + 1, action)]));
  }

  lemma LogEffect(w0: World, w: World, run: RunId, v: View, action: Action, lands: bool)
    requires Now(w0, w, run, v)
    ensures Now(w0, Log(w, run, action, lands), run, Logged(v, run, action, lands))
  {
    hide AppendAudit, Changed;
    var p := v.process.(emitted := v.process.emitted + [action]);
    if lands {
      AuditEffect(w0, w, run, v, action);
      ProcessEffect(w0, w.(tables := AppendAudit(w.tables, run, action)), run,
                    v.(trail := v.trail + [AuditRow(run, |v.trail| + 1, action)]), p);
    } else {
      ProcessEffect(w0, w, run, v, p);
    }
  }

  lemma LeaveEffect(w0: World, w: World, run: RunId, v: View, node: Node, ch: Channel, next: Pc, io: Io)
    requires Now(w0, w, run, v)
    ensures Now(w0, Leave(w, run, node, ch, next, io), run, Left(v, node, ch, next, io))
  {
    hide Changed;
    ProcessEffect(w0, w, run, v, Left(v, node, ch, next, io).process);
  }

  lemma ClearEffect(w0: World, w: World, run: RunId, v: View, cleared: bool)
    requires Now(w0, w, run, v)
    ensures Now(w0, Clear(w, run, cleared), run, v.(process := v.process.(cleared := cleared)))
  {
    hide Changed;
    ProcessEffect(w0, w, run, v, v.process.(cleared := cleared));
  }

  lemma MoveEffect(w0: World, w: World, run: RunId, v: View, pc: Pc)
    requires Now(w0, w, run, v)
    ensures Now(w0, Move(w, run, pc), run, v.(process := v.process.(pc := pc)))
  {
    hide Changed;
    ProcessEffect(w0, w, run, v, v.process.(pc := pc));
  }

  lemma AddInvoiceEffect(w0: World, w: World, run: RunId, v: View, key: string)
    requires Now(w0, w, run, v)
    ensures Now(w0, AddInvoice(w, InvoiceRow(run, key)), run, v.(keys := v.keys + {key}))
  {
    hide Reports, JournalsOf, DocumentsOf, RemittancesOf, MadeBy, Trail, Numbered, SameCash;
    var row := InvoiceRow(run, key);
    var more := w.tables.invoices + [row];
    assert row in more;
    assert forall r :: r in w.tables.invoices ==> r in more;
    assert Keys(more, run) == Keys(w.tables.invoices, run) + {key};
    forall r | r in w.procs && r != run
      ensures Keys(more, r) == Keys(w.tables.invoices, r)
    {
    }
    RowsKnown(w, AddInvoice(w, row));
    CashUntouched(w, AddInvoice(w, row));
    Compose(w0, w, run, v, AddInvoice(w, row), v.(keys := v.keys + {key}));
  }

  lemma AddMatchEffect(w0: World, w: World, run: RunId, v: View, report: MatchReport)
    requires Now(w0, w, run, v)
    ensures Now(w0, AddMatch(w, MatchRow(run, report)), run, v.(reports := v.reports + {report}))
  {
    hide Keys, JournalsOf, DocumentsOf, RemittancesOf, MadeBy, Trail, Numbered, SameCash;
    var row := MatchRow(run, report);
    var more := w.tables.matches + [row];
    assert row in more;
    assert forall r :: r in w.tables.matches ==> r in more;
    assert Reports(more, run) == Reports(w.tables.matches, run) + {report};
    forall r | r in w.procs && r != run
      ensures Reports(more, r) == Reports(w.tables.matches, r)
    {
    }
    RowsKnown(w, AddMatch(w, row));
    CashUntouched(w, AddMatch(w, row));
    Compose(w0, w, run, v, AddMatch(w, row), v.(reports := v.reports + {report}));
  }

  lemma AddCaseEffect(w0: World, w: World, run: RunId, v: View, row: CaseRow)
    requires Now(w0, w, run, v)
    ensures Now(w0, AddCase(w, row), run, v)
  {
    hide Keys, Reports, JournalsOf, DocumentsOf, RemittancesOf, MadeBy, Trail, Numbered;
    Compose(w0, w, run, v, AddCase(w, row), v);
  }

  lemma CloseCaseEffect(w0: World, w: World, run: RunId, v: View, i: nat, status: CaseStatus)
    requires Now(w0, w, run, v)
    ensures Now(w0, CloseCase(w, i, status), run, v)
  {
    hide Keys, Reports, JournalsOf, DocumentsOf, RemittancesOf, MadeBy, Trail, Numbered;
    Compose(w0, w, run, v, CloseCase(w, i, status), v);
  }

  lemma AddJournalEffect(w0: World, w: World, run: RunId, v: View, row: JournalRow)
    requires Now(w0, w, run, v) && row.run == run
    ensures Now(w0, AddJournal(w, row), run, v.(journals := v.journals + {row}))
  {
    hide Keys, Reports, DocumentsOf, RemittancesOf, MadeBy, Trail, Numbered, SameCash;
    var more := w.tables.journals + [row];
    assert row in more;
    assert forall r :: r in w.tables.journals ==> r in more;
    assert JournalsOf(more, run) == JournalsOf(w.tables.journals, run) + {row};
    forall r | r in w.procs && r != run
      ensures JournalsOf(more, r) == JournalsOf(w.tables.journals, r)
    {
    }
    RowsKnown(w, AddJournal(w, row));
    CashUntouched(w, AddJournal(w, row));
    Compose(w0, w, run, v, AddJournal(w, row), v.(journals := v.journals + {row}));
  }

  lemma {:induction false} MadeByOthers(
    cashbook: seq<Application>, more: seq<Application>, payers: map<nat, RunId>, run: RunId)
    requires cashbook <= more && forall i :: i in payers ==> i < |cashbook|
    ensures MadeBy(more, payers, run) == MadeBy(cashbook, payers, run)
    decreases |more|
  {
    if |more| == |cashbook| {
      assert more == cashbook;
    } else {
      MadeByOthers(cashbook, more[..|more| - 1], payers, run);
    }
  }

  lemma {:induction false} SamePayers(
    cashbook: seq<Application>, payers: map<nat, RunId>, more: map<nat, RunId>, run: RunId)
    requires forall i :: 0 <= i < |cashbook| ==> (i in more <==> i in payers) && (i in more ==> more[i] == payers[i])
    ensures MadeBy(cashbook, more, run) == MadeBy(cashbook, payers, run)
  {
    if cashbook != [] {
      SamePayers(cashbook[..|cashbook| - 1], payers, more, run);
    }
  }

  lemma MadeGrows(cashbook: seq<Application>, payers: map<nat, RunId>, run: RunId, made: Application, r: RunId)
    ensures MadeBy(cashbook + [made], payers[|cashbook| := run], r)
         == MadeBy(cashbook, payers, r) + (if r == run then [made] else [])
  {
    assert (cashbook + [made])[..|cashbook|] == cashbook;
    SamePayers(cashbook, payers, payers[|cashbook| := run], r);
  }

  /** The ERP moved on without creating a document or making an application for any run. */
  lemma LedgerEffect(w: World, after: Ledger)
    requires Known(w) && w.ledger.archive <= after.archive && w.ledger.cashbook <= after.cashbook
    ensures var next := w.(ledger := after);
            && Known(next)
            && SamePayables(w, next)
            && SameCash(w, next)
  {
    hide RemittancesOf, MadeBy, Trail, Keys, Reports, JournalsOf, MadeBy;
    forall r | r in w.procs
      ensures DocumentsOf(after.archive, w.owners, r) == DocumentsOf(w.ledger.archive, w.owners, r)
    {
    }
    forall c | c in w.cash
      ensures MadeBy(after.cashbook, w.payers, c) == MadeBy(w.ledger.cashbook, w.payers, c)
    {
      MadeByOthers(w.ledger.cashbook, after.cashbook, w.payers, c);
    }
  }

  lemma DocumentsGrow(archive: seq<Document>, owners: map<nat, RunId>, run: RunId, document: Document, r: RunId)
    requires forall i :: i in owners ==> i < |archive|
    ensures DocumentsOf(archive + [document], owners[|archive| := run], r)
         == DocumentsOf(archive, owners, r) + (if r == run then {document} else {})
  {
    var n := |archive|;
    var after, more := owners[n := run], archive + [document];
    assert after[n] == run && more[n] == document;
    assert forall i :: i in owners ==> i in after && after[i] == owners[i] && more[i] == archive[i];
  }

  /** The ERP created one document, at the request of a run. */
  lemma BookEffect(w: World, run: RunId, after: Ledger, document: Document)
    requires Known(w) && run in w.procs && after.archive == w.ledger.archive + [document]
    requires after.cashbook == w.ledger.cashbook
    ensures var next := w.(ledger := after, owners := w.owners[|w.ledger.archive| := run]);
            && Only(w, next, run)
            && ViewOf(next, run) == ViewOf(w, run).(documents := ViewOf(w, run).documents + {document})
  {
    hide DocumentsOf, RemittancesOf, MadeBy, Trail, Keys, Reports, JournalsOf;
    forall r | r in w.procs
      ensures DocumentsOf(w.ledger.archive + [document], w.owners[|w.ledger.archive| := run], r)
           == DocumentsOf(w.ledger.archive, w.owners, r) + (if r == run then {document} else {})
    {
      DocumentsGrow(w.ledger.archive, w.owners, run, document, r);
    }
  }
}
