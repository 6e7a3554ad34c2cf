/** What each effect of a receivable run does to its view, and that it leaves every other run's alone. */
module CashViews {
  import opened Prelude
  import opened MockErp
  import opened Repository
  import opened Workflow
  import opened Views

  /** Only one receivable run's view may have changed. */
  ghost predicate CashOnly(w: World, after: World, run: RunId) {
    && Known(w) && Known(after) && SamePayables(w, after)
    && after.cash.Keys == w.cash.Keys && run in w.cash
    && forall c :: c in w.cash && c != run ==> CashViewOf(after, c) == CashViewOf(w, c)
  }

  ghost predicate CashChanged(w0: World, w: World, run: RunId, v: CashView) {
    CashOnly(w0, w, run) && CashViewOf(w, run) == v && Numbered(v.trail)
  }

  ghost predicate CashNow(w0: World, w: World, run: RunId, v: CashView) {
    run in w.cash && w.cash[run] == v.process && CashChanged(w0, w, run, v)
  }

  // The effects, on a view

  function CashStatused(v: CashView, status: RunStatus, straightThrough: Option<bool>, lands: bool): CashView {
    if lands then v.(row := StatusRow(v.row, status, straightThrough)) else v
  }

  function CashLogged(v: CashView, run: RunId, action: Action, lands: bool): CashView {
    v.(process := v.process.(emitted := v.process.emitted + [action]),
       trail := if lands then v.trail + [AuditRow(run, |v.trail| + 1, action)] else v.trail)
  }

  function CashLeft(v: CashView, node: CashNode, ch: CashChannel, next: CashPc, io: Io): CashView {
    v.(process := if io.survives then v.process.(ch := ch, pc := next) else v.process.(pc := CashCrashed(node)))
  }

  lemma CashNowStart(w: World, run: RunId)
    requires Known(w) && run in w.cash && Numbered(Trail(w.tables.audit, run))
    ensures CashNow(w, w, run, CashViewOf(w, run))
  {
  }

  lemma CashCompose(w0: World, w: World, run: RunId, v: CashView, after: World, next: CashView)
    requires CashNow(w0, w, run, v)
    requires CashOnly(w, after, run) && CashViewOf(after, run) == next && Numbered(next.trail)
    ensures CashNow(w0, after, run, next)
  {
    forall c | c in w0.cash && c != run
      ensures CashViewOf(after, c) == CashViewOf(w0, c)
    {
      assert CashViewOf(w, c) == CashViewOf(w0, c);
    }
    forall r | r in w0.procs
      ensures ViewOf(after, r) == ViewOf(w0, r)
    {
      assert ViewOf(w, r) == ViewOf(w0, r);
    }
  }

  lemma CashRowEffect(w0: World, w: World, run: RunId, v: CashView, p: CashProcess, row: RunRow)
    requires CashNow(w0, w, run, v)
    ensures CashNow(w0, w.(cash := w.cash[run := p], tables := w.tables.(runs := w.tables.runs[run := row])), run,
                    v.(process := p, row := row))
  {
    hide RemittancesOf, MadeBy, Trail, Numbered, ViewOf, SamePayables;
    var after := w.(cash := w.cash[run := p], tables := w.tables.(runs := w.tables.runs[run := row]));
    KnownStays(w, after);
    PayablesStay(w, after);
    CashCompose(w0, w, run, v, after, v.(process := p, row := row));
  }

  lemma CashStatusEffect(
    w0: World, w: World, run: RunId, v: CashView, status: RunStatus, straightThrough: Option<bool>, lands: bool)
    requires CashNow(w0, w, run, v)
    ensures CashNow(w0, SetStatus(w, run, status, straightThrough, lands), run,
                    CashStatused(v, status, straightThrough, lands))
  {
    hide CashOnly, Numbered, UpdateRun;
    if lands {
      assert run in w.tables.runs && w.tables.runs[run] == v.row by { CashRowOf(w0, w, run, v); }
      StatusTables(w.tables, run, status, straightThrough);
      CashRowEffect(w0, w, run, v, v.process, StatusRow(v.row, status, straightThrough));
      assert w.cash[run := v.process] == w.cash;
    }
  }

  lemma CashRowOf(w0: World, w: World, run: RunId, v: CashView)
    requires CashNow(w0, w, run, v)
    ensures run in w.tables.runs && w.tables.runs[run] == v.row
  {
  }

  lemma CashProcessEffect(w0: World, w: World, run: RunId, v: CashView, p: CashProcess)
    requires CashNow(w0, w, run, v)
    ensures CashNow(w0, w.(cash := w.cash[run := p]), run, v.(process := p))
  {
    hide CashChanged;
    CashRowOf(w0, w, run, v);
    CashRowEffect(w0, w, run, v, p, v.row);
    assert w.tables.runs[run := v.row] == w.tables.runs;
  }

  lemma CashAuditEffect(w0: World, w: World, run: RunId, v: CashView, action: Action)
    requires CashNow(w0, w, run, v)
    ensures CashNow(w0, w.(tables := AppendAudit(w.tables, run, action)), run,
                    v.(trail := v.trail + [AuditRow(run, |v.trail| + 1, action)]))
  {
    hide MaxSequence, Trail, Numbered, AppendAudit, Keys, Reports, JournalsOf, DocumentsOf, RemittancesOf, MadeBy;
    AppendEffect(w.tables, run, action, run);
    forall r | r != run
      ensures Trail(AppendAudit(w.tables, run, action).audit, r) == Trail(w.tables.audit, r)
    {
      AppendEffect(w.tables, run, action, r);
    }
    CashCompose(w0, w, run, v, w.(tables := AppendAudit(w.tables, run, action)),
                v.(trail := v.trail + [AuditRow(run, |v.trail| + 1, action)]));
  }

  lemma CashLogEffect(w0: World, w: World, run: RunId, v: CashView, action: Action, lands: bool)
    requires CashNow(w0, w, run, v)
    ensures CashNow(w0, CashLog(w, run, action, lands), run, CashLogged(v, run, action, lands))
  {
    hide AppendAudit, CashChanged;
    var p := v.process.(emitted := v.process.emitted + [action]);
    if lands {
      CashAuditEffect(w0, w, run, v, action);
      CashProcessEffect(w0, w.(tables := AppendAudit(w.tables, run, action)), run,
                        v.(trail := v.trail + [AuditRow(run, |v.trail| + 1, action)]), p);
    } else {
      CashProcessEffect(w0, w, run, v, p);
    }
  }

  lemma CashLeaveEffect(
    w0: World, w: World, run: RunId, v: CashView, node: CashNode, ch: CashChannel, next: CashPc, io: Io)
    requires CashNow(w0, w, run, v)
    ensures CashNow(w0, CashLeave(w, run, node, ch, next, io), run, CashLeft(v, node, ch, next, io))
  {
    hide CashChanged;
    CashProcessEffect(w0, w, run, v, CashLeft(v, node, ch, next, io).process);
  }

  lemma CashMoveEffect(w0: World, w: World, run: RunId, v: CashView, pc: CashPc)
    requires CashNow(w0, w, run, v)
    ensures CashNow(w0, CashMove(w, run, pc), run, v.(process := v.process.(pc := pc)))
  {
    hide CashChanged;
    CashProcessEffect(w0, w, run, v, v.process.(pc := pc));
  }

  /** The ERP made one application, at the request of the run. */
  lemma CashMadeEffect(w: World, run: RunId, after: Ledger, made: Application)
    requires Known(w) && run in w.cash && after.archive == w.ledger.archive
    requires after.cashbook == w.ledger.cashbook + [made]
    ensures var next := w.(ledger := after, payers := w.payers[|w.ledger.cashbook| := run]);
            && CashOnly(w, next, run)
            && CashViewOf(next, run) == CashViewOf(w, run).(made := CashViewOf(w, run).made + [made])
  {
    hide DocumentsOf, RemittancesOf, MadeBy, Trail, Keys, Reports, JournalsOf, MadeBy;
    forall c | c in w.cash
      ensures MadeBy(after.cashbook, w.payers[|w.ledger.cashbook| := run], c)
           == MadeBy(w.ledger.cashbook, w.payers, c) + (if c == run then [made] else [])
    {
      MadeGrows(w.ledger.cashbook, w.payers, run, made, c);
    }
  }

  lemma CashCaseEffect(w0: World, w: World, run: RunId, v: CashView, row: CaseRow)
    requires CashNow(w0, w, run, v)
    ensures CashNow(w0, AddCase(w, row), run, v)
  {
    hide Keys, Reports, JournalsOf, DocumentsOf, RemittancesOf, MadeBy, Trail, Numbered;
    CashCompose(w0, w, run, v, AddCase(w, row), v);
  }

  /** Rows about receivable runs alone. */
  lemma PayablesUntouched(w: World, after: World)
    requires Known(w) && Known(after) && after == w.(tables := after.tables)
    requires after.tables == w.tables.(remittances := after.tables.remittances)
    ensures SamePayables(w, after)
  {
    hide Keys, Reports, JournalsOf, DocumentsOf, Trail;
  }

  lemma AddRemittanceEffect(w0: World, w: World, run: RunId, v: CashView, row: RemittanceRow)
    requires CashNow(w0, w, run, v) && row.run == run
    ensures CashNow(w0, AddRemittance(w, row), run, v.(remittances := v.remittances + {row}))
  {
    hide MadeBy, Trail, Numbered, SamePayables;
    var more := w.tables.remittances + [row];
    assert row in more;
    assert forall r :: r in w.tables.remittances ==> r in more;
    assert RemittancesOf(more, run) == RemittancesOf(w.tables.remittances, run) + {row};
    forall c | c in w.cash && c != run
      ensures RemittancesOf(more, c) == RemittancesOf(w.tables.remittances, c)
    {
    }
    RowsKnown(w, AddRemittance(w, row));
    PayablesUntouched(w, AddRemittance(w, row));
    CashCompose(w0, w, run, v, AddRemittance(w, row), v.(remittances := v.remittances + {row}));
  }
}
