/** The invariant of the whole system, and its proof over every execution. */
module WorkflowInvariant {
  import opened Prelude
  import opened Journal
  import opened MockErp
  import opened Client
  import opened Repository
  import opened Workflow
  import opened Views
  import opened RunInvariant
  import opened StepInvariant
  import opened CashViews
  import opened CashInvariant

  predicate OneJournalEach(journals: seq<JournalRow>) {
    forall i, j :: 0 <= i < j < |journals| ==> journals[i].run != journals[j].run
  }

  /** No two runs were let through on one key. */
  predicate Exclusive(env: Env, procs: map<RunId, Process>) {
    forall r, s :: r in procs && s in procs && r != s && ClearedKey(env, procs[r]).Some? ==>
      ClearedKey(env, procs[r]) != ClearedKey(env, procs[s])
  }

  ghost predicate EachRun(env: Env, w: World)
    requires Known(w)
  {
    forall r :: r in w.procs ==> RunInv(env, r, ViewOf(w, r))
  }

  ghost predicate EachCash(env: Env, w: World)
    requires Known(w)
  {
    forall c :: c in w.cash ==> CashInv(env, CashViewOf(w, c))
  }

  ghost predicate Inv(env: Env, w: World) {
    && Known(w)
    && EachRun(env, w)
    && EachCash(env, w)
    && Exclusive(env, w.procs)
    && OneJournalEach(w.tables.journals)
    && LedgerInv(w.ledger, env.seed)
  }

  lemma OpenHere(env: Env, w: World, run: RunId)
    requires Known(w) && EachRun(env, w) && run in w.procs
    ensures Good(env, w, w, run, ViewOf(w, run))
  {
    assert RunInv(env, run, ViewOf(w, run));
    NowStart(w, run);
  }

  predicate Enriches(e: Event) {
    e.DoParse? || e.DoExtract? || e.DoPersist? || e.DoDuplicateCheck? || e.DoResolveVendor? || e.DoFetchPo?
  }

  lemma EnrichGood(env: Env, w: World, e: Event, run: RunId, v0: View) returns (v: View)
    requires Good(env, w, w, run, v0) && Enriches(e) && RunOf(e) == Some(run) && Awaits(w.procs[run].pc, e)
    ensures Good(env, w, RunStep(env, w, e), run, v)
    ensures !e.DoDuplicateCheck? ==> ClearedKey(env, v.process) == ClearedKey(env, v0.process)
    ensures SameTold(v0, v)
    ensures e.DoDuplicateCheck? && ClearedKey(env, v.process).Some? ==>
              FindDuplicate(w.tables.invoices, ClearedKey(env, v.process).value, run).None?
  {
    hide RunInv, Changed, ClearedKey, FindDuplicate, ParseStep, ExtractStep, PersistStep, DuplicateStep, VendorStep,
      FetchPoStep;
    if e.DoParse? {
      v := ParseKeeps(env, w, run, v0, e.readable, e.io);
    } else if e.DoExtract? {
      v := ExtractKeeps(env, w, run, v0, e.result, e.io);
    } else if e.DoPersist? {
      v := PersistKeeps(env, w, run, v0, e.io);
    } else if e.DoDuplicateCheck? {
      v := DuplicateKeeps(env, w, run, v0, e.io);
    } else if e.DoResolveVendor? {
      v := VendorKeeps(env, w, run, v0, e.vendor, e.io);
    } else {
      v := FetchKeeps(env, w, run, v0, e.reply, e.io);
    }
  }

  /** The step that records a document booked for a payable run no case was raised for. */
  predicate PostsUnattended(w: World, e: Event, run: RunId) {
    && e.Record? && e.run == run && run in w.procs && w.procs[run].pc.Sent?
    && w.procs[run].pc.posting.Booked? && w.procs[run].ch.invoice.Some? && !w.procs[run].ch.caseId
    && !HasJournal(w.tables.journals, run)
  }

  lemma DecideStepGood(env: Env, w: World, e: Event, run: RunId, v0: View) returns (v: View)
    requires Good(env, w, w, run, v0) && RunOf(e) == Some(run) && Awaits(w.procs[run].pc, e)
    requires !Enriches(e) && !e.Send? && (e.Redrive? ==> !Terminal(v0.row.status))
    ensures Good(env, w, RunStep(env, w, e), run, v)
    ensures ClearedKey(env, v.process) == ClearedKey(env, v0.process)
    ensures PostsUnattended(w, e, run) || SameTold(v0, v)
  {
    hide RunInv, Changed, ClearedKey, MatchStep, RaiseStep, ResumeStep, BeginPostStep, RecordStep, RejectStep, FailStep,
      Move;
    if e.DoMatch? {
      v := MatchKeeps(env, w, run, v0, e.io);
    } else if e.DoRaise? {
      v := RaiseKeeps(env, w, run, v0, e.io);
    } else if e.Resume? {
      v := ResumeKeeps(env, w, run, v0, e.approve, e.io);
    } else if e.BeginPost? {
      v := BeginKeeps(env, w, run, v0, e.io);
    } else if e.Record? {
      ApprovedOrCleared(env, run, v0);
      v := RecordKeeps(env, w, run, v0, e.io);
    } else if e.DoReject? {
      v := RejectKeeps(env, w, run, v0, e.io);
    } else if e.DoFail? {
      v := FailKeeps(env, w, run, v0, e.io);
    } else if e.Die? {
      Unfinished(env, run, v0);
      v := MoveKeeps(env, w, run, v0, Crashed(NodeOf(w.procs[run].pc).value));
    } else {
      v := MoveKeeps(env, w, run, v0, At(w.procs[run].pc.node));
    }
  }

  lemma GraphStepGood(env: Env, w: World, e: Event, run: RunId) returns (v: View)
    requires Inv(env, w) && Enabled(w, e) && RunOf(e) == Some(run) && !e.Send?
    ensures Good(env, w, Step(env, w, e), run, v)
    ensures PostsUnattended(w, e, run) || SameTold(ViewOf(w, run), v)
    ensures !e.DoDuplicateCheck? ==> ClearedKey(env, v.process) == ClearedKey(env, w.procs[run])
    ensures e.DoDuplicateCheck? && ClearedKey(env, v.process).Some? ==>
              FindDuplicate(w.tables.invoices, ClearedKey(env, v.process).value, run).None?
  {
    hide RunInv, Changed, EachRun, EachCash, LedgerInv, Keys, Reports, JournalsOf, DocumentsOf, Trail, Exclusive,
      OneJournalEach, ClearedKey, FindDuplicate, RunStep, Awaits;
    OpenHere(env, w, run);
    if Enriches(e) {
      v := EnrichGood(env, w, e, run, ViewOf(w, run));
    } else {
      v := DecideStepGood(env, w, e, run, ViewOf(w, run));
    }
  }

  /** Only sending, recording, paying and the outside world reach the ERP or the journals. */
  lemma OnlyPostingPosts(env: Env, w: World, e: Event)
    ensures !e.Send? && !e.Pay? && !e.External? ==> Step(env, w, e).ledger == w.ledger
    ensures !e.Record? ==> Step(env, w, e).tables.journals == w.tables.journals
  {
    hide Do, MaxSequence, RunStep, CashStep, Awaits, CashAwaits;
    if Enabled(w, e) && RunOf(e).Some? {
      OnlyPostingRuns(env, w, e);
    } else if Enabled(w, e) && CashRunOf(e).Some? {
      OnlyPayingCash(env, w, e);
    }
  }

  lemma OnlyPostingRuns(env: Env, w: World, e: Event)
    requires RunOf(e).Some? && e.run in w.procs && Awaits(w.procs[e.run].pc, e)
    ensures !e.Send? ==> RunStep(env, w, e).ledger == w.ledger
    ensures !e.Record? ==> RunStep(env, w, e).tables.journals == w.tables.journals
  {
    hide Attempt, Move, ParseStep, ExtractStep, PersistStep, DuplicateStep, VendorStep, FetchPoStep, MatchStep,
      BeginPostStep, RecordStep, RejectStep, FailStep, RaiseStep, ResumeStep;
  }

  lemma OnlyPayingCash(env: Env, w: World, e: Event)
    requires CashRunOf(e).Some? && e.run in w.cash && CashAwaits(w.cash[e.run], e)
    ensures !e.Pay? ==> CashStep(env, w, e).ledger == w.ledger
    ensures CashStep(env, w, e).tables.journals == w.tables.journals
  {
    hide Attempt, CashMove, ParseCashStep, ExtractCashStep, FetchCashStep, BeginCashStep, PayStep, CloseCashStep,
      FailCashStep;
  }

  /** The unique constraint holds because the node looks first. */
  lemma JournalsStayUnique(env: Env, w: World, e: Event)
    requires OneJournalEach(w.tables.journals) && Enabled(w, e)
    ensures OneJournalEach(Step(env, w, e).tables.journals)
  {
    hide RecordStep, RunEntry, Attempt, Do, Fingerprint;
    OnlyPostingPosts(env, w, e);
    if e.Record? && !HasJournal(w.tables.journals, e.run) {
      var before, after := w.tables.journals, Step(env, w, e).tables.journals;
      assert forall i :: 0 <= i < |before| ==> before[i] in before && before[i].run != e.run;
      assert forall i :: 0 <= i < |before| ==> before[i] == after[..|before|][i];
    }
  }

  /** Whoever holds a key stored it first, so whoever looks later finds it. */
  lemma SomeoneElseHolds(env: Env, w: World, run: RunId, other: RunId, key: string)
    requires Known(w) && EachRun(env, w) && other in w.procs && other != run
    requires ClearedKey(env, w.procs[other]) == Some(key)
    ensures FindDuplicate(w.tables.invoices, key, run).Some?
  {
    assert RunInv(env, other, ViewOf(w, other));
    var row :| row in w.tables.invoices && row.run == other && row.fingerprint == key;
    var k :| 0 <= k < |w.tables.invoices| && w.tables.invoices[k] == row;
    assert w.tables.invoices[k].fingerprint == key && w.tables.invoices[k].run != run;
  }

  lemma StaysExclusive(env: Env, w: World, run: RunId, after: World)
    requires Known(w) && EachRun(env, w) && Exclusive(env, w.procs)
    requires run in w.procs && after.procs.Keys == w.procs.Keys
    requires forall r :: r in w.procs && r != run ==> after.procs[r] == w.procs[r]
    requires var key := ClearedKey(env, after.procs[run]);
             key == ClearedKey(env, w.procs[run]) || key.None? || FindDuplicate(w.tables.invoices, key.value, run).None?
    ensures Exclusive(env, after.procs)
  {
    hide ClearedKey, EachRun, Known, FindDuplicate;
    var key := ClearedKey(env, after.procs[run]);
    if key.Some? && key != ClearedKey(env, w.procs[run]) {
      forall r | r in w.procs && r != run
        ensures ClearedKey(env, after.procs[r]) != key
      {
        if ClearedKey(env, w.procs[r]) == key {
          SomeoneElseHolds(env, w, run, r, key.value);
          assert false;
        }
      }
    }
  }

  lemma EachRunKept(env: Env, w: World, run: RunId, after: World, v: View)
    requires Known(w) && EachRun(env, w) && Good(env, w, after, run, v)
    ensures Known(after) && EachRun(env, after) && (EachCash(env, w) ==> EachCash(env, after))
    ensures after.procs.Keys == w.procs.Keys && after.procs[run] == v.process
    ensures forall r :: r in w.procs && r != run ==> after.procs[r] == w.procs[r]
  {
    hide RunInv, CashInv, Keys, Reports, JournalsOf, DocumentsOf, RemittancesOf, MadeBy, Trail, Numbered;
    forall r | r in w.procs && r != run
      ensures ViewOf(after, r) == ViewOf(w, r) && after.procs[r] == w.procs[r] && RunInv(env, r, ViewOf(after, r))
    {
      assert RunInv(env, r, ViewOf(w, r));
    }
    if EachCash(env, w) {
      forall c | c in w.cash
        ensures CashInv(env, CashViewOf(after, c))
      {
        assert CashInv(env, CashViewOf(w, c)) && CashViewOf(after, c) == CashViewOf(w, c);
      }
    }
  }

  lemma GraphStepKeeps(env: Env, w: World, e: Event, run: RunId)
    requires Inv(env, w) && Enabled(w, e) && RunOf(e) == Some(run) && !e.Send?
    ensures Inv(env, Step(env, w, e))
  {
    hide Step, RunInv, EachRun, EachCash, Changed, Known, LedgerInv, Exclusive, OneJournalEach, Enabled, Fingerprint,
      FindDuplicate;
    var after := Step(env, w, e);
    var v := GraphStepGood(env, w, e, run);
    EachRunKept(env, w, run, after, v);
    OnlyPostingPosts(env, w, e);
    JournalsStayUnique(env, w, e);
    StaysExclusive(env, w, run, after);
  }

  lemma AttemptKeepsLedger(env: Env, l: Ledger, entry: JournalEntry, delivery: Delivery, last: bool)
    requires ValidSeed(env.seed) && LedgerInv(l, env.seed)
    ensures LedgerInv(Attempt(l, PostCall(entry), delivery, last).0, env.seed)
  {
    hide Post, LedgerInv, ValidSeed;
    PostKeeps(l, env.seed, entry);
  }

  lemma SendStepKeeps(env: Env, w: World, run: RunId, delivery: Delivery)
    requires ValidSeed(env.seed) && Inv(env, w) && run in w.procs && w.procs[run].pc.Sending?
    ensures Inv(env, SendStep(w, run, w.procs[run].pc.entry, w.procs[run].pc.attempt, delivery))
  {
    hide RunInv, EachRun, EachCash, Changed, Exclusive, OneJournalEach, Fingerprint, FindDuplicate, ClearedKey,
      DocumentsInv, OrdersInv, ReceivablesInv, ValidSeed, Attempt, Keys, Reports, JournalsOf, DocumentsOf, Trail;
    OpenHere(env, w, run);
    var pc := w.procs[run].pc;
    var v := SendKeeps(env, w, run, ViewOf(w, run), delivery);
    var after := SendStep(w, run, pc.entry, pc.attempt, delivery);
    EachRunKept(env, w, run, after, v);
    AttemptKeepsLedger(env, w.ledger, pc.entry, delivery, pc.attempt == MAX_ATTEMPTS - 1);
    StaysExclusive(env, w, run, after);
  }

  lemma ExternalKeeps(env: Env, w: World, op: Op)
    requires ValidSeed(env.seed) && Inv(env, w)
    ensures Inv(env, w.(ledger := Do(w.ledger, env.seed, op)))
  {
    hide RunInv, CashInv, Exclusive, OneJournalEach, DocumentsInv, OrdersInv, ReceivablesInv, ValidSeed, Post,
      ApplyCash, Keys, Reports, JournalsOf, DocumentsOf, RemittancesOf, MadeBy, Trail;
    match op {
      case PostOp(entry) =>
        PostKeeps(w.ledger, env.seed, entry);
        PostEffect(w.ledger, entry);
      case CashOp(id, amount) =>
        ApplyKeeps(w.ledger, env.seed, id, amount);
        CashBooksNothing(w.ledger, id, amount);
      case ReseedOp => ReseedValid(w.ledger, env.seed);
    }
    LedgerEffect(w, Do(w.ledger, env.seed, op));
    SameKeeps(env, w, w.(ledger := Do(w.ledger, env.seed, op)));
  }

  lemma SameKeeps(env: Env, w: World, after: World)
    requires Known(w) && EachRun(env, w) && EachCash(env, w) && Known(after)
    requires SamePayables(w, after) && SameCash(w, after)
    ensures EachRun(env, after) && EachCash(env, after)
  {
    hide RunInv, CashInv, Keys, Reports, JournalsOf, DocumentsOf, RemittancesOf, MadeBy, Trail;
    forall r | r in w.procs
      ensures RunInv(env, r, ViewOf(after, r))
    {
      assert RunInv(env, r, ViewOf(w, r)) && ViewOf(after, r) == ViewOf(w, r);
    }
    forall c | c in w.cash
      ensures CashInv(env, CashViewOf(after, c))
    {
      assert CashInv(env, CashViewOf(w, c)) && CashViewOf(after, c) == CashViewOf(w, c);
    }
  }

  lemma CashBooksNothing(l: Ledger, id: string, amount: real)
    ensures ApplyCash(l, id, amount).0.archive == l.archive && l.cashbook <= ApplyCash(l, id, amount).0.cashbook
  {
  }

  lemma NobodysRows(w: World, run: RunId)
    requires Known(w) && run !in w.procs && run !in w.cash
    ensures Keys(w.tables.invoices, run) == {} && Reports(w.tables.matches, run) == {}
    ensures JournalsOf(w.tables.journals, run) == {} && DocumentsOf(w.ledger.archive, w.owners, run) == {}
    ensures RemittancesOf(w.tables.remittances, run) == {} && MadeBy(w.ledger.cashbook, w.payers, run) == []
    ensures Trail(w.tables.audit, run) == []
  {
    NoTrail(w.tables.audit, run);
    NothingMade(w.ledger.cashbook, w.payers, run);
  }

  lemma {:induction false} NothingMade(cashbook: seq<Application>, payers: map<nat, RunId>, run: RunId)
    requires forall i :: i in payers ==> payers[i] != run
    ensures MadeBy(cashbook, payers, run) == []
  {
    if cashbook != [] {
      NothingMade(cashbook[..|cashbook| - 1], payers, run);
    }
  }

  lemma {:induction false} NoTrail(audit: seq<AuditRow>, run: RunId)
    requires forall row :: row in audit ==> row.run != run
    ensures Trail(audit, run) == []
  {
    if audit != [] {
      NoTrail(audit[..|audit| - 1], run);
    }
  }

  /** A new run's row and first event, whichever kind it is. */
  function Opened(w: World, run: RunId, kind: Kind, lands: bool): Tables {
    var t := w.tables.(runs := w.tables.runs[run := RunRow(kind, Received, false)]);
    if lands then AppendAudit(t, run, EmailReceived) else t
  }

  lemma OpenedTables(w: World, run: RunId, kind: Kind, lands: bool, r: RunId)
    requires Known(w) && run !in w.procs && run !in w.cash
    ensures var t := Opened(w, run, kind, lands);
            && t == w.tables.(runs := w.tables.runs[run := RunRow(kind, Received, false)], audit := t.audit)
            && (forall row :: row in t.audit ==> row in w.tables.audit || row.run == run)
            && Trail(t.audit, r) ==
               if r == run then if lands then [AuditRow(run, 1, EmailReceived)] else [] else Trail(w.tables.audit, r)
  {
    hide MaxSequence, Trail;
    NoTrail(w.tables.audit, run);
    var t := w.tables.(runs := w.tables.runs[run := RunRow(kind, Received, false)]);
    AppendEffect(t, run, EmailReceived, r);
  }

  /** Everybody else's view survives the opening of a run. */
  lemma OpenedApart(w: World, run: RunId, kind: Kind, lands: bool, after: World)
    requires Known(w) && run !in w.procs && run !in w.cash
    requires after.tables == Opened(w, run, kind, lands) && after.ledger == w.ledger && after.owners == w.owners
    requires after.payers == w.payers
    requires forall r :: r in w.procs ==> r in after.procs && after.procs[r] == w.procs[r]
    requires forall c :: c in w.cash ==> c in after.cash && after.cash[c] == w.cash[c]
    requires after.procs.Keys + after.cash.Keys == w.procs.Keys + w.cash.Keys + {run}
    requires after.procs.Keys !! after.cash.Keys
    ensures Known(after)
    ensures forall r :: r in w.procs ==> ViewOf(after, r) == ViewOf(w, r)
    ensures forall c :: c in w.cash ==> CashViewOf(after, c) == CashViewOf(w, c)
  {
    hide Trail, Opened, Keys, Reports, JournalsOf, DocumentsOf, RemittancesOf, MadeBy;
    OpenedTables(w, run, kind, lands, run);
    forall r | r != run
      ensures Trail(after.tables.audit, r) == Trail(w.tables.audit, r)
    {
      OpenedTables(w, run, kind, lands, r);
    }
  }

  lemma StartView(env: Env, w: World, run: RunId, lands: bool)
    requires Known(w) && run !in w.procs && run !in w.cash
    ensures var after := StartStep(w, run, lands);
            && Known(after)
            && RunInv(env, run, ViewOf(after, run))
            && ViewOf(after, run)
               == View(Process(if lands then At(ParseNode) else Ended, EMPTY, false, [EmailReceived], 0),
                       RunRow(PayableRun, Received, false), {}, {}, {},
                       if lands then [AuditRow(run, 1, EmailReceived)] else [], {})
            && (forall r :: r in w.procs ==> ViewOf(after, r) == ViewOf(w, r))
            && (forall c :: c in w.cash ==> CashViewOf(after, c) == CashViewOf(w, c))
  {
    hide MaxSequence, Trail, AppendAudit, Keys, Reports, JournalsOf, DocumentsOf, RemittancesOf, MadeBy, RunInv;
    var after := StartStep(w, run, lands);
    OpenedTables(w, run, PayableRun, lands, run);
    OpenedApart(w, run, PayableRun, lands, after);
    NobodysRows(w, run);
    StartInv(env, run, ViewOf(after, run), lands);
  }

  lemma StartKeeps(env: Env, w: World, run: RunId, lands: bool)
    requires Inv(env, w) && run !in w.procs && run !in w.cash
    ensures Inv(env, StartStep(w, run, lands))
  {
    hide RunInv, CashInv, Keys, Reports, JournalsOf, DocumentsOf, RemittancesOf, MadeBy, Trail, LedgerInv, Fingerprint,
      MaxSequence;
    StartView(env, w, run, lands);
    var after := StartStep(w, run, lands);
    forall r | r in w.procs
      ensures RunInv(env, r, ViewOf(after, r))
    {
      assert RunInv(env, r, ViewOf(w, r));
    }
    forall c | c in w.cash
      ensures CashInv(env, CashViewOf(after, c))
    {
      assert CashInv(env, CashViewOf(w, c));
    }
  }

  lemma StartCashView(env: Env, w: World, run: RunId, lands: bool)
    requires Known(w) && run !in w.procs && run !in w.cash
    ensures var after := StartCashStep(w, run, lands);
            && Known(after)
            && CashInv(env, CashViewOf(after, run))
            && CashViewOf(after, run)
               == CashView(CashProcess(if lands then CashAt(ParseCash) else CashEnded, NO_CASH, [EmailReceived]),
                           RunRow(ReceivableRun, Received, false),
                           if lands then [AuditRow(run, 1, EmailReceived)] else [], {}, [])
            && SamePayables(w, after)
            && (forall c :: c in w.cash ==> CashViewOf(after, c) == CashViewOf(w, c))
  {
    hide MaxSequence, Trail, AppendAudit, Keys, Reports, JournalsOf, DocumentsOf, RemittancesOf, MadeBy, CashInv;
    var after := StartCashStep(w, run, lands);
    OpenedTables(w, run, ReceivableRun, lands, run);
    OpenedApart(w, run, ReceivableRun, lands, after);
    NobodysRows(w, run);
    CashStartInv(env, CashViewOf(after, run), run, lands);
  }

  lemma StartCashKeeps(env: Env, w: World, run: RunId, lands: bool)
    requires Inv(env, w) && run !in w.procs && run !in w.cash
    ensures Inv(env, StartCashStep(w, run, lands))
  {
    hide RunInv, CashInv, Keys, Reports, JournalsOf, DocumentsOf, RemittancesOf, MadeBy, Trail, LedgerInv, Fingerprint,
      MaxSequence;
    StartCashView(env, w, run, lands);
    var after := StartCashStep(w, run, lands);
    forall r | r in w.procs
      ensures RunInv(env, r, ViewOf(after, r))
    {
      assert RunInv(env, r, ViewOf(w, r));
    }
    forall c | c in w.cash
      ensures CashInv(env, CashViewOf(after, c))
    {
      assert CashInv(env, CashViewOf(w, c));
    }
  }

  lemma OpenCashHere(env: Env, w: World, run: RunId)
    requires Known(w) && EachCash(env, w) && run in w.cash
    ensures CashGood(env, w, w, run, CashViewOf(w, run))
  {
    hide Subsequence;
    assert CashInv(env, CashViewOf(w, run));
    CashNowStart(w, run);
  }

  lemma CashRunGood(env: Env, w: World, e: Event, run: RunId, v0: CashView) returns (v: CashView)
    requires CashGood(env, w, w, run, v0) && CashRunOf(e) == Some(run) && CashAwaits(w.cash[run], e)
    requires e.RedriveCash? ==> !Terminal(v0.row.status)
    ensures CashGood(env, w, CashStep(env, w, e), run, v)
    ensures !e.CloseCash? ==> v.row.straightThrough == v0.row.straightThrough
  {
    hide CashInv, CashChanged, ParseCashStep, ExtractCashStep, FetchCashStep, BeginCashStep, PayStep, CloseCashStep,
      FailCashStep, CashMove;
    if e.DoParseCash? {
      v := ParseCashKeeps(env, w, run, v0, e.readable, e.io);
    } else if e.DoExtractCash? {
      v := ExtractCashKeeps(env, w, run, v0, e.found, e.io);
    } else if e.DoFetchCash? {
      v := FetchCashKeeps(env, w, run, v0, e.named, e.fails, e.io);
    } else if e.BeginCash? {
      v := BeginCashKeeps(env, w, run, v0, e.io);
    } else if e.Pay? {
      v := PayKeeps(env, w, run, v0, e.delivery);
    } else if e.CloseCash? {
      v := CloseCashKeeps(env, w, run, v0, e.io);
    } else if e.DoFailCash? {
      v := FailCashKeeps(env, w, run, v0, e.io);
    } else if e.DieCash? {
      v := CashMoveKeeps(env, w, run, v0, CashCrashed(CashNodeOf(w.cash[run].pc).value));
    } else {
      v := CashMoveKeeps(env, w, run, v0, CashAt(w.cash[run].pc.node));
    }
  }

  lemma CashStepGood(env: Env, w: World, e: Event, run: RunId) returns (v: CashView)
    requires Inv(env, w) && Enabled(w, e) && CashRunOf(e) == Some(run)
    ensures CashGood(env, w, Step(env, w, e), run, v)
    ensures run in w.tables.runs
    ensures !e.CloseCash? ==> v.row.straightThrough == w.tables.runs[run].straightThrough
  {
    hide CashInv, CashChanged, EachRun, EachCash, LedgerInv, Exclusive, OneJournalEach, Keys, Reports, JournalsOf,
      DocumentsOf, RemittancesOf, MadeBy, Trail, CashStep, CashAwaits;
    OpenCashHere(env, w, run);
    v := CashRunGood(env, w, e, run, CashViewOf(w, run));
  }

  lemma EachCashKept(env: Env, w: World, run: RunId, after: World, v: CashView)
    requires Known(w) && EachRun(env, w) && EachCash(env, w) && CashGood(env, w, after, run, v)
    ensures Known(after) && EachRun(env, after) && EachCash(env, after) && after.procs == w.procs
  {
    hide RunInv, CashInv, Keys, Reports, JournalsOf, DocumentsOf, RemittancesOf, MadeBy, Trail, Numbered;
    forall r | r in w.procs
      ensures RunInv(env, r, ViewOf(after, r)) && after.procs[r] == w.procs[r]
    {
      assert RunInv(env, r, ViewOf(w, r)) && ViewOf(after, r) == ViewOf(w, r);
    }
    forall c | c in w.cash
      ensures CashInv(env, CashViewOf(after, c))
    {
      assert CashInv(env, CashViewOf(w, c));
    }
  }

  lemma PayKeepsLedger(env: Env, w: World, run: RunId, delivery: Delivery)
    requires ValidSeed(env.seed) && LedgerInv(w.ledger, env.seed)
    requires run in w.cash && w.cash[run].pc.Paying? && w.cash[run].pc.left != []
    ensures LedgerInv(PayStep(w, run, delivery).ledger, env.seed)
  {
    hide ApplyCash, LedgerInv, ValidSeed;
    ApplyKeeps(w.ledger, env.seed, w.cash[run].pc.left[0].item.id, w.cash[run].pc.left[0].amount);
  }

  lemma CashStepKeeps(env: Env, w: World, e: Event, run: RunId)
    requires ValidSeed(env.seed) && Inv(env, w) && Enabled(w, e) && CashRunOf(e) == Some(run)
    ensures Inv(env, Step(env, w, e))
  {
    hide RunInv, CashInv, EachRun, EachCash, CashChanged, Known, LedgerInv, Exclusive, OneJournalEach, ValidSeed,
      PayStep;
    var v := CashStepGood(env, w, e, run);
    EachCashKept(env, w, run, Step(env, w, e), v);
    OnlyPostingPosts(env, w, e);
    if e.Pay? {
      PayKeepsLedger(env, w, run, e.delivery);
    }
  }

  lemma RunStepGood(env: Env, w: World, e: Event, run: RunId) returns (v: View)
    requires Inv(env, w) && Enabled(w, e) && RunOf(e) == Some(run)
    ensures Good(env, w, Step(env, w, e), run, v)
    ensures PostsUnattended(w, e, run) || SameTold(ViewOf(w, run), v)
    ensures !e.DoDuplicateCheck? ==> ClearedKey(env, v.process) == ClearedKey(env, w.procs[run])
  {
    hide RunInv, Changed, ClearedKey, FindDuplicate, EachRun, EachCash, Exclusive, OneJournalEach, OrdersInv,
      ReceivablesInv, DocumentsInv, Keys, Reports, JournalsOf, DocumentsOf, RemittancesOf, MadeBy, Trail, SendStep;
    if e.Send? {
      OpenHere(env, w, run);
      v := SendKeeps(env, w, run, ViewOf(w, run), e.delivery);
    } else {
      v := GraphStepGood(env, w, e, run);
    }
  }

  /** A run's own record: its row, and its process of whichever kind. */
  ghost predicate SameRecord(w: World, after: World, run: RunId) {
    && run in w.tables.runs && run in after.tables.runs && after.tables.runs[run] == w.tables.runs[run]
    && (run in w.procs ==> run in after.procs && after.procs[run] == w.procs[run])
    && (run in w.cash ==> run in after.cash && after.cash[run] == w.cash[run])
  }

  lemma OpeningFrame(w: World, newcomer: RunId, lands: bool, run: RunId)
    requires run in w.tables.runs && run != newcomer
    ensures SameRecord(w, StartStep(w, newcomer, lands), run) && SameRecord(w, StartCashStep(w, newcomer, lands), run)
  {
    hide MaxSequence;
  }

  lemma RunFrame(env: Env, w: World, e: Event, run: RunId)
    requires Inv(env, w) && run in w.tables.runs && Enabled(w, e) && RunOf(e).Some? && RunOf(e) != Some(run)
    ensures SameRecord(w, Step(env, w, e), run)
  {
    hide RunInv, LedgerInv, Exclusive, OneJournalEach, EachRun, EachCash, Keys, Reports, JournalsOf, DocumentsOf,
      RemittancesOf, MadeBy, Trail, Step, Enabled;
    var v := RunStepGood(env, w, e, RunOf(e).value);
    var after := Step(env, w, e);
    assert run in w.procs ==> ViewOf(after, run) == ViewOf(w, run);
    assert run in w.cash ==> CashViewOf(after, run) == CashViewOf(w, run);
  }

  lemma CashFrame(env: Env, w: World, e: Event, run: RunId)
    requires Inv(env, w) && run in w.tables.runs && Enabled(w, e) && CashRunOf(e).Some? && CashRunOf(e) != Some(run)
    ensures SameRecord(w, Step(env, w, e), run)
  {
    hide CashInv, LedgerInv, Exclusive, OneJournalEach, EachRun, EachCash, Keys, Reports, JournalsOf, DocumentsOf,
      RemittancesOf, MadeBy, Trail, Step, Enabled;
    var v := CashStepGood(env, w, e, CashRunOf(e).value);
    var after := Step(env, w, e);
    assert run in w.procs ==> ViewOf(after, run) == ViewOf(w, run);
    assert run in w.cash ==> CashViewOf(after, run) == CashViewOf(w, run);
  }

  /** A step moves no run's row and process but its own, payable or receivable. */
  lemma StepFrame(env: Env, w: World, e: Event, run: RunId)
    requires Inv(env, w) && run in w.tables.runs
    requires (RunOf(e) != Some(run) && CashRunOf(e) != Some(run)) || !Enabled(w, e)
    ensures SameRecord(w, Step(env, w, e), run)
  {
    hide EachRun, EachCash, LedgerInv, Exclusive, OneJournalEach, StartStep, StartCashStep, Do, RunStep, CashStep,
      Awaits, CashAwaits;
    if Enabled(w, e) {
      if RunOf(e).Some? {
        RunFrame(env, w, e, run);
      } else if CashRunOf(e).Some? {
        CashFrame(env, w, e, run);
      } else if !e.External? {
        OpeningFrame(w, e.run, e.lands, run);
      }
    }
  }

  /** Every event keeps the invariant of the whole system. */
  lemma StepKeeps(env: Env, w: World, e: Event)
    requires ValidSeed(env.seed) && Inv(env, w)
    ensures Inv(env, Step(env, w, e))
  {
    hide Inv, StartStep, StartCashStep, SendStep, Do, ValidSeed;
    if Enabled(w, e) {
      if e.Start? {
        StartKeeps(env, w, e.run, e.lands);
      } else if e.StartCash? {
        StartCashKeeps(env, w, e.run, e.lands);
      } else if e.Send? {
        SendStepKeeps(env, w, e.run, e.delivery);
      } else if e.External? {
        ExternalKeeps(env, w, e.op);
      } else if RunOf(e).Some? {
        GraphStepKeeps(env, w, e, RunOf(e).value);
      } else {
        CashStepKeeps(env, w, e, CashRunOf(e).value);
      }
    }
  }

  lemma {:induction false} AlwaysValid(env: Env, events: seq<Event>)
    requires ValidSeed(env.seed)
    ensures Inv(env, Execute(env, events))
  {
    hide Inv, Step, ValidSeed, Init;
    if events == [] {
      InitValid(env);
    } else {
      AlwaysValid(env, events[..|events| - 1]);
      StepKeeps(env, Execute(env, events[..|events| - 1]), events[|events| - 1]);
    }
  }

  lemma InitValid(env: Env)
    requires ValidSeed(env.seed)
    ensures Inv(env, Init(env))
  {
    hide LedgerInv, ValidSeed, Fresh;
    FreshValid(env.seed);
  }
}
