/** What holds of one receivable run at every point of every execution. */
module CashInvariant {
  import opened Prelude
  import opened MockErp
  import opened Client
  import opened Remittances
  import opened Receivable
  import opened Repository
  import opened Workflow
  import opened Views
  import opened RunInvariant
  import opened CashViews

  /** The payments a run's remittance and items amount to. */
  function Due(env: Env, ch: CashChannel): seq<Payment>
    requires ch.remittance.Some?
  {
    Rounded(PaymentsOf(env.text, ch.remittance.value, ch.items))
  }

  /** A stored remittance: applications the ERP made for the run, and all that was due answered if it says applied. */
  ghost predicate Stored(env: Env, ch: CashChannel, made: seq<Application>, row: RemittanceRow) {
    && Subsequence(row.applications, made)
    && (row.applied ==>
          && ch.remittance.Some? && row.applications != [] && Settles(row.applications, [], Due(env, ch))
          && UnresolvedOf(env.text, ch.remittance.value, ch.items, env.cfg.remittanceToleranceAbs) == [])
  }

  /** While it pays, a run holds applications the ERP made for it, and the answers to all it has paid unless one
      failed. */
  ghost predicate Progress(env: Env, v: CashView) {
    var pc, ch := v.process.pc, v.process.ch;
    pc.Paying? ==>
      && pc.attempt < MAX_ATTEMPTS && Subsequence(pc.applied, v.made)
      && ch.remittance.Some? && (pc.failures == [] ==> Settles(pc.applied, pc.left, Due(env, ch)))
  }

  ghost predicate Banked(env: Env, v: CashView) {
    && (forall m :: m in v.remittances ==> Stored(env, v.process.ch, v.made, m))
    && (v.remittances != {} ==> CashNodeOf(v.process.pc) == Some(ApplyingCash) || v.process.pc.CashEnded?)
  }

  /** A receivable run posts no journal and asks nobody; its row is terminal only when it is over, carries the flag
      only when completed, and is completed only with cash applied and stored. */
  ghost predicate CashInv(env: Env, v: CashView) {
    var p, row, node := v.process, v.row, CashNodeOf(v.process.pc);
    && row.kind == ReceivableRun
    && Numbered(v.trail) && Subsequence(Actions(v.trail), p.emitted)
    && (forall a :: a in p.emitted ==> !a.JournalPosted? && !AskedHuman(a))
    && (node == Some(FetchCash) || node == Some(ApplyingCash) ==> p.ch.remittance.Some?)
    && Progress(env, v) && Banked(env, v)
    && (Terminal(row.status) ==> p.pc.CashEnded? || p.pc.CashCrashed?)
    && (row.straightThrough ==> row.status == Completed)
    && (row.status == Completed ==>
          && CashApplied in p.emitted
          && exists m :: m in v.remittances && m.applications != [] && (row.straightThrough ==> m.applied))
  }

  lemma CashLogInv(env: Env, run: RunId, v: CashView, action: Action, lands: bool)
    requires CashInv(env, v) && !action.JournalPosted? && !AskedHuman(action)
    ensures CashInv(env, CashLogged(v, run, action, lands))
  {
    hide Subsequence, Numbered, Settles, Due, UnresolvedOf;
    LogNumbered(v.trail, v.process.emitted, AuditRow(run, |v.trail| + 1, action), lands);
  }

  lemma CashStatusInv(env: Env, v: CashView, status: RunStatus, lands: bool)
    requires CashInv(env, v) && !Terminal(status) && !Terminal(v.row.status)
    ensures CashInv(env, CashStatused(v, status, None, lands))
            && !Terminal(CashStatused(v, status, None, lands).row.status)
  {
    hide Subsequence, Numbered, Settles, Due, UnresolvedOf;
  }

  lemma CashStartInv(env: Env, v: CashView, run: RunId, lands: bool)
    requires v == CashView(
               CashProcess(if lands then CashAt(ParseCash) else CashEnded, NO_CASH, [EmailReceived]),
               RunRow(ReceivableRun, Received, false), if lands then [AuditRow(run, 1, EmailReceived)] else [], {}, [])
    ensures CashInv(env, v)
  {
    hide Subsequence, Numbered, Settles, Due, UnresolvedOf;
    FirstNumbered(run, lands);
  }

  /** Leaving a node for the next, or dying in it. */
  lemma CashLeaveInv(env: Env, v: CashView, node: CashNode, ch: CashChannel, next: CashPc, io: Io)
    requires CashInv(env, v) && CashNodeOf(v.process.pc) == Some(node)
    requires next.CashAt? || next.CashEnded?
    requires next == CashAt(FetchCash) || next == CashAt(ApplyingCash) ==> ch.remittance.Some?
    requires Terminal(v.row.status) ==> next.CashEnded?
    requires v.remittances == {} || (ch == v.process.ch && (next.CashEnded? || next == CashAt(ApplyingCash)))
    ensures CashInv(env, CashLeft(v, node, ch, next, io))
  {
    hide Subsequence, Numbered, Settles, Due, UnresolvedOf;
  }

  lemma CashMoveInv(env: Env, v: CashView, next: CashPc)
    requires CashInv(env, v) && !next.CashEnded? && CashNodeOf(next) == CashNodeOf(v.process.pc)
    requires Terminal(v.row.status) ==> next.CashCrashed?
    requires Progress(env, v.(process := v.process.(pc := next)))
    ensures CashInv(env, v.(process := v.process.(pc := next)))
  {
    hide Subsequence, Numbered, Settles, Due, UnresolvedOf;
  }

  /** The last write and the last checkpoint. */
  lemma CashCloseInv(env: Env, v: CashView, row: RemittanceRow, completed: bool, io: Io)
    requires CashInv(env, v) && v.process.pc.Paying? && CashApplied in v.process.emitted
    requires row in v.remittances && (completed ==> row.applications != []) && (row.applied ==> completed)
    ensures CashInv(env, CashLeft(
              CashStatused(v, if completed then Completed else AwaitingApproval, Some(row.applied), io.final),
              ApplyingCash, v.process.ch, CashEnded, io))
  {
    hide Subsequence, Numbered, Settles, Due, UnresolvedOf;
  }

  lemma CashFailInv(env: Env, v: CashView, io: Io)
    requires CashInv(env, v) && v.process.pc == CashAt(FailedCash)
    ensures CashInv(env, CashLeft(
              CashStatused(v, Failed, None, io.status), FailedCash, v.process.ch.(error := true), CashEnded, io))
  {
    hide Subsequence, Numbered, Settles, Due, UnresolvedOf;
  }

  lemma CashUnfinished(env: Env, v: CashView)
    requires CashInv(env, v) && !v.process.pc.CashEnded? && !v.process.pc.CashCrashed?
    ensures !Terminal(v.row.status)
  {
  }

  /** Nothing is stored before the run has come to apply cash. */
  lemma NothingStored(env: Env, v: CashView)
    requires CashInv(env, v) && !v.process.pc.CashEnded? && CashNodeOf(v.process.pc) != Some(ApplyingCash)
    ensures v.remittances == {}
  {
  }

  lemma BegunProgress(env: Env, v: CashView)
    requires v.process.ch.remittance.Some?
    ensures Progress(env, v.(process := v.process.(pc := Paying(Due(env, v.process.ch), 0, [], []))))
  {
    hide Subsequence, Due;
    NothingYetTaken(v.made);
  }

  lemma StoredGrows(env: Env, ch: CashChannel, made: seq<Application>, row: RemittanceRow, x: Application)
    requires Stored(env, ch, made, row)
    ensures Stored(env, ch, made + [x], row)
  {
    hide Subsequence, Settles, Due, UnresolvedOf;
    SubsequenceGrows(row.applications, made, x, false);
  }

  /** Every row still stands when the ERP makes another application for the run. */
  lemma BankedGrows(env: Env, v: CashView, x: Application)
    requires Banked(env, v)
    ensures Banked(env, v.(made := v.made + [x]))
  {
    hide Stored;
    forall m | m in v.remittances
      ensures Stored(env, v.process.ch, v.made + [x], m)
    {
      StoredGrows(env, v.process.ch, v.made, m, x);
    }
  }

  /** The next payment is answered. */
  lemma SettlesMore(applied: seq<Application>, left: seq<Payment>, due: seq<Payment>, made: Application)
    requires Settles(applied, left, due) && left != [] && Answers(made, left[0])
    ensures Settles(applied + [made], left[1..], due)
  {
  }

  /** What became of one attempt, and whether it made an application, keeps the run's progress. */
  lemma PaidProgress(env: Env, v: CashView, made: seq<Application>, outcome: Option<Outcome>)
    requires Progress(env, v) && v.process.pc.Paying? && v.process.pc.left != [] && |made| <= 1
    requires outcome.None? ==> v.process.pc.attempt + 1 < MAX_ATTEMPTS
    requires outcome.Some? && outcome.value.Success? ==>
               && outcome.value.answer.ApplicationAnswer? && made == [outcome.value.answer.application]
               && Answers(made[0], v.process.pc.left[0])
    ensures Progress(env, v.(made := v.made + made, process := v.process.(pc := PaidPc(v.process.pc, outcome))))
  {
    hide Subsequence, Settles, Due, Answers;
    var pc := v.process.pc;
    var taken := outcome.Some? && outcome.value.Success?;
    if made == [] {
      assert v.made + made == v.made;
    } else {
      assert made == [made[0]];
      SubsequenceGrows(pc.applied, v.made, made[0], taken);
      if taken && pc.failures == [] {
        SettlesMore(pc.applied, pc.left, Due(env, v.process.ch), made[0]);
      }
    }
  }

  lemma PaidInv(env: Env, v: CashView, made: seq<Application>, outcome: Option<Outcome>)
    requires CashInv(env, v) && v.process.pc.Paying? && v.process.pc.left != [] && |made| <= 1
    requires outcome.None? ==> v.process.pc.attempt + 1 < MAX_ATTEMPTS
    requires outcome.Some? && outcome.value.Success? ==>
               && outcome.value.answer.ApplicationAnswer? && made == [outcome.value.answer.application]
               && Answers(made[0], v.process.pc.left[0])
    ensures CashInv(env, v.(made := v.made + made, process := v.process.(pc := PaidPc(v.process.pc, outcome))))
  {
    hide Progress, Stored, Subsequence, Numbered, Answers;
    PaidProgress(env, v, made, outcome);
    if made == [] {
      assert v.made + made == v.made;
    } else {
      assert made == [made[0]];
      BankedGrows(env, v, made[0]);
    }
  }

  // The steps

  /** Since w0 only one receivable run moved, and it still satisfies its invariant. */
  ghost predicate CashGood(env: Env, w0: World, w: World, run: RunId, v: CashView) {
    CashNow(w0, w, run, v) && CashInv(env, v)
  }

  lemma CashDoStatus(env: Env, w0: World, w: World, run: RunId, v: CashView, status: RunStatus, lands: bool)
    requires CashGood(env, w0, w, run, v) && !Terminal(status) && !Terminal(v.row.status)
    ensures CashGood(env, w0, SetStatus(w, run, status, None, lands), run, CashStatused(v, status, None, lands))
    ensures !Terminal(CashStatused(v, status, None, lands).row.status)
  {
    hide CashInv, CashChanged;
    CashStatusEffect(w0, w, run, v, status, None, lands);
    CashStatusInv(env, v, status, lands);
  }

  lemma CashDoLog(env: Env, w0: World, w: World, run: RunId, v: CashView, action: Action, lands: bool)
    requires CashGood(env, w0, w, run, v) && !action.JournalPosted? && !AskedHuman(action)
    ensures CashGood(env, w0, CashLog(w, run, action, lands), run, CashLogged(v, run, action, lands))
  {
    hide CashInv, CashChanged;
    CashLogEffect(w0, w, run, v, action, lands);
    CashLogInv(env, run, v, action, lands);
  }

  lemma ParseCashKeeps(env: Env, w: World, run: RunId, v: CashView, readable: bool, io: Io) returns (after: CashView)
    requires CashGood(env, w, w, run, v) && v.process.pc == CashAt(ParseCash)
    ensures CashGood(env, w, ParseCashStep(w, run, readable, io), run, after)
    ensures after.row.straightThrough == v.row.straightThrough
    ensures after == CashLeft(
              CashLogged(CashStatused(v, Parsing, None, io.status), run, if readable then DocumentParsed else RunFailed,
                         io.audit),
              ParseCash, v.process.ch.(error := !readable || v.process.ch.error),
              CashAt(if readable then ExtractCash else FailedCash), io)
  {
    hide CashInv, CashChanged, SetStatus, CashLog, CashLeave;
    var action := if readable then DocumentParsed else RunFailed;
    NothingStored(env, v);
    CashUnfinished(env, v);
    CashDoStatus(env, w, w, run, v, Parsing, io.status);
    var w1, v1 := SetStatus(w, run, Parsing, None, io.status), CashStatused(v, Parsing, None, io.status);
    CashDoLog(env, w, w1, run, v1, action, io.audit);
    var w2, v2 := CashLog(w1, run, action, io.audit), CashLogged(v1, run, action, io.audit);
    var ch := if readable then v.process.ch else v.process.ch.(error := true);
    var next := if readable then CashAt(ExtractCash) else CashAt(FailedCash);
    CashLeaveEffect(w, w2, run, v2, ParseCash, ch, next, io);
    CashLeaveInv(env, v2, ParseCash, ch, next, io);
    after := CashLeft(v2, ParseCash, ch, next, io);
  }

  lemma ExtractCashKeeps(env: Env, w: World, run: RunId, v: CashView, found: Option<Remittance>, io: Io)
      returns (after: CashView)
    requires CashGood(env, w, w, run, v) && v.process.pc == CashAt(ExtractCash)
    ensures CashGood(env, w, ExtractCashStep(w, run, found, io), run, after)
    ensures after.row.straightThrough == v.row.straightThrough
    ensures after == CashLeft(
              CashLogged(CashStatused(v, Extracting, None, io.status), run,
                         if found.Some? then FieldsExtracted else RunFailed, io.audit),
              ExtractCash, if found.Some? then v.process.ch.(remittance := found) else v.process.ch.(error := true),
              CashAt(if found.Some? then FetchCash else FailedCash), io)
  {
    hide CashInv, CashChanged, SetStatus, CashLog, CashLeave;
    var action := if found.Some? then FieldsExtracted else RunFailed;
    NothingStored(env, v);
    CashUnfinished(env, v);
    CashDoStatus(env, w, w, run, v, Extracting, io.status);
    var w1, v1 := SetStatus(w, run, Extracting, None, io.status), CashStatused(v, Extracting, None, io.status);
    CashDoLog(env, w, w1, run, v1, action, io.audit);
    var w2, v2 := CashLog(w1, run, action, io.audit), CashLogged(v1, run, action, io.audit);
    var ch := if found.Some? then v.process.ch.(remittance := found) else v.process.ch.(error := true);
    var next := if found.Some? then CashAt(FetchCash) else CashAt(FailedCash);
    CashLeaveEffect(w, w2, run, v2, ExtractCash, ch, next, io);
    CashLeaveInv(env, v2, ExtractCash, ch, next, io);
    after := CashLeft(v2, ExtractCash, ch, next, io);
  }

  lemma HasRemittance(env: Env, v: CashView)
    requires CashInv(env, v)
    requires var node := CashNodeOf(v.process.pc); node == Some(FetchCash) || node == Some(ApplyingCash)
    ensures v.process.ch.remittance.Some? && Progress(env, v)
    ensures v.process.pc.Paying? ==> v.process.pc.attempt < MAX_ATTEMPTS
  {
  }

  lemma FetchCashKeeps(env: Env, w: World, run: RunId, v: CashView, named: Option<string>, fails: bool, io: Io)
    returns (after: CashView)
    requires CashGood(env, w, w, run, v) && v.process.pc == CashAt(FetchCash)
    ensures CashGood(env, w, FetchCashStep(w, run, named, fails, io), run, after)
    ensures after.row.straightThrough == v.row.straightThrough
    ensures v.process.ch.remittance.Some?
    ensures var fetched := FetchOutcome(v.process.ch.remittance.value, named, fails, w.ledger.items);
            after == CashLeft(
              CashLogged(v, run, if fetched.failed then RunFailed else PoFetched, io.audit), FetchCash,
              v.process.ch.(items := fetched.items, error := v.process.ch.error || fetched.failed),
              CashAt(ApplyingCash), io)
  {
    hide CashInv, CashChanged, CashLog, CashLeave, FetchOutcome;
    HasRemittance(env, v);
    NothingStored(env, v);
    CashUnfinished(env, v);
    var fetched := FetchOutcome(v.process.ch.remittance.value, named, fails, w.ledger.items);
    var action := if fetched.failed then RunFailed else PoFetched;
    CashDoLog(env, w, w, run, v, action, io.audit);
    var w1, v1 := CashLog(w, run, action, io.audit), CashLogged(v, run, action, io.audit);
    var ch := v.process.ch.(items := fetched.items, error := v.process.ch.error || fetched.failed);
    CashLeaveEffect(w, w1, run, v1, FetchCash, ch, CashAt(ApplyingCash), io);
    CashLeaveInv(env, v1, FetchCash, ch, CashAt(ApplyingCash), io);
    after := CashLeft(v1, FetchCash, ch, CashAt(ApplyingCash), io);
  }

  lemma BeginCashKeeps(env: Env, w: World, run: RunId, v: CashView, io: Io) returns (after: CashView)
    requires CashGood(env, w, w, run, v) && v.process.pc == CashAt(ApplyingCash)
    ensures CashGood(env, w, BeginCashStep(env, w, run, io), run, after)
    ensures after.row.straightThrough == v.row.straightThrough
    ensures v.process.ch.remittance.Some?
    ensures var begun := CashStatused(v, RunStatus.Posting, None, io.status);
            after == begun.(process := begun.process.(
                              pc := if io.survives then Paying(Due(env, v.process.ch), 0, [], [])
                                    else CashCrashed(ApplyingCash)))
  {
    hide CashInv, CashChanged, SetStatus, CashMove, PaymentsOf, Rounded;
    HasRemittance(env, v);
    CashUnfinished(env, v);
    CashDoStatus(env, w, w, run, v, RunStatus.Posting, io.status);
    var w1, v1 := SetStatus(w, run, RunStatus.Posting, None, io.status),
        CashStatused(v, RunStatus.Posting, None, io.status);
    var payments := Rounded(PaymentsOf(env.text, v.process.ch.remittance.value, v.process.ch.items));
    var next := if io.survives then Paying(payments, 0, [], []) else CashCrashed(ApplyingCash);
    BegunProgress(env, v1);
    CashMoveEffect(w, w1, run, v1, next);
    CashMoveInv(env, v1, next);
    after := v1.(process := v1.process.(pc := next));
  }

  /** One attempt at a cash call creates no document, makes no application or the one the ERP answers with, and
      reports success only with that. */
  lemma PaymentEffect(l: Ledger, payment: Payment, delivery: Delivery, last: bool) returns (made: seq<Application>)
    ensures var (after, outcome) := Attempt(l, CashCall(payment.item.id, payment.amount), delivery, last);
            && after.archive == l.archive && after.cashbook == l.cashbook + made && |made| <= 1
            && (made != [] ==> Answers(made[0], payment))
            && (outcome.None? ==> !last)
            && (outcome.Some? && outcome.value.Success? ==> outcome.value.answer.ApplicationAnswer?
                                                            && made == [outcome.value.answer.application])
  {
    var (after, outcome) := Attempt(l, CashCall(payment.item.id, payment.amount), delivery, last);
    var reply := ApplyCash(l, payment.item.id, payment.amount).1;
    made := if after.cashbook == l.cashbook then [] else [reply.application];
  }

  lemma PayKeeps(env: Env, w: World, run: RunId, v: CashView, delivery: Delivery) returns (after: CashView)
    requires CashGood(env, w, w, run, v) && v.process.pc.Paying? && v.process.pc.left != []
    ensures CashGood(env, w, PayStep(w, run, delivery), run, after)
    ensures after.row.straightThrough == v.row.straightThrough
  {
    hide CashInv, CashChanged, Attempt, Numbered, Answers;
    HasRemittance(env, v);
    var pc := v.process.pc;
    var last := pc.attempt == MAX_ATTEMPTS - 1;
    var call := CashCall(pc.left[0].item.id, pc.left[0].amount);
    var (ledger, outcome) := Attempt(w.ledger, call, delivery, last);
    var made := PaymentEffect(w.ledger, pc.left[0], delivery, last);
    MadeNow(w, run, v, ledger, made);
    var w1 := Charged(w, run, ledger);
    CashMoveEffect(w, w1, run, v.(made := v.made + made), PaidPc(pc, outcome));
    PaidInv(env, v, made, outcome);
    after := v.(made := v.made + made, process := v.process.(pc := PaidPc(pc, outcome)));
  }

  /** The ledger after an attempt, and whoever paid for what it made. */
  function Charged(w: World, run: RunId, ledger: Ledger): World {
    w.(ledger := ledger,
       payers := if |ledger.cashbook| > |w.ledger.cashbook| then w.payers[|w.ledger.cashbook| := run] else w.payers)
  }

  lemma MadeNow(w: World, run: RunId, v: CashView, ledger: Ledger, made: seq<Application>)
    requires CashNow(w, w, run, v) && ledger.archive == w.ledger.archive
    requires |made| <= 1 && ledger.cashbook == w.ledger.cashbook + made
    ensures CashNow(w, Charged(w, run, ledger), run, v.(made := v.made + made))
  {
    hide Keys, Reports, JournalsOf, DocumentsOf, RemittancesOf, MadeBy, Trail, Numbered;
    if made == [] {
      LedgerEffect(w, ledger);
      assert v.made + made == v.made;
    } else {
      assert made == [made[0]];
      CashMadeEffect(w, run, ledger, made[0]);
    }
    CashCompose(w, w, run, v, Charged(w, run, ledger), v.(made := v.made + made));
  }

  lemma CloseCashKeeps(env: Env, w: World, run: RunId, v: CashView, io: Io) returns (after: CashView)
    requires CashGood(env, w, w, run, v) && v.process.pc.Paying? && v.process.pc.left == []
    ensures v.process.ch.remittance.Some?
    ensures CashGood(env, w, CloseCashStep(env, w, run, v.process.pc.applied, v.process.pc.failures, io), run, after)
    ensures var pc, ch := v.process.pc, v.process.ch;
            var unresolved := UnresolvedOf(env.text, ch.remittance.value, ch.items, env.cfg.remittanceToleranceAbs);
            var clean := pc.applied != [] && unresolved == [] && pc.failures == [];
            var row := RemittanceRow(run, clean, pc.applied, ResidualOf(env.text, ch.remittance.value, ch.items));
            after == CashLeft(
              CashStatused(CashLogged(v.(remittances := v.remittances + {row}), run, CashApplied, io.audit),
                           if pc.applied != [] then Completed else AwaitingApproval, Some(clean), io.final),
              ApplyingCash, ch, CashEnded, io)
  {
    hide CashInv, CashChanged, SetStatus, CashLog, CashLeave, AddRemittance, AddCase, UnresolvedOf, ResidualOf, Stored;
    HasRemittance(env, v);
    var pc := v.process.pc;
    var result := CashOutcome(env, w, v.process.ch, pc.applied, pc.failures);
    var row := RemittanceRow(run, result.straightThrough, pc.applied, result.residual);
    AddRemittanceEffect(w, w, run, v, row);
    var w1, v1 := AddRemittance(w, row), v.(remittances := v.remittances + {row});
    OutcomeStored(env, w, v);
    RemittanceInv(env, v, row);
    CashCaseEffect(w, w1, run, v1, CaseRow(run, OpenCase));
    var w2 := if result.unresolved != [] && io.Saves() then AddCase(w1, CaseRow(run, OpenCase)) else w1;
    CashDoLog(env, w, w2, run, v1, CashApplied, io.audit);
    var w3, v3 := CashLog(w2, run, CashApplied, io.audit), CashLogged(v1, run, CashApplied, io.audit);
    var status := if result.completed then Completed else AwaitingApproval;
    CashStatusEffect(w, w3, run, v3, status, Some(result.straightThrough), io.final);
    var w4 := SetStatus(w3, run, status, Some(result.straightThrough), io.final);
    var v4 := CashStatused(v3, status, Some(result.straightThrough), io.final);
    CashLeaveEffect(w, w4, run, v4, ApplyingCash, v.process.ch, CashEnded, io);
    CashCloseInv(env, v3, row, result.completed, io);
    after := CashLeft(v4, ApplyingCash, v.process.ch, CashEnded, io);
  }

  /** The outcome a run closes with says applied only when all that was due is answered and nothing is unresolved. */
  lemma OutcomeStored(env: Env, w: World, v: CashView)
    requires Progress(env, v) && v.process.pc.Paying? && v.process.pc.left == [] && v.process.ch.remittance.Some?
    ensures var pc := v.process.pc;
            var result := CashOutcome(env, w, v.process.ch, pc.applied, pc.failures);
            forall run :: Stored(env, v.process.ch, v.made,
                                 RemittanceRow(run, result.straightThrough, pc.applied, result.residual))
  {
    hide Subsequence, Settles, UnresolvedOf, ResidualOf, Due;
  }

  lemma RemittanceInv(env: Env, v: CashView, row: RemittanceRow)
    requires CashInv(env, v) && v.process.pc.Paying? && Stored(env, v.process.ch, v.made, row)
    ensures CashInv(env, v.(remittances := v.remittances + {row}))
  {
    hide Subsequence, Numbered, Stored;
  }

  lemma FailCashKeeps(env: Env, w: World, run: RunId, v: CashView, io: Io) returns (after: CashView)
    requires CashGood(env, w, w, run, v) && v.process.pc == CashAt(FailedCash)
    ensures CashGood(env, w, FailCashStep(w, run, io), run, after)
    ensures after.row.straightThrough == v.row.straightThrough
    ensures after == CashLeft(CashStatused(v, Failed, None, io.status), FailedCash, v.process.ch.(error := true),
                              CashEnded, io)
  {
    hide CashInv, CashChanged, SetStatus, CashLeave;
    CashStatusEffect(w, w, run, v, Failed, None, io.status);
    var w1, v1 := SetStatus(w, run, Failed, None, io.status), CashStatused(v, Failed, None, io.status);
    CashFailInv(env, v, io);
    CashLeaveEffect(w, w1, run, v1, FailedCash, v.process.ch.(error := true), CashEnded, io);
    after := CashLeft(v1, FailedCash, v.process.ch.(error := true), CashEnded, io);
  }

  lemma CashMoveKeeps(env: Env, w: World, run: RunId, v: CashView, next: CashPc) returns (after: CashView)
    requires CashGood(env, w, w, run, v) && (next.CashAt? || next.CashCrashed?)
    requires CashNodeOf(next) == CashNodeOf(v.process.pc) && (Terminal(v.row.status) ==> next.CashCrashed?)
    ensures CashGood(env, w, CashMove(w, run, next), run, after)
    ensures after.row.straightThrough == v.row.straightThrough
    ensures after == v.(process := v.process.(pc := next))
  {
    hide CashInv, CashChanged;
    CashMoveEffect(w, w, run, v, next);
    CashMoveInv(env, v, next);
    after := v.(process := v.process.(pc := next));
  }
}
