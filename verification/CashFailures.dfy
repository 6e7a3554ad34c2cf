/** The same for a receivable run: after an unreadable document, a failed extraction or a failed lookup of the open
    items no cash is ever applied for it. */
module CashFailures {
  import opened Prelude
  import opened Schemas
  import opened Journal
  import opened MockErp
  import opened Client
  import opened Remittances
  import opened Receivable
  import opened Repository
  import opened Workflow
  import opened Views
  import opened CashInvariant
  import opened WorkflowInvariant
  import opened Lifecycle

  /** There is something to look up for the run's remittance: a customer printed or resolved, or a number advised. */
  predicate Asks(remittance: Remittance, named: Option<string>) {
    || (remittance.customerId.Some? && remittance.customerId.value != "")
    || (remittance.customerName.Some? && remittance.customerName.value != "" && named.Some? && named.value != "")
    || exists advice :: advice in remittance.advices && advice.invoiceNumber.Some? && advice.invoiceNumber.value != ""
  }

  /** The document cannot be parsed, nothing can be extracted from it, or the ERP fails a lookup of its items, and the
      process lives to say so. */
  predicate CashFails(w: World, e: Event, run: RunId) {
    match e
    case DoParseCash(r, readable, io) => r == run && !readable && io.survives
    case DoExtractCash(r, found, io) => r == run && found.None? && io.survives
    case DoFetchCash(r, named, fails, io) =>
      && r == run && fails && io.survives && run in w.cash && w.cash[run].ch.remittance.Some?
      && Asks(w.cash[run].ch.remittance.value, named)
    case _ => false
  }

  /** In error and with nothing to pay, not completed. */
  predicate InCashError(w: World, run: RunId) {
    && run in w.cash && run in w.tables.runs
    && var p, row := w.cash[run], w.tables.runs[run];
    && p.ch.error && RunFailed in p.emitted && row.status != Completed && !row.straightThrough
    && (|| CashNodeOf(p.pc) == Some(FailedCash) || p.pc.CashEnded?
        || (CashNodeOf(p.pc) == Some(ApplyingCash) && p.ch.items == [] &&
            (p.pc.Paying? ==> p.pc.left == [] && p.pc.applied == [])))
  }

  /** None of the applications from position n on was made for the run. */
  predicate Unpaid(w: World, run: RunId, n: nat) {
    forall i :: i in w.payers && i >= n ==> w.payers[i] != run
  }

  // The effects

  lemma RowDoes(w: World, run: RunId, status: RunStatus, straightThrough: Option<bool>, lands: bool)
    requires run in w.tables.runs
    ensures var after := SetStatus(w, run, status, straightThrough, lands);
            && after.cash == w.cash && run in after.tables.runs
            && after.tables.runs[run].status == (if lands then status else w.tables.runs[run].status)
            && after.tables.runs[run].straightThrough
               == (if lands && straightThrough.Some? then straightThrough.value else w.tables.runs[run].straightThrough)
  {
  }

  lemma CashLogDoes(w: World, run: RunId, action: Action, lands: bool)
    requires run in w.cash
    ensures var after := CashLog(w, run, action, lands);
            && after.tables.runs == w.tables.runs && run in after.cash
            && after.cash[run] == w.cash[run].(emitted := w.cash[run].emitted + [action])
  {
    hide MaxSequence;
  }

  lemma CashLeaveDoes(w: World, run: RunId, node: CashNode, ch: CashChannel, next: CashPc, io: Io)
    requires run in w.cash
    ensures var after, p := CashLeave(w, run, node, ch, next, io), w.cash[run];
            && after.tables == w.tables && run in after.cash
            && after.cash[run] == if io.survives then p.(ch := ch, pc := next) else p.(pc := CashCrashed(node))
  {
  }

  lemma ParseCashInError(w: World, run: RunId, io: Io)
    requires run in w.cash && run in w.tables.runs && io.survives
    requires w.tables.runs[run].status != Completed && !w.tables.runs[run].straightThrough
    ensures InCashError(ParseCashStep(w, run, false, io), run)
  {
    hide SetStatus, CashLog, CashLeave;
    var w1 := SetStatus(w, run, Parsing, None, io.status);
    RowDoes(w, run, Parsing, None, io.status);
    CashLogDoes(w1, run, RunFailed, io.audit);
    CashLeaveDoes(CashLog(w1, run, RunFailed, io.audit), run, ParseCash, w.cash[run].ch.(error := true),
                  CashAt(FailedCash), io);
  }

  lemma ExtractCashInError(w: World, run: RunId, io: Io)
    requires run in w.cash && run in w.tables.runs && io.survives
    requires w.tables.runs[run].status != Completed && !w.tables.runs[run].straightThrough
    ensures InCashError(ExtractCashStep(w, run, None, io), run)
  {
    hide SetStatus, CashLog, CashLeave;
    var w1 := SetStatus(w, run, Extracting, None, io.status);
    RowDoes(w, run, Extracting, None, io.status);
    CashLogDoes(w1, run, RunFailed, io.audit);
    CashLeaveDoes(CashLog(w1, run, RunFailed, io.audit), run, ExtractCash, w.cash[run].ch.(error := true),
                  CashAt(FailedCash), io);
  }

  lemma FetchCashInError(w: World, run: RunId, named: Option<string>, io: Io)
    requires run in w.cash && run in w.tables.runs && io.survives && w.cash[run].ch.remittance.Some?
    requires w.tables.runs[run].status != Completed && !w.tables.runs[run].straightThrough
    requires Asks(w.cash[run].ch.remittance.value, named)
    ensures InCashError(FetchCashStep(w, run, named, true, io), run)
  {
    hide CashLog, CashLeave, FetchOutcome;
    var ch := w.cash[run].ch;
    FetchExactly(ch.remittance.value, named, true, w.ledger.items);
    CashLogDoes(w, run, RunFailed, io.audit);
    CashLeaveDoes(CashLog(w, run, RunFailed, io.audit), run, FetchCash, ch.(items := [], error := true),
                  CashAt(ApplyingCash), io);
  }

  // Staying in error

  lemma {:induction false} NothingToPay(text: Text, advices: seq<Advice>)
    ensures Payments(text, advices, map[]) == []
  {
    if advices != [] {
      NothingToPay(text, advices[..|advices| - 1]);
    }
  }

  lemma BeginsWithNothing(env: Env, w: World, run: RunId, io: Io)
    requires InCashError(w, run) && w.cash[run].pc == CashAt(ApplyingCash)
    ensures InCashError(BeginCashStep(env, w, run, io), run)
  {
    hide SetStatus, CashLeave, Payments;
    var ch := w.cash[run].ch;
    RowDoes(w, run, RunStatus.Posting, None, io.status);
    if ch.remittance.None? {
      CashLeaveDoes(SetStatus(w, run, RunStatus.Posting, None, io.status), run, ApplyingCash, ch, CashEnded, io);
    } else {
      NothingToPay(env.text, ch.remittance.value.advices);
    }
  }

  lemma ClosesWithNothing(env: Env, w: World, run: RunId, failures: seq<Unresolved>, io: Io)
    requires InCashError(w, run) && w.cash[run].pc.Paying? && w.cash[run].ch.remittance.Some?
    ensures InCashError(CloseCashStep(env, w, run, [], failures, io), run)
  {
    hide SetStatus, CashLog, CashLeave, UnresolvedOf, ResidualOf;
    var ch := w.cash[run].ch;
    var result := CashOutcome(env, w, ch, [], failures);
    var w1 := AddRemittance(w, RemittanceRow(run, result.straightThrough, result.applied, result.residual));
    var w2 := if result.unresolved != [] && io.Saves() then AddCase(w1, CaseRow(run, OpenCase)) else w1;
    CashLogDoes(w2, run, CashApplied, io.audit);
    var w3 := CashLog(w2, run, CashApplied, io.audit);
    RowDoes(w3, run, AwaitingApproval, Some(false), io.final);
    CashLeaveDoes(SetStatus(w3, run, AwaitingApproval, Some(false), io.final), run, ApplyingCash, ch, CashEnded, io);
  }

  lemma EndsFailed(w: World, run: RunId, io: Io)
    requires InCashError(w, run) && w.cash[run].pc == CashAt(FailedCash)
    ensures InCashError(FailCashStep(w, run, io), run)
  {
    hide SetStatus, CashLeave;
    RowDoes(w, run, Failed, None, io.status);
    CashLeaveDoes(SetStatus(w, run, Failed, None, io.status), run, FailedCash, w.cash[run].ch.(error := true),
                  CashEnded, io);
  }

  lemma MovesInError(w: World, run: RunId, pc: CashPc)
    requires InCashError(w, run) && w.cash[run].pc == pc
    ensures pc.CashAt? || pc.Paying? ==>
              CashNodeOf(pc).Some? && InCashError(CashMove(w, run, CashCrashed(CashNodeOf(pc).value)), run)
    ensures pc.CashCrashed? ==> InCashError(CashMove(w, run, CashAt(pc.node)), run)
  {
  }

  lemma WhereInCashError(w: World, run: RunId)
    requires InCashError(w, run)
    ensures run in w.cash && run in w.tables.runs
    ensures var pc := w.cash[run].pc;
            && (CashNodeOf(pc) == Some(FailedCash) || CashNodeOf(pc) == Some(ApplyingCash) || pc.CashEnded?)
            && (pc.Paying? ==> pc.left == [] && pc.applied == [])
  {
  }

  lemma OwnCashStays(env: Env, w: World, e: Event, run: RunId)
    requires CashRunOf(e) == Some(run) && run in w.cash && CashAwaits(w.cash[run], e) && InCashError(w, run)
    ensures InCashError(CashStep(env, w, e), run) && !e.Pay?
  {
    hide InCashError, CashMove, ParseCashStep, ExtractCashStep, FetchCashStep, BeginCashStep, PayStep, CloseCashStep,
      FailCashStep;
    WhereInCashError(w, run);
    if e.BeginCash? {
      BeginsWithNothing(env, w, run, e.io);
    } else if e.CloseCash? {
      ClosesWithNothing(env, w, run, w.cash[run].pc.failures, e.io);
    } else if e.DoFailCash? {
      EndsFailed(w, run, e.io);
    } else {
      MovesInError(w, run, w.cash[run].pc);
    }
  }

  /** Only a run's own payments are applications for it. */
  lemma StaysUnpaid(env: Env, w: World, e: Event, run: RunId, n: nat)
    requires Unpaid(w, run, n) && !(CashRunOf(e) == Some(run) && Enabled(w, e) && e.Pay?)
    ensures Unpaid(Step(env, w, e), run, n)
  {
    hide RunStep, CashStep, Do, Awaits, CashAwaits, MaxSequence;
    if Enabled(w, e) {
      if RunOf(e).Some? {
        PayersStay(env, w, e);
      } else if CashRunOf(e).Some? {
        OtherPays(env, w, e, run, n);
      }
    }
  }

  lemma SentUnpaid(w: World, run: RunId, entry: JournalEntry, k: nat, delivery: Delivery)
    requires run in w.procs
    ensures SendStep(w, run, entry, k, delivery).payers == w.payers
  {
    hide Attempt;
  }

  lemma PayersStay(env: Env, w: World, e: Event)
    requires RunOf(e).Some? && e.run in w.procs && Awaits(w.procs[e.run].pc, e)
    ensures RunStep(env, w, e).payers == w.payers
  {
    hide ParseStep, ExtractStep, PersistStep, DuplicateStep, VendorStep, FetchPoStep, MatchStep, RaiseStep, ResumeStep,
      BeginPostStep, SendStep, RecordStep, RejectStep, FailStep;
    if e.Send? {
      SentUnpaid(w, e.run, w.procs[e.run].pc.entry, w.procs[e.run].pc.attempt, e.delivery);
    }
  }

  lemma OtherPays(env: Env, w: World, e: Event, run: RunId, n: nat)
    requires Unpaid(w, run, n) && CashRunOf(e).Some? && e.run in w.cash && CashAwaits(w.cash[e.run], e)
    requires e.Pay? ==> e.run != run
    ensures Unpaid(CashStep(env, w, e), run, n)
  {
    hide Attempt, ParseCashStep, ExtractCashStep, FetchCashStep, BeginCashStep, CloseCashStep, FailCashStep;
  }

  lemma SameInCashError(w: World, after: World, run: RunId)
    requires InCashError(w, run) && SameRecord(w, after, run)
    ensures InCashError(after, run)
  {
  }

  lemma PayableApart(w: World, e: Event, run: RunId)
    requires Known(w) && run in w.cash
    ensures RunOf(e) == Some(run) ==> !Enabled(w, e)
  {
  }

  lemma StaysInCashError(env: Env, w: World, e: Event, run: RunId, n: nat)
    requires Inv(env, w) && InCashError(w, run) && Unpaid(w, run, n)
    ensures InCashError(Step(env, w, e), run) && Unpaid(Step(env, w, e), run, n)
  {
    hide EachRun, EachCash, LedgerInv, Exclusive, OneJournalEach, CashStep, RunStep, Awaits, CashAwaits, InCashError,
      Unpaid, Do;
    WhereInCashError(w, run);
    if CashRunOf(e) == Some(run) && Enabled(w, e) {
      OwnCashStays(env, w, e, run);
    } else {
      PayableApart(w, e, run);
      StepFrame(env, w, e, run);
      SameInCashError(w, Step(env, w, e), run);
    }
    StaysUnpaid(env, w, e, run, n);
  }

  lemma {:induction false} InCashErrorForEver(env: Env, events: seq<Event>, more: seq<Event>, run: RunId, n: nat)
    requires ValidSeed(env.seed)
    requires InCashError(Execute(env, events), run) && Unpaid(Execute(env, events), run, n)
    ensures InCashError(Execute(env, events + more), run) && Unpaid(Execute(env, events + more), run, n)
  {
    hide Execute, Step, Inv, ValidSeed, InCashError, Unpaid;
    if more == [] {
      assert events + more == events;
    } else {
      var before := more[..|more| - 1];
      InCashErrorForEver(env, events, before, run, n);
      ExecuteMore(env, events, more);
      AlwaysValid(env, events + before);
      StaysInCashError(env, Execute(env, events + before), more[|more| - 1], run, n);
    }
  }

  lemma FallsInCashError(env: Env, w: World, e: Event, run: RunId)
    requires Inv(env, w) && Enabled(w, e) && CashFails(w, e, run)
    ensures InCashError(Step(env, w, e), run) && Unpaid(Step(env, w, e), run, |w.ledger.cashbook|)
  {
    hide EachRun, EachCash, LedgerInv, Exclusive, OneJournalEach, CashInv, InCashError, ParseCashStep, ExtractCashStep,
      FetchCashStep, BeginCashStep, PayStep, CloseCashStep, FailCashStep, RunStep;
    OpenCashHere(env, w, run);
    CashOpenRow(env, CashViewOf(w, run));
    if e.DoParseCash? {
      ParseCashInError(w, run, e.io);
    } else if e.DoExtractCash? {
      ExtractCashInError(w, run, e.io);
    } else {
      FetchCashInError(w, run, e.named, e.io);
    }
  }

  lemma CashOpenRow(env: Env, v: CashView)
    requires CashInv(env, v) && v.process.pc.CashAt?
    ensures v.row.status != Completed && !v.row.straightThrough
  {
  }

  /** A remittance that cannot be read or extracted, or whose items the ERP fails to list, brings in nothing: whatever
      follows, no application is made for its run, it carries the error, and its row says neither completed nor straight
      through. */
  lemma CashErrorsNeverPay(env: Env, events: seq<Event>, e: Event, more: seq<Event>, run: RunId)
    requires ValidSeed(env.seed)
    requires Enabled(Execute(env, events), e) && CashFails(Execute(env, events), e, run)
    ensures var before, after := Execute(env, events), Execute(env, events + [e] + more);
            && run in after.cash && run in after.tables.runs
            && after.cash[run].ch.error && RunFailed in after.cash[run].emitted
            && after.tables.runs[run].status != Completed && !after.tables.runs[run].straightThrough
            && (forall i :: i in after.payers && i >= |before.ledger.cashbook| ==> after.payers[i] != run)
            && (after.cash[run].pc.Paying? ==> after.cash[run].pc.left == [])
  {
    hide Execute, Step, Inv, ValidSeed, Enabled, CashFails;
    var w := Execute(env, events);
    AlwaysValid(env, events);
    ExecuteMore(env, events, [e]);
    assert events + [e][..0] == events;
    FallsInCashError(env, w, e, run);
    InCashErrorForEver(env, events + [e], more, run, |w.ledger.cashbook|);
  }
}
