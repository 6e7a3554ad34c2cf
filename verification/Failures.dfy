/** What an error ends: from an unreadable document, a failed extraction or a failed order lookup a run never comes to
    be decided or posted, in whatever continuation. */
module Failures {
  import opened Prelude
  import opened Schemas
  import opened Journal
  import opened MockErp
  import opened Client
  import opened Decide
  import R = Reports
  import opened Repository
  import opened Workflow
  import opened Views
  import opened RunInvariant
  import opened StepInvariant
  import opened WorkflowInvariant
  import opened Guarantees
  import opened Lifecycle

  /** The run's order lookup is about an order number that was printed. */
  predicate HasOrderNumber(w: World, run: RunId) {
    && run in w.procs && w.procs[run].ch.invoice.Some?
    && var number := w.procs[run].ch.invoice.value.purchaseOrderNumber;
       number.Some? && number.value != ""
  }

  /** The document cannot be parsed, nothing can be extracted from it, or the ERP fails the lookup of its order, and the
      process lives to say so. */
  predicate Fails(w: World, e: Event, run: RunId) {
    match e
    case DoParse(r, readable, io) => r == run && !readable && io.survives
    case DoExtract(r, result, io) => r == run && result.None? && io.survives
    case DoFetchPo(r, reply, io) => r == run && reply.PoUnavailable? && io.survives && HasOrderNumber(w, run)
    case _ => false
  }

  /** In error, at the match node or the failed node or over, neither completed nor rejected. */
  predicate InError(w: World, run: RunId) {
    && run in w.procs && run in w.tables.runs
    && var p, status := w.procs[run], w.tables.runs[run].status;
    && p.ch.error && RunFailed in p.emitted && status != Completed && status != Rejected
    && (NodeOf(p.pc) == Some(MatchingNode) || NodeOf(p.pc) == Some(FailedNode) || p.pc.Ended?)
    && (p.ch.report.Some? ==> NodeOf(p.pc) != Some(MatchingNode))
  }

  /** No document was created for the run, and no journal of it is recorded as posted. */
  predicate Unposted(w: World, run: RunId) {
    && (forall i :: i in w.owners ==> w.owners[i] != run)
    && (forall row :: row in w.tables.journals && row.posted ==> row.run != run)
  }

  lemma StatusDoes(w: World, run: RunId, status: RunStatus, lands: bool)
    requires run in w.tables.runs
    ensures var after := SetStatus(w, run, status, None, lands);
            && after.procs == w.procs && run in after.tables.runs
            && after.tables.runs[run].status == if lands then status else w.tables.runs[run].status
  {
  }

  lemma LogDoes(w: World, run: RunId, action: Action, lands: bool)
    requires run in w.procs
    ensures var after := Log(w, run, action, lands);
            && after.tables.runs == w.tables.runs && run in after.procs
            && after.procs[run] == w.procs[run].(emitted := w.procs[run].emitted + [action])
  {
    hide MaxSequence;
  }

  lemma LeaveDoes(w: World, run: RunId, node: Node, ch: Channel, next: Pc, io: Io)
    requires run in w.procs
    ensures var after, p := Leave(w, run, node, ch, next, io), w.procs[run];
            && after.tables == w.tables && run in after.procs
            && after.procs[run] == if io.survives then p.(ch := ch, pc := next, completed := p.completed + 1)
                                   else p.(pc := Crashed(node))
  {
  }

  lemma ParseInError(w: World, run: RunId, io: Io)
    requires run in w.procs && run in w.tables.runs && io.survives && w.procs[run].ch.report.None?
    requires w.tables.runs[run].status != Completed && w.tables.runs[run].status != Rejected
    ensures InError(ParseStep(w, run, false, io), run)
  {
    hide SetStatus, Log, Leave;
    var w1 := SetStatus(w, run, Parsing, None, io.status);
    var w2 := Log(w1, run, RunFailed, io.audit);
    StatusDoes(w, run, Parsing, io.status);
    LogDoes(w1, run, RunFailed, io.audit);
    LeaveDoes(w2, run, ParseNode, w.procs[run].ch.(error := true), At(FailedNode), io);
  }

  lemma ExtractInError(w: World, run: RunId, io: Io)
    requires run in w.procs && run in w.tables.runs && io.survives && w.procs[run].ch.report.None?
    requires w.tables.runs[run].status != Completed && w.tables.runs[run].status != Rejected
    ensures InError(ExtractStep(w, run, None, io), run)
  {
    hide SetStatus, Log, Leave;
    var w1 := SetStatus(w, run, Extracting, None, io.status);
    var w2 := Log(w1, run, RunFailed, io.audit);
    StatusDoes(w, run, Extracting, io.status);
    LogDoes(w1, run, RunFailed, io.audit);
    LeaveDoes(w2, run, ExtractNode, w.procs[run].ch.(error := true), At(FailedNode), io);
  }

  lemma FetchInError(w: World, run: RunId, io: Io)
    requires HasOrderNumber(w, run) && run in w.tables.runs && io.survives && w.procs[run].ch.report.None?
    requires w.tables.runs[run].status != Completed && w.tables.runs[run].status != Rejected
    ensures InError(FetchPoStep(w, run, PoUnavailable, io), run)
  {
    hide SetStatus, Log, Leave;
    var w1 := Log(w, run, RunFailed, io.audit);
    LogDoes(w, run, RunFailed, io.audit);
    LeaveDoes(w1, run, FetchPoNode, w.procs[run].ch.(order := None, receipts := [], error := true), At(MatchingNode),
              io);
  }

  lemma StartsInError(env: Env, w: World, e: Event, run: RunId)
    requires Enabled(w, e) && Fails(w, e, run) && w.procs[run].ch.report.None?
    requires run in w.tables.runs && w.tables.runs[run].status != Completed && w.tables.runs[run].status != Rejected
    ensures InError(Step(env, w, e), run)
  {
    hide ParseStep, ExtractStep, FetchPoStep, CashStep, MatchStep, ResumeStep, BeginPostStep, SendStep, RecordStep;
    if e.DoParse? {
      ParseInError(w, run, e.io);
    } else if e.DoExtract? {
      ExtractInError(w, run, e.io);
    } else {
      FetchInError(w, run, e.io);
    }
  }

  lemma WhereInError(w: World, run: RunId)
    requires InError(w, run)
    ensures run in w.procs
    ensures var node := NodeOf(w.procs[run].pc);
            node == Some(MatchingNode) || node == Some(FailedNode) || w.procs[run].pc.Ended?
  {
  }

  lemma RunInError(env: Env, w: World, e: Event, run: RunId)
    requires RunOf(e) == Some(run) && run in w.procs && Awaits(w.procs[run].pc, e) && InError(w, run)
    ensures InError(RunStep(env, w, e), run)
    ensures !e.Send? && !e.Record? && !e.DoRaise? && !e.Resume?
    ensures e.DoMatch? && e.io.survives ==> RunStep(env, w, e).procs[run].pc == At(FailedNode)
  {
    hide InError, Move, MatchStep, FailStep, ParseStep, ExtractStep, PersistStep, DuplicateStep, VendorStep,
      FetchPoStep, RaiseStep, ResumeStep, BeginPostStep, SendStep, RecordStep, RejectStep;
    WhereInError(w, run);
    if e.DoMatch? {
      MatchedInError(env, w, run, e.io);
    } else if e.DoFail? {
      FailedInError(w, run, e.io);
    } else {
      MovedInError(w, run, w.procs[run].pc);
    }
  }

  /** Its own events leave it so. */
  lemma OwnStaysInError(env: Env, w: World, e: Event, run: RunId)
    requires Enabled(w, e) && RunOf(e) == Some(run) && InError(w, run)
    ensures InError(Step(env, w, e), run)
    ensures !e.Send? && !e.Record? && !e.DoRaise? && !e.Resume?
    ensures e.DoMatch? && e.io.survives ==> Step(env, w, e).procs[run].pc == At(FailedNode)
  {
    hide RunStep, CashStep, InError, Awaits;
    RunInError(env, w, e, run);
  }

  /** Dying, or being driven again. */
  lemma MovedInError(w: World, run: RunId, pc: Pc)
    requires run in w.procs && w.procs[run].pc == pc && InError(w, run)
    ensures (pc.At? || pc.Sending? || pc.Sent?) && NodeOf(pc).Some? ==>
              InError(Move(w, run, Crashed(NodeOf(pc).value)), run)
    ensures pc.Crashed? ==> InError(Move(w, run, At(pc.node)), run)
  {
  }

  lemma MatchedInError(env: Env, w: World, run: RunId, io: Io)
    requires run in w.procs && w.procs[run].pc == At(MatchingNode) && InError(w, run)
    ensures var after := MatchStep(env, w, run, io);
            && InError(after, run)
            && (io.survives ==> after.procs[run].pc == At(FailedNode))
  {
    hide SetStatus, Log, Leave, NodeReport;
    var w1, ch := SetStatus(w, run, RunStatus.Matching, None, io.status), w.procs[run].ch;
    StatusDoes(w, run, RunStatus.Matching, io.status);
    if ch.invoice.None? {
      LeaveDoes(w1, run, MatchingNode, ch, At(FailedNode), io);
    } else {
      var report := ReportOf(env, ch);
      var w2 := if io.Saves() then AddMatch(w1, MatchRow(run, report)) else w1;
      var w3 := Log(w2, run, MatchEvaluated, io.Saves() && io.audit);
      LogDoes(w2, run, MatchEvaluated, io.Saves() && io.audit);
      LeaveDoes(w3, run, MatchingNode, ch.(report := Some(report)), At(FailedNode), io);
    }
  }

  lemma FailedInError(w: World, run: RunId, io: Io)
    requires run in w.procs && w.procs[run].pc == At(FailedNode) && InError(w, run)
    ensures InError(FailStep(w, run, io), run)
  {
    hide MaxSequence;
  }

  /** Only a run's own sending books documents for it, and only its own recording stores its journal. */
  lemma StaysUnposted(env: Env, w: World, e: Event, run: RunId)
    requires Unposted(w, run) && !(RunOf(e) == Some(run) && Enabled(w, e) && (e.Send? || e.Record?))
    ensures Unposted(Step(env, w, e), run)
  {
    hide RunStep, CashStep, Do, Awaits, CashAwaits, MaxSequence;
    OnlyPostingPosts(env, w, e);
    if Enabled(w, e) {
      if RunOf(e).Some? {
        RunStaysUnposted(env, w, e, run);
      } else if CashRunOf(e).Some? {
        CashKeepsOwners(env, w, e);
      }
    }
  }

  lemma RunStaysUnposted(env: Env, w: World, e: Event, run: RunId)
    requires Unposted(w, run) && RunOf(e).Some? && e.run in w.procs && Awaits(w.procs[e.run].pc, e)
    requires e.run != run || (!e.Send? && !e.Record?)
    ensures Unposted(RunStep(env, w, e), run)
  {
    OnlyPostingRuns(env, w, e);
    if e.Send? {
      SentUnposted(w, e.run, w.procs[e.run].pc.entry, w.procs[e.run].pc.attempt, e.delivery, run);
    } else if e.Record? {
      RecordedUnposted(env, w, e.run, w.procs[e.run].pc.posting, e.io, run);
    } else {
      OwnersStay(env, w, e);
    }
  }

  lemma SentUnposted(w: World, r: RunId, entry: JournalEntry, k: nat, delivery: Delivery, run: RunId)
    requires Unposted(w, run) && r in w.procs && r != run
    ensures Unposted(SendStep(w, r, entry, k, delivery), run)
  {
    hide Attempt;
  }

  lemma RecordedUnposted(env: Env, w: World, r: RunId, posting: Posting, io: Io, run: RunId)
    requires Unposted(w, run) && r in w.procs && r != run
    ensures Unposted(RecordStep(env, w, r, posting, io), run)
  {
    hide RecordStep;
  }

  lemma OwnersStay(env: Env, w: World, e: Event)
    requires RunOf(e).Some? && e.run in w.procs && Awaits(w.procs[e.run].pc, e) && !e.Send? && !e.Record?
    ensures RunStep(env, w, e).owners == w.owners
  {
    hide ParseStep, ExtractStep, PersistStep, DuplicateStep, VendorStep, FetchPoStep, MatchStep, RaiseStep, ResumeStep,
      BeginPostStep, SendStep, RecordStep, RejectStep, FailStep;
  }

  lemma CashKeepsOwners(env: Env, w: World, e: Event)
    requires CashRunOf(e).Some? && e.run in w.cash && CashAwaits(w.cash[e.run], e)
    ensures CashStep(env, w, e).owners == w.owners && CashStep(env, w, e).tables.journals == w.tables.journals
  {
    hide ParseCashStep, ExtractCashStep, FetchCashStep, BeginCashStep, CloseCashStep, FailCashStep, Attempt;
  }

  /** The cases filed since are other runs'. */
  predicate NotAsked(w: World, after: World, run: RunId) {
    && |w.tables.cases| <= |after.tables.cases|
    && forall k :: |w.tables.cases| <= k < |after.tables.cases| ==> after.tables.cases[k].run != run
  }

  lemma NotAskedTwice(w0: World, w: World, after: World, run: RunId)
    requires NotAsked(w0, w, run) && NotAsked(w, after, run) && w.tables.cases <= after.tables.cases
    ensures NotAsked(w0, after, run)
  {
  }

  lemma NothingAsked(env: Env, w: World, e: Event, run: RunId)
    requires RunOf(e) == Some(run) && Enabled(w, e) ==> !e.DoRaise? && !e.Resume? && !e.Record?
    requires run !in w.cash
    ensures NotAsked(w, Step(env, w, e), run)
  {
    hide Step, Awaits, CashAwaits;
    FiledExactly(env, w, e);
  }

  /** What an error leaves of a run, now and for ever. */
  ghost predicate Doomed(w0: World, w: World, run: RunId) {
    InError(w, run) && Unposted(w, run) && NotAsked(w0, w, run)
  }

  lemma SameInError(w: World, after: World, run: RunId)
    requires InError(w, run) && SameRecord(w, after, run)
    ensures InError(after, run)
  {
  }

  lemma InErrorKnown(w: World, run: RunId)
    requires InError(w, run)
    ensures run in w.procs && run in w.tables.runs
  {
  }

  lemma StaysDoomed(env: Env, w0: World, w: World, e: Event, run: RunId)
    requires Inv(env, w) && Doomed(w0, w, run)
    ensures Doomed(w0, Step(env, w, e), run)
  {
    hide EachRun, EachCash, LedgerInv, Exclusive, OneJournalEach, Step, Awaits, CashAwaits, InError, Unposted, NotAsked,
      Filed;
    InErrorKnown(w, run);
    if RunOf(e) == Some(run) && Enabled(w, e) {
      OwnStaysInError(env, w, e, run);
    } else {
      CashApart(env, w, e, run);
      StepFrame(env, w, e, run);
      SameInError(w, Step(env, w, e), run);
    }
    StaysUnposted(env, w, e, run);
    NothingAsked(env, w, e, run);
    FiledExactly(env, w, e);
    NotAskedTwice(w0, w, Step(env, w, e), run);
  }

  lemma {:induction false} DoomedForEver(env: Env, events: seq<Event>, e: Event, more: seq<Event>, run: RunId)
    requires ValidSeed(env.seed)
    requires Doomed(Execute(env, events), Execute(env, events + [e]), run)
    ensures Doomed(Execute(env, events), Execute(env, events + [e] + more), run)
  {
    hide Execute, Step, Inv, ValidSeed, Doomed;
    if more == [] {
      assert events + [e] + more == events + [e];
    } else {
      var before := more[..|more| - 1];
      DoomedForEver(env, events, e, before, run);
      ExecuteMore(env, events + [e], more);
      AlwaysValid(env, events + [e] + before);
      StaysDoomed(env, Execute(env, events), Execute(env, events + [e] + before), more[|more| - 1], run);
    }
  }

  /** Before its match node a run has no report, and nothing has been booked or recorded for it. */
  lemma NothingDoneYet(env: Env, w: World, e: Event, run: RunId)
    requires Inv(env, w) && Enabled(w, e) && Fails(w, e, run)
    ensures run in w.procs && w.procs[run].ch.report.None? && Unposted(w, run)
    ensures run in w.tables.runs && w.tables.runs[run].status != Completed && w.tables.runs[run].status != Rejected
  {
    hide EachRun, EachCash, LedgerInv, Exclusive, OneJournalEach, Changed, ReportOf, Fingerprint, RunEntry, Audited,
      Keyed, Reported;
    OpenHere(env, w, run);
    ViewParts(w, run);
    EarlyView(env, run, ViewOf(w, run));
    Unfinished(env, run, ViewOf(w, run));
    NoneOwned(w, run);
  }

  lemma EarlyView(env: Env, run: RunId, v: View)
    requires RunInv(env, run, v) && Stage(v.process.pc) <= 6
    ensures v.process.ch.report.None? && v.documents == {} && forall row :: row in v.journals ==> !row.posted
  {
    hide ReportOf, RunEntry, Fingerprint;
  }

  lemma NoneOwned(w: World, run: RunId)
    requires Known(w) && run in w.procs && DocumentsOf(w.ledger.archive, w.owners, run) == {}
    ensures forall i :: i in w.owners ==> w.owners[i] != run
  {
    assert forall i :: i in w.owners && w.owners[i] == run ==>
        w.ledger.archive[i] in DocumentsOf(w.ledger.archive, w.owners, run);
  }

  /** A run whose document cannot be read, from which nothing is extracted, or whose order lookup the ERP fails, is
      never decided on by anybody and never posted: whatever follows, it stands at its match node or the failed node or
      is over, once it has a report it is past the match node, no case is filed for it, no document is created for it
      and its row never says completed, rejected or straight through. */
  lemma ErrorsNeverPost(env: Env, events: seq<Event>, e: Event, more: seq<Event>, run: RunId)
    requires ValidSeed(env.seed)
    requires Enabled(Execute(env, events), e) && Fails(Execute(env, events), e, run)
    ensures var before, after := Execute(env, events), Execute(env, events + [e] + more);
            && run in after.procs && run in after.tables.runs
            && var p, row := after.procs[run], after.tables.runs[run];
            && (NodeOf(p.pc) == Some(MatchingNode) || NodeOf(p.pc) == Some(FailedNode) || p.pc.Ended?)
            && (p.ch.report.Some? ==> NodeOf(p.pc) == Some(FailedNode) || p.pc.Ended?)
            && p.ch.error && RunFailed in p.emitted
            && (forall i :: i in after.owners ==> after.owners[i] != run)
            && (forall j :: j in after.tables.journals && j.posted ==> j.run != run)
            && |before.tables.cases| <= |after.tables.cases|
            && (forall k :: |before.tables.cases| <= k < |after.tables.cases| ==> after.tables.cases[k].run != run)
            && row.status != Completed && row.status != Rejected && !row.straightThrough
  {
    hide Execute, Step, Inv, ValidSeed, RunInv;
    var w := Execute(env, events);
    AlwaysValid(env, events);
    ExecuteMore(env, events, [e]);
    assert events + [e][..0] == events;
    FallsDoomed(env, w, e, run);
    DoomedForEver(env, events, e, more, run);
    RunValid(env, events + [e] + more, run);
    DoomedRow(env, w, Execute(env, events + [e] + more), run);
  }

  lemma FallsDoomed(env: Env, w: World, e: Event, run: RunId)
    requires Inv(env, w) && Enabled(w, e) && Fails(w, e, run)
    ensures Doomed(w, Step(env, w, e), run)
  {
    hide Inv, Step, InError, Unposted, Filed;
    NothingDoneYet(env, w, e, run);
    StartsInError(env, w, e, run);
    StaysUnposted(env, w, e, run);
    FiledExactly(env, w, e);
    FailsFilesNothing(env, w, e, run);
  }

  lemma FailsFilesNothing(env: Env, w: World, e: Event, run: RunId)
    requires Enabled(w, e) && Fails(w, e, run)
    ensures Filed(env, w, e) == []
  {
    hide Awaits, CashAwaits;
  }

  lemma DoomedRow(env: Env, w0: World, w: World, run: RunId)
    requires Doomed(w0, w, run) && Known(w) && RunInv(env, run, ViewOf(w, run))
    ensures run in w.tables.runs
    ensures var row := w.tables.runs[run];
            row.status != Completed && row.status != Rejected && !row.straightThrough
  {
    hide Flow, Keyed, Reported, Backed, Audited, Trail, Keys, Reports, JournalsOf, DocumentsOf;
  }

  /** Its match node, whenever it returns, sends it to the failed node. */
  lemma ErrorsFailAtMatch(
    env: Env, events: seq<Event>, e: Event, more: seq<Event>, run: RunId, io: Io)
    requires ValidSeed(env.seed)
    requires Enabled(Execute(env, events), e) && Fails(Execute(env, events), e, run)
    requires Enabled(Execute(env, events + [e] + more), DoMatch(run, io)) && io.survives
    ensures var after := Execute(env, events + [e] + more + [DoMatch(run, io)]);
            run in after.procs && after.procs[run].pc == At(FailedNode)
  {
    hide Execute, Step, Inv, ValidSeed, RunInv, Enabled;
    var w := Execute(env, events);
    AlwaysValid(env, events);
    ExecuteMore(env, events, [e]);
    assert events + [e][..0] == events;
    FallsDoomed(env, w, e, run);
    DoomedForEver(env, events, e, more, run);
    var before := events + [e] + more;
    ExecuteMore(env, before, [DoMatch(run, io)]);
    assert before + [DoMatch(run, io)][..0] == before;
    OwnStaysInError(env, Execute(env, before), DoMatch(run, io), run);
    WhereInError(Execute(env, before + [DoMatch(run, io)]), run);
  }

  // No order is not an error

  lemma FetchedNothing(w: World, run: RunId, reply: PoReply, io: Io)
    requires run in w.procs && io.survives && (reply.PoMissing? || !HasOrderNumber(w, run))
    ensures var after := FetchPoStep(w, run, reply, io);
            && run in after.procs && after.procs[run].pc == At(MatchingNode)
            && after.procs[run].ch == w.procs[run].ch.(order := None, receipts := [])
  {
    hide Log, Leave;
    LogDoes(w, run, PoFetched, io.audit);
    LeaveDoes(Log(w, run, PoFetched, io.audit), run, FetchPoNode, w.procs[run].ch.(order := None, receipts := []),
              At(MatchingNode), io);
  }

  lemma MatchedNothing(env: Env, w: World, run: RunId, io: Io)
    requires run in w.procs && io.survives && w.procs[run].ch.invoice.Some? && w.procs[run].ch.order.None?
    requires !w.procs[run].ch.error
    ensures var after := MatchStep(env, w, run, io);
            && run in after.procs && after.procs[run].pc == At(RaiseNode)
            && after.procs[run].ch.report.Some? && MissingPo in after.procs[run].ch.report.value.exceptions
  {
    hide SetStatus, Log, Leave, NodeReport;
    var ch := w.procs[run].ch;
    var report := ReportOf(env, ch);
    var w1 := SetStatus(w, run, RunStatus.Matching, None, io.status);
    var w2 := if io.Saves() then AddMatch(w1, MatchRow(run, report)) else w1;
    LogDoes(w2, run, MatchEvaluated, io.Saves() && io.audit);
    R.NonPoReads(env.text, ch.invoice.value, ch.receipts, env.cfg, ch.duplicateOf.Some?, ch.vendor);
    LeaveDoes(Log(w2, run, MatchEvaluated, io.Saves() && io.audit), run, MatchingNode, ch.(report := Some(report)),
              At(RaiseNode), io);
  }

  /** An invoice without an order number, or with one the ERP does not know, is no error: its run goes on to the match
      node and from there to a human, its missing order among the exceptions. */
  lemma MissingOrderAsks(env: Env, events: seq<Event>, run: RunId, reply: PoReply, fetched: Io, matched: Io)
    requires ValidSeed(env.seed) && fetched.survives && matched.survives
    requires Enabled(Execute(env, events), DoFetchPo(run, reply, fetched))
    requires reply.PoMissing? || !HasOrderNumber(Execute(env, events), run)
    ensures var after := Execute(env, events + [DoFetchPo(run, reply, fetched), DoMatch(run, matched)]);
            && run in after.procs && after.procs[run].pc == At(RaiseNode) && !after.procs[run].ch.error
            && after.procs[run].ch.report.Some? && MissingPo in after.procs[run].ch.report.value.exceptions
  {
    hide Execute, Step, Enabled, ValidSeed, RunInv, HasOrderNumber;
    var w, e, f := Execute(env, events), DoFetchPo(run, reply, fetched), DoMatch(run, matched);
    FetchHappens(env, w, run, reply, fetched);
    RunValid(env, events, run);
    ViewParts(w, run);
    FetchPoStarts(env, run, ViewOf(w, run));
    ExecuteMore(env, events, [e, f]);
    ExecuteMore(env, events, [e]);
    assert [e, f][..1] == [e] && events + [e][..0] == events;
    FetchedNothing(w, run, reply, fetched);
    MatchHappens(env, Execute(env, events + [e]), run, matched);
    MatchedNothing(env, Execute(env, events + [e]), run, matched);
    RunValid(env, events + [e, f], run);
    ViewParts(Execute(env, events + [e, f]), run);
    RaisedWithout(env, run, ViewOf(Execute(env, events + [e, f]), run));
  }

  lemma FetchHappens(env: Env, w: World, run: RunId, reply: PoReply, io: Io)
    requires Enabled(w, DoFetchPo(run, reply, io))
    ensures run in w.procs && w.procs[run].pc == At(FetchPoNode)
    ensures Step(env, w, DoFetchPo(run, reply, io)) == FetchPoStep(w, run, reply, io)
  {
    hide FetchPoStep, CashStep;
  }

  lemma MatchHappens(env: Env, w: World, run: RunId, io: Io)
    requires run in w.procs && w.procs[run].pc == At(MatchingNode)
    ensures Step(env, w, DoMatch(run, io)) == MatchStep(env, w, run, io)
  {
    hide MatchStep, CashStep;
  }

  lemma FetchPoStarts(env: Env, run: RunId, v: View)
    requires RunInv(env, run, v) && v.process.pc == At(FetchPoNode)
    ensures v.process.ch.invoice.Some? && !v.process.ch.error
  {
    hide Keyed, Reported, Backed, Rowed, Audited;
  }

  lemma RaisedWithout(env: Env, run: RunId, v: View)
    requires RunInv(env, run, v) && v.process.pc == At(RaiseNode)
    ensures !v.process.ch.error
  {
    hide Keyed, Reported, Backed, Rowed, Audited;
  }
}
