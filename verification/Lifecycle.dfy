/** How one run moves: where it can go, how long it takes, what stays once it is over, what its trail shows. */
module Lifecycle {
  import opened Prelude
  import opened MockErp
  import opened Client
  import opened Remittances
  import opened Decide
  import opened Repository
  import opened Workflow
  import opened Views
  import opened RunInvariant
  import opened StepInvariant
  import opened WorkflowInvariant
  import opened Guarantees

  // Routing

  /** A run that met an error before posting never gets there, and nobody is asked about an empty list. */
  lemma Routing(env: Env, events: seq<Event>, run: RunId)
    requires ValidSeed(env.seed)
    requires run in Execute(env, events).procs
    ensures var p := Execute(env, events).procs[run];
            && (NodeOf(p.pc) == Some(PostNode) ==> !p.ch.error)
            && (NodeOf(p.pc) == Some(RaiseNode) ==>
                !p.ch.error && p.ch.report.Some? && p.ch.report.value.exceptions != [])
            && (NodeOf(p.pc) == Some(RejectedNode) ==> p.ch.decision == Some(false))
            && p.completed <= 9
  {
    hide RunInv, Execute, ValidSeed, ViewOf;
    RunValid(env, events, run);
    ViewParts(Execute(env, events), run);
    RoutingOfView(env, run, ViewOf(Execute(env, events), run));
  }

  lemma RoutingOfView(env: Env, run: RunId, v: View)
    requires RunInv(env, run, v)
    ensures var p := v.process;
            && (NodeOf(p.pc) == Some(PostNode) ==> !p.ch.error)
            && (NodeOf(p.pc) == Some(RaiseNode) ==>
                !p.ch.error && p.ch.report.Some? && p.ch.report.value.exceptions != [])
            && (NodeOf(p.pc) == Some(RejectedNode) ==> p.ch.decision == Some(false))
            && p.completed <= 9
  {
    hide Keyed, Reported, Backed, Rowed, Audited, NodeReport;
    var ch := v.process.ch;
    if ch.report.Some? {
      NodeVerdict(env.text, ch.invoice.value, ch.order, ch.receipts, env.cfg, ch.duplicateOf.Some?, ch.vendor);
    }
  }

  /** Only a run that waits for a decision can be resumed and only one that died can be driven again, and either only
      while its row awaits approval or says matching; a run can be started once; and others may use the ERP at any
      time. */
  lemma EnabledExactly(w: World, run: RunId, approve: bool, lands: bool, op: Op, io: Io)
    ensures var open := run in w.tables.runs &&
                        (w.tables.runs[run].status.AwaitingApproval? || w.tables.runs[run].status.Matching?);
            && (Enabled(w, Resume(run, approve, io)) <==> open && run in w.procs && w.procs[run].pc.Parked?)
            && (Enabled(w, Redrive(run)) <==> open && run in w.procs && w.procs[run].pc.Crashed?)
            && (Enabled(w, RedriveCash(run)) <==> open && run in w.cash && w.cash[run].pc.CashCrashed?)
    ensures Enabled(w, Start(run, lands)) <==> run !in w.procs && run !in w.cash
    ensures Enabled(w, StartCash(run, lands)) <==> run !in w.procs && run !in w.cash
    ensures Enabled(w, External(op))
  {
  }

  // Cases

  /** The cases an event files: one for a run that is stopped, one more, decided or not, when that is resumed, one for a
      posting the ERP refused and one for a remittance with something unresolved. */
  ghost function Filed(env: Env, w: World, e: Event): seq<CaseRow>
    requires Enabled(w, e)
  {
    match e
    case DoRaise(run, _) => if w.procs[run].ch.report.Some? then [CaseRow(run, OpenCase)] else []
    case Resume(run, approve, io) =>
      [CaseRow(run, if !io.Saves() then OpenCase else if approve then Approved else RejectedCase)]
    case Record(run, io) =>
      var p := w.procs[run];
      if && p.pc.posting.Refusal? && io.Saves() && p.ch.invoice.Some?
         && forall row :: row in w.tables.journals ==> row.run != run
      then [CaseRow(run, OpenCase)] else []
    case CloseCash(run, io) =>
      var ch := w.cash[run].ch;
      var unresolved := UnresolvedOf(env.text, ch.remittance.value, ch.items, env.cfg.remittanceToleranceAbs);
      if io.Saves() && (unresolved != [] || w.cash[run].pc.failures != []) then [CaseRow(run, OpenCase)] else []
    case _ => []
  }

  lemma RunFiles(env: Env, w: World, e: Event)
    requires Enabled(w, e) && RunOf(e).Some? && !e.Resume?
    ensures RunStep(env, w, e).tables.cases == w.tables.cases + Filed(env, w, e)
  {
    hide ParseStep, ExtractStep, PersistStep, DuplicateStep, VendorStep, FetchPoStep, MatchStep, RaiseStep, ResumeStep,
      BeginPostStep, SendStep, RecordStep, RejectStep, FailStep;
  }

  lemma CashFiles(env: Env, w: World, e: Event)
    requires Enabled(w, e) && CashRunOf(e).Some?
    ensures CashStep(env, w, e).tables.cases == w.tables.cases + Filed(env, w, e)
  {
    hide ParseCashStep, ExtractCashStep, FetchCashStep, BeginCashStep, PayStep, CloseCashStep, FailCashStep,
      UnresolvedOf, ResidualOf;
  }

  lemma ResumeFiles(env: Env, w: World, run: RunId, approve: bool, io: Io)
    requires Enabled(w, Resume(run, approve, io))
    ensures var status := if !io.Saves() then OpenCase else if approve then Approved else RejectedCase;
            Step(env, w, Resume(run, approve, io)).tables.cases == w.tables.cases + [CaseRow(run, status)]
  {
    hide MaxSequence, CashStep;
    var filed := w.tables.cases + [CaseRow(run, OpenCase)];
    assert forall status :: ResolveCase(filed, |w.tables.cases|, status) == w.tables.cases + [CaseRow(run, status)];
  }

  /** Exactly these, and no event changes a case that was there before it: a resumed node resolves the second case it
      files itself. */
  lemma FiledExactly(env: Env, w: World, e: Event)
    ensures Step(env, w, e).tables.cases == w.tables.cases + if Enabled(w, e) then Filed(env, w, e) else []
  {
    hide RunStep, CashStep, Do, Awaits, CashAwaits, MaxSequence, UnresolvedOf, ResidualOf;
    if Enabled(w, e) {
      if e.Resume? {
        ResumeFiles(env, w, e.run, e.approve, e.io);
      } else if RunOf(e).Some? {
        RunFiles(env, w, e);
      } else if CashRunOf(e).Some? {
        CashFiles(env, w, e);
      }
    }
  }

  lemma ExecuteMore(env: Env, events: seq<Event>, more: seq<Event>)
    requires more != []
    ensures Execute(env, events + more) == Step(env, Execute(env, events + more[..|more| - 1]), more[|more| - 1])
  {
    hide Step, Init;
    assert (events + more)[..|events + more| - 1] == events + more[..|more| - 1];
  }

  /** Whatever follows, every case that ever stood between two events stays as it is. */
  lemma {:induction false} CasesNeverChange(env: Env, events: seq<Event>, more: seq<Event>)
    ensures Execute(env, events).tables.cases <= Execute(env, events + more).tables.cases
  {
    hide Execute, Step, Filed, Enabled;
    if more == [] {
      assert events + more == events;
    } else {
      CasesNeverChange(env, events, more[..|more| - 1]);
      ExecuteMore(env, events, more);
      FiledExactly(env, Execute(env, events + more[..|more| - 1]), more[|more| - 1]);
    }
  }

  /** So a case the queue has shown open is open for ever, whatever is decided on its run and on any other; the decision
      closes a second case, filed and resolved by the resumed node. */
  lemma FirstCaseStaysOpen(
    env: Env, events: seq<Event>, i: nat, run: RunId, approve: bool, io: Io, more: seq<Event>)
    requires i < |Execute(env, events).tables.cases| && Execute(env, events).tables.cases[i].status == OpenCase
    requires Enabled(Execute(env, events), Resume(run, approve, io))
    ensures var n := |Execute(env, events).tables.cases|;
            var later := Execute(env, events + [Resume(run, approve, io)] + more).tables.cases;
            && n < |later| && later[i] == Execute(env, events).tables.cases[i]
            && later[n] ==
               CaseRow(run, if !io.Saves() then OpenCase else if approve then Approved else RejectedCase)
  {
    hide Execute, Step, ResumeStep, Enabled;
    var w, e := Execute(env, events), Resume(run, approve, io);
    ExecuteMore(env, events, [e]);
    assert events + [e][..0] == events;
    ResumeFiles(env, w, run, approve, io);
    CasesNeverChange(env, events + [e], more);
  }

  // Termination

  /** How many more events a run can take before it ends, parks or dies. */
  function Rank(pc: Pc): nat {
    match pc
    case At(PostNode) => 5
    case At(RaiseNode) => 2
    case At(RejectedNode) => 1
    case At(FailedNode) => 1
    case At(n) => 12 - StageOf(n)
    case Sending(_, k) => if k < MAX_ATTEMPTS then 4 - k else 0
    case Sent(_) => 1
    case _ => 0
  }

  /** An event that continues a run without anybody bringing it back. */
  predicate Continues(e: Event, run: RunId) {
    RunOf(e) == Some(run) && !e.Resume? && !e.Redrive?
  }

  /** The next thing an unfinished run does. */
  function NextEvent(run: RunId, pc: Pc): Event {
    var io := Io(true, true, true, true, true);
    match pc
    case At(ParseNode) => DoParse(run, true, io)
    case At(ExtractNode) => DoExtract(run, None, io)
    case At(PersistNode) => DoPersist(run, io)
    case At(DuplicateNode) => DoDuplicateCheck(run, io)
    case At(VendorNode) => DoResolveVendor(run, None, io)
    case At(FetchPoNode) => DoFetchPo(run, PoMissing, io)
    case At(MatchingNode) => DoMatch(run, io)
    case At(RaiseNode) => DoRaise(run, io)
    case At(PostNode) => BeginPost(run, io)
    case At(RejectedNode) => DoReject(run, io)
    case At(FailedNode) => DoFail(run, io)
    case Sending(_, _) => Send(run, Answered)
    case Sent(_) => Record(run, io)
    case _ => Die(run)
  }

  /** A run that is neither over, parked nor dead always has a next event: nothing deadlocks. */
  lemma NeverStuck(w: World, run: RunId)
    requires run in w.procs && Rank(w.procs[run].pc) > 0
    ensures var e := NextEvent(run, w.procs[run].pc);
            Enabled(w, e) && Continues(e, run) && !e.Die?
  {
  }

  lemma EarlyWorkDone(env: Env, w: World, e: Event, run: RunId)
    requires run in w.procs && RunOf(e) == Some(run) && Awaits(w.procs[run].pc, e)
    requires e.DoParse? || e.DoExtract? || e.DoPersist? || e.DoDuplicateCheck? || e.DoResolveVendor?
    ensures run in RunStep(env, w, e).procs && Rank(RunStep(env, w, e).procs[run].pc) < Rank(w.procs[run].pc)
  {
    hide SetStatus, Log, Leave, Move, Clear, ReportOf, RunEntry, Fingerprint, FindDuplicate, Serve, HasJournal,
      AddInvoice, AddMatch, AddCase, AddJournal, CloseCase, FetchPoStep, MatchStep, RaiseStep, BeginPostStep, SendStep,
      RecordStep, RejectStep, FailStep;
  }

  lemma MiddleWorkDone(env: Env, w: World, e: Event, run: RunId)
    requires run in w.procs && RunOf(e) == Some(run) && Awaits(w.procs[run].pc, e)
    requires e.DoFetchPo? || e.DoMatch?
    ensures run in RunStep(env, w, e).procs && Rank(RunStep(env, w, e).procs[run].pc) < Rank(w.procs[run].pc)
  {
    hide SetStatus, Log, Leave, Move, Clear, ReportOf, RunEntry, Fingerprint, FindDuplicate, Serve, HasJournal,
      AddInvoice, AddMatch, AddCase, AddJournal, CloseCase, ParseStep, ExtractStep, PersistStep, DuplicateStep,
      VendorStep, BeginPostStep, SendStep, RecordStep, RaiseStep, RejectStep, FailStep;
  }

  lemma ClosingWorkDone(env: Env, w: World, e: Event, run: RunId)
    requires run in w.procs && RunOf(e) == Some(run) && Awaits(w.procs[run].pc, e)
    requires e.DoRaise? || e.DoReject? || e.DoFail?
    ensures run in RunStep(env, w, e).procs && Rank(RunStep(env, w, e).procs[run].pc) < Rank(w.procs[run].pc)
  {
    hide SetStatus, Log, Leave, Move, Clear, ReportOf, RunEntry, Fingerprint, FindDuplicate, Serve, HasJournal,
      AddInvoice, AddMatch, AddCase, AddJournal, CloseCase, ParseStep, ExtractStep, PersistStep, DuplicateStep,
      VendorStep, FetchPoStep, MatchStep, BeginPostStep, SendStep, RecordStep;
  }

  lemma LateWorkDone(env: Env, w: World, e: Event, run: RunId)
    requires run in w.procs && RunOf(e) == Some(run) && Awaits(w.procs[run].pc, e)
    requires e.BeginPost? || e.Send? || e.Record? || e.Die?
    requires w.procs[run].pc.Sending? ==> w.procs[run].pc.attempt < MAX_ATTEMPTS
    ensures run in RunStep(env, w, e).procs && Rank(RunStep(env, w, e).procs[run].pc) < Rank(w.procs[run].pc)
  {
    hide SetStatus, Log, Leave, Move, Clear, ReportOf, RunEntry, Fingerprint, FindDuplicate, Serve, HasJournal,
      AddInvoice, AddMatch, AddCase, AddJournal, CloseCase, ParseStep, ExtractStep, PersistStep, DuplicateStep,
      VendorStep, FetchPoStep, MatchStep, RaiseStep, RejectStep, FailStep;
  }

  /** Every event of a run's own brings it closer to its end. */
  lemma WorkDone(env: Env, w: World, e: Event, run: RunId)
    requires Inv(env, w) && Enabled(w, e) && Continues(e, run)
    ensures run in w.procs && run in Step(env, w, e).procs
    ensures Rank(Step(env, w, e).procs[run].pc) < Rank(w.procs[run].pc)
  {
    hide RunInv, EachRun, EachCash, Exclusive, OneJournalEach, LedgerInv, RunStep, Awaits, Rank, ViewOf;
    if e.BeginPost? || e.Send? || e.Record? || e.Die? {
      if w.procs[run].pc.Sending? {
        SendingInBounds(env, w, run);
      }
      LateWorkDone(env, w, e, run);
    } else if e.DoFetchPo? || e.DoMatch? {
      MiddleWorkDone(env, w, e, run);
    } else if e.DoRaise? || e.DoReject? || e.DoFail? {
      ClosingWorkDone(env, w, e, run);
    } else {
      EarlyWorkDone(env, w, e, run);
    }
  }

  lemma RankMeans(pc: Pc)
    requires pc.Sending? ==> pc.attempt < MAX_ATTEMPTS
    ensures Rank(pc) <= 12
    ensures Rank(pc) == 0 <==> pc.Ended? || pc.Parked? || pc.Crashed?
  {
  }

  lemma SendingInBounds(env: Env, w: World, run: RunId)
    requires Inv(env, w) && run in w.procs && w.procs[run].pc.Sending?
    ensures w.procs[run].pc.attempt < MAX_ATTEMPTS
  {
    hide RunInv, EachRun, EachCash, LedgerInv, Exclusive, OneJournalEach, ViewOf, Changed;
    OpenHere(env, w, run);
    SendingEntry(env, run, ViewOf(w, run));
  }

  /** How many of the events that follow are this run's, and happen. */
  function Work(env: Env, w: World, more: seq<Event>, run: RunId): nat
    decreases |more|
  {
    if more == [] then 0
    else
      (if Enabled(w, more[0]) && RunOf(more[0]) == Some(run) then 1 else 0)
          + Work(env, Step(env, w, more[0]), more[1..], run)
  }

  lemma {:induction false} WorkBounded(env: Env, w: World, more: seq<Event>, run: RunId)
    requires ValidSeed(env.seed) && Inv(env, w) && run in w.procs
    requires forall k :: 0 <= k < |more| ==> RunOf(more[k]) != Some(run) || Continues(more[k], run)
    ensures Work(env, w, more, run) <= Rank(w.procs[run].pc)
    decreases |more|
  {
    hide EachRun, EachCash, Exclusive, OneJournalEach, LedgerInv, SameRecord, Step, Rank, ValidSeed, Enabled, RunOf;
    if more != [] {
      var e := more[0];
      StepKeeps(env, w, e);
      if Enabled(w, e) && RunOf(e) == Some(run) {
        WorkDone(env, w, e, run);
      } else {
        CashApart(env, w, e, run);
        StepFrame(env, w, e, run);
        SameProcess(w, Step(env, w, e), run);
      }
      WorkBounded(env, Step(env, w, e), more[1..], run);
    }
  }

  lemma SameProcess(w: World, after: World, run: RunId)
    requires Known(w) && run in w.procs && SameRecord(w, after, run)
    ensures run in after.procs && after.procs[run] == w.procs[run]
  {
  }

  /** Left alone among any other runs, a run takes at most twelve more events, nodes and attempts together,
      before it has ended, parked or died; and until then it can always go on. */
  lemma EveryRunFinishes(env: Env, events: seq<Event>, more: seq<Event>, run: RunId)
    requires ValidSeed(env.seed)
    requires run in Execute(env, events).procs
    requires forall k :: 0 <= k < |more| ==> RunOf(more[k]) != Some(run) || Continues(more[k], run)
    ensures Work(env, Execute(env, events), more, run) <= Rank(Execute(env, events).procs[run].pc) <= 12
    ensures var pc := Execute(env, events).procs[run].pc;
            Rank(pc) == 0 <==> pc.Ended? || pc.Parked? || pc.Crashed?
  {
    hide Inv, Execute, ValidSeed, Work, Rank;
    AlwaysValid(env, events);
    var w := Execute(env, events);
    WorkBounded(env, w, more, run);
    if w.procs[run].pc.Sending? {
      SendingInBounds(env, w, run);
    }
    RankMeans(w.procs[run].pc);
  }

  // Terminal rows

  lemma TerminalIsOver(env: Env, run: RunId, v: View)
    requires RunInv(env, run, v) && Terminal(v.row.status)
    ensures v.process.pc.Ended? || v.process.pc.Crashed?
  {
    hide Flow, Keyed, Reported, Backed, Audited;
  }

  /** A run whose row is terminal, payable or receivable, has no next event. */
  lemma TerminalBlocks(env: Env, w: World, e: Event, run: RunId)
    requires Inv(env, w) && run in w.tables.runs && Terminal(w.tables.runs[run].status)
    requires RunOf(e) == Some(run) || CashRunOf(e) == Some(run)
    ensures !Enabled(w, e)
  {
    hide RunInv, EachRun, EachCash, LedgerInv, Exclusive, OneJournalEach, ViewOf, Enabled, Changed;
    if run in w.procs {
      OpenHere(env, w, run);
      ViewParts(w, run);
      TerminalIsOver(env, run, ViewOf(w, run));
    } else {
      CashTerminalIsOver(env, w, run);
    }
    OverBlocks(w, e, run);
  }

  /** A run that is over or dead, its row terminal, does nothing more. */
  lemma OverBlocks(w: World, e: Event, run: RunId)
    requires run in w.tables.runs && Terminal(w.tables.runs[run].status)
    requires run in w.procs ==> w.procs[run].pc.Ended? || w.procs[run].pc.Crashed?
    requires run in w.cash ==> w.cash[run].pc.CashEnded? || w.cash[run].pc.CashCrashed?
    requires RunOf(e) == Some(run) || CashRunOf(e) == Some(run)
    ensures !Enabled(w, e)
  {
  }

  lemma CashTerminalIsOver(env: Env, w: World, run: RunId)
    requires Known(w) && EachCash(env, w) && run in w.cash && run in w.tables.runs
    requires Terminal(w.tables.runs[run].status)
    ensures w.cash[run].pc.CashEnded? || w.cash[run].pc.CashCrashed?
  {
    hide EachCash, Subsequence, Numbered;
    OpenCashHere(env, w, run);
  }

  /** Once a run's row says completed, rejected or failed, nothing ever changes it. */
  lemma {:induction false} TerminalStays(env: Env, events: seq<Event>, more: seq<Event>, run: RunId)
    requires ValidSeed(env.seed)
    requires var t := Execute(env, events).tables;
             run in t.runs && Terminal(t.runs[run].status)
    ensures var after := Execute(env, events + more).tables;
            run in after.runs && after.runs[run] == Execute(env, events).tables.runs[run]
  {
    hide EachRun, EachCash, Exclusive, OneJournalEach, LedgerInv, Known, Execute, Step, ValidSeed, Enabled;
    if more == [] {
      assert events + more == events;
    } else {
      var before, e := more[..|more| - 1], more[|more| - 1];
      TerminalStays(env, events, before, run);
      ExecuteMore(env, events, more);
      var w := Execute(env, events + before);
      AlwaysValid(env, events + before);
      if RunOf(e) == Some(run) || CashRunOf(e) == Some(run) {
        TerminalBlocks(env, w, e, run);
      }
      StepFrame(env, w, e, run);
    }
  }

  // The trail

  /** Every event a run tried to write, of whichever kind it is. */
  function Emitted(w: World, run: RunId): seq<Action> {
    if run in w.procs then w.procs[run].emitted else if run in w.cash then w.cash[run].emitted else []
  }

  /** What is stored of a run's trail is numbered from one without a gap, is its events in order with some possibly
      lost, and shows no unapproved posting that was not straight through. */
  lemma TrailFaithful(env: Env, events: seq<Event>, run: RunId)
    requires ValidSeed(env.seed)
    requires run in Execute(env, events).tables.runs
    ensures var w := Execute(env, events);
            var trail, emitted := Trail(w.tables.audit, run), Emitted(w, run);
            && Numbered(trail)
            && Subsequence(Actions(trail), emitted)
            && ApprovedBefore(emitted)
            && (JournalPosted(true) in emitted ==> forall a :: a in emitted ==> !AskedHuman(a))
  {
    hide Execute, ValidSeed, RunInv, Subsequence, Numbered, ApprovedBefore, ViewOf, Trail;
    var w := Execute(env, events);
    AllKnown(env, events);
    if run in w.procs {
      RunValid(env, events, run);
      ViewParts(w, run);
      TrailOfView(env, run, ViewOf(w, run));
    } else {
      CashValid(env, events, run);
      NothingPosted(w.cash[run].emitted);
    }
  }

  lemma TrailOfView(env: Env, run: RunId, v: View)
    requires RunInv(env, run, v)
    ensures Numbered(v.trail) && Subsequence(Actions(v.trail), v.process.emitted) && ApprovedBefore(v.process.emitted)
    ensures JournalPosted(true) in v.process.emitted ==> forall a :: a in v.process.emitted ==> !AskedHuman(a)
  {
    hide Flow, Keyed, Reported, Backed, Rowed, Subsequence, Numbered, ApprovedBefore;
  }

  lemma NothingPosted(emitted: seq<Action>)
    requires forall a :: a in emitted ==> !a.JournalPosted? && !AskedHuman(a)
    ensures ApprovedBefore(emitted)
  {
    assert forall k :: 0 <= k < |emitted| ==> emitted[k] in emitted;
  }

  /** Read back page by page, a run that has stopped writing shows its whole trail. */
  lemma PagesShowTrail(env: Env, events: seq<Event>, run: RunId, limit: nat, count: nat)
    requires ValidSeed(env.seed)
    requires run in Execute(env, events).tables.runs
    requires count * limit >= |Trail(Execute(env, events).tables.audit, run)|
    ensures var w := Execute(env, events);
            && Pages(w.tables.audit, run, limit, count) == Trail(w.tables.audit, run)
            && Subsequence(Actions(Pages(w.tables.audit, run, limit, count)), Emitted(w, run))
  {
    hide Execute, ValidSeed, Subsequence, Numbered, ApprovedBefore, Pages, Trail, Emitted;
    TrailFaithful(env, events, run);
    PagesReproduceTrail(Execute(env, events).tables.audit, run, limit, count);
  }

  /** The ERP's own invariant survives everything the runs and the outside world do to it. */
  lemma ErpAlwaysValid(env: Env, events: seq<Event>)
    requires ValidSeed(env.seed)
    ensures LedgerInv(Execute(env, events).ledger, env.seed)
  {
    hide Execute, ValidSeed, LedgerInv, Exclusive, OneJournalEach, EachRun, EachCash, Known;
    AlwaysValid(env, events);
  }
}
