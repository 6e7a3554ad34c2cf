/** What the straight-through count says about what happened: the flag on a run's row against its posting. */
module Rates {
  import opened Prelude
  import opened MockErp
  import opened Remittances
  import opened Repository
  import opened Workflow
  import opened Views
  import opened RunInvariant
  import opened StepInvariant
  import opened CashInvariant
  import opened WorkflowInvariant
  import opened Guarantees

  predicate Flagged(w: World, run: RunId) {
    run in w.procs && run in w.tables.runs && w.tables.runs[run].straightThrough
  }

  /** A straight-through posting is among the run's events. */
  predicate Posted(w: World, run: RunId) {
    run in w.procs && JournalPosted(true) in w.procs[run].emitted
  }

  /** Neither the flag nor the posting has changed. */
  predicate SameFlag(w: World, after: World, run: RunId) {
    (Flagged(after, run) <==> Flagged(w, run)) && (Posted(after, run) <==> Posted(w, run))
  }

  /** Recording an unattended posting emits it whatever the writes do, and the row carries the flag exactly when the
      last write lands. */
  lemma RateExactly(env: Env, w: World, e: Event, run: RunId)
    requires PostsUnattended(w, e, run) && run in w.tables.runs && !w.tables.runs[run].straightThrough
    ensures Posted(Step(env, w, e), run)
    ensures Flagged(Step(env, w, e), run) <==> e.io.final
  {
    hide MaxSequence, RunEntry;
    var after := Step(env, w, e);
    assert after.procs[run].emitted == w.procs[run].emitted + [JournalPosted(true)];
  }

  /** No other step of any run changes either. */
  lemma OnlyPostingTells(env: Env, w: World, e: Event, run: RunId)
    requires ValidSeed(env.seed) && Inv(env, w) && run in w.procs && !PostsUnattended(w, e, run)
    ensures SameFlag(w, Step(env, w, e), run)
  {
    hide RunInv, EachRun, EachCash, LedgerInv, Exclusive, OneJournalEach, Step, Enabled, ValidSeed, ViewOf,
      PostsUnattended;
    ViewParts(w, run);
    if RunOf(e) == Some(run) && Enabled(w, e) {
      var v := RunStepGood(env, w, e, run);
      AfterView(env, w, Step(env, w, e), run, v);
    } else {
      CashApart(env, w, e, run);
      StepFrame(env, w, e, run);
    }
  }

  lemma AfterView(env: Env, w: World, after: World, run: RunId, v: View)
    requires Now(w, after, run, v)
    ensures run in after.procs && after.procs[run] == v.process
    ensures run in after.tables.runs && after.tables.runs[run] == v.row
  {
  }

  lemma PostingStarts(env: Env, w: World, e: Event, run: RunId)
    requires Inv(env, w) && PostsUnattended(w, e, run)
    ensures run in w.tables.runs && !w.tables.runs[run].straightThrough && Enabled(w, e)
  {
    hide RunInv, EachRun, EachCash, LedgerInv, Exclusive, OneJournalEach, ViewOf, Changed;
    OpenHere(env, w, run);
    ViewParts(w, run);
    Unfinished(env, run, ViewOf(w, run));
  }

  lemma NewcomerUnflagged(env: Env, w: World, e: Event, run: RunId)
    requires Inv(env, w) && run !in w.procs
    ensures !Flagged(Step(env, w, e), run) && !Posted(Step(env, w, e), run)
  {
    hide RunInv, CashInv, EachRun, EachCash, LedgerInv, Exclusive, OneJournalEach, RunStep, CashStep, Do, Awaits,
      CashAwaits, MaxSequence, Keys, Reports, JournalsOf, DocumentsOf, RemittancesOf, MadeBy, Trail;
    if Enabled(w, e) {
      if RunOf(e).Some? {
        var v := RunStepGood(env, w, e, RunOf(e).value);
      } else if CashRunOf(e).Some? {
        var v := CashStepGood(env, w, e, CashRunOf(e).value);
      }
    }
  }

  lemma StepTells(env: Env, w: World, e: Event, run: RunId)
    requires ValidSeed(env.seed) && Inv(env, w)
    ensures Posted(Step(env, w, e), run) <==> Posted(w, run) || PostsUnattended(w, e, run)
    ensures Flagged(Step(env, w, e), run) <==> Flagged(w, run) || (PostsUnattended(w, e, run) && e.io.final)
  {
    hide RunInv, EachRun, EachCash, LedgerInv, Exclusive, OneJournalEach, ValidSeed, Step, Enabled, Known;
    if run !in w.procs {
      NewcomerUnflagged(env, w, e, run);
    } else if PostsUnattended(w, e, run) {
      PostingStarts(env, w, e, run);
      RateExactly(env, w, e, run);
    } else {
      OnlyPostingTells(env, w, e, run);
    }
  }

  ghost function Posting(run: RunId): (World, Event) -> bool {
    (w, e) => PostsUnattended(w, e, run)
  }

  ghost function PostingKept(run: RunId): (World, Event) -> bool {
    (w, e) => PostsUnattended(w, e, run) && e.io.final
  }

  /** In every execution a payable run has a straight-through posting among its events exactly when it recorded one,
      and carries the flag exactly when it recorded one whose last write landed. */
  lemma {:induction false} FlagExactly(env: Env, events: seq<Event>, run: RunId)
    requires ValidSeed(env.seed)
    ensures Posted(Execute(env, events), run) <==> Ever(env, events, Posting(run))
    ensures Flagged(Execute(env, events), run) <==> Ever(env, events, PostingKept(run))
  {
    hide Step, Init, Inv, ValidSeed, PostsUnattended, Posted, Flagged, Ever;
    if events == [] {
      NoRunsYet(env, run);
    } else {
      var before := events[..|events| - 1];
      FlagExactly(env, before, run);
      AlwaysValid(env, before);
      StepTells(env, Execute(env, before), events[|events| - 1], run);
      EverGrows(env, events, Posting(run));
      EverGrows(env, events, PostingKept(run));
    }
  }

  lemma NoRunsYet(env: Env, run: RunId)
    ensures !Posted(Init(env), run) && !Flagged(Init(env), run)
    ensures !Ever(env, [], Posting(run)) && !Ever(env, [], PostingKept(run))
  {
  }

  // The count

  function PostedRuns(w: World): set<RunId> {
    set r | r in w.procs && Posted(w, r)
  }

  function FlaggedPayables(w: World): set<RunId> {
    set r | r in w.procs && Flagged(w, r)
  }

  /** Receivable runs the count takes for straight through. */
  function FlaggedReceivables(w: World): set<RunId> {
    set c | c in w.cash && c in w.tables.runs && w.tables.runs[c].straightThrough
  }

  /** A counted payable run did post, and nobody was asked. */
  lemma CountedRunsPosted(env: Env, events: seq<Event>, run: RunId)
    requires ValidSeed(env.seed) && Flagged(Execute(env, events), run)
    ensures Posted(Execute(env, events), run)
    ensures forall a :: a in Execute(env, events).procs[run].emitted ==> !AskedHuman(a)
  {
    hide Execute, ValidSeed, RunInv, ViewOf;
    var w := Execute(env, events);
    RunValid(env, events, run);
    ViewParts(w, run);
    FlaggedMeans(env, run, ViewOf(w, run));
    ClearedMeans(env, run, ViewOf(w, run));
  }

  /** A receivable run is counted too, and never posts a journal. */
  lemma CountedReceivable(env: Env, events: seq<Event>, run: RunId)
    requires ValidSeed(env.seed) && run in FlaggedReceivables(Execute(env, events))
    ensures var w := Execute(env, events);
            && w.tables.runs[run].kind == ReceivableRun && w.tables.runs[run].status == Completed
            && CashApplied in w.cash[run].emitted
            && forall a :: a in w.cash[run].emitted ==> !a.JournalPosted?
  {
    hide Execute, ValidSeed, Subsequence, Numbered;
    CashValid(env, events, run);
  }

  /** A clean remittance is what raises the count without a posting: closing a receivable run sets the flag exactly
      when its last write lands, something was applied and nothing is unresolved. */
  lemma ReceivableFlagExactly(env: Env, w: World, run: RunId, io: Io)
    requires Enabled(w, CloseCash(run, io)) && run in w.tables.runs && !w.tables.runs[run].straightThrough
    ensures var pc, ch := w.cash[run].pc, w.cash[run].ch;
            var result := CashOutcome(env, w, ch, pc.applied, pc.failures);
            var after := Step(env, w, CloseCash(run, io));
            && run in after.tables.runs
            && (after.tables.runs[run].straightThrough <==> io.final && pc.applied != [] && result.unresolved == [])
  {
    hide MaxSequence, UnresolvedOf, ResidualOf;
  }

  /** The run closes a remittance with cash applied and nothing unresolved, and its last write lands. */
  ghost predicate ClosesClean(env: Env, w: World, e: Event, run: RunId) {
    && e.CloseCash? && e.run == run && Enabled(w, e) && e.io.final && w.cash[run].pc.applied != []
    && CashOutcome(env, w, w.cash[run].ch, w.cash[run].pc.applied, w.cash[run].pc.failures).unresolved == []
  }

  predicate CashFlagged(w: World, run: RunId) {
    run in w.cash && run in w.tables.runs && w.tables.runs[run].straightThrough
  }

  lemma CloseStarts(env: Env, w: World, e: Event, run: RunId)
    requires Inv(env, w) && e.CloseCash? && e.run == run && Enabled(w, e)
    ensures run in w.tables.runs && !w.tables.runs[run].straightThrough
  {
    hide EachRun, EachCash, LedgerInv, Exclusive, OneJournalEach, Banked, Subsequence, Numbered;
    OpenCashHere(env, w, run);
  }

  lemma OtherCashKeeps(env: Env, w: World, e: Event, run: RunId)
    requires ValidSeed(env.seed) && Inv(env, w) && run in w.cash && !(e.CloseCash? && e.run == run && Enabled(w, e))
    ensures CashFlagged(Step(env, w, e), run) <==> CashFlagged(w, run)
  {
    hide RunInv, CashInv, EachRun, EachCash, LedgerInv, Exclusive, OneJournalEach, Step, ValidSeed, ViewOf, CashAwaits,
      Awaits;
    if Enabled(w, e) && CashRunOf(e) == Some(run) {
      var v := CashStepGood(env, w, e, run);
    } else {
      StepFrame(env, w, e, run);
    }
  }

  lemma NewCashUnflagged(env: Env, w: World, e: Event, run: RunId)
    requires Inv(env, w) && run !in w.cash
    ensures !CashFlagged(Step(env, w, e), run)
  {
    hide RunInv, CashInv, EachRun, EachCash, LedgerInv, Exclusive, OneJournalEach, RunStep, CashStep, Do, Awaits,
      CashAwaits, MaxSequence, Keys, Reports, JournalsOf, DocumentsOf, RemittancesOf, MadeBy, Trail;
    if Enabled(w, e) {
      if RunOf(e).Some? {
        var v := RunStepGood(env, w, e, RunOf(e).value);
      } else if CashRunOf(e).Some? {
        var v := CashStepGood(env, w, e, CashRunOf(e).value);
      }
    }
  }

  lemma StepFlagsCash(env: Env, w: World, e: Event, run: RunId)
    requires ValidSeed(env.seed) && Inv(env, w)
    ensures CashFlagged(Step(env, w, e), run) <==> CashFlagged(w, run) || ClosesClean(env, w, e, run)
  {
    hide Inv, ValidSeed, Step, CashOutcome;
    if run !in w.cash {
      NewCashUnflagged(env, w, e, run);
    } else if e.CloseCash? && e.run == run && Enabled(w, e) {
      CloseStarts(env, w, e, run);
      StaysCash(env, w, e, run);
      ReceivableFlagExactly(env, w, run, e.io);
    } else {
      OtherCashKeeps(env, w, e, run);
    }
  }

  lemma StaysCash(env: Env, w: World, e: Event, run: RunId)
    requires Inv(env, w) && CashRunOf(e) == Some(run) && Enabled(w, e)
    ensures run in Step(env, w, e).cash
  {
    hide RunInv, CashInv, EachRun, EachCash, LedgerInv, Exclusive, OneJournalEach, Step, ViewOf, Enabled;
    var v := CashStepGood(env, w, e, run);
  }

  ghost function Clean(env: Env, run: RunId): (World, Event) -> bool {
    (w, e) => ClosesClean(env, w, e, run)
  }

  /** In every execution a receivable run carries the flag exactly when it once closed a remittance with cash applied,
      nothing unresolved and its last write landing. */
  lemma {:induction false} CashFlagExactly(env: Env, events: seq<Event>, run: RunId)
    requires ValidSeed(env.seed)
    ensures CashFlagged(Execute(env, events), run) <==> Ever(env, events, Clean(env, run))
  {
    hide Step, Inv, ValidSeed, ClosesClean, Ever;
    if events == [] {
      NothingCleanYet(env, run);
    } else {
      var before := events[..|events| - 1];
      CashFlagExactly(env, before, run);
      AlwaysValid(env, before);
      StepFlagsCash(env, Execute(env, before), events[|events| - 1], run);
      EverGrows(env, events, Clean(env, run));
    }
  }

  lemma NothingCleanYet(env: Env, run: RunId)
    ensures !CashFlagged(Init(env), run) && !Ever(env, [], Clean(env, run))
  {
  }

  lemma SetSizes<T>(a: set<T>, b: set<T>)
    requires a <= b
    ensures |b| == |a| + |b - a|
  {
    assert b == a + (b - a);
  }

  lemma DisjointSizes<T>(a: set<T>, b: set<T>)
    requires a !! b
    ensures |a + b| == |a| + |b|
  {
  }

  lemma CountedAre(env: Env, events: seq<Event>)
    requires ValidSeed(env.seed)
    ensures var w := Execute(env, events);
            && StraightThroughRuns(w.tables.runs) == FlaggedPayables(w) + FlaggedReceivables(w)
            && FlaggedPayables(w) !! FlaggedReceivables(w)
            && FlaggedPayables(w) <= PostedRuns(w)
  {
    hide Execute, ValidSeed, Posted;
    AllKnown(env, events);
    forall r | r in FlaggedPayables(Execute(env, events))
      ensures r in PostedRuns(Execute(env, events))
    {
      CountedRunsPosted(env, events, r);
    }
  }

  /** The reported count against the unattended postings: it is short by the postings whose flag was lost and long by
      the receivable runs it counts, so it is right exactly when those are equally many. */
  lemma CountExactly(env: Env, events: seq<Event>)
    requires ValidSeed(env.seed)
    ensures var w := Execute(env, events);
            var lost := PostedRuns(w) - FlaggedPayables(w);
            && StatsOf(w.tables).straightThrough + |lost| == |PostedRuns(w)| + |FlaggedReceivables(w)|
            && (StatsOf(w.tables).straightThrough == |PostedRuns(w)| <==> |lost| == |FlaggedReceivables(w)|)
  {
    hide Execute, ValidSeed, PostedRuns, FlaggedPayables, FlaggedReceivables, StraightThroughRuns;
    var w := Execute(env, events);
    CountedAre(env, events);
    SetSizes(FlaggedPayables(w), PostedRuns(w));
    DisjointSizes(FlaggedPayables(w), FlaggedReceivables(w));
  }

  /** The reported counts stay ordered: straight through within completed within all. */
  lemma StatsAlwaysOrdered(env: Env, events: seq<Event>)
    requires ValidSeed(env.seed)
    ensures var s := StatsOf(Execute(env, events).tables);
            s.straightThrough <= s.completed <= s.totalRuns
  {
    hide Execute, ValidSeed, StatsOf, RunInv, ViewOf, Subsequence, Numbered;
    AllKnown(env, events);
    var w := Execute(env, events);
    forall r | r in w.tables.runs && w.tables.runs[r].straightThrough
      ensures w.tables.runs[r].status == Completed
    {
      if r in w.procs {
        RunValid(env, events, r);
        ViewParts(w, r);
        FlaggedMeans(env, r, ViewOf(w, r));
      } else {
        CashValid(env, events, r);
      }
    }
    StatsOrdered(w.tables);
  }
}
