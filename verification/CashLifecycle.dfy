/** How receivable runs proceed: each finishes, in time the size of its remittance allows. */
module CashLifecycle {
  import opened Prelude
  import opened MockErp
  import opened Client
  import opened Remittances
  import opened Receivable
  import opened Repository
  import opened Workflow
  import opened CashInvariant
  import opened WorkflowInvariant

  /** How many more events a run can take before it ends or dies: its nodes, and three attempts for each payment left;
      before the payments are known, for each of n advice lines. */
  function CashRank(pc: CashPc, n: nat): nat {
    match pc
    case CashAt(ParseCash) => 3 * n + 5
    case CashAt(ExtractCash) => 3 * n + 4
    case CashAt(FetchCash) => 3 * n + 3
    case CashAt(ApplyingCash) => 3 * n + 2
    case CashAt(FailedCash) => 1
    case Paying(left, attempt, _, _) =>
      if left == [] then 1 else if attempt < MAX_ATTEMPTS then 3 * |left| + 1 - attempt else 0
    case _ => 0
  }

  /** The run's remittance, once it has one, has at most n advice lines. */
  predicate Sized(ch: CashChannel, n: nat) {
    ch.remittance.Some? ==> |ch.remittance.value.advices| <= n
  }

  /** An event that continues a run without anybody bringing it back, and brings in no longer a remittance. */
  predicate CashContinues(e: Event, run: RunId, n: nat) {
    && CashRunOf(e) == Some(run) && !e.RedriveCash?
    && (e.DoExtractCash? && e.found.Some? ==> |e.found.value.advices| <= n)
  }

  /** The next thing an unfinished run does. */
  function NextCashEvent(run: RunId, pc: CashPc): Event {
    var io := Io(true, true, true, true, true);
    match pc
    case CashAt(ParseCash) => DoParseCash(run, true, io)
    case CashAt(ExtractCash) => DoExtractCash(run, None, io)
    case CashAt(FetchCash) => DoFetchCash(run, None, false, io)
    case CashAt(ApplyingCash) => BeginCash(run, io)
    case CashAt(FailedCash) => DoFailCash(run, io)
    case Paying(left, _, _, _) => if left == [] then CloseCash(run, io) else Pay(run, Answered)
    case _ => DieCash(run)
  }

  /** What is known of a run that has come to apply cash. */
  lemma KnownOf(env: Env, w: World, run: RunId)
    requires Inv(env, w) && run in w.cash
    ensures run in w.tables.runs
    ensures var p := w.cash[run];
            && (p.pc == CashAt(ApplyingCash) || p.pc.Paying? ==> p.ch.remittance.Some?)
            && (p.pc.Paying? ==> p.pc.attempt < MAX_ATTEMPTS)
  {
    hide EachRun, EachCash, LedgerInv, Exclusive, OneJournalEach, Banked, Subsequence, Settles;
    OpenCashHere(env, w, run);
  }

  /** A receivable run that is neither over nor dead always has a next event. */
  lemma CashNeverStuck(env: Env, w: World, run: RunId, n: nat)
    requires Inv(env, w) && run in w.cash && CashRank(w.cash[run].pc, n) > 0
    ensures var e := NextCashEvent(run, w.cash[run].pc);
            Enabled(w, e) && CashContinues(e, run, n) && !e.DieCash?
  {
    hide Inv;
    KnownOf(env, w, run);
  }

  /** What a step makes of its run: closer to its end, and its remittance no longer. */
  predicate Closer(w: World, after: World, run: RunId, n: nat)
    requires run in w.cash
  {
    && run in after.cash && Sized(after.cash[run].ch, n)
    && CashRank(after.cash[run].pc, n) < CashRank(w.cash[run].pc, n)
  }

  lemma ParseCloser(w: World, run: RunId, readable: bool, io: Io, n: nat)
    requires run in w.cash && Sized(w.cash[run].ch, n) && w.cash[run].pc == CashAt(ParseCash)
    ensures Closer(w, ParseCashStep(w, run, readable, io), run, n)
  {
    hide AppendAudit, UpdateRun;
  }

  lemma ExtractCloser(w: World, run: RunId, found: Option<Remittance>, io: Io, n: nat)
    requires run in w.cash && Sized(w.cash[run].ch, n) && w.cash[run].pc == CashAt(ExtractCash)
    requires found.Some? ==> |found.value.advices| <= n
    ensures Closer(w, ExtractCashStep(w, run, found, io), run, n)
  {
    hide AppendAudit, UpdateRun;
  }

  lemma FetchCloser(w: World, run: RunId, named: Option<string>, fails: bool, io: Io, n: nat)
    requires run in w.cash && Sized(w.cash[run].ch, n) && w.cash[run].pc == CashAt(FetchCash)
    ensures Closer(w, FetchCashStep(w, run, named, fails, io), run, n)
  {
    hide AppendAudit, FetchOutcome;
  }

  /** There are at most as many payments as advice lines. */
  lemma BeginCloser(env: Env, w: World, run: RunId, io: Io, n: nat)
    requires run in w.cash && Sized(w.cash[run].ch, n) && w.cash[run].pc == CashAt(ApplyingCash)
    ensures Closer(w, BeginCashStep(env, w, run, io), run, n)
  {
    hide UpdateRun, Payments, ByInvoice;
    var ch := w.cash[run].ch;
    if ch.remittance.Some? {
      PaymentsCount(env.text, ch.remittance.value.advices, ByInvoice(env.text, ch.items));
    }
  }

  lemma PayCloser(w: World, run: RunId, delivery: Delivery, n: nat)
    requires run in w.cash && Sized(w.cash[run].ch, n) && w.cash[run].pc.Paying? && w.cash[run].pc.left != []
    requires w.cash[run].pc.attempt < MAX_ATTEMPTS
    ensures Closer(w, PayStep(w, run, delivery), run, n)
  {
    hide ApplyCash;
    var pc := w.cash[run].pc;
    assert |pc.left[1..]| == |pc.left| - 1;
  }

  lemma CloseCloser(w: World, run: RunId, result: CashResult, io: Io, n: nat)
    requires run in w.cash && Sized(w.cash[run].ch, n) && w.cash[run].pc.Paying? && w.cash[run].pc.left == []
    ensures Closer(w, StoreOutcome(w, run, result, io), run, n)
  {
    hide AppendAudit, UpdateRun;
  }

  lemma FailCloser(w: World, run: RunId, io: Io, n: nat)
    requires run in w.cash && Sized(w.cash[run].ch, n) && w.cash[run].pc == CashAt(FailedCash)
    ensures Closer(w, FailCashStep(w, run, io), run, n)
  {
    hide UpdateRun;
  }

  /** Every event of a receivable run's own brings it closer to its end. */
  lemma CashWorkDone(env: Env, w: World, e: Event, run: RunId, n: nat)
    requires Inv(env, w) && Enabled(w, e) && CashContinues(e, run, n) && Sized(w.cash[run].ch, n)
    ensures Closer(w, Step(env, w, e), run, n)
  {
    hide Inv, Closer, Sized, ParseCashStep, ExtractCashStep, FetchCashStep, BeginCashStep, PayStep, StoreOutcome,
      CashOutcome, FailCashStep, RunStep;
    KnownOf(env, w, run);
    if e.DoParseCash? {
      ParseCloser(w, run, e.readable, e.io, n);
    } else if e.DoExtractCash? {
      ExtractCloser(w, run, e.found, e.io, n);
    } else if e.DoFetchCash? {
      FetchCloser(w, run, e.named, e.fails, e.io, n);
    } else if e.BeginCash? {
      BeginCloser(env, w, run, e.io, n);
    } else if e.Pay? {
      PayCloser(w, run, e.delivery, n);
    } else if e.CloseCash? {
      var pc := w.cash[run].pc;
      CloseCloser(w, run, CashOutcome(env, w, w.cash[run].ch, pc.applied, pc.failures), e.io, n);
    } else if e.DoFailCash? {
      FailCloser(w, run, e.io, n);
    } else {
      DieCloser(w, run, n);
    }
  }

  lemma DieCloser(w: World, run: RunId, n: nat)
    requires run in w.cash && Sized(w.cash[run].ch, n) && (w.cash[run].pc.CashAt? || w.cash[run].pc.Paying?)
    requires w.cash[run].pc.Paying? ==> w.cash[run].pc.attempt < MAX_ATTEMPTS
    ensures Closer(w, CashMove(w, run, CashCrashed(CashNodeOf(w.cash[run].pc).value)), run, n)
  {
  }

  /** How many of the events that follow are this run's, and happen. */
  function CashWork(env: Env, w: World, more: seq<Event>, run: RunId): nat
    decreases |more|
  {
    if more == [] then 0
    else
      (if Enabled(w, more[0]) && CashRunOf(more[0]) == Some(run) then 1 else 0)
          + CashWork(env, Step(env, w, more[0]), more[1..], run)
  }

  lemma SameCashProcess(env: Env, w: World, e: Event, run: RunId)
    requires Inv(env, w) && run in w.cash && !(Enabled(w, e) && CashRunOf(e) == Some(run))
    ensures run in Step(env, w, e).cash && Step(env, w, e).cash[run] == w.cash[run]
  {
    hide EachRun, EachCash, LedgerInv, Exclusive, OneJournalEach, Step, Awaits, CashAwaits;
    StepFrame(env, w, e, run);
  }

  lemma {:induction false} CashWorkBounded(env: Env, w: World, more: seq<Event>, run: RunId, n: nat)
    requires ValidSeed(env.seed) && Inv(env, w) && run in w.cash && Sized(w.cash[run].ch, n)
    requires forall k :: 0 <= k < |more| ==> CashRunOf(more[k]) != Some(run) || CashContinues(more[k], run, n)
    ensures CashWork(env, w, more, run) <= CashRank(w.cash[run].pc, n)
    decreases |more|
  {
    hide Inv, Step, CashRank, ValidSeed, Enabled, CashRunOf, Sized;
    if more != [] {
      var e := more[0];
      StepKeeps(env, w, e);
      if Enabled(w, e) && CashRunOf(e) == Some(run) {
        CashWorkDone(env, w, e, run, n);
      } else {
        SameCashProcess(env, w, e, run);
      }
      CashWorkBounded(env, Step(env, w, e), more[1..], run, n);
    }
  }

  lemma CashRankMeans(pc: CashPc, n: nat)
    requires pc.Paying? ==> pc.attempt < MAX_ATTEMPTS
    ensures CashRank(pc, n) == 0 <==> pc.CashEnded? || pc.CashCrashed?
    ensures !pc.Paying? ==> CashRank(pc, n) <= 3 * n + 5
    ensures pc.Paying? ==> CashRank(pc, n) <= 3 * |pc.left| + 1
  {
  }

  /** Left alone among any other runs, a receivable run with at most n advice lines takes at most three events for each
      of
      them and five more, or once it pays, three for each payment left and one more, before it has ended or died; and
      until then it can always go on. */
  lemma EveryCashRunFinishes(env: Env, events: seq<Event>, more: seq<Event>, run: RunId, n: nat)
    requires ValidSeed(env.seed) && run in Execute(env, events).cash && Sized(Execute(env, events).cash[run].ch, n)
    requires forall k :: 0 <= k < |more| ==> CashRunOf(more[k]) != Some(run) || CashContinues(more[k], run, n)
    ensures var pc := Execute(env, events).cash[run].pc;
            && CashWork(env, Execute(env, events), more, run) <= CashRank(pc, n)
            && CashRank(pc, n) <= (if pc.Paying? then 3 * |pc.left| + 1 else 3 * n + 5)
            && (CashRank(pc, n) == 0 <==> pc.CashEnded? || pc.CashCrashed?)
  {
    hide Inv, Execute, ValidSeed, CashWork, CashRank, Sized, CashContinues;
    AlwaysValid(env, events);
    var w := Execute(env, events);
    KnownOf(env, w, run);
    CashWorkBounded(env, w, more, run, n);
    CashRankMeans(w.cash[run].pc, n);
  }
}
