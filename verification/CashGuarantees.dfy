/** What every execution guarantees of the receivable runs in it, whoever else applies cash meanwhile. */
module CashGuarantees {
  import opened Prelude
  import opened Money
  import opened Schemas
  import opened MockErp
  import opened Client
  import opened Remittances
  import opened Receivable
  import opened Repository
  import opened Workflow
  import opened Views
  import opened RunInvariant
  import opened CashInvariant
  import opened WorkflowInvariant
  import opened Guarantees

  // Stored remittances

  /** Every application a remittance row records was made by the ERP at the request of its run, in that order; and a row
      that says applied has one for each payment due, in order. */
  lemma StoredApplications(env: Env, events: seq<Event>, row: RemittanceRow)
    requires ValidSeed(env.seed) && row in Execute(env, events).tables.remittances
    ensures var w := Execute(env, events);
            && row.run in w.cash
            && Stored(env, w.cash[row.run].ch, MadeBy(w.ledger.cashbook, w.payers, row.run), row)
  {
    hide Execute, ValidSeed, Stored, Trail, MadeBy, Subsequence, Numbered, Progress;
    AllKnown(env, events);
    CashValid(env, events, row.run);
    assert row in CashViewOf(Execute(env, events), row.run).remittances;
  }

  lemma FlaggedStores(env: Env, v: CashView) returns (row: RemittanceRow)
    requires CashInv(env, v) && v.row.straightThrough
    ensures v.row.status == Completed && row in v.remittances && row.applied
    ensures Stored(env, v.process.ch, v.made, row)
  {
    hide Stored, Subsequence, Numbered, Progress;
    row :| row in v.remittances && row.applications != [] && (v.row.straightThrough ==> row.applied);
  }

  /** What a flagged receivable row says was moved: its run completed with a stored remittance on which nothing is
      unresolved and whose every payment the ERP answered, each with the smaller of the payment and what its item had
      open just then. So the declared total is what was applied, and what the items did not cover, to within the
      tolerance and half a cent a figure, whatever anybody did to the items after they were fetched. */
  lemma FlaggedRemittance(env: Env, events: seq<Event>, run: RunId) returns (row: RemittanceRow)
    requires ValidSeed(env.seed)
    requires var w := Execute(env, events);
             run in w.cash && run in w.tables.runs && w.tables.runs[run].straightThrough
    ensures var w := Execute(env, events);
            var ch := w.cash[run].ch;
            && w.tables.runs[run].status == Completed && row in w.tables.remittances && row.run == run
            && Subsequence(row.applications, MadeBy(w.ledger.cashbook, w.payers, run))
            && ch.remittance.Some? && |row.applications| == |Due(env, ch)| && row.applications != []
            && (forall k :: 0 <= k < |row.applications| ==> Answers(row.applications[k], Due(env, ch)[k]))
            && UnresolvedOf(env.text, ch.remittance.value, ch.items, env.cfg.remittanceToleranceAbs) == []
            && Abs(DeclaredOf(env.text, ch.remittance.value, ch.items) - Sum(AppliedColumn(row.applications))
                   - Sum(Uncovered(row.applications, Due(env, ch))))
               <= env.cfg.remittanceToleranceAbs + 0.005 * (|row.applications| + 1) as real
            && (PrintsTotal(ch.remittance.value) ==>
                  Abs(ch.remittance.value.totalPaid.value - Sum(AppliedColumn(row.applications))
                      - Sum(Uncovered(row.applications, Due(env, ch))))
                  <= env.cfg.remittanceToleranceAbs + 0.005 * (|row.applications| + 1) as real)
  {
    hide Execute, ValidSeed, CashInv, Trail, MadeBy, Subsequence, Numbered, Answers, UnresolvedOf, DeclaredOf,
      Uncovered, AppliedColumn, PaymentsOf, Rounded, Sum;
    CashValid(env, events, run);
    var w := Execute(env, events);
    row := FlaggedStores(env, CashViewOf(w, run));
    var ch := w.cash[run].ch;
    AppliedAccounts(
      env.text, ch.remittance.value, ch.items, env.cfg.remittanceToleranceAbs, row.applications);
  }

  /** It covers all that was due exactly when no item had less open than its payment when that was taken. */
  lemma FlaggedCoversExactly(env: Env, events: seq<Event>, run: RunId) returns (row: RemittanceRow)
    requires ValidSeed(env.seed)
    requires var w := Execute(env, events);
             run in w.cash && run in w.tables.runs && w.tables.runs[run].straightThrough
    ensures var w := Execute(env, events);
            var ch := w.cash[run].ch;
            && row in w.tables.remittances && row.run == run
            && ch.remittance.Some? && |row.applications| == |Due(env, ch)|
            && (Sum(AppliedColumn(row.applications)) == Sum(Amounts(Due(env, ch))) <==>
                forall k :: 0 <= k < |row.applications| ==>
                  row.applications[k].applied + row.applications[k].residual >= Due(env, ch)[k].amount)
  {
    hide Execute, ValidSeed, MadeBy, Subsequence, Answers, UnresolvedOf, DeclaredOf, Uncovered, AppliedColumn, Sum, Due;
    row := FlaggedRemittance(env, events, run);
    AnsweredSum(row.applications, Due(env, Execute(env, events).cash[run].ch));
  }

  // The ERP, as requests leave it

  predicate Reaches(delivery: Delivery) {
    delivery.Answered? || delivery.Lost? || delivery == Broken(true)
  }

  /** What an event asks of the ERP, if it gets there. */
  function Request(w: World, e: Event): seq<Op> {
    if !Enabled(w, e) then []
    else
      match e
      case External(op) => [op]
      case Send(run, delivery) => if Reaches(delivery) then [PostOp(w.procs[run].pc.entry)] else []
      case Pay(run, delivery) =>
        var payment := w.cash[run].pc.left[0];
        if Reaches(delivery) then [CashOp(payment.item.id, payment.amount)] else []
      case _ => []
  }

  function Requests(env: Env, events: seq<Event>): seq<Op> {
    if events == [] then []
    else
      var before := events[..|events| - 1];
      Requests(env, before) + Request(Execute(env, before), events[|events| - 1])
  }

  lemma SendRequest(w: World, run: RunId, delivery: Delivery, seed: Seed)
    requires run in w.procs && w.procs[run].pc.Sending?
    ensures var pc := w.procs[run].pc;
            SendStep(w, run, pc.entry, pc.attempt, delivery).ledger ==
            if Reaches(delivery) then Do(w.ledger, seed, PostOp(pc.entry)) else w.ledger
  {
    hide Post;
  }

  lemma PayRequest(w: World, run: RunId, delivery: Delivery, seed: Seed)
    requires run in w.cash && w.cash[run].pc.Paying? && w.cash[run].pc.left != []
    ensures var payment := w.cash[run].pc.left[0];
            PayStep(w, run, delivery).ledger ==
            if Reaches(delivery) then Do(w.ledger, seed, CashOp(payment.item.id, payment.amount)) else w.ledger
  {
    hide ApplyCash;
  }

  lemma RequestDone(env: Env, w: World, e: Event, ops: seq<Op>)
    requires w.ledger == After(env.seed, ops)
    ensures Step(env, w, e).ledger == After(env.seed, ops + Request(w, e))
  {
    hide Do, SendStep, PayStep, Reaches;
    if Request(w, e) == [] {
      assert ops + [] == ops;
    } else {
      assert (ops + Request(w, e))[..|ops|] == ops;
    }
    if e.Send? && Enabled(w, e) {
      SendRequest(w, e.run, e.delivery, env.seed);
    } else if e.Pay? && Enabled(w, e) {
      PayRequest(w, e.run, e.delivery, env.seed);
    } else {
      OnlyPostingPosts(env, w, e);
    }
  }

  /** In every execution the ERP is where the requests that reached it lead, one after another: all that is proved of
      sequences of requests holds in executions. */
  lemma {:induction false} LedgerReachable(env: Env, events: seq<Event>)
    ensures Execute(env, events).ledger == After(env.seed, Requests(env, events))
  {
    hide Step, Request, Fresh;
    if events != [] {
      var before := events[..|events| - 1];
      LedgerReachable(env, before);
      RequestDone(env, Execute(env, before), events[|events| - 1], Requests(env, before));
    }
  }

  // Amounts that are not negative

  predicate NonNegativeAdvices(remittance: Remittance) {
    forall k :: 0 <= k < |remittance.advices| && remittance.advices[k].amountPaid.Some? ==>
      remittance.advices[k].amountPaid.value >= 0.0
  }

  /** Nobody outside applies a negative amount, and no remittance advises one. */
  predicate NonNegativeEvent(e: Event) {
    match e
    case External(op) => op.CashOp? ==> op.amount >= 0.0
    case DoExtractCash(_, found, _) => found.Some? ==> NonNegativeAdvices(found.value)
    case _ => true
  }

  predicate NonNegativeItems(items: seq<ArItem>) {
    forall k :: 0 <= k < |items| ==> items[k].openAmount >= 0.0
  }

  predicate NonNegativePayments(payments: seq<Payment>) {
    forall k :: 0 <= k < |payments| ==> payments[k].amount >= 0.0
  }

  /** Nothing a receivable run carries is negative. */
  predicate NonNegativeRun(p: CashProcess) {
    && (p.ch.remittance.Some? ==> NonNegativeAdvices(p.ch.remittance.value))
    && NonNegativeItems(p.ch.items) && (p.pc.Paying? ==> NonNegativePayments(p.pc.left))
  }

  lemma {:induction false} ByAdviceFromItems(items: seq<ArItem>, advices: seq<Advice>)
    ensures forall x :: x in ListByAdvice(items, advices) ==> x in items
  {
    if advices != [] {
      ByAdviceFromItems(items, advices[..|advices| - 1]);
    }
  }

  lemma FetchedFromItems(remittance: Remittance, named: Option<string>, fails: bool, items: seq<ArItem>)
    ensures forall x :: x in FetchOutcome(remittance, named, fails, items).items ==> x in items
  {
    ByAdviceFromItems(items, remittance.advices);
  }

  lemma {:induction false} NonNegativeDue(text: Text, advices: seq<Advice>, index: map<string, ArItem>)
    requires forall k :: 0 <= k < |advices| && advices[k].amountPaid.Some? ==> advices[k].amountPaid.value >= 0.0
    requires forall key :: key in index ==> index[key].openAmount >= 0.0
    ensures NonNegativePayments(Payments(text, advices, index))
  {
    if advices != [] {
      NonNegativeDue(text, advices[..|advices| - 1], index);
    }
  }

  lemma NonNegativeBegin(env: Env, ch: CashChannel)
    requires ch.remittance.Some? && NonNegativeAdvices(ch.remittance.value) && NonNegativeItems(ch.items)
    ensures NonNegativePayments(Due(env, ch))
  {
    hide Q, Payments;
    ByInvoiceSound(env.text, ch.items);
    NonNegativeDue(env.text, ch.remittance.value.advices, ByInvoice(env.text, ch.items));
    var payments := PaymentsOf(env.text, ch.remittance.value, ch.items);
    forall k | 0 <= k < |payments|
      ensures Q(payments[k].amount) >= 0.0
    {
      QNonNegative(payments[k].amount);
    }
  }

  /** A run's items are told apart by their ids, and nothing it carries is negative if nothing comes in negative. */
  predicate Sane(p: CashProcess, calm: bool) {
    OnePerId(p.ch.items) && (calm ==> NonNegativeRun(p))
  }

  lemma FetchedOnce(l: Ledger, remittance: Remittance, named: Option<string>, fails: bool)
    requires DistinctItems(l.items)
    ensures OnePerId(FetchOutcome(remittance, named, fails, l.items).items)
    ensures NonNegativeItems(l.items) ==> NonNegativeItems(FetchOutcome(remittance, named, fails, l.items).items)
  {
    hide FetchOutcome;
    FetchedFromItems(remittance, named, fails, l.items);
    var fetched := FetchOutcome(remittance, named, fails, l.items).items;
    assert forall k :: 0 <= k < |fetched| ==> fetched[k] in l.items;
    forall x, y | x in fetched && y in fetched && x.id == y.id
      ensures x == y
    {
      assert x in l.items && y in l.items;
      var i :| 0 <= i < |l.items| && l.items[i] == x;
      var j :| 0 <= j < |l.items| && l.items[j] == y;
    }
  }

  lemma NoItems()
    ensures OnePerId([]) && NonNegativeItems([])
  {
  }

  lemma FetchSane(w: World, run: RunId, named: Option<string>, fails: bool, io: Io, calm: bool)
    requires run in w.cash && Sane(w.cash[run], calm) && w.cash[run].pc.CashAt?
    requires DistinctItems(w.ledger.items) && (calm ==> NonNegativeItems(w.ledger.items))
    ensures var after := FetchCashStep(w, run, named, fails, io);
            run in after.cash && Sane(after.cash[run], calm)
  {
    hide AppendAudit, FetchOutcome, OnePerId, NonNegativeItems, NonNegativeAdvices, NonNegativePayments, DistinctItems;
    var ch := w.cash[run].ch;
    if ch.remittance.Some? {
      FetchedOnce(w.ledger, ch.remittance.value, named, fails);
    } else {
      NoItems();
    }
  }

  lemma BeginSane(env: Env, w: World, run: RunId, io: Io, calm: bool)
    requires run in w.cash && Sane(w.cash[run], calm) && w.cash[run].pc.CashAt?
    ensures var after := BeginCashStep(env, w, run, io);
            run in after.cash && Sane(after.cash[run], calm)
  {
    hide UpdateRun, PaymentsOf, Rounded, OnePerId, NonNegativeItems, NonNegativeAdvices, NonNegativePayments;
    if w.cash[run].ch.remittance.Some? && calm {
      NonNegativeBegin(env, w.cash[run].ch);
    }
  }

  lemma PaySane(w: World, run: RunId, delivery: Delivery, calm: bool)
    requires run in w.cash && Sane(w.cash[run], calm) && w.cash[run].pc.Paying? && w.cash[run].pc.left != []
    ensures var after := PayStep(w, run, delivery);
            run in after.cash && Sane(after.cash[run], calm)
  {
    hide Attempt, OnePerId, NonNegativeItems, NonNegativeAdvices;
  }

  lemma ParseSane(w: World, run: RunId, readable: bool, io: Io, calm: bool)
    requires run in w.cash && Sane(w.cash[run], calm) && w.cash[run].pc.CashAt?
    ensures var after := ParseCashStep(w, run, readable, io);
            run in after.cash && Sane(after.cash[run], calm)
  {
    hide AppendAudit, UpdateRun, OnePerId, NonNegativeItems, NonNegativeAdvices, NonNegativePayments;
  }

  lemma ExtractSane(w: World, run: RunId, found: Option<Remittance>, io: Io, calm: bool)
    requires run in w.cash && Sane(w.cash[run], calm) && w.cash[run].pc.CashAt?
    requires calm && found.Some? ==> NonNegativeAdvices(found.value)
    ensures var after := ExtractCashStep(w, run, found, io);
            run in after.cash && Sane(after.cash[run], calm)
  {
    hide AppendAudit, UpdateRun, OnePerId, NonNegativeItems, NonNegativeAdvices, NonNegativePayments;
  }

  lemma FailSane(w: World, run: RunId, io: Io, calm: bool)
    requires run in w.cash && Sane(w.cash[run], calm) && w.cash[run].pc.CashAt?
    ensures var after := FailCashStep(w, run, io);
            run in after.cash && Sane(after.cash[run], calm)
  {
    hide AppendAudit, UpdateRun, OnePerId, NonNegativeItems, NonNegativeAdvices, NonNegativePayments;
  }

  lemma CloseSane(w: World, run: RunId, result: CashResult, io: Io, calm: bool)
    requires run in w.cash && Sane(w.cash[run], calm)
    ensures var after := StoreOutcome(w, run, result, io);
            run in after.cash && Sane(after.cash[run], calm)
  {
    hide AppendAudit, UpdateRun, OnePerId, NonNegativeItems, NonNegativeAdvices, NonNegativePayments;
  }

  lemma MoveSane(w: World, run: RunId, pc: CashPc, calm: bool)
    requires run in w.cash && Sane(w.cash[run], calm) && !pc.Paying?
    ensures var after := CashMove(w, run, pc);
            run in after.cash && Sane(after.cash[run], calm)
  {
  }

  lemma OwnStep(env: Env, w: World, e: Event, run: RunId, calm: bool)
    requires CashRunOf(e) == Some(run) && run in w.cash && CashAwaits(w.cash[run], e) && Sane(w.cash[run], calm)
    requires DistinctItems(w.ledger.items) && (calm ==> NonNegativeEvent(e) && NonNegativeItems(w.ledger.items))
    ensures run in CashStep(env, w, e).cash && Sane(CashStep(env, w, e).cash[run], calm)
  {
    hide Sane, DistinctItems, NonNegativeItems, ParseCashStep, ExtractCashStep, FetchCashStep, BeginCashStep, PayStep,
      StoreOutcome, CashOutcome, FailCashStep, CashMove;
    if e.DoParseCash? {
      ParseSane(w, run, e.readable, e.io, calm);
    } else if e.DoExtractCash? {
      ExtractSane(w, run, e.found, e.io, calm);
    } else if e.DoFetchCash? {
      FetchSane(w, run, e.named, e.fails, e.io, calm);
    } else if e.BeginCash? {
      BeginSane(env, w, run, e.io, calm);
    } else if e.Pay? {
      PaySane(w, run, e.delivery, calm);
    } else if e.CloseCash? {
      var pc := w.cash[run].pc;
      CloseSane(w, run, CashOutcome(env, w, w.cash[run].ch, pc.applied, pc.failures), e.io, calm);
    } else if e.DoFailCash? {
      FailSane(w, run, e.io, calm);
    } else {
      var pc := w.cash[run].pc;
      MoveSane(w, run, if e.DieCash? then CashCrashed(CashNodeOf(pc).value) else CashAt(pc.node), calm);
    }
  }

  lemma SeededIds(l: Ledger, seed: Seed)
    requires ValidSeed(seed) && LedgerInv(l, seed)
    ensures DistinctItems(l.items)
  {
  }

  lemma NewcomerSane(env: Env, w: World, e: Event, run: RunId, calm: bool)
    requires Known(w) && run !in w.cash && run in Step(env, w, e).cash
    requires CashRunOf(e).Some? && Enabled(w, e) ==> Step(env, w, e).cash.Keys == w.cash.Keys
    requires RunOf(e).Some? && Enabled(w, e) ==> Step(env, w, e).cash.Keys == w.cash.Keys
    ensures Sane(Step(env, w, e).cash[run], calm)
  {
    hide RunStep, CashStep, Do, MaxSequence;
  }

  lemma SameRuns(env: Env, w: World, e: Event)
    requires ValidSeed(env.seed) && Inv(env, w) && Enabled(w, e) && (RunOf(e).Some? || CashRunOf(e).Some?)
    ensures Step(env, w, e).cash.Keys == w.cash.Keys
  {
    hide RunInv, CashInv, EachRun, EachCash, LedgerInv, Exclusive, OneJournalEach, RunStep, CashStep, Enabled,
      ValidSeed, ViewOf, CashViewOf, Step;
    if RunOf(e).Some? {
      var v := RunStepGood(env, w, e, RunOf(e).value);
    } else {
      var v := CashStepGood(env, w, e, CashRunOf(e).value);
    }
  }

  lemma StepSane(env: Env, w: World, e: Event, run: RunId, calm: bool)
    requires ValidSeed(env.seed) && Inv(env, w) && run in Step(env, w, e).cash
    requires forall c :: c in w.cash ==> Sane(w.cash[c], calm)
    requires calm ==> NonNegativeEvent(e) && NonNegativeItems(w.ledger.items)
    ensures Sane(Step(env, w, e).cash[run], calm)
  {
    hide EachRun, EachCash, LedgerInv, Exclusive, OneJournalEach, RunStep, CashStep, Sane, NonNegativeEvent,
      NonNegativeItems, CashAwaits, Awaits, ValidSeed, Do, StartStep, StartCashStep;
    SeededIds(w.ledger, env.seed);
    if RunOf(e).Some? || CashRunOf(e).Some? {
      if Enabled(w, e) {
        SameRuns(env, w, e);
      }
    }
    if run !in w.cash {
      NewcomerSane(env, w, e, run, calm);
    } else if Enabled(w, e) && CashRunOf(e) == Some(run) {
      OwnStep(env, w, e, run, calm);
    } else {
      StepFrame(env, w, e, run);
    }
  }

  predicate Calm(seed: Seed, events: seq<Event>) {
    PositiveItems(seed) && forall k :: 0 <= k < |events| ==> NonNegativeEvent(events[k])
  }

  lemma ItemsNonNegative(env: Env, events: seq<Event>)
    requires ValidSeed(env.seed) && PositiveItems(env.seed) && NonNegativeCash(Requests(env, events))
    ensures NonNegativeItems(Execute(env, events).ledger.items)
    ensures |Execute(env, events).ledger.items| == |env.seed.items|
    ensures forall i :: 0 <= i < |env.seed.items| ==> Settled(Execute(env, events).ledger.items[i])
  {
    hide Execute, ValidSeed, After, NonNegativeCash, PositiveItems;
    LedgerReachable(env, events);
    LedgerAlwaysValid(env.seed, Requests(env, events));
    forall i | 0 <= i < |env.seed.items|
      ensures Settled(Execute(env, events).ledger.items[i])
    {
      NeverOverApplied(env.seed, Requests(env, events), i);
    }
  }

  lemma RequestNonNegative(w: World, e: Event)
    requires NonNegativeEvent(e) && forall c :: c in w.cash ==> NonNegativeRun(w.cash[c])
    ensures NonNegativeCash(Request(w, e))
  {
    hide NonNegativeItems, NonNegativeAdvices;
  }

  /** In every execution the items a receivable run carries are told apart by their ids; and when nothing comes in
      negative, nothing it carries is, and neither is anything asked of the ERP. */
  lemma {:induction false} RunsSane(env: Env, events: seq<Event>, calm: bool)
    requires ValidSeed(env.seed) && (calm ==> Calm(env.seed, events))
    ensures forall c :: c in Execute(env, events).cash ==> Sane(Execute(env, events).cash[c], calm)
    ensures calm ==> NonNegativeCash(Requests(env, events))
  {
    hide Step, Inv, ValidSeed, Sane, NonNegativeEvent, Request, PositiveItems, NonNegativeItems;
    if events != [] {
      var before, e := events[..|events| - 1], events[|events| - 1];
      var w := Execute(env, before);
      RunsSane(env, before, calm);
      AlwaysValid(env, before);
      if calm {
        ItemsNonNegative(env, before);
        CalmRuns(w);
        RequestNonNegative(w, e);
      }
      forall c | c in Step(env, w, e).cash
        ensures Sane(Step(env, w, e).cash[c], calm)
      {
        StepSane(env, w, e, c, calm);
      }
    }
  }

  lemma CalmRuns(w: World)
    requires forall c :: c in w.cash ==> Sane(w.cash[c], true)
    ensures forall c :: c in w.cash ==> NonNegativeRun(w.cash[c])
  {
  }

  /** When nothing comes in negative, no execution ever over-applies an item, and cleared means paid in full. */
  lemma NothingOverApplied(env: Env, events: seq<Event>, i: nat)
    requires ValidSeed(env.seed) && Calm(env.seed, events) && i < |env.seed.items|
    ensures var items := Execute(env, events).ledger.items;
            |items| == |env.seed.items| && Settled(items[i])
  {
    hide Execute, ValidSeed, Settled, PositiveItems, NonNegativeEvent, NonNegativeCash;
    RunsSane(env, events, true);
    ItemsNonNegative(env, events);
  }

  /** What the bound on straight-through remittances asks of the fetched items, every run of every execution meets. */
  lemma FetchedConditions(env: Env, events: seq<Event>, run: RunId)
    requires ValidSeed(env.seed) && run in Execute(env, events).cash
    ensures var ch := Execute(env, events).cash[run].ch;
            && OnePerId(ch.items)
            && (Calm(env.seed, events) && ch.remittance.Some? ==> NonNegative(ch.remittance.value.advices, ch.items))
  {
    hide Execute, ValidSeed, OnePerId, Calm;
    RunsSane(env, events, false);
    if Calm(env.seed, events) {
      RunsSane(env, events, true);
    }
  }
}
