/** The cash application node of a run nobody else gets between: every payment in turn, each retried until final. */
module PayingNode {
  import opened Prelude
  import opened Money
  import opened Schemas
  import opened MockErp
  import opened Client
  import opened Remittances
  import opened Receivable
  import opened Repository
  import opened Workflow
  import opened WorkflowInvariant

  /** The attempts at the first payment left, from the k-th on. */
  function PayOne(w: World, run: RunId, ds: Deliveries, k: nat): (after: World)
    requires run in w.cash && w.cash[run].pc.Paying? && w.cash[run].pc.left != [] && k < MAX_ATTEMPTS
    ensures run in after.cash
    decreases MAX_ATTEMPTS - k
  {
    var next := PayStep(w, run, ds[k]);
    if next.cash[run].pc.Paying? && next.cash[run].pc.left == w.cash[run].pc.left && k + 1 < MAX_ATTEMPTS
    then PayOne(next, run, ds, k + 1)
    else next
  }

  function PayAll(w: World, run: RunId, weather: seq<Deliveries>): (after: World)
    requires run in w.cash
    ensures run in after.cash
    decreases |weather|
  {
    if weather == [] || !w.cash[run].pc.Paying? || w.cash[run].pc.left == [] then w
    else PayAll(PayOne(w, run, weather[0], 0), run, weather[1..])
  }

  /** Begin, pay, close: what the node as a whole does to the world. */
  function CashNodeStep(env: Env, w: World, run: RunId, begin: Io, weather: seq<Deliveries>, close: Io): World
    requires run in w.cash
  {
    var paid := PayAll(BeginCashStep(env, w, run, begin), run, weather);
    var p := paid.cash[run];
    if p.pc.Paying? && p.pc.left == [] && p.ch.remittance.Some?
    then CloseCashStep(env, paid, run, p.pc.applied, p.pc.failures, close)
    else paid
  }

  /** What the client's outcome of a payment makes of the run. */
  function AfterPayment(pc: CashPc, outcome: Outcome): CashPc
    requires pc.Paying? && pc.left != []
  {
    PaidPc(pc, Some(outcome))
  }

  lemma PaysOnce(w: World, run: RunId, delivery: Delivery)
    requires run in w.cash && w.cash[run].pc.Paying? && w.cash[run].pc.left != []
    ensures var pc := w.cash[run].pc;
            var call := CashCall(pc.left[0].item.id, pc.left[0].amount);
            var (ledger, outcome) := Attempt(w.ledger, call, delivery, pc.attempt == MAX_ATTEMPTS - 1);
            var next := PayStep(w, run, delivery);
            && next.ledger == ledger && next.tables == w.tables && next.procs == w.procs
            && run in next.cash && next.cash[run].ch == w.cash[run].ch && next.cash[run].pc == PaidPc(pc, outcome)
            && (outcome.None? <==> next.cash[run].pc.Paying? && next.cash[run].pc.left == pc.left)
            && (pc.attempt == MAX_ATTEMPTS - 1 ==> outcome.Some?)
  {
    hide ApplyCash, Post;
    var pc := w.cash[run].pc;
    assert |pc.left[1..]| < |pc.left|;
  }

  /** The machine's separate attempts at a payment, with nobody in between, are the client's one request. */
  lemma {:induction false} PaymentIsRequest(w: World, run: RunId, ds: Deliveries, k: nat)
    requires run in w.cash && w.cash[run].pc.Paying? && w.cash[run].pc.left != []
    requires k < MAX_ATTEMPTS && w.cash[run].pc.attempt == k
    ensures var pc := w.cash[run].pc;
            var (ledger, outcome) := Via(w.ledger, CashCall(pc.left[0].item.id, pc.left[0].amount), ds, k);
            var after := PayOne(w, run, ds, k);
            && after.ledger == ledger && after.cash[run].pc == AfterPayment(pc, outcome)
            && after.tables == w.tables && after.procs == w.procs && after.cash[run].ch == w.cash[run].ch
    decreases MAX_ATTEMPTS - k
  {
    hide PayStep, Attempt;
    PaysOnce(w, run, ds[k]);
    var next := PayStep(w, run, ds[k]);
    var pc := w.cash[run].pc;
    var (ledger, outcome) :=
      Attempt(w.ledger, CashCall(pc.left[0].item.id, pc.left[0].amount), ds[k], k == MAX_ATTEMPTS - 1);
    if next.cash[run].pc.Paying? && next.cash[run].pc.left == w.cash[run].pc.left {
      PaymentIsRequest(next, run, ds, k + 1);
    }
  }

  /** Applying all payments is applying the first, then the rest. */
  lemma {:induction false} ApplyFirst(l: Ledger, payments: seq<Payment>, weather: seq<Deliveries>)
    requires |weather| == |payments| && payments != []
    ensures var first := ApplyNext(CashRun(l, [], [], false), payments[0], weather[0]);
            var rest := ApplyAll(first.ledger, payments[1..], weather[1..]);
            ApplyAll(l, payments, weather) ==
              if first.crashed then first
              else CashRun(rest.ledger, first.applied + rest.applied, first.failures + rest.failures, rest.crashed)
  {
    hide Via;
    var n := |payments| - 1;
    if n == 0 {
      assert payments[..0] == [] && weather[..0] == [];
    } else {
      ApplyFirst(l, payments[..n], weather[..n]);
      assert payments[..n][1..] == payments[1..][..n - 1] && weather[..n][1..] == weather[1..][..n - 1];
      var first := ApplyNext(CashRun(l, [], [], false), payments[0], weather[0]);
      var middle := ApplyAll(first.ledger, payments[1..][..n - 1], weather[1..][..n - 1]);
      ApplyNextAfter(first, middle, payments[n], weather[n]);
    }
  }

  lemma ApplyNextAfter(first: CashRun, middle: CashRun, payment: Payment, ds: Deliveries)
    ensures var last := ApplyNext(middle, payment, ds);
            ApplyNext(CashRun(middle.ledger, first.applied + middle.applied, first.failures + middle.failures,
                              middle.crashed),
                      payment, ds)
            == CashRun(last.ledger, first.applied + last.applied, first.failures + last.failures, last.crashed)
  {
    hide Via;
  }

  /** Paying one after another in the machine is what the node's loop over the applications does. */
  lemma {:induction false} PayAllIsApplyAll(w: World, run: RunId, weather: seq<Deliveries>)
    requires run in w.cash && w.cash[run].pc.Paying? && w.cash[run].pc.attempt == 0
    requires |weather| == |w.cash[run].pc.left|
    ensures var pc := w.cash[run].pc;
            var all := ApplyAll(w.ledger, pc.left, weather);
            var after := PayAll(w, run, weather);
            && after.ledger == all.ledger && after.tables == w.tables && after.procs == w.procs
            && after.cash[run].ch == w.cash[run].ch
            && after.cash[run].pc == if all.crashed then CashCrashed(ApplyingCash)
                                     else Paying([], 0, pc.applied + all.applied, pc.failures + all.failures)
    decreases |weather|
  {
    hide Via, PayOne, ApplyNext;
    if weather != [] {
      var pc := w.cash[run].pc;
      PaymentIsRequest(w, run, weather[0], 0);
      ApplyFirst(w.ledger, pc.left, weather);
      FirstPaid(w.ledger, pc, weather[0]);
      var next := PayOne(w, run, weather[0], 0);
      if next.cash[run].pc.Paying? {
        PayAllIsApplyAll(next, run, weather[1..]);
      }
    }
  }

  lemma FirstPaid(l: Ledger, pc: CashPc, ds: Deliveries)
    requires pc.Paying? && pc.left != []
    ensures var first := ApplyNext(CashRun(l, [], [], false), pc.left[0], ds);
            var (ledger, outcome) := Via(l, CashCall(pc.left[0].item.id, pc.left[0].amount), ds, 0);
            && first.ledger == ledger
            && AfterPayment(pc, outcome) ==
               if first.crashed then CashCrashed(ApplyingCash)
               else Paying(pc.left[1..], 0, pc.applied + first.applied, pc.failures + first.failures)
  {
    hide Via;
  }

  /** The node as a whole: the loop of the cash node, then its rows and its event, or death at the first timeout that
      outlives its retries. */
  lemma CashNodeExactly(env: Env, w: World, run: RunId, begin: Io, weather: seq<Deliveries>, close: Io)
    requires run in w.cash && w.cash[run].ch.remittance.Some? && begin.survives
    requires |weather| == |PaymentsOf(env.text, w.cash[run].ch.remittance.value, w.cash[run].ch.items)|
    ensures var ch := w.cash[run].ch;
            var all := ApplyAll(w.ledger, Rounded(PaymentsOf(env.text, ch.remittance.value, ch.items)), weather);
            var result := ResultOf(env.text, ch.remittance.value, ch.items, env.cfg, all);
            var after := CashNodeStep(env, w, run, begin, weather, close);
            && after.ledger == all.ledger && run in after.cash
            && (all.crashed ==>
                  after.cash[run].pc == CashCrashed(ApplyingCash) && after.tables.remittances == w.tables.remittances)
            && (!all.crashed ==>
                  && after.tables.remittances ==
                     w.tables.remittances + [RemittanceRow(run, result.straightThrough, all.applied, result.residual)]
                  && (run in w.tables.runs && close.final ==>
                        && run in after.tables.runs
                        && after.tables.runs[run].straightThrough == result.straightThrough
                        && after.tables.runs[run].status == if result.completed then Completed else AwaitingApproval))
  {
    hide ApplyAll, PaymentsOf, Rounded, PayAll, UnresolvedOf, ResidualOf, CloseCashStep, UpdateRun;
    BegunRemittances(env, w, run, begin);
    var begun := BeginCashStep(env, w, run, begin);
    PayAllIsApplyAll(begun, run, weather);
    var paid := PayAll(begun, run, weather);
    var p := paid.cash[run];
    if p.pc.Paying? {
      var all := ApplyAll(
        w.ledger, Rounded(PaymentsOf(env.text, w.cash[run].ch.remittance.value, w.cash[run].ch.items)), weather);
      assert [] + all.applied == all.applied && [] + all.failures == all.failures;
      Closed(env, paid, run, p.pc.applied, p.pc.failures, close);
    }
  }

  lemma BegunRemittances(env: Env, w: World, run: RunId, io: Io)
    requires run in w.cash && w.cash[run].ch.remittance.Some? && io.survives
    ensures var begun := BeginCashStep(env, w, run, io);
            && begun.tables.remittances == w.tables.remittances && begun.tables.runs.Keys == w.tables.runs.Keys
            && run in begun.cash && begun.cash[run].ch == w.cash[run].ch
            && begun.cash[run].pc ==
               Paying(Rounded(PaymentsOf(env.text, w.cash[run].ch.remittance.value, w.cash[run].ch.items)), 0, [], [])
  {
  }

  lemma Closed(env: Env, w: World, run: RunId, applied: seq<Application>, failures: seq<Unresolved>, io: Io)
    requires run in w.cash && w.cash[run].ch.remittance.Some?
    ensures var result := CashOutcome(env, w, w.cash[run].ch, applied, failures);
            var after := CloseCashStep(env, w, run, applied, failures, io);
            && after.ledger == w.ledger && run in after.cash
            && after.tables.remittances ==
               w.tables.remittances + [RemittanceRow(run, result.straightThrough, applied, result.residual)]
            && (run in w.tables.runs && io.final ==>
                  && run in after.tables.runs
                  && after.tables.runs[run].straightThrough == result.straightThrough
                  && after.tables.runs[run].status == if result.completed then Completed else AwaitingApproval)
  {
    hide UnresolvedOf, ResidualOf, MaxSequence;
  }

  /** The node flags it: an item paid down by somebody else after this run fetched it, a single advice that agrees with
      what was fetched, and the run goes straight through with only what was left applied. */
  lemma ShortfallIsFlagged(
    env: Env, w: World, run: RunId, item: ArItem, paid: real, left: real, begin: Io, ds: Deliveries, close: Io)
    requires run in w.cash && run in w.tables.runs && begin.survives && close.final && ds[0].Answered?
    requires w.cash[run].ch.items == [item] && item.invoiceNumber != "" && PaidDown(w.ledger, item, left)
    requires w.cash[run].ch.remittance ==
             Some(Remittance(None, None, [Advice(Some(item.invoiceNumber), Some(paid))], None))
    requires paid != 0.0 && Abs(paid - item.openAmount) <= env.cfg.remittanceToleranceAbs && left <= Q(paid)
    ensures var after := CashNodeStep(env, w, run, begin, [ds], close);
            && run in after.tables.runs && after.tables.runs[run].straightThrough
            && Cash(after.ledger) - Cash(w.ledger) == left
  {
    hide ApplyAll, PaymentsOf, Rounded, CashNodeStep, Cash, PaidDown, Q, DeclaredOf, UnresolvedOf, ResidualOf;
    ShortfallGoesThrough(env.text, item, paid, left, env.cfg, w.ledger, ds);
    CashNodeExactly(env, w, run, begin, [ds], close);
  }

  lemma PayOneKeeps(env: Env, w: World, run: RunId, ds: Deliveries, k: nat)
    requires ValidSeed(env.seed) && Inv(env, w)
    requires run in w.cash && w.cash[run].pc.Paying? && w.cash[run].pc.left != [] && k < MAX_ATTEMPTS
    ensures Inv(env, PayOne(w, run, ds, k))
    decreases MAX_ATTEMPTS - k
  {
    hide Inv, Attempt, ValidSeed, RunStep;
    StepKeeps(env, w, Pay(run, ds[k]));
    var next := Step(env, w, Pay(run, ds[k]));
    if next.cash[run].pc.Paying? && next.cash[run].pc.left == w.cash[run].pc.left && k + 1 < MAX_ATTEMPTS {
      PayOneKeeps(env, next, run, ds, k + 1);
    }
  }

  lemma PayAllKeeps(env: Env, w: World, run: RunId, weather: seq<Deliveries>)
    requires ValidSeed(env.seed) && Inv(env, w) && run in w.cash
    ensures Inv(env, PayAll(w, run, weather))
    decreases |weather|
  {
    hide Inv, PayOne, ValidSeed;
    if weather != [] && w.cash[run].pc.Paying? && w.cash[run].pc.left != [] {
      PayOneKeeps(env, w, run, weather[0], 0);
      PayAllKeeps(env, PayOne(w, run, weather[0], 0), run, weather[1..]);
    }
  }

  lemma BegunKeeps(env: Env, w: World, run: RunId, begin: Io)
    requires ValidSeed(env.seed) && Inv(env, w) && run in w.cash && w.cash[run].pc == CashAt(ApplyingCash)
    ensures Inv(env, BeginCashStep(env, w, run, begin))
  {
    hide Inv, BeginCashStep, ValidSeed, RunStep;
    StepKeeps(env, w, BeginCash(run, begin));
  }

  lemma ClosedKeeps(env: Env, w: World, run: RunId, close: Io)
    requires ValidSeed(env.seed) && Inv(env, w) && run in w.cash && w.cash[run].pc.Paying? && w.cash[run].pc.left == []
    requires w.cash[run].ch.remittance.Some?
    ensures Inv(env, CloseCashStep(env, w, run, w.cash[run].pc.applied, w.cash[run].pc.failures, close))
  {
    hide Inv, CloseCashStep, ValidSeed, RunStep;
    StepKeeps(env, w, CloseCash(run, close));
  }

  /** The whole cash node is a sequence of the machine's steps, so everything proved of executions holds after it. */
  lemma CashNodeKeeps(env: Env, w: World, run: RunId, begin: Io, weather: seq<Deliveries>, close: Io)
    requires ValidSeed(env.seed) && Inv(env, w) && run in w.cash && w.cash[run].pc == CashAt(ApplyingCash)
    ensures Inv(env, CashNodeStep(env, w, run, begin, weather, close))
  {
    hide Inv, BeginCashStep, CloseCashStep, PayAll, ValidSeed;
    BegunKeeps(env, w, run, begin);
    var begun := BeginCashStep(env, w, run, begin);
    PayAllKeeps(env, begun, run, weather);
    var paid := PayAll(begun, run, weather);
    var p := paid.cash[run];
    if p.pc.Paying? && p.pc.left == [] && p.ch.remittance.Some? {
      ClosedKeeps(env, paid, run, close);
    }
  }
}
