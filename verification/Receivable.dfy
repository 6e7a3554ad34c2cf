/** Cash application: fetching open items, matching the advice, applying each payment over the client. */
module Receivable {
  import opened Prelude
  import opened Money
  import opened Schemas
  import opened MockErp
  import opened Client
  import opened Remittances

  // Fetching

  /** The receivables listing with its default filter. */
  function ListOpen(items: seq<ArItem>, customerId: Option<string>, invoiceNumber: Option<string>): (r: seq<ArItem>)
    ensures forall k :: 0 <= k < |r| ==> r[k] in items && r[k].status == "open"
  {
    if items == [] then []
    else
      var n := |items| - 1;
      var item := items[n];
      var init := ListOpen(items[..n], customerId, invoiceNumber);
      if (Truthy(customerId) ==> item.customerId == customerId.value)
         && (Truthy(invoiceNumber) ==> item.invoiceNumber == invoiceNumber.value)
         && item.status == "open"
      then init + [item] else init
  }

  /** The listing's filters, all of them at once: exactly the open items of the customer and the invoice asked for. */
  lemma {:induction false} ListedExactly(
    items: seq<ArItem>, customerId: Option<string>, invoiceNumber: Option<string>, item: ArItem)
    ensures item in ListOpen(items, customerId, invoiceNumber) <==>
              && item in items && item.status == "open"
              && (Truthy(customerId) ==> item.customerId == customerId.value)
              && (Truthy(invoiceNumber) ==> item.invoiceNumber == invoiceNumber.value)
  {
    if items != [] {
      var n := |items| - 1;
      ListedExactly(items[..n], customerId, invoiceNumber, item);
      assert items == items[..n] + [items[n]];
    }
  }

  /** One lookup for each advice that names an invoice, in order. */
  function ListByAdvice(items: seq<ArItem>, advices: seq<Advice>): seq<ArItem> {
    if advices == [] then []
    else
      var n := |advices| - 1;
      ListByAdvice(items, advices[..n])
      + (if Truthy(advices[n].invoiceNumber) then ListOpen(items, None, advices[n].invoiceNumber) else [])
  }

  /** What a fetch may assume of every item it returns. */
  predicate Fetched(items: seq<ArItem>, l: Ledger) {
    forall k :: 0 <= k < |items| ==> items[k] in l.items && items[k].status == "open"
  }

  /** The printed customer, or without one whom the master data resolves the printed name to. */
  function CustomerOf(remittance: Remittance, named: Option<string>): Option<string> {
    if !Truthy(remittance.customerId) && Truthy(remittance.customerName) && named.Some? then named
    else remittance.customerId
  }

  predicate LooksUp(remittance: Remittance, customerId: Option<string>) {
    Truthy(customerId) || exists advice :: advice in remittance.advices && Truthy(advice.invoiceNumber)
  }

  datatype FetchResult = FetchResult(items: seq<ArItem>, failed: bool)

  /** A lookup the ERP fails leaves no items and an error; otherwise the customer's open items, or without a customer
      those of each advice. */
  function FetchOutcome(remittance: Remittance, named: Option<string>, fails: bool, items: seq<ArItem>): FetchResult {
    var customerId := CustomerOf(remittance, named);
    if fails && LooksUp(remittance, customerId) then FetchResult([], true)
    else if Truthy(customerId) then FetchResult(ListOpen(items, customerId, None), false)
    else FetchResult(ListByAdvice(items, remittance.advices), false)
  }

  /** An open item of the customer and under the number asked for, where one is. */
  predicate AskedFor(item: ArItem, customerId: Option<string>, invoiceNumber: Option<string>) {
    && item.status == "open"
    && (customerId.Some? && customerId.value != "" ==> item.customerId == customerId.value)
    && (invoiceNumber.Some? && invoiceNumber.value != "" ==> item.invoiceNumber == invoiceNumber.value)
  }

  lemma ListedStep(items: seq<ArItem>, item: ArItem, customerId: Option<string>, invoiceNumber: Option<string>)
    ensures ListOpen([], customerId, invoiceNumber) == []
    ensures ListOpen(items + [item], customerId, invoiceNumber)
         == ListOpen(items, customerId, invoiceNumber)
            + if AskedFor(item, customerId, invoiceNumber) then [item] else []
  {
    assert (items + [item])[..|items|] == items;
  }

  /** The listing reads the items in their order, one by one. */
  lemma {:induction false} ListedInOrder(
    item: ArItem, xs: seq<ArItem>, ys: seq<ArItem>, customerId: Option<string>, invoiceNumber: Option<string>)
    ensures ListOpen([], customerId, invoiceNumber) == []
    ensures ListOpen([item], customerId, invoiceNumber)
         == if AskedFor(item, customerId, invoiceNumber) then [item] else []
    ensures ListOpen(xs + ys, customerId, invoiceNumber)
         == ListOpen(xs, customerId, invoiceNumber) + ListOpen(ys, customerId, invoiceNumber)
  {
    hide ListOpen, AskedFor;
    ListedStep([], item, customerId, invoiceNumber);
    assert [] + [item] == [item];
    if ys == [] {
      assert xs + ys == xs;
    } else {
      var n := |ys| - 1;
      assert xs + ys == xs + ys[..n] + [ys[n]] && ys == ys[..n] + [ys[n]];
      ListedInOrder(item, xs, ys[..n], customerId, invoiceNumber);
      ListedStep(xs + ys[..n], ys[n], customerId, invoiceNumber);
      ListedStep(ys[..n], ys[n], customerId, invoiceNumber);
    }
  }

  lemma LookedUpStep(items: seq<ArItem>, advices: seq<Advice>, advice: Advice)
    ensures ListByAdvice(items, []) == []
    ensures ListByAdvice(items, advices + [advice])
         == ListByAdvice(items, advices)
            + if advice.invoiceNumber.Some? && advice.invoiceNumber.value != ""
              then ListOpen(items, None, advice.invoiceNumber) else []
  {
    hide ListOpen;
    assert (advices + [advice])[..|advices|] == advices;
  }

  /** Lookups by advice follow the advice lines: the open items under each number printed, line after line. */
  lemma {:induction false} LookedUpInOrder(items: seq<ArItem>, advice: Advice, xs: seq<Advice>, ys: seq<Advice>)
    ensures ListByAdvice(items, []) == []
    ensures ListByAdvice(items, [advice])
         == if advice.invoiceNumber.Some? && advice.invoiceNumber.value != ""
            then ListOpen(items, None, advice.invoiceNumber) else []
    ensures ListByAdvice(items, xs + ys) == ListByAdvice(items, xs) + ListByAdvice(items, ys)
  {
    hide ListOpen, ListByAdvice;
    LookedUpStep(items, [], advice);
    assert [] + [advice] == [advice];
    if ys == [] {
      assert xs + ys == xs;
    } else {
      var n := |ys| - 1;
      assert xs + ys == xs + ys[..n] + [ys[n]] && ys == ys[..n] + [ys[n]];
      LookedUpInOrder(items, advice, xs, ys[..n]);
      LookedUpStep(items, xs + ys[..n], ys[n]);
      LookedUpStep(items, ys[..n], ys[n]);
    }
  }

  /** Whose items are fetched: the customer's whose id is printed, else of whom the printed name resolves to, else those
      under the advised numbers; and a failing ERP is an error exactly when there was something to look up. */
  lemma FetchExactly(remittance: Remittance, named: Option<string>, fails: bool, items: seq<ArItem>)
    ensures var printed := remittance.customerId.Some? && remittance.customerId.value != "";
            var resolved := remittance.customerName.Some? && remittance.customerName.value != "" && named.Some?
                            && named.value != "";
            var advised := exists advice :: advice in remittance.advices && advice.invoiceNumber.Some?
                                            && advice.invoiceNumber.value != "";
            var r := FetchOutcome(remittance, named, fails, items);
            && (r.failed <==> fails && (printed || resolved || advised))
            && (r.failed ==> r.items == [])
            && (!r.failed && printed ==> r.items == ListOpen(items, remittance.customerId, None))
            && (!r.failed && !printed && resolved ==> r.items == ListOpen(items, named, None))
            && (!r.failed && !printed && !resolved ==> r.items == ListByAdvice(items, remittance.advices))
  {
    hide ListOpen, ListByAdvice;
  }

  method FetchArItems(remittance: Remittance, named: Option<string>, fails: bool, erp: Erp)
    returns (result: FetchResult)
    ensures result == FetchOutcome(remittance, named, fails, erp.items)
    ensures Fetched(result.items, erp.Model())
  {
    var customerId := remittance.customerId;
    if !Truthy(customerId) && Truthy(remittance.customerName) {
      if named.Some? {
        customerId := named;
      }
    }
    var items := [];
    if Truthy(customerId) {
      if fails {
        return FetchResult([], true);
      }
      items := ListOpen(erp.items, customerId, None);
    } else {
      for k := 0 to |remittance.advices|
        invariant Fetched(items, erp.Model())
        invariant items == ListByAdvice(erp.items, remittance.advices[..k])
        invariant fails ==> forall j :: 0 <= j < k ==> !Truthy(remittance.advices[j].invoiceNumber)
      {
        assert remittance.advices[..k + 1][..k] == remittance.advices[..k];
        if Truthy(remittance.advices[k].invoiceNumber) {
          if fails {
            assert remittance.advices[k] in remittance.advices;
            return FetchResult([], true);
          }
          items := items + ListOpen(erp.items, None, remittance.advices[k].invoiceNumber);
        }
      }
      assert remittance.advices[..|remittance.advices|] == remittance.advices;
    }
    result := FetchResult(items, false);
  }

  // Applying

  datatype CashRun = CashRun(ledger: Ledger, applied: seq<Application>, failures: seq<Unresolved>, crashed: bool)

  function ApplyAll(l: Ledger, payments: seq<Payment>, weather: seq<Deliveries>): CashRun
    requires |weather| == |payments|
  {
    if payments == [] then CashRun(l, [], [], false)
    else
      var n := |payments| - 1;
      ApplyNext(ApplyAll(l, payments[..n], weather[..n]), payments[n], weather[n])
  }

  function ApplyNext(run: CashRun, payment: Payment, deliveries: Deliveries): CashRun {
    if run.crashed then run
    else
      var (after, outcome) := Via(run.ledger, CashCall(payment.item.id, payment.amount), deliveries, 0);
      match outcome
      case Success(answer) =>
        if answer.ApplicationAnswer? then run.(ledger := after, applied := run.applied + [answer.application])
        else run.(ledger := after)
      case ErpError => run.(ledger := after, failures := run.failures + [ApplicationFailed(payment.item.id)])
      case Crash => run.(ledger := after, crashed := true)
  }

  datatype CashResult = CashResult(
    crashed: bool, applied: seq<Application>, unresolved: seq<Unresolved>, residual: real,
    straightThrough: bool, completed: bool)

  function ResultOf(
    text: Text, remittance: Remittance, items: seq<ArItem>, cfg: MatchingConfig, run: CashRun): CashResult
  {
    var unresolved := UnresolvedOf(text, remittance, items, cfg.remittanceToleranceAbs) + run.failures;
    CashResult(run.crashed, run.applied, unresolved, ResidualOf(text, remittance, items),
               !run.crashed && run.applied != [] && unresolved == [], !run.crashed && run.applied != [])
  }

  /** Payments are asked for one after another, until one dies of a timeout: a successful one adds its application, one
      answered with an error adds a failure under its item's id, and a timeout ends the node. */
  lemma NextPayment(l: Ledger, payments: seq<Payment>, weather: seq<Deliveries>, payment: Payment, ds: Deliveries)
    requires |weather| == |payments|
    ensures ApplyAll(l, [], []) == CashRun(l, [], [], false)
    ensures var before := ApplyAll(l, payments, weather);
            var after := ApplyAll(l, payments + [payment], weather + [ds]);
            var (ledger, outcome) := Via(before.ledger, CashCall(payment.item.id, payment.amount), ds, 0);
            if before.crashed then after == before
            else
              && after.ledger == ledger && (after.crashed <==> outcome.Crash?)
              && (outcome.ErpError? ==> after.failures == before.failures + [ApplicationFailed(payment.item.id)])
              && (!outcome.ErpError? ==> after.failures == before.failures)
              && (if outcome.Success? && outcome.answer.ApplicationAnswer?
                  then after.applied == before.applied + [outcome.answer.application]
                  else after.applied == before.applied)
  {
    hide Via, ApplyAll, ApplyNext;
    ApplyStep(l, payments, weather, payment, ds);
    var before := ApplyAll(l, payments, weather);
    if before.crashed {
      assert ApplyNext(before, payment, ds) == before by { CrashedStays(before, payment, ds); }
    } else {
      AppliedNext(before, payment, ds);
    }
  }

  lemma CrashedStays(run: CashRun, payment: Payment, ds: Deliveries)
    requires run.crashed
    ensures ApplyNext(run, payment, ds) == run
  {
  }

  lemma AppliedNext(run: CashRun, payment: Payment, ds: Deliveries)
    requires !run.crashed
    ensures var after := ApplyNext(run, payment, ds);
            var (ledger, outcome) := Via(run.ledger, CashCall(payment.item.id, payment.amount), ds, 0);
            && after.ledger == ledger && (after.crashed <==> outcome.Crash?)
            && (outcome.ErpError? ==> after.failures == run.failures + [ApplicationFailed(payment.item.id)])
            && (!outcome.ErpError? ==> after.failures == run.failures)
            && (if outcome.Success? && outcome.answer.ApplicationAnswer?
                then after.applied == run.applied + [outcome.answer.application]
                else after.applied == run.applied)
  {
    hide Via;
    var (ledger, outcome) := Via(run.ledger, CashCall(payment.item.id, payment.amount), ds, 0);
    match outcome {
      case Success(answer) =>
      case ErpError =>
      case Crash =>
    }
  }

  lemma ApplyStep(l: Ledger, payments: seq<Payment>, weather: seq<Deliveries>, payment: Payment, ds: Deliveries)
    requires |weather| == |payments|
    ensures ApplyAll(l, [], []) == CashRun(l, [], [], false)
    ensures ApplyAll(l, payments + [payment], weather + [ds]) == ApplyNext(ApplyAll(l, payments, weather), payment, ds)
  {
    hide Via, ApplyNext;
    assert (payments + [payment])[..|payments|] == payments && (weather + [ds])[..|payments|] == weather;
  }

  /** What the node reports: complete when anything was applied, and straight through when besides nothing is left
      unresolved and no payment failed. */
  lemma ResultExactly(
    text: Text, remittance: Remittance, items: seq<ArItem>, cfg: MatchingConfig, run: CashRun)
    ensures var r := ResultOf(text, remittance, items, cfg, run);
            var unresolved := UnresolvedOf(text, remittance, items, cfg.remittanceToleranceAbs);
            && (r.completed <==> !run.crashed && |run.applied| > 0)
            && (r.straightThrough <==>
                  !run.crashed && |run.applied| > 0 && |unresolved| == 0 && |run.failures| == 0)
            && r.applied == run.applied && r.unresolved == unresolved + run.failures
            && r.crashed == run.crashed && r.residual == ResidualOf(text, remittance, items)
  {
    hide UnresolvedOf, ResidualOf;
  }

  /** The answer to a payment: its item, and the smaller of the payment and what was open when it was taken. */
  predicate Answers(made: Application, payment: Payment) {
    made.itemId == payment.item.id && made.applied == Min(payment.amount, made.applied + made.residual)
  }

  /** What is due has been answered, one application each and in order, up to what is left. */
  predicate Settles(applied: seq<Application>, left: seq<Payment>, due: seq<Payment>) {
    && |applied| + |left| == |due| && left == due[|applied|..]
    && forall k :: 0 <= k < |applied| ==> Answers(applied[k], due[k])
  }

  method ApplyCashNode(
    text: Text, remittance: Remittance, items: seq<ArItem>, cfg: MatchingConfig, erp: Erp, weather: seq<Deliveries>)
    returns (result: CashResult)
    requires erp.Valid()
    requires |weather| == |PaymentsOf(text, remittance, items)|
    modifies erp
    ensures erp.Valid()
    ensures var run := ApplyAll(old(erp.Model()), Rounded(PaymentsOf(text, remittance, items)), weather);
            erp.Model() == run.ledger && result == ResultOf(text, remittance, items, cfg, run)
  {
    hide Via, LedgerInv, ValidSeed, UnresolvedOf, ResidualOf;
    var payments, unresolved, residual := MatchRemittance(text, remittance, items, cfg);
    ghost var before := erp.Model();
    ghost var matched := unresolved;
    var applied: seq<Application> := [];
    for k := 0 to |payments|
      invariant erp.Valid()
      invariant var run := ApplyAll(before, payments[..k], weather[..k]);
                && !run.crashed && erp.Model() == run.ledger
                && applied == run.applied && unresolved == matched + run.failures
    {
      assert payments[..k + 1][..k] == payments[..k] && weather[..k + 1][..k] == weather[..k];
      var outcome := Request(erp, CashCall(payments[k].item.id, payments[k].amount), weather[k]);
      if outcome.Crash? {
        CrashStays(before, payments, weather, k + 1);
        return CashResult(true, applied, unresolved, residual, false, false);
      }
      if outcome.ErpError? {
        unresolved := unresolved + [ApplicationFailed(payments[k].item.id)];
      } else if outcome.answer.ApplicationAnswer? {
        applied := applied + [outcome.answer.application];
      }
    }
    assert payments[..|payments|] == payments && weather[..|payments|] == weather;
    result := CashResult(false, applied, unresolved, residual, applied != [] && unresolved == [], applied != []);
  }

  lemma {:induction false} CrashStays(l: Ledger, payments: seq<Payment>, weather: seq<Deliveries>, k: nat)
    requires |weather| == |payments| && k <= |payments|
    requires ApplyAll(l, payments[..k], weather[..k]).crashed
    ensures ApplyAll(l, payments, weather) == ApplyAll(l, payments[..k], weather[..k])
  {
    var n := |payments|;
    if k == n {
      assert payments[..k] == payments && weather[..k] == weather;
    } else {
      assert payments[..n - 1][..k] == payments[..k] && weather[..n - 1][..k] == weather[..k];
      CrashStays(l, payments[..n - 1], weather[..n - 1], k);
    }
  }

  // The cash that reaches the ERP

  function AppliedColumn(applications: seq<Application>): (r: seq<real>)
    ensures |r| == |applications| && forall k :: 0 <= k < |r| ==> r[k] == applications[k].applied
  {
    seq(|applications|, k requires 0 <= k < |applications| => applications[k].applied)
  }

  function Cash(l: Ledger): real {
    Sum(AppliedColumn(l.applications))
  }

  predicate DistinctItems(items: seq<ArItem>) {
    forall i, j :: 0 <= i < j < |items| ==> items[i].id != items[j].id
  }

  /** Items of other ids are untouched. */
  predicate Elsewhere(l: Ledger, after: Ledger, id: string) {
    && |after.items| == |l.items|
    && (forall i :: 0 <= i < |l.items| ==> after.items[i].id == l.items[i].id)
    && (forall i :: 0 <= i < |l.items| && l.items[i].id != id ==> after.items[i] == l.items[i])
  }

  function OpenAmount(l: Ledger, id: string): real {
    var i := ItemIndex(l.items, id);
    if i.Some? then l.items[i.value].openAmount else 0.0
  }

  lemma ApplyEffect(l: Ledger, id: string, amount: real)
    ensures var (after, reply) := ApplyCash(l, id, amount);
            && Elsewhere(l, after, id)
            && (reply.Applied? ==>
                  && ItemIndex(after.items, id) == ItemIndex(l.items, id)
                  && Cash(after) == Cash(l) + Min(amount, OpenAmount(l, id))
                  && OpenAmount(after, id) == OpenAmount(l, id) - Min(amount, OpenAmount(l, id))
                  && reply.application.applied == Min(amount, OpenAmount(l, id))
                  && (OpenAmount(after, id) <= 0.0 ==> !ApplyCash(after, id, amount).1.Applied?))
            && (!reply.Applied? ==> after == l)
  {
    var (after, reply) := ApplyCash(l, id, amount);
    if reply.Applied? {
      assert AppliedColumn(after.applications) == AppliedColumn(l.applications) + [reply.application.applied];
      SumAppend(AppliedColumn(l.applications), reply.application.applied);
      SameIds(l.items, after.items, id);
    }
  }

  lemma SameIds(xs: seq<ArItem>, ys: seq<ArItem>, id: string)
    requires |xs| == |ys| && forall i :: 0 <= i < |xs| ==> xs[i].id == ys[i].id
    ensures ItemIndex(xs, id) == ItemIndex(ys, id)
  {
    var a, b := ItemIndex(xs, id), ItemIndex(ys, id);
    if a.Some? && b.Some? {
      assert !(a.value < b.value) && !(b.value < a.value);
    }
  }

  lemma MinNonNegative(x: real, y: real)
    ensures Min(x, y) <= y
    ensures x >= 0.0 && y - Min(x, y) > 0.0 ==> Min(x, y - Min(x, y)) >= 0.0
  {
  }

  /** A call reported as successful has moved at least the smaller of the payment and the open amount,
      however often its replies were lost on the way. */
  lemma {:induction false} CallCovers(l: Ledger, id: string, amount: real, deliveries: Deliveries, k: nat)
    requires k < MAX_ATTEMPTS
    ensures var (after, outcome) := Via(l, CashCall(id, amount), deliveries, k);
            && Elsewhere(l, after, id)
            && (outcome.Success? ==> outcome.answer.ApplicationAnswer?)
            && (outcome.Success? && amount >= 0.0 ==> Cash(after) >= Cash(l) + Min(amount, OpenAmount(l, id)))
            && (!ApplyCash(l, id, amount).1.Applied? ==> after == l && !outcome.Success?)
    decreases MAX_ATTEMPTS - k
  {
    hide ApplyCash, Cash, OpenAmount, Min, Elsewhere;
    MinNonNegative(amount, OpenAmount(l, id));
    ApplyEffect(l, id, amount);
    NothingElsewhere(l, id);
    var (next, step) := Attempt(l, CashCall(id, amount), deliveries[k], k == MAX_ATTEMPTS - 1);
    if step.None? {
      CallCovers(next, id, amount, deliveries, k + 1);
      ElsewhereTwice(l, next, Via(next, CashCall(id, amount), deliveries, k + 1).0, id);
    }
  }

  lemma NothingElsewhere(l: Ledger, id: string)
    ensures Elsewhere(l, l, id)
  {
  }

  lemma ElsewhereTwice(l: Ledger, next: Ledger, after: Ledger, id: string)
    requires Elsewhere(l, next, id) && Elsewhere(next, after, id)
    ensures Elsewhere(l, after, id)
  {
  }

  predicate IsOpen(l: Ledger, id: string) {
    var i := ItemIndex(l.items, id);
    i.Some? && l.items[i.value].status == "open"
  }

  lemma AppliedWhenOpen(l: Ledger, id: string, amount: real)
    ensures ApplyCash(l, id, amount).1.Applied? <==> IsOpen(l, id)
  {
  }

  /** Whatever the channel does, a call that reports success moved the payment, or the open amount, exactly once. */
  ghost predicate AppliesOnce(l: Ledger, id: string, amount: real, k: nat)
    requires k < MAX_ATTEMPTS
  {
    forall ds: Deliveries ::
      Via(l, CashCall(id, amount), ds, k).1.Success? ==>
        Cash(Via(l, CashCall(id, amount), ds, k).0) == Cash(l) + Min(amount, OpenAmount(l, id))
  }

  lemma {:induction false} ZeroOrFullOnce(l: Ledger, id: string, amount: real, ds: Deliveries, k: nat)
    requires k < MAX_ATTEMPTS
    requires amount == 0.0 || amount >= OpenAmount(l, id)
    requires Via(l, CashCall(id, amount), ds, k).1.Success?
    ensures Cash(Via(l, CashCall(id, amount), ds, k).0) == Cash(l) + Min(amount, OpenAmount(l, id))
    decreases MAX_ATTEMPTS - k
  {
    hide ApplyCash, Cash, OpenAmount, Elsewhere;
    ApplyEffect(l, id, amount);
    var next := ApplyCash(l, id, amount).0;
    if ds[k].Lost? && k + 1 < MAX_ATTEMPTS {
      CallCovers(next, id, amount, ds, k + 1);
      if OpenAmount(next, id) > 0.0 {
        ZeroOrFullOnce(next, id, amount, ds, k + 1);
      }
    } else if ds[k].Unreached? && k + 1 < MAX_ATTEMPTS {
      ZeroOrFullOnce(l, id, amount, ds, k + 1);
    }
  }

  /** The retried request is not idempotent: after a lost reply a part payment is taken again from what is left. */
  lemma LostReplyAppliesTwice(l: Ledger, id: string, amount: real)
    requires IsOpen(l, id) && amount < OpenAmount(l, id)
    ensures var (after, outcome) := Via(l, CashCall(id, amount), [Lost, Answered, Answered], 0);
            outcome.Success? && Cash(after) == Cash(l) + amount + Min(amount, OpenAmount(l, id) - amount)
  {
    hide Cash;
    var first := ApplyCash(l, id, amount).0;
    ApplyEffect(l, id, amount);
    ApplyEffect(first, id, amount);
    assert Via(l, CashCall(id, amount), [Lost, Answered, Answered], 0)
        == Via(first, CashCall(id, amount), [Lost, Answered, Answered], 1);
  }

  /** A cash call is safe to retry exactly when the item is not open, or the payment is nothing, or it covers all that
      is open: a condition on the item as it stands before the call. */
  lemma CashOnceExactly(l: Ledger, id: string, amount: real)
    ensures AppliesOnce(l, id, amount, 0) <==> !IsOpen(l, id) || amount == 0.0 || amount >= OpenAmount(l, id)
  {
    hide Via, Cash, OpenAmount, ApplyCash, Elsewhere, IsOpen;
    AppliedWhenOpen(l, id, amount);
    if !IsOpen(l, id) || amount == 0.0 || amount >= OpenAmount(l, id) {
      forall ds: Deliveries | Via(l, CashCall(id, amount), ds, 0).1.Success?
        ensures Cash(Via(l, CashCall(id, amount), ds, 0).0) == Cash(l) + Min(amount, OpenAmount(l, id))
      {
        CallCovers(l, id, amount, ds, 0);
        ZeroOrFullOnce(l, id, amount, ds, 0);
      }
    } else {
      LostReplyAppliesTwice(l, id, amount);
      var ds: Deliveries := [Lost, Answered, Answered];
      assert Via(l, CashCall(id, amount), ds, 0).1.Success?;
    }
  }

  // Straight-through remittances

  predicate DistinctReferences(text: Text, advices: seq<Advice>) {
    forall j, k :: 0 <= j < k < |advices| && Truthy(advices[j].invoiceNumber) && Truthy(advices[k].invoiceNumber) ==>
      text.stripUpper(advices[j].invoiceNumber.value) != text.stripUpper(advices[k].invoiceNumber.value)
  }

  predicate NonNegative(advices: seq<Advice>, items: seq<ArItem>) {
    && (forall k :: 0 <= k < |advices| && advices[k].amountPaid.Some? ==> advices[k].amountPaid.value >= 0.0)
    && (forall i :: 0 <= i < |items| ==> items[i].openAmount >= 0.0)
  }

  lemma NoNote(text: Text, advice: Advice, index: map<string, ArItem>, tolerance: real)
    requires Note(text, advice, index, tolerance) == []
    ensures var target := Target(text, advice, index);
            target.Some? && Abs(AmountFor(advice, target.value) - target.value.openAmount) <= tolerance
  {
    hide Q, Abs;
  }

  /** Without notes every advice line found its item and paid it to within the tolerance. */
  lemma {:induction false} AllResolved(text: Text, advices: seq<Advice>, index: map<string, ArItem>, tolerance: real)
    requires Notes(text, advices, index, tolerance) == []
    ensures var payments := Payments(text, advices, index);
            && |payments| == |advices|
            && (forall k :: 0 <= k < |advices| ==>
                  && Target(text, advices[k], index) == Some(payments[k].item)
                  && payments[k].amount == AmountFor(advices[k], payments[k].item)
                  && Abs(payments[k].amount - payments[k].item.openAmount) <= tolerance)
  {
    hide Abs, AmountFor, Target, Payments, Notes;
    EachResolved(text, advices, index, tolerance);
    var payments := Payments(text, advices, index);
    forall k | 0 <= k < |advices|
      ensures Resolves(text, advices[k], index, tolerance, payments[k])
    {
    }
  }

  /** The payment is the advice line's, and close to what is open. */
  predicate Resolves(text: Text, advice: Advice, index: map<string, ArItem>, tolerance: real, payment: Payment) {
    && Target(text, advice, index) == Some(payment.item) && payment.amount == AmountFor(advice, payment.item)
    && Abs(payment.amount - payment.item.openAmount) <= tolerance
  }

  lemma {:induction false} EachResolved(
    text: Text, advices: seq<Advice>, index: map<string, ArItem>, tolerance: real)
    requires Notes(text, advices, index, tolerance) == []
    ensures var payments := Payments(text, advices, index);
            && |payments| == |advices|
            && (forall k :: 0 <= k < |advices| ==> Resolves(text, advices[k], index, tolerance, payments[k]))
  {
    hide Resolves;
    if advices != [] {
      var n := |advices| - 1;
      var payment := ResolvedStep(text, advices, index, tolerance);
      hide Payments, Notes;
      EachResolved(text, advices[..n], index, tolerance);
    }
  }

  lemma ResolvedStep(text: Text, advices: seq<Advice>, index: map<string, ArItem>, tolerance: real)
      returns (payment: Payment)
    requires advices != [] && Notes(text, advices, index, tolerance) == []
    ensures var n := |advices| - 1;
            && Notes(text, advices[..n], index, tolerance) == []
            && Payments(text, advices, index) == Payments(text, advices[..n], index) + [payment]
            && Resolves(text, advices[n], index, tolerance, payment)
  {
    hide Abs, AmountFor, Note, Target;
    var advice := advices[|advices| - 1];
    NoNote(text, advice, index, tolerance);
    var item := Target(text, advice, index).value;
    payment := Payment(item, AmountFor(advice, item));
  }

  /** Items with one id are one item, as in every listing of a ledger whose ids are distinct. */
  predicate OnePerId(items: seq<ArItem>) {
    forall x, y :: x in items && y in items && x.id == y.id ==> x == y
  }

  lemma PaymentsHitDistinctItems(
    text: Text, advices: seq<Advice>, items: seq<ArItem>, tolerance: real, j: nat, k: nat)
    requires Notes(text, advices, ByInvoice(text, items), tolerance) == []
    requires DistinctReferences(text, advices) && OnePerId(items)
    requires j < k < |advices|
    ensures var payments := Payments(text, advices, ByInvoice(text, items));
            |payments| == |advices| && payments[j].item.id != payments[k].item.id
  {
    var index := ByInvoice(text, items);
    AllResolved(text, advices, index, tolerance);
    ByInvoiceSound(text, items);
    var payments := Payments(text, advices, index);
    var a, b := payments[j].item, payments[k].item;
    assert text.stripUpper(a.invoiceNumber) != text.stripUpper(b.invoiceNumber);
    assert a in items && b in items;
  }

  /** The least a payment moves when its item is still as fetched. */
  function Covered(payments: seq<Payment>): (r: seq<real>)
    ensures |r| == |payments|
    ensures forall k :: 0 <= k < |r| ==> r[k] == Min(payments[k].amount, payments[k].item.openAmount)
  {
    seq(|payments|, k requires 0 <= k < |payments| => Min(payments[k].amount, payments[k].item.openAmount))
  }

  /** What a payment moves when it is taken once from what its item has open now. */
  function Takes(l: Ledger, payment: Payment): real {
    Min(payment.amount, OpenAmount(l, payment.item.id))
  }

  function TakenNow(l: Ledger, payments: seq<Payment>): (r: seq<real>)
    ensures |r| == |payments| && forall k :: 0 <= k < |r| ==> r[k] == Takes(l, payments[k])
  {
    seq(|payments|, k requires 0 <= k < |payments| => Takes(l, payments[k]))
  }

  predicate Unpaid(payments: seq<Payment>, id: string) {
    forall k :: 0 <= k < |payments| ==> payments[k].item.id != id
  }

  predicate DifferentItems(payments: seq<Payment>) {
    forall j, k :: 0 <= j < k < |payments| ==> payments[j].item.id != payments[k].item.id
  }

  /** Every payment of a run succeeds. */
  predicate Succeeds(run: CashRun) {
    !run.crashed && run.failures == []
  }

  lemma OtherStaysOpen(l: Ledger, after: Ledger, id: string, other: string)
    requires Elsewhere(l, after, id) && other != id
    ensures OpenAmount(after, other) == OpenAmount(l, other)
  {
    SameIds(l.items, after.items, other);
  }

  /** The last payment takes at least what its item has open, and its item has open what it had before the others. */
  lemma LastPayment(l: Ledger, run: CashRun, payment: Payment, deliveries: Deliveries)
    requires OpenAmount(run.ledger, payment.item.id) == OpenAmount(l, payment.item.id)
    ensures var after := ApplyNext(run, payment, deliveries);
            && (forall id :: id != payment.item.id ==> OpenAmount(after.ledger, id) == OpenAmount(run.ledger, id))
            && (Succeeds(after) ==> Succeeds(run))
            && (Succeeds(after) && payment.amount >= 0.0 ==>
                  Cash(after.ledger) >= Cash(run.ledger) + Takes(l, payment))
            && (Succeeds(after) && deliveries[0].Answered? ==>
                  Cash(after.ledger) == Cash(run.ledger) + Takes(l, payment))
  {
    hide Via, Cash, OpenAmount, Elsewhere;
    if !run.crashed {
      CallCovers(run.ledger, payment.item.id, payment.amount, deliveries, 0);
      var after := ApplyNext(run, payment, deliveries).ledger;
      forall id | id != payment.item.id
        ensures OpenAmount(after, id) == OpenAmount(run.ledger, id)
      {
        OtherStaysOpen(run.ledger, after, payment.item.id, id);
      }
      if deliveries[0].Answered? {
        AnsweredOnce(run.ledger, payment.item.id, payment.amount, deliveries);
      }
    }
  }

  /** A call that is answered at once moves the smaller of payment and open amount. */
  lemma AnsweredOnce(l: Ledger, id: string, amount: real, deliveries: Deliveries)
    requires deliveries[0].Answered?
    ensures var (after, outcome) := Via(l, CashCall(id, amount), deliveries, 0);
            && !outcome.Crash?
            && (outcome.Success? ==> Cash(after) == Cash(l) + Min(amount, OpenAmount(l, id)))
  {
    hide ApplyCash, Cash, OpenAmount;
    ApplyEffect(l, id, amount);
  }

  /** Payments to different items that all succeed move at least what each item has open when the first is made, and
      exactly that when every call is answered; other items keep what they have open. */
  lemma {:induction false} AllTaken(l: Ledger, payments: seq<Payment>, weather: seq<Deliveries>)
    requires |weather| == |payments| && DifferentItems(payments)
    ensures var run := ApplyAll(l, payments, weather);
            && (forall id :: Unpaid(payments, id) ==> OpenAmount(run.ledger, id) == OpenAmount(l, id))
            && (Succeeds(run) && (forall k :: 0 <= k < |payments| ==> payments[k].amount >= 0.0) ==>
                  Cash(run.ledger) >= Cash(l) + Sum(TakenNow(l, payments)))
            && (Succeeds(run) && (forall k :: 0 <= k < |payments| ==> weather[k][0].Answered?) ==>
                  Cash(run.ledger) == Cash(l) + Sum(TakenNow(l, payments)))
  {
    hide ApplyNext, Cash, OpenAmount, Takes;
    if payments != [] {
      var n := |payments| - 1;
      AllTaken(l, payments[..n], weather[..n]);
      assert Unpaid(payments[..n], payments[n].item.id);
      LastPayment(l, ApplyAll(l, payments[..n], weather[..n]), payments[n], weather[n]);
      assert TakenNow(l, payments)[..n] == TakenNow(l, payments[..n]);
      forall id | Unpaid(payments, id)
        ensures Unpaid(payments[..n], id) && id != payments[n].item.id
      {
      }
    }
  }

  lemma {:induction false} SumBelow(xs: seq<real>, ys: seq<real>)
    requires |xs| == |ys| && forall k :: 0 <= k < |xs| ==> xs[k] <= ys[k]
    ensures Sum(xs) <= Sum(ys)
    ensures Sum(xs) == Sum(ys) <==> xs == ys
  {
    if xs != [] {
      var n := |xs| - 1;
      SumBelow(xs[..n], ys[..n]);
      assert xs == xs[..n] + [xs[n]] && ys == ys[..n] + [ys[n]];
    }
  }

  /** Every item has at least its payment open. */
  predicate AllOpen(l: Ledger, payments: seq<Payment>) {
    forall k :: 0 <= k < |payments| ==> OpenAmount(l, payments[k].item.id) >= payments[k].amount
  }

  /** With every call answered, the whole of the payments reaches the ERP exactly when each item still has that much
      open
      as the first is made: a condition on the ledger before the calls, which the node does not look at. */
  lemma CoverageExactly(l: Ledger, payments: seq<Payment>, weather: seq<Deliveries>)
    requires |weather| == |payments| && DifferentItems(payments)
    requires forall k :: 0 <= k < |payments| ==> weather[k][0].Answered?
    requires Succeeds(ApplyAll(l, payments, weather))
    ensures Cash(ApplyAll(l, payments, weather).ledger) - Cash(l) == Sum(Amounts(payments)) <==> AllOpen(l, payments)
  {
    hide ApplyAll, Cash, OpenAmount, Sum;
    AllTaken(l, payments, weather);
    SumBelow(TakenNow(l, payments), Amounts(payments));
    if TakenNow(l, payments) == Amounts(payments) {
      forall k | 0 <= k < |payments|
        ensures OpenAmount(l, payments[k].item.id) >= payments[k].amount
      {
        assert TakenNow(l, payments)[k] == Amounts(payments)[k];
      }
    }
  }

  lemma OnceMore(x: real, n: nat)
    ensures x * (n + 1) as real == x * n as real + x
  {
  }

  lemma StraightThroughMeans(text: Text, remittance: Remittance, items: seq<ArItem>, cfg: MatchingConfig, run: CashRun)
    ensures ResultOf(text, remittance, items, cfg, run).straightThrough <==>
            && !run.crashed && run.applied != [] && run.failures == []
            && UnresolvedOf(text, remittance, items, cfg.remittanceToleranceAbs) == []
  {
  }

  lemma CoveredOne(amount: real, open: real, tolerance: real)
    requires tolerance >= 0.005 && Abs(amount - open) <= tolerance
    ensures amount <= Min(Q(amount), open) + tolerance
  {
    hide Q;
    QError(amount);
  }

  /** Each covered amount falls short of the unrounded payment by at most the tolerance. */
  lemma {:induction false} CoveredClose(payments: seq<Payment>, tolerance: real)
    requires tolerance >= 0.005
    requires forall k :: 0 <= k < |payments| ==> Abs(payments[k].amount - payments[k].item.openAmount) <= tolerance
    ensures Sum(Amounts(payments)) <= Sum(Covered(Rounded(payments))) + tolerance * |payments| as real
  {
    hide Q, Min, Abs;
    if payments != [] {
      var n := |payments| - 1;
      CoveredClose(payments[..n], tolerance);
      CoveredOne(payments[n].amount, payments[n].item.openAmount, tolerance);
      assert Amounts(payments)[..n] == Amounts(payments[..n]);
      assert Covered(Rounded(payments))[..n] == Covered(Rounded(payments[..n]));
      OnceMore(tolerance, n);
    }
  }

  lemma QNonNegative(x: real)
    requires x >= 0.0
    ensures Q(x) >= 0.0
  {
  }

  lemma {:induction false} PaymentsFromItems(text: Text, advices: seq<Advice>, items: seq<ArItem>)
    ensures forall k :: 0 <= k < |Payments(text, advices, ByInvoice(text, items))| ==>
              Payments(text, advices, ByInvoice(text, items))[k].item in items
  {
    ByInvoiceSound(text, items);
    if advices != [] {
      PaymentsFromItems(text, advices[..|advices| - 1], items);
    }
  }

  /** The payments of a fully resolved remittance are not negative and go to different items. */
  lemma ResolvedPayments(text: Text, advices: seq<Advice>, items: seq<ArItem>, tolerance: real)
    requires Notes(text, advices, ByInvoice(text, items), tolerance) == []
    requires DistinctReferences(text, advices) && OnePerId(items) && NonNegative(advices, items)
    ensures var payments := Payments(text, advices, ByInvoice(text, items));
            && |payments| == |advices|
            && (forall k :: 0 <= k < |payments| ==> payments[k].item in items && Q(payments[k].amount) >= 0.0)
            && (forall k :: 0 <= k < |payments| ==> Abs(payments[k].amount - payments[k].item.openAmount) <= tolerance)
            && DifferentItems(payments)
  {
    hide Q, Abs, Notes, DistinctReferences, OnePerId, Payments, ByInvoice, Target;
    var payments := Payments(text, advices, ByInvoice(text, items));
    AllResolved(text, advices, ByInvoice(text, items), tolerance);
    PaymentsFromItems(text, advices, items);
    forall k | 0 <= k < |payments|
      ensures payments[k].item in items && Q(payments[k].amount) >= 0.0
    {
      QNonNegative(payments[k].amount);
    }
    forall j, k | 0 <= j < k < |payments|
      ensures payments[j].item.id != payments[k].item.id
    {
      PaymentsHitDistinctItems(text, advices, items, tolerance, j, k);
    }
  }

  lemma ResidualClose(text: Text, remittance: Remittance, items: seq<ArItem>, tolerance: real)
    requires UnresolvedOf(text, remittance, items, tolerance) == []
    ensures Notes(text, remittance.advices, ByInvoice(text, items), tolerance) == []
    ensures DeclaredOf(text, remittance, items) - Sum(Amounts(PaymentsOf(text, remittance, items))) <= tolerance + 0.005
  {
    hide Q;
    QError(DeclaredOf(text, remittance, items) - Sum(Amounts(PaymentsOf(text, remittance, items))));
  }

  /** How far what an item has open now falls short of what its payment would have taken as it was fetched. */
  function Shortfall(l: Ledger, payment: Payment): real {
    Max(0.0, Min(payment.amount, payment.item.openAmount) - Takes(l, payment))
  }

  function Shortfalls(l: Ledger, payments: seq<Payment>): (r: seq<real>)
    ensures |r| == |payments| && forall k :: 0 <= k < |r| ==> r[k] == Shortfall(l, payments[k])
  {
    seq(|payments|, k requires 0 <= k < |payments| => Shortfall(l, payments[k]))
  }

  lemma {:induction false} ShortBy(l: Ledger, payments: seq<Payment>)
    ensures Sum(Covered(payments)) <= Sum(TakenNow(l, payments)) + Sum(Shortfalls(l, payments))
  {
    hide OpenAmount;
    if payments != [] {
      var n := |payments| - 1;
      ShortBy(l, payments[..n]);
      assert Covered(payments)[..n] == Covered(payments[..n]);
      assert TakenNow(l, payments)[..n] == TakenNow(l, payments[..n]);
      assert Shortfalls(l, payments)[..n] == Shortfalls(l, payments[..n]);
    }
  }

  /** Close payments to different items that all succeed bring in their total, short of the tolerance on each and of
      whatever was taken from their items since they were fetched. */
  lemma CloseBringIn(payments: seq<Payment>, tolerance: real, l: Ledger, weather: seq<Deliveries>)
    requires |weather| == |payments| && DifferentItems(payments) && tolerance >= 0.005
    requires forall k :: 0 <= k < |payments| ==> Q(payments[k].amount) >= 0.0
    requires forall k :: 0 <= k < |payments| ==> Abs(payments[k].amount - payments[k].item.openAmount) <= tolerance
    ensures var run := ApplyAll(l, Rounded(payments), weather);
            Succeeds(run) ==>
              Cash(run.ledger) - Cash(l) >=
              Sum(Amounts(payments)) - tolerance * |payments| as real - Sum(Shortfalls(l, Rounded(payments)))
  {
    hide Q, Abs, Sum, Cash, ApplyAll, OpenAmount;
    AllTaken(l, Rounded(payments), weather);
    CoveredClose(payments, tolerance);
    ShortBy(l, Rounded(payments));
  }

  /** So do the payments of fully resolved advices. */
  lemma PaymentsBringIn(
    text: Text, advices: seq<Advice>, items: seq<ArItem>, tolerance: real, l: Ledger, weather: seq<Deliveries>)
    requires |weather| == |Payments(text, advices, ByInvoice(text, items))|
    requires Notes(text, advices, ByInvoice(text, items), tolerance) == []
    requires OnePerId(items) && DistinctReferences(text, advices) && NonNegative(advices, items)
    requires tolerance >= 0.005
    ensures var payments := Payments(text, advices, ByInvoice(text, items));
            var run := ApplyAll(l, Rounded(payments), weather);
            Succeeds(run) ==>
              Cash(run.ledger) - Cash(l) >=
              Sum(Amounts(payments)) - tolerance * |advices| as real - Sum(Shortfalls(l, Rounded(payments)))
  {
    hide Q, Abs, Sum, Cash, ApplyAll, Notes, NonNegative, DistinctReferences, OnePerId, Payments, Rounded, Amounts,
      ByInvoice, DifferentItems, Shortfalls;
    ResolvedPayments(text, advices, items, tolerance);
    CloseBringIn(Payments(text, advices, ByInvoice(text, items)), tolerance, l, weather);
  }

  /** Whatever happened to the items between the fetch and the calls, a remittance that goes straight through leaves at
      most the tolerance per advice line, once more for the total, and half a cent of the declared money outside the
      ERP, besides what its items fall short of what was fetched. */
  lemma StraightThroughCoversDeclared(
    text: Text, remittance: Remittance, items: seq<ArItem>, cfg: MatchingConfig, l: Ledger, weather: seq<Deliveries>)
    requires |weather| == |PaymentsOf(text, remittance, items)|
    requires OnePerId(items)
    requires DistinctReferences(text, remittance.advices) && NonNegative(remittance.advices, items)
    requires cfg.remittanceToleranceAbs >= 0.005
    ensures var payments := Rounded(PaymentsOf(text, remittance, items));
            var run := ApplyAll(l, payments, weather);
            ResultOf(text, remittance, items, cfg, run).straightThrough ==>
              DeclaredOf(text, remittance, items) - (Cash(run.ledger) - Cash(l))
                <= cfg.remittanceToleranceAbs * (|remittance.advices| + 1) as real + 0.005
                   + Sum(Shortfalls(l, payments))
  {
    hide Sum, Cash, ApplyAll, Notes, UnresolvedOf, ResultOf, DeclaredOf, Rounded, Shortfalls;
    hide NonNegative, DistinctReferences, OnePerId;
    var run := ApplyAll(l, Rounded(PaymentsOf(text, remittance, items)), weather);
    StraightThroughMeans(text, remittance, items, cfg, run);
    if ResultOf(text, remittance, items, cfg, run).straightThrough {
      ResidualClose(text, remittance, items, cfg.remittanceToleranceAbs);
      PaymentsBringIn(text, remittance.advices, items, cfg.remittanceToleranceAbs, l, weather);
      OnceMore(cfg.remittanceToleranceAbs, |remittance.advices|);
    }
  }

  /** So of a total the remittance prints. */
  lemma StraightThroughCoversPrinted(
    text: Text, remittance: Remittance, items: seq<ArItem>, cfg: MatchingConfig, l: Ledger, weather: seq<Deliveries>)
    requires |weather| == |PaymentsOf(text, remittance, items)|
    requires OnePerId(items)
    requires DistinctReferences(text, remittance.advices) && NonNegative(remittance.advices, items)
    requires cfg.remittanceToleranceAbs >= 0.005
    requires remittance.totalPaid.Some? && remittance.totalPaid.value != 0.0
    ensures var payments := Rounded(PaymentsOf(text, remittance, items));
            var run := ApplyAll(l, payments, weather);
            ResultOf(text, remittance, items, cfg, run).straightThrough ==>
              remittance.totalPaid.value - (Cash(run.ledger) - Cash(l))
                <= cfg.remittanceToleranceAbs * (|remittance.advices| + 1) as real + 0.005
                   + Sum(Shortfalls(l, payments))
  {
    hide Sum, Cash, ApplyAll, ResultOf, DeclaredOf, PaymentsOf, Rounded, Shortfalls, NonNegative, DistinctReferences,
      OnePerId;
    DeclaredWhenPrinted(text, remittance, items);
    StraightThroughCoversDeclared(text, remittance, items, cfg, l, weather);
  }

  /** Each item still has open what its payment would have taken as it was fetched. */
  predicate StillOpen(l: Ledger, payments: seq<Payment>) {
    forall k :: 0 <= k < |payments| ==>
      OpenAmount(l, payments[k].item.id) >= Min(payments[k].amount, payments[k].item.openAmount)
  }

  // What stored applications say

  /** What each payment exceeds what its item had open when it was taken. */
  function Uncovered(applied: seq<Application>, due: seq<Payment>): (r: seq<real>)
    requires |applied| == |due|
    ensures |r| == |due|
    ensures forall k :: 0 <= k < |r| ==> r[k] == Max(0.0, due[k].amount - (applied[k].applied + applied[k].residual))
  {
    seq(|due|, k requires 0 <= k < |due| => Max(0.0, due[k].amount - (applied[k].applied + applied[k].residual)))
  }

  /** Answered payments are applied in full but for what their items did not have open; nothing is missing exactly when
      every item had its payment open. */
  lemma {:induction false} AnsweredSum(applied: seq<Application>, due: seq<Payment>)
    requires |applied| == |due| && forall k :: 0 <= k < |due| ==> Answers(applied[k], due[k])
    ensures Sum(AppliedColumn(applied)) == Sum(Amounts(due)) - Sum(Uncovered(applied, due))
    ensures Sum(Uncovered(applied, due)) >= 0.0
    ensures Sum(Uncovered(applied, due)) == 0.0 <==>
            forall k :: 0 <= k < |due| ==> applied[k].applied + applied[k].residual >= due[k].amount
  {
    AnsweredTogether(applied, due);
    SumZeroExactly(Uncovered(applied, due));
    forall k | 0 <= k < |due|
      ensures Uncovered(applied, due)[k] == 0.0 <==> applied[k].applied + applied[k].residual >= due[k].amount
    {
    }
  }

  lemma {:induction false} AnsweredTogether(applied: seq<Application>, due: seq<Payment>)
    requires |applied| == |due| && forall k :: 0 <= k < |due| ==> Answers(applied[k], due[k])
    ensures Sum(AppliedColumn(applied)) == Sum(Amounts(due)) - Sum(Uncovered(applied, due))
  {
    if due != [] {
      var n := |due| - 1;
      hide Sum, Uncovered, AppliedColumn, Amounts;
      assert Answers(applied[n], due[n]);
      AnsweredTogether(applied[..n], due[..n]);
      SplitLast(applied, due);
    }
  }

  lemma SplitLast(applied: seq<Application>, due: seq<Payment>)
    requires |applied| == |due| > 0
    ensures var n := |due| - 1;
            && Sum(AppliedColumn(applied)) == Sum(AppliedColumn(applied[..n])) + applied[n].applied
            && Sum(Amounts(due)) == Sum(Amounts(due[..n])) + due[n].amount
            && Sum(Uncovered(applied, due))
               == Sum(Uncovered(applied[..n], due[..n]))
                  + Max(0.0, due[n].amount - (applied[n].applied + applied[n].residual))
  {
    var n := |due| - 1;
    assert Amounts(due)[..n] == Amounts(due[..n]) && AppliedColumn(applied)[..n] == AppliedColumn(applied[..n]);
    assert Uncovered(applied, due)[..n] == Uncovered(applied[..n], due[..n]);
  }

  /** A resolved remittance all of whose payments were answered declares what was applied and what was not covered, to
      within the tolerance on its total and half a cent a figure. */
  lemma AppliedAccounts(
    text: Text, remittance: Remittance, items: seq<ArItem>, tolerance: real, applied: seq<Application>)
    requires UnresolvedOf(text, remittance, items, tolerance) == []
    requires Settles(applied, [], Rounded(PaymentsOf(text, remittance, items)))
    ensures var due := Rounded(PaymentsOf(text, remittance, items));
            Abs(DeclaredOf(text, remittance, items) - Sum(AppliedColumn(applied)) - Sum(Uncovered(applied, due)))
            <= tolerance + 0.005 * (|due| + 1) as real
    ensures var due := Rounded(PaymentsOf(text, remittance, items));
            PrintsTotal(remittance) ==>
              Abs(remittance.totalPaid.value - Sum(AppliedColumn(applied)) - Sum(Uncovered(applied, due)))
              <= tolerance + 0.005 * (|due| + 1) as real
  {
    hide Q, Sum, DeclaredOf, PaymentsOf, Notes, Rounded, Amounts, AppliedColumn, Uncovered, Answers;
    RemittanceAccounts(text, remittance, items);
    if PrintsTotal(remittance) {
      DeclaredWhenPrinted(text, remittance, items);
    }
    AnsweredSum(applied, Rounded(PaymentsOf(text, remittance, items)));
  }

  /** There is no shortfall exactly when every item is still that much open: a condition on the ledger before the
      calls. */
  lemma {:induction false} NoShortfallExactly(l: Ledger, payments: seq<Payment>)
    ensures 0.0 <= Sum(Shortfalls(l, payments))
    ensures Sum(Shortfalls(l, payments)) == 0.0 <==> StillOpen(l, payments)
  {
    hide OpenAmount;
    if payments != [] {
      var n := |payments| - 1;
      NoShortfallExactly(l, payments[..n]);
      assert Shortfalls(l, payments)[..n] == Shortfalls(l, payments[..n]);
      assert StillOpen(l, payments) <==>
        StillOpen(l, payments[..n]) && OpenAmount(l, payments[n].item.id) >=
                                       Min(payments[n].amount, payments[n].item.openAmount);
    }
  }

  /** Items that are as they were fetched are. */
  lemma UnchangedStaysOpen(text: Text, remittance: Remittance, items: seq<ArItem>, l: Ledger)
    requires DistinctItems(l.items) && Fetched(items, l)
    ensures OnePerId(items) && StillOpen(l, Rounded(PaymentsOf(text, remittance, items)))
  {
    hide Q;
    var payments := PaymentsOf(text, remittance, items);
    ByInvoiceSound(text, items);
    PaymentsFromItems(text, remittance.advices, items);
    forall k | 0 <= k < |payments|
      ensures OpenAmount(l, payments[k].item.id) == payments[k].item.openAmount
    {
      ItemFound(l.items, payments[k].item);
    }
  }

  lemma ItemFound(items: seq<ArItem>, item: ArItem)
    requires DistinctItems(items) && item in items
    ensures ItemIndex(items, item.id).Some? && items[ItemIndex(items, item.id).value] == item
  {
    var i :| 0 <= i < |items| && items[i] == item;
    var found := ItemIndex(items, item.id);
    assert found == Some(i);
  }

  /** An item somebody else has paid down to left since it was fetched open at open. */
  predicate PaidDown(l: Ledger, item: ArItem, left: real) {
    IsOpen(l, item.id) && OpenAmount(l, item.id) == left && left < item.openAmount
  }

  lemma SingleAdvice(text: Text, item: ArItem, paid: real, tolerance: real)
    requires item.invoiceNumber != "" && paid != 0.0 && Abs(paid - item.openAmount) <= tolerance
    ensures var remittance := Remittance(None, None, [Advice(Some(item.invoiceNumber), Some(paid))], None);
            && PaymentsOf(text, remittance, [item]) == [Payment(item, paid)]
            && UnresolvedOf(text, remittance, [item], tolerance) == [] && DeclaredOf(text, remittance, [item]) == paid
  {
    var advice := Advice(Some(item.invoiceNumber), Some(paid));
    var index := ByInvoice(text, [item]);
    assert [item][..0] == [] && [advice][..0] == [];
    assert Target(text, advice, index) == Some(item);
    assert Payments(text, [advice], index) == [Payment(item, paid)];
    assert Amounts([Payment(item, paid)]) == [paid];
    assert Sum([paid]) == paid by {
      SumAppend([], paid);
      assert [] + [paid] == [paid];
    }
    assert AmountFor(advice, item) == paid && Note(text, advice, index, tolerance) == [];
    assert Notes(text, [advice], index, tolerance) == [];
    assert ResidualOf(text, Remittance(None, None, [advice], None), [item]) == Q(0.0);
    QOfCents(0.0) by { WholeCents(0); }
  }

  /** The code takes the shortfall for success: a remittance of a single advice on an item paid down since the fetch
      goes
      straight through with only what was left applied, however much it declares. */
  lemma ShortfallGoesThrough(
    text: Text, item: ArItem, paid: real, left: real, cfg: MatchingConfig, l: Ledger, ds: Deliveries)
    requires item.invoiceNumber != "" && PaidDown(l, item, left) && ds[0].Answered?
    requires paid != 0.0 && Abs(paid - item.openAmount) <= cfg.remittanceToleranceAbs && left <= Q(paid)
    ensures var remittance := Remittance(None, None, [Advice(Some(item.invoiceNumber), Some(paid))], None);
            && |PaymentsOf(text, remittance, [item])| == 1
            && var run := ApplyAll(l, Rounded(PaymentsOf(text, remittance, [item])), [ds]);
            && ResultOf(text, remittance, [item], cfg, run).straightThrough
            && DeclaredOf(text, remittance, [item]) == paid
            && Cash(run.ledger) - Cash(l) == left
  {
    hide ApplyCash, Cash, OpenAmount, Q, Via, UnresolvedOf, PaymentsOf, DeclaredOf, IsOpen;
    SingleAdvice(text, item, paid, cfg.remittanceToleranceAbs);
    var payment := Payment(item, Q(paid));
    var remittance := Remittance(None, None, [Advice(Some(item.invoiceNumber), Some(paid))], None);
    assert Rounded(PaymentsOf(text, remittance, [item])) == [payment];
    assert [payment][..0] == [] && [ds][..0] == [];
    assert ApplyAll(l, [payment], [ds]) == ApplyNext(CashRun(l, [], [], false), payment, ds);
    AnsweredWhenOpen(l, item.id, Q(paid), ds);
  }

  lemma AnsweredWhenOpen(l: Ledger, id: string, amount: real, ds: Deliveries)
    requires IsOpen(l, id) && ds[0].Answered?
    ensures var (after, outcome) := Via(l, CashCall(id, amount), ds, 0);
            && outcome.Success? && outcome.answer.ApplicationAnswer?
            && Cash(after) == Cash(l) + Min(amount, OpenAmount(l, id))
  {
    hide ApplyCash, Cash, OpenAmount, IsOpen;
    AppliedWhenOpen(l, id, amount);
    ApplyEffect(l, id, amount);
  }

  /** In every reachable ledger ids tell items apart, so they do in every fetch from it; and with payments that are not
      negative neither are the items fetched. */
  lemma FetchConditionsHold(seed: Seed, ops: seq<Op>, items: seq<ArItem>)
    requires ValidSeed(seed) && Fetched(items, After(seed, ops))
    ensures DistinctItems(After(seed, ops).items) && OnePerId(items)
    ensures PositiveItems(seed) && NonNegativeCash(ops) ==>
            forall k :: 0 <= k < |items| ==> items[k].openAmount >= 0.0
  {
    var l := After(seed, ops);
    LedgerAlwaysValid(seed, ops);
    if PositiveItems(seed) && NonNegativeCash(ops) {
      forall i | 0 <= i < |l.items|
        ensures l.items[i].openAmount >= 0.0
      {
        NeverOverApplied(seed, ops, i);
      }
    }
  }

  /** Conversely, the endpoint takes any amount: a settled open item stays settled exactly when the payment does not pay
      back more than was ever applied to it. A negative advice line on an untouched item raises it above its
      original. */
  lemma SettledExactly(l: Ledger, i: nat, amount: real)
    requires i < |l.items| && ItemIndex(l.items, l.items[i].id) == Some(i)
    requires Settled(l.items[i]) && l.items[i].status == "open"
    ensures var after := ApplyCash(l, l.items[i].id, amount).0;
            && |after.items| == |l.items|
            && (Settled(after.items[i]) <==> amount >= l.items[i].openAmount - l.items[i].originalAmount)
            && (amount < 0.0 && l.items[i].openAmount == l.items[i].originalAmount ==>
                  after.items[i].openAmount > after.items[i].originalAmount)
  {
  }
}
