/** How much money can move without a human, over all runs together. */
module Exposure {
  import opened Prelude
  import opened Money
  import opened Schemas
  import opened Tolerance
  import opened MockErp
  import opened Repository
  import opened Workflow
  import opened Guarantees
  import opened OrderHistory

  /** The positions below n of the documents the ERP holds now on whose runs no human decided. */
  function UndecidedBelow(w: World, n: nat): (r: seq<nat>)
    requires n <= |w.ledger.archive|
    ensures forall k :: 0 <= k < |r| ==> r[k] < n
  {
    if n == 0 then []
    else
      var init := UndecidedBelow(w, n - 1);
      if Current(w, n - 1) && Undecided(w, n - 1) then init + [n - 1] else init
  }

  /** All of them. */
  function UnattendedDocuments(w: World): (r: seq<nat>)
    ensures forall k :: 0 <= k < |r| ==> r[k] < |w.ledger.archive|
  {
    UndecidedBelow(w, |w.ledger.archive|)
  }

  function TotalsAt(archive: seq<Document>, at: seq<nat>): (r: seq<real>)
    requires forall k :: 0 <= k < |at| ==> at[k] < |archive|
    ensures |r| == |at| && forall k :: 0 <= k < |r| ==> r[k] == archive[at[k]].total
  {
    seq(|at|, k requires 0 <= k < |at| => archive[at[k]].total)
  }

  /** The distinct invoices ever persisted: vendor, number and printed amount. */
  function DistinctKeys(invoices: seq<InvoiceRow>): set<string> {
    set row | row in invoices :: row.fingerprint
  }

  lemma {:induction false} UndecidedAre(w: World, n: nat)
    requires n <= |w.ledger.archive|
    ensures var at := UndecidedBelow(w, n);
            && (forall i: nat :: i in at <==> i < n && Current(w, i) && Undecided(w, i))
            && (forall j, k :: 0 <= j < k < |at| ==> at[j] < at[k])
  {
    hide Current, Undecided;
    if n > 0 {
      UndecidedAre(w, n - 1);
    }
  }

  lemma {:induction false} DistinctFit(keys: seq<string>, all: set<string>)
    requires forall k :: 0 <= k < |keys| ==> keys[k] in all
    requires forall j, k :: 0 <= j < k < |keys| ==> keys[j] != keys[k]
    ensures |keys| <= |all|
  {
    if keys != [] {
      var n := |keys| - 1;
      DistinctFit(keys[..n], all - {keys[n]});
    }
  }

  lemma {:induction false} CappedSum(xs: seq<real>, cap: real)
    requires forall k :: 0 <= k < |xs| ==> xs[k] <= cap
    ensures Sum(xs) <= cap * |xs| as real
  {
    if xs != [] {
      var n := |xs| - 1;
      CappedSum(xs[..n], cap);
      assert cap * |xs| as real == cap * n as real + cap;
    }
  }

  lemma DocumentsSum(archive: seq<Document>, at: seq<nat>, cap: real)
    requires forall k :: 0 <= k < |at| ==> at[k] < |archive| && archive[at[k]].total <= cap
    ensures Sum(TotalsAt(archive, at)) <= cap * |at| as real
  {
    CappedSum(TotalsAt(archive, at), cap);
  }

  /** The key of the run that owns a document. */
  function KeyAt(env: Env, w: World, i: nat): Option<string> {
    if i in w.owners && w.owners[i] in w.procs && w.procs[w.owners[i]].ch.invoice.Some?
    then Some(Fingerprint(env.text, w.procs[w.owners[i]].ch.invoice.value))
    else None
  }

  function KeysAt(env: Env, w: World, at: seq<nat>): (r: seq<string>)
    ensures |r| == |at|
    ensures forall k :: 0 <= k < |r| && KeyAt(env, w, at[k]).Some? ==> r[k] == KeyAt(env, w, at[k]).value
  {
    seq(|at|, k requires 0 <= k < |at| => if KeyAt(env, w, at[k]).Some? then KeyAt(env, w, at[k]).value else "")
  }

  /** One such document: at most the rounded ceiling, on a key that its run stored. */
  lemma UndecidedDocument(env: Env, events: seq<Event>, i: nat)
    requires ValidSeed(env.seed) && Undecided(Execute(env, events), i)
    ensures var w := Execute(env, events);
            && 0.0 < w.ledger.archive[i].total <= Q(env.cfg.autoPostCeiling)
            && KeyAt(env, w, i).Some? && KeyAt(env, w, i).value in DistinctKeys(w.tables.invoices)
  {
    hide Execute, ValidSeed, Fingerprint, Q;
    UnattendedDocument(env, events, i);
    var w := Execute(env, events);
    var key := Fingerprint(env.text, w.procs[w.owners[i]].ch.invoice.value);
    assert InvoiceRow(w.owners[i], key) in w.tables.invoices;
  }

  /** Two such documents in the ERP at once are on different keys. */
  lemma DocumentsDiffer(env: Env, events: seq<Event>, i: nat, j: nat)
    requires ValidSeed(env.seed) && i < j
    requires var w := Execute(env, events);
             Current(w, i) && Undecided(w, i) && Current(w, j) && Undecided(w, j)
    ensures KeyAt(env, Execute(env, events), i) != KeyAt(env, Execute(env, events), j)
  {
    hide Execute, ValidSeed, Fingerprint, SamePayment;
    UndecidedDocument(env, events, i);
    ErpNeverHoldsTwo(env, events, i, j);
    if KeyAt(env, Execute(env, events), i) == KeyAt(env, Execute(env, events), j) {
      OneUnattendedPerKey(env, events, i, j);
    }
  }

  ghost predicate AllUndecided(w: World, at: seq<nat>) {
    && (forall k :: 0 <= k < |at| ==> Current(w, at[k]) && Undecided(w, at[k]))
    && (forall j, k :: 0 <= j < k < |at| ==> at[j] < at[k])
  }

  /** There are never more of them than distinct invoices. */
  lemma OneKeyEach(env: Env, events: seq<Event>, at: seq<nat>, among: set<string>)
    requires ValidSeed(env.seed) && AllUndecided(Execute(env, events), at)
    requires forall k :: 0 <= k < |at| && KeyAt(env, Execute(env, events), at[k]).Some? ==>
               KeyAt(env, Execute(env, events), at[k]).value in among
    ensures |at| <= |among|
  {
    hide Execute, ValidSeed, Q, KeyAt, KeysAt, Undecided, Current;
    var w := Execute(env, events);
    var keys := KeysAt(env, w, at);
    forall k | 0 <= k < |at|
      ensures KeyAt(env, w, at[k]) == Some(keys[k]) && keys[k] in among
    {
      UndecidedDocument(env, events, at[k]);
    }
    forall j, k | 0 <= j < k < |keys|
      ensures keys[j] != keys[k]
    {
      DocumentsDiffer(env, events, at[j], at[k]);
    }
    DistinctFit(keys, among);
  }

  /** All the money the ERP holds that no human decided on is at most the ceiling for each distinct invoice stored:
      resending a document any number of times, to any number of concurrent runs, moves no more, and neither does
      losing replies, statuses or flags on the way. */
  lemma UnattendedExposure(env: Env, events: seq<Event>)
    requires ValidSeed(env.seed)
    ensures var w := Execute(env, events);
            var at := UnattendedDocuments(w);
            && Sum(TotalsAt(w.ledger.archive, at)) <= Q(env.cfg.autoPostCeiling) * |at| as real
            && |at| <= |DistinctKeys(w.tables.invoices)|
  {
    hide Execute, ValidSeed, UndecidedBelow, Q, KeyAt, Undecided, Current, DistinctKeys, Sum, TotalsAt;
    var w := Execute(env, events);
    var at := UnattendedDocuments(w);
    UndecidedAre(w, |w.ledger.archive|);
    assert forall k :: 0 <= k < |at| ==> at[k] in at;
    assert AllUndecided(w, at);
    forall k | 0 <= k < |at|
      ensures w.ledger.archive[at[k]].total <= Q(env.cfg.autoPostCeiling)
      ensures KeyAt(env, w, at[k]).Some? ==> KeyAt(env, w, at[k]).value in DistinctKeys(w.tables.invoices)
    {
      UndecidedDocument(env, events, at[k]);
    }
    OneKeyEach(env, events, at, DistinctKeys(w.tables.invoices));
    DocumentsSum(w.ledger.archive, at, Q(env.cfg.autoPostCeiling));
  }

  // On one order

  /** The most an invoice may total and still be within tolerance of the order. */
  function OrderLimit(po: PurchaseOrder, cfg: MatchingConfig): real {
    po.grossAmount
    + Max(cfg.totalToleranceAbs, (FloorCents(cfg.totalTolerancePct) + 0.005) / 100.0 * Abs(po.grossAmount))
  }

  lemma WithinLimit(total: real, po: PurchaseOrder, cfg: MatchingConfig)
    requires ToleranceRegion(total - po.grossAmount, po.grossAmount, cfg.totalToleranceAbs, cfg.totalTolerancePct)
    requires po.grossAmount != 0.0 || cfg.totalTolerancePct < 100.0
    ensures total <= OrderLimit(po, cfg)
  {
    hide FloorCents;
    var c := FloorCents(cfg.totalTolerancePct) + 0.005;
    assert c / 100.0 * Abs(po.grossAmount) == c * Abs(po.grossAmount) / 100.0;
  }

  predicate OnOrder(w: World, i: nat, po: PurchaseOrder)
    requires Undecided(w, i)
  {
    var order := w.procs[w.owners[i]].ch.order;
    order.Some? && SameTerms(po, order.value)
  }

  /** Those of the positions whose run was matched on the order, whenever it fetched it. */
  function OnOrderOnly(w: World, po: PurchaseOrder, at: seq<nat>): (r: seq<nat>)
    requires forall k :: 0 <= k < |at| ==> Undecided(w, at[k])
    ensures forall k :: 0 <= k < |r| ==> r[k] in at && Undecided(w, r[k]) && OnOrder(w, r[k], po)
  {
    if at == [] then []
    else
      var n := |at| - 1;
      OnOrderOnly(w, po, at[..n]) + (if OnOrder(w, at[n], po) then [at[n]] else [])
  }

  lemma {:induction false} StillOrdered(w: World, po: PurchaseOrder, at: seq<nat>)
    requires AllUndecided(w, at)
    ensures AllUndecided(w, OnOrderOnly(w, po, at))
  {
    hide Current, Undecided, OnOrder;
    if at != [] {
      var n := |at| - 1;
      StillOrdered(w, po, at[..n]);
      var init := OnOrderOnly(w, po, at[..n]);
      forall k | 0 <= k < |init|
        ensures init[k] < at[n]
      {
        assert init[k] in at[..n];
      }
    }
  }

  function OrderCap(po: PurchaseOrder, cfg: MatchingConfig): real {
    Min(Q(cfg.autoPostCeiling), Q(OrderLimit(po, cfg)))
  }

  /** The distinct invoices whose runs were matched on the order. */
  function OrderKeys(env: Env, w: World, po: PurchaseOrder): set<string> {
    set r | r in w.procs && Matches(w.procs[r].ch, po) :: Fingerprint(env.text, w.procs[r].ch.invoice.value)
  }

  predicate Matches(ch: Channel, po: PurchaseOrder) {
    ch.invoice.Some? && ch.order.Some? && SameTerms(po, ch.order.value)
  }

  lemma OrderedDocument(env: Env, events: seq<Event>, po: PurchaseOrder, i: nat)
    requires ValidSeed(env.seed) && Undecided(Execute(env, events), i) && OnOrder(Execute(env, events), i, po)
    requires po.grossAmount != 0.0 || env.cfg.totalTolerancePct < 100.0
    ensures var w := Execute(env, events);
            && w.ledger.archive[i].total <= OrderCap(po, env.cfg) && w.ledger.archive[i].poNumber == Some(po.poNumber)
            && KeyAt(env, w, i).Some? && KeyAt(env, w, i).value in OrderKeys(env, w, po)
  {
    hide Execute, ValidSeed, Q, OrderLimit, ToleranceRegion, SameLines, Fingerprint, InCents;
    UnattendedDocument(env, events, i);
    var w := Execute(env, events);
    var total := w.procs[w.owners[i]].ch.invoice.value.Total();
    WithinLimit(total, po, env.cfg);
    QMonotone(total, OrderLimit(po, env.cfg));
  }

  lemma InArchive(w: World, i: nat)
    requires Undecided(w, i)
    ensures i < |w.ledger.archive|
  {
  }

  lemma OrderedDocuments(env: Env, events: seq<Event>, po: PurchaseOrder, on: seq<nat>)
    requires ValidSeed(env.seed) && (po.grossAmount != 0.0 || env.cfg.totalTolerancePct < 100.0)
    requires var w := Execute(env, events);
             forall k :: 0 <= k < |on| ==> Undecided(w, on[k]) && OnOrder(w, on[k], po)
    ensures var w := Execute(env, events);
            forall k :: 0 <= k < |on| ==>
              && on[k] < |w.ledger.archive| && w.ledger.archive[on[k]].total <= OrderCap(po, env.cfg)
              && w.ledger.archive[on[k]].poNumber == Some(po.poNumber)
              && KeyAt(env, w, on[k]).Some? && KeyAt(env, w, on[k]).value in OrderKeys(env, w, po)
  {
    hide Execute, ValidSeed, Undecided, OnOrder, OrderKeys, OrderCap, KeyAt;
    var w := Execute(env, events);
    forall k | 0 <= k < |on|
      ensures on[k] < |w.ledger.archive| && w.ledger.archive[on[k]].total <= OrderCap(po, env.cfg)
      ensures w.ledger.archive[on[k]].poNumber == Some(po.poNumber)
      ensures KeyAt(env, w, on[k]).Some? && KeyAt(env, w, on[k]).value in OrderKeys(env, w, po)
    {
      InArchive(w, on[k]);
      OrderedDocument(env, events, po, on[k]);
    }
  }

  /** On any one order, under whatever numbers it was billed, they are at most the order's own limit, or the ceiling if
      that is less, for each distinct invoice matched on it. */
  lemma OrderExposure(env: Env, events: seq<Event>, po: PurchaseOrder, at: seq<nat>)
    requires ValidSeed(env.seed) && AllUndecided(Execute(env, events), at)
    requires po.grossAmount != 0.0 || env.cfg.totalTolerancePct < 100.0
    ensures var w := Execute(env, events);
            var on := OnOrderOnly(w, po, at);
            && Sum(TotalsAt(w.ledger.archive, on)) <= OrderCap(po, env.cfg) * |on| as real
            && |on| <= |OrderKeys(env, w, po)|
            && forall k :: 0 <= k < |on| ==> w.ledger.archive[on[k]].poNumber == Some(po.poNumber)
  {
    hide Execute, ValidSeed, Undecided, Current, OnOrder, OnOrderOnly, KeyAt, OrderKeys, OrderCap, Sum, TotalsAt;
    var w := Execute(env, events);
    var on := OnOrderOnly(w, po, at);
    StillOrdered(w, po, at);
    OrderedDocuments(env, events, po, on);
    OneKeyEach(env, events, on, OrderKeys(env, w, po));
    DocumentsSum(w.ledger.archive, on, OrderCap(po, env.cfg));
  }
}
