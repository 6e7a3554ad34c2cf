/** The ERP's finance endpoints: journal posting with a unique reference, and cash application. */
module MockErp {
  import opened Prelude
  import opened Money
  import opened Schemas
  import opened Journal
  import opened Numbering

  datatype Document = Document(
    number: string, reference: string, total: real, currency: string, vendorId: Option<string>,
    poNumber: Option<string>,
    lines: seq<JournalLine>)

  datatype Application = Application(number: string, itemId: string, applied: real, residual: real)

  datatype Seed = Seed(orders: seq<PurchaseOrder>, items: seq<ArItem>)

  /** archive and cashbook are history variables: every document ever created and every application ever made, across
      reseeds. */
  datatype Ledger = Ledger(
    orders: seq<PurchaseOrder>, items: seq<ArItem>, journals: seq<Document>, applications: seq<Application>,
    nextDocument: nat, nextApplication: nat, archive: seq<Document>, cashbook: seq<Application>)

  datatype PostReply = Created(document: Document) | Unprocessable | Conflict

  datatype CashReply = Applied(application: Application) | NotFound | NotOpen

  // Behaviour

  function Reseed(l: Ledger, seed: Seed): Ledger {
    l.(orders := seed.orders, items := seed.items, journals := [], applications := [])
  }

  function Fresh(seed: Seed): Ledger {
    Reseed(Ledger([], [], [], [], 1, 1, [], []), seed)
  }

  function FindReference(journals: seq<Document>, reference: string): Option<nat> {
    FirstIndex(journals, (d: Document) => d.reference == reference)
  }

  function InvoicedLines(lines: seq<PoLine>): seq<PoLine> {
    seq(|lines|, k requires 0 <= k < |lines| => lines[k].(quantityInvoiced := lines[k].quantityOrdered))
  }

  function Invoiced(po: PurchaseOrder): PurchaseOrder {
    po.(lines := InvoicedLines(po.lines), status := "invoiced")
  }

  function MarkInvoiced(orders: seq<PurchaseOrder>, poNumber: Option<string>): (r: seq<PurchaseOrder>)
    ensures |r| == |orders|
  {
    if !Truthy(poNumber) then orders
    else
      var number := poNumber.value;
      var i := FirstIndex(orders, (p: PurchaseOrder) => p.poNumber == number);
      if i.None? then orders else orders[i.value := Invoiced(orders[i.value])]
  }

  /** The document says what the entry says. */
  predicate Books(d: Document, entry: JournalEntry) {
    && d.reference == entry.reference && d.total == entry.Debits() && d.lines == entry.lines
    && d.currency == entry.currency && d.vendorId == entry.vendorId && d.poNumber == entry.poNumber
  }

  function DocumentFor(l: Ledger, entry: JournalEntry): Document {
    Document(DocumentNumber(l.nextDocument), entry.reference, entry.Debits(), entry.currency, entry.vendorId,
             entry.poNumber, entry.lines)
  }

  function Post(l: Ledger, entry: JournalEntry): (Ledger, PostReply) {
    if entry.lines == [] || entry.Debits() != entry.Credits() then (l, Unprocessable)
    else if FindReference(l.journals, entry.reference).Some? then (l, Conflict)
    else
      var document := DocumentFor(l, entry);
      (l.(journals := l.journals + [document], archive := l.archive + [document], nextDocument := l.nextDocument + 1,
          orders := MarkInvoiced(l.orders, entry.poNumber)),
       Created(document))
  }

  function ItemIndex(items: seq<ArItem>, id: string): Option<nat> {
    FirstIndex(items, (i: ArItem) => i.id == id)
  }

  function ApplyCash(l: Ledger, id: string, amount: real): (Ledger, CashReply) {
    var i := ItemIndex(l.items, id);
    if i.None? then (l, NotFound)
    else
      var item := l.items[i.value];
      if item.status != "open" then (l, NotOpen)
      else
        var applied := Min(amount, item.openAmount);
        var left := item.openAmount - applied;
        var application := Application(ApplicationNumber(l.nextApplication), id, applied, left);
        var status := if left <= 0.0 then "cleared" else item.status;
        (l.(items := l.items[i.value := item.(openAmount := left, status := status)],
            applications := l.applications + [application], nextApplication := l.nextApplication + 1,
            cashbook := l.cashbook + [application]),
         Applied(application))
  }

  // The endpoints on the request's own fields

  /** The order as it is marked: its status, and every line's invoiced quantity the quantity ordered. */
  predicate MarkedInvoiced(after: PurchaseOrder, before: PurchaseOrder) {
    && after == before.(status := "invoiced", lines := after.lines) && |after.lines| == |before.lines|
    && forall k :: 0 <= k < |before.lines| ==>
         after.lines[k] == before.lines[k].(quantityInvoiced := before.lines[k].quantityOrdered)
  }

  predicate FirstOrder(orders: seq<PurchaseOrder>, number: string, i: nat) {
    i < |orders| && orders[i].poNumber == number && forall j :: 0 <= j < i ==> orders[j].poNumber != number
  }

  /** Only the first order under the number is marked, and none when no number is given. */
  lemma MarksExactly(orders: seq<PurchaseOrder>, poNumber: Option<string>, i: nat)
    requires i < |orders|
    ensures var after := MarkInvoiced(orders, poNumber);
            if poNumber.Some? && poNumber.value != "" && FirstOrder(orders, poNumber.value, i)
            then MarkedInvoiced(after[i], orders[i])
            else after[i] == orders[i]
  {
    if Truthy(poNumber) {
      var number := poNumber.value;
      var found := FirstIndex(orders, (p: PurchaseOrder) => p.poNumber == number);
      if FirstOrder(orders, number, i) && found.Some? {
        assert !(found.value < i) && !(i < found.value);
      }
    }
  }

  /** Exactly what a posting is answered, and what an accepted one leaves: an entry without lines or whose columns
      differ is unprocessable, one whose reference the ledger holds is a conflict, and any other becomes the
      next document. */
  lemma PostExactly(l: Ledger, entry: JournalEntry, debits: seq<real>, credits: seq<real>)
    requires |debits| == |credits| == |entry.lines|
    requires forall k :: 0 <= k < |entry.lines| ==>
               debits[k] == entry.lines[k].debit && credits[k] == entry.lines[k].credit
    ensures var (after, reply) := Post(l, entry);
            var known := exists j :: 0 <= j < |l.journals| && l.journals[j].reference == entry.reference;
            var sound := entry.lines != [] && Sum(debits) == Sum(credits);
            && (reply.Unprocessable? <==> !sound) && (reply.Conflict? <==> sound && known)
            && (!reply.Created? ==> after == l)
            && (reply.Created? ==>
                  var d := reply.document;
                  && d.number == DocumentNumber(l.nextDocument) && d.reference == entry.reference
                  && d.total == Sum(debits) && d.currency == entry.currency && d.vendorId == entry.vendorId
                  && d.poNumber == entry.poNumber && d.lines == entry.lines
                  && after == l.(journals := l.journals + [d], archive := l.archive + [d],
                                 nextDocument := l.nextDocument + 1, orders := MarkInvoiced(l.orders, entry.poNumber)))
  {
    hide MarkInvoiced, DocumentNumber;
    assert DebitColumn(entry.lines) == debits && CreditColumn(entry.lines) == credits;
    var found := FindReference(l.journals, entry.reference);
    if found.Some? {
      assert l.journals[found.value].reference == entry.reference;
    }
  }

  predicate FirstWithId(items: seq<ArItem>, id: string, i: nat) {
    i < |items| && items[i].id == id && forall j :: 0 <= j < i ==> items[j].id != id
  }

  /** Exactly what a payment is answered, and what an accepted one leaves: no item under the id is not found, one that
      is not open is refused, and of an open one the payment or all that is open is taken, whichever is less. */
  lemma ApplyExactly(l: Ledger, id: string, amount: real, i: nat)
    ensures var (after, reply) := ApplyCash(l, id, amount);
            && (reply.NotFound? <==> forall j :: 0 <= j < |l.items| ==> l.items[j].id != id)
            && (!reply.Applied? ==> after == l)
            && (FirstWithId(l.items, id, i) ==>
                  var item := l.items[i];
                  && (reply.NotOpen? <==> item.status != "open")
                  && (reply.Applied? ==>
                        var taken := if amount <= item.openAmount then amount else item.openAmount;
                        var left := item.openAmount - taken;
                        var a := reply.application;
                        && a.number == ApplicationNumber(l.nextApplication) && a.itemId == id
                        && a.applied == taken && a.residual == left
                        && after == l.(items := after.items, applications := l.applications + [a],
                                       cashbook := l.cashbook + [a], nextApplication := l.nextApplication + 1)
                        && |after.items| == |l.items|
                        && (forall j :: 0 <= j < |l.items| && j != i ==> after.items[j] == l.items[j])
                        && after.items[i] == item.(openAmount := left,
                                                   status := if left <= 0.0 then "cleared" else "open")))
  {
    hide ApplicationNumber;
    var found := ItemIndex(l.items, id);
    if FirstWithId(l.items, id, i) {
      assert found == Some(i) by {
        assert !(found.value < i) && !(i < found.value);
      }
    }
  }

  /** Reseeding puts the master data back and drops journals and applications; the counters and the history run on. */
  lemma ReseedExactly(l: Ledger, seed: Seed)
    ensures var after := Reseed(l, seed);
            && after.orders == seed.orders && after.items == seed.items
            && after.journals == [] && after.applications == []
            && after.nextDocument == l.nextDocument && after.nextApplication == l.nextApplication
            && after.archive == l.archive && after.cashbook == l.cashbook
    ensures var first := Fresh(seed);
            && first.orders == seed.orders && first.items == seed.items
            && first.journals == [] && first.applications == [] && first.archive == [] && first.cashbook == []
            && first.nextDocument == 1 && first.nextApplication == 1
  {
  }

  // Invariants

  predicate ValidSeed(seed: Seed) {
    && (forall i :: 0 <= i < |seed.orders| ==> seed.orders[i].poNumber != "" && seed.orders[i].status != "invoiced")
    && (forall i, j :: 0 <= i < j < |seed.orders| ==> seed.orders[i].poNumber != seed.orders[j].poNumber)
    && (forall i, j :: 0 <= i < j < |seed.items| ==> seed.items[i].id != seed.items[j].id)
    && (forall i :: 0 <= i < |seed.items| ==> seed.items[i].openAmount == seed.items[i].originalAmount)
  }

  predicate BalancedDocument(d: Document) {
    d.lines != [] && Sum(DebitColumn(d.lines)) == Sum(CreditColumn(d.lines)) == d.total
  }

  ghost predicate DocumentsInv(l: Ledger) {
    && l.nextDocument == |l.archive| + 1
    && (forall i :: 0 <= i < |l.archive| ==> l.archive[i].number == DocumentNumber(i + 1))
    && (forall i :: 0 <= i < |l.archive| ==> BalancedDocument(l.archive[i]))
    && |l.journals| <= |l.archive|
    && l.journals == l.archive[|l.archive| - |l.journals|..]
    && (forall i, j :: 0 <= i < j < |l.journals| ==> l.journals[i].reference != l.journals[j].reference)
  }

  predicate Named(journals: seq<Document>, poNumber: string) {
    exists j :: 0 <= j < |journals| && journals[j].poNumber == Some(poNumber)
  }

  /** A purchase order is as seeded until some journal names it, and fully invoiced from then on. */
  ghost predicate OrdersInv(l: Ledger, seed: Seed) {
    && |l.orders| == |seed.orders|
    && forall i :: 0 <= i < |l.orders| ==>
         l.orders[i] == if Named(l.journals, seed.orders[i].poNumber) then Invoiced(seed.orders[i]) else seed.orders[i]
  }

  function AppliedTo(applications: seq<Application>, id: string): real {
    if applications == [] then 0.0
    else
      var n := |applications| - 1;
      AppliedTo(applications[..n], id) + (if applications[n].itemId == id then applications[n].applied else 0.0)
  }

  /** No cent is created or lost: what was owed is what is still open plus what was applied. */
  ghost predicate ReceivablesInv(l: Ledger, seed: Seed) {
    && |l.items| == |seed.items|
    && forall i :: 0 <= i < |l.items| ==>
         && l.items[i].id == seed.items[i].id
         && l.items[i].originalAmount == seed.items[i].originalAmount
         && l.items[i].originalAmount == l.items[i].openAmount + AppliedTo(l.applications, l.items[i].id)
  }

  ghost predicate LedgerInv(l: Ledger, seed: Seed) {
    DocumentsInv(l) && OrdersInv(l, seed) && ReceivablesInv(l, seed)
  }

  lemma MarkInvoicedKeeps(orders: seq<PurchaseOrder>, journals: seq<Document>, document: Document, seed: Seed)
    requires ValidSeed(seed)
    requires |orders| == |seed.orders|
    requires forall i :: 0 <= i < |orders| ==>
               orders[i] ==
               if Named(journals, seed.orders[i].poNumber) then Invoiced(seed.orders[i]) else seed.orders[i]
    ensures var after := MarkInvoiced(orders, document.poNumber);
            forall i :: 0 <= i < |after| ==>
              after[i] ==
              if Named(journals + [document], seed.orders[i].poNumber) then Invoiced(seed.orders[i]) else seed.orders[i]
  {
    var after := MarkInvoiced(orders, document.poNumber);
    forall i | 0 <= i < |after|
      ensures after[i] ==
              if Named(journals + [document], seed.orders[i].poNumber) then Invoiced(seed.orders[i]) else seed.orders[i]
    {
      var number := seed.orders[i].poNumber;
      NamedAppend(journals, document, number);
      InvoicedTwice(seed.orders[i]);
      if document.poNumber == Some(number) {
        var k := FirstIndex(orders, (p: PurchaseOrder) => p.poNumber == number);
        assert orders[i].poNumber == number;
        assert k == Some(i);
      }
    }
  }

  lemma NamedAppend(journals: seq<Document>, document: Document, number: string)
    ensures Named(journals + [document], number) <==> Named(journals, number) || document.poNumber == Some(number)
  {
    var more := journals + [document];
    if Named(journals, number) {
      var j :| 0 <= j < |journals| && journals[j].poNumber == Some(number);
      assert more[j].poNumber == Some(number);
    }
    if document.poNumber == Some(number) {
      assert more[|journals|].poNumber == Some(number);
    }
  }

  lemma InvoicedTwice(po: PurchaseOrder)
    ensures Invoiced(Invoiced(po)) == Invoiced(po)
  {
    assert InvoicedLines(InvoicedLines(po.lines)) == InvoicedLines(po.lines);
  }

  lemma PostKeepsDocuments(l: Ledger, entry: JournalEntry)
    requires DocumentsInv(l)
    ensures DocumentsInv(Post(l, entry).0)
    ensures Post(l, entry).1.Created? ==> Post(l, entry).0.archive == l.archive + [Post(l, entry).1.document]
  {
    hide DocumentNumber, MarkInvoiced, Sum;
    var (after, reply) := Post(l, entry);
    if reply.Created? {
      var start := |l.archive| - |l.journals|;
      assert after.archive[start..] == l.archive[start..] + [reply.document];
    }
  }

  lemma PostKeeps(l: Ledger, seed: Seed, entry: JournalEntry)
    requires ValidSeed(seed) && LedgerInv(l, seed)
    ensures LedgerInv(Post(l, entry).0, seed)
  {
    PostKeepsDocuments(l, entry);
    var (after, reply) := Post(l, entry);
    if reply.Created? {
      MarkInvoicedKeeps(l.orders, l.journals, reply.document, seed);
    }
  }

  lemma AppliedToAppend(applications: seq<Application>, a: Application, id: string)
    ensures AppliedTo(applications + [a], id)
            == AppliedTo(applications, id) + (if a.itemId == id then a.applied else 0.0)
  {
    assert (applications + [a])[..|applications|] == applications;
  }

  lemma ApplyKeeps(l: Ledger, seed: Seed, id: string, amount: real)
    requires ValidSeed(seed) && LedgerInv(l, seed)
    ensures LedgerInv(ApplyCash(l, id, amount).0, seed)
  {
    hide ReceivablesInv;
    ApplyKeepsReceivables(l, seed, id, amount);
  }

  lemma ApplyKeepsReceivables(l: Ledger, seed: Seed, id: string, amount: real)
    requires ValidSeed(seed) && ReceivablesInv(l, seed)
    ensures ReceivablesInv(ApplyCash(l, id, amount).0, seed)
  {
    var (after, reply) := ApplyCash(l, id, amount);
    if reply.Applied? {
      var k := ItemIndex(l.items, id).value;
      forall i | 0 <= i < |after.items|
        ensures after.items[i].originalAmount
                == after.items[i].openAmount + AppliedTo(after.applications, after.items[i].id)
      {
        AppliedToAppend(l.applications, reply.application, l.items[i].id);
        if i != k {
          assert seed.items[i].id != seed.items[k].id;
        }
      }
    }
  }

  // Every reachable ledger

  datatype Op = PostOp(entry: JournalEntry) | CashOp(id: string, amount: real) | ReseedOp

  function Do(l: Ledger, seed: Seed, op: Op): Ledger {
    match op
    case PostOp(entry) => Post(l, entry).0
    case CashOp(id, amount) => ApplyCash(l, id, amount).0
    case ReseedOp => Reseed(l, seed)
  }

  function After(seed: Seed, ops: seq<Op>): Ledger {
    if ops == [] then Fresh(seed) else Do(After(seed, ops[..|ops| - 1]), seed, ops[|ops| - 1])
  }

  lemma ReseedKeeps(l: Ledger, seed: Seed)
    requires ValidSeed(seed) && DocumentsInv(l)
    ensures LedgerInv(Reseed(l, seed), seed)
  {
  }

  lemma ReseedValid(l: Ledger, seed: Seed)
    requires ValidSeed(seed) && LedgerInv(l, seed)
    ensures LedgerInv(Reseed(l, seed), seed)
  {
    ReseedKeeps(l, seed);
  }

  lemma FreshValid(seed: Seed)
    requires ValidSeed(seed)
    ensures LedgerInv(Fresh(seed), seed)
  {
    ReseedKeeps(Ledger([], [], [], [], 1, 1, [], []), seed);
  }

  /** Balanced documents, distinct references, one numbering for ever, orders invoiced exactly when
      named, receivables conserved: in every ledger any sequence of requests can lead to. */
  lemma {:induction false} LedgerAlwaysValid(seed: Seed, ops: seq<Op>)
    requires ValidSeed(seed)
    ensures LedgerInv(After(seed, ops), seed)
  {
    hide LedgerInv;
    if ops == [] {
      FreshValid(seed);
    } else {
      var before := After(seed, ops[..|ops| - 1]);
      LedgerAlwaysValid(seed, ops[..|ops| - 1]);
      match ops[|ops| - 1] {
        case PostOp(entry) => PostKeeps(before, seed, entry);
        case CashOp(id, amount) => ApplyKeeps(before, seed, id, amount);
        case ReseedOp => ReseedValid(before, seed);
      }
    }
  }

  /** No two documents ever created, whichever seed they belong to, share a number. */
  lemma NumbersNeverReused(seed: Seed, ops: seq<Op>, i: nat, j: nat)
    requires ValidSeed(seed)
    requires i < j < |After(seed, ops).archive|
    ensures After(seed, ops).archive[i].number != After(seed, ops).archive[j].number
  {
    LedgerAlwaysValid(seed, ops);
    DocumentNumberInjective(i + 1, j + 1);
  }

  lemma InvoicedExactlyWhenNamed(seed: Seed, ops: seq<Op>, i: nat)
    requires ValidSeed(seed) && i < |seed.orders|
    ensures var l := After(seed, ops);
            && |l.orders| == |seed.orders|
            && (l.orders[i].status == "invoiced" <==> Named(l.journals, seed.orders[i].poNumber))
  {
    LedgerAlwaysValid(seed, ops);
  }

  predicate PositiveItems(seed: Seed) {
    forall i :: 0 <= i < |seed.items| ==> seed.items[i].openAmount > 0.0 && seed.items[i].status == "open"
  }

  predicate NonNegativeCash(ops: seq<Op>) {
    forall k :: 0 <= k < |ops| && ops[k].CashOp? ==> ops[k].amount >= 0.0
  }

  predicate Settled(item: ArItem) {
    && 0.0 <= item.openAmount <= item.originalAmount
    && (item.status == "cleared" <==> item.openAmount == 0.0)
    && (item.status == "open" || item.status == "cleared")
  }

  /** With payments that are not negative, nothing is ever over-applied and cleared means paid in full. */
  lemma {:induction false} NeverOverApplied(seed: Seed, ops: seq<Op>, i: nat)
    requires ValidSeed(seed) && PositiveItems(seed) && NonNegativeCash(ops)
    requires i < |seed.items|
    ensures |After(seed, ops).items| == |seed.items| && Settled(After(seed, ops).items[i])
  {
    if ops != [] {
      NeverOverApplied(seed, ops[..|ops| - 1], i);
    }
  }

  // The endpoints, in place

  class Erp {
    const seed: Seed
    var orders: seq<PurchaseOrder>
    var items: seq<ArItem>
    var journals: seq<Document>
    var applications: seq<Application>
    var nextDocument: nat
    var nextApplication: nat
    ghost var archive: seq<Document>
    ghost var cashbook: seq<Application>

    ghost function Model(): Ledger
      reads this
    {
      Ledger(orders, items, journals, applications, nextDocument, nextApplication, archive, cashbook)
    }

    ghost predicate Valid()
      reads this
    {
      ValidSeed(seed) && LedgerInv(Model(), seed)
    }

    constructor (seed: Seed)
      requires ValidSeed(seed)
      ensures Valid() && this.seed == seed && Model() == Fresh(seed)
    {
      hide LedgerInv, ValidSeed;
      this.seed := seed;
      orders, items, journals, applications := seed.orders, seed.items, [], [];
      nextDocument, nextApplication := 1, 1;
      archive, cashbook := [], [];
      new;
      FreshValid(seed);
    }

    method ReseedAll()
      requires Valid()
      modifies this
      ensures Valid() && Model() == Reseed(old(Model()), seed)
    {
      ReseedKeeps(Model(), seed);
      orders, items, journals, applications := seed.orders, seed.items, [], [];
    }

    method InvoiceOrder(poNumber: string)
      requires poNumber != ""
      modifies this`orders
      ensures orders == MarkInvoiced(old(orders), Some(poNumber))
    {
      var found := FirstIndex(orders, (p: PurchaseOrder) => p.poNumber == poNumber);
      if found.Some? {
        var po := orders[found.value];
        var lines := po.lines;
        for k := 0 to |po.lines|
          invariant |lines| == |po.lines|
          invariant lines == InvoicedLines(po.lines)[..k] + po.lines[k..]
        {
          lines := lines[k := lines[k].(quantityInvoiced := lines[k].quantityOrdered)];
        }
        assert lines == InvoicedLines(po.lines);
        orders := orders[found.value := po.(lines := lines, status := "invoiced")];
      }
    }

    method PostJournalEntry(entry: JournalEntry) returns (reply: PostReply)
      requires Valid()
      modifies this
      ensures Valid()
      ensures (Model(), reply) == Post(old(Model()), entry)
    {
      hide LedgerInv, ValidSeed;
      PostKeeps(Model(), seed, entry);
      if entry.lines == [] || entry.Debits() != entry.Credits() {
        return Unprocessable;
      }
      if FindReference(journals, entry.reference).Some? {
        return Conflict;
      }
      var document := Document(DocumentNumber(nextDocument), entry.reference, entry.Debits(), entry.currency,
                               entry.vendorId, entry.poNumber, entry.lines);
      nextDocument := nextDocument + 1;
      journals := journals + [document];
      archive := archive + [document];
      if Truthy(entry.poNumber) {
        InvoiceOrder(entry.poNumber.value);
      }
      reply := Created(document);
    }

    method ApplyCashTo(id: string, amount: real) returns (reply: CashReply)
      requires Valid()
      modifies this`items, this`applications, this`nextApplication, this`cashbook
      ensures Valid()
      ensures (Model(), reply) == ApplyCash(old(Model()), id, amount)
    {
      hide LedgerInv, ValidSeed;
      ApplyKeeps(Model(), seed, id, amount);
      var found := ItemIndex(items, id);
      if found.None? {
        return NotFound;
      }
      var item := items[found.value];
      if item.status != "open" {
        return NotOpen;
      }
      var applied := Min(amount, item.openAmount);
      item := item.(openAmount := item.openAmount - applied);
      if item.openAmount <= 0.0 {
        item := item.(status := "cleared");
      }
      items := items[found.value := item];
      var application := Application(ApplicationNumber(nextApplication), id, applied, item.openAmount);
      nextApplication := nextApplication + 1;
      applications := applications + [application];
      cashbook := cashbook + [application];
      reply := Applied(application);
    }
  }
}
