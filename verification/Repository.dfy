/** The application tables and every query the workflow makes of them. */
module Repository {
  import opened Prelude
  import opened Schemas
  import opened Matching
  import opened MockErp

  type RunId = string

  datatype RunStatus = Received | Parsing | Extracting | Matching | AwaitingApproval | Posting | Completed | Rejected
    | Failed

  datatype Action =
    | EmailReceived | DocumentParsed | FieldsExtracted | DuplicateChecked | VendorResolved | PoFetched
    | GoodsReceiptFetched | MatchEvaluated | ExceptionRaised | HumanDecision(approve: bool)
    | JournalPosted(straightThrough: bool) | CashApplied | RunFailed

  datatype Kind = PayableRun | ReceivableRun
  datatype RunRow = RunRow(kind: Kind, status: RunStatus, straightThrough: bool)
  datatype InvoiceRow = InvoiceRow(run: RunId, fingerprint: string)
  datatype MatchRow = MatchRow(run: RunId, report: MatchReport)
  datatype CaseStatus = OpenCase | Approved | RejectedCase
  datatype CaseRow = CaseRow(run: RunId, status: CaseStatus)
  datatype JournalRow = JournalRow(run: RunId, posted: bool, documentNumber: string, reference: string, total: real)
  datatype RemittanceRow = RemittanceRow(run: RunId, applied: bool, applications: seq<Application>, residual: real)
  datatype AuditRow = AuditRow(run: RunId, sequence: int, action: Action)

  datatype Tables = Tables(
    runs: map<RunId, RunRow>, invoices: seq<InvoiceRow>, matches: seq<MatchRow>, cases: seq<CaseRow>,
    journals: seq<JournalRow>, remittances: seq<RemittanceRow>, audit: seq<AuditRow>)

  const NO_ROWS := Tables(map[], [], [], [], [], [], [])

  /** The duplicate key before hashing: vendor, number and the printed total. */
  function Fingerprint(text: Text, invoice: Invoice): string {
    VendorPart(text, invoice) + "|" + NumberPart(text, invoice) + "|" + TotalPart(invoice)
  }

  function VendorPart(text: Text, invoice: Invoice): string {
    text.stripLower(OrElse(invoice.vendorName, ""))
  }

  function NumberPart(text: Text, invoice: Invoice): string {
    text.stripLower(OrElse(invoice.invoiceNumber, ""))
  }

  function TotalPart(invoice: Invoice): string {
    if invoice.Total() == 0.0 then "0" else invoice.totalText
  }

  /** Equal amounts that print differently give different keys: the key compares texts, not values. */
  lemma FingerprintComparesTexts(text: Text, invoice: Invoice, reprinted: string)
    requires invoice.Total() != 0.0
    ensures Fingerprint(text, invoice.(totalText := reprinted)) == Fingerprint(text, invoice)
       <==> reprinted == invoice.totalText
  {
    var prefix := VendorPart(text, invoice) + "|" + NumberPart(text, invoice) + "|";
    assert (prefix + reprinted)[|prefix|..] == reprinted;
    assert (prefix + invoice.totalText)[|prefix|..] == invoice.totalText;
  }

  /** When invoices share a key, whoever their vendors are: the bar that separates the parts is not escaped, so a bar in
      a vendor's name or a number lets the key be cut elsewhere. Without one, equal keys are equal parts. */
  lemma KeysShared(text: Text, a: Invoice, b: Invoice)
    ensures var v, w := VendorPart(text, a), VendorPart(text, b);
            var m, n := NumberPart(text, a), NumberPart(text, b);
            var s, t := TotalPart(a), TotalPart(b);
            && (Fingerprint(text, a) == Fingerprint(text, b) <==> SameJoin(v, m + "|" + s, w, n + "|" + t, '|'))
            && (m + "|" + s == n + "|" + t <==> SameJoin(m, s, n, t, '|'))
            && ('|' !in v && '|' !in w && '|' !in m && '|' !in n ==>
                  (Fingerprint(text, a) == Fingerprint(text, b) <==> v == w && m == n && s == t))
  {
    var v, w := VendorPart(text, a), VendorPart(text, b);
    var m, n := NumberPart(text, a), NumberPart(text, b);
    var s, t := TotalPart(a), TotalPart(b);
    assert Fingerprint(text, a) == v + ['|'] + (m + ['|'] + s);
    assert Fingerprint(text, b) == w + ['|'] + (n + ['|'] + t);
    JoinExact(v, m + ['|'] + s, w, n + ['|'] + t, '|');
    JoinExact(m, s, n, t, '|');
  }

  /** The amount as the key prints it: a total that is missing or nothing prints as a nought. */
  function PrintedTotal(invoice: Invoice): string {
    if invoice.totalAmount.None? || invoice.totalAmount.value == 0.0 then "0" else invoice.totalText
  }

  /** Where no bar is printed two invoices share a key exactly when vendor, number and printed total agree, the first
      two stripped and in lower case. */
  lemma SameKeyExactly(text: Text, a: Invoice, b: Invoice)
    requires '|' !in text.stripLower(OrElse(a.vendorName, "")) && '|' !in text.stripLower(OrElse(b.vendorName, ""))
    requires '|' !in text.stripLower(OrElse(a.invoiceNumber, ""))
    requires '|' !in text.stripLower(OrElse(b.invoiceNumber, ""))
    ensures Fingerprint(text, a) == Fingerprint(text, b) <==>
            && text.stripLower(OrElse(a.vendorName, "")) == text.stripLower(OrElse(b.vendorName, ""))
            && text.stripLower(OrElse(a.invoiceNumber, "")) == text.stripLower(OrElse(b.invoiceNumber, ""))
            && PrintedTotal(a) == PrintedTotal(b)
  {
    KeysShared(text, a, b);
  }

  /** Nothing else counts: invoices that agree in vendor, number and total share a key whatever else they print, the
      order number, the currency, the subtotal, the tax, the lines and the date included. */
  lemma OnlyThreeFieldsCount(text: Text, a: Invoice, b: Invoice)
    requires a.vendorName == b.vendorName && a.invoiceNumber == b.invoiceNumber
    requires a.totalAmount == b.totalAmount && a.totalText == b.totalText
    ensures Fingerprint(text, a) == Fingerprint(text, b)
  {
  }

  function UpdateRun(t: Tables, run: RunId, status: RunStatus, straightThrough: Option<bool>): Tables {
    if run !in t.runs then t
    else
      var row := t.runs[run].(status := status);
      t.(runs := t.runs[run := if straightThrough.Some? then row.(straightThrough := straightThrough.value) else row])
  }

  /** A status write changes the row of an existing run and nothing else; the flag only when it is given. */
  lemma UpdateRunExactly(t: Tables, run: RunId, status: RunStatus, straightThrough: Option<bool>, other: RunId)
    ensures var after := UpdateRun(t, run, status, straightThrough);
            && after.runs.Keys == t.runs.Keys && after == t.(runs := after.runs)
            && (other in t.runs && other != run ==> after.runs[other] == t.runs[other])
            && (run in t.runs ==>
                  && after.runs[run].status == status && after.runs[run].kind == t.runs[run].kind
                  && after.runs[run].straightThrough == match straightThrough case Some(flag) => flag
                                                        case None => t.runs[run].straightThrough)
  {
  }

  /** Closing a case changes its status where it stands. */
  function ResolveCase(cases: seq<CaseRow>, i: nat, status: CaseStatus): seq<CaseRow> {
    if i < |cases| then cases[i := cases[i].(status := status)] else cases
  }

  lemma ResolveExactly(cases: seq<CaseRow>, i: nat, status: CaseStatus)
    ensures var after := ResolveCase(cases, i, status);
            && |after| == |cases|
            && (forall j :: 0 <= j < |cases| && j != i ==> after[j] == cases[j])
            && (i < |cases| ==> after[i].status == status && after[i].run == cases[i].run)
  {
  }

  function FindDuplicate(invoices: seq<InvoiceRow>, fingerprint: string, exclude: RunId): Option<nat> {
    FirstIndex(invoices, (row: InvoiceRow) => row.fingerprint == fingerprint && row.run != exclude)
  }

  /** The oldest row of another run under the key, if there is one. */
  lemma DuplicateExactly(invoices: seq<InvoiceRow>, fingerprint: string, exclude: RunId, k: nat)
    ensures var found := FindDuplicate(invoices, fingerprint, exclude);
            && (found == Some(k) <==>
                  && k < |invoices| && invoices[k].fingerprint == fingerprint && invoices[k].run != exclude
                  && forall j :: 0 <= j < k ==> invoices[j].fingerprint != fingerprint || invoices[j].run == exclude)
            && (found.None? <==>
                  forall j :: 0 <= j < |invoices| ==>
                    invoices[j].fingerprint != fingerprint || invoices[j].run == exclude)
  {
    var found := FindDuplicate(invoices, fingerprint, exclude);
    if found.Some? && k < |invoices| && invoices[k].fingerprint == fingerprint && invoices[k].run != exclude {
      if k < found.value {
        assert false;
      }
    }
  }

  predicate HasJournal(journals: seq<JournalRow>, run: RunId) {
    exists row :: row in journals && row.run == run
  }

  // Audit

  /** Largest sequence stored for a run, 0 when there is none. */
  function MaxSequence(audit: seq<AuditRow>, run: RunId): int {
    if audit == [] then 0
    else
      var last, before := audit[|audit| - 1], MaxSequence(audit[..|audit| - 1], run);
      if last.run == run && last.sequence > before then last.sequence else before
  }

  /** The largest sequence of the run's rows, and none below nought. */
  lemma {:induction false} MaxSequenceExactly(audit: seq<AuditRow>, run: RunId)
    ensures var max := MaxSequence(audit, run);
            && (forall row :: row in audit && row.run == run ==> row.sequence <= max)
            && max >= 0
            && (max == 0 || exists row :: row in audit && row.run == run && row.sequence == max)
  {
    if audit != [] {
      var n := |audit| - 1;
      MaxSequenceExactly(audit[..n], run);
      assert audit == audit[..n] + [audit[n]];
      assert audit[n] in audit && forall row :: row in audit[..n] ==> row in audit;
    }
  }

  function AppendAudit(t: Tables, run: RunId, action: Action): Tables {
    t.(audit := t.audit + [AuditRow(run, MaxSequence(t.audit, run) + 1, action)])
  }

  /** The rows of one run, in the order they were stored. */
  function Trail(audit: seq<AuditRow>, run: RunId): seq<AuditRow> {
    if audit == [] then []
    else
      var init, last := Trail(audit[..|audit| - 1], run), audit[|audit| - 1];
      if last.run == run then init + [last] else init
  }

  predicate Numbered(trail: seq<AuditRow>) {
    forall k :: 0 <= k < |trail| ==> trail[k].sequence == k + 1
  }

  lemma TrailAppend(audit: seq<AuditRow>, row: AuditRow, run: RunId)
    ensures Trail(audit + [row], run) == if row.run == run then Trail(audit, run) + [row] else Trail(audit, run)
  {
    assert (audit + [row])[..|audit|] == audit;
  }

  lemma {:induction false} MaxOfNumbered(audit: seq<AuditRow>, run: RunId)
    requires Numbered(Trail(audit, run))
    ensures MaxSequence(audit, run) == |Trail(audit, run)|
  {
    if audit != [] {
      var init, last := audit[..|audit| - 1], audit[|audit| - 1];
      var trail := Trail(init, run);
      assert forall k :: 0 <= k < |trail| ==> trail[k] == Trail(audit, run)[k];
      MaxOfNumbered(init, run);
      assert last.run == run ==> Trail(audit, run)[|trail|] == last;
    }
  }

  /** Serial appends number a run's rows 1, 2, 3 and leave other runs alone. */
  lemma AppendNumbers(t: Tables, run: RunId, action: Action, other: RunId)
    requires Numbered(Trail(t.audit, run))
    ensures var after := AppendAudit(t, run, action);
            && Numbered(Trail(after.audit, run))
            && Trail(after.audit, run) == Trail(t.audit, run) + [AuditRow(run, |Trail(t.audit, run)| + 1, action)]
            && (other != run ==> Trail(after.audit, other) == Trail(t.audit, other))
  {
    MaxOfNumbered(t.audit, run);
    var row := AuditRow(run, MaxSequence(t.audit, run) + 1, action);
    TrailAppend(t.audit, row, run);
    TrailAppend(t.audit, row, other);
  }

  function InsertBySequence(row: AuditRow, rows: seq<AuditRow>): seq<AuditRow> {
    if rows == [] || row.sequence <= rows[0].sequence then [row] + rows
    else [rows[0]] + InsertBySequence(row, rows[1..])
  }

  function SortBySequence(rows: seq<AuditRow>): seq<AuditRow> {
    if rows == [] then [] else InsertBySequence(rows[0], SortBySequence(rows[1..]))
  }

  function Slice<T>(xs: seq<T>, offset: nat, limit: nat): seq<T> {
    if offset >= |xs| then [] else if offset + limit >= |xs| then xs[offset..] else xs[offset..offset + limit]
  }

  /** The kind of an event, which is all the table stores of it in its action column. */
  predicate SameAction(a: Action, b: Action) {
    a == b || (a.HumanDecision? && b.HumanDecision?) || (a.JournalPosted? && b.JournalPosted?)
  }

  predicate Wanted(row: AuditRow, run: Option<RunId>, action: Option<Action>) {
    (run.Some? ==> row.run == run.value) && (action.Some? ==> SameAction(row.action, action.value))
  }

  /** The rows that pass both filters, in the order they were stored. */
  function Select(audit: seq<AuditRow>, run: Option<RunId>, action: Option<Action>): seq<AuditRow> {
    if audit == [] then []
    else
      var init, last := Select(audit[..|audit| - 1], run, action), audit[|audit| - 1];
      if Wanted(last, run, action) then init + [last] else init
  }

  function NewestFirst(rows: seq<AuditRow>): seq<AuditRow> {
    if rows == [] then [] else NewestFirst(rows[1..]) + [rows[0]]
  }

  /** One page of the events stored at or after a position: of one run by sequence, of all runs newest first. */
  function ListAudit(
    audit: seq<AuditRow>, run: Option<RunId>, action: Option<Action>, since: nat, limit: nat,
    offset: nat): seq<AuditRow>
  {
    var rows := Select(if since <= |audit| then audit[since..] else [], run, action);
    Slice(if run.Some? then SortBySequence(rows) else NewestFirst(rows), offset, limit)
  }

  lemma {:induction false} SelectExact(audit: seq<AuditRow>, run: Option<RunId>, action: Option<Action>, row: AuditRow)
    ensures row in Select(audit, run, action) <==> row in audit && Wanted(row, run, action)
  {
    if audit != [] {
      var init := audit[..|audit| - 1];
      SelectExact(init, run, action, row);
      assert audit == init + [audit[|audit| - 1]];
    }
  }

  /** A row of the run and of the kind of event asked for, where one is. */
  predicate PassesFilters(row: AuditRow, run: Option<RunId>, action: Option<Action>) {
    && (run.None? || row.run == run.value)
    && (action.None? || row.action == action.value || (row.action.HumanDecision? && action.value.HumanDecision?)
        || (row.action.JournalPosted? && action.value.JournalPosted?))
  }

  lemma SelectStep(rows: seq<AuditRow>, row: AuditRow, run: Option<RunId>, action: Option<Action>)
    ensures Select([], run, action) == []
    ensures Select(rows + [row], run, action)
         == Select(rows, run, action) + if PassesFilters(row, run, action) then [row] else []
  {
    assert (rows + [row])[..|rows|] == rows;
  }

  /** The selection reads the table in its order, row by row. */
  lemma {:induction false} SelectInOrder(
    row: AuditRow, xs: seq<AuditRow>, ys: seq<AuditRow>, run: Option<RunId>, action: Option<Action>)
    ensures Select([], run, action) == []
    ensures Select([row], run, action) == if PassesFilters(row, run, action) then [row] else []
    ensures Select(xs + ys, run, action) == Select(xs, run, action) + Select(ys, run, action)
  {
    hide Select, PassesFilters;
    SelectStep([], row, run, action);
    assert [] + [row] == [row];
    if ys == [] {
      assert xs + ys == xs;
    } else {
      var n := |ys| - 1;
      assert xs + ys == xs + ys[..n] + [ys[n]] && ys == ys[..n] + [ys[n]];
      SelectInOrder(row, xs, ys[..n], run, action);
      SelectStep(xs + ys[..n], ys[n], run, action);
      SelectStep(ys[..n], ys[n], run, action);
    }
  }

  predicate Ascending(rows: seq<AuditRow>) {
    forall i, j :: 0 <= i < j < |rows| ==> rows[i].sequence <= rows[j].sequence
  }

  lemma {:induction false} InsertedRows(row: AuditRow, rows: seq<AuditRow>)
    ensures multiset(InsertBySequence(row, rows)) == multiset(rows) + multiset{row}
    ensures forall r :: r in InsertBySequence(row, rows) ==> r == row || r in rows
  {
    if rows == [] || row.sequence <= rows[0].sequence {
    } else {
      InsertedRows(row, rows[1..]);
      assert rows == [rows[0]] + rows[1..];
    }
  }

  lemma NoneAscending()
    ensures Ascending([])
  {
  }

  lemma Prepended(row: AuditRow, rows: seq<AuditRow>)
    requires Ascending(rows) && forall r :: r in rows ==> row.sequence <= r.sequence
    ensures Ascending([row] + rows)
  {
  }

  lemma {:induction false} InsertedInOrder(row: AuditRow, rows: seq<AuditRow>)
    requires Ascending(rows)
    ensures Ascending(InsertBySequence(row, rows))
  {
    if rows == [] || row.sequence <= rows[0].sequence {
      Prepended(row, rows);
    } else {
      InsertedInOrder(row, rows[1..]);
      InsertedRows(row, rows[1..]);
      Prepended(rows[0], InsertBySequence(row, rows[1..]));
    }
  }

  /** The rows themselves, by ascending sequence. */
  lemma {:induction false} SortsBySequence(rows: seq<AuditRow>)
    ensures var r := SortBySequence(rows);
            multiset(r) == multiset(rows) && Ascending(r)
  {
    hide InsertBySequence, Ascending;
    if rows == [] {
      assert Ascending([]) by { NoneAscending(); }
    } else {
      SortsBySequence(rows[1..]);
      InsertedRows(rows[0], SortBySequence(rows[1..]));
      InsertedInOrder(rows[0], SortBySequence(rows[1..]));
      assert rows == [rows[0]] + rows[1..];
    }
  }

  /** The last row first. */
  lemma {:induction false} NewestFirstExactly(rows: seq<AuditRow>)
    ensures |NewestFirst(rows)| == |rows|
    ensures forall k :: 0 <= k < |rows| ==> NewestFirst(rows)[k] == rows[|rows| - 1 - k]
  {
    if rows != [] {
      NewestFirstExactly(rows[1..]);
    }
  }

  /** A page holds what follows the rows skipped, up to its limit. */
  lemma PageExactly(
    audit: seq<AuditRow>, run: Option<RunId>, action: Option<Action>, since: nat, limit: nat, offset: nat)
    ensures var recent := if since <= |audit| then audit[since..] else [];
            var found := Select(recent, run, action);
            var page := ListAudit(audit, run, action, since, limit, offset);
            var rows := if run.Some? then SortBySequence(found) else NewestFirst(found);
            && |rows| == |found| && |page| <= limit
            && |page| == (if offset >= |found| then 0 else if |found| - offset < limit then |found| - offset else limit)
            && forall k :: 0 <= k < |page| ==> page[k] == rows[offset + k]
  {
    var found := Select(if since <= |audit| then audit[since..] else [], run, action);
    NewestFirstExactly(found);
    SortsBySequence(found);
    assert |multiset(SortBySequence(found))| == |multiset(found)|;
  }

  lemma {:induction false} SelectTrail(audit: seq<AuditRow>, run: RunId)
    ensures Select(audit, Some(run), None) == Trail(audit, run)
  {
    if audit != [] {
      SelectTrail(audit[..|audit| - 1], run);
    }
  }

  /** A run's events read page by page, unfiltered. */
  function Pages(audit: seq<AuditRow>, run: RunId, limit: nat, count: nat): seq<AuditRow> {
    if count == 0 then []
    else Pages(audit, run, limit, count - 1) + ListAudit(audit, Some(run), None, 0, limit, (count - 1) * limit)
  }

  lemma {:induction false} SortedStays(rows: seq<AuditRow>, from: int)
    requires forall k :: 0 <= k < |rows| ==> rows[k].sequence == from + k
    ensures SortBySequence(rows) == rows
  {
    if rows != [] {
      SortedStays(rows[1..], from + 1);
    }
  }

  lemma NumberedSorts(rows: seq<AuditRow>)
    requires Numbered(rows)
    ensures SortBySequence(rows) == rows
  {
    SortedStays(rows, 1);
  }

  lemma EmptySlice<T>(xs: seq<T>)
    ensures Slice(xs, 0, 0) == []
  {
  }

  lemma SliceJoin<T>(xs: seq<T>, offset: nat, limit: nat)
    ensures Slice(xs, 0, offset) + Slice(xs, offset, limit) == Slice(xs, 0, offset + limit)
  {
  }

  lemma {:induction false} PagesArePrefix(audit: seq<AuditRow>, run: RunId, limit: nat, count: nat)
    requires Numbered(Trail(audit, run))
    ensures Pages(audit, run, limit, count) == Slice(Trail(audit, run), 0, count * limit)
  {
    hide Slice, Numbered, SortBySequence;
    var trail := Trail(audit, run);
    if count == 0 {
      EmptySlice(trail);
    } else {
      PagesArePrefix(audit, run, limit, count - 1);
      NumberedSorts(trail);
      SelectTrail(audit, run);
      assert audit[0..] == audit;
      var offset := (count - 1) * limit;
      assert count * limit == offset + limit;
      SliceJoin(trail, offset, limit);
    }
  }

  /** Enough pages of a quiescent run, put end to end, are its trail: nothing skipped, nothing repeated. */
  lemma PagesReproduceTrail(audit: seq<AuditRow>, run: RunId, limit: nat, count: nat)
    requires Numbered(Trail(audit, run))
    requires count * limit >= |Trail(audit, run)|
    ensures Pages(audit, run, limit, count) == Trail(audit, run)
  {
    PagesArePrefix(audit, run, limit, count);
  }

  // Statistics

  datatype Stats = Stats(totalRuns: nat, completed: nat, straightThrough: nat, exceptions: nat)

  function CompletedRuns(runs: map<RunId, RunRow>): set<RunId> {
    set r | r in runs && runs[r].status == Completed
  }

  function StraightThroughRuns(runs: map<RunId, RunRow>): set<RunId> {
    set r | r in runs && runs[r].straightThrough
  }

  function StatsOf(t: Tables): Stats {
    Stats(|t.runs|, |CompletedRuns(t.runs)|, |StraightThroughRuns(t.runs)|, |t.cases|)
  }

  /** The four counts: all runs, those that completed, those that carry the flag, and all cases ever filed. */
  lemma StatsExactly(t: Tables)
    ensures var s := StatsOf(t);
            && s.totalRuns == |t.runs.Keys|
            && s.completed == |set run | run in t.runs && t.runs[run].status.Completed?|
            && s.straightThrough == |set run | run in t.runs && t.runs[run].straightThrough|
            && s.exceptions == |t.cases|
  {
    assert CompletedRuns(t.runs) == set run | run in t.runs && t.runs[run].status.Completed?;
    assert StraightThroughRuns(t.runs) == set run | run in t.runs && t.runs[run].straightThrough;
    assert |t.runs.Keys| == |t.runs|;
  }

  lemma SubsetSize<T>(a: set<T>, b: set<T>)
    requires a <= b
    ensures |a| <= |b|
  {
    assert b == a + (b - a);
  }

  /** When only completed runs carry the flag, the rates are fractions of one another. */
  lemma StatsOrdered(t: Tables)
    requires forall r :: r in t.runs && t.runs[r].straightThrough ==> t.runs[r].status == Completed
    ensures var s := StatsOf(t);
            s.straightThrough <= s.completed <= s.totalRuns
  {
    SubsetSize(StraightThroughRuns(t.runs), CompletedRuns(t.runs));
    SubsetSize(CompletedRuns(t.runs), t.runs.Keys);
    assert |t.runs.Keys| == |t.runs|;
  }

  // The repository, in place

  class WorkflowRepository {
    var runs: map<RunId, RunRow>
    var invoices: seq<InvoiceRow>
    var matches: seq<MatchRow>
    var cases: seq<CaseRow>
    var journals: seq<JournalRow>
    var remittances: seq<RemittanceRow>
    var audit: seq<AuditRow>

    function Model(): Tables
      reads this
    {
      Tables(runs, invoices, matches, cases, journals, remittances, audit)
    }

    constructor ()
      ensures Model() == NO_ROWS
    {
      runs, invoices, matches, cases, journals, remittances, audit := map[], [], [], [], [], [], [];
    }

    method UpdateRunRow(run: RunId, status: RunStatus, straightThrough: Option<bool>)
      modifies this`runs
      ensures Model() == UpdateRun(old(Model()), run, status, straightThrough)
    {
      if run in runs {
        var row := runs[run].(status := status);
        if straightThrough.Some? {
          row := row.(straightThrough := straightThrough.value);
        }
        runs := runs[run := row];
      }
    }

    method SaveInvoice(row: InvoiceRow)
      modifies this`invoices
      ensures invoices == old(invoices) + [row]
    {
      invoices := invoices + [row];
    }

    method SaveMatch(row: MatchRow)
      modifies this`matches
      ensures matches == old(matches) + [row]
    {
      matches := matches + [row];
    }

    method SaveException(row: CaseRow)
      modifies this`cases
      ensures cases == old(cases) + [row]
    {
      cases := cases + [row];
    }

    method ResolveException(i: nat, status: CaseStatus)
      modifies this`cases
      ensures cases == ResolveCase(old(cases), i, status)
    {
      if i < |cases| {
        cases := cases[i := cases[i].(status := status)];
      }
    }

    method SaveRemittance(row: RemittanceRow)
      modifies this`remittances
      ensures remittances == old(remittances) + [row]
    {
      remittances := remittances + [row];
    }

    method CreateRun(run: RunId, kind: Kind)
      modifies this`runs
      ensures runs == old(runs)[run := RunRow(kind, Received, false)]
    {
      runs := runs[run := RunRow(kind, Received, false)];
    }

    method FindDuplicateRow(fingerprint: string, exclude: RunId) returns (found: Option<nat>)
      ensures found == FindDuplicate(invoices, fingerprint, exclude)
      ensures found.None? <==> forall row :: row in invoices && row.fingerprint == fingerprint ==> row.run == exclude
    {
      found := None;
      for k := 0 to |invoices|
        invariant found.None?
        invariant forall j :: 0 <= j < k ==> !(invoices[j].fingerprint == fingerprint && invoices[j].run != exclude)
      {
        if invoices[k].fingerprint == fingerprint && invoices[k].run != exclude {
          found := Some(k);
          assert invoices[k] in invoices;
          return;
        }
      }
    }

    /** Refused by the unique constraint when the run already has a journal. */
    method SaveJournal(row: JournalRow) returns (saved: bool)
      modifies this`journals
      ensures saved <==> !HasJournal(old(journals), row.run)
      ensures saved <==> forall j :: j in old(journals) ==> j.run != row.run
      ensures journals == if saved then old(journals) + [row] else old(journals)
    {
      var taken := FirstIndex(journals, (j: JournalRow) => j.run == row.run);
      assert taken.Some? ==> journals[taken.value] in journals;
      saved := taken.None?;
      if saved {
        journals := journals + [row];
      }
    }

    method JournalExists(run: RunId) returns (taken: bool)
      ensures taken <==> HasJournal(journals, run)
      ensures taken <==> exists row :: row in journals && row.run == run
    {
      var found := FirstIndex(journals, (j: JournalRow) => j.run == run);
      assert found.Some? ==> journals[found.value] in journals;
      taken := found.Some?;
    }

    method AppendAuditRow(run: RunId, action: Action)
      modifies this`audit
      ensures Model() == AppendAudit(old(Model()), run, action)
    {
      var max := 0;
      for k := 0 to |audit|
        invariant max == MaxSequence(audit[..k], run)
      {
        assert audit[..k + 1][..k] == audit[..k];
        if audit[k].run == run && audit[k].sequence > max {
          max := audit[k].sequence;
        }
      }
      assert audit[..|audit|] == audit;
      audit := audit + [AuditRow(run, max + 1, action)];
    }

    method ListAuditRows(run: Option<RunId>, action: Option<Action>, since: nat, limit: nat, offset: nat)
      returns (rows: seq<AuditRow>)
      ensures rows == ListAudit(audit, run, action, since, limit, offset)
    {
      rows := [];
      var recent := if since <= |audit| then audit[since..] else [];
      for k := 0 to |recent|
        invariant rows == Select(recent[..k], run, action)
      {
        assert recent[..k + 1][..k] == recent[..k];
        if Wanted(recent[k], run, action) {
          rows := rows + [recent[k]];
        }
      }
      assert recent[..|recent|] == recent;
      rows := Slice(if run.Some? then SortBySequence(rows) else NewestFirst(rows), offset, limit);
    }

    method StraightThroughStats() returns (stats: Stats)
      ensures stats == StatsOf(Model())
    {
      stats := Stats(|runs|, |CompletedRuns(runs)|, |StraightThroughRuns(runs)|, |cases|);
    }
  }
}
