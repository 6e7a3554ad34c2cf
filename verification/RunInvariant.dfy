/** What holds of one run at every point of every execution, stated on its view alone. */
module RunInvariant {
  import opened Prelude
  import opened Schemas
  import opened Journal
  import opened MockErp
  import opened Client
  import opened Decide
  import opened Repository
  import opened Workflow
  import opened Views

  function StageOf(node: Node): nat {
    match node
    case ParseNode => 0
    case ExtractNode => 1
    case PersistNode => 2
    case DuplicateNode => 3
    case VendorNode => 4
    case FetchPoNode => 5
    case MatchingNode => 6
    case RaiseNode => 7
    case _ => 8
  }

  /** How far along the graph a run is. */
  function Stage(pc: Pc): nat {
    if NodeOf(pc).None? then 9 else StageOf(NodeOf(pc).value)
  }

  predicate Terminal(status: RunStatus) {
    status == Completed || status == Rejected || status == Failed
  }

  /** The report a run carries exists and stops it, or exists and lets it through. */
  predicate Stopped(ch: Channel) {
    ch.report.Some? && !ch.report.value.IsPostable()
  }

  predicate Cleared(ch: Channel) {
    ch.report.Some? && ch.report.value.IsPostable()
  }

  /** What brings a run to posting: a clean report and nobody asked, or a stopped one that a human let through. */
  predicate MayPost(ch: Channel) {
    if ch.decision.None? then Cleared(ch) else ch.decision == Some(true) && Stopped(ch)
  }

  ghost predicate Flow(env: Env, v: View) {
    var ch, n, node := v.process.ch, Stage(v.process.pc), NodeOf(v.process.pc);
    && (n <= 1 ==> ch == EMPTY)
    && (2 <= n <= 3 ==> ch.invoice.Some? && ch == EMPTY.(invoice := ch.invoice))
    && (4 <= n <= 7 || node == Some(PostNode) ==> ch.invoice.Some?)
    && (n <= 5 || n == 7 || node == Some(PostNode) ==> !ch.error)
    && (n <= 6 ==> ch.report.None?)
    && (n <= 7 ==> ch.decision.None?)
    && (ch.caseId <==> ch.decision.Some?)
    && (ch.report.Some? ==> ch.invoice.Some? && ch.report.value == ReportOf(env, ch))
    && (node == Some(RaiseNode) ==> Stopped(ch))
    && (node == Some(PostNode) ==> MayPost(ch))
    && (node == Some(RejectedNode) ==> Stopped(ch) && ch.decision == Some(false))
    && v.process.completed <= n
  }

  ghost predicate Keyed(env: Env, v: View) {
    var ch, n := v.process.ch, Stage(v.process.pc);
    && (forall key :: key in v.keys ==> n >= 2 && ch.invoice.Some? && key == Fingerprint(env.text, ch.invoice.value))
    && (n >= 3 && ch.invoice.Some? ==> Fingerprint(env.text, ch.invoice.value) in v.keys)
    && (v.process.cleared ==> n >= 4 && ch.invoice.Some?)
    && (n >= 4 && ch.invoice.Some? ==> (v.process.cleared <==> ch.duplicateOf.None?))
  }

  ghost predicate Reported(env: Env, v: View) {
    var ch, n := v.process.ch, Stage(v.process.pc);
    && (forall m :: m in v.reports ==> n >= 6 && ch.invoice.Some? && m == ReportOf(env, ch))
    && (ch.report.Some? ==> ch.report.value in v.reports)
  }

  ghost predicate Fits(env: Env, run: RunId, ch: Channel, d: Document) {
    && ch.invoice.Some?
    && var entry := RunEntry(env, ch, run);
       entry.IsBalanced() && Books(d, entry)
  }

  predicate Mirrors(row: JournalRow, d: Document) {
    row.documentNumber == d.number && row.reference == d.reference && row.total == d.total
  }

  ghost predicate Backed(env: Env, run: RunId, v: View) {
    var ch, pc := v.process.ch, v.process.pc;
    && (forall d :: d in v.documents ==> Stage(pc) >= 8 && MayPost(ch) && Fits(env, run, ch, d))
    && (pc.Sending? ==>
          && ch.invoice.Some? && pc.entry == RunEntry(env, ch, run)
          && pc.entry.IsBalanced() && pc.attempt < MAX_ATTEMPTS)
    && (pc.Sent? && pc.posting.Booked? ==> pc.posting.document in v.documents)
    && (forall j :: j in v.journals && j.posted ==> exists d :: d in v.documents && Mirrors(j, d))
  }

  ghost predicate Rowed(v: View) {
    var ch, pc, row := v.process.ch, v.process.pc, v.row;
    && row.kind == PayableRun
    && (Terminal(row.status) ==> pc.Ended? || pc.Crashed?)
    && (row.status == Completed ==>
          && MayPost(ch)
          && row.straightThrough == ch.decision.None?
          && (pc == Ended || pc == Crashed(PostNode))
          && exists j :: j in v.journals && j.posted)
    && (row.straightThrough ==> row.status == Completed)
  }

  predicate AskedHuman(a: Action) {
    a.ExceptionRaised? || a.HumanDecision?
  }

  function Actions(trail: seq<AuditRow>): (r: seq<Action>)
    ensures |r| == |trail|
  {
    seq(|trail|, k requires 0 <= k < |trail| => trail[k].action)
  }

  /** Every posting that was not straight through comes after an approval. */
  predicate ApprovedBefore(emitted: seq<Action>) {
    forall k :: 0 <= k < |emitted| && emitted[k] == JournalPosted(false) ==> HumanDecision(true) in emitted[..k]
  }

  ghost predicate Audited(v: View) {
    var ch, emitted := v.process.ch, v.process.emitted;
    && Numbered(v.trail)
    && Subsequence(Actions(v.trail), emitted)
    && ((exists a :: a in emitted && AskedHuman(a)) ==> Stopped(ch))
    && (ch.decision == Some(true) ==> HumanDecision(true) in emitted)
    && ApprovedBefore(emitted)
    && (JournalPosted(true) in emitted ==> Cleared(ch))
    && (v.row.status == Completed ==> JournalPosted(v.row.straightThrough) in emitted)
  }

  ghost predicate RunInv(env: Env, run: RunId, v: View) {
    Flow(env, v) && Keyed(env, v) && Reported(env, v) && Backed(env, run, v) && Rowed(v) && Audited(v)
  }

  // Audit

  lemma LogNumbered(trail: seq<AuditRow>, emitted: seq<Action>, row: AuditRow, lands: bool)
    requires Numbered(trail) && Subsequence(Actions(trail), emitted)
    requires row.sequence == |trail| + 1
    ensures Numbered(if lands then trail + [row] else trail)
    ensures Subsequence(Actions(if lands then trail + [row] else trail), emitted + [row.action])
  {
    hide Subsequence;
    SubsequenceGrows(Actions(trail), emitted, row.action, lands);
    assert Actions(trail + [row]) == Actions(trail) + [row.action];
  }

  /** The first event of any run, stored or lost. */
  lemma FirstNumbered(run: RunId, lands: bool)
    ensures var trail := if lands then [AuditRow(run, 1, EmailReceived)] else [];
            Numbered(trail) && Subsequence(Actions(trail), [EmailReceived])
  {
    hide Subsequence;
    var row := AuditRow(run, 1, EmailReceived);
    NothingYetTaken<Action>([]);
    assert Actions([]) == [] && [] + [row] == [row] && [] + [EmailReceived] == [EmailReceived];
    LogNumbered([], [], row, lands);
  }

  lemma LogOther(emitted: seq<Action>, action: Action)
    requires ApprovedBefore(emitted)
    requires action == JournalPosted(false) ==> HumanDecision(true) in emitted
    ensures ApprovedBefore(emitted + [action])
  {
    var more := emitted + [action];
    assert forall k :: 0 <= k <= |emitted| ==> more[..k] == emitted[..k];
    assert emitted[..|emitted|] == emitted;
  }

  // What a node does before it returns

  lemma LogInv(env: Env, run: RunId, v: View, action: Action, lands: bool)
    requires RunInv(env, run, v)
    requires AskedHuman(action) ==> Stopped(v.process.ch)
    requires action == JournalPosted(false) ==> HumanDecision(true) in v.process.emitted
    requires action == JournalPosted(true) ==> Cleared(v.process.ch)
    ensures RunInv(env, run, Logged(v, run, action, lands))
  {
    hide Subsequence, Numbered, ApprovedBefore, ReportOf, RunEntry, Fits, Fingerprint;
    LogNumbered(v.trail, v.process.emitted, AuditRow(run, |v.trail| + 1, action), lands);
    LogOther(v.process.emitted, action);
  }

  lemma StatusInv(env: Env, run: RunId, v: View, status: RunStatus, lands: bool)
    requires RunInv(env, run, v) && !Terminal(status) && !Terminal(v.row.status)
    ensures RunInv(env, run, Statused(v, status, None, lands)) && !Terminal(Statused(v, status, None, lands).row.status)
  {
    hide Subsequence, Numbered, ApprovedBefore, ReportOf, RunEntry, Fits, Fingerprint;
  }

  lemma JournalInv(env: Env, run: RunId, v: View, row: JournalRow)
    requires RunInv(env, run, v)
    requires row.posted ==> exists d :: d in v.documents && Mirrors(row, d)
    ensures RunInv(env, run, v.(journals := v.journals + {row}))
  {
    hide Subsequence, Numbered, ApprovedBefore, ReportOf, RunEntry, Fits, Fingerprint;
  }

  /** Neither the flag on the row nor the straight-through posting among the events has changed. */
  predicate SameTold(v: View, after: View) {
    && after.row.straightThrough == v.row.straightThrough
    && (JournalPosted(true) in after.process.emitted <==> JournalPosted(true) in v.process.emitted)
  }

  // One lemma a step

  lemma StartAudited(v: View, run: RunId, lands: bool)
    requires v.process.emitted == [EmailReceived] && v.process.ch == EMPTY && v.row.status == Received
    requires v.trail == if lands then [AuditRow(run, 1, EmailReceived)] else []
    ensures Audited(v)
  {
    hide Subsequence, Numbered;
    FirstNumbered(run, lands);
  }

  lemma StartInv(env: Env, run: RunId, v: View, lands: bool)
    requires v == View(
               Process(if lands then At(ParseNode) else Ended, EMPTY, false, [EmailReceived], 0),
               RunRow(PayableRun, Received, false),
               {}, {}, {}, if lands then [AuditRow(run, 1, EmailReceived)] else [], {})
    ensures RunInv(env, run, v)
  {
    hide Subsequence, Numbered, ApprovedBefore, ReportOf, RunEntry, Fits, Fingerprint;
    StartAudited(v, run, lands);
  }

  lemma ParseInv(env: Env, run: RunId, v: View, readable: bool, io: Io)
    requires RunInv(env, run, v) && v.process.pc == At(ParseNode)
    ensures RunInv(env, run, Left(
              v, ParseNode, if readable then v.process.ch else v.process.ch.(error := true),
              if readable then At(ExtractNode) else At(FailedNode), io))
  {
    hide Subsequence, Numbered, ApprovedBefore, NodeReport, EntryOf, Fingerprint;
  }

  lemma ExtractInv(env: Env, run: RunId, v: View, found: Option<Invoice>, io: Io)
    requires RunInv(env, run, v) && v.process.pc == At(ExtractNode)
    ensures !v.process.cleared
    ensures RunInv(env, run, Left(
              v, ExtractNode, if found.Some? then v.process.ch.(invoice := found) else v.process.ch.(error := true),
              if found.Some? then At(PersistNode) else At(FailedNode), io))
  {
    hide Subsequence, Numbered, ApprovedBefore, NodeReport, EntryOf, Fingerprint;
  }

  lemma PersistInv(env: Env, run: RunId, v: View, io: Io)
    requires RunInv(env, run, v) && v.process.pc == At(PersistNode)
    ensures v.process.ch.invoice.Some?
    ensures RunInv(env, run, Left(
              v.(keys := v.keys + {Fingerprint(env.text, v.process.ch.invoice.value)}),
              PersistNode, v.process.ch, At(DuplicateNode), io))
  {
    hide Subsequence, Numbered, ApprovedBefore, ReportOf, RunEntry, Fits, Fingerprint;
  }

  lemma DuplicateInv(env: Env, run: RunId, v: View, original: Option<RunId>, io: Io)
    requires RunInv(env, run, v) && v.process.pc == At(DuplicateNode)
    ensures RunInv(env, run, Left(
              v.(process := v.process.(cleared := original.None? && io.survives)),
              DuplicateNode, v.process.ch.(duplicateOf := original), At(VendorNode), io))
  {
    hide Subsequence, Numbered, ApprovedBefore, NodeReport, EntryOf, Fingerprint;
  }

  lemma VendorInv(env: Env, run: RunId, v: View, vendor: Option<string>, io: Io)
    requires RunInv(env, run, v) && v.process.pc == At(VendorNode)
    ensures RunInv(env, run, Left(v, VendorNode, v.process.ch.(vendor := vendor), At(FetchPoNode), io))
  {
    hide Subsequence, Numbered, ApprovedBefore, NodeReport, EntryOf, Fingerprint;
  }

  lemma FetchInv(env: Env, run: RunId, v: View, order: Option<PurchaseOrder>, receipts: seq<GoodsReceipt>, error: bool,
      io: Io)
    requires RunInv(env, run, v) && v.process.pc == At(FetchPoNode)
    ensures RunInv(env, run, Left(
              v, FetchPoNode, v.process.ch.(order := order, receipts := receipts, error := error), At(MatchingNode),
                  io))
  {
    hide Subsequence, Numbered, ApprovedBefore, NodeReport, EntryOf, Fingerprint;
  }

  lemma MatchInv(env: Env, run: RunId, v: View, io: Io)
    requires RunInv(env, run, v) && v.process.pc == At(MatchingNode)
    ensures v.process.ch.invoice.Some?
    ensures var report := ReportOf(env, v.process.ch);
            var ch := v.process.ch.(report := Some(report));
            RunInv(env, run, Left(v.(reports := v.reports + {report}), MatchingNode, ch, At(RouteAfterMatch(ch)), io))
  {
    hide Subsequence, Numbered, ApprovedBefore, NodeReport, EntryOf, Fingerprint;
    var report := ReportOf(env, v.process.ch);
    assert ReportOf(env, v.process.ch.(report := Some(report))) == report;
  }

  lemma RaiseInv(env: Env, run: RunId, v: View, io: Io)
    requires RunInv(env, run, v) && v.process.pc == At(RaiseNode)
    ensures RunInv(env, run, v.(process := v.process.(pc := if io.survives then Parked else Crashed(RaiseNode))))
  {
    hide Subsequence, Numbered, ApprovedBefore, ReportOf, RunEntry, Fits, Fingerprint;
  }

  lemma DecideInv(env: Env, run: RunId, v: View, approve: bool, io: Io)
    requires RunInv(env, run, v) && v.process.pc == Parked
    requires HumanDecision(approve) in v.process.emitted && io.survives
    ensures RunInv(env, run, Left(v, RaiseNode, v.process.ch.(decision := Some(approve), caseId := true),
                                  At(if approve then PostNode else RejectedNode), io))
  {
    hide Subsequence, Numbered, ApprovedBefore, NodeReport, EntryOf, Fingerprint;
  }

  lemma BeginInv(env: Env, run: RunId, v: View, io: Io)
    requires RunInv(env, run, v) && v.process.pc == At(PostNode)
    ensures v.process.ch.invoice.Some?
    ensures var entry := RunEntry(env, v.process.ch, run);
            entry.IsBalanced() ==>
              RunInv(env, run, v.(process := v.process.(pc := if io.survives then Sending(entry, 0)
                                                        else Crashed(PostNode))))
  {
    hide Subsequence, Numbered, ApprovedBefore, ReportOf, RunEntry, Fits, Fingerprint;
  }

  /** The node gives up: the run ends failed. */
  lemma AbandonInv(env: Env, run: RunId, v: View, io: Io)
    requires RunInv(env, run, v) && (v.process.pc == At(PostNode) || v.process.pc.Sent?) && !Terminal(v.row.status)
    ensures RunInv(env, run,
                   Left(Statused(v, Failed, None, io.final), PostNode, v.process.ch.(error := true), Ended, io))
  {
    hide Subsequence, Numbered, ApprovedBefore, NodeReport, EntryOf, Fingerprint;
  }

  lemma SendInv(env: Env, run: RunId, v: View, created: set<Document>, next: Pc)
    requires RunInv(env, run, v) && v.process.pc.Sending?
    requires v.process.ch.invoice.Some?
    requires forall d :: d in created ==> Books(d, v.process.pc.entry)
    requires || (next.Sent? && (next.posting.Booked? ==> next.posting.document in created))
             || next == Crashed(PostNode)
             || (next == Sending(v.process.pc.entry, v.process.pc.attempt + 1)
                 && v.process.pc.attempt + 1 < MAX_ATTEMPTS)
    ensures RunInv(env, run, v.(documents := v.documents + created, process := v.process.(pc := next)))
  {
    hide Subsequence, Numbered, ApprovedBefore, NodeReport, EntryOf, Fingerprint;
  }

  lemma CompleteInv(env: Env, run: RunId, v: View, io: Io)
    requires RunInv(env, run, v) && v.process.pc.Sent? && !Terminal(v.row.status)
    requires exists j :: j in v.journals && j.posted
    requires JournalPosted(!v.process.ch.caseId) in v.process.emitted
    ensures RunInv(env, run, Left(
              Statused(v, Completed, Some(!v.process.ch.caseId), io.final), PostNode, v.process.ch, Ended, io))
  {
    hide Subsequence, Numbered, ApprovedBefore, ReportOf, RunEntry, Fits, Fingerprint;
  }

  lemma ApprovedOrCleared(env: Env, run: RunId, v: View)
    requires RunInv(env, run, v) && v.process.pc.Sent?
    ensures if v.process.ch.caseId then HumanDecision(true) in v.process.emitted else Cleared(v.process.ch)
    ensures v.process.ch.invoice.Some? && !Terminal(v.row.status)
  {
  }

  lemma RejectInv(env: Env, run: RunId, v: View, io: Io)
    requires RunInv(env, run, v) && v.process.pc == At(RejectedNode) && !Terminal(v.row.status)
    ensures var v1 := Statused(v, Rejected, None, io.status);
            RunInv(env, run, Left(Logged(v1, run, HumanDecision(false), io.audit), RejectedNode, v.process.ch, Ended,
                                  io))
  {
    hide Subsequence, Numbered, ApprovedBefore, ReportOf, RunEntry, Fits, Fingerprint;
    LogInv(env, run, v, HumanDecision(false), io.audit);
  }

  lemma FailInv(env: Env, run: RunId, v: View, io: Io)
    requires RunInv(env, run, v) && v.process.pc == At(FailedNode)
    ensures RunInv(env, run,
                   Left(Statused(v, Failed, None, io.status), FailedNode, v.process.ch.(error := true), Ended, io))
  {
    hide Subsequence, Numbered, ApprovedBefore, NodeReport, EntryOf, Fingerprint;
  }

  /** Dying inside a node, or a crashed node starting over, moves nothing but the program counter. */
  lemma MoveInv(env: Env, run: RunId, v: View, next: Pc)
    requires RunInv(env, run, v)
    requires NodeOf(v.process.pc).Some? && NodeOf(next) == NodeOf(v.process.pc) && (next.Crashed? || next.At?)
    requires Terminal(v.row.status) ==> next == v.process.pc
    ensures RunInv(env, run, v.(process := v.process.(pc := next)))
  {
    hide Subsequence, Numbered, ApprovedBefore, ReportOf, RunEntry, Fits, Fingerprint;
  }
}
