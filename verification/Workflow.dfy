/** Any number of payable and receivable runs over shared tables and one ERP, as a state machine over atomic effects.
    A run's own steps are serial; steps of different runs interleave freely. */
module Workflow {
  import opened Prelude
  import opened Schemas
  import opened Journal
  import opened MockErp
  import opened Client
  import opened Matching
  import opened Confidence
  import opened Decide
  import opened Remittances
  import opened Receivable
  import opened Repository

  datatype Env = Env(text: Text, cfg: MatchingConfig, currency: string, seed: Seed)

  datatype Node =
    | ParseNode | ExtractNode | PersistNode | DuplicateNode | VendorNode | FetchPoNode
    | MatchingNode | RaiseNode | PostNode | RejectedNode | FailedNode

  datatype Posting = Booked(document: Document) | Refusal

  /** Where a run stands: about to execute a node, waiting for a decision, between attempts at the ERP,
      with the ERP's answer in hand, past the end of the graph, or dead inside a node. */
  datatype Pc =
    | At(node: Node) | Parked | Sending(entry: JournalEntry, attempt: nat) | Sent(posting: Posting)
    | Ended | Crashed(node: Node)

  /** The checkpointed state. error stands for an error message or a failed status: every node sets both or the
      message. */
  datatype Channel = Channel(
    invoice: Option<Invoice>, duplicateOf: Option<RunId>, vendor: Option<string>, order: Option<PurchaseOrder>,
    receipts: seq<GoodsReceipt>, report: Option<MatchReport>, caseId: bool, decision: Option<bool>, error: bool)

  const EMPTY := Channel(None, None, None, None, [], None, false, None, false)

  /** cleared, emitted and completed are history: the duplicate check found nothing, every audit event the run
      tried to write, and how many nodes it has checkpointed. */
  datatype Process = Process(pc: Pc, ch: Channel, cleared: bool, emitted: seq<Action>, completed: nat)

  // The receivable side

  datatype CashNode = ParseCash | ExtractCash | FetchCash | ApplyingCash | FailedCash

  /** Paying holds what the cash node carries between its calls: the payments left, the attempts at the first of
      them, the applications made and the failures met. */
  datatype CashPc =
    | CashAt(node: CashNode)
    | Paying(left: seq<Payment>, attempt: nat, applied: seq<Application>, failures: seq<Unresolved>)
    | CashEnded | CashCrashed(node: CashNode)

  datatype CashChannel = CashChannel(remittance: Option<Remittance>, items: seq<ArItem>, error: bool)

  const NO_CASH := CashChannel(None, [], false)

  datatype CashProcess = CashProcess(pc: CashPc, ch: CashChannel, emitted: seq<Action>)

  // The whole

  /** owners and payers are history: which run asked for the document at each position of the archive, and for the
      application at each position of the cashbook. */
  datatype World = World(
    tables: Tables, ledger: Ledger, procs: map<RunId, Process>, cash: map<RunId, CashProcess>, owners: map<nat, RunId>,
    payers: map<nat, RunId>)

  /** Which of a node's swallowed writes reach the database, whether its own writes are all made before it dies,
      and whether the process lives to checkpoint. */
  datatype Io = Io(status: bool, audit: bool, final: bool, saved: bool, survives: bool)
  {
    predicate Saves() {
      saved || survives
    }
  }

  datatype PoReply = PoFound(order: PurchaseOrder, receipts: seq<GoodsReceipt>) | PoMissing | PoUnavailable

  datatype Event =
    | Start(run: RunId, lands: bool)
    | DoParse(run: RunId, readable: bool, io: Io)
    | DoExtract(run: RunId, result: Option<Invoice>, io: Io)
    | DoPersist(run: RunId, io: Io)
    | DoDuplicateCheck(run: RunId, io: Io)
    | DoResolveVendor(run: RunId, vendor: Option<string>, io: Io)
    | DoFetchPo(run: RunId, reply: PoReply, io: Io)
    | DoMatch(run: RunId, io: Io)
    | DoRaise(run: RunId, io: Io)
    | Resume(run: RunId, approve: bool, io: Io)
    | BeginPost(run: RunId, io: Io)
    | Send(run: RunId, delivery: Delivery)
    | Record(run: RunId, io: Io)
    | DoReject(run: RunId, io: Io)
    | DoFail(run: RunId, io: Io)
    | Die(run: RunId)
    | Redrive(run: RunId)
    | StartCash(run: RunId, lands: bool)
    | DoParseCash(run: RunId, readable: bool, io: Io)
    | DoExtractCash(run: RunId, found: Option<Remittance>, io: Io)
    | DoFetchCash(run: RunId, named: Option<string>, fails: bool, io: Io)
    | BeginCash(run: RunId, io: Io)
    | Pay(run: RunId, delivery: Delivery)
    | CloseCash(run: RunId, io: Io)
    | DoFailCash(run: RunId, io: Io)
    | DieCash(run: RunId)
    | RedriveCash(run: RunId)
    | External(op: Op)

  /** Neither the ERP nor the posted journals move. */
  predicate PostsNothing(w: World, after: World) {
    && after.ledger == w.ledger && after.tables.journals == w.tables.journals
    && after.owners == w.owners && after.payers == w.payers
  }

  /** One journal row is added, for this run. */
  predicate AddsJournal(w: World, after: World, run: RunId) {
    var n := |w.tables.journals|;
    && |after.tables.journals| == n + 1 && after.tables.journals[..n] == w.tables.journals
    && after.tables.journals[n].run == run
    && after.ledger == w.ledger && after.owners == w.owners && after.payers == w.payers
  }

  // Effects

  function SetStatus(
    w: World, run: RunId, status: RunStatus, straightThrough: Option<bool>, lands: bool): (after: World)
    ensures PostsNothing(w, after)
    ensures after.procs == w.procs
    ensures after.tables.cases == w.tables.cases
  {
    if lands then w.(tables := UpdateRun(w.tables, run, status, straightThrough)) else w
  }

  function Log(w: World, run: RunId, action: Action, lands: bool): (after: World)
    requires run in w.procs
    ensures PostsNothing(w, after)
    ensures run in after.procs
    ensures after.tables.cases == w.tables.cases
  {
    var p := w.procs[run];
    w.(tables := if lands then AppendAudit(w.tables, run, action) else w.tables,
       procs := w.procs[run := p.(emitted := p.emitted + [action])])
  }

  /** The node returns: its updates are checkpointed and the run moves on, unless the process died first. */
  function Leave(w: World, run: RunId, node: Node, ch: Channel, next: Pc, io: Io): (after: World)
    requires run in w.procs
    ensures PostsNothing(w, after)
    ensures run in after.procs && after.procs[run].pc == if io.survives then next else Crashed(node)
    ensures after.tables.cases == w.tables.cases
  {
    var p := w.procs[run];
    w.(procs := w.procs[run :=
         if io.survives then p.(ch := ch, pc := next, completed := p.completed + 1) else p.(pc := Crashed(node))])
  }

  function Clear(w: World, run: RunId, cleared: bool): (after: World)
    requires run in w.procs
    ensures PostsNothing(w, after)
    ensures run in after.procs
    ensures after.tables.cases == w.tables.cases
  {
    w.(procs := w.procs[run := w.procs[run].(cleared := cleared)])
  }

  function Move(w: World, run: RunId, pc: Pc): (after: World)
    requires run in w.procs
    ensures PostsNothing(w, after)
    ensures run in after.procs && after.procs[run].pc == pc
    ensures after.tables.cases == w.tables.cases
  {
    w.(procs := w.procs[run := w.procs[run].(pc := pc)])
  }

  function AddInvoice(w: World, row: InvoiceRow): (after: World)
    ensures PostsNothing(w, after)
    ensures after.procs == w.procs
    ensures after.tables.cases == w.tables.cases
  {
    w.(tables := w.tables.(invoices := w.tables.invoices + [row]))
  }

  function AddMatch(w: World, row: MatchRow): (after: World)
    ensures PostsNothing(w, after)
    ensures after.procs == w.procs
    ensures after.tables.cases == w.tables.cases
  {
    w.(tables := w.tables.(matches := w.tables.matches + [row]))
  }

  function AddCase(w: World, row: CaseRow): (after: World)
    ensures PostsNothing(w, after)
    ensures after.procs == w.procs
    ensures w.tables.cases <= after.tables.cases
  {
    w.(tables := w.tables.(cases := w.tables.cases + [row]))
  }

  function CloseCase(w: World, i: nat, status: CaseStatus): (after: World)
    ensures PostsNothing(w, after)
    ensures after.procs == w.procs
  {
    w.(tables := w.tables.(cases := ResolveCase(w.tables.cases, i, status)))
  }

  function AddRemittance(w: World, row: RemittanceRow): (after: World)
    ensures PostsNothing(w, after)
    ensures after.tables.cases == w.tables.cases
  {
    w.(tables := w.tables.(remittances := w.tables.remittances + [row]))
  }

  function CashLog(w: World, run: RunId, action: Action, lands: bool): (after: World)
    requires run in w.cash
    ensures PostsNothing(w, after)
    ensures after.tables.cases == w.tables.cases
  {
    var p := w.cash[run];
    w.(tables := if lands then AppendAudit(w.tables, run, action) else w.tables,
       cash := w.cash[run := p.(emitted := p.emitted + [action])])
  }

  function CashLeave(w: World, run: RunId, node: CashNode, ch: CashChannel, next: CashPc, io: Io): (after: World)
    requires run in w.cash
    ensures PostsNothing(w, after)
    ensures after.tables.cases == w.tables.cases
  {
    var p := w.cash[run];
    w.(cash := w.cash[run := if io.survives then p.(ch := ch, pc := next) else p.(pc := CashCrashed(node))])
  }

  function CashMove(w: World, run: RunId, pc: CashPc): (after: World)
    requires run in w.cash
    ensures PostsNothing(w, after)
    ensures after.tables.cases == w.tables.cases
  {
    w.(cash := w.cash[run := w.cash[run].(pc := pc)])
  }

  function AddJournal(w: World, row: JournalRow): (after: World)
    ensures AddsJournal(w, after, row.run)
    ensures after.procs == w.procs
    ensures after.tables.cases == w.tables.cases
  {
    w.(tables := w.tables.(journals := w.tables.journals + [row]))
  }

  // Nodes

  function ParseStep(w: World, run: RunId, readable: bool, io: Io): (after: World)
    requires run in w.procs
    ensures PostsNothing(w, after)
    ensures after.tables.cases == w.tables.cases
  {
    var ch := w.procs[run].ch;
    var w1 := SetStatus(w, run, Parsing, None, io.status);
    if readable
    then Leave(Log(w1, run, DocumentParsed, io.audit), run, ParseNode, ch, At(ExtractNode), io)
    else Leave(Log(w1, run, RunFailed, io.audit), run, ParseNode, ch.(error := true), At(FailedNode), io)
  }

  function ExtractStep(w: World, run: RunId, result: Option<Invoice>, io: Io): (after: World)
    requires run in w.procs
    ensures PostsNothing(w, after)
    ensures after.tables.cases == w.tables.cases
  {
    var ch := w.procs[run].ch;
    var w1 := SetStatus(w, run, Extracting, None, io.status);
    if result.Some?
    then
      var invoice := result.value.(confidence := Score(result.value));
      Leave(Log(w1, run, FieldsExtracted, io.audit), run, ExtractNode, ch.(invoice := Some(invoice)), At(PersistNode),
            io)
    else Leave(Log(w1, run, RunFailed, io.audit), run, ExtractNode, ch.(error := true), At(FailedNode), io)
  }

  function PersistStep(env: Env, w: World, run: RunId, io: Io): (after: World)
    requires run in w.procs
    ensures PostsNothing(w, after)
    ensures after.tables.cases == w.tables.cases
  {
    var ch := w.procs[run].ch;
    var w1 := if ch.invoice.Some? then AddInvoice(w, InvoiceRow(run, Fingerprint(env.text, ch.invoice.value))) else w;
    Leave(w1, run, PersistNode, ch, At(DuplicateNode), io)
  }

  function DuplicateStep(env: Env, w: World, run: RunId, io: Io): (after: World)
    requires run in w.procs
    ensures PostsNothing(w, after)
    ensures after.tables.cases == w.tables.cases
  {
    var ch := w.procs[run].ch;
    if ch.invoice.None? then Leave(w, run, DuplicateNode, ch, At(VendorNode), io)
    else
      var found := FindDuplicate(w.tables.invoices, Fingerprint(env.text, ch.invoice.value), run);
      var w1 := Log(w, run, DuplicateChecked, io.audit);
      if found.None?
      then
        Leave(Clear(w1, run, io.survives), run, DuplicateNode, ch.(duplicateOf := None), At(VendorNode), io)
      else
        Leave(w1, run, DuplicateNode, ch.(duplicateOf := Some(w.tables.invoices[found.value].run)), At(VendorNode), io)
  }

  function VendorStep(w: World, run: RunId, vendor: Option<string>, io: Io): (after: World)
    requires run in w.procs
    ensures PostsNothing(w, after)
    ensures after.tables.cases == w.tables.cases
  {
    var ch := w.procs[run].ch;
    if ch.invoice.None? then Leave(w, run, VendorNode, ch, At(FetchPoNode), io)
    else Leave(Log(w, run, VendorResolved, io.audit), run, VendorNode, ch.(vendor := vendor), At(FetchPoNode), io)
  }

  function FetchPoStep(w: World, run: RunId, reply: PoReply, io: Io): (after: World)
    requires run in w.procs
    ensures PostsNothing(w, after)
    ensures after.tables.cases == w.tables.cases
  {
    var ch := w.procs[run].ch;
    var none := ch.(order := None, receipts := []);
    if ch.invoice.None? || !Truthy(ch.invoice.value.purchaseOrderNumber)
    then Leave(Log(w, run, PoFetched, io.audit), run, FetchPoNode, none, At(MatchingNode), io)
    else
      match reply
      case PoFound(order, receipts) =>
        var w1 := Log(w, run, PoFetched, io.audit);
        var w2 := if order.goodsReceiptRequired then Log(w1, run, GoodsReceiptFetched, io.final) else w1;
        Leave(w2, run, FetchPoNode,
              ch.(order := Some(order), receipts := if order.goodsReceiptRequired then receipts else []),
              At(MatchingNode), io)
      case PoMissing => Leave(Log(w, run, PoFetched, io.audit), run, FetchPoNode, none, At(MatchingNode), io)
      case PoUnavailable =>
        Leave(Log(w, run, RunFailed, io.audit), run, FetchPoNode, none.(error := true), At(MatchingNode), io)
  }

  function ReportOf(env: Env, ch: Channel): MatchReport
    requires ch.invoice.Some?
  {
    NodeReport(env.text, ch.invoice.value, ch.order, ch.receipts, env.cfg, ch.duplicateOf.Some?, ch.vendor)
  }

  function RouteAfterMatch(ch: Channel): Node {
    if ch.error then FailedNode
    else if ch.report.Some? && ch.report.value.IsPostable() then PostNode
    else RaiseNode
  }

  function MatchStep(env: Env, w: World, run: RunId, io: Io): (after: World)
    requires run in w.procs
    ensures PostsNothing(w, after)
    ensures after.tables.cases == w.tables.cases
  {
    var ch := w.procs[run].ch;
    var w1 := SetStatus(w, run, RunStatus.Matching, None, io.status);
    if ch.invoice.None? then
      var failed := ch.(error := true);
      Leave(w1, run, MatchingNode, failed, At(RouteAfterMatch(failed)), io)
    else
      var report := ReportOf(env, ch);
      var matched := ch.(report := Some(report));
      var w2 := if io.Saves() then AddMatch(w1, MatchRow(run, report)) else w1;
      Leave(Log(w2, run, MatchEvaluated, io.Saves() && io.audit), run, MatchingNode, matched,
            At(RouteAfterMatch(matched)), io)
  }

  /** Up to the interrupt: nothing of the channel is checkpointed, so resuming starts this node over. */
  function RaiseStep(w: World, run: RunId, io: Io): (after: World)
    requires run in w.procs
    ensures PostsNothing(w, after)
    ensures after.tables.cases
         == w.tables.cases + if w.procs[run].ch.report.Some? then [CaseRow(run, OpenCase)] else []
  {
    var ch := w.procs[run].ch;
    if ch.report.None? then Leave(w, run, RaiseNode, ch.(error := true), At(RejectedNode), io)
    else
      var w1 := SetStatus(AddCase(w, CaseRow(run, OpenCase)), run, AwaitingApproval, None, io.status);
      Move(Log(w1, run, ExceptionRaised, io.audit), run, if io.survives then Parked else Crashed(RaiseNode))
  }

  /** The interrupted node again from its top, and then past the interrupt with the decision. */
  function ResumeStep(w: World, run: RunId, approve: bool, io: Io): (after: World)
    requires run in w.procs
    ensures PostsNothing(w, after)
    ensures w.tables.cases <= after.tables.cases
  {
    var ch, i := w.procs[run].ch, |w.tables.cases|;
    var w1 := SetStatus(AddCase(w, CaseRow(run, OpenCase)), run, AwaitingApproval, None, io.status);
    var w2 := Log(w1, run, ExceptionRaised, io.audit);
    if !io.Saves() then Move(w2, run, Parked)
    else
      var closed := CloseCase(w2, i, if approve then Approved else RejectedCase);
      var w3 := Log(closed, run, HumanDecision(approve), io.final);
      if io.survives
      then Leave(w3, run, RaiseNode, ch.(decision := Some(approve), caseId := true),
                 At(if approve then PostNode else RejectedNode), io)
      else Move(w3, run, Parked)
  }

  function RunEntry(env: Env, ch: Channel, run: RunId): JournalEntry
    requires ch.invoice.Some?
  {
    EntryOf(ch.invoice.value, ch.order, ch.vendor, run, env.currency)
  }

  function BeginPostStep(env: Env, w: World, run: RunId, io: Io): (after: World)
    requires run in w.procs
    ensures PostsNothing(w, after)
    ensures run in after.procs
    ensures after.tables.cases == w.tables.cases
  {
    var ch := w.procs[run].ch;
    var w1 := SetStatus(w, run, RunStatus.Posting, None, io.status);
    if ch.invoice.None? then Leave(w1, run, PostNode, ch.(error := true), Ended, io)
    else
      var entry := RunEntry(env, ch, run);
      if entry.IsBalanced() then Move(w1, run, if io.survives then Sending(entry, 0) else Crashed(PostNode))
      else
        Leave(SetStatus(Log(w1, run, RunFailed, io.audit), run, Failed, None, io.final),
              run, PostNode, ch.(error := true), Ended, io)
  }

  function SendStep(w: World, run: RunId, entry: JournalEntry, k: nat, delivery: Delivery): (after: World)
    requires run in w.procs
    ensures after.tables.cases == w.tables.cases
  {
    var (ledger, outcome) := Attempt(w.ledger, PostCall(entry), delivery, k == MAX_ATTEMPTS - 1);
    var owners := if |ledger.archive| > |w.ledger.archive| then w.owners[|w.ledger.archive| := run] else w.owners;
    var next :=
      if outcome.None? then Sending(entry, k + 1)
      else match outcome.value
        case Success(answer) => if answer.DocumentAnswer? then Sent(Booked(answer.document)) else Sent(Refusal)
        case ErpError => Sent(Refusal)
        case Crash => Crashed(PostNode);
    Move(w.(ledger := ledger, owners := owners), run, next)
  }

  function RecordBooked(w: World, run: RunId, document: Document, io: Io): (after: World)
    requires run in w.procs
    ensures AddsJournal(w, after, run)
    ensures after.tables.cases == w.tables.cases
  {
    var ch := w.procs[run].ch;
    var straightThrough := !ch.caseId;
    var w1 := AddJournal(w, JournalRow(run, true, document.number, document.reference, document.total));
    var w2 := Log(w1, run, JournalPosted(straightThrough), io.audit);
    Leave(SetStatus(w2, run, Completed, Some(straightThrough), io.final), run, PostNode, ch, Ended, io)
  }

  function RecordRefusal(env: Env, w: World, run: RunId, io: Io): (after: World)
    requires run in w.procs && w.procs[run].ch.invoice.Some?
    ensures AddsJournal(w, after, run)
    ensures after.tables.cases == w.tables.cases + if io.Saves() then [CaseRow(run, OpenCase)] else []
  {
    var ch := w.procs[run].ch;
    var entry := RunEntry(env, ch, run);
    var w1 := AddJournal(w, JournalRow(run, false, "", entry.reference, entry.Debits()));
    var w2 := if io.Saves() then AddCase(w1, CaseRow(run, OpenCase)) else w1;
    Leave(SetStatus(Log(w2, run, RunFailed, io.audit), run, Failed, None, io.final),
          run, PostNode, ch.(error := true), Ended, io)
  }

  /** A second journal row for a run violates the unique constraint, and the node dies on it. */
  function RecordStep(env: Env, w: World, run: RunId, posting: Posting, io: Io): (after: World)
    requires run in w.procs
    ensures if HasJournal(w.tables.journals, run) then PostsNothing(w, after)
            else PostsNothing(w, after) || AddsJournal(w, after, run)
    ensures after.tables.cases
         == w.tables.cases
            + if && posting.Refusal? && io.Saves() && w.procs[run].ch.invoice.Some?
                 && !HasJournal(w.tables.journals, run)
              then [CaseRow(run, OpenCase)] else []
  {
    if HasJournal(w.tables.journals, run) || w.procs[run].ch.invoice.None? then Move(w, run, Crashed(PostNode))
    else
      match posting
      case Booked(document) => RecordBooked(w, run, document, io)
      case Refusal => RecordRefusal(env, w, run, io)
  }

  function RejectStep(w: World, run: RunId, io: Io): (after: World)
    requires run in w.procs
    ensures PostsNothing(w, after)
    ensures after.tables.cases == w.tables.cases
  {
    var w1 := Log(SetStatus(w, run, Rejected, None, io.status), run, HumanDecision(false), io.audit);
    Leave(w1, run, RejectedNode, w.procs[run].ch, Ended, io)
  }

  function FailStep(w: World, run: RunId, io: Io): (after: World)
    requires run in w.procs
    ensures PostsNothing(w, after)
    ensures after.tables.cases == w.tables.cases
  {
    Leave(SetStatus(w, run, Failed, None, io.status), run, FailedNode, w.procs[run].ch.(error := true), Ended, io)
  }

  function NodeOf(pc: Pc): Option<Node> {
    match pc
    case At(n) => Some(n)
    case Crashed(n) => Some(n)
    case Parked => Some(RaiseNode)
    case Sending(_, _) => Some(PostNode)
    case Sent(_) => Some(PostNode)
    case Ended => None
  }

  function CashNodeOf(pc: CashPc): Option<CashNode> {
    match pc
    case CashAt(n) => Some(n)
    case CashCrashed(n) => Some(n)
    case Paying(_, _, _, _) => Some(ApplyingCash)
    case CashEnded => None
  }

  /** The guard on resuming a run. */
  predicate Resumable(w: World, run: RunId) {
    && run in w.tables.runs
    && (w.tables.runs[run].status == AwaitingApproval || w.tables.runs[run].status == RunStatus.Matching)
  }

  function StartStep(w: World, run: RunId, lands: bool): World {
    var t := w.tables.(runs := w.tables.runs[run := RunRow(PayableRun, Received, false)]);
    w.(tables := if lands then AppendAudit(t, run, EmailReceived) else t,
       procs := w.procs[run := Process(if lands then At(ParseNode) else Ended, EMPTY, false, [EmailReceived], 0)])
  }

  // Receivable nodes

  function StartCashStep(w: World, run: RunId, lands: bool): World {
    var t := w.tables.(runs := w.tables.runs[run := RunRow(ReceivableRun, Received, false)]);
    w.(tables := if lands then AppendAudit(t, run, EmailReceived) else t,
       cash := w.cash[run := CashProcess(if lands then CashAt(ParseCash) else CashEnded, NO_CASH, [EmailReceived])])
  }

  function ParseCashStep(w: World, run: RunId, readable: bool, io: Io): (after: World)
    requires run in w.cash
    ensures PostsNothing(w, after)
    ensures after.tables.cases == w.tables.cases
  {
    var ch := w.cash[run].ch;
    var w1 := SetStatus(w, run, Parsing, None, io.status);
    if readable
    then CashLeave(CashLog(w1, run, DocumentParsed, io.audit), run, ParseCash, ch, CashAt(ExtractCash), io)
    else CashLeave(CashLog(w1, run, RunFailed, io.audit), run, ParseCash, ch.(error := true), CashAt(FailedCash), io)
  }

  function ExtractCashStep(w: World, run: RunId, found: Option<Remittance>, io: Io): (after: World)
    requires run in w.cash
    ensures PostsNothing(w, after)
    ensures after.tables.cases == w.tables.cases
  {
    var ch := w.cash[run].ch;
    var w1 := SetStatus(w, run, Extracting, None, io.status);
    if found.Some?
    then CashLeave(CashLog(w1, run, FieldsExtracted, io.audit), run, ExtractCash, ch.(remittance := found),
                   CashAt(FetchCash), io)
    else CashLeave(CashLog(w1, run, RunFailed, io.audit), run, ExtractCash, ch.(error := true), CashAt(FailedCash), io)
  }

  /** A failed lookup sets the error, and the graph goes on to apply cash to nothing all the same. */
  function FetchCashStep(w: World, run: RunId, named: Option<string>, fails: bool, io: Io): (after: World)
    requires run in w.cash
    ensures PostsNothing(w, after)
    ensures after.tables.cases == w.tables.cases
  {
    var ch := w.cash[run].ch;
    if ch.remittance.None? then CashLeave(w, run, FetchCash, ch.(items := []), CashAt(ApplyingCash), io)
    else
      var fetched := FetchOutcome(ch.remittance.value, named, fails, w.ledger.items);
      CashLeave(CashLog(w, run, if fetched.failed then RunFailed else PoFetched, io.audit), run, FetchCash,
                ch.(items := fetched.items, error := ch.error || fetched.failed), CashAt(ApplyingCash), io)
  }

  function BeginCashStep(env: Env, w: World, run: RunId, io: Io): (after: World)
    requires run in w.cash
    ensures PostsNothing(w, after)
    ensures run in after.cash
    ensures after.tables.cases == w.tables.cases
  {
    var ch := w.cash[run].ch;
    var w1 := SetStatus(w, run, RunStatus.Posting, None, io.status);
    if ch.remittance.None? then CashLeave(w1, run, ApplyingCash, ch.(error := true), CashEnded, io)
    else
      var payments := Rounded(PaymentsOf(env.text, ch.remittance.value, ch.items));
      CashMove(w1, run, if io.survives then Paying(payments, 0, [], []) else CashCrashed(ApplyingCash))
  }

  /** Where one attempt at the first payment leaves the node. */
  function PaidPc(pc: CashPc, outcome: Option<Outcome>): CashPc
    requires pc.Paying? && pc.left != []
  {
    if outcome.None? then pc.(attempt := pc.attempt + 1)
    else
      match outcome.value
      case Success(answer) =>
        var applied := if answer.ApplicationAnswer? then pc.applied + [answer.application] else pc.applied;
        Paying(pc.left[1..], 0, applied, pc.failures)
      case ErpError => Paying(pc.left[1..], 0, pc.applied, pc.failures + [ApplicationFailed(pc.left[0].item.id)])
      case Crash => CashCrashed(ApplyingCash)
  }

  function PayStep(w: World, run: RunId, delivery: Delivery): (after: World)
    requires run in w.cash && w.cash[run].pc.Paying? && w.cash[run].pc.left != []
    ensures after.tables == w.tables
    ensures after.tables.cases == w.tables.cases
  {
    var pc := w.cash[run].pc;
    var (ledger, outcome) :=
      Attempt(w.ledger, CashCall(pc.left[0].item.id, pc.left[0].amount), delivery, pc.attempt == MAX_ATTEMPTS - 1);
    var payers := if |ledger.cashbook| > |w.ledger.cashbook| then w.payers[|w.ledger.cashbook| := run] else w.payers;
    CashMove(w.(ledger := ledger, payers := payers), run, PaidPc(pc, outcome))
  }

  function CashOutcome(
    env: Env, w: World, ch: CashChannel, applied: seq<Application>, failures: seq<Unresolved>): CashResult
    requires ch.remittance.Some?
  {
    ResultOf(env.text, ch.remittance.value, ch.items, env.cfg, CashRun(w.ledger, applied, failures, false))
  }

  function StoreOutcome(w: World, run: RunId, result: CashResult, io: Io): (after: World)
    requires run in w.cash
    ensures PostsNothing(w, after)
    ensures after.tables.cases
         == w.tables.cases + if result.unresolved != [] && io.Saves() then [CaseRow(run, OpenCase)] else []
  {
    var ch := w.cash[run].ch;
    var w1 := AddRemittance(w, RemittanceRow(run, result.straightThrough, result.applied, result.residual));
    var w2 := if result.unresolved != [] && io.Saves() then AddCase(w1, CaseRow(run, OpenCase)) else w1;
    var w3 := CashLog(w2, run, CashApplied, io.audit);
    var status := if result.completed then Completed else AwaitingApproval;
    CashLeave(SetStatus(w3, run, status, Some(result.straightThrough), io.final), run, ApplyingCash, ch, CashEnded, io)
  }

  function CloseCashStep(
    env: Env, w: World, run: RunId, applied: seq<Application>, failures: seq<Unresolved>, io: Io): (after: World)
    requires run in w.cash && w.cash[run].ch.remittance.Some?
    ensures PostsNothing(w, after)
    ensures var result := CashOutcome(env, w, w.cash[run].ch, applied, failures);
            after.tables.cases
            == w.tables.cases + if result.unresolved != [] && io.Saves() then [CaseRow(run, OpenCase)] else []
  {
    StoreOutcome(w, run, CashOutcome(env, w, w.cash[run].ch, applied, failures), io)
  }

  function FailCashStep(w: World, run: RunId, io: Io): (after: World)
    requires run in w.cash
    ensures PostsNothing(w, after)
    ensures after.tables.cases == w.tables.cases
  {
    var ch := w.cash[run].ch;
    CashLeave(SetStatus(w, run, Failed, None, io.status), run, FailedCash, ch.(error := true), CashEnded, io)
  }

  // Events

  /** The payable run an event continues. */
  function RunOf(e: Event): Option<RunId> {
    match e
    case DoParse(run, _, _) => Some(run)
    case DoExtract(run, _, _) => Some(run)
    case DoPersist(run, _) => Some(run)
    case DoDuplicateCheck(run, _) => Some(run)
    case DoResolveVendor(run, _, _) => Some(run)
    case DoFetchPo(run, _, _) => Some(run)
    case DoMatch(run, _) => Some(run)
    case DoRaise(run, _) => Some(run)
    case Resume(run, _, _) => Some(run)
    case BeginPost(run, _) => Some(run)
    case Send(run, _) => Some(run)
    case Record(run, _) => Some(run)
    case DoReject(run, _) => Some(run)
    case DoFail(run, _) => Some(run)
    case Die(run) => Some(run)
    case Redrive(run) => Some(run)
    case _ => None
  }

  /** The receivable run an event continues. */
  function CashRunOf(e: Event): Option<RunId> {
    match e
    case DoParseCash(run, _, _) => Some(run)
    case DoExtractCash(run, _, _) => Some(run)
    case DoFetchCash(run, _, _, _) => Some(run)
    case BeginCash(run, _) => Some(run)
    case Pay(run, _) => Some(run)
    case CloseCash(run, _) => Some(run)
    case DoFailCash(run, _) => Some(run)
    case DieCash(run) => Some(run)
    case RedriveCash(run) => Some(run)
    case _ => None
  }

  /** Whether an event is what a run standing at pc does next. */
  predicate Awaits(pc: Pc, e: Event)
    requires RunOf(e).Some?
  {
    match e
    case DoParse(_, _, _) => pc == At(ParseNode)
    case DoExtract(_, _, _) => pc == At(ExtractNode)
    case DoPersist(_, _) => pc == At(PersistNode)
    case DoDuplicateCheck(_, _) => pc == At(DuplicateNode)
    case DoResolveVendor(_, _, _) => pc == At(VendorNode)
    case DoFetchPo(_, _, _) => pc == At(FetchPoNode)
    case DoMatch(_, _) => pc == At(MatchingNode)
    case DoRaise(_, _) => pc == At(RaiseNode)
    case Resume(_, _, _) => pc.Parked?
    case BeginPost(_, _) => pc == At(PostNode)
    case Send(_, _) => pc.Sending?
    case Record(_, _) => pc.Sent?
    case DoReject(_, _) => pc == At(RejectedNode)
    case DoFail(_, _) => pc == At(FailedNode)
    case Die(_) => pc.At? || pc.Sending? || pc.Sent?
    case Redrive(_) => pc.Crashed?
  }

  predicate CashAwaits(p: CashProcess, e: Event)
    requires CashRunOf(e).Some?
  {
    match e
    case DoParseCash(_, _, _) => p.pc == CashAt(ParseCash)
    case DoExtractCash(_, _, _) => p.pc == CashAt(ExtractCash)
    case DoFetchCash(_, _, _, _) => p.pc == CashAt(FetchCash)
    case BeginCash(_, _) => p.pc == CashAt(ApplyingCash)
    case Pay(_, _) => p.pc.Paying? && p.pc.left != []
    case CloseCash(_, _) => p.pc.Paying? && p.pc.left == [] && p.ch.remittance.Some?
    case DoFailCash(_, _) => p.pc == CashAt(FailedCash)
    case DieCash(_) => p.pc.CashAt? || p.pc.Paying?
    case RedriveCash(_) => p.pc.CashCrashed?
  }

  /** Whether an event can happen now. */
  predicate Enabled(w: World, e: Event) {
    if e.External? then true
    else if e.Start? || e.StartCash? then e.run !in w.procs && e.run !in w.cash
    else if RunOf(e).Some? then
      e.run in w.procs && Awaits(w.procs[e.run].pc, e) && (e.Resume? || e.Redrive? ==> Resumable(w, e.run))
    else
      e.run in w.cash && CashAwaits(w.cash[e.run], e) && (e.RedriveCash? ==> Resumable(w, e.run))
  }

  function RunStep(env: Env, w: World, e: Event): World
    requires RunOf(e).Some? && e.run in w.procs && Awaits(w.procs[e.run].pc, e)
  {
    match e
    case DoParse(run, readable, io) => ParseStep(w, run, readable, io)
    case DoExtract(run, result, io) => ExtractStep(w, run, result, io)
    case DoPersist(run, io) => PersistStep(env, w, run, io)
    case DoDuplicateCheck(run, io) => DuplicateStep(env, w, run, io)
    case DoResolveVendor(run, vendor, io) => VendorStep(w, run, vendor, io)
    case DoFetchPo(run, reply, io) => FetchPoStep(w, run, reply, io)
    case DoMatch(run, io) => MatchStep(env, w, run, io)
    case DoRaise(run, io) => RaiseStep(w, run, io)
    case Resume(run, approve, io) => ResumeStep(w, run, approve, io)
    case BeginPost(run, io) => BeginPostStep(env, w, run, io)
    case Send(run, delivery) => SendStep(w, run, w.procs[run].pc.entry, w.procs[run].pc.attempt, delivery)
    case Record(run, io) => RecordStep(env, w, run, w.procs[run].pc.posting, io)
    case DoReject(run, io) => RejectStep(w, run, io)
    case DoFail(run, io) => FailStep(w, run, io)
    case Die(run) => Move(w, run, Crashed(NodeOf(w.procs[run].pc).value))
    case Redrive(run) => Move(w, run, At(w.procs[run].pc.node))
  }

  function CashStep(env: Env, w: World, e: Event): World
    requires CashRunOf(e).Some? && e.run in w.cash && CashAwaits(w.cash[e.run], e)
  {
    match e
    case DoParseCash(run, readable, io) => ParseCashStep(w, run, readable, io)
    case DoExtractCash(run, found, io) => ExtractCashStep(w, run, found, io)
    case DoFetchCash(run, named, fails, io) => FetchCashStep(w, run, named, fails, io)
    case BeginCash(run, io) => BeginCashStep(env, w, run, io)
    case Pay(run, delivery) => PayStep(w, run, delivery)
    case CloseCash(run, io) => CloseCashStep(env, w, run, w.cash[run].pc.applied, w.cash[run].pc.failures, io)
    case DoFailCash(run, io) => FailCashStep(w, run, io)
    case DieCash(run) => CashMove(w, run, CashCrashed(CashNodeOf(w.cash[run].pc).value))
    case RedriveCash(run) => CashMove(w, run, CashAt(w.cash[run].pc.node))
  }

  function Step(env: Env, w: World, e: Event): World {
    if !Enabled(w, e) then w
    else if e.Start? then StartStep(w, e.run, e.lands)
    else if e.StartCash? then StartCashStep(w, e.run, e.lands)
    else if e.External? then w.(ledger := Do(w.ledger, env.seed, e.op))
    else if RunOf(e).Some? then RunStep(env, w, e)
    else CashStep(env, w, e)
  }

  function Init(env: Env): World {
    World(NO_ROWS, Fresh(env.seed), map[], map[], map[], map[])
  }

  function Execute(env: Env, events: seq<Event>): World {
    if events == [] then Init(env) else Step(env, Execute(env, events[..|events| - 1]), events[|events| - 1])
  }
}
