/** The graphs' nodes as they run: each works on the repository, the ERP and its checkpoint in place, does to the whole
    exactly the machine's next step for its run, and so keeps the invariant of the whole system. */
module Nodes {
  import opened Prelude
  import opened Schemas
  import opened Journal
  import opened MockErp
  import opened Client
  import opened Confidence
  import opened Decide
  import opened Remittances
  import opened Receivable
  import opened Repository
  import opened Workflow
  import opened WorkflowInvariant
  import opened PostingNode
  import opened PayingNode

  class Agent {
    const env: Env
    const repo: WorkflowRepository
    const erp: Erp
    var procs: map<RunId, Process>
    var cash: map<RunId, CashProcess>
    ghost var owners: map<nat, RunId>
    ghost var payers: map<nat, RunId>

    ghost function Model(): World
      reads this, repo, erp
    {
      World(repo.Model(), erp.Model(), procs, cash, owners, payers)
    }

    /** What also holds in the middle of a node. */
    ghost predicate Sound()
      reads this, repo, erp
    {
      erp.Valid() && erp.seed == env.seed
    }

    /** Between nodes everything proved of executions holds. */
    ghost predicate Valid()
      reads this, repo, erp
    {
      Sound() && Inv(env, Model())
    }

    constructor (env: Env)
      requires ValidSeed(env.seed)
      ensures this.env == env && Valid() && fresh(repo) && fresh(erp)
      ensures Model() == Init(env)
    {
      hide ValidSeed, LedgerInv, Inv;
      this.env := env;
      repo := new WorkflowRepository();
      erp := new Erp(env.seed);
      procs, cash, owners, payers := map[], map[], map[], map[];
      new;
      InitValid(env);
    }

    // Shared helpers

    method SetRunStatus(run: RunId, status: RunStatus, straightThrough: Option<bool>, lands: bool)
      requires Sound()
      modifies repo`runs
      ensures Sound() && Model() == SetStatus(old(Model()), run, status, straightThrough, lands)
    {
      hide ValidSeed, LedgerInv;
      if lands {
        repo.UpdateRunRow(run, status, straightThrough);
      }
    }

    method Audit(run: RunId, action: Action, lands: bool)
      requires Sound() && run in procs
      modifies repo`audit, this`procs
      ensures Sound() && Model() == Log(old(Model()), run, action, lands)
      ensures run in procs && procs[run].ch == old(procs[run].ch)
    {
      hide ValidSeed, LedgerInv, MaxSequence;
      if lands {
        repo.AppendAuditRow(run, action);
      }
      procs := procs[run := procs[run].(emitted := procs[run].emitted + [action])];
    }

    method Checkpoint(run: RunId, node: Node, ch: Channel, next: Pc, io: Io)
      requires Sound() && run in procs
      modifies this`procs
      ensures Sound() && run in procs && Model() == Leave(old(Model()), run, node, ch, next, io)
    {
      hide ValidSeed, LedgerInv;
      if io.survives {
        procs := procs[run := procs[run].(ch := ch, pc := next, completed := procs[run].completed + 1)];
      } else {
        procs := procs[run := procs[run].(pc := Crashed(node))];
      }
    }

    method MoveTo(run: RunId, pc: Pc)
      requires Sound() && run in procs
      modifies this`procs
      ensures Sound() && run in procs && Model() == Move(old(Model()), run, pc)
    {
      hide ValidSeed, LedgerInv;
      procs := procs[run := procs[run].(pc := pc)];
    }

    method CashAudit(run: RunId, action: Action, lands: bool)
      requires Sound() && run in cash
      modifies repo`audit, this`cash
      ensures Sound() && Model() == CashLog(old(Model()), run, action, lands)
      ensures run in cash && cash[run].ch == old(cash[run].ch)
    {
      hide ValidSeed, LedgerInv, MaxSequence;
      if lands {
        repo.AppendAuditRow(run, action);
      }
      cash := cash[run := cash[run].(emitted := cash[run].emitted + [action])];
    }

    method CashCheckpoint(run: RunId, node: CashNode, ch: CashChannel, next: CashPc, io: Io)
      requires Sound() && run in cash
      modifies this`cash
      ensures Sound() && run in cash && Model() == CashLeave(old(Model()), run, node, ch, next, io)
    {
      hide ValidSeed, LedgerInv;
      var p := cash[run];
      if io.survives {
        p := p.(ch := ch, pc := next);
      } else {
        p := p.(pc := CashCrashed(node));
      }
      cash := cash[run := p];
    }

    method CashMoveTo(run: RunId, pc: CashPc)
      requires Sound() && run in cash
      modifies this`cash
      ensures Sound() && run in cash && Model() == CashMove(old(Model()), run, pc)
    {
      hide ValidSeed, LedgerInv;
      cash := cash[run := cash[run].(pc := pc)];
    }

    // The runs themselves

    method OpenRow(run: RunId, kind: Kind, lands: bool)
      requires Sound()
      modifies repo`runs, repo`audit
      ensures Sound() && Model() == old(Model()).(tables := Opened(old(Model()), run, kind, lands))
    {
      hide ValidSeed, LedgerInv, MaxSequence;
      repo.CreateRun(run, kind);
      if lands {
        repo.AppendAuditRow(run, EmailReceived);
      }
    }

    method StartPayable(run: RunId, lands: bool)
      requires Sound()
      modifies this`procs, repo`runs, repo`audit
      ensures Sound() && Model() == StartStep(old(Model()), run, lands)
    {
      hide ValidSeed, LedgerInv, AppendAudit;
      OpenRow(run, PayableRun, lands);
      procs := procs[run := Process(if lands then At(ParseNode) else Ended, EMPTY, false, [EmailReceived], 0)];
    }

    method StartReceivable(run: RunId, lands: bool)
      requires Sound()
      modifies this`cash, repo`runs, repo`audit
      ensures Sound() && Model() == StartCashStep(old(Model()), run, lands)
    {
      hide ValidSeed, LedgerInv, AppendAudit;
      OpenRow(run, ReceivableRun, lands);
      cash := cash[run := CashProcess(if lands then CashAt(ParseCash) else CashEnded, NO_CASH, [EmailReceived])];
    }

    // Extraction

    method Parse(run: RunId, readable: bool, io: Io)
      requires Sound() && run in procs && procs[run].pc == At(ParseNode)
      modifies this`procs, repo`runs, repo`audit
      ensures Sound() && Model() == ParseStep(old(Model()), run, readable, io)
    {
      hide ValidSeed, LedgerInv, SetStatus, Log, Leave;
      var ch := procs[run].ch;
      SetRunStatus(run, Parsing, None, io.status);
      if !readable {
        Audit(run, RunFailed, io.audit);
        Checkpoint(run, ParseNode, ch.(error := true), At(FailedNode), io);
        return;
      }
      Audit(run, DocumentParsed, io.audit);
      Checkpoint(run, ParseNode, ch, At(ExtractNode), io);
    }

    method ExtractInvoice(run: RunId, result: Option<Invoice>, io: Io)
      requires Sound() && run in procs && procs[run].pc == At(ExtractNode)
      modifies this`procs, repo`runs, repo`audit
      ensures Sound() && Model() == ExtractStep(old(Model()), run, result, io)
    {
      hide ValidSeed, LedgerInv, SetStatus, Log, Leave;
      var ch := procs[run].ch;
      SetRunStatus(run, Extracting, None, io.status);
      if result.None? {
        Audit(run, RunFailed, io.audit);
        Checkpoint(run, ExtractNode, ch.(error := true), At(FailedNode), io);
        return;
      }
      var invoice := result.value;
      var score, _ := ScoreExtraction(invoice);
      invoice := invoice.(confidence := score);
      Audit(run, FieldsExtracted, io.audit);
      Checkpoint(run, ExtractNode, ch.(invoice := Some(invoice)), At(PersistNode), io);
    }

    // Enrichment

    method PersistInvoice(run: RunId, io: Io)
      requires Sound() && run in procs && procs[run].pc == At(PersistNode)
      modifies this`procs, repo`invoices
      ensures Sound() && Model() == PersistStep(env, old(Model()), run, io)
    {
      hide ValidSeed, LedgerInv, Leave, Fingerprint;
      var ch := procs[run].ch;
      if ch.invoice.Some? {
        repo.SaveInvoice(InvoiceRow(run, Fingerprint(env.text, ch.invoice.value)));
      }
      Checkpoint(run, PersistNode, ch, At(DuplicateNode), io);
    }

    method DuplicateCheck(run: RunId, io: Io)
      requires Sound() && run in procs && procs[run].pc == At(DuplicateNode)
      modifies this`procs, repo`audit
      ensures Sound() && Model() == DuplicateStep(env, old(Model()), run, io)
    {
      hide ValidSeed, LedgerInv, Log, Leave, Fingerprint;
      var ch := procs[run].ch;
      if ch.invoice.None? {
        Checkpoint(run, DuplicateNode, ch, At(VendorNode), io);
        return;
      }
      var existing := repo.FindDuplicateRow(Fingerprint(env.text, ch.invoice.value), run);
      var original := if existing.Some? then Some(repo.invoices[existing.value].run) else None;
      Audit(run, DuplicateChecked, io.audit);
      if original.None? {
        procs := procs[run := procs[run].(cleared := io.survives)];
      }
      Checkpoint(run, DuplicateNode, ch.(duplicateOf := original), At(VendorNode), io);
    }

    method ResolveVendor(run: RunId, vendor: Option<string>, io: Io)
      requires Sound() && run in procs && procs[run].pc == At(VendorNode)
      modifies this`procs, repo`audit
      ensures Sound() && Model() == VendorStep(old(Model()), run, vendor, io)
    {
      hide ValidSeed, LedgerInv, Log, Leave;
      var ch := procs[run].ch;
      if ch.invoice.None? {
        Checkpoint(run, VendorNode, ch, At(FetchPoNode), io);
        return;
      }
      Audit(run, VendorResolved, io.audit);
      Checkpoint(run, VendorNode, ch.(vendor := vendor), At(FetchPoNode), io);
    }

    method FetchPo(run: RunId, reply: PoReply, io: Io)
      requires Sound() && run in procs && procs[run].pc == At(FetchPoNode)
      modifies this`procs, repo`audit
      ensures Sound() && Model() == FetchPoStep(old(Model()), run, reply, io)
    {
      hide ValidSeed, LedgerInv, Log, Leave;
      var ch := procs[run].ch;
      if ch.invoice.None? || !Truthy(ch.invoice.value.purchaseOrderNumber) || reply.PoMissing? {
        Audit(run, PoFetched, io.audit);
        Checkpoint(run, FetchPoNode, ch.(order := None, receipts := []), At(MatchingNode), io);
        return;
      }
      if reply.PoUnavailable? {
        Audit(run, RunFailed, io.audit);
        Checkpoint(run, FetchPoNode, ch.(order := None, receipts := [], error := true), At(MatchingNode), io);
        return;
      }
      var receipts := [];
      Audit(run, PoFetched, io.audit);
      if reply.order.goodsReceiptRequired {
        receipts := reply.receipts;
        Audit(run, GoodsReceiptFetched, io.final);
      }
      Checkpoint(run, FetchPoNode, ch.(order := Some(reply.order), receipts := receipts), At(MatchingNode), io);
    }

    // Decision

    method Match(run: RunId, io: Io)
      requires Sound() && run in procs && procs[run].pc == At(MatchingNode)
      modifies this`procs, repo`runs, repo`matches, repo`audit
      ensures Sound() && Model() == MatchStep(env, old(Model()), run, io)
    {
      hide ValidSeed, LedgerInv, SetStatus, Log, Leave, NodeReport;
      var ch := procs[run].ch;
      SetRunStatus(run, RunStatus.Matching, None, io.status);
      if ch.invoice.None? {
        ch := ch.(error := true);
        Checkpoint(run, MatchingNode, ch, At(RouteAfterMatch(ch)), io);
        return;
      }
      var report :=
        MatchNode(env.text, ch.invoice.value, ch.order, ch.receipts, env.cfg, ch.duplicateOf.Some?, ch.vendor);
      ch := ch.(report := Some(report));
      if io.Saves() {
        repo.SaveMatch(MatchRow(run, report));
      }
      Audit(run, MatchEvaluated, io.Saves() && io.audit);
      Checkpoint(run, MatchingNode, ch, At(RouteAfterMatch(ch)), io);
    }

    method Escalate(run: RunId, io: Io)
      requires Sound() && run in procs
      modifies this`procs, repo`runs, repo`cases, repo`audit
      ensures Sound() && run in procs && procs[run].ch == old(procs[run].ch)
      ensures repo.cases == old(repo.cases) + [CaseRow(run, OpenCase)]
      ensures var filed := AddCase(old(Model()), CaseRow(run, OpenCase));
              Model() == Log(SetStatus(filed, run, AwaitingApproval, None, io.status), run, ExceptionRaised, io.audit)
    {
      hide ValidSeed, LedgerInv, SetStatus, Log;
      repo.SaveException(CaseRow(run, OpenCase));
      SetRunStatus(run, AwaitingApproval, None, io.status);
      Audit(run, ExceptionRaised, io.audit);
    }

    method RaiseException(run: RunId, io: Io)
      requires Sound() && run in procs && procs[run].pc == At(RaiseNode)
      modifies this`procs, repo`runs, repo`cases, repo`audit
      ensures Sound() && Model() == RaiseStep(old(Model()), run, io)
    {
      hide ValidSeed, LedgerInv, SetStatus, Log, Leave, Move, AddCase;
      var ch := procs[run].ch;
      if ch.report.None? {
        Checkpoint(run, RaiseNode, ch.(error := true), At(RejectedNode), io);
        return;
      }
      Escalate(run, io);
      MoveTo(run, if io.survives then Parked else Crashed(RaiseNode));
    }

    method CloseDecided(run: RunId, i: nat, approve: bool)
      requires Sound() && run in procs
      modifies repo`cases
      ensures Sound() && Model() == CloseCase(old(Model()), i, if approve then Approved else RejectedCase)
    {
      hide ValidSeed, LedgerInv;
      repo.ResolveException(i, if approve then Approved else RejectedCase);
    }

    method ResumeException(run: RunId, approve: bool, io: Io)
      requires Sound() && run in procs && procs[run].pc.Parked? && Resumable(Model(), run)
      modifies this`procs, repo`runs, repo`cases, repo`audit
      ensures Sound() && Model() == ResumeStep(old(Model()), run, approve, io)
    {
      hide ValidSeed, LedgerInv, SetStatus, Log, Leave, Move, AddCase, CloseCase, Resumable;
      var ch, i := procs[run].ch, |repo.cases|;
      Escalate(run, io);
      if !io.Saves() {
        MoveTo(run, Parked);
        return;
      }
      CloseDecided(run, i, approve);
      Audit(run, HumanDecision(approve), io.final);
      if io.survives {
        Checkpoint(run, RaiseNode, ch.(decision := Some(approve), caseId := true),
                   At(if approve then PostNode else RejectedNode), io);
      } else {
        MoveTo(run, Parked);
      }
    }

    // Posting

    method BeginPosting(run: RunId, io: Io)
      requires Sound() && run in procs && procs[run].pc == At(PostNode)
      modifies this`procs, repo`runs, repo`audit
      ensures Sound() && run in procs && Model() == BeginPostStep(env, old(Model()), run, io)
    {
      hide ValidSeed, LedgerInv, SetStatus, Log, Leave, Move, EntryOf;
      var ch := procs[run].ch;
      SetRunStatus(run, RunStatus.Posting, None, io.status);
      if ch.invoice.None? {
        Checkpoint(run, PostNode, ch.(error := true), Ended, io);
        return;
      }
      var entry := BuildJournal(ch.invoice.value, ch.order, ch.vendor, run, env.currency);
      if !entry.IsBalanced() {
        Audit(run, RunFailed, io.audit);
        SetRunStatus(run, Failed, None, io.final);
        Checkpoint(run, PostNode, ch.(error := true), Ended, io);
        return;
      }
      MoveTo(run, if io.survives then Sending(entry, 0) else Crashed(PostNode));
    }

    /** One attempt at the ERP, as the channel treats it. */
    method SendOnce(run: RunId, delivery: Delivery)
      requires Sound() && run in procs && procs[run].pc.Sending?
      modifies this`procs, this`owners, erp
      ensures Sound() && run in procs
      ensures var pc := old(procs[run].pc);
              Model() == SendStep(old(Model()), run, pc.entry, pc.attempt, delivery)
    {
      hide ValidSeed, LedgerInv, Post;
      var entry, attempt := procs[run].pc.entry, procs[run].pc.attempt;
      var outcome: Option<Outcome> := None;
      ghost var before := erp.Model();
      if delivery.Answered? || delivery.Lost? || delivery == Broken(true) {
        var reply := erp.PostJournalEntry(entry);
        if delivery.Answered? {
          outcome := Some(Client.OutcomeOf(if reply.Created? then DocumentAnswer(reply.document) else ErrorAnswer));
        }
      }
      if delivery.Broken? || delivery.Refused? {
        outcome := Some(ErpError);
      } else if !delivery.Answered? && attempt == MAX_ATTEMPTS - 1 {
        outcome := Some(Crash);
      }
      if |erp.archive| > |before.archive| {
        owners := owners[|before.archive| := run];
      }
      assert (erp.Model(), outcome) == Attempt(before, PostCall(entry), delivery, attempt == MAX_ATTEMPTS - 1);
      var next :=
        if outcome.None? then Sending(entry, attempt + 1)
        else match outcome.value
          case Success(answer) => if answer.DocumentAnswer? then Sent(Booked(answer.document)) else Sent(Refusal)
          case ErpError => Sent(Refusal)
          case Crash => Crashed(PostNode);
      procs := procs[run := procs[run].(pc := next)];
    }

    method RecordSuccess(run: RunId, document: Document, io: Io)
      requires Sound() && run in procs && !HasJournal(repo.journals, run)
      modifies this`procs, repo`runs, repo`journals, repo`audit
      ensures Sound() && Model() == RecordBooked(old(Model()), run, document, io)
    {
      hide ValidSeed, LedgerInv, SetStatus, Log, Leave;
      var ch := procs[run].ch;
      var straightThrough := !ch.caseId;
      var _ := repo.SaveJournal(JournalRow(run, true, document.number, document.reference, document.total));
      Audit(run, JournalPosted(straightThrough), io.audit);
      SetRunStatus(run, Completed, Some(straightThrough), io.final);
      Checkpoint(run, PostNode, ch, Ended, io);
    }

    method RecordFailure(run: RunId, io: Io)
      requires Sound() && run in procs && procs[run].ch.invoice.Some? && !HasJournal(repo.journals, run)
      modifies this`procs, repo`runs, repo`journals, repo`cases, repo`audit
      ensures Sound() && Model() == RecordRefusal(env, old(Model()), run, io)
    {
      hide ValidSeed, LedgerInv, SetStatus, Log, Leave, EntryOf;
      var ch := procs[run].ch;
      var entry := BuildJournal(ch.invoice.value, ch.order, ch.vendor, run, env.currency);
      var _ := repo.SaveJournal(JournalRow(run, false, "", entry.reference, entry.Debits()));
      if io.Saves() {
        repo.SaveException(CaseRow(run, OpenCase));
      }
      Audit(run, RunFailed, io.audit);
      SetRunStatus(run, Failed, None, io.final);
      Checkpoint(run, PostNode, ch.(error := true), Ended, io);
    }

    method RecordPosting(run: RunId, io: Io)
      requires Sound() && run in procs && procs[run].pc.Sent?
      modifies this`procs, repo`runs, repo`journals, repo`cases, repo`audit
      ensures Sound() && Model() == RecordStep(env, old(Model()), run, old(procs[run].pc.posting), io)
    {
      hide ValidSeed, LedgerInv, RecordBooked, RecordRefusal, Move;
      var taken := repo.JournalExists(run);
      if taken || procs[run].ch.invoice.None? {
        MoveTo(run, Crashed(PostNode));
        return;
      }
      match procs[run].pc.posting {
        case Booked(document) => RecordSuccess(run, document, io);
        case Refusal => RecordFailure(run, io);
      }
    }

    method SendUntilAnswered(run: RunId, deliveries: Deliveries)
      requires Sound() && run in procs
      modifies this`procs, this`owners, erp
      ensures Sound() && run in procs && Model() == Resend(old(Model()), run, deliveries, 0)
    {
      hide ValidSeed, LedgerInv, SendStep;
      var k := 0;
      while k < MAX_ATTEMPTS && procs[run].pc.Sending?
        invariant Sound() && run in procs && k <= MAX_ATTEMPTS
        invariant Resend(Model(), run, deliveries, k) == Resend(old(Model()), run, deliveries, 0)
        decreases MAX_ATTEMPTS - k
      {
        SendOnce(run, deliveries[k]);
        k := k + 1;
      }
    }

    /** The whole posting node of a run nobody else gets between: build, send until answered, record. */
    method PostJournal(run: RunId, begin: Io, deliveries: Deliveries, record: Io)
      requires Valid() && run in procs && procs[run].pc == At(PostNode)
      modifies this`procs, this`owners, repo, erp
      ensures Valid() && Model() == PostNodeStep(env, old(Model()), run, begin, deliveries, record)
    {
      hide ValidSeed, LedgerInv, BeginPostStep, Resend, RecordStep, Inv;
      PostNodeKeeps(env, Model(), run, begin, deliveries, record);
      BeginPosting(run, begin);
      SendUntilAnswered(run, deliveries);
      if procs[run].pc.Sent? {
        RecordPosting(run, record);
      }
    }

    method Reject(run: RunId, io: Io)
      requires Sound() && run in procs && procs[run].pc == At(RejectedNode)
      modifies this`procs, repo`runs, repo`audit
      ensures Sound() && Model() == RejectStep(old(Model()), run, io)
    {
      hide ValidSeed, LedgerInv, SetStatus, Log, Leave;
      SetRunStatus(run, Rejected, None, io.status);
      var ch := procs[run].ch;
      Audit(run, HumanDecision(false), io.audit);
      Checkpoint(run, RejectedNode, ch, Ended, io);
    }

    method Fail(run: RunId, io: Io)
      requires Sound() && run in procs && procs[run].pc == At(FailedNode)
      modifies this`procs, repo`runs
      ensures Sound() && Model() == FailStep(old(Model()), run, io)
    {
      hide ValidSeed, LedgerInv, SetStatus, Log, Leave;
      SetRunStatus(run, Failed, None, io.status);
      Checkpoint(run, FailedNode, procs[run].ch.(error := true), Ended, io);
    }

    // Receivables

    method ParseRemittance(run: RunId, readable: bool, io: Io)
      requires Sound() && run in cash && cash[run].pc == CashAt(ParseCash)
      modifies this`cash, repo`runs, repo`audit
      ensures Sound() && Model() == ParseCashStep(old(Model()), run, readable, io)
    {
      hide ValidSeed, LedgerInv, SetStatus, CashLog, CashLeave;
      var ch := cash[run].ch;
      SetRunStatus(run, Parsing, None, io.status);
      if !readable {
        CashAudit(run, RunFailed, io.audit);
        CashCheckpoint(run, ParseCash, ch.(error := true), CashAt(FailedCash), io);
        return;
      }
      CashAudit(run, DocumentParsed, io.audit);
      CashCheckpoint(run, ParseCash, ch, CashAt(ExtractCash), io);
    }

    method ExtractRemittance(run: RunId, found: Option<Remittance>, io: Io)
      requires Sound() && run in cash && cash[run].pc == CashAt(ExtractCash)
      modifies this`cash, repo`runs, repo`audit
      ensures Sound() && Model() == ExtractCashStep(old(Model()), run, found, io)
    {
      hide ValidSeed, LedgerInv, SetStatus, CashLog, CashLeave;
      var ch := cash[run].ch;
      SetRunStatus(run, Extracting, None, io.status);
      if found.None? {
        CashAudit(run, RunFailed, io.audit);
        CashCheckpoint(run, ExtractCash, ch.(error := true), CashAt(FailedCash), io);
        return;
      }
      CashAudit(run, FieldsExtracted, io.audit);
      CashCheckpoint(run, ExtractCash, ch.(remittance := found), CashAt(FetchCash), io);
    }

    method FetchItems(run: RunId, named: Option<string>, fails: bool, io: Io)
      requires Sound() && run in cash && cash[run].pc == CashAt(FetchCash)
      modifies this`cash, repo`audit
      ensures Sound() && Model() == FetchCashStep(old(Model()), run, named, fails, io)
    {
      hide ValidSeed, LedgerInv, CashLog, CashLeave, FetchOutcome;
      var ch := cash[run].ch;
      if ch.remittance.None? {
        CashCheckpoint(run, FetchCash, ch.(items := []), CashAt(ApplyingCash), io);
        return;
      }
      var fetched := FetchArItems(ch.remittance.value, named, fails, erp);
      if fetched.failed {
        CashAudit(run, RunFailed, io.audit);
        CashCheckpoint(run, FetchCash, ch.(items := fetched.items, error := true), CashAt(ApplyingCash), io);
        return;
      }
      CashAudit(run, PoFetched, io.audit);
      CashCheckpoint(run, FetchCash, ch.(items := fetched.items), CashAt(ApplyingCash), io);
    }

    method BeginApplying(run: RunId, io: Io)
      requires Sound() && run in cash && cash[run].pc == CashAt(ApplyingCash)
      modifies this`cash, repo`runs
      ensures Sound() && run in cash && Model() == BeginCashStep(env, old(Model()), run, io)
    {
      hide ValidSeed, LedgerInv, SetStatus, CashLeave, CashMove, PaymentsOf, Rounded, UnresolvedOf, ResidualOf;
      var ch := cash[run].ch;
      SetRunStatus(run, RunStatus.Posting, None, io.status);
      if ch.remittance.None? {
        CashCheckpoint(run, ApplyingCash, ch.(error := true), CashEnded, io);
        return;
      }
      var payments, _, _ := MatchRemittance(env.text, ch.remittance.value, ch.items, env.cfg);
      CashMoveTo(run, if io.survives then Paying(payments, 0, [], []) else CashCrashed(ApplyingCash));
    }

    /** One attempt at the first payment left, as the channel treats it. */
    method PayOnce(run: RunId, delivery: Delivery)
      requires Sound() && run in cash && cash[run].pc.Paying? && cash[run].pc.left != []
      modifies this`cash, this`payers, erp
      ensures Sound() && run in cash && Model() == PayStep(old(Model()), run, delivery)
    {
      hide ValidSeed, LedgerInv, ApplyCash;
      var pc := cash[run].pc;
      var payment, last := pc.left[0], pc.attempt == MAX_ATTEMPTS - 1;
      ghost var before := erp.Model();
      var outcome: Option<Outcome> := None;
      if delivery.Answered? || delivery.Lost? || delivery == Broken(true) {
        var reply := erp.ApplyCashTo(payment.item.id, payment.amount);
        if delivery.Answered? {
          var answer := if reply.Applied? then ApplicationAnswer(reply.application) else ErrorAnswer;
          outcome := Some(Client.OutcomeOf(answer));
        }
      }
      if delivery.Broken? || delivery.Refused? {
        outcome := Some(ErpError);
      } else if !delivery.Answered? && last {
        outcome := Some(Crash);
      }
      if |erp.cashbook| > |before.cashbook| {
        payers := payers[|before.cashbook| := run];
      }
      assert (erp.Model(), outcome) == Attempt(before, CashCall(payment.item.id, payment.amount), delivery, last);
      if outcome.None? {
        pc := pc.(attempt := pc.attempt + 1);
      } else if outcome.value.Crash? {
        pc := CashCrashed(ApplyingCash);
      } else if outcome.value.ErpError? {
        pc := Paying(pc.left[1..], 0, pc.applied, pc.failures + [ApplicationFailed(payment.item.id)]);
      } else {
        pc := Paying(pc.left[1..], 0, pc.applied + [outcome.value.answer.application], pc.failures);
      }
      cash := cash[run := cash[run].(pc := pc)];
    }

    method FileRemittance(row: RemittanceRow, open: bool)
      requires Sound()
      modifies repo`remittances, repo`cases
      ensures Sound()
      ensures var filed := AddRemittance(old(Model()), row);
              Model() == if open then AddCase(filed, CaseRow(row.run, OpenCase)) else filed
    {
      hide ValidSeed, LedgerInv;
      repo.SaveRemittance(row);
      if open {
        repo.SaveException(CaseRow(row.run, OpenCase));
      }
    }

    method FinishCash(run: RunId, status: RunStatus, straightThrough: bool, io: Io)
      requires Sound() && run in cash
      modifies this`cash, repo`runs, repo`audit
      ensures Sound()
      ensures var logged := CashLog(old(Model()), run, CashApplied, io.audit);
              Model() == CashLeave(SetStatus(logged, run, status, Some(straightThrough), io.final),
                                   run, ApplyingCash, old(cash[run].ch), CashEnded, io)
    {
      hide ValidSeed, LedgerInv, SetStatus, CashLog, CashLeave;
      var ch := cash[run].ch;
      CashAudit(run, CashApplied, io.audit);
      SetRunStatus(run, status, Some(straightThrough), io.final);
      CashCheckpoint(run, ApplyingCash, ch, CashEnded, io);
    }

    method StoreResult(run: RunId, result: CashResult, io: Io)
      requires Sound() && run in cash
      modifies this`cash, repo`runs, repo`remittances, repo`cases, repo`audit
      ensures Sound() && Model() == StoreOutcome(old(Model()), run, result, io)
    {
      hide ValidSeed, LedgerInv, SetStatus, CashLog, CashLeave, AddCase, AddRemittance, PostsNothing;
      var row := RemittanceRow(run, result.straightThrough, result.applied, result.residual);
      var open := result.unresolved != [] && io.Saves();
      var status := if result.completed then Completed else AwaitingApproval;
      FileRemittance(row, open);
      FinishCash(run, status, result.straightThrough, io);
    }

    method CloseApplying(run: RunId, io: Io)
      requires Sound() && run in cash && cash[run].pc.Paying? && cash[run].pc.left == []
      requires cash[run].ch.remittance.Some?
      modifies this`cash, repo`runs, repo`remittances, repo`cases, repo`audit
      ensures Sound()
      ensures var pc := old(cash[run].pc);
              Model() == CloseCashStep(env, old(Model()), run, pc.applied, pc.failures, io)
    {
      hide ValidSeed, LedgerInv, StoreOutcome, PaymentsOf, Rounded, UnresolvedOf, ResidualOf;
      var ch, applied := cash[run].ch, cash[run].pc.applied;
      var _, unresolved, residual := MatchRemittance(env.text, ch.remittance.value, ch.items, env.cfg);
      unresolved := unresolved + cash[run].pc.failures;
      var straightThrough := applied != [] && unresolved == [];
      StoreResult(run, CashResult(false, applied, unresolved, residual, straightThrough, applied != []), io);
    }

    method FailCash(run: RunId, io: Io)
      requires Sound() && run in cash && cash[run].pc == CashAt(FailedCash)
      modifies this`cash, repo`runs
      ensures Sound() && Model() == FailCashStep(old(Model()), run, io)
    {
      hide ValidSeed, LedgerInv, SetStatus, CashLeave;
      SetRunStatus(run, Failed, None, io.status);
      CashCheckpoint(run, FailedCash, cash[run].ch.(error := true), CashEnded, io);
    }

    /** One payment, until an attempt at it is final. */
    method PayFully(run: RunId, deliveries: Deliveries)
      requires Sound() && run in cash && cash[run].pc.Paying? && cash[run].pc.left != []
      modifies this`cash, this`payers, erp
      ensures Sound() && run in cash && Model() == PayOne(old(Model()), run, deliveries, 0)
    {
      hide ValidSeed, LedgerInv, PayStep;
      var left, k, again := cash[run].pc.left, 0, true;
      while again
        invariant Sound() && run in cash && k <= MAX_ATTEMPTS
        invariant again ==> k < MAX_ATTEMPTS && cash[run].pc.Paying? && cash[run].pc.left == left
        invariant again ==> PayOne(Model(), run, deliveries, k) == PayOne(old(Model()), run, deliveries, 0)
        invariant !again ==> Model() == PayOne(old(Model()), run, deliveries, 0)
        decreases MAX_ATTEMPTS - k, again
      {
        PayOnce(run, deliveries[k]);
        k := k + 1;
        again := k < MAX_ATTEMPTS && cash[run].pc.Paying? && cash[run].pc.left == left;
      }
    }

    method PayEverything(run: RunId, weather: seq<Deliveries>)
      requires Sound() && run in cash
      modifies this`cash, this`payers, erp
      ensures Sound() && run in cash && Model() == PayAll(old(Model()), run, weather)
    {
      hide ValidSeed, LedgerInv, PayOne;
      var k := 0;
      assert weather[0..] == weather;
      while k < |weather| && cash[run].pc.Paying? && cash[run].pc.left != []
        invariant Sound() && run in cash && k <= |weather|
        invariant PayAll(Model(), run, weather[k..]) == PayAll(old(Model()), run, weather)
      {
        assert weather[k..][1..] == weather[k + 1..];
        PayFully(run, weather[k]);
        k := k + 1;
      }
    }

    /** The whole cash application node of a run nobody else gets between. */
    method ApplyRemittance(run: RunId, begin: Io, weather: seq<Deliveries>, close: Io)
      requires Valid() && run in cash && cash[run].pc == CashAt(ApplyingCash)
      modifies this`cash, this`payers, repo, erp
      ensures Valid() && Model() == CashNodeStep(env, old(Model()), run, begin, weather, close)
    {
      hide ValidSeed, LedgerInv, BeginCashStep, PayAll, CloseCashStep, Inv;
      CashNodeKeeps(env, Model(), run, begin, weather, close);
      BeginApplying(run, begin);
      PayEverything(run, weather);
      var p := cash[run];
      if p.pc.Paying? && p.pc.left == [] && p.ch.remittance.Some? {
        CloseApplying(run, close);
      }
    }

    // Whatever happens next

    /** The guard on resuming a run. */
    method CanResume(run: RunId) returns (resumable: bool)
      ensures resumable <==> Resumable(Model(), run)
    {
      if run !in repo.runs {
        return false;
      }
      var status := repo.runs[run].status;
      resumable := status == AwaitingApproval || status == RunStatus.Matching;
    }

    method HandleEnriching(e: Event)
      requires Sound() && RunOf(e).Some? && Enriches(e) && Enabled(Model(), e)
      modifies this`procs, repo
      ensures Sound() && Model() == RunStep(env, old(Model()), e)
    {
      hide ValidSeed, LedgerInv, Resumable, ParseStep, ExtractStep, PersistStep, DuplicateStep, VendorStep, FetchPoStep;
      match e {
        case DoParse(run, readable, io) => Parse(run, readable, io);
        case DoExtract(run, result, io) => ExtractInvoice(run, result, io);
        case DoPersist(run, io) => PersistInvoice(run, io);
        case DoDuplicateCheck(run, io) => DuplicateCheck(run, io);
        case DoResolveVendor(run, vendor, io) => ResolveVendor(run, vendor, io);
        case DoFetchPo(run, reply, io) => FetchPo(run, reply, io);
      }
    }

    method HandleDeciding(e: Event)
      requires Sound() && RunOf(e).Some? && !Enriches(e) && Enabled(Model(), e)
      modifies this`procs, this`owners, repo, erp
      ensures Sound() && Model() == RunStep(env, old(Model()), e)
    {
      hide ValidSeed, LedgerInv, Resumable, MatchStep, RaiseStep, ResumeStep, BeginPostStep, SendStep, RecordStep,
        RejectStep, FailStep, Move;
      match e {
        case DoMatch(run, io) => Match(run, io);
        case DoRaise(run, io) => RaiseException(run, io);
        case Resume(run, approve, io) => ResumeException(run, approve, io);
        case BeginPost(run, io) => BeginPosting(run, io);
        case Send(run, delivery) => SendOnce(run, delivery);
        case Record(run, io) => RecordPosting(run, io);
        case DoReject(run, io) => Reject(run, io);
        case DoFail(run, io) => Fail(run, io);
        case Die(run) => MoveTo(run, Crashed(NodeOf(procs[run].pc).value));
        case Redrive(run) => MoveTo(run, At(procs[run].pc.node));
      }
    }

    method HandleReceivable(e: Event)
      requires Sound() && CashRunOf(e).Some? && Enabled(Model(), e)
      modifies this`cash, this`payers, repo, erp
      ensures Sound() && Model() == CashStep(env, old(Model()), e)
    {
      hide ValidSeed, LedgerInv, Resumable, ParseCashStep, ExtractCashStep, FetchCashStep, BeginCashStep, PayStep,
        CloseCashStep, FailCashStep, CashMove;
      match e {
        case DoParseCash(run, readable, io) => ParseRemittance(run, readable, io);
        case DoExtractCash(run, found, io) => ExtractRemittance(run, found, io);
        case DoFetchCash(run, named, fails, io) => FetchItems(run, named, fails, io);
        case BeginCash(run, io) => BeginApplying(run, io);
        case Pay(run, delivery) => PayOnce(run, delivery);
        case CloseCash(run, io) => CloseApplying(run, io);
        case DoFailCash(run, io) => FailCash(run, io);
        case DieCash(run) => CashMoveTo(run, CashCrashed(CashNodeOf(cash[run].pc).value));
        case RedriveCash(run) => CashMoveTo(run, CashAt(cash[run].pc.node));
      }
    }

    /** Somebody else's request. */
    method Serve(op: Op)
      requires Sound()
      modifies erp
      ensures Sound() && Model() == old(Model()).(ledger := Do(old(Model()).ledger, env.seed, op))
    {
      hide ValidSeed, LedgerInv;
      match op {
        case PostOp(entry) => var _ := erp.PostJournalEntry(entry);
        case CashOp(id, amount) => var _ := erp.ApplyCashTo(id, amount);
        case ReseedOp => erp.ReseedAll();
      }
    }

    /** Any event: if it can happen it does, exactly as in the machine, and the invariant of the whole system stays. */
    method Handle(e: Event)
      requires Valid()
      modifies this, repo, erp
      ensures Valid() && Model() == Step(env, old(Model()), e)
    {
      hide ValidSeed, LedgerInv, Inv, RunStep, CashStep, StartStep, StartCashStep, Do, Awaits, CashAwaits, Resumable;
      StepKeeps(env, Model(), e);
      if e.External? {
        Serve(e.op);
      } else if e.Start? {
        if e.run !in procs && e.run !in cash {
          StartPayable(e.run, e.lands);
        }
      } else if e.StartCash? {
        if e.run !in procs && e.run !in cash {
          StartReceivable(e.run, e.lands);
        }
      } else {
        var resumable := CanResume(e.run);
        if RunOf(e).Some? {
          if e.run in procs && Awaits(procs[e.run].pc, e) && (e.Resume? || e.Redrive? ==> resumable) {
            if Enriches(e) {
              HandleEnriching(e);
            } else {
              HandleDeciding(e);
            }
          }
        } else if e.run in cash && CashAwaits(cash[e.run], e) && (e.RedriveCash? ==> resumable) {
          HandleReceivable(e);
        }
      }
    }
  }

  /** Any script of events, played from the start, leaves the objects where its execution ends. */
  method Play(env: Env, events: seq<Event>) returns (agent: Agent)
    requires ValidSeed(env.seed)
    ensures fresh(agent) && agent.env == env && agent.Valid() && agent.Model() == Execute(env, events)
  {
    hide ValidSeed, LedgerInv, Inv, Step;
    agent := new Agent(env);
    for k := 0 to |events|
      invariant fresh(agent) && fresh(agent.repo) && fresh(agent.erp)
      invariant agent.env == env && agent.Valid() && agent.Model() == Execute(env, events[..k])
    {
      assert events[..k + 1][..k] == events[..k];
      agent.Handle(events[k]);
    }
    assert events[..|events|] == events;
  }
}
