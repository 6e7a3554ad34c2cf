/** The posting node of a run nobody else gets between, from building the journal to recording the ERP's answer. */
module PostingNode {
  import opened Journal
  import opened MockErp
  import opened Client
  import opened Repository
  import opened Workflow
  import opened WorkflowInvariant

  /** Attempts one after another until one is final. */
  function Resend(w: World, run: RunId, deliveries: Deliveries, k: nat): (after: World)
    requires run in w.procs && k <= MAX_ATTEMPTS
    ensures run in after.procs
    decreases MAX_ATTEMPTS - k
  {
    if k == MAX_ATTEMPTS || !w.procs[run].pc.Sending? then w
    else Resend(SendStep(w, run, w.procs[run].pc.entry, w.procs[run].pc.attempt, deliveries[k]), run, deliveries, k + 1)
  }

  function PostNodeStep(env: Env, w: World, run: RunId, begin: Io, deliveries: Deliveries, record: Io): World
    requires run in w.procs
  {
    var sent := Resend(BeginPostStep(env, w, run, begin), run, deliveries, 0);
    if sent.procs[run].pc.Sent? then RecordStep(env, sent, run, sent.procs[run].pc.posting, record) else sent
  }

  /** What the client's outcome makes of the run. */
  function AfterOutcome(outcome: Outcome): Pc {
    match outcome
    case Success(answer) => if answer.DocumentAnswer? then Sent(Booked(answer.document)) else Sent(Refusal)
    case ErpError => Sent(Refusal)
    case Crash => Crashed(PostNode)
  }

  /** The machine's separate attempts, with nobody in between, are the client's one request. */
  lemma {:induction false} AttemptsAreRequest(w: World, run: RunId, deliveries: Deliveries, k: nat)
    requires run in w.procs && k < MAX_ATTEMPTS
    requires w.procs[run].pc.Sending? && w.procs[run].pc.attempt == k
    ensures var (ledger, outcome) := Via(w.ledger, PostCall(w.procs[run].pc.entry), deliveries, k);
            var after := Resend(w, run, deliveries, k);
            && after.ledger == ledger && after.procs[run].pc == AfterOutcome(outcome)
            && after.tables == w.tables && after.procs[run].ch == w.procs[run].ch
    decreases MAX_ATTEMPTS - k
  {
    hide Post;
    var entry := w.procs[run].pc.entry;
    var next := SendStep(w, run, entry, k, deliveries[k]);
    if next.procs[run].pc.Sending? {
      AttemptsAreRequest(next, run, deliveries, k + 1);
    }
  }

  lemma ResendKeeps(env: Env, w: World, run: RunId, deliveries: Deliveries, k: nat)
    requires ValidSeed(env.seed) && Inv(env, w) && run in w.procs && k <= MAX_ATTEMPTS
    ensures Inv(env, Resend(w, run, deliveries, k))
    decreases MAX_ATTEMPTS - k
  {
    hide Inv, Attempt, ValidSeed, CashStep;
    if k < MAX_ATTEMPTS && w.procs[run].pc.Sending? {
      StepKeeps(env, w, Send(run, deliveries[k]));
      ResendKeeps(env, Step(env, w, Send(run, deliveries[k])), run, deliveries, k + 1);
    }
  }

  /** The whole posting node is a sequence of the machine's steps, so everything proved of executions holds after it. */
  lemma PostNodeKeeps(env: Env, w: World, run: RunId, begin: Io, deliveries: Deliveries, record: Io)
    requires ValidSeed(env.seed) && Inv(env, w) && run in w.procs && w.procs[run].pc == At(PostNode)
    ensures Inv(env, PostNodeStep(env, w, run, begin, deliveries, record))
  {
    hide Inv, BeginPostStep, RecordStep, Resend, ValidSeed, CashStep;
    StepKeeps(env, w, BeginPost(run, begin));
    var begun := Step(env, w, BeginPost(run, begin));
    ResendKeeps(env, begun, run, deliveries, 0);
    var sent := Resend(begun, run, deliveries, 0);
    if sent.procs[run].pc.Sent? {
      StepKeeps(env, sent, Record(run, record));
    }
  }

  lemma BeginsSending(env: Env, w: World, run: RunId, begin: Io)
    requires run in w.procs && run in w.tables.runs && w.procs[run].ch.invoice.Some? && begin.survives
    requires RunEntry(env, w.procs[run].ch, run).IsBalanced()
    ensures var begun := BeginPostStep(env, w, run, begin);
            && begun.procs[run].pc == Sending(RunEntry(env, w.procs[run].ch, run), 0)
            && begun.procs[run].ch == w.procs[run].ch
            && begun.tables.cases == w.tables.cases && run in begun.tables.runs
            && begun.tables.runs[run].status == if begin.status then RunStatus.Posting else w.tables.runs[run].status
  {
    hide EntryOf;
  }

  /** The node dies sending exactly when every attempt times out: without a case or a journal, with a document in the
      ERP if the first attempt to reach it did, and open to being resumed only if the status write was lost as well
      and the run could be resumed before. */
  lemma StrandsExactly(env: Env, w: World, run: RunId, begin: Io, ds: Deliveries, record: Io)
    requires run in w.procs && run in w.tables.runs && w.procs[run].ch.invoice.Some? && begin.survives
    requires RunEntry(env, w.procs[run].ch, run).IsBalanced()
    ensures var sent := Resend(BeginPostStep(env, w, run, begin), run, ds, 0);
            var after := PostNodeStep(env, w, run, begin, ds, record);
            && run in sent.procs && (sent.procs[run].pc == Crashed(PostNode) <==> TimesOut(ds, 0))
            && (TimesOut(ds, 0) ==>
                  && after == sent
                  && after.tables.journals == w.tables.journals && after.tables.cases == w.tables.cases
                  && (after.ledger.archive != w.ledger.archive <==>
                        Post(w.ledger, RunEntry(env, w.procs[run].ch, run)).1.Created? && Hides(ds, 0))
                  && (Resumable(after, run) <==> !begin.status && Resumable(w, run)))
  {
    hide RunEntry, Via, Resend, Post, Hides, TimesOut, BeginPostStep, RecordStep;
    BeginsSending(env, w, run, begin);
    var begun := BeginPostStep(env, w, run, begin);
    var entry := RunEntry(env, w.procs[run].ch, run);
    AttemptsAreRequest(begun, run, ds, 0);
    CrashExactly(w.ledger, PostCall(entry), ds, 0);
    HiddenExactly(w.ledger, entry, ds, 0);
  }

  /** A document was created and no journal row of the run says so. */
  predicate LeavesHidden(w: World, after: World, run: RunId) {
    after.ledger.archive != w.ledger.archive && !RecordedAsPosted(after, run)
  }

  /** The node leaves a document in the ERP that no journal row records as posted exactly when the ERP accepts the
      entry and the first attempt to reach it loses its answer. */
  lemma NodeHidesExactly(env: Env, w: World, run: RunId, begin: Io, ds: Deliveries, record: Io)
    requires run in w.procs && run in w.tables.runs && w.procs[run].ch.invoice.Some? && begin.survives
    requires RunEntry(env, w.procs[run].ch, run).IsBalanced() && !HasJournal(w.tables.journals, run)
    ensures LeavesHidden(w, PostNodeStep(env, w, run, begin, ds, record), run) <==>
            Post(w.ledger, RunEntry(env, w.procs[run].ch, run)).1.Created? && Hides(ds, 0)
  {
    hide RunEntry, Via, Resend, Post, Hides, BeginPostStep, HasJournal;
    BeginsSending(env, w, run, begin);
    var begun := BeginPostStep(env, w, run, begin);
    var entry := RunEntry(env, w.procs[run].ch, run);
    AttemptsAreRequest(begun, run, ds, 0);
    HiddenExactly(w.ledger, entry, ds, 0);
    PostAtMostOnce(w.ledger, entry, ds, 0);
    var sent := Resend(begun, run, ds, 0);
    NotYetRecorded(w, sent, run);
    if sent.procs[run].pc.Sent? {
      RecordedExactly(env, sent, run, sent.procs[run].pc.posting, record);
    }
  }

  predicate RecordedAsPosted(w: World, run: RunId) {
    exists row :: row in w.tables.journals && row.run == run && row.posted
  }

  lemma NotYetRecorded(w: World, after: World, run: RunId)
    requires !HasJournal(w.tables.journals, run) && after.tables.journals == w.tables.journals
    ensures !RecordedAsPosted(after, run) && !HasJournal(after.tables.journals, run)
  {
  }

  lemma RecordedExactly(env: Env, w: World, run: RunId, posting: Posting, io: Io)
    requires run in w.procs && w.procs[run].ch.invoice.Some? && !HasJournal(w.tables.journals, run)
    ensures var after := RecordStep(env, w, run, posting, io);
            after.ledger == w.ledger && (RecordedAsPosted(after, run) <==> posting.Booked?)
  {
    hide RunEntry, MaxSequence;
    var after := RecordStep(env, w, run, posting, io);
    var n := |w.tables.journals|;
    assert after.tables.journals == w.tables.journals + [after.tables.journals[n]];
    assert after.tables.journals[n] in after.tables.journals;
  }
}
