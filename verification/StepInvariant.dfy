/** Every step of every run keeps every run's invariant, and never lets a second run through on one key. */
module StepInvariant {
  import opened Prelude
  import opened Schemas
  import opened Journal
  import opened MockErp
  import opened Client
  import opened Matching
  import opened Confidence
  import opened Decide
  import opened Repository
  import opened Workflow
  import opened Views
  import opened RunInvariant

  /** Since w0 only one run moved, and it still satisfies its invariant. */
  ghost predicate Good(env: Env, w0: World, w: World, run: RunId, v: View) {
    Now(w0, w, run, v) && RunInv(env, run, v)
  }

  /** The key a run was let through on. */
  function ClearedKey(env: Env, p: Process): Option<string> {
    if p.cleared && p.ch.invoice.Some? then Some(Fingerprint(env.text, p.ch.invoice.value)) else None
  }

  lemma DoStatus(env: Env, w0: World, w: World, run: RunId, v: View, status: RunStatus, lands: bool)
    requires Good(env, w0, w, run, v) && !Terminal(status) && !Terminal(v.row.status)
    ensures Good(env, w0, SetStatus(w, run, status, None, lands), run, Statused(v, status, None, lands))
    ensures !Terminal(Statused(v, status, None, lands).row.status)
    ensures SameTold(v, Statused(v, status, None, lands))
  {
    hide RunInv, Changed;
    StatusEffect(w0, w, run, v, status, None, lands);
    StatusInv(env, run, v, status, lands);
  }

  lemma DoLog(env: Env, w0: World, w: World, run: RunId, v: View, action: Action, lands: bool)
    requires Good(env, w0, w, run, v)
    requires AskedHuman(action) ==> Stopped(v.process.ch)
    requires action == JournalPosted(false) ==> HumanDecision(true) in v.process.emitted
    requires action == JournalPosted(true) ==> Cleared(v.process.ch)
    ensures Good(env, w0, Log(w, run, action, lands), run, Logged(v, run, action, lands))
    ensures action != JournalPosted(true) ==> SameTold(v, Logged(v, run, action, lands))
  {
    hide RunInv, Changed;
    LogEffect(w0, w, run, v, action, lands);
    LogInv(env, run, v, action, lands);
  }

  lemma LeftTold(v: View, node: Node, ch: Channel, next: Pc, io: Io)
    ensures SameTold(v, Left(v, node, ch, next, io))
  {
  }

  lemma ToldTwice(v: View, mid: View, after: View)
    requires SameTold(v, mid) && SameTold(mid, after)
    ensures SameTold(v, after)
  {
  }

  lemma Unfinished(env: Env, run: RunId, v: View)
    requires RunInv(env, run, v) && !v.process.pc.Ended? && !v.process.pc.Crashed?
    ensures !Terminal(v.row.status) && !v.row.straightThrough
    ensures v.process.pc.Parked? || v.process.pc == At(RejectedNode) || v.process.pc == At(RaiseNode) ==>
            Stopped(v.process.ch)
  {
  }

  /** A status, then an event. */
  lemma EnterGood(
    env: Env, w: World, run: RunId, v: View, status: RunStatus, lands: bool, action: Action, logged: bool)
    requires Good(env, w, w, run, v) && !Terminal(status) && !v.process.pc.Ended? && !v.process.pc.Crashed?
    requires !AskedHuman(action) && !action.JournalPosted?
    ensures var w1 := SetStatus(w, run, status, None, lands);
            var v1 := Statused(v, status, None, lands);
            run in w1.procs && Good(env, w, Log(w1, run, action, logged), run, Logged(v1, run, action, logged))
    ensures run in w.procs && w.procs[run] == v.process
    ensures SameTold(v, Logged(Statused(v, status, None, lands), run, action, logged))
  {
    hide RunInv, Changed, SetStatus, Log;
    Unfinished(env, run, v);
    DoStatus(env, w, w, run, v, status, lands);
    DoLog(env, w, SetStatus(w, run, status, None, lands), run, Statused(v, status, None, lands), action, logged);
  }

  lemma ParseKeeps(env: Env, w: World, run: RunId, v: View, readable: bool, io: Io) returns (after: View)
    requires Good(env, w, w, run, v) && v.process.pc == At(ParseNode)
    ensures Good(env, w, ParseStep(w, run, readable, io), run, after)
    ensures ClearedKey(env, after.process) == ClearedKey(env, v.process)
    ensures SameTold(v, after)
    ensures after == Left(
              Logged(Statused(v, Parsing, None, io.status), run,
                     if readable then DocumentParsed else RunFailed, io.audit),
              ParseNode, v.process.ch.(error := !readable || v.process.ch.error),
              At(if readable then ExtractNode else FailedNode), io)
  {
    hide RunInv, Changed, Fingerprint, SetStatus, Log, Leave;
    var action := if readable then DocumentParsed else RunFailed;
    EnterGood(env, w, run, v, Parsing, io.status, action, io.audit);
    var w2 := Log(SetStatus(w, run, Parsing, None, io.status), run, action, io.audit);
    var v2 := Logged(Statused(v, Parsing, None, io.status), run, action, io.audit);
    var ch := if readable then v.process.ch else v.process.ch.(error := true);
    var next := if readable then At(ExtractNode) else At(FailedNode);
    LeaveEffect(w, w2, run, v2, ParseNode, ch, next, io);
    ParseInv(env, run, v2, readable, io);
    after := Left(v2, ParseNode, ch, next, io);
  }

  lemma ExtractKeeps(env: Env, w: World, run: RunId, v: View, result: Option<Invoice>, io: Io) returns (after: View)
    requires Good(env, w, w, run, v) && v.process.pc == At(ExtractNode)
    ensures Good(env, w, ExtractStep(w, run, result, io), run, after)
    ensures ClearedKey(env, after.process) == ClearedKey(env, v.process)
    ensures SameTold(v, after)
    ensures after == Left(
              Logged(Statused(v, Extracting, None, io.status), run,
                     if result.Some? then FieldsExtracted else RunFailed, io.audit),
              ExtractNode,
              if result.Some? then v.process.ch.(invoice := Some(result.value.(confidence := Score(result.value))))
              else v.process.ch.(error := true),
              At(if result.Some? then PersistNode else FailedNode), io)
  {
    hide RunInv, Changed, Fingerprint, SetStatus, Log, Leave;
    var found := if result.Some? then Some(result.value.(confidence := Score(result.value))) else None;
    var action := if result.Some? then FieldsExtracted else RunFailed;
    EnterGood(env, w, run, v, Extracting, io.status, action, io.audit);
    var w2 := Log(SetStatus(w, run, Extracting, None, io.status), run, action, io.audit);
    var v2 := Logged(Statused(v, Extracting, None, io.status), run, action, io.audit);
    var ch := if found.Some? then v.process.ch.(invoice := found) else v.process.ch.(error := true);
    var next := if found.Some? then At(PersistNode) else At(FailedNode);
    LeaveEffect(w, w2, run, v2, ExtractNode, ch, next, io);
    ExtractInv(env, run, v2, found, io);
    after := Left(v2, ExtractNode, ch, next, io);
  }

  lemma PersistKeeps(env: Env, w: World, run: RunId, v: View, io: Io) returns (after: View)
    requires Good(env, w, w, run, v) && v.process.pc == At(PersistNode)
    ensures Good(env, w, PersistStep(env, w, run, io), run, after)
    ensures ClearedKey(env, after.process) == ClearedKey(env, v.process)
    ensures SameTold(v, after)
    ensures v.process.ch.invoice.Some?
    ensures after == Left(v.(keys := v.keys + {Fingerprint(env.text, v.process.ch.invoice.value)}), PersistNode,
                          v.process.ch, At(DuplicateNode), io)
  {
    hide RunInv, Changed, Fingerprint, SetStatus, Log, Leave, Stopped, Cleared;
    PersistInv(env, run, v, io);
    var key := Fingerprint(env.text, v.process.ch.invoice.value);
    AddInvoiceEffect(w, w, run, v, key);
    var v1 := v.(keys := v.keys + {key});
    LeaveEffect(w, AddInvoice(w, InvoiceRow(run, key)), run, v1, PersistNode, v.process.ch, At(DuplicateNode), io);
    after := Left(v1, PersistNode, v.process.ch, At(DuplicateNode), io);
  }

  lemma HasInvoice(env: Env, run: RunId, v: View)
    requires RunInv(env, run, v) && 2 <= Stage(v.process.pc) <= 7
    ensures v.process.ch.invoice.Some?
  {
  }

  lemma DuplicateKeeps(env: Env, w: World, run: RunId, v: View, io: Io) returns (after: View)
    requires Good(env, w, w, run, v) && v.process.pc == At(DuplicateNode)
    ensures Good(env, w, DuplicateStep(env, w, run, io), run, after)
    ensures var key := ClearedKey(env, after.process);
            key.Some? ==> FindDuplicate(w.tables.invoices, key.value, run).None?
    ensures SameTold(v, after)
    ensures v.process.ch.invoice.Some?
    ensures var found := FindDuplicate(w.tables.invoices, Fingerprint(env.text, v.process.ch.invoice.value), run);
            var original := if found.Some? then Some(w.tables.invoices[found.value].run) else None;
            var logged := Logged(v, run, DuplicateChecked, io.audit);
            after == Left(logged.(process := logged.process.(cleared := original.None? && io.survives)), DuplicateNode,
                          v.process.ch.(duplicateOf := original), At(VendorNode), io)
  {
    hide RunInv, Changed, Fingerprint, SetStatus, Log, Stopped, Cleared;
    HasInvoice(env, run, v);
    var found := FindDuplicate(w.tables.invoices, Fingerprint(env.text, v.process.ch.invoice.value), run);
    var original := if found.Some? then Some(w.tables.invoices[found.value].run) else None;
    DoLog(env, w, w, run, v, DuplicateChecked, io.audit);
    var w1, v1 := Log(w, run, DuplicateChecked, io.audit), Logged(v, run, DuplicateChecked, io.audit);
    DuplicateInv(env, run, v1, original, io);
    ClearEffect(w, w1, run, v1, original.None? && io.survives);
    var v2 := v1.(process := v1.process.(cleared := original.None? && io.survives));
    NotYetCleared(env, run, v1);
    LeaveEffect(w, if original.None? then Clear(w1, run, io.survives) else w1, run, v2, DuplicateNode,
                v.process.ch.(duplicateOf := original), At(VendorNode), io);
    after := Left(v2, DuplicateNode, v.process.ch.(duplicateOf := original), At(VendorNode), io);
  }

  lemma NotYetCleared(env: Env, run: RunId, v: View)
    requires RunInv(env, run, v) && v.process.pc == At(DuplicateNode)
    ensures v.process.(cleared := false) == v.process && v.(process := v.process.(cleared := false)) == v
  {
  }

  lemma VendorKeeps(env: Env, w: World, run: RunId, v: View, vendor: Option<string>, io: Io) returns (after: View)
    requires Good(env, w, w, run, v) && v.process.pc == At(VendorNode)
    ensures Good(env, w, VendorStep(w, run, vendor, io), run, after)
    ensures ClearedKey(env, after.process) == ClearedKey(env, v.process)
    ensures SameTold(v, after)
    ensures after == Left(Logged(v, run, VendorResolved, io.audit), VendorNode, v.process.ch.(vendor := vendor),
                          At(FetchPoNode), io)
  {
    hide RunInv, Changed, Fingerprint, SetStatus, Log, Leave, Stopped, Cleared;
    HasInvoice(env, run, v);
    DoLog(env, w, w, run, v, VendorResolved, io.audit);
    var w1, v1 := Log(w, run, VendorResolved, io.audit), Logged(v, run, VendorResolved, io.audit);
    VendorInv(env, run, v1, vendor, io);
    LeaveEffect(w, w1, run, v1, VendorNode, v.process.ch.(vendor := vendor), At(FetchPoNode), io);
    after := Left(v1, VendorNode, v.process.ch.(vendor := vendor), At(FetchPoNode), io);
  }

  /** The lookup's outcome in the trail, and the receipts' when they were asked for. */
  lemma FetchLogged(env: Env, w: World, run: RunId, v: View, action: Action, receiptsToo: bool, io: Io)
      returns (v2: View)
    requires Good(env, w, w, run, v) && !AskedHuman(action) && !action.JournalPosted?
    ensures var w1 := Log(w, run, action, io.audit);
            run in w1.procs &&
            Good(env, w, if receiptsToo then Log(w1, run, GoodsReceiptFetched, io.final) else w1, run, v2)
    ensures v2.process.ch == v.process.ch && v2.process.pc == v.process.pc && v2.process.cleared == v.process.cleared
    ensures SameTold(v, v2)
    ensures v2 == if receiptsToo then Logged(Logged(v, run, action, io.audit), run, GoodsReceiptFetched, io.final)
                  else Logged(v, run, action, io.audit)
  {
    hide RunInv, Changed, Log;
    DoLog(env, w, w, run, v, action, io.audit);
    v2 := Logged(v, run, action, io.audit);
    if receiptsToo {
      DoLog(env, w, Log(w, run, action, io.audit), run, v2, GoodsReceiptFetched, io.final);
      v2 := Logged(v2, run, GoodsReceiptFetched, io.final);
    }
  }

  lemma FetchKeeps(env: Env, w: World, run: RunId, v: View, reply: PoReply, io: Io) returns (after: View)
    requires Good(env, w, w, run, v) && v.process.pc == At(FetchPoNode)
    ensures Good(env, w, FetchPoStep(w, run, reply, io), run, after)
    ensures ClearedKey(env, after.process) == ClearedKey(env, v.process)
    ensures SameTold(v, after)
    ensures v.process.ch.invoice.Some?
    ensures var asked := Truthy(v.process.ch.invoice.value.purchaseOrderNumber);
            after ==
            if asked && reply.PoFound? && reply.order.goodsReceiptRequired then
              Left(Logged(Logged(v, run, PoFetched, io.audit), run, GoodsReceiptFetched, io.final), FetchPoNode,
                   v.process.ch.(order := Some(reply.order), receipts := reply.receipts), At(MatchingNode), io)
            else if asked && reply.PoFound? then
              Left(Logged(v, run, PoFetched, io.audit), FetchPoNode,
                   v.process.ch.(order := Some(reply.order), receipts := []), At(MatchingNode), io)
            else if asked && reply.PoUnavailable? then
              Left(Logged(v, run, RunFailed, io.audit), FetchPoNode,
                   v.process.ch.(order := None, receipts := [], error := true), At(MatchingNode), io)
            else
              Left(Logged(v, run, PoFetched, io.audit), FetchPoNode,
                   v.process.ch.(order := None, receipts := []), At(MatchingNode), io)
  {
    hide RunInv, Changed, Fingerprint, Log, Leave, SameTold, Logged, Stopped, Cleared;
    HasInvoice(env, run, v);
    NoError(env, run, v);
    var asked := Truthy(v.process.ch.invoice.value.purchaseOrderNumber);
    var action := if asked && reply.PoUnavailable? then RunFailed else PoFetched;
    var found := asked && reply.PoFound?;
    var receiptsToo := found && reply.order.goodsReceiptRequired;
    var v2 := FetchLogged(env, w, run, v, action, receiptsToo, io);
    var w1 := Log(w, run, action, io.audit);
    var w2 := if receiptsToo then Log(w1, run, GoodsReceiptFetched, io.final) else w1;
    var order, receipts := if found then Some(reply.order) else None, if receiptsToo then reply.receipts else [];
    var ch := v.process.ch.(order := order, receipts := receipts, error := action == RunFailed);
    FetchInv(env, run, v2, order, receipts, action == RunFailed, io);
    LeaveEffect(w, w2, run, v2, FetchPoNode, ch, At(MatchingNode), io);
    after := Left(v2, FetchPoNode, ch, At(MatchingNode), io);
    LeftTold(v2, FetchPoNode, ch, At(MatchingNode), io);
    ToldTwice(v, v2, after);
  }

  lemma NoError(env: Env, run: RunId, v: View)
    requires RunInv(env, run, v) && Stage(v.process.pc) <= 5
    ensures !v.process.ch.error
  {
  }

  /** The report is saved and audited. */
  lemma MatchSaved(env: Env, w: World, run: RunId, v: View, io: Io) returns (after: View)
    requires Good(env, w, w, run, v) && v.process.pc == At(MatchingNode) && io.Saves()
    ensures v.process.ch.invoice.Some?
    ensures Good(env, w, MatchStep(env, w, run, io), run, after)
    ensures ClearedKey(env, after.process) == ClearedKey(env, v.process)
    ensures SameTold(v, after)
    ensures var report := ReportOf(env, v.process.ch);
            var ch := v.process.ch.(report := Some(report));
            var next := At(if ch.error then FailedNode else if report.IsPostable() then PostNode else RaiseNode);
            var seen := Statused(v, RunStatus.Matching, None, io.status);
            after == Left(Logged(seen.(reports := seen.reports + {report}), run, MatchEvaluated, io.audit),
                          MatchingNode, ch, next, io)
  {
    hide RunInv, Changed, Fingerprint, SetStatus, Log, Leave, ReportOf, AddMatch, Stopped, Cleared, Statused;
    HasInvoice(env, run, v);
    var report := ReportOf(env, v.process.ch);
    MatchStored(w, run, v, report, io);
    MatchStays(env, run, v, io);
    var w1 := SetStatus(w, run, RunStatus.Matching, None, io.status);
    var v1 := Statused(v, RunStatus.Matching, None, io.status);
    after := MatchLeaves(w, Log(AddMatch(w1, MatchRow(run, report)), run, MatchEvaluated, io.audit), run,
                         Logged(v1.(reports := v1.reports + {report}), run, MatchEvaluated, io.audit), report, io);
  }

  /** The status, the report and the event, on the run's view. */
  lemma MatchStored(w: World, run: RunId, v: View, report: MatchReport, io: Io)
    requires Now(w, w, run, v)
    ensures var w1 := SetStatus(w, run, RunStatus.Matching, None, io.status);
            var v1 := Statused(v, RunStatus.Matching, None, io.status);
            && v1.process == v.process && run in AddMatch(w1, MatchRow(run, report)).procs
            && Now(w, Log(AddMatch(w1, MatchRow(run, report)), run, MatchEvaluated, io.audit), run,
                   Logged(v1.(reports := v1.reports + {report}), run, MatchEvaluated, io.audit))
  {
    hide Changed, SetStatus, Log, AddMatch;
    StatusEffect(w, w, run, v, RunStatus.Matching, None, io.status);
    var w1 := SetStatus(w, run, RunStatus.Matching, None, io.status);
    var v1 := Statused(v, RunStatus.Matching, None, io.status);
    AddMatchEffect(w, w1, run, v1, report);
    LogEffect(w, AddMatch(w1, MatchRow(run, report)), run, v1.(reports := v1.reports + {report}), MatchEvaluated,
              io.audit);
  }

  lemma MatchStays(env: Env, run: RunId, v: View, io: Io)
    requires RunInv(env, run, v) && v.process.pc == At(MatchingNode)
    ensures v.process.ch.invoice.Some?
    ensures var report := ReportOf(env, v.process.ch);
            var ch := v.process.ch.(report := Some(report));
            var v1 := Statused(v, RunStatus.Matching, None, io.status);
            && RunInv(env, run, Left(Logged(v1.(reports := v1.reports + {report}), run, MatchEvaluated, io.audit),
                                     MatchingNode, ch, At(RouteAfterMatch(ch)), io))
            && SameTold(v, Left(Logged(v1.(reports := v1.reports + {report}), run, MatchEvaluated, io.audit),
                                MatchingNode, ch, At(RouteAfterMatch(ch)), io))
  {
    hide RunInv, ReportOf, Stopped, Cleared, RouteAfterMatch;
    Unfinished(env, run, v);
    StatusInv(env, run, v, RunStatus.Matching, io.status);
    var v1 := Statused(v, RunStatus.Matching, None, io.status);
    LogInv(env, run, v1, MatchEvaluated, io.audit);
    MatchInv(env, run, Logged(v1, run, MatchEvaluated, io.audit), io);
  }

  lemma MatchKeeps(env: Env, w: World, run: RunId, v: View, io: Io) returns (after: View)
    requires Good(env, w, w, run, v) && v.process.pc == At(MatchingNode)
    ensures Good(env, w, MatchStep(env, w, run, io), run, after)
    ensures ClearedKey(env, after.process) == ClearedKey(env, v.process)
    ensures SameTold(v, after)
    ensures v.process.ch.invoice.Some?
    ensures var report := ReportOf(env, v.process.ch);
            var ch := v.process.ch.(report := Some(report));
            var next := At(if ch.error then FailedNode else if report.IsPostable() then PostNode else RaiseNode);
            var seen := Statused(v, RunStatus.Matching, None, io.status);
            after ==
            if io.Saves() then
              Left(Logged(seen.(reports := seen.reports + {report}), run, MatchEvaluated, io.audit), MatchingNode, ch,
                   next, io)
            else Left(Logged(seen, run, MatchEvaluated, false), MatchingNode, ch, next, io)
  {
    hide RunInv, Changed, Fingerprint, SetStatus, Log, Leave, NodeReport, AddMatch;
    HasInvoice(env, run, v);
    if io.Saves() {
      after := MatchSaved(env, w, run, v, io);
    } else {
      EnterGood(env, w, run, v, RunStatus.Matching, io.status, MatchEvaluated, false);
      var w2 := Log(SetStatus(w, run, RunStatus.Matching, None, io.status), run, MatchEvaluated, false);
      var v2 := Logged(Statused(v, RunStatus.Matching, None, io.status), run, MatchEvaluated, false);
      Unfinished(env, run, v2);
      MoveInv(env, run, v2, Crashed(MatchingNode));
      after := MatchLeaves(w, w2, run, v2, ReportOf(env, v.process.ch), io);
    }
  }

  lemma MatchLeaves(w0: World, w: World, run: RunId, v: View, report: MatchReport, io: Io) returns (after: View)
    requires Now(w0, w, run, v)
    ensures var ch := v.process.ch.(report := Some(report));
            && after == Left(v, MatchingNode, ch, At(RouteAfterMatch(ch)), io)
            && Now(w0, Leave(w, run, MatchingNode, ch, At(RouteAfterMatch(ch)), io), run, after)
  {
    hide Changed;
    var ch := v.process.ch.(report := Some(report));
    LeaveEffect(w0, w, run, v, MatchingNode, ch, At(RouteAfterMatch(ch)), io);
    after := Left(v, MatchingNode, ch, At(RouteAfterMatch(ch)), io);
  }

  lemma RaiseKeeps(env: Env, w: World, run: RunId, v: View, io: Io) returns (after: View)
    requires Good(env, w, w, run, v) && v.process.pc == At(RaiseNode)
    ensures Good(env, w, RaiseStep(w, run, io), run, after)
    ensures ClearedKey(env, after.process) == ClearedKey(env, v.process)
    ensures SameTold(v, after)
    ensures var told := Logged(Statused(v, AwaitingApproval, None, io.status), run, ExceptionRaised, io.audit);
            after == told.(process := told.process.(pc := if io.survives then Parked else Crashed(RaiseNode)))
  {
    hide RunInv, Changed, Fingerprint, SetStatus, Log, Leave, Move, AddCase;
    Unfinished(env, run, v);
    AddCaseEffect(w, w, run, v, CaseRow(run, OpenCase));
    var w0 := AddCase(w, CaseRow(run, OpenCase));
    DoStatus(env, w, w0, run, v, AwaitingApproval, io.status);
    var w1, v1 := SetStatus(w0, run, AwaitingApproval, None, io.status), Statused(v, AwaitingApproval, None, io.status);
    DoLog(env, w, w1, run, v1, ExceptionRaised, io.audit);
    var w2, v2 := Log(w1, run, ExceptionRaised, io.audit), Logged(v1, run, ExceptionRaised, io.audit);
    var next := if io.survives then Parked else Crashed(RaiseNode);
    RaiseInv(env, run, v2, io);
    MoveEffect(w, w2, run, v2, next);
    after := v2.(process := v2.process.(pc := next));
  }

  /** The interrupted node from its top, up to the interrupt. */
  lemma ReplayGood(env: Env, w: World, run: RunId, v: View, io: Io)
    requires Good(env, w, w, run, v) && v.process.pc == Parked
    ensures var w1 := SetStatus(AddCase(w, CaseRow(run, OpenCase)), run, AwaitingApproval, None, io.status);
            var v1 := Statused(v, AwaitingApproval, None, io.status);
            run in w1.procs &&
            Good(env, w, Log(w1, run, ExceptionRaised, io.audit), run, Logged(v1, run, ExceptionRaised, io.audit))
    ensures SameTold(v, Logged(Statused(v, AwaitingApproval, None, io.status), run, ExceptionRaised, io.audit))
  {
    hide RunInv, Changed, Fingerprint, SetStatus, Log, AddCase;
    Unfinished(env, run, v);
    AddCaseEffect(w, w, run, v, CaseRow(run, OpenCase));
    var w0 := AddCase(w, CaseRow(run, OpenCase));
    DoStatus(env, w, w0, run, v, AwaitingApproval, io.status);
    DoLog(env, w, SetStatus(w0, run, AwaitingApproval, None, io.status), run,
          Statused(v, AwaitingApproval, None, io.status), ExceptionRaised, io.audit);
  }

  lemma DecideGood(env: Env, w0: World, w: World, run: RunId, v: View, approve: bool, io: Io) returns (after: View)
    requires Good(env, w0, w, run, v) && v.process.pc == Parked
    requires HumanDecision(approve) in v.process.emitted
    ensures Good(env, w0,
                 if io.survives
                 then Leave(w, run, RaiseNode, v.process.ch.(decision := Some(approve), caseId := true),
                            At(if approve then PostNode else RejectedNode), io)
                 else Move(w, run, Parked), run, after)
    ensures ClearedKey(env, after.process) == ClearedKey(env, v.process)
    ensures SameTold(v, after)
    ensures after == if io.survives
                     then Left(v, RaiseNode, v.process.ch.(decision := Some(approve), caseId := true),
                               At(if approve then PostNode else RejectedNode), io)
                     else v
  {
    hide RunInv, Changed, Fingerprint;
    var ch := v.process.ch.(decision := Some(approve), caseId := true);
    var next := At(if approve then PostNode else RejectedNode);
    if io.survives {
      DecideInv(env, run, v, approve, io);
      LeaveEffect(w0, w, run, v, RaiseNode, ch, next, io);
      after := Left(v, RaiseNode, ch, next, io);
    } else {
      after := ParkedGood(env, w0, w, run, v);
    }
  }

  lemma ParkedGood(env: Env, w0: World, w: World, run: RunId, v: View) returns (after: View)
    requires Good(env, w0, w, run, v) && v.process.pc == Parked
    ensures Good(env, w0, Move(w, run, Parked), run, after)
    ensures after == v
  {
    hide RunInv, Changed;
    MoveEffect(w0, w, run, v, Parked);
    assert v.(process := v.process.(pc := Parked)) == v;
    after := v;
  }

  /** Past the interrupt: the case closed, the decision told, and the node left or died in. */
  lemma ClosedGood(env: Env, w0: World, w: World, run: RunId, v: View, i: nat, approve: bool, io: Io)
      returns (after: View)
    requires Good(env, w0, w, run, v) && v.process.pc == Parked && Stopped(v.process.ch)
    ensures var closed := CloseCase(w, i, if approve then Approved else RejectedCase);
            && run in closed.procs
            && var told := Log(closed, run, HumanDecision(approve), io.final);
               Good(env, w0,
                    if io.survives
                    then Leave(told, run, RaiseNode, v.process.ch.(decision := Some(approve), caseId := true),
                               At(if approve then PostNode else RejectedNode), io)
                    else Move(told, run, Parked), run, after)
    ensures ClearedKey(env, after.process) == ClearedKey(env, v.process)
    ensures SameTold(v, after)
    ensures var decided := Logged(v, run, HumanDecision(approve), io.final);
            after == if io.survives
                     then Left(decided, RaiseNode, v.process.ch.(decision := Some(approve), caseId := true),
                               At(if approve then PostNode else RejectedNode), io)
                     else decided
  {
    hide RunInv, Changed, Fingerprint, Log, Leave, Move, CloseCase, Stopped, Cleared, SameTold, Left;
    var status := if approve then Approved else RejectedCase;
    CloseCaseEffect(w0, w, run, v, i, status);
    var closed := CloseCase(w, i, status);
    DoLog(env, w0, closed, run, v, HumanDecision(approve), io.final);
    var v3 := Logged(v, run, HumanDecision(approve), io.final);
    after := DecideGood(env, w0, Log(closed, run, HumanDecision(approve), io.final), run, v3, approve, io);
    ToldTwice(v, v3, after);
  }

  lemma ResumeKeeps(env: Env, w: World, run: RunId, v: View, approve: bool, io: Io) returns (after: View)
    requires Good(env, w, w, run, v) && v.process.pc == Parked
    ensures Good(env, w, ResumeStep(w, run, approve, io), run, after)
    ensures ClearedKey(env, after.process) == ClearedKey(env, v.process)
    ensures SameTold(v, after)
    ensures var told := Logged(Statused(v, AwaitingApproval, None, io.status), run, ExceptionRaised, io.audit);
            var decided := Logged(told, run, HumanDecision(approve), io.final);
            after ==
            if !io.Saves() then told
            else if !io.survives then decided
            else Left(decided, RaiseNode, v.process.ch.(decision := Some(approve), caseId := true),
                      At(if approve then PostNode else RejectedNode), io)
  {
    hide RunInv, Changed, Fingerprint, SetStatus, Log, Leave, Move, AddCase, CloseCase, Stopped, Cleared, SameTold,
      Left;
    Unfinished(env, run, v);
    ReplayGood(env, w, run, v, io);
    var w1 := SetStatus(AddCase(w, CaseRow(run, OpenCase)), run, AwaitingApproval, None, io.status);
    var w2 := Log(w1, run, ExceptionRaised, io.audit);
    var v2 := Logged(Statused(v, AwaitingApproval, None, io.status), run, ExceptionRaised, io.audit);
    if io.Saves() {
      after := ClosedGood(env, w, w2, run, v2, |w.tables.cases|, approve, io);
      ToldTwice(v, v2, after);
    } else {
      after := ParkedGood(env, w, w2, run, v2);
    }
  }

  lemma BeginBalanced(env: Env, w: World, run: RunId, v: View, io: Io) returns (after: View)
    requires Good(env, w, w, run, v) && v.process.pc == At(PostNode)
    ensures v.process.ch.invoice.Some?
    ensures var entry := RunEntry(env, v.process.ch, run);
            entry.IsBalanced() ==>
              && Good(env, w, Move(SetStatus(w, run, RunStatus.Posting, None, io.status), run,
                                   if io.survives then Sending(entry, 0) else Crashed(PostNode)), run, after)
              && ClearedKey(env, after.process) == ClearedKey(env, v.process) && SameTold(v, after)
              && var begun := Statused(v, RunStatus.Posting, None, io.status);
                 after == begun.(process := begun.process.(
                                   pc := if io.survives then Sending(entry, 0) else Crashed(PostNode)))
  {
    hide RunInv, Changed, Fingerprint, SetStatus, Move, EntryOf;
    Unfinished(env, run, v);
    DoStatus(env, w, w, run, v, RunStatus.Posting, io.status);
    var w1, v1 := SetStatus(w, run, RunStatus.Posting, None, io.status),
        Statused(v, RunStatus.Posting, None, io.status);
    BeginInv(env, run, v1, io);
    var entry := RunEntry(env, v.process.ch, run);
    var next := if io.survives then Sending(entry, 0) else Crashed(PostNode);
    MoveEffect(w, w1, run, v1, next);
    after := v1.(process := v1.process.(pc := next));
  }

  lemma BeginKeeps(env: Env, w: World, run: RunId, v: View, io: Io) returns (after: View)
    requires Good(env, w, w, run, v) && v.process.pc == At(PostNode)
    ensures Good(env, w, BeginPostStep(env, w, run, io), run, after)
    ensures ClearedKey(env, after.process) == ClearedKey(env, v.process)
    ensures SameTold(v, after)
    ensures v.process.ch.invoice.Some?
    ensures var entry := RunEntry(env, v.process.ch, run);
            var begun := Statused(v, RunStatus.Posting, None, io.status);
            after ==
            if entry.IsBalanced() then
              begun.(process := begun.process.(pc := if io.survives then Sending(entry, 0) else Crashed(PostNode)))
            else
              Left(Statused(Logged(begun, run, RunFailed, io.audit), Failed, None, io.final), PostNode,
                   v.process.ch.(error := true), Ended, io)
  {
    hide RunInv, Changed, Fingerprint, SetStatus, Log, Move, Leave, RunEntry, SameTold;
    after := BeginBalanced(env, w, run, v, io);
    if !RunEntry(env, v.process.ch, run).IsBalanced() {
      EnterGood(env, w, run, v, RunStatus.Posting, io.status, RunFailed, io.audit);
      var w2 := Log(SetStatus(w, run, RunStatus.Posting, None, io.status), run, RunFailed, io.audit);
      var v2 := Logged(Statused(v, RunStatus.Posting, None, io.status), run, RunFailed, io.audit);
      Unfinished(env, run, v2);
      after := AbandonGood(env, w, w2, run, v2, io);
      ToldTwice(v, v2, after);
    }
  }

  lemma AbandonGood(env: Env, w0: World, w: World, run: RunId, v: View, io: Io) returns (after: View)
    requires Good(env, w0, w, run, v) && (v.process.pc == At(PostNode) || v.process.pc.Sent?) && !Terminal(v.row.status)
    ensures var w1 := SetStatus(w, run, Failed, None, io.final);
            run in w1.procs &&
            Good(env, w0, Leave(w1, run, PostNode, v.process.ch.(error := true), Ended, io), run, after)
    ensures ClearedKey(env, after.process) == ClearedKey(env, v.process)
    ensures SameTold(v, after)
    ensures after == Left(Statused(v, Failed, None, io.final), PostNode, v.process.ch.(error := true), Ended, io)
  {
    hide RunInv, Changed, Fingerprint, SetStatus, Log, Leave, Stopped, Cleared;
    StatusEffect(w0, w, run, v, Failed, None, io.final);
    var w1, v1 := SetStatus(w, run, Failed, None, io.final), Statused(v, Failed, None, io.final);
    AbandonInv(env, run, v, io);
    LeaveEffect(w0, w1, run, v1, PostNode, v.process.ch.(error := true), Ended, io);
    after := Left(v1, PostNode, v.process.ch.(error := true), Ended, io);
  }

  /** One attempt at the ERP books nothing, or the one document the entry asks for. */
  lemma AttemptEffect(l: Ledger, entry: JournalEntry, delivery: Delivery, last: bool)
    requires DocumentsInv(l)
    ensures var (after, outcome) := Attempt(l, PostCall(entry), delivery, last);
            && DocumentsInv(after) && after.cashbook == l.cashbook
            && (after == l || (
                  var d := Post(l, entry).1;
                  && d.Created? && after.archive == l.archive + [d.document]
                  && Books(d.document, entry)))
            && (outcome.None? ==> !last)
            && (outcome.Some? && outcome.value.Success? ==>
                  after != l && outcome.value.answer == DocumentAnswer(Post(l, entry).1.document))
  {
    hide Post, DocumentsInv;
    PostEffect(l, entry);
    PostKeepsDocuments(l, entry);
  }

  /** What one attempt makes of a run's view: the documents created, and where it stands. */
  lemma SentViews(w: World, run: RunId, v: View, delivery: Delivery) returns (created: set<Document>)
    requires Now(w, w, run, v) && v.process.pc.Sending? && DocumentsInv(w.ledger)
    ensures var pc := v.process.pc;
            var (ledger, outcome) := Attempt(w.ledger, PostCall(pc.entry), delivery, pc.attempt == MAX_ATTEMPTS - 1);
            var after := SendStep(w, run, pc.entry, pc.attempt, delivery);
            && run in after.procs && after.ledger == ledger
            && Now(w, after, run,
                   v.(documents := v.documents + created, process := v.process.(pc := after.procs[run].pc)))
            && (ledger == w.ledger ==> created == {})
            && (ledger != w.ledger ==>
                  Post(w.ledger, pc.entry).1.Created? && created == {Post(w.ledger, pc.entry).1.document})
  {
    hide Changed, Attempt, Post, DocumentsInv;
    var entry, k := v.process.pc.entry, v.process.pc.attempt;
    AttemptEffect(w.ledger, entry, delivery, k == MAX_ATTEMPTS - 1);
    var (ledger, outcome) := Attempt(w.ledger, PostCall(entry), delivery, k == MAX_ATTEMPTS - 1);
    var next := SendStep(w, run, entry, k, delivery).procs[run].pc;
    if ledger == w.ledger {
      created := {};
      MoveEffect(w, w, run, v, next);
      assert v.documents + created == v.documents;
    } else {
      var document := Post(w.ledger, entry).1.document;
      created := {document};
      BookedNow(w, run, v, ledger, document);
      MoveEffect(w, w.(ledger := ledger, owners := w.owners[|w.ledger.archive| := run]), run,
                 v.(documents := v.documents + created), next);
    }
  }

  lemma BookedNow(w: World, run: RunId, v: View, ledger: Ledger, document: Document)
    requires Now(w, w, run, v) && ledger.archive == w.ledger.archive + [document]
    requires ledger.cashbook == w.ledger.cashbook
    ensures Now(w, w.(ledger := ledger, owners := w.owners[|w.ledger.archive| := run]), run,
                v.(documents := v.documents + {document}))
  {
    hide Keys, Reports, JournalsOf, DocumentsOf, RemittancesOf, MadeBy, Trail, Numbered;
    BookEffect(w, run, ledger, document);
    Compose(w, w, run, v, w.(ledger := ledger, owners := w.owners[|w.ledger.archive| := run]),
            v.(documents := v.documents + {document}));
  }

  lemma SendKeeps(env: Env, w: World, run: RunId, v: View, delivery: Delivery) returns (after: View)
    requires Good(env, w, w, run, v) && v.process.pc.Sending? && DocumentsInv(w.ledger)
    ensures var next := SendStep(w, run, v.process.pc.entry, v.process.pc.attempt, delivery);
            Good(env, w, next, run, after) && DocumentsInv(next.ledger)
    ensures ClearedKey(env, after.process) == ClearedKey(env, v.process)
    ensures SameTold(v, after)
  {
    hide RunInv, Changed, Fingerprint, Attempt, Post, DocumentsInv;
    var entry, k := v.process.pc.entry, v.process.pc.attempt;
    SendingEntry(env, run, v);
    AttemptEffect(w.ledger, entry, delivery, k == MAX_ATTEMPTS - 1);
    var (ledger, outcome) := Attempt(w.ledger, PostCall(entry), delivery, k == MAX_ATTEMPTS - 1);
    var next := SendStep(w, run, entry, k, delivery).procs[run].pc;
    var created := SentViews(w, run, v, delivery);
    after := v.(documents := v.documents + created, process := v.process.(pc := next));
    SendInv(env, run, v, created, next);
  }

  lemma SendingEntry(env: Env, run: RunId, v: View)
    requires RunInv(env, run, v) && v.process.pc.Sending?
    ensures v.process.ch.invoice.Some? && v.process.pc.attempt < MAX_ATTEMPTS
  {
  }

  lemma BookedDocument(env: Env, run: RunId, v: View, document: Document)
    requires RunInv(env, run, v) && v.process.pc == Sent(Posting.Booked(document))
    ensures document in v.documents
  {
  }

  lemma RecordTold(v: View, after: View, run: RunId, io: Io)
    requires !v.row.straightThrough
            && after.process.emitted == v.process.emitted + [JournalPosted(!v.process.ch.caseId)]
    requires after.row.straightThrough == (if io.final then !v.process.ch.caseId else v.row.straightThrough)
    ensures v.process.ch.caseId ==> SameTold(v, after)
  {
  }

  /** The last write and the last checkpoint of a run that posted. */
  lemma CompleteGood(env: Env, w0: World, w: World, run: RunId, v: View, io: Io) returns (after: View)
    requires Good(env, w0, w, run, v) && v.process.pc.Sent? && !Terminal(v.row.status)
    requires exists j :: j in v.journals && j.posted
    requires JournalPosted(!v.process.ch.caseId) in v.process.emitted
    ensures var w1 := SetStatus(w, run, Completed, Some(!v.process.ch.caseId), io.final);
            && run in w1.procs
            && Good(env, w0, Leave(w1, run, PostNode, v.process.ch, Ended, io), run, after)
    ensures ClearedKey(env, after.process) == ClearedKey(env, v.process)
    ensures after == Left(Statused(v, Completed, Some(!v.process.ch.caseId), io.final),
                          PostNode, v.process.ch, Ended, io)
  {
    hide RunInv, Changed, Fingerprint, SetStatus, Leave;
    var flag := Some(!v.process.ch.caseId);
    StatusEffect(w0, w, run, v, Completed, flag, io.final);
    var w1, v1 := SetStatus(w, run, Completed, flag, io.final), Statused(v, Completed, flag, io.final);
    CompleteInv(env, run, v, io);
    LeaveEffect(w0, w1, run, v1, PostNode, v.process.ch, Ended, io);
    after := Left(v1, PostNode, v.process.ch, Ended, io);
  }

  lemma RecordBookedKeeps(env: Env, w: World, run: RunId, v: View, document: Document, io: Io) returns (after: View)
    requires Good(env, w, w, run, v) && v.process.pc == Sent(Posting.Booked(document))
    ensures Good(env, w, RecordBooked(w, run, document, io), run, after)
    ensures ClearedKey(env, after.process) == ClearedKey(env, v.process)
    ensures v.process.ch.caseId ==> SameTold(v, after)
    ensures var row := JournalRow(run, true, document.number, document.reference, document.total);
            var flag := !v.process.ch.caseId;
            after == Left(Statused(Logged(v.(journals := v.journals + {row}), run, JournalPosted(flag), io.audit),
                                   Completed, Some(flag), io.final),
                          PostNode, v.process.ch, Ended, io)
  {
    hide RunInv, Changed, Fingerprint, SetStatus, Log, Leave, AddJournal, AddsJournal, PostsNothing, Stopped, Cleared,
      SameTold;
    var straightThrough := !v.process.ch.caseId;
    var row := JournalRow(run, true, document.number, document.reference, document.total);
    Unfinished(env, run, v);
    BookedDocument(env, run, v, document);
    assert Mirrors(row, document);
    AddJournalEffect(w, w, run, v, row);
    var w1, v1 := AddJournal(w, row), v.(journals := v.journals + {row});
    JournalInv(env, run, v, row);
    ApprovedOrCleared(env, run, v1);
    DoLog(env, w, w1, run, v1, JournalPosted(straightThrough), io.audit);
    var w2, v2 := Log(w1, run, JournalPosted(straightThrough), io.audit),
        Logged(v1, run, JournalPosted(straightThrough), io.audit);
    assert row in v2.journals;
    after := CompleteGood(env, w, w2, run, v2, io);
    RecordTold(v, after, run, io);
  }

  lemma RecordRefusalKeeps(env: Env, w: World, run: RunId, v: View, io: Io) returns (after: View)
    requires Good(env, w, w, run, v) && v.process.pc == Sent(Refusal)
    requires v.process.ch.invoice.Some?
    ensures Good(env, w, RecordRefusal(env, w, run, io), run, after)
    ensures ClearedKey(env, after.process) == ClearedKey(env, v.process)
    ensures SameTold(v, after)
    ensures var entry := RunEntry(env, v.process.ch, run);
            var row := JournalRow(run, false, "", entry.reference, entry.Debits());
            after == Left(Statused(Logged(v.(journals := v.journals + {row}), run, RunFailed, io.audit), Failed, None,
                                   io.final),
                          PostNode, v.process.ch.(error := true), Ended, io)
  {
    hide RunInv, Changed, Fingerprint, SetStatus, Log, AddJournal, AddCase, Stopped, Cleared, RunEntry;
    var entry := RunEntry(env, v.process.ch, run);
    var row := JournalRow(run, false, "", entry.reference, entry.Debits());
    AddJournalEffect(w, w, run, v, row);
    var w1, v1 := AddJournal(w, row), v.(journals := v.journals + {row});
    JournalInv(env, run, v, row);
    ApprovedOrCleared(env, run, v1);
    AddCaseEffect(w, w1, run, v1, CaseRow(run, OpenCase));
    var w2 := if io.Saves() then AddCase(w1, CaseRow(run, OpenCase)) else w1;
    DoLog(env, w, w2, run, v1, RunFailed, io.audit);
    after := AbandonGood(env, w, Log(w2, run, RunFailed, io.audit), run, Logged(v1, run, RunFailed, io.audit), io);
  }

  lemma MoveKeeps(env: Env, w: World, run: RunId, v: View, next: Pc) returns (after: View)
    requires Good(env, w, w, run, v)
    requires NodeOf(v.process.pc).Some? && NodeOf(next) == NodeOf(v.process.pc) && (next.Crashed? || next.At?)
    requires Terminal(v.row.status) ==> next == v.process.pc
    ensures Good(env, w, Move(w, run, next), run, after)
    ensures ClearedKey(env, after.process) == ClearedKey(env, v.process)
    ensures SameTold(v, after)
    ensures after == v.(process := v.process.(pc := next))
  {
    hide RunInv, Changed, Fingerprint;
    MoveEffect(w, w, run, v, next);
    MoveInv(env, run, v, next);
    after := v.(process := v.process.(pc := next));
  }

  lemma RecordKeeps(env: Env, w: World, run: RunId, v: View, io: Io) returns (after: View)
    requires Good(env, w, w, run, v) && v.process.pc.Sent?
    ensures Good(env, w, RecordStep(env, w, run, v.process.pc.posting, io), run, after)
    ensures ClearedKey(env, after.process) == ClearedKey(env, v.process)
    ensures v.process.pc.posting.Refusal? || v.process.ch.caseId || HasJournal(w.tables.journals, run) ==>
              SameTold(v, after)
    ensures v.process.ch.invoice.Some?
    ensures var flag, posting := !v.process.ch.caseId, v.process.pc.posting;
            after ==
            if HasJournal(w.tables.journals, run) then v.(process := v.process.(pc := Crashed(PostNode)))
            else if posting.Booked? then
              var d := posting.document;
              var row := JournalRow(run, true, d.number, d.reference, d.total);
              Left(Statused(Logged(v.(journals := v.journals + {row}), run, JournalPosted(flag), io.audit),
                            Completed, Some(flag), io.final),
                   PostNode, v.process.ch, Ended, io)
            else
              var entry := RunEntry(env, v.process.ch, run);
              var row := JournalRow(run, false, "", entry.reference, entry.Debits());
              Left(Statused(Logged(v.(journals := v.journals + {row}), run, RunFailed, io.audit), Failed, None,
                            io.final),
                   PostNode, v.process.ch.(error := true), Ended, io)
  {
    hide RunInv, Changed, Fingerprint, RecordBooked, RecordRefusal, Move;
    ApprovedOrCleared(env, run, v);
    if HasJournal(w.tables.journals, run) {
      after := MoveKeeps(env, w, run, v, Crashed(PostNode));
    } else {
      match v.process.pc.posting {
        case Booked(document) => after := RecordBookedKeeps(env, w, run, v, document, io);
        case Refusal => after := RecordRefusalKeeps(env, w, run, v, io);
      }
    }
  }

  lemma RejectKeeps(env: Env, w: World, run: RunId, v: View, io: Io) returns (after: View)
    requires Good(env, w, w, run, v) && v.process.pc == At(RejectedNode)
    ensures Good(env, w, RejectStep(w, run, io), run, after)
    ensures ClearedKey(env, after.process) == ClearedKey(env, v.process)
    ensures SameTold(v, after)
    ensures after == Left(Logged(Statused(v, Rejected, None, io.status), run, HumanDecision(false), io.audit),
                          RejectedNode, v.process.ch, Ended, io)
  {
    hide RunInv, Changed, Fingerprint, SetStatus, Log, Leave, Stopped, Cleared;
    Unfinished(env, run, v);
    StatusEffect(w, w, run, v, Rejected, None, io.status);
    var w1, v1 := SetStatus(w, run, Rejected, None, io.status), Statused(v, Rejected, None, io.status);
    LogEffect(w, w1, run, v1, HumanDecision(false), io.audit);
    var w2, v2 := Log(w1, run, HumanDecision(false), io.audit), Logged(v1, run, HumanDecision(false), io.audit);
    RejectInv(env, run, v, io);
    LeaveEffect(w, w2, run, v2, RejectedNode, v.process.ch, Ended, io);
    after := Left(v2, RejectedNode, v.process.ch, Ended, io);
  }

  lemma FailKeeps(env: Env, w: World, run: RunId, v: View, io: Io) returns (after: View)
    requires Good(env, w, w, run, v) && v.process.pc == At(FailedNode)
    ensures Good(env, w, FailStep(w, run, io), run, after)
    ensures ClearedKey(env, after.process) == ClearedKey(env, v.process)
    ensures SameTold(v, after)
    ensures after == Left(Statused(v, Failed, None, io.status), FailedNode, v.process.ch.(error := true), Ended, io)
  {
    hide RunInv, Changed, Fingerprint, SetStatus, Log, Leave, Stopped, Cleared;
    StatusEffect(w, w, run, v, Failed, None, io.status);
    var w1, v1 := SetStatus(w, run, Failed, None, io.status), Statused(v, Failed, None, io.status);
    FailInv(env, run, v, io);
    LeaveEffect(w, w1, run, v1, FailedNode, v.process.ch.(error := true), Ended, io);
    after := Left(v1, FailedNode, v.process.ch.(error := true), Ended, io);
  }
}
