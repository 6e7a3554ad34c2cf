/** The ERP client: up to three attempts at a request, over a channel that may lose either direction. */
module Client {
  import opened Prelude
  import opened Journal
  import opened MockErp

  const MAX_ATTEMPTS := 3

  datatype Call = PostCall(entry: JournalEntry) | CashCall(id: string, amount: real)

  datatype Answer = DocumentAnswer(document: Document) | ApplicationAnswer(application: Application) | ErrorAnswer

  /** What the channel does to one attempt. Lost and Unreached look alike to the client and are retried;
      Broken is any other transport failure; Refused is an error answer given before the endpoint acts. */
  datatype Delivery = Answered | Lost | Unreached | Broken(reached: bool) | Refused

  /** Crash is a timeout that outlives the last attempt: it is re-raised as it is, not as an ERP error. */
  datatype Outcome = Success(answer: Answer) | ErpError | Crash

  type Deliveries = ds: seq<Delivery> | |ds| == MAX_ATTEMPTS witness [Answered, Answered, Answered]

  function Serve(l: Ledger, call: Call): (Ledger, Answer) {
    match call
    case PostCall(entry) =>
      var (after, reply) := Post(l, entry);
      (after, if reply.Created? then DocumentAnswer(reply.document) else ErrorAnswer)
    case CashCall(id, amount) =>
      var (after, reply) := ApplyCash(l, id, amount);
      (after, if reply.Applied? then ApplicationAnswer(reply.application) else ErrorAnswer)
  }

  function OutcomeOf(answer: Answer): Outcome {
    if answer.ErrorAnswer? then ErpError else Success(answer)
  }

  /** One attempt; no outcome means try again. */
  function Attempt(l: Ledger, call: Call, delivery: Delivery, last: bool): (Ledger, Option<Outcome>) {
    match delivery
    case Answered => var (after, answer) := Serve(l, call); (after, Some(OutcomeOf(answer)))
    case Lost => (Serve(l, call).0, if last then Some(Crash) else None)
    case Unreached => (l, if last then Some(Crash) else None)
    case Broken(reached) => (if reached then Serve(l, call).0 else l, Some(ErpError))
    case Refused => (l, Some(ErpError))
  }

  function Via(l: Ledger, call: Call, deliveries: Deliveries, k: nat): (Ledger, Outcome)
    requires k < MAX_ATTEMPTS
    decreases MAX_ATTEMPTS - k
  {
    var (after, outcome) := Attempt(l, call, deliveries[k], k == MAX_ATTEMPTS - 1);
    if outcome.Some? then (after, outcome.value) else Via(after, call, deliveries, k + 1)
  }

  method Request(erp: Erp, call: Call, deliveries: Deliveries) returns (outcome: Outcome)
    requires erp.Valid()
    modifies erp
    ensures erp.Valid()
    ensures (erp.Model(), outcome) == Via(old(erp.Model()), call, deliveries, 0)
  {
    hide Post, ApplyCash, LedgerInv, ValidSeed;
    var k := 0;
    while true
      invariant erp.Valid() && k < MAX_ATTEMPTS
      invariant Via(erp.Model(), call, deliveries, k) == Via(old(erp.Model()), call, deliveries, 0)
      decreases MAX_ATTEMPTS - k
    {
      var delivery := deliveries[k];
      if delivery.Unreached? {
        if k == MAX_ATTEMPTS - 1 {
          return Crash;
        }
      } else if delivery.Refused? || delivery == Broken(false) {
        return ErpError;
      } else {
        var answer;
        match call {
          case PostCall(entry) =>
            var reply := erp.PostJournalEntry(entry);
            answer := if reply.Created? then DocumentAnswer(reply.document) else ErrorAnswer;
          case CashCall(id, amount) =>
            var reply := erp.ApplyCashTo(id, amount);
            answer := if reply.Applied? then ApplicationAnswer(reply.application) else ErrorAnswer;
        }
        if delivery.Answered? {
          return OutcomeOf(answer);
        }
        if delivery.Broken? {
          return ErpError;
        }
        if k == MAX_ATTEMPTS - 1 {
          return Crash;
        }
      }
      k := k + 1;
    }
  }

  // Posting through the channel

  predicate HasReference(l: Ledger, reference: string) {
    exists j :: 0 <= j < |l.journals| && l.journals[j].reference == reference
  }

  lemma PostEffect(l: Ledger, entry: JournalEntry)
    ensures var (after, reply) := Post(l, entry);
            && (reply.Created? ==>
                  && after.archive == l.archive + [reply.document] && after.journals == l.journals + [reply.document]
                  && Books(reply.document, entry)
                  && !HasReference(l, entry.reference) && HasReference(after, entry.reference))
            && (!reply.Created? ==> after == l) && after.cashbook == l.cashbook
            && (HasReference(l, entry.reference) ==> !reply.Created?)
  {
    var (after, reply) := Post(l, entry);
    if reply.Created? {
      assert after.journals[|l.journals|] == reply.document;
    }
  }

  /** A retried post books at most one document, and a reported success is that document.
      Once the reference is booked, no further attempt books it again or reports success. */
  lemma {:induction false} PostAtMostOnce(l: Ledger, entry: JournalEntry, deliveries: Deliveries, k: nat)
    requires k < MAX_ATTEMPTS
    ensures var (after, outcome) := Via(l, PostCall(entry), deliveries, k);
            && l.archive <= after.archive && |after.archive| <= |l.archive| + 1
            && (HasReference(l, entry.reference) ==> after == l && !outcome.Success?)
            && (outcome.Success? ==>
                  && outcome.answer.DocumentAnswer?
                  && after.archive == l.archive + [outcome.answer.document]
                  && outcome.answer.document in after.journals
                  && Books(outcome.answer.document, entry))
    decreases MAX_ATTEMPTS - k
  {
    hide Post;
    PostEffect(l, entry);
    var (next, step) := Attempt(l, PostCall(entry), deliveries[k], k == MAX_ATTEMPTS - 1);
    if step.None? {
      PostAtMostOnce(next, entry, deliveries, k + 1);
    }
  }

  /** The first attempt to reach the ERP reaches it without its answer coming back. */
  predicate Hides(ds: Deliveries, k: nat)
    requires k < MAX_ATTEMPTS
  {
    exists j :: k <= j < MAX_ATTEMPTS && HidesAt(ds, k, j)
  }

  predicate HidesAt(ds: Deliveries, k: nat, j: nat)
    requires k <= j < MAX_ATTEMPTS
  {
    (forall i :: k <= i < j ==> ds[i].Unreached?) && (ds[j].Lost? || ds[j] == Broken(true))
  }

  lemma HidesLater(ds: Deliveries, k: nat)
    requires k < MAX_ATTEMPTS
    ensures Hides(ds, k) <==>
            ds[k].Lost? || ds[k] == Broken(true) || (ds[k].Unreached? && k + 1 < MAX_ATTEMPTS && Hides(ds, k + 1))
  {
    if ds[k].Lost? || ds[k] == Broken(true) {
      assert HidesAt(ds, k, k);
    } else if ds[k].Unreached? && k + 1 < MAX_ATTEMPTS {
      if Hides(ds, k + 1) {
        var j :| k + 1 <= j < MAX_ATTEMPTS && HidesAt(ds, k + 1, j);
        assert HidesAt(ds, k, j);
      }
      if Hides(ds, k) {
        var j :| k <= j < MAX_ATTEMPTS && HidesAt(ds, k, j);
        assert HidesAt(ds, k + 1, j);
      }
    }
  }

  lemma {:induction false} RefusedStays(l: Ledger, entry: JournalEntry, ds: Deliveries, k: nat)
    requires k < MAX_ATTEMPTS && !Post(l, entry).1.Created?
    ensures Via(l, PostCall(entry), ds, k).0 == l && !Via(l, PostCall(entry), ds, k).1.Success?
    decreases MAX_ATTEMPTS - k
  {
    hide Post;
    PostEffect(l, entry);
    if (ds[k].Lost? || ds[k].Unreached?) && k + 1 < MAX_ATTEMPTS {
      RefusedStays(l, entry, ds, k + 1);
    }
  }

  /** The converse fails: a document is created without the client learning of it exactly when the ERP accepts the
      entry and the first attempt to reach it loses its answer. Only the first part can be known before the call. */
  lemma {:induction false} HiddenExactly(l: Ledger, entry: JournalEntry, ds: Deliveries, k: nat)
    requires k < MAX_ATTEMPTS
    ensures var (after, outcome) := Via(l, PostCall(entry), ds, k);
            && (after.archive != l.archive && !outcome.Success? <==> Post(l, entry).1.Created? && Hides(ds, k))
            && (Hides(ds, k) ==> after == Post(l, entry).0)
    decreases MAX_ATTEMPTS - k
  {
    hide Post, Hides;
    PostEffect(l, entry);
    HidesLater(ds, k);
    var next := Post(l, entry).0;
    if !Post(l, entry).1.Created? {
      RefusedStays(l, entry, ds, k);
    } else if ds[k].Lost? && k + 1 < MAX_ATTEMPTS {
      PostAtMostOnce(next, entry, ds, k + 1);
    } else if ds[k].Unreached? && k + 1 < MAX_ATTEMPTS {
      HiddenExactly(l, entry, ds, k + 1);
    }
  }

  /** Every attempt from k on times out, its request or its reply lost. */
  predicate TimesOut(ds: Deliveries, k: nat) {
    forall j :: k <= j < MAX_ATTEMPTS ==> ds[j].Lost? || ds[j].Unreached?
  }

  /** The client dies of a timeout, instead of reporting an error, exactly when every attempt times out. */
  lemma {:induction false} CrashExactly(l: Ledger, call: Call, ds: Deliveries, k: nat)
    requires k < MAX_ATTEMPTS
    ensures Via(l, call, ds, k).1 == Crash <==> TimesOut(ds, k)
    decreases MAX_ATTEMPTS - k
  {
    hide Serve;
    if (ds[k].Lost? || ds[k].Unreached?) && k + 1 < MAX_ATTEMPTS {
      CrashExactly(Attempt(l, call, ds[k], false).0, call, ds, k + 1);
    }
  }

  /** No check before the call excludes it: whatever the ERP would accept can be booked behind an error. */
  lemma ErrorMayHideDocument(l: Ledger, entry: JournalEntry)
    requires Post(l, entry).1.Created?
    ensures var (after, outcome) := Via(l, PostCall(entry), [Lost, Answered, Answered], 0);
            outcome == ErpError && after.archive == l.archive + [Post(l, entry).1.document]
  {
    hide Post;
    PostEffect(l, entry);
    PostEffect(Post(l, entry).0, entry);
  }

  lemma PostSucceeds(l: Ledger, entry: JournalEntry)
    requires entry.IsBalanced() && entry.lines != [] && !HasReference(l, entry.reference)
    ensures Post(l, entry).1.Created?
  {
  }
}
