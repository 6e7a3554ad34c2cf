# Invoice agent: a verified model

The invoice agent reads supplier invoices, matches them against purchase orders and goods receipts, and posts
payment journals to an ERP, on its own when everything agrees and after a human decision when something does not.
It also applies customers' remittances to open receivables. This project models two layers of it and proves what
they guarantee, alone and together.

**The decision kernel** (`Money`, `Tolerance`, `Pairing`, `Receipts`, `Matching`, `Confidence`, `Decide`, `Journal`,
`Remittances`) is the deterministic arithmetic: rounding, tolerances, greedy line pairing over a consumed set,
three-way matching, gates, journal derivation, remittance allocation. Its loops are methods proved against
specification functions. `Reports` and `Signals`, and for the journal, the remittance, the duplicate key and the ERP the
lemmas whose names end in `Exactly`, say on the inputs' own fields what those functions compute; `Verdict`,
`OrderIndependence`, `OrderHistory` and `Leakage` draw the conclusions.

**The workflow** (`Repository`, `MockErp`, `Client`, `Receivable`, `Workflow`, `Nodes`) is the stateful part. Tables
and ERP are classes updated in place. The machine in `Workflow` interleaves any number of payable and receivable runs
freely; steps within a run are serial. Every status or audit write may be swallowed, every request or reply lost,
every process may die inside any node and be driven again, and other clients use the ERP meanwhile. `Nodes` holds the
graphs' nodes as methods of an agent: each requires that its run stands at it and does to the whole exactly what one
step of the machine does, so `Handle` makes exactly the machine's step for any event and keeps the invariant of the
whole system, and `Play` ends where the machine's execution ends. `PostingNode` and `PayingNode` put the separate
attempts of a node back together into the client's retried requests. `Views`, `RunInvariant`, `StepInvariant`,
`CashViews`, `CashInvariant` and `WorkflowInvariant` prove one invariant over all executions; `Guarantees`,
`CashGuarantees`, `Failures`, `CashFailures`, `Rates`, `Lifecycle`, `CashLifecycle`, `Exposure`, `QuietRun` and
`RepeatBilling` draw the conclusions.

The main results:

- **Money without a human.** They are stated on the documents the ERP holds, so no lost reply, row or flag can hide
  one. Each document nobody decided on was matched on an order without a single exception, not a duplicate, its vendor
  known unless none was printed; its total is the amount matched, positive, under the ceiling and within tolerance
  (`UnattendedDocument`); what it bills is bounded by what was ordered (`UnattendedLeakage`); and all of them together
  are at most the ceiling for each distinct invoice (`UnattendedExposure`). Conversely, when nothing goes wrong around
  it, an invoice goes straight through exactly when it is acceptable, its vendor is known or not printed, and its
  journal balances (`StraightThroughExactly`).
- **One order, many invoices.** The engine looks at neither the order's status nor what was already invoiced nor whom
  the order was placed with (`VerdictIgnoresHistory`). So several invoices on one order each go straight through exactly
  when they would alone (`NoMemoryOfBilling`), and the money on an order is bounded only by its own limit for each
  distinct invoice matched on it (`OrderExposure`); and a payment can go to another vendor than the order's
  (`VendorNeverCompared`).
- **The duplicate protocol.** Because a run stores its key before it reads the others', at most one run per key is let
  through (`OneClearedPerKey`): in every execution exactly the run whose check nobody else's row preceded
  (`ClearedExactly`), and possibly none (`BothMayStop`). Which invoices share a key is exact too, a separator inside a
  vendor's name included (`KeysShared`).
- **Payments.** The ERP never holds two documents for one payment within a seed (`ErpNeverHoldsTwo`), nothing is there
  without a clean match or an approval (`NoDocumentWithoutWarrant`), and every journal recorded as posted is
  (`PostedRowsHaveDocuments`). The converse fails exactly when the ERP accepts the entry and the first attempt to reach
  it loses its answer (`HiddenExactly`, `NodeHidesExactly`); no check before the call excludes that
  (`ErrorMayHideDocument`). Retried posts book once (`PostAtMostOnce`); a retried cash application counts once exactly
  when it pays nothing or all that is open (`CashOnceExactly`). The reference is cut to 80 characters and its slash is
  not escaped, which decides exactly which invoices share one (`ReferencesShared`, `ReferenceTellsNumbersApart`).
- **Receivables.** The cash node checks a remittance against the items as they were fetched and never looks at how much
  a call applied, so a run whose items somebody else paid down meanwhile goes straight through with the rest missing
  (`ShortfallGoesThrough`, `ShortfallIsFlagged`). What is declared is covered but for that shortfall
  (`StraightThroughCoversDeclared`), which is none exactly when every item is still open as far as its payment goes
  (`NoShortfallExactly`, `CoverageExactly`). In every execution, what a flagged run declared is what it applied and what
  its items did not cover when each was taken (`FlaggedRemittance`), on applications the ERP made for that run
  (`StoredApplications`). Without negative amounts nothing is over-applied (`NothingOverApplied`); with one it can be,
  and exactly when is stated too (`SettledExactly`).
- **Matching.** Each of the twelve kinds of exception is reported exactly for what it is meant for (`RaisedExactly`),
  so no line of a three-way match is billed beyond what arrived (`BillsWhatArrived`). The verdict is a declarative
  predicate (`VerdictExact`), monotone in every setting (`LooseningOnlyRemoves`), indifferent to the order of lines
  and to how deliveries are booked (`OrderIndependent`, `RebookingChangesNothing`), with an exact acceptance region
  for each rounded test and an aggregate bound on what can leak through (`LeakageBound`).
- **Runs.** An unreadable document, a failed extraction or a failed order lookup never leads to a decision or a
  posting, nor a failed remittance to cash applied, whatever follows (`ErrorsNeverPost`, `CashErrorsNeverPay`); a
  missing order is no error and goes to a human (`MissingOrderAsks`). Routing, termination of payable and receivable
  runs, terminal rows, and the audit trail, under swallowed writes (`Lifecycle`, `CashLifecycle`).

Where the code and its documentation disagree, the model follows the code:

- The exception node says nothing above its interrupt runs again. The case identifier only enters the state when the
  node returns, so a resumed node files a second case and decides that one. No case once filed is ever changed by a
  later event (`CasesNeverChange`): one the queue has shown open stays open for ever (`FirstCaseStaysOpen`).
- The duplicate key is described as vendor, number and total. It hashes the total's text, so 10.0 and 10.00 differ
  (`FingerprintComparesTexts`).
- The straight-through rate is said to be unable to drift from the trail. It drifts both ways. It counts the postings
  whose last status write landed and no others (`FlagExactly`), and it counts receivable runs, which set the flag on a
  clean remittance and never post a journal (`CountedReceivable`, `CashFlagExactly`). The count is right exactly
  when the lost flags are as many as the flagged receivable runs (`CountExactly`).
- An unreachable ERP is documented to end in a posting-failed case with the run preserved. The last timeout is
  re-raised as it is: exactly when every attempt times out, the node dies without a case or a journal, with a document
  in the ERP if one of the lost replies was to an accepted entry, and in a status from which the run can be resumed only
  if the status write was lost too (`StrandsExactly`).

What the model takes as given:

- Amounts are exact rationals and rounding to cents is written out. The decimal library's 28-digit context and its
  NaN are abstracted away. Confidence scores are rationals rounded half-even to four digits instead of binary floats.
- Case folding, stripping and the fuzzy similarity score are arbitrary functions: every result holds for all of them.
- The fingerprint is the text that is hashed, so two keys are equal exactly when those texts are.
- Extraction, parsing, vendor and customer resolution and the order lookup arrive as arbitrary inputs of an event.
- Run identifiers are fresh; rows of one table are stored in commit order, and a time filter is a position in it.
- A seed has distinct, non-empty order numbers, distinct receivable ids, no order already invoiced and every
  receivable fully open (`ValidSeed`).
- Each repository commit and each ERP endpoint is atomic. A node between two waits on the ERP is one event: it
  writes only its own run's rows (`StepFrame`), so finer interleavings with other runs differ only in the order of
  unrelated rows. The receivables of a remittance are fetched at one moment. A run may die before a node, after any of
  its swallowed writes, or after its last write.
- A crashed run whose status still allows it may be driven again and then re-executes the node it died in; whether
  the graph library ever does so is left open, and the results hold either way.

## Model

| member | source | states |
|---|---|---|
| `Money.QIsNearestCent` | src/invoice_agent/matching/engine.py:24-25 | Rounding to cents is characterised, both ways: the nearest cent, and of two equally near the one further from zero. |
| `Money.QError` | src/invoice_agent/matching/engine.py:24-25 | A rounded amount is a whole number of cents at most half a cent away. |
| `Money.QMonotone` | src/invoice_agent/matching/engine.py:24-25 | Rounding keeps order. |
| `Money.QOfCents` | src/invoice_agent/matching/engine.py:24-25 | An amount already in cents is left as it is. |
| `Money.QAtMost` | src/invoice_agent/matching/engine.py:44-49 | Exactly which unrounded amounts a rounded one stays at or below a threshold for. |
| `Money.HalfEvenIsNearest` | src/invoice_agent/ingestion/confidence.py:67-68 | Half-even rounding is characterised, both ways: the nearest whole number, and of two equally near the even one. |
| `Money.QEvenIsNearest` | src/invoice_agent/schemas/invoice.py:129-132 | So is the decimal library's default rounding to cents. |
| `Tolerance.PercentExact` | src/invoice_agent/matching/engine.py:37-45 | The rounded percentage test in unrounded terms, including the zero reference that counts as 0% or 100%. |
| `Tolerance.VarianceExact` | src/invoice_agent/matching/engine.py:28-54 | The exact acceptance region: within tolerance if and only if the difference is inside the absolute tolerance or strictly inside the widened percentage. |
| `Tolerance.PriceExact` | src/invoice_agent/matching/engine.py:57-91 | The exact acceptance region of the price test, which weighs the value at stake over the whole line against the absolute tolerance. |
| `Tolerance.ImpactExact` | src/invoice_agent/matching/engine.py:68-78 | The rounded value-at-risk test in unrounded terms. |
| `Tolerance.VarianceSymmetric` | src/invoice_agent/matching/engine.py:28-54 | Over- and undercharges of one size get the same verdict and the same percentage. |
| `Pairing.SortHead` | src/invoice_agent/matching/engine.py:144-146 | The head of the stable descending sort is the first element attaining the maximum score. |
| `Pairing.PairLineIsGreedy` | src/invoice_agent/matching/engine.py:104-148 | The three-tier selection meets the declarative greedy description: first free number match, else first free code match, else the first free best description at 75 or more, else none. |
| `Pairing.GreedyChoiceUnique` | src/invoice_agent/matching/engine.py:104-148 | That description has exactly one answer on every input, and it is the one the selection returns. |
| `Pairing.ConsumedExact` | src/invoice_agent/matching/engine.py:161-182 | The numbers out of play are exactly those of the lines paired so far. |
| `Pairing.PairsInjective` | src/invoice_agent/matching/engine.py:151-182 | No purchase order line number is paired twice, for any invoice and any order, repeated numbers included. |
| `Pairing.PairingUnique` | src/invoice_agent/matching/engine.py:151-182 | The whole pairing said without the functions: exactly one sequence of partners gives every line the partner of the greedy description among the order lines whose numbers no earlier line took, and it is the one computed. |
| `Receipts.ReceivedQuantities` | src/invoice_agent/matching/engine.py:94-101 | The nested accumulation loop computes the received quantities of all receipt lines. |
| `Receipts.ReceivedExact` | src/invoice_agent/matching/engine.py:94-101 | Each mentioned line number maps to the sum over every receipt line naming it; unmentioned numbers are absent. |
| `Receipts.ReceivedPermutation` | src/invoice_agent/matching/engine.py:94-101 | Neither the order of receipt lines nor which receipt carries them matters. |
| `Receipts.ReceivedSplit` | src/invoice_agent/matching/engine.py:94-101 | Booking one delivery in two parts changes nothing. |
| `Receipts.LinesGather` | src/invoice_agent/matching/engine.py:94-101 | All lines of all receipts count, receipt after receipt. |
| `Receipts.QuantityForAdds` | src/invoice_agent/matching/engine.py:94-101 | The quantity booked for a number is the sum of the quantities of the receipt lines that name it. |
| `Matching.MatchLine` | src/invoice_agent/matching/engine.py:165-243 | Judging one line gives the specified line match and its exceptions, what was received taken from the receipts, or from the order when no receipt names the line. |
| `Matching.MatchLines` | src/invoice_agent/matching/engine.py:151-245 | The loop that grows the consumed set returns every line's match and all line exceptions in line order. |
| `Matching.CheckHeader` | src/invoice_agent/matching/engine.py:276-318 | The header checks append the specified exceptions and variances: missing receipt, currency, total, tax. |
| `Matching.CheckGates` | src/invoice_agent/matching/engine.py:327-340 | The confidence and ceiling gates append their exceptions. |
| `Matching.MatchInvoice` | src/invoice_agent/matching/engine.py:248-364 | The whole match returns the specified report, with exceptions deduplicated in order of first appearance. |
| `Prelude.DedupSameElements` | src/invoice_agent/matching/engine.py:342-342 | Removing repeated exceptions keeps exactly the elements, each once. |
| `Prelude.DedupKeepsOrder` | src/invoice_agent/matching/engine.py:342-342 | Removing repeated exceptions keeps them in order of first appearance. |
| `Verdict.VerdictExact` | src/invoice_agent/matching/engine.py:248-364 | Postable if and only if no exceptions, if and only if a declarative predicate over order, receipts, currency, total, tax, lines, confidence and ceiling holds; what was received is looked up by number, and in the order when no receipt names it. |
| `Verdict.LinesVerdict` | src/invoice_agent/matching/engine.py:151-245 | No line exceptions if and only if every line is paired, priced and counted acceptably and, for a three-way match, bills at most what was received under its number, or what the order records when nothing was. |
| `Verdict.HeaderVerdict` | src/invoice_agent/matching/engine.py:276-318 | No header exceptions if and only if receipts, currency, total and tax are acceptable. |
| `Verdict.OutcomeExact` | src/invoice_agent/matching/engine.py:342-350 | Of acceptable invoices, exactly those without a visible header difference are reported as exact matches. |
| `Verdict.LooseningOnlyRemoves` | src/invoice_agent/matching/engine.py:248-364 | Looser tolerances, a higher ceiling or a lower confidence threshold never add an exception, so what was postable stays postable. |
| `OrderIndependence.PairedWithQuoted` | src/invoice_agent/matching/engine.py:111-122 | When lines quote distinct numbers that exist on an order with unique numbers, every line is paired with the one it quotes. |
| `OrderIndependence.LineExceptionsMove` | src/invoice_agent/matching/engine.py:151-245 | A line keeps its own exceptions wherever it stands on the invoice. |
| `OrderIndependence.OrderIndependent` | src/invoice_agent/matching/engine.py:151-245 | Permuting such invoice lines and re-booking the deliveries in any way that keeps what was received of each line leaves exceptions, outcome, amount and header variances unchanged. |
| `OrderIndependence.RebookingChangesNothing` | src/invoice_agent/matching/engine.py:94-101 | For any invoice, receipts with the same quantities received of each line give the same report but for the receipt numbers it lists. |
| `OrderIndependence.SplittingChangesNothing` | src/invoice_agent/matching/engine.py:94-101 | So a delivery booked in two parts gives the same report as booked in one. |
| `Leakage.LineCap` | src/invoice_agent/matching/engine.py:57-91 | One accepted line bills at most its order line with price and quantity both stretched to their limits, plus the absolute slack. |
| `Leakage.PartnersDistinct` | src/invoice_agent/matching/engine.py:163-182 | The partners of an acceptable invoice's lines are distinct order lines. |
| `Leakage.LeakageBound` | src/invoice_agent/matching/engine.py:57-91 | For symbolic tolerances, a postable invoice bills at most the stretched order plus the slack per line, on no more lines than the order has. |
| `Leakage.DefaultLeakageBound` | src/invoice_agent/matching/engine.py:151-245 | With the shipped tolerances the bound is 1.02005 times 1.00005 times the ordered value plus 5.005 per line. |
| `Leakage.UnguardedLeaks` | src/invoice_agent/matching/engine.py:57-91 | Each condition of the bound is needed: outside it a postable invoice can exceed the allowance by any amount. |
| `Confidence.ScoreExtraction` | src/invoice_agent/ingestion/confidence.py:17-68 | Each of the seven signals is filled in with its own evidence, each lies between 0 and 1, and the weighted, rounded score is returned; what each signal measures and weighs is stated in Signals. |
| `Confidence.ScoreInUnit` | src/invoice_agent/ingestion/confidence.py:17-68 | The score lies between 0 and 1. |
| `Confidence.SelfReportInfluence` | src/invoice_agent/ingestion/confidence.py:56-68 | The score grows with the model's own confidence and moves by at most 0.15 plus rounding. |
| `Confidence.GateReachable` | src/invoice_agent/ingestion/confidence.py:17-68 | Some self-report reaches 0.75 if and only if the other evidence is worth at least 0.59995. |
| `Confidence.RefutedNeverPosts` | src/invoice_agent/ingestion/confidence.py:33-47 | When the sum of all line totals, rounded, is more than five cents off the subtotal and subtotal plus tax is as far off the total, no self-report makes the invoice postable at any threshold above 0.65, for any order and receipts. |
| `Confidence.OneRefutedCheckMayPass` | src/invoice_agent/ingestion/confidence.py:33-47 | One refuted check alone does not keep an otherwise complete invoice below the threshold. |
| `Signals.LinesSumExactly` | src/invoice_agent/ingestion/confidence.py:37-41 | With a subtotal and lines printed, the lines' signal is 1 if and only if the sum of all line totals, rounded half-even to cents, is within five cents of the subtotal, else 0; otherwise it is a half. |
| `Signals.TotalsExactly` | src/invoice_agent/ingestion/confidence.py:43-51 | With subtotal, tax and total printed, the totals' signal is 1 if and only if the first two make up the third to within five cents, else 0; otherwise it is a half. |
| `Signals.RecomputedExactly` | src/invoice_agent/ingestion/confidence.py:53-57 | What a line comes to again is its quantity times its unit price, rounded half-even to cents. |
| `Signals.LineArithmeticExactly` | src/invoice_agent/ingestion/confidence.py:53-58 | The line arithmetic signal is the share of the lines printing a total whose own arithmetic is within five cents of it; a half when none prints one. |
| `Signals.PlainSignalsExactly` | src/invoice_agent/ingestion/confidence.py:5-35 | A fifth for each of the five required fields, whether there are lines and an order number, and the self-report cut to the unit interval. |
| `Signals.ScoreBlends` | src/invoice_agent/ingestion/confidence.py:62-68 | The weight of each signal, and that their sum is rounded half-even to four digits. |
| `Signals.OneCheckCosts` | src/invoice_agent/ingestion/confidence.py:62-68 | What an otherwise perfect invoice loses by each single check that comes out empty. |
| `Signals.LineOrderIrrelevant` | src/invoice_agent/ingestion/confidence.py:37-58 | Neither any signal nor the score depends on the order the lines are printed in. |
| `Decide.MatchNode` | src/invoice_agent/agents/nodes/decide.py:53-69 | The node hardens the engine's report by the duplicate flag and the vendor resolution. |
| `Decide.NodeVerdict` | src/invoice_agent/agents/nodes/decide.py:53-69 | After hardening, postable still means no exceptions, and holds exactly when the invoice is acceptable, not a duplicate, and its vendor is resolved unless no name was printed. |
| `Decide.NodeLoosening` | src/invoice_agent/agents/nodes/decide.py:53-69 | Monotonicity in the settings survives the hardening. |
| `Reports.RaisedExactly` | src/invoice_agent/matching/engine.py:151-364 | Every exception kind, on the fields of the inputs alone: which of the twelve the match node reports is an if and only if for each of them, and none is reported twice. |
| `Reports.BillsWhatArrived` | src/invoice_agent/matching/engine.py:182-225 | A postable three-way match bills no line beyond the quantities of all receipt lines that name its order line, or, when none does, beyond what the order records as received. |
| `Reports.ReportReads` | src/invoice_agent/matching/engine.py:165-364 | Everything else the node reports on an order, on the fields of the inputs alone: match type, order, receipts, vendor, amount, confidence, outcome, and every figure of every header and line difference. |
| `Reports.NonPoReads` | src/invoice_agent/matching/engine.py:255-274 | What it reports without an order. |
| `Reports.ShippedThresholds` | src/invoice_agent/core/config.py:117-131 | The shipped settings in figures: what a difference in price, quantity, total or tax has to reach before it stops an invoice, the ceiling, the confidence threshold and the remittance tolerance. |
| `Reports.RaisedInOrder` | src/invoice_agent/matching/engine.py:276-340 | The exceptions stand in the order in which they are looked for: duplicate, header, lines, gates, vendor. |
| `Journal.BuildJournal` | src/invoice_agent/agents/nodes/post.py:38-103 | The reassignments of net and tax build exactly the specified entry, for each of the four mixes of printed and missing amounts. |
| `Journal.JournalExact` | src/invoice_agent/agents/nodes/post.py:52-89 | For every mix of printed and missing amounts net plus tax is the gross; the entry is balanced if and only if the gross is positive and the tax not negative, and then it moves the gross; on the invoice's own fields in EntryExactly and BalancedExactly. |
| `Journal.EntryExactly` | src/invoice_agent/agents/nodes/post.py:38-103 | Everything an entry says, on the fields of the invoice and the order: for all four mixes of printed subtotal and tax what is debited, the account and tax code of every line, vendor, order, currency and the reference cut to 80 characters. |
| `Journal.BalancedExactly` | src/invoice_agent/agents/nodes/post.py:52-89 | Which invoices may be posted, on their own fields, and that their entries move exactly the rounded total. |
| `Journal.EntryTotals` | src/invoice_agent/schemas/erp.py:105-108 | What the two columns of an entry add up to. |
| `Journal.PrintedAmountsKept` | src/invoice_agent/agents/nodes/post.py:52-62 | Printed net and tax survive if and only if they add up to the printed gross after rounding. |
| `Journal.ReferenceTellsNumbersApart` | src/invoice_agent/agents/nodes/post.py:65-92 | Two invoices of one vendor share the truncated reference exactly when their numbers agree on the room the vendor's name leaves; a name of 79 characters leaves none. |
| `Journal.ReferencesShared` | src/invoice_agent/agents/nodes/post.py:65-92 | Any two invoices, of one vendor or two, share a reference if and only if vendor and number agree, or a slash in a vendor's name lets the two be cut differently, or both are long and agree on 80 characters. |
| `Numbering.DocumentNumberInjective` | mock_erp/main.py:179-179 | The padded counter prints differently for different counters, past the padded width too. |
| `Numbering.NumbersRead` | mock_erp/main.py:179-179 | A number is its prefix and the counter in decimal digits, padded to eight for documents and six for applications. |
| `MockErp.Erp.constructor` | mock_erp/main.py:27-38 | A fresh ERP holds the seed, no journals, and counters at one. |
| `MockErp.Erp.ReseedAll` | mock_erp/main.py:32-38 | Reseeding restores the master data and drops journals and applications but not the counters. |
| `MockErp.Erp.InvoiceOrder` | mock_erp/main.py:196-201 | Marking an order invoiced sets every line's invoiced quantity in place. |
| `MockErp.Erp.PostJournalEntry` | mock_erp/main.py:160-203 | The endpoint refuses empty, unbalanced and repeated entries and otherwise creates one document, keeping the ledger invariant. |
| `MockErp.Erp.ApplyCashTo` | mock_erp/main.py:235-257 | The endpoint refuses unknown and closed items and otherwise moves the smaller of payment and open amount, keeping the ledger invariant. |
| `MockErp.PostExactly` | mock_erp/main.py:160-203 | On the request's own fields: unprocessable if and only if there are no lines or the columns differ, otherwise a conflict if and only if the ledger holds the reference, otherwise the next document with everything the entry says. |
| `MockErp.MarksExactly` | mock_erp/main.py:196-201 | Only the first order under the number given is marked, by its status and by every line's invoiced quantity becoming the quantity ordered. |
| `MockErp.ApplyExactly` | mock_erp/main.py:235-257 | On the request's own fields: not found if and only if no item has the id, refused if and only if the first that has it is not open, and otherwise the smaller of payment and open amount is taken, the item cleared when nothing is left, and nothing else touched. |
| `MockErp.ReseedExactly` | mock_erp/main.py:27-38 | What reseeding puts back, what it drops, what runs on, and where a fresh ledger starts. |
| `MockErp.LedgerAlwaysValid` | mock_erp/main.py:160-257 | After any sequence of requests: documents balance, references are distinct, numbers are consecutive over all seeds, an order is invoiced exactly when named, and every receivable is open amount plus applied cash. |
| `MockErp.NumbersNeverReused` | mock_erp/main.py:27-38 | No two documents ever created share a number, reseeds included. |
| `MockErp.InvoicedExactlyWhenNamed` | mock_erp/main.py:196-201 | Within a seed an order is invoiced if and only if some journal names it. |
| `MockErp.NeverOverApplied` | mock_erp/main.py:242-245 | With payments that are not negative, an item's open amount stays between zero and its original, and it is cleared exactly at zero. |
| `Client.Request` | src/invoice_agent/erp/client.py:59-73 | The retry loop over an unreliable channel leaves the ERP and the caller exactly as specified, for every mix of lost requests, lost replies, transport failures and refusals. |
| `Client.PostEffect` | mock_erp/main.py:171-203 | A post creates one document that says everything the entry says (reference, total, lines, currency, vendor, order) or changes nothing; a taken reference is always refused. |
| `Client.PostAtMostOnce` | src/invoice_agent/erp/client.py:59-125 | However often it is retried, a post books at most one document, and success means that document was created, with everything the entry says. |
| `Client.HiddenExactly` | src/invoice_agent/erp/client.py:59-125 | A document is booked without the client reporting success if and only if the ERP accepts the entry and the first attempt to reach it loses its answer. |
| `Client.ErrorMayHideDocument` | src/invoice_agent/erp/client.py:115-125 | So no check before the call excludes it: whatever the ERP would accept can be booked behind an error. |
| `Client.CrashExactly` | src/invoice_agent/erp/client.py:59-73 | A request ends in the re-raised timeout, not in an ERP error, if and only if every attempt times out. |
| `Remittances.MatchRemittance` | src/invoice_agent/matching/engine.py:367-410 | The loop returns the rounded applications, the unresolved notes and the residual as specified; what those are on the remittance's own fields is AdviceExactly, AdvicesTogether and ResidualExactly. |
| `Remittances.ByInvoiceSound` | src/invoice_agent/matching/engine.py:378-378 | The index holds every normalised invoice number present, each with the last item that carries it. |
| `Remittances.AdviceExactly` | src/invoice_agent/matching/engine.py:380-397 | What one advice line comes to: a payment to the last open item under its number, of the amount printed or of all that is open, and the note on a missing number, a missing item or a difference beyond the tolerance. |
| `Remittances.AdvicesTogether` | src/invoice_agent/matching/engine.py:380-397 | Several advice lines come to what each comes to, in their order. |
| `Remittances.ResidualExactly` | src/invoice_agent/matching/engine.py:399-410 | The residual is the printed total less the payments, rounded to cents, and nothing without a printed total or with a zero one; it is reported if and only if its size exceeds the tolerance. |
| `Remittances.RemittanceAccounts` | src/invoice_agent/matching/engine.py:399-410 | Applications plus residual equal the printed total, or without one what is applied, within half a cent per figure. |
| `Remittances.RemittanceExactInCents` | src/invoice_agent/matching/engine.py:399-410 | With all inputs in cents applications plus residual equal the printed total exactly. |
| `Receivable.FetchArItems` | src/invoice_agent/agents/nodes/receivable.py:32-60 | The customer comes from the advice or is resolved by name; the fetch returns their open items, or without a customer those of each advice that names an invoice, in order; a failed lookup returns nothing and an error; everything returned is an open item of the ERP. |
| `Receivable.FetchExactly` | src/invoice_agent/agents/nodes/receivable.py:32-60 | Whose items are fetched, and when a failing ERP is an error, on the remittance's own fields. |
| `Receivable.ListedInOrder` | mock_erp/main.py:215-227 | The listing goes through the items in their order, one by one. |
| `Receivable.LookedUpInOrder` | src/invoice_agent/agents/nodes/receivable.py:45-56 | Lookups by advice follow the advice lines, the open items under each number printed. |
| `Receivable.NextPayment` | src/invoice_agent/agents/nodes/receivable.py:89-103 | Payments are asked for one after another until a timeout ends the node; a success adds its application, an error a failure under its item's id. |
| `Receivable.ResultExactly` | src/invoice_agent/agents/nodes/receivable.py:105-148 | Complete when anything was applied; straight through when besides nothing is unresolved and no payment failed. |
| `Receivable.ListedExactly` | mock_erp/main.py:215-227 | The listing returns exactly the open items that meet every filter given. |
| `Receivable.ApplyCashNode` | src/invoice_agent/agents/nodes/receivable.py:83-103 | The loop over the applications applies each through the client, collects failures, and reports straight through as specified. |
| `Receivable.CallCovers` | src/invoice_agent/erp/client.py:139-148 | A cash call reported as successful moved at least the smaller of the payment and the open amount, and touched no other item. |
| `Receivable.CashOnceExactly` | src/invoice_agent/erp/client.py:59-73 | Under every fate of the attempts a successful cash call moves the smaller of payment and open amount exactly once, if and only if the item is not open, or the payment is zero, or it covers all that is open. |
| `Receivable.LostReplyAppliesTwice` | src/invoice_agent/erp/client.py:59-73 | Every other payment is taken twice after one lost reply: the payment, and again as much of it as is left. |
| `Receivable.StraightThroughCoversDeclared` | src/invoice_agent/agents/nodes/receivable.py:83-148 | Whatever became of the items since the fetch: with distinct references and amounts that are not negative, a straight-through remittance leaves at most the tolerance per advice, once more for the total, and half a cent of the declared money unapplied, besides what its items fall short of what was fetched. |
| `Receivable.StraightThroughCoversPrinted` | src/invoice_agent/agents/nodes/receivable.py:83-148 | The same bound for the total the remittance prints. |
| `Receivable.NoShortfallExactly` | src/invoice_agent/agents/nodes/receivable.py:89-97 | There is no shortfall if and only if, as the first call is made, every item still has open what its payment would have taken as it was fetched. |
| `Receivable.UnchangedStaysOpen` | src/invoice_agent/agents/nodes/receivable.py:83-97 | Items that are as they were fetched from a ledger whose ids are distinct are told apart by their ids and meet that condition. |
| `Receivable.CoverageExactly` | src/invoice_agent/agents/nodes/receivable.py:89-97 | With every call answered, the payments reach the ERP in full if and only if, as the first call is made, every item has its payment open. |
| `Receivable.ShortfallGoesThrough` | src/invoice_agent/agents/nodes/receivable.py:89-97 | The failing input: an item somebody else paid down since the fetch; the remittance goes straight through and exactly what was left is applied, however much it declares. |
| `Receivable.AnsweredSum` | mock_erp/main.py:242-257 | What answered payments applied is what was due less what their items did not have open when each was taken; nothing is missing if and only if each had its payment open. |
| `Receivable.SettledExactly` | mock_erp/main.py:235-257 | The endpoint takes any amount: an open settled item stays between zero and its original if and only if the payment does not pay back more than was applied; a negative advice on an untouched item raises it above its original. |
| `Receivable.FetchConditionsHold` | mock_erp/main.py:215-227 | In every reachable ledger, and every fetch from it, ids tell items apart; without negative payments no item fetched is negative. |
| `Repository.WorkflowRepository.UpdateRunRow` | src/invoice_agent/db/repository.py:43-54 | Updating sets the given fields of an existing run's row and nothing else; a missing run is ignored. |
| `Repository.WorkflowRepository.CreateRun` | src/invoice_agent/db/repository.py:28-32 | Creating a run stores its row with its kind. |
| `Repository.WorkflowRepository.SaveInvoice` | src/invoice_agent/db/repository.py:56-60 | Saving appends one invoice row. |
| `Repository.WorkflowRepository.FindDuplicateRow` | src/invoice_agent/db/repository.py:62-69 | The oldest row with the fingerprint from another run is found, or there is none. |
| `Repository.WorkflowRepository.SaveMatch` | src/invoice_agent/db/repository.py:71-75 | Saving appends one match row. |
| `Repository.WorkflowRepository.SaveException` | src/invoice_agent/db/repository.py:86-90 | Saving appends one exception case. |
| `Repository.WorkflowRepository.ResolveException` | src/invoice_agent/db/repository.py:108-124 | Resolving a case changes its status where it stands and no other case. |
| `Repository.WorkflowRepository.SaveRemittance` | src/invoice_agent/db/repository.py:138-142 | Saving appends one remittance row. |
| `Repository.WorkflowRepository.SaveJournal` | src/invoice_agent/db/models.py:143-148 | A second journal for a run is refused by the unique constraint; otherwise the row is appended. |
| `Repository.WorkflowRepository.JournalExists` | src/invoice_agent/db/models.py:143-148 | Whether the unique constraint would refuse a journal for the run. |
| `Repository.WorkflowRepository.AppendAuditRow` | src/invoice_agent/db/repository.py:144-177 | Appending reads the run's largest sequence and stores the next. |
| `Repository.WorkflowRepository.ListAuditRows` | src/invoice_agent/db/repository.py:179-201 | A page of the events that pass the filters by run, action and time: a run's in order of sequence, all runs' newest first, limited and offset. |
| `Repository.SelectExact` | src/invoice_agent/db/repository.py:187-193 | The filters select exactly the stored rows that meet all of them. |
| `Repository.WorkflowRepository.StraightThroughStats` | src/invoice_agent/db/repository.py:209-235 | The four counts of the rows, payable and receivable runs alike. |
| `Repository.FingerprintComparesTexts` | src/invoice_agent/schemas/invoice.py:119-127 | Reprinting the same amount differently changes the duplicate key exactly when the text changes. |
| `Repository.KeysShared` | src/invoice_agent/schemas/invoice.py:119-127 | Any two invoices share a key if and only if their parts agree or a bar inside one of them lets the joined text be cut differently; without bars, equal keys are equal parts; what the parts are is SameKeyExactly. |
| `Repository.SameKeyExactly` | src/invoice_agent/schemas/invoice.py:119-127 | Where no bar is printed two invoices share a key if and only if their vendor names and invoice numbers agree, stripped and in lower case, and their totals print alike, a missing or zero total as a nought. |
| `Repository.OnlyThreeFieldsCount` | src/invoice_agent/schemas/invoice.py:119-127 | Invoices that agree in vendor, number and total share a key whatever else they print. |
| `Repository.UpdateRunExactly` | src/invoice_agent/db/repository.py:43-54 | A status write changes the status of an existing run's row, the flag only when it is given, and nothing else. |
| `Repository.ResolveExactly` | src/invoice_agent/db/repository.py:108-124 | Closing a case changes its status where it stands, not its run and no other case. |
| `Repository.DuplicateExactly` | src/invoice_agent/db/repository.py:62-69 | A duplicate is the oldest row of another run under the key, and there is none if and only if no such row is stored. |
| `Repository.MaxSequenceExactly` | src/invoice_agent/db/repository.py:157-166 | The largest sequence is that of the run's own rows, and nought when there are none. |
| `Repository.SelectInOrder` | src/invoice_agent/db/repository.py:187-193 | The selection goes through the table in its order, and what each filter asks of a row. |
| `Repository.SortsBySequence` | src/invoice_agent/db/repository.py:194-200 | A run's events are listed by ascending sequence, each of them once. |
| `Repository.NewestFirstExactly` | src/invoice_agent/db/repository.py:194-200 | All runs' events are listed newest first. |
| `Repository.PageExactly` | src/invoice_agent/db/repository.py:179-201 | A page holds what follows the rows skipped, up to its limit. |
| `Repository.StatsExactly` | src/invoice_agent/db/repository.py:209-235 | The four counts: all runs, those whose status is completed, those that carry the flag, and all cases ever filed. |
| `Repository.AppendNumbers` | src/invoice_agent/db/repository.py:157-176 | Serial appends number a run's rows 1, 2, 3 and leave every other run's trail alone. |
| `Repository.PagesReproduceTrail` | src/invoice_agent/db/repository.py:179-201 | Enough pages of a quiescent run, end to end, are its trail: nothing skipped, nothing repeated. |
| `Repository.StatsOrdered` | src/invoice_agent/db/repository.py:209-235 | When only completed runs carry the flag, straight through is at most completed is at most all. |
| `Nodes.Agent.constructor` | mock_erp/main.py:27-38 | A new agent with an empty database and a freshly seeded ERP is the machine's initial world, and valid. |
| `Nodes.Agent.SetRunStatus` | src/invoice_agent/agents/nodes/_common.py:55-63 | A status write lands or is swallowed; nothing else moves. |
| `Nodes.Agent.Audit` | src/invoice_agent/agents/nodes/_common.py:22-52 | An audit write lands with the next sequence or is swallowed; the event is remembered either way. |
| `Nodes.Agent.StartPayable` | src/invoice_agent/services/workflow.py:76-137 | Creating a run writes its row and first event before the graph starts; without the event it never starts. |
| `Nodes.Agent.StartReceivable` | src/invoice_agent/services/workflow.py:76-137 | The same for a receivable run. |
| `Nodes.Agent.Parse` | src/invoice_agent/agents/nodes/extract.py:26-68 | Of a run standing at it, the parse node in place does what the machine's parse step does. |
| `Nodes.Agent.ExtractInvoice` | src/invoice_agent/agents/nodes/extract.py:71-119 | The extraction node scores the invoice, stores the score in it, and does what the machine's step does. |
| `Nodes.Agent.PersistInvoice` | src/invoice_agent/agents/nodes/enrich.py:18-48 | The persist node commits the invoice row under its fingerprint. |
| `Nodes.Agent.DuplicateCheck` | src/invoice_agent/agents/nodes/enrich.py:51-88 | The duplicate check reads other runs' rows and records the run it duplicates, or none. |
| `Nodes.Agent.ResolveVendor` | src/invoice_agent/agents/nodes/enrich.py:91-143 | The vendor node records some vendor or none. |
| `Nodes.Agent.FetchPo` | src/invoice_agent/agents/nodes/enrich.py:146-229 | The lookup node's four outcomes: no reference, not found, ERP error, found with receipts when required; what each of them leads to is FetchKeeps, MissingOrderAsks and ErrorsNeverPost. |
| `Nodes.Agent.Match` | src/invoice_agent/agents/nodes/decide.py:45-104 | The match node sets the status, saves the hardened report, audits it and routes. |
| `Nodes.Agent.RaiseException` | src/invoice_agent/agents/nodes/decide.py:148-219 | Up to the interrupt: case, status and event are written and the run is parked with nothing checkpointed. |
| `Nodes.Agent.CanResume` | src/invoice_agent/services/workflow.py:147-151 | A run can be resumed only while its row awaits approval or says matching. |
| `Nodes.Agent.ResumeException` | src/invoice_agent/agents/nodes/decide.py:148-261 | Resuming runs the node again from its top, files a second open case, then decides that one in place and routes by the decision. |
| `Nodes.Agent.BeginPosting` | src/invoice_agent/agents/nodes/post.py:106-127 | The posting node sets the status, builds the journal and fails the run when it does not balance. |
| `Nodes.Agent.SendOnce` | src/invoice_agent/erp/client.py:65-73 | One attempt at the ERP does to the ERP and the run what the machine's attempt does. |
| `Nodes.Agent.RecordSuccess` | src/invoice_agent/agents/nodes/post.py:175-219 | A booked document is recorded as posted, audited, and completes the run, straight through when no case was raised. |
| `Nodes.Agent.RecordFailure` | src/invoice_agent/agents/nodes/post.py:131-173 | An ERP error is recorded as a failed journal with a case, and fails the run. |
| `Nodes.Agent.RecordPosting` | src/invoice_agent/agents/nodes/post.py:129-219 | Recording either outcome, or dying on the unique constraint when the run already has a journal. |
| `Nodes.Agent.PostJournal` | src/invoice_agent/agents/nodes/post.py:106-219 | The whole posting node, from a valid system to a valid system: build, send until answered, record. |
| `Nodes.Agent.Reject` | src/invoice_agent/agents/nodes/post.py:222-232 | The rejected node closes the run and writes the decision. |
| `Nodes.Agent.Fail` | src/invoice_agent/agents/nodes/post.py:235-239 | The failed node closes the run. |
| `Nodes.Agent.ParseRemittance` | src/invoice_agent/agents/nodes/extract.py:26-68 | The parse node of a receivable run. |
| `Nodes.Agent.ExtractRemittance` | src/invoice_agent/agents/nodes/extract.py:122-160 | The remittance extraction node stores what was extracted or fails. |
| `Nodes.Agent.FetchItems` | src/invoice_agent/agents/nodes/receivable.py:25-71 | The fetch node stores the open items, or the error of a failed lookup, and goes on to apply cash either way. |
| `Nodes.Agent.BeginApplying` | src/invoice_agent/agents/nodes/receivable.py:74-85 | The cash node sets the status and matches the advice lines to the items; without a remittance it ends there. |
| `Nodes.Agent.PayOnce` | src/invoice_agent/erp/client.py:65-73 | One attempt at one payment does to the ERP and the run what the machine's attempt does. |
| `Nodes.Agent.CloseApplying` | src/invoice_agent/agents/nodes/receivable.py:105-160 | After the last payment: the remittance row, a case when anything is unresolved, the event, and the status with the flag. |
| `Nodes.Agent.ApplyRemittance` | src/invoice_agent/agents/nodes/receivable.py:74-160 | The whole cash application node, from a valid system to a valid system: match, pay each item until answered, store. |
| `Nodes.Agent.Handle` | src/invoice_agent/agents/graph.py:36-107 | Any event whatever: if it can happen now the node for it runs, and exactly the machine's step has been made; otherwise nothing changes; the system invariant holds again. |
| `Nodes.Play` | src/invoice_agent/agents/graph.py:36-107 | The objects driven through any sequence of events end exactly where the machine's execution of it ends. |
| `PostingNode.AttemptsAreRequest` | src/invoice_agent/erp/client.py:59-125 | The machine's separate attempts with nobody in between leave the ERP and the run exactly as the client's one retried request. |
| `PostingNode.PostNodeKeeps` | src/invoice_agent/agents/nodes/post.py:106-219 | The posting node as a whole keeps the system invariant. |
| `PostingNode.StrandsExactly` | src/invoice_agent/erp/client.py:59-73 | The posting node dies sending if and only if every attempt times out; then there is no case and no journal, a document is in the ERP exactly when some attempt reached it and it was accepted, and the run can be resumed exactly when its status write was lost too. |
| `PostingNode.NodeHidesExactly` | src/invoice_agent/agents/nodes/post.py:129-173 | The node leaves a document that no journal row records as posted if and only if the ERP accepts the entry and the first attempt to reach it loses its answer. |
| `PayingNode.PaymentIsRequest` | src/invoice_agent/erp/client.py:59-148 | The machine's separate attempts at a payment with nobody in between are the client's one retried request. |
| `PayingNode.PayAllIsApplyAll` | src/invoice_agent/agents/nodes/receivable.py:89-100 | Paying one item after another in the machine is the loop over the applications. |
| `PayingNode.CashNodeExactly` | src/invoice_agent/agents/nodes/receivable.py:74-160 | The cash node as a whole: the ERP as the loop leaves it, the remittance row and the flag from its result, or death without a row at the first timeout that outlives its retries. |
| `PayingNode.ShortfallIsFlagged` | src/invoice_agent/agents/nodes/receivable.py:89-153 | The node flags the shortfall: on an item paid down since its fetch the run goes straight through with only what was left applied. |
| `PayingNode.CashNodeKeeps` | src/invoice_agent/agents/nodes/receivable.py:74-160 | The cash node as a whole keeps the system invariant. |
| `RunInvariant.LogInv` | src/invoice_agent/agents/nodes/_common.py:22-52 | Writing an audit event, stored or lost, keeps a run's invariant. |
| `RunInvariant.RejectInv` | src/invoice_agent/agents/nodes/post.py:222-232 | Closing a rejected run keeps its invariant. |
| `StepInvariant.ParseKeeps` | src/invoice_agent/agents/nodes/extract.py:26-68 | The parse step keeps its run's invariant, touches no other run, and does exactly this: the row says parsing if the write lands, and the run goes on to extraction, or into error and to the failed node. |
| `StepInvariant.ExtractKeeps` | src/invoice_agent/agents/nodes/extract.py:71-119 | The extraction step keeps its run's invariant, touches no other run, and does exactly this: the row says extracting if the write lands, and the scored invoice goes on, or the error to the failed node. |
| `StepInvariant.PersistKeeps` | src/invoice_agent/agents/nodes/enrich.py:18-48 | The persist step keeps its run's invariant, touches no other run, and stores the run's key and nothing else. |
| `StepInvariant.DuplicateKeeps` | src/invoice_agent/agents/nodes/enrich.py:51-88 | The duplicate check keeps the invariant, and lets the run through only when no other run has stored its key. |
| `StepInvariant.FetchKeeps` | src/invoice_agent/agents/nodes/enrich.py:146-229 | The lookup step keeps its run's invariant, touches no other run, and for each of the ERP's answers leaves exactly this order, these receipts, this error and these events. |
| `StepInvariant.MatchKeeps` | src/invoice_agent/agents/nodes/decide.py:45-104 | The match step keeps its run's invariant, touches no other run, stores and audits the report it carries on if it saves at all, and routes by error and report. |
| `StepInvariant.VendorKeeps` | src/invoice_agent/agents/nodes/enrich.py:91-143 | The vendor step keeps its run's invariant, touches no other run, and records the vendor and its event. |
| `StepInvariant.RaiseKeeps` | src/invoice_agent/agents/nodes/decide.py:148-219 | Raising an exception keeps its run's invariant, touches no other run, and leaves the row awaiting approval, the event told and the run parked with nothing checkpointed. |
| `StepInvariant.BeginKeeps` | src/invoice_agent/agents/nodes/post.py:106-127 | Building the journal keeps its run's invariant and touches no other run; exactly the unbalanced ones fail, with their event and status. |
| `StepInvariant.RejectKeeps` | src/invoice_agent/agents/nodes/post.py:222-232 | Closing a rejected run keeps its invariant, touches no other run, and leaves the row rejected and the decision told. |
| `StepInvariant.FailKeeps` | src/invoice_agent/agents/nodes/post.py:235-239 | Closing a failed run keeps its invariant, touches no other run, and leaves the row failed and the error set. |
| `StepInvariant.ResumeKeeps` | src/invoice_agent/agents/nodes/decide.py:148-261 | Resuming keeps its run's invariant, touches no other run, tells the exception again and then the decision, and routes by it once it is checkpointed. |
| `StepInvariant.AttemptEffect` | mock_erp/main.py:160-203 | One attempt at the ERP books nothing, or the one document the entry asks for, and success is reported only for that document. |
| `StepInvariant.SendKeeps` | src/invoice_agent/erp/client.py:59-125 | An attempt at the ERP keeps its run's invariant, under every fate of the request and its reply. |
| `StepInvariant.RecordKeeps` | src/invoice_agent/agents/nodes/post.py:129-219 | Recording the ERP's answer keeps its run's invariant and touches no other run: the document mirrored, told and flagged, or the refusal told and the run failed, or the node dead on the unique constraint. |
| `CashInvariant.ParseCashKeeps` | src/invoice_agent/agents/nodes/extract.py:26-68 | The parse step of a receivable run keeps its invariant, touches no other run, and does exactly this: status, event, and on to extraction or into error. |
| `CashInvariant.ExtractCashKeeps` | src/invoice_agent/agents/nodes/extract.py:122-160 | The remittance extraction step keeps its run's invariant, touches no other run, and does exactly this: status, event, and on with the remittance or into error. |
| `CashInvariant.FetchCashKeeps` | src/invoice_agent/agents/nodes/receivable.py:25-71 | The receivables lookup keeps its run's invariant, touches no other run, and leaves exactly what was fetched, or the error. |
| `CashInvariant.BeginCashKeeps` | src/invoice_agent/agents/nodes/receivable.py:74-85 | Entering the cash node keeps its run's invariant, touches no other run, and leaves the row posting and all payments due. |
| `CashInvariant.PayKeeps` | src/invoice_agent/erp/client.py:59-148 | A payment attempt, under every fate, keeps its run's invariant and touches no other run, payable or receivable. |
| `CashInvariant.CloseCashKeeps` | src/invoice_agent/agents/nodes/receivable.py:105-160 | Storing the outcome keeps its run's invariant, touches no other run, and leaves exactly this row, event, status and flag. |
| `CashInvariant.FailCashKeeps` | src/invoice_agent/agents/nodes/post.py:235-239 | Closing a failed receivable run keeps its invariant, touches no other run, and leaves the row failed and the error set. |
| `WorkflowInvariant.SomeoneElseHolds` | src/invoice_agent/agents/nodes/enrich.py:18-88 | Whoever was let through on a key stored it first, so whoever looks later finds it. |
| `WorkflowInvariant.StepKeeps` | src/invoice_agent/agents/graph.py:36-107 | Every event of every run, payable or receivable, and every request from outside, keeps the invariant of the whole system. |
| `WorkflowInvariant.StepFrame` | src/invoice_agent/agents/graph.py:36-107 | A step of one run moves no other run's process and no other run's row, whichever kinds they are. |
| `WorkflowInvariant.AlwaysValid` | src/invoice_agent/agents/graph.py:36-107 | The invariant holds after every execution: any number of payable and receivable runs, any interleaving, lost writes, lost replies, crashes, redrives and decisions. |
| `Guarantees.OneClearedPerKey` | src/invoice_agent/agents/nodes/enrich.py:51-88 | At most one run per fingerprint ever leaves the duplicate check clean. |
| `Guarantees.ClearedExactly` | src/invoice_agent/agents/nodes/enrich.py:18-88 | In every execution a run leaves the duplicate check clean if and only if it completed a check before which no other run had stored its key. |
| `Guarantees.BothMayStop` | src/invoice_agent/agents/nodes/enrich.py:18-88 | At most one, not exactly one: two runs that both store before either checks both stop. |
| `Guarantees.OneUnattendedPerKey` | src/invoice_agent/agents/graph.py:58-59 | Two ERP documents nobody decided on never belong to different runs with one invoice key, whatever became of replies, rows and flags. |
| `Guarantees.DocumentMeans` | src/invoice_agent/agents/nodes/post.py:52-103 | Every document the ERP created for a run carries its invoice's reference and currency, the vendor resolved for it, the number of its order, its rounded positive gross, and lines that book the invoice's printed amounts to their accounts. |
| `Guarantees.ClearedReport` | src/invoice_agent/agents/nodes/decide.py:53-113 | Reaching posting with nobody asked implies an acceptable, unduplicated, exception-free match at the rounded gross, with the vendor resolved unless none was printed. |
| `Guarantees.UnattendedDocument` | src/invoice_agent/agents/nodes/decide.py:53-113 | Every ERP document nobody decided on, recorded and flagged or not: matched on the order it names without exceptions, its run alone with its key, to the vendor resolved for it, its total the matched amount, positive, at most the rounded ceiling and within tolerance of the order's gross. |
| `Guarantees.UnattendedPosting` | src/invoice_agent/agents/nodes/post.py:106-219 | A payable row that says straight through is completed, its journal is recorded as posted and mirrors an ERP document nobody decided on, with all that implies. |
| `Guarantees.UnattendedLeakage` | src/invoice_agent/agents/nodes/decide.py:107-113 | With the shipped tolerances and an order without negative figures, what a document nobody decided on bills is bounded by what was ordered. |
| `Guarantees.ErpNeverHoldsTwo` | src/invoice_agent/agents/nodes/post.py:65-92 | Within one seed the ERP never holds two documents for one run, or for two runs with the same vendor name and invoice number. |
| `Guarantees.PostedRowsHaveDocuments` | src/invoice_agent/agents/nodes/post.py:175-190 | Every journal recorded as posted has an ERP document of the same run with the same number, reference and total. |
| `Guarantees.NoDocumentWithoutWarrant` | src/invoice_agent/agents/nodes/decide.py:107-113 | Every ERP document of a run was either matched clean with nobody asked, or approved by a human after it was stopped. |
| `Guarantees.HoldsAll` | mock_erp/main.py:32-38 | Until it is reseeded the ERP still holds every document it ever created. |
| `CashGuarantees.StoredApplications` | src/invoice_agent/agents/nodes/receivable.py:105-124 | Every application a stored remittance records was made by the ERP at its run's request, in that order; if it says applied, there is one for each payment due. |
| `CashGuarantees.FlaggedRemittance` | src/invoice_agent/agents/nodes/receivable.py:74-160 | In every execution, whatever others did to the items, a flagged receivable run is completed with a stored remittance whose every payment the ERP answered with the smaller of payment and open amount; the printed total is what was applied plus what the items did not cover, to within the tolerance and half a cent a figure. |
| `CashGuarantees.FlaggedCoversExactly` | src/invoice_agent/agents/nodes/receivable.py:74-160 | It covers all that was due if and only if no item had less open than its payment when that was taken. |
| `CashGuarantees.LedgerReachable` | mock_erp/main.py:160-257 | In every execution the ERP is exactly where the requests that reached it lead, so all that holds of sequences of requests holds in executions. |
| `CashGuarantees.NothingOverApplied` | mock_erp/main.py:242-245 | From a seed of open, positive items, in every execution in which nothing comes in negative, no item is over-applied and cleared means paid in full. |
| `CashGuarantees.FetchedConditions` | src/invoice_agent/agents/nodes/receivable.py:25-71 | Every receivable run of every execution carries items told apart by their ids, and none negative when nothing comes in negative. |
| `Lifecycle.Routing` | src/invoice_agent/agents/graph.py:32-76 | A run with an error before posting never reaches posting, nobody is asked about an empty exception list, and no run completes more than nine nodes; which events set the error is ErrorsNeverPost. |
| `Failures.ErrorsNeverPost` | src/invoice_agent/agents/graph.py:32-76 | After an unreadable document, a failed extraction or an order lookup the ERP failed, in every continuation: the run is at its match node, at the failed node or over, no case is filed for it, no document is created for it, and its row never says completed, rejected or straight through. |
| `Failures.ErrorsFailAtMatch` | src/invoice_agent/agents/nodes/decide.py:107-113 | Its match node, whenever it returns, sends it to the failed node. |
| `Failures.MissingOrderAsks` | src/invoice_agent/agents/nodes/enrich.py:146-229 | A missing order number or an order the ERP does not know is no error: the run goes to a human with the missing order among its exceptions. |
| `CashFailures.CashErrorsNeverPay` | src/invoice_agent/agents/graph.py:79-107 | After an unreadable or unextracted remittance or a failed lookup of its items, in every continuation: no application is made for the run, and its row says neither completed nor straight through. |
| `Lifecycle.EnabledExactly` | src/invoice_agent/services/workflow.py:147-151 | Only a parked run can be resumed and only a dead one driven again, while the row awaits approval or says matching; a run is started once; others may use the ERP at any time. |
| `Lifecycle.FiledExactly` | src/invoice_agent/agents/nodes/decide.py:148-232 | Exactly which cases each event files, and that none touches a case that was there before it. |
| `Lifecycle.FirstCaseStaysOpen` | src/invoice_agent/agents/nodes/decide.py:148-232 | A case that stands open when its run is resumed is open after every continuation; the decision closes the next case, filed and resolved by the resumed node. |
| `Lifecycle.CasesNeverChange` | src/invoice_agent/agents/nodes/decide.py:148-232 | Whatever follows, every case that ever stood between two events stays as it is: cases are only added. |
| `Lifecycle.NeverStuck` | src/invoice_agent/agents/graph.py:36-76 | A payable run that is neither over, parked nor dead always has a next event. |
| `Lifecycle.WorkDone` | src/invoice_agent/agents/graph.py:36-76 | Every event of a run's own lowers its rank. |
| `Lifecycle.EveryRunFinishes` | src/invoice_agent/agents/graph.py:36-76 | Among any other runs, a payable run takes at most twelve more events, nodes and attempts together, until it has ended, parked or died. |
| `CashLifecycle.CashNeverStuck` | src/invoice_agent/agents/graph.py:79-107 | A receivable run that is neither over nor dead always has a next event. |
| `CashLifecycle.CashWorkDone` | src/invoice_agent/agents/graph.py:79-107 | Every event of a receivable run's own lowers its rank. |
| `CashLifecycle.EveryCashRunFinishes` | src/invoice_agent/agents/graph.py:79-107 | Among any other runs, a receivable run takes at most three events for each advice line and five more, or once it pays three for each payment left and one more, until it has ended or died. |
| `Lifecycle.TerminalStays` | src/invoice_agent/services/workflow.py:147-151 | Once a run's row, payable or receivable, says completed, rejected or failed, no continuation of any execution changes it. |
| `Lifecycle.TrailFaithful` | src/invoice_agent/db/repository.py:144-177 | The stored trail of any run is numbered without gaps and is the run's events in order with some possibly lost; every posting that was not straight through follows an approval. |
| `Lifecycle.PagesShowTrail` | src/invoice_agent/db/repository.py:179-201 | The pages of any reachable, quiescent run show exactly that trail. |
| `Lifecycle.ErpAlwaysValid` | mock_erp/main.py:160-257 | The ERP's invariant survives everything runs and outside requests do to it. |
| `Rates.RateExactly` | src/invoice_agent/agents/nodes/post.py:192-219 | Recording an unattended posting always emits it, and the row carries the flag if and only if the last status write lands. |
| `Rates.FlagExactly` | src/invoice_agent/agents/nodes/_common.py:55-63 | In every execution a payable run has a straight-through posting among its events if and only if it recorded one, and carries the flag if and only if it recorded one whose last write landed. |
| `Rates.CountedRunsPosted` | src/invoice_agent/db/repository.py:217-226 | A counted payable run did emit a straight-through posting and never asked a human. |
| `Rates.CountedReceivable` | src/invoice_agent/agents/nodes/receivable.py:138-153 | A receivable run that carries the flag is counted as well: it is completed and applied cash, and no event of it posts a journal. |
| `Rates.ReceivableFlagExactly` | src/invoice_agent/agents/nodes/receivable.py:138-153 | Closing a receivable run sets the flag if and only if its last write lands, something was applied and nothing is unresolved. |
| `Rates.CashFlagExactly` | src/invoice_agent/agents/nodes/receivable.py:138-153 | In every execution a receivable run carries the flag if and only if it once closed with cash applied, nothing unresolved, and its last write landing. |
| `Rates.CountExactly` | src/invoice_agent/api/v1/metrics.py:15-32 | The reported count plus the postings whose flag was lost is the unattended postings plus the flagged receivable runs; it is right if and only if the two errors are equally many. |
| `Rates.StatsAlwaysOrdered` | src/invoice_agent/db/repository.py:209-235 | In every execution straight through is at most completed is at most all runs, of both kinds. |
| `QuietRun.MatchReached` | src/invoice_agent/agents/graph.py:51-66 | An unseen invoice on an order, with every write landing, reaches posting or the exception node with the hardened report, having stored its key and posted nothing. |
| `QuietRun.StraightThroughExactly` | src/invoice_agent/agents/graph.py:36-76 | With nothing else in the way, an invoice on an order goes straight through if and only if it is acceptable, its vendor is resolved or was not printed, its rounded gross is positive and its tax not negative; and what the run then leaves in the ERP and the tables is stated whole. |
| `QuietRun.VendorNeverCompared` | src/invoice_agent/agents/nodes/decide.py:53-69 | Whoever the order was placed with, the invoice passes or not all the same, and the document the ERP creates names the vendor resolved from the invoice and the order's number. |
| `OrderHistory.VerdictIgnoresHistory` | src/invoice_agent/matching/engine.py:163-243 | The verdict is the same on any two orders that differ in vendor, status and quantities already invoiced. |
| `RepeatBilling.OneMoreBill` | mock_erp/main.py:196-201 | One more invoice on an order goes straight through if and only if it would have on the order nobody had billed; its gross is added to what the ERP holds, and the order is marked invoiced. |
| `RepeatBilling.NoMemoryOfBilling` | src/invoice_agent/agents/graph.py:36-76 | Any number of invoices with keys and references of their own, one after another on one order: each goes straight through if and only if it would alone, and the ERP then holds exactly the sum of those that do. |
| `Exposure.UnattendedExposure` | src/invoice_agent/matching/engine.py:334-340 | All the money in the ERP that no human decided on is at most the rounded ceiling for each distinct invoice key stored, however often and concurrently a document is resent and whatever replies, statuses and flags are lost. |
| `Exposure.OrderExposure` | src/invoice_agent/matching/engine.py:288-304 | On any one order it is at most the smaller of the ceiling and the order's own limit for each distinct key of the runs matched on it, and every such document names the order, whatever was billed on it before. |

## Left out

- Document parsing, prompts, model calls and JSON repair: external and not deterministic, represented by arbitrary inputs.
- Mailbox polling, file storage, HTTP handlers, authentication, health, logging and migrations: plumbing around the modelled calls.
- Vector retrieval and fuzzy scoring internals: library code, represented by an arbitrary similarity and an arbitrary resolved vendor.
- Reason strings, summaries, severities, guidance and policy extracts: no decision depends on them.
- Concurrent decisions on one run, and resuming a graph thread that has already finished, a receivable run awaiting approval among them: they depend on the graph library's internals.
- Confidence.ScoreExtraction: binary floating point is replaced by exact rationals, so results within one unit in the last place of a threshold may differ.
- Guarantees.ErpNeverHoldsTwo: is about one seed; reseeding drops the journals whose references the ERP compares.
- RepeatBilling.NoMemoryOfBilling: takes the invoices' runs, keys and references to be their own, one run after another; interleaved runs are covered by the bound of Exposure.OrderExposure.
- The evaluation harness and sample generators: scripts with only counting facts.
