/** The match node: the engine's report, hardened by the duplicate check and vendor resolution. */
module Decide {
  import opened Prelude
  import opened Schemas
  import opened Matching
  import opened Verdict

  function WithDuplicate(report: MatchReport, duplicate: bool): MatchReport {
    if duplicate
    then report.(exceptions := Dedup([DuplicateInvoice] + report.exceptions), outcome := Exception)
    else report
  }

  function WithVendor(report: MatchReport, vendor: Option<string>, vendorName: Option<string>): MatchReport {
    if vendor.None? && Truthy(vendorName)
    then report.(exceptions := Dedup(report.exceptions + [UnknownVendor]), outcome := Exception)
    else if vendor.Some? then report.(vendorId := vendor)
    else report
  }

  function NodeReport(
    text: Text, invoice: Invoice, order: Option<PurchaseOrder>, receipts: seq<GoodsReceipt>, cfg: MatchingConfig,
    duplicate: bool, vendor: Option<string>): MatchReport
  {
    WithVendor(WithDuplicate(Evaluate(text, invoice, order, receipts, cfg), duplicate), vendor, invoice.vendorName)
  }

  method MatchNode(
    text: Text, invoice: Invoice, order: Option<PurchaseOrder>, receipts: seq<GoodsReceipt>, cfg: MatchingConfig,
    duplicate: bool, vendor: Option<string>)
    returns (report: MatchReport)
    ensures report == NodeReport(text, invoice, order, receipts, cfg, duplicate, vendor)
  {
    report := MatchInvoice(text, invoice, order, receipts, cfg);
    if duplicate {
      report := report.(exceptions := Dedup([DuplicateInvoice] + report.exceptions));
      report := report.(outcome := Exception);
    }
    if vendor.None? && Truthy(invoice.vendorName) {
      report := report.(exceptions := Dedup(report.exceptions + [UnknownVendor]));
      report := report.(outcome := Exception);
    } else if vendor.Some? {
      report := report.(vendorId := vendor);
    }
  }

  lemma DuplicateStops(report: MatchReport, duplicate: bool)
    requires report.IsPostable() <==> report.exceptions == []
    ensures var after := WithDuplicate(report, duplicate);
            && (after.IsPostable() <==> after.exceptions == [])
            && (after.IsPostable() <==> report.IsPostable() && !duplicate)
            && (forall e :: e in after.exceptions <==> e in report.exceptions || (duplicate && e == DuplicateInvoice))
            && (NoDuplicates(report.exceptions) ==> NoDuplicates(after.exceptions))
            && after.matchedAmount == report.matchedAmount
  {
    DedupSameElements([DuplicateInvoice] + report.exceptions);
  }

  lemma VendorStops(report: MatchReport, vendor: Option<string>, vendorName: Option<string>)
    requires report.IsPostable() <==> report.exceptions == []
    ensures var after := WithVendor(report, vendor, vendorName);
            var unknown := vendor.None? && Truthy(vendorName);
            && (after.IsPostable() <==> after.exceptions == [])
            && (after.IsPostable() <==> report.IsPostable() && !unknown)
            && (forall e :: e in after.exceptions <==> e in report.exceptions || (unknown && e == UnknownVendor))
            && (NoDuplicates(report.exceptions) ==> NoDuplicates(after.exceptions))
            && after.matchedAmount == report.matchedAmount
  {
    DedupSameElements(report.exceptions + [UnknownVendor]);
  }

  /** The node adds its own two reasons to stop and nothing else: postable still means no exceptions,
      and the amount matched is the engine's. */
  lemma NodeVerdict(
    text: Text, invoice: Invoice, order: Option<PurchaseOrder>, receipts: seq<GoodsReceipt>, cfg: MatchingConfig,
    duplicate: bool, vendor: Option<string>)
    ensures var report := NodeReport(text, invoice, order, receipts, cfg, duplicate, vendor);
            var engine := Evaluate(text, invoice, order, receipts, cfg);
            && (report.IsPostable() <==> report.exceptions == [])
            && (report.IsPostable() <==>
                  && Acceptable(text, invoice, order, receipts, cfg)
                  && !duplicate
                  && (vendor.Some? || !Truthy(invoice.vendorName)))
            && (forall e :: e in report.exceptions <==>
                  || e in engine.exceptions
                  || (duplicate && e == DuplicateInvoice)
                  || (vendor.None? && Truthy(invoice.vendorName) && e == UnknownVendor))
            && NoDuplicates(report.exceptions) && report.matchedAmount == engine.matchedAmount
  {
    hide Evaluate, Acceptable, WithDuplicate, WithVendor;
    var engine := Evaluate(text, invoice, order, receipts, cfg);
    VerdictExact(text, invoice, order, receipts, cfg);
    DuplicateStops(engine, duplicate);
    VendorStops(WithDuplicate(engine, duplicate), vendor, invoice.vendorName);
  }

  /** Loosening the settings never adds an exception at the node either. */
  lemma NodeLoosening(
    text: Text, invoice: Invoice, order: Option<PurchaseOrder>, receipts: seq<GoodsReceipt>,
    a: MatchingConfig, b: MatchingConfig, duplicate: bool, vendor: Option<string>)
    requires AtLeastAsLoose(b, a)
    ensures var tight := NodeReport(text, invoice, order, receipts, a, duplicate, vendor);
            var loose := NodeReport(text, invoice, order, receipts, b, duplicate, vendor);
            && (forall e :: e in loose.exceptions ==> e in tight.exceptions)
            && (tight.IsPostable() ==> loose.IsPostable())
  {
    hide Evaluate, NodeReport, Acceptable;
    LooseningOnlyRemoves(text, invoice, order, receipts, a, b);
    NodeVerdict(text, invoice, order, receipts, a, duplicate, vendor);
    NodeVerdict(text, invoice, order, receipts, b, duplicate, vendor);
    VerdictExact(text, invoice, order, receipts, a);
    VerdictExact(text, invoice, order, receipts, b);
  }
}
