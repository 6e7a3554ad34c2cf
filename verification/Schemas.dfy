/** The records that travel through the agent: extracted documents, ERP master data, settings. */
module Schemas {
  import opened Prelude

  datatype ExceptionType =
    | PriceVariance | QuantityVariance | TotalVariance | TaxVariance
    | MissingPo | MissingGoodsReceipt | DuplicateInvoice | UnknownVendor
    | LowConfidenceExtraction | LineNotOnPo | OverAutoPostCeiling | CurrencyMismatch

  datatype InvoiceLine = InvoiceLine(
    lineNumber: Option<int>, poLineNumber: Option<int>, description: string,
    materialCode: Option<string>, quantity: real, unitPrice: real, lineTotal: real)

  /** totalText is how the extracted total prints: 10.0 and 10.00 are equal amounts with different texts. */
  datatype Invoice = Invoice(
    invoiceNumber: Option<string>, dated: bool, purchaseOrderNumber: Option<string>,
    vendorName: Option<string>, currency: Option<string>,
    subtotal: Option<real>, taxAmount: Option<real>, totalAmount: Option<real>, totalText: string,
    lineItems: seq<InvoiceLine>, confidence: real)
  {
    function Total(): real {
      if totalAmount.Some? then totalAmount.value else 0.0
    }
  }

  datatype PoLine = PoLine(
    lineNumber: int, materialCode: Option<string>, description: string,
    quantityOrdered: real, quantityReceived: real, quantityInvoiced: real, unitPrice: real)

  datatype PurchaseOrder = PurchaseOrder(
    poNumber: string, vendorId: string, currency: string, status: string,
    goodsReceiptRequired: bool, taxAmount: real, grossAmount: real, lines: seq<PoLine>)

  datatype ReceiptLine = ReceiptLine(poLineNumber: int, quantityReceived: real)

  datatype GoodsReceipt = GoodsReceipt(grNumber: string, poNumber: string, lines: seq<ReceiptLine>)

  datatype ArItem = ArItem(
    id: string, invoiceNumber: string, customerId: string,
    openAmount: real, originalAmount: real, status: string)

  datatype MatchingConfig = MatchingConfig(
    priceTolerancePct: real, priceToleranceAbs: real,
    quantityTolerancePct: real, quantityToleranceAbs: real,
    totalTolerancePct: real, totalToleranceAbs: real, taxToleranceAbs: real,
    autoPostCeiling: real, minExtractionConfidence: real, remittanceToleranceAbs: real)

  const DEFAULT_CONFIG := MatchingConfig(2.0, 5.0, 0.0, 0.0, 1.0, 10.0, 1.0, 25000.0, 0.75, 2.0)

  /** The text operations of the host libraries. Nothing is assumed about them. */
  datatype Text = Text(
    upper: string -> string,
    stripUpper: string -> string,
    stripLower: string -> string,
    similarity: (string, string) -> real)

  predicate Truthy(s: Option<string>) {
    s.Some? && s.value != ""
  }

  function OrElse(s: Option<string>, fallback: string): string {
    if Truthy(s) then s.value else fallback
  }
}
