/** The records the Vendor Bills screen receives from the invoice API. The
    screen reads each line field under one name (`quantity`, `price`,
    `taxable_value`, `gst_rate`, `cgst`, `sgst`, `igst`) and ignores the other
    aliases the `BillItem` type declares. Every money field is an already-parsed
    real; a field the API leaves out is 0.0, a missing item list is []. */
module Bills {

  datatype Option<T> = None | Some(value: T)

  /** One invoice line (the `BillItem` type of page.tsx). Only the fields the
      reconciliation reads are kept; product names and HSN codes are display-only. */
  datatype BillItem = BillItem(
    quantity: real,
    price: real,
    taxableValue: real,
    gstRate: real,
    cgst: real,
    sgst: real,
    igst: real)

  /** The `Retailer` field of a bill: absent (undefined or null), a record whose
      `name` may be "" (missing), or a bare string. */
  datatype Retailer =
    | NoRetailer
    | RetailerRecord(name: string)
    | RetailerText(text: string)

  /** The five authoritative totals an invoice may carry (0.0 when missing). */
  datatype ApiTotals = ApiTotals(
    totalTaxable: real,
    totalCgst: real,
    totalSgst: real,
    totalIgst: real,
    grandTotal: real)

  datatype Bill = Bill(
    invoiceNumber: string,
    retailer: Retailer,
    retailerName: string,
    items: seq<BillItem>,
    api: ApiTotals)
}
