/** The two places the screen totals a bill: the Amount column of the bill list
    (`calculateBillTotal`) and the totals block of the preview modal. */
module BillTotals {
  import opened Bills
  import opened LineItems

  // ---------------------------------------------------------------------------
  // Amount column of the bill list

  /** Placeholder total of one line: quantity at the placeholder price, plus 18% GST. */
  function PlaceholderLineTotal(quantity: real, index: nat): (t: real)
    ensures quantity > 0.0 ==> t > 0.0
  {
    var taxable := quantity * PlaceholderPrice(index);
    assert quantity > 0.0 ==> taxable > 0.0;
    taxable + taxable * 18.0 / 100.0
  }

  /** Sum of placeholder totals over the first `n` lines, counting only lines
      with a positive quantity and ignoring every price field they carry. */
  function PlaceholderSum(items: seq<BillItem>, n: nat): (s: real)
    requires n <= |items|
    ensures s >= 0.0
  {
    if n == 0 then 0.0
    else
      PlaceholderSum(items, n - 1)
      + (if items[n - 1].quantity > 0.0 then PlaceholderLineTotal(items[n - 1].quantity, n - 1) else 0.0)
  }

  /** Every one of the first `n` lines is blank. */
  predicate BlankLines(items: seq<BillItem>, n: nat)
    requires n <= |items|
  {
    n == 0 || (BlankLine(items[n - 1]) && BlankLines(items, n - 1))
  }

  /** What the Amount column shows for a bill. */
  function BillAmount(bill: Bill): real
  {
    if |bill.items| == 0 then 0.0
    else if bill.api.grandTotal > 0.0 then bill.api.grandTotal
    else PlaceholderSum(bill.items, |bill.items|)
  }

  method CalculateBillTotal(bill: Bill) returns (total: real)
    ensures total == BillAmount(bill)
    ensures total >= 0.0
    ensures |bill.items| == 0 ==> total == 0.0
    ensures |bill.items| > 0 && bill.api.grandTotal > 0.0 ==> total == bill.api.grandTotal
  {
    if |bill.items| == 0 {
      return 0.0;
    }
    var apiTotal := bill.api.grandTotal;
    if apiTotal > 0.0 {
      return apiTotal;
    }
    total := 0.0;
    var idx := 0;
    while idx < |bill.items|
      invariant 0 <= idx <= |bill.items|
      invariant total == PlaceholderSum(bill.items, idx)
    {
      var quantity := bill.items[idx].quantity;
      if quantity > 0.0 {
        var mockPrice := PlaceholderPrice(idx);
        var taxableValue := quantity * mockPrice;
        var gstAmount := taxableValue * 18.0 / 100.0;
        var itemTotal := taxableValue + gstAmount;
        total := total + itemTotal;
      }
      idx := idx + 1;
    }
  }

  // ---------------------------------------------------------------------------
  // Totals block of the preview modal

  /** The five running sums of the totals block (and, reused, the five shown figures). */
  datatype Totals = Totals(taxable: real, cgst: real, sgst: real, igst: real, grand: real)

  const NoTotals := Totals(0.0, 0.0, 0.0, 0.0, 0.0)

  /** Sums of the `MockValues` fields over the first `n` lines. */
  function DerivedTotals(items: seq<BillItem>, n: nat): (d: Totals)
    requires n <= |items|
  {
    if n == 0 then NoTotals
    else
      var d := DerivedTotals(items, n - 1);
      var c := MockValues(items[n - 1], n - 1);
      Totals(d.taxable + c.taxableValue, d.cgst + c.cgst, d.sgst + c.sgst,
             d.igst + c.igst, d.grand + c.total)
  }

  /** The API figure when it is positive, else the derived one. */
  function Prefer(api: real, derived: real): (r: real)
    ensures api > 0.0 ==> r == api
    ensures api <= 0.0 ==> r == derived
  {
    if api > 0.0 then api else derived
  }

  /** The five figures the totals block shows, each chosen on its own. */
  function ShownTotals(bill: Bill): Totals
  {
    var d := DerivedTotals(bill.items, |bill.items|);
    Totals(Prefer(bill.api.totalTaxable, d.taxable), Prefer(bill.api.totalCgst, d.cgst),
           Prefer(bill.api.totalSgst, d.sgst), Prefer(bill.api.totalIgst, d.igst),
           Prefer(bill.api.grandTotal, d.grand))
  }

  /** The totals block: fold the line figures into five sums, then let each
      positive API figure replace its own sum. Returns the shown figures and the
      derived sums. */
  method ComputeTotals(bill: Bill) returns (shown: Totals, derived: Totals)
    ensures derived == DerivedTotals(bill.items, |bill.items|)
    ensures derived.grand == derived.taxable + derived.cgst + derived.sgst + derived.igst
    ensures |bill.items| == 0 ==> derived == NoTotals
    ensures shown == ShownTotals(bill)
    ensures shown.taxable == (if bill.api.totalTaxable > 0.0 then bill.api.totalTaxable else derived.taxable)
    ensures shown.cgst == (if bill.api.totalCgst > 0.0 then bill.api.totalCgst else derived.cgst)
    ensures shown.sgst == (if bill.api.totalSgst > 0.0 then bill.api.totalSgst else derived.sgst)
    ensures shown.igst == (if bill.api.totalIgst > 0.0 then bill.api.totalIgst else derived.igst)
    ensures shown.grand == (if bill.api.grandTotal > 0.0 then bill.api.grandTotal else derived.grand)
  {
    var totalTaxable, totalCgst, totalSgst, totalIgst, grandTotal := 0.0, 0.0, 0.0, 0.0, 0.0;
    var idx := 0;
    while idx < |bill.items|
      invariant 0 <= idx <= |bill.items|
      invariant Totals(totalTaxable, totalCgst, totalSgst, totalIgst, grandTotal)
                == DerivedTotals(bill.items, idx)
    {
      var calculations := MockValues(bill.items[idx], idx);
      totalTaxable := totalTaxable + calculations.taxableValue;
      totalCgst := totalCgst + calculations.cgst;
      totalSgst := totalSgst + calculations.sgst;
      totalIgst := totalIgst + calculations.igst;
      grandTotal := grandTotal + calculations.total;
      idx := idx + 1;
    }
    derived := Totals(totalTaxable, totalCgst, totalSgst, totalIgst, grandTotal);
    DerivedGrandIsSumOfParts(bill.items, |bill.items|);
    shown := Totals(
      if bill.api.totalTaxable > 0.0 then bill.api.totalTaxable else totalTaxable,
      if bill.api.totalCgst > 0.0 then bill.api.totalCgst else totalCgst,
      if bill.api.totalSgst > 0.0 then bill.api.totalSgst else totalSgst,
      if bill.api.totalIgst > 0.0 then bill.api.totalIgst else totalIgst,
      if bill.api.grandTotal > 0.0 then bill.api.grandTotal else grandTotal);
  }

  // ---------------------------------------------------------------------------
  // Properties of the derived and shown totals

  /** The derived grand total is the derived taxable value plus the derived taxes. */
  lemma {:induction false} DerivedGrandIsSumOfParts(items: seq<BillItem>, n: nat)
    requires n <= |items|
    ensures DerivedTotals(items, n).grand
            == DerivedTotals(items, n).taxable + DerivedTotals(items, n).cgst
             + DerivedTotals(items, n).sgst + DerivedTotals(items, n).igst
  {
    if n > 0 {
      DerivedGrandIsSumOfParts(items, n - 1);
    }
  }

  /** Each shown figure depends only on its own API field and the items: changing
      the other four API fields leaves it alone. */
  lemma OverrideIsPerField(bill: Bill, other: Bill)
    requires bill.items == other.items
    ensures bill.api.totalTaxable == other.api.totalTaxable ==> ShownTotals(bill).taxable == ShownTotals(other).taxable
    ensures bill.api.totalCgst == other.api.totalCgst ==> ShownTotals(bill).cgst == ShownTotals(other).cgst
    ensures bill.api.totalSgst == other.api.totalSgst ==> ShownTotals(bill).sgst == ShownTotals(other).sgst
    ensures bill.api.totalIgst == other.api.totalIgst ==> ShownTotals(bill).igst == ShownTotals(other).igst
    ensures bill.api.grandTotal == other.api.grandTotal ==> ShownTotals(bill).grand == ShownTotals(other).grand
  {
  }
}
