/** Per-line reconciliation: `calculateMockValues`. A line whose price, taxable
    value and GST rate are all zero but whose quantity is positive gets
    placeholder figures; every other line keeps its own fields. */
module LineItems {
  import opened Bills

  /** The figures shown for one line. */
  datatype Computed = Computed(
    price: real,
    taxableValue: real,
    gstRate: real,
    cgst: real,
    sgst: real,
    igst: real,
    total: real)

  /** Flat GST rate, in percent, used for placeholder lines. */
  const PlaceholderGstRate: real := 18.0

  /** Placeholder unit price of the line at position `index`. */
  function PlaceholderPrice(index: nat): (p: real)
    ensures p >= 100.0
  {
    (100 + 50 * index) as real
  }

  /** `hasZeroValues`: the API gave no price, taxable value or GST rate. */
  predicate HasZeroValues(item: BillItem)
  {
    item.price == 0.0 && item.taxableValue == 0.0 && item.gstRate == 0.0
  }

  /** The placeholder branch is taken exactly when this holds. */
  predicate TakesPlaceholder(item: BillItem)
  {
    HasZeroValues(item) && item.quantity > 0.0
  }

  /** True when a computed line is internally consistent: its total is the sum of
      the taxable value and the three tax components. */
  predicate Balanced(c: Computed)
  {
    c.total == c.taxableValue + c.cgst + c.sgst + c.igst
  }

  /** A line the API left completely blank: no price, rate or amounts. */
  predicate BlankLine(item: BillItem)
  {
    HasZeroValues(item) && item.cgst == 0.0 && item.sgst == 0.0 && item.igst == 0.0
  }

  function MockValues(item: BillItem, index: nat): (c: Computed)
    ensures Balanced(c)
    ensures TakesPlaceholder(item) ==>
      && c.price == PlaceholderPrice(index)
      && c.gstRate == 18.0
      && c.taxableValue == item.quantity * c.price
      && c.cgst == c.taxableValue * 9.0 / 100.0
      && c.sgst == c.cgst
      && c.igst == 0.0
      && c.total == c.taxableValue * 118.0 / 100.0
    ensures !TakesPlaceholder(item) ==>
      && c.price == item.price
      && c.taxableValue == item.taxableValue
      && c.gstRate == item.gstRate
      && c.cgst == item.cgst
      && c.sgst == item.sgst
      && c.igst == item.igst
  {
    if TakesPlaceholder(item) then
      var mockPrice := PlaceholderPrice(index);
      var mockGstRate := PlaceholderGstRate;
      var taxableValue := item.quantity * mockPrice;
      var gstAmount := taxableValue * mockGstRate / 100.0;
      var cgst := gstAmount / 2.0;
      var sgst := gstAmount / 2.0;
      Computed(mockPrice, taxableValue, mockGstRate, cgst, sgst, 0.0, taxableValue + cgst + sgst)
    else
      OwnFigures(item)
  }

  /** The line a computed row would be if fed back as API data. */
  function AsItem(quantity: real, c: Computed): BillItem
  {
    BillItem(quantity, c.price, c.taxableValue, c.gstRate, c.cgst, c.sgst, c.igst)
  }

  /** Reconciliation never overrides data it produced itself: feeding a computed
      row back in, at any position, yields the same row. */
  lemma MockValuesIdempotent(item: BillItem, index: nat, other: nat)
    ensures MockValues(AsItem(item.quantity, MockValues(item, index)), other) == MockValues(item, index)
  {
    var c := MockValues(item, index);
    if TakesPlaceholder(item) {
      assert c.price >= 100.0;
      assert !TakesPlaceholder(AsItem(item.quantity, c));
    } else {
      assert AsItem(item.quantity, c) == item;
    }
  }

  /** The row of a line that keeps its own figures: every field is the API's,
      and the total is the taxable value plus the three taxes. */
  function OwnFigures(item: BillItem): Computed
  {
    Computed(item.price, item.taxableValue, item.gstRate, item.cgst, item.sgst, item.igst,
             item.taxableValue + item.cgst + item.sgst + item.igst)
  }

  /** A line with no positive quantity is never given placeholder figures: all
      its fields are the API's own, whatever its prices are. */
  lemma NonPositiveQuantityPassesThrough(item: BillItem, index: nat)
    requires item.quantity <= 0.0
    ensures MockValues(item, index) == OwnFigures(item)
  {
  }

  /** Any one non-zero price, taxable value or GST rate is enough to keep all of
      the line's own fields. */
  lemma RealDataIsKept(item: BillItem, index: nat)
    requires item.price != 0.0 || item.taxableValue != 0.0 || item.gstRate != 0.0
    ensures MockValues(item, index) == OwnFigures(item)
  {
  }
}
