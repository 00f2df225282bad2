/** Where the bill list's Amount column and the preview modal's Grand Total
    agree, and where they do not: the list prices every line at its placeholder
    price, the modal keeps real line data. */
module TotalsAgreement {
  import opened Bills
  import opened LineItems
  import opened BillTotals

  /** The placeholder total of one line, as the list computes it, is the total
      the modal computes for that line when the line is blank. */
  lemma BlankLineTotalsAgree(item: BillItem, index: nat)
    requires BlankLine(item)
    ensures (if item.quantity > 0.0 then PlaceholderLineTotal(item.quantity, index) else 0.0)
            == MockValues(item, index).total
  {
    var c := MockValues(item, index);
    if item.quantity > 0.0 {
      var taxable := item.quantity * PlaceholderPrice(index);
      assert c.total == taxable * 118.0 / 100.0;
      assert PlaceholderLineTotal(item.quantity, index) == taxable + taxable * 18.0 / 100.0;
    } else {
      NonPositiveQuantityPassesThrough(item, index);
    }
  }

  lemma {:induction false} AllBlankLines(items: seq<BillItem>, n: nat)
    requires n <= |items|
    requires forall i :: 0 <= i < |items| ==> BlankLine(items[i])
    ensures BlankLines(items, n)
  {
    if n > 0 {
      AllBlankLines(items, n - 1);
    }
  }

  /** On blank lines the list's placeholder sum and the modal's derived grand
      total agree. */
  lemma {:induction false} PlaceholderSumMatchesDerived(items: seq<BillItem>, n: nat)
    requires n <= |items|
    requires BlankLines(items, n)
    ensures PlaceholderSum(items, n) == DerivedTotals(items, n).grand
  {
    if n > 0 {
      assert BlankLines(items, n - 1) && BlankLine(items[n - 1]);
      PlaceholderSumMatchesDerived(items, n - 1);
      BlankLineTotalsAgree(items[n - 1], n - 1);
      SumsAgreeStep(items, n);
    }
  }

  /** One step of the agreement: equal sums over the first n - 1 lines and
      equal totals for line n - 1 give equal sums over n lines. */
  lemma SumsAgreeStep(items: seq<BillItem>, n: nat)
    requires 0 < n <= |items|
    requires PlaceholderSum(items, n - 1) == DerivedTotals(items, n - 1).grand
    requires (if items[n - 1].quantity > 0.0 then PlaceholderLineTotal(items[n - 1].quantity, n - 1) else 0.0)
             == MockValues(items[n - 1], n - 1).total
    ensures PlaceholderSum(items, n) == DerivedTotals(items, n).grand
  {
    PlaceholderSumStep(items, n);
    DerivedGrandStep(items, n);
  }

  lemma PlaceholderSumStep(items: seq<BillItem>, n: nat)
    requires 0 < n <= |items|
    ensures PlaceholderSum(items, n) == PlaceholderSum(items, n - 1)
      + (if items[n - 1].quantity > 0.0 then PlaceholderLineTotal(items[n - 1].quantity, n - 1) else 0.0)
  {
  }

  lemma DerivedGrandStep(items: seq<BillItem>, n: nat)
    requires 0 < n <= |items|
    ensures DerivedTotals(items, n).grand == DerivedTotals(items, n - 1).grand + MockValues(items[n - 1], n - 1).total
  {
  }

  /** The list's Amount and the modal's Grand Total agree whenever the bill has
      items and either carries a positive grand total or has only blank lines. */
  lemma ListAndModalAgree(bill: Bill)
    requires |bill.items| > 0
    requires bill.api.grandTotal > 0.0 || forall i :: 0 <= i < |bill.items| ==> BlankLine(bill.items[i])
    ensures BillAmount(bill) == ShownTotals(bill).grand
  {
    if bill.api.grandTotal <= 0.0 {
      AllBlankLines(bill.items, |bill.items|);
      PlaceholderSumMatchesDerived(bill.items, |bill.items|);
    }
  }

  /** The Amount column ignores real line prices: a single line of quantity 1
      priced 500, on a bill without a positive grand total, is listed at 118
      but totalled at 500 in the modal. */
  lemma ListIgnoresLinePrices(bill: Bill)
    requires bill.items == [BillItem(1.0, 500.0, 500.0, 0.0, 0.0, 0.0, 0.0)]
    requires bill.api.grandTotal <= 0.0
    ensures BillAmount(bill) == 118.0
    ensures ShownTotals(bill).grand == 500.0
  {
    ListedAtPlaceholder(bill.items);
    ModalKeepsLinePrice(bill.items);
  }

  lemma ListedAtPlaceholder(items: seq<BillItem>)
    requires items == [BillItem(1.0, 500.0, 500.0, 0.0, 0.0, 0.0, 0.0)]
    ensures PlaceholderSum(items, |items|) == 118.0
  {
    assert |items| == 1;
    assert PlaceholderSum(items, 0) == 0.0;
    PlaceholderSumStep(items, 1);
    assert PlaceholderPrice(0) == 100.0;
    assert PlaceholderLineTotal(1.0, 0) == 118.0;
  }

  lemma ModalKeepsLinePrice(items: seq<BillItem>)
    requires items == [BillItem(1.0, 500.0, 500.0, 0.0, 0.0, 0.0, 0.0)]
    ensures DerivedTotals(items, |items|).grand == 500.0
  {
    assert |items| == 1;
    assert DerivedTotals(items, 0) == NoTotals;
    DerivedGrandStep(items, 1);
    assert !TakesPlaceholder(items[0]);
    assert MockValues(items[0], 0).total == 500.0;
  }

  /** A bill without items is listed at 0 even when it carries a positive grand
      total, which the modal does show. */
  lemma ListIgnoresGrandTotalWithoutItems(bill: Bill)
    requires |bill.items| == 0 && bill.api.grandTotal > 0.0
    ensures BillAmount(bill) == 0.0
    ensures ShownTotals(bill).grand == bill.api.grandTotal
  {
  }
}
