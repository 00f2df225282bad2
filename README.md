# Vendor bills screen — verified model

This project models the logic of the manufacturer's vendor-bills screen
(`app/manufacturer/accounting/vendorBills/page.tsx`). That screen lists the
bills a manufacturer received from retailers and opens one of them in a
preview modal, from which it can be downloaded. The model covers the parts
of the screen that compute something:

- `calculateMockValues` reconciles each line item. A line whose price,
  taxable value and GST rate are all zero but whose quantity is positive gets
  placeholder figures: the price is `100 + 50 * index`, GST is 18%, and it is
  split evenly into CGST and SGST. Every other line keeps its own figures.
  This is `LineItems` in `line_items.dfy`.
- `calculateBillTotal` computes the Amount column of the bill list. The
  totals block of the modal folds the reconciled lines into five sums and lets
  each positive API figure replace its own sum. Both are in `BillTotals` in
  `bill_totals.dfy`, as methods with the source's loops, proved against
  recursive specification functions.
- `TotalsAgreement` in `totals_agreement.dfy` relates the list amount to the
  modal's grand total. In the model they agree when the bill has items and
  carries a positive grand total, and also when it has items that are all
  blank. The model does not round, so it misses one case where they differ: a
  grand total between 0 and 0.005 (see "## Left out"). They
  can disagree once a line carries real prices (`ListIgnoresLinePrices`), and
  they do disagree for a bill without items but with a positive grand total.
- `getRetailerName` resolves the retailer's display name, with JavaScript's
  `trim` written out. This is `RetailerNames` in `retailer.dfy`.
- `FallbackButton` covers the class string built with `+=`, the `tabIndex`,
  and the gating of clicks and Enter/Space key presses. It is in
  `fallback_button.dfy`.
- The modal's three state fields `selectedBill`, `showModal` and
  `shouldDownload` are modelled as the class `BillModal.ModalState` in
  `bill_modal.dfy`. It has methods for `openBill`, `closeModal`,
  `handleDownloadAction` and the download effect.

The shared data types are in `Bills` (`bills.dfy`):

- amounts are `real`;
- a missing numeric field is `0.0`;
- a missing item list is the empty sequence;
- the retailer is absent, a record with a name, or a bare string.

A line with quantity ≤ 0 is never zeroed: `page.tsx:250-263` passes all of its
own figures through, as `LineItems.NonPositiveQuantityPassesThrough` states.

## Model

| member | source | states |
|---|---|---|
| LineItems.PlaceholderPrice | app/manufacturer/accounting/vendorBills/page.tsx:232 | the placeholder unit price `100 + 50 * index` is at least 100, so a placeholder line never looks blank again |
| LineItems.MockValues | app/manufacturer/accounting/vendorBills/page.tsx:222-264 | every computed row has total = taxable + CGST + SGST + IGST; when price, taxable value and GST rate are all 0 and quantity > 0: price = 100 + 50·index, rate 18, taxable = quantity·price, CGST = SGST = taxable·9/100, IGST = 0, total = taxable·118/100; otherwise price, taxable value, rate and the three taxes are the item's own |
| LineItems.MockValuesIdempotent | app/manufacturer/accounting/vendorBills/page.tsx:222-264 | feeding a computed row back in as API data, at any position, yields the same row |
| LineItems.NonPositiveQuantityPassesThrough | app/manufacturer/accounting/vendorBills/page.tsx:250-263 | a line with quantity ≤ 0 keeps all of its own figures, whatever its prices: price, taxable value, GST rate, CGST, SGST and IGST are the item's, and the total is its taxable value plus its three taxes |
| LineItems.RealDataIsKept | app/manufacturer/accounting/vendorBills/page.tsx:225-230 | one non-zero price, taxable value or GST rate is enough to keep all of the line's own figures: price, taxable value, GST rate, CGST, SGST and IGST are the item's, and the total is its taxable value plus its three taxes |
| BillTotals.PlaceholderLineTotal | app/manufacturer/accounting/vendorBills/page.tsx:208-213 | the list's placeholder total of a line with positive quantity is positive |
| BillTotals.PlaceholderSum | app/manufacturer/accounting/vendorBills/page.tsx:205-216 | the sum of placeholder totals over lines with positive quantity is never negative |
| BillTotals.CalculateBillTotal | app/manufacturer/accounting/vendorBills/page.tsx:197-219 | the loop computes `BillAmount`: 0 for no items even when the grand total is positive, the API grand total when it is positive and items exist, else the placeholder sum; the result is never negative |
| BillTotals.Prefer | app/manufacturer/accounting/vendorBills/page.tsx:655-674 | a shown figure is the API figure when that is positive, and the derived one otherwise |
| BillTotals.ComputeTotals | app/manufacturer/accounting/vendorBills/page.tsx:636-674 | the loop's five sums are the sums of the reconciled line fields (all 0 for no items); the derived grand total is taxable + CGST + SGST + IGST; each shown figure is its API figure when positive, else its own derived sum |
| BillTotals.DerivedGrandIsSumOfParts | app/manufacturer/accounting/vendorBills/page.tsx:644-651 | over any prefix of the items, the derived grand total equals derived taxable + CGST + SGST + IGST |
| BillTotals.OverrideIsPerField | app/manufacturer/accounting/vendorBills/page.tsx:655-674 | each shown figure depends only on its own API field and the items; changing the other four API fields leaves it unchanged |
| TotalsAgreement.BlankLineTotalsAgree | app/manufacturer/accounting/vendorBills/page.tsx:208-213 | on a blank line, the list's line total (placeholder for positive quantity, else 0) equals the modal's reconciled line total |
| TotalsAgreement.PlaceholderSumMatchesDerived | app/manufacturer/accounting/vendorBills/page.tsx:644-651 | on blank lines, the list's placeholder sum equals the modal's derived grand total |
| TotalsAgreement.ListAndModalAgree | app/manufacturer/accounting/vendorBills/page.tsx:197-219 | for a bill with items, the Amount column equals the modal's Grand Total when the API grand total is positive or every line is blank |
| TotalsAgreement.ListIgnoresLinePrices | app/manufacturer/accounting/vendorBills/page.tsx:206-216 | one line of quantity 1 priced 500 with no positive grand total is listed at 118 but totalled at 500 in the modal |
| TotalsAgreement.ListIgnoresGrandTotalWithoutItems | app/manufacturer/accounting/vendorBills/page.tsx:198 | a bill without items is listed at 0 even when its positive grand total is shown in the modal |
| RetailerNames.Trim | app/manufacturer/accounting/vendorBills/page.tsx:187 | `trim` yields the empty string exactly when every character is ECMAScript white space or a line terminator |
| RetailerNames.RetailerName | app/manufacturer/accounting/vendorBills/page.tsx:183-194 | the name is never empty; it is the record's name when non-empty, else the bare string when not blank, else the fallback name when not blank, else "Unknown Retailer" |
| FallbackButton.ButtonClasses | app/manufacturer/accounting/vendorBills/page.tsx:53-82 | the string built by appending is the base classes, one state fragment, one variant fragment, one size fragment, then " " + className only when className is non-empty |
| FallbackButton.ClassStringShape | app/manufacturer/accounting/vendorBills/page.tsx:53-82 | the class string starts with the base classes; it ends with " " + className when className is non-empty, else with the size fragment |
| FallbackButton.ClassStringInjective | app/manufacturer/accounting/vendorBills/page.tsx:53-82 | the class string determines the disabled flag, the variant, the size and className: equal class strings come from equal props |
| FallbackButton.TabIndex | app/manufacturer/accounting/vendorBills/page.tsx:87 | tabIndex is −1 exactly when disabled, else 0 |
| FallbackButton.InvokesOnClick | app/manufacturer/accounting/vendorBills/page.tsx:27-51 | onClick is called exactly when there is one, the button is enabled, and the event is a click or a key press of "Enter" or " " |
| FallbackButton.DisabledButtonIsInert | app/manufacturer/accounting/vendorBills/page.tsx:30 | a disabled button is out of the tab order and no event reaches onClick |
| BillModal.ModalState.constructor | app/manufacturer/accounting/vendorBills/page.tsx:269-272 | the page starts with no bill selected, the modal hidden and no download pending |
| BillModal.ModalState.OpenBill | app/manufacturer/accounting/vendorBills/page.tsx:329-333 | selects the bill and shows the modal; the download flag is unchanged; the state stays consistent |
| BillModal.ModalState.CloseModal | app/manufacturer/accounting/vendorBills/page.tsx:335-339 | hides the modal, clears the selection and cancels any pending download |
| BillModal.ModalState.DownloadAction | app/manufacturer/accounting/vendorBills/page.tsx:346-349 | selects the bill, shows the modal and sets a pending download |
| BillModal.ModalState.DownloadEffect | app/manufacturer/accounting/vendorBills/page.tsx:412-419 | fires only when a download is pending and the invoice is mounted, downloading the selected bill and clearing the flag; otherwise nothing changes; from a consistent state no download is pending afterwards |
| BillModal.DownloadFromList | app/manufacturer/accounting/vendorBills/page.tsx:346-349 | Download on a list row downloads exactly that bill and leaves the modal open with no download pending |
| BillModal.ViewThenClose | app/manufacturer/accounting/vendorBills/page.tsx:335-339 | after `openBill` the download effect downloads nothing, and after `closeModal` it does nothing either |

## Left out

- Fetching the bills, reading the token and company id from `localStorage`, and unwrapping the `results` envelope (`page.tsx:274-297`) are network and storage I/O, so they are not modelled. The bill list is taken as given.
- The print path (`handlePrint` at `page.tsx:300-327` and `handlePrintAction` at `page.tsx:341-344`) and router navigation (`page.tsx:351-365`) are browser side effects and are not modelled.
- The modal's own Print and Download buttons (`page.tsx:718-724`) call `handlePrint` and `handleDownload` directly, without touching the three flags. That download path is not modelled. `BillModal.ViewThenClose` states only that the download effect never fires after `openBill` or `closeModal`; it does not rule out a download by the modal's own button.
- The body of `handleDownload` (`page.tsx:367-410`) clones DOM nodes, builds HTML and clicks a Blob URL. It is modelled only as the effect returning the downloaded bill.
- The `setTimeout` delays and React's batching of state updates are not modelled. Each handler and the download effect are single atomic steps.
- BillModal.ModalState.DownloadEffect: the source tests `printRef.current`. The model uses `Mounted()`, which holds while the modal is shown for a selected bill, because the ref is attached exactly when the invoice markup is rendered.
- BillTotals.Prefer: the source tests `parseFloat(formatNumber(x)) > 0`, which rounds to two decimals with `toFixed(2)` first. So a positive figure below 0.005 counts as absent there but as present in the model. The model tests `x > 0` and does no rounding.
- TotalsAgreement.ListAndModalAgree: the list tests the unrounded grand total (`page.tsx:201-202`), while the modal tests it after `toFixed(2)` (`page.tsx:671-674`). In the source the two therefore differ when 0 < grand total < 0.005: the list shows that figure and the modal shows the derived sum. The model gives both places the same unrounded `> 0` test, so the lemma does not cover that case.
- BillTotals.ComputeTotals: the shown figures are the unrounded numbers. The source shows `toFixed(2)` strings. Its override test is the one described for `Prefer`.
- `formatNumber` (`page.tsx:176-180`) is floating-point formatting and is not modelled.
- Amounts are exact reals, so IEEE-754 rounding in the sums and products is not modelled.
- `parseFloat` of an arbitrary string is not modelled. Fields are taken as already-parsed numbers, with a missing field read as 0. An unparsable field gives NaN in the source. NaN is not equal to 0, so such a line skips the placeholder branch there. The model has no NaN.
- FallbackButton.InvokesOnClick: the model states whether `onClick` is called. Awaiting a returned promise, catching and logging its error, and `preventDefault`/`stopPropagation` are not modelled.
- Display-only fields (product id, HSN code, dates, payment mode and status, company) and all JSX, CSS and console logging are not modelled.
- `app/layout.tsx` is not part of this model. It only wraps the page in a theme provider.
