# Invoice pricing calculator — a Dafny model

This project models `InvoiceService.compute_total`, the one calculation of
the invoice pricing service. Given an `Invoice` of `LineItem`s, it:

1. rejects the invoice if any line has a quantity of zero or less. The error
   lists every such line, joined by `"; "`;
2. sums the subtotal (`unit_price * qty`) and the fragile surcharge
   (`5.0 * qty` per fragile line);
3. computes the discount. The membership part is gold 3 %, platinum 5 %, or
   a flat 20 for anyone else above 3000. The coupon part is 10 %, 20 % or 5 %
   for `WELCOME10`, `VIP20` or `STUDENT5`, and an `"Unknown coupon"` warning
   for any other non-blank code;
4. charges shipping by country (TH, JP, US, or any other country) on the
   pre-discount subtotal;
5. taxes `subtotal - discount` at the country rate (TH 7 %, JP 10 %, US 8 %,
   5 % otherwise) without clamping;
6. clamps `subtotal + shipping + fee + tax - discount` at zero;
7. appends `"Consider membership upgrade"` when the subtotal is above 10000 and
   the membership is neither gold nor platinum.

Monetary amounts are Dafny `real`s: exact decimal money, with no floating-point
rounding. Validation failure, which the source raises as a `ValueError`, is the
`Failure` case of the `Outcome` datatype.

Files:

- `text.dfy`, module `Text`: the three Python built-ins the code depends on.
  These are `str.strip()` (over an explicit ASCII whitespace set),
  `"; ".join(...)`, and the decimal rendering of an `int` in an f-string.
- `invoice_service.dfy`, module `InvoiceService`: holds the records, the
  coupon and tax tables as constants, and the specification functions for
  each step. It also holds the source's imperative code as methods:
  - `Validate` is a loop that collects problems;
  - `CalculateDiscount` accumulates the discount and the warnings;
  - `ComputeTotal` is the pipeline with the final warning append.

  Each method is proved equal to its specification function. The module ends
  with lemmas about the whole pricing outcome.
- `scenarios.dfy`, module `Scenarios`: worked invoices priced exactly, each a
  lemma. Examples: 488 for a Thai standard order, and 949.6 for a US gold order
  with `WELCOME10` and two fragile units.

Observations from the proofs:

- `unit_price` is never checked, so the model accepts negative prices.
- With non-negative prices the discount never exceeds the subtotal
  (`DiscountAtMostSubtotal`). So the clamp at zero can only take effect when
  some line has a negative price (`ClampInactiveForNonNegativePrices`,
  `ScenarioClampedToZero`).

## Model

| member | source | states |
|---|---|---|
| `Text.LeadingSpacesExact` | src/invoice_service.py:85-86 | the leading-whitespace count covers exactly the whitespace run at the start of the string |
| `Text.TrailingSpacesExact` | src/invoice_service.py:85-86 | the trailing-whitespace count covers exactly the whitespace run at the end of the string |
| `Text.Strip` | src/invoice_service.py:86 | the stripped code is never longer than the input; `StripExact` and `StripIdempotent` characterize it |
| `Text.StripExact` | src/invoice_service.py:85-86 | `strip()` returns an infix of the input that neither starts nor ends with whitespace; what it cuts off before and after that infix is whitespace; and it returns the empty string exactly when the input is blank |
| `Text.StripUnpadded` | src/invoice_service.py:86 | a string with no whitespace at either end strips to itself |
| `Text.StripIdempotent` | src/invoice_service.py:85-86 | stripping twice is the same as stripping once |
| `Text.Join` | src/invoice_service.py:41 | `sep.join(parts)`: the parts in order with `sep` between neighbours; characterized by `JoinAppend`, `JoinTwo` and `JoinContains` |
| `Text.JoinAppend` | src/invoice_service.py:41 | joining two non-empty runs of problems is the join of the first, the separator, then the join of the second, so the parts keep their order with one separator between neighbours |
| `Text.JoinTwo` | src/invoice_service.py:41 | joining two problems puts the separator between them |
| `Text.JoinContains` | src/invoice_service.py:41 | every joined part occurs, whole, in the joined message |
| `Text.NatToString` | src/invoice_service.py:35 | the rendering is one or more decimal digits, and it starts with `0` only when it is exactly `"0"`, so there is no leading zero |
| `Text.IntToString` | src/invoice_service.py:35 | a quantity renders with a leading minus sign exactly when it is negative |
| `Text.NatToStringRoundTrip` | src/invoice_service.py:35 | reading the rendered digits back gives the original number |
| `InvoiceService.Message` | src/invoice_service.py:35 | the message for one offending item, `"Invalid quantity for <sku>: <qty>"`; its use is stated by `ProblemsMatchOffenders` and `FailureNamesEveryOffender` |
| `InvoiceService.Problems` | src/invoice_service.py:31-36 | validation never reports more problems than there are items |
| `InvoiceService.OffendingIndices` | src/invoice_service.py:33-34 | the offending positions are in range, ascending, all have `qty <= 0`, and include every item with `qty <= 0` |
| `InvoiceService.ProblemsMatchOffenders` | src/invoice_service.py:31-36 | there is exactly one message per offending item, in item order, and the k-th message is the one for the k-th offending item |
| `InvoiceService.ProblemsEmptyIff` | src/invoice_service.py:31-36 | the problem list is empty if and only if every quantity is positive |
| `InvoiceService.Validate` | src/invoice_service.py:31-36 | the loop returns the specified problem list, which is empty exactly for valid quantities |
| `InvoiceService.LineAmount` | src/invoice_service.py:57 | a line with a non-negative price and a positive quantity costs a non-negative amount |
| `InvoiceService.Subtotal` | src/invoice_service.py:57 | the sum of `unit_price * qty` over the items; characterized by `SubtotalAppend` (it splits over concatenation) and `SubtotalNonNegative` |
| `InvoiceService.SubtotalNonNegative` | src/invoice_service.py:57 | non-negative prices and positive quantities give a non-negative subtotal |
| `InvoiceService.SubtotalAppend` | src/invoice_service.py:57 | the subtotal of two item lists joined end to end is the sum of their subtotals |
| `InvoiceService.FragileFee` | src/invoice_service.py:58 | the sum of `5.0 * qty` over fragile items; characterized by `FragileFeePerUnit`, `FragileFeeAppend`, `NoFragileNoFee` and `FragileFeeNonNegative` |
| `InvoiceService.FragileFeeNonNegative` | src/invoice_service.py:58 | the fragile surcharge of a valid invoice is non-negative |
| `InvoiceService.NoFragileNoFee` | src/invoice_service.py:58 | with no fragile item the surcharge is zero |
| `InvoiceService.FragileFeePerUnit` | src/invoice_service.py:58 | the surcharge is 5.0 times the number of fragile units |
| `InvoiceService.FragileFeeAppend` | src/invoice_service.py:58 | the surcharge of two item lists joined end to end is the sum of their surcharges |
| `InvoiceService.Shipping` | src/invoice_service.py:61-70 | shipping is one of 0, 8, 15, 25, 60, 600, and is 0 exactly when the subtotal reaches the country threshold (TH 500, JP 4000, US 300, otherwise 200) |
| `InvoiceService.ShippingNonIncreasing` | src/invoice_service.py:61-70 | for a fixed country, a larger subtotal never costs more shipping |
| `InvoiceService.MembershipDiscount` | src/invoice_service.py:77-82 | for a non-negative subtotal the membership part is between 0 and 5 % of the subtotal, or is the flat 20; below gold and platinum the flat 20 applies exactly above 3000 |
| `InvoiceService.LookupCoupon` | src/invoice_service.py:85-88 | classifies the coupon field as no coupon, a known code with its rate, or an unknown code; characterized by `LookupCouponCases` |
| `InvoiceService.LookupCouponCases` | src/invoice_service.py:85-88 | an absent, empty or whitespace-only coupon counts as no coupon, and a known code carries one of the table's rates, between 0 and 20 % |
| `InvoiceService.CouponDiscount` | src/invoice_service.py:89 | `rate * subtotal` for a known code and 0 otherwise; bounded by `CouponDiscountBounds` |
| `InvoiceService.CouponDiscountBounds` | src/invoice_service.py:85-89 | the coupon part is between 0 and 20 % of a non-negative subtotal, and is 0 unless the stripped code is in the table |
| `InvoiceService.CouponWarnings` | src/invoice_service.py:85-91 | there is at most one coupon warning, it is `"Unknown coupon"`, and it appears exactly for a non-blank code missing from the table |
| `InvoiceService.Discount` | src/invoice_service.py:72-93 | the membership part plus the coupon part; `CalculateDiscount` is proved equal to it and `DiscountAtMostSubtotal` bounds it |
| `InvoiceService.CalculateDiscount` | src/invoice_service.py:72-93 | the accumulated discount is the membership part plus the coupon part, and the warnings are the coupon warnings |
| `InvoiceService.DiscountAtMostSubtotal` | src/invoice_service.py:72-93 | for a non-negative subtotal the whole discount is between 0 and the subtotal |
| `InvoiceService.TaxRate` | src/invoice_service.py:28-29 | the rate is one of 5 %, 7 %, 8 %, 10 %, and is the default 5 % for any country outside TH, JP, US |
| `InvoiceService.Tax` | src/invoice_service.py:47 | tax is negative exactly when the discount exceeds the subtotal and zero exactly when they are equal, so it is not clamped |
| `InvoiceService.Max0` | src/invoice_service.py:49 | the clamp is the least value that is at least 0 and at least its argument |
| `InvoiceService.UpgradeAdvised` | src/invoice_service.py:51 | the advisory condition, subtotal above 10000 and membership neither gold nor platinum; `WarningsInOrder` ties it to the presence of the warning |
| `InvoiceService.Pricing` | src/invoice_service.py:38-54 | a successful outcome has a non-negative total and at most two warnings |
| `InvoiceService.ComputeTotal` | src/invoice_service.py:38-54 | the pipeline returns the specified outcome: a failure exactly when some quantity is not positive, and otherwise a non-negative total |
| `InvoiceService.FailsIffInvalidQuantity` | src/invoice_service.py:39-41 | pricing fails if and only if some item has `qty <= 0`, and the failure carries the `"; "`-joined problems and no total |
| `InvoiceService.FailureNamesEveryOffender` | src/invoice_service.py:31-41 | for every item with `qty <= 0`, that item's message occurs in the failure message |
| `InvoiceService.SuccessTotal` | src/invoice_service.py:43-49 | a valid invoice succeeds, with total `max(0, subtotal + shipping + fee + tax - discount)`, where shipping is on the pre-discount subtotal |
| `InvoiceService.ClampInactiveForNonNegativePrices` | src/invoice_service.py:49 | with non-negative prices the total is the unclamped sum |
| `InvoiceService.WarningsInOrder` | src/invoice_service.py:45-54 | the warnings are exactly the coupon warning, if the code is unknown, followed by the upgrade advisory, if the subtotal is above 10000 and the membership is neither gold nor platinum; their number is the count of those two conditions that hold, so no other warning can occur |
| `InvoiceService.UnknownCouponOnlyWarns` | src/invoice_service.py:85-91 | a non-blank unknown code gives the same total as no coupon, and the same warnings with `"Unknown coupon"` in front |
| `InvoiceService.BlankCouponIsAbsent` | src/invoice_service.py:85 | a whitespace-only coupon prices exactly like no coupon |
| `InvoiceService.StandardTiersAgree` | src/invoice_service.py:77-82 | any two memberships other than gold and platinum give the same outcome |
| `Scenarios.ScenarioThailandStandard` | src/invoice_service.py:38-54 | TH, standard, no coupon, subtotal 400: total 488, no warnings |
| `Scenarios.ScenarioUnitedStatesGold` | src/invoice_service.py:38-54 | US, gold, `WELCOME10`, subtotal 1000 with two fragile units: total 949.6, no warnings |
| `Scenarios.ScenarioUnknownCountryBlankCoupon` | src/invoice_service.py:38-54 | an unlisted country with a blank coupon gets default shipping 25 and default tax 5 %: total 130, no warnings |
| `Scenarios.ScenarioPlatinumWithCoupon` | src/invoice_service.py:77-89 | platinum with `VIP20` adds both parts: 0.05 and 0.20 of the subtotal |
| `Scenarios.ScenarioTwoWarnings` | src/invoice_service.py:38-54 | JP, a standard tier, coupon `" FREE "`, subtotal 12000: total 13178, warnings `["Unknown coupon", "Consider membership upgrade"]` |
| `Scenarios.ScenarioClampedToZero` | src/invoice_service.py:49 | a negative-priced line drives the sum below zero, and the total is clamped to 0 |
| `Scenarios.ScenarioInvalidQuantities` | src/invoice_service.py:31-41 | quantities 0 and -3 fail with `"Invalid quantity for X: 0; Invalid quantity for Z: -3"` |

## Left out

- Floating point: amounts are exact reals. IEEE-754 rounding of Python `float` is not modelled, so results such as 949.6 hold exactly here.
- `str.strip()` is modelled over ASCII whitespace only: space, code points 9–13 and 28–31. Python's other Unicode whitespace characters are not treated as blank.
- The `InvoiceService` class and its `__init__`: the coupon table, the tax table and the default rate never change after construction, so they are module constants. Tables cannot be swapped per instance.
- Exceptions: the raised `ValueError` is the `Failure` value of `Outcome`. The exception type itself is not modelled.
- Dataclass plumbing: `LineItem` and `Invoice` are datatypes. `invoice_id`, `customer_id` and `category` are carried but unused, as in the source. The `fragile = False` default is kept as a constructor default.
- Python's `max(0, x)` returns the integer `0` when `x` is not positive, and `sum` starts from the integer `0`. The model returns the real `0.0`, which is the same numeric value; the int/float type distinction is not modelled.
