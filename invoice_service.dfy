/** The invoice pricing calculator: validation, base costs, discount,
    shipping, tax, the clamped total and the advisory warnings.
    Monetary amounts are exact `real`s standing for decimal money. */
module InvoiceService {
  import opened Text

  datatype Option<T> = None | Some(value: T)

  /** One purchasable line of an invoice; `category` is carried but unused. */
  datatype LineItem = LineItem(sku: string, category: string, unitPrice: real, qty: int, fragile: bool := false)

  /** The unit of computation; `invoiceId` and `customerId` are pass-through. */
  datatype Invoice = Invoice(
    invoiceId: string,
    customerId: string,
    country: string,
    membership: string,
    coupon: Option<string>,
    items: seq<LineItem>)

  /** The result of pricing: the validation error (the raised `ValueError`)
      or the total with its advisory warnings. */
  datatype Outcome = Failure(message: string) | Success(total: real, warnings: seq<string>)

  // Configuration, fixed when the service is constructed.
  const CouponRate: map<string, real> := map["WELCOME10" := 0.10, "VIP20" := 0.20, "STUDENT5" := 0.05]
  const TaxRates: map<string, real> := map["TH" := 0.07, "JP" := 0.10, "US" := 0.08]
  const DefaultTax: real := 0.05

  const UnknownCouponWarning: string := "Unknown coupon"
  const UpgradeWarning: string := "Consider membership upgrade"
  const ProblemSeparator: string := "; "

  // ---------------------------------------------------------------------
  // Validation

  predicate ValidQuantities(items: seq<LineItem>) {
    forall i :: 0 <= i < |items| ==> items[i].qty > 0
  }

  function Message(item: LineItem): string {
    "Invalid quantity for " + item.sku + ": " + IntToString(item.qty)
  }

  /** The problems `_validate` reports for `items`: one message for each
      item whose quantity is not positive, in item order. */
  function Problems(items: seq<LineItem>): (ps: seq<string>)
    ensures |ps| <= |items|
  {
    if items == [] then []
    else
      var last := items[|items| - 1];
      Problems(items[..|items| - 1]) + (if last.qty <= 0 then [Message(last)] else [])
  }

  /** The positions of the items with a non-positive quantity, ascending. */
  function OffendingIndices(items: seq<LineItem>): (ix: seq<nat>)
    ensures forall k :: 0 <= k < |ix| ==> ix[k] < |items| && items[ix[k]].qty <= 0
    ensures forall k, l :: 0 <= k < l < |ix| ==> ix[k] < ix[l]
    ensures forall i :: 0 <= i < |items| && items[i].qty <= 0 ==> i in ix
  {
    if items == [] then []
    else
      var n := |items| - 1;
      var rest := OffendingIndices(items[..n]);
      if items[n].qty <= 0 then rest + [n] else rest
  }

  /** Exactly one message per offending item, in item order. */
  lemma {:induction false} ProblemsMatchOffenders(items: seq<LineItem>)
    ensures |Problems(items)| == |OffendingIndices(items)|
    ensures forall k :: 0 <= k < |Problems(items)| ==>
              Problems(items)[k] == Message(items[OffendingIndices(items)[k]])
  {
    if items != [] {
      var n := |items| - 1;
      var init := items[..n];
      ProblemsMatchOffenders(init);
      var ps, ix := Problems(init), OffendingIndices(init);
      var ps', ix' := Problems(items), OffendingIndices(items);
      assert ps' == ps + (if items[n].qty <= 0 then [Message(items[n])] else []);
      assert ix' == ix + (if items[n].qty <= 0 then [n] else []);
      forall k | 0 <= k < |ps'|
        ensures ps'[k] == Message(items[ix'[k]])
      {
        if k < |ps| {
          assert ps'[k] == ps[k] && ix'[k] == ix[k];
          assert init[ix[k]] == items[ix[k]];
        }
      }
    }
  }

  /** No problem is reported exactly when every quantity is positive. */
  lemma ProblemsEmptyIff(items: seq<LineItem>)
    ensures Problems(items) == [] <==> ValidQuantities(items)
  {
    ProblemsMatchOffenders(items);
    if !ValidQuantities(items) {
      var i :| 0 <= i < |items| && items[i].qty <= 0;
      assert i in OffendingIndices(items);
    }
  }

  /** `_validate`: collects the problems item by item. */
  method Validate(inv: Invoice) returns (problems: seq<string>)
    ensures problems == Problems(inv.items)
    ensures problems == [] <==> ValidQuantities(inv.items)
  {
    problems := [];
    for i := 0 to |inv.items|
      invariant problems == Problems(inv.items[..i])
    {
      var item := inv.items[i];
      assert inv.items[..i + 1][..i] == inv.items[..i];
      if item.qty <= 0 {
        problems := problems + [Message(item)];
      }
    }
    assert inv.items[..|inv.items|] == inv.items;
    ProblemsEmptyIff(inv.items);
  }

  // ---------------------------------------------------------------------
  // Base costs

  /** What one line costs before any fee, discount or tax. */
  function LineAmount(item: LineItem): (amount: real)
    ensures item.unitPrice >= 0.0 && item.qty > 0 ==> amount >= 0.0
  {
    item.unitPrice * item.qty as real
  }

  /** The sum of `unitPrice * qty` over the items, added left to right. */
  function Subtotal(items: seq<LineItem>): real {
    if items == [] then 0.0
    else Subtotal(items[..|items| - 1]) + LineAmount(items[|items| - 1])
  }

  /** The sum of `5.0 * qty` over the fragile items only. */
  function FragileFee(items: seq<LineItem>): real {
    if items == [] then 0.0
    else
      var last := items[|items| - 1];
      FragileFee(items[..|items| - 1]) + (if last.fragile then 5.0 * last.qty as real else 0.0)
  }

  /** Non-negative prices and positive quantities give a non-negative subtotal. */
  lemma {:induction false} SubtotalNonNegative(items: seq<LineItem>)
    requires forall i :: 0 <= i < |items| ==> items[i].unitPrice >= 0.0 && items[i].qty > 0
    ensures Subtotal(items) >= 0.0
  {
    if items != [] {
      SubtotalNonNegative(items[..|items| - 1]);
      assert LineAmount(items[|items| - 1]) >= 0.0;
    }
  }

  /** The surcharge of a valid invoice is never negative. */
  lemma {:induction false} FragileFeeNonNegative(items: seq<LineItem>)
    requires ValidQuantities(items)
    ensures FragileFee(items) >= 0.0
  {
    if items != [] {
      FragileFeeNonNegative(items[..|items| - 1]);
    }
  }

  /** Without fragile items there is no surcharge. */
  lemma {:induction false} NoFragileNoFee(items: seq<LineItem>)
    requires forall i :: 0 <= i < |items| ==> !items[i].fragile
    ensures FragileFee(items) == 0.0
  {
    if items != [] {
      NoFragileNoFee(items[..|items| - 1]);
    }
  }

  /** The number of fragile units on the invoice. */
  function FragileUnits(items: seq<LineItem>): int {
    if items == [] then 0
    else
      var last := items[|items| - 1];
      FragileUnits(items[..|items| - 1]) + (if last.fragile then last.qty else 0)
  }

  /** The surcharge is a flat 5.0 per fragile unit. */
  lemma {:induction false} FragileFeePerUnit(items: seq<LineItem>)
    ensures FragileFee(items) == 5.0 * FragileUnits(items) as real
  {
    if items != [] {
      FragileFeePerUnit(items[..|items| - 1]);
    }
  }

  /** Splitting the items anywhere splits the subtotal. */
  lemma {:induction false} SubtotalAppend(a: seq<LineItem>, b: seq<LineItem>)
    ensures Subtotal(a + b) == Subtotal(a) + Subtotal(b)
  {
    if b == [] {
      assert a + b == a;
    } else {
      var n := |b| - 1;
      var ab := a + b;
      assert ab[..|ab| - 1] == a + b[..n];
      SubtotalAppend(a, b[..n]);
    }
  }

  /** Splitting the items anywhere splits the fragile surcharge. */
  lemma {:induction false} FragileFeeAppend(a: seq<LineItem>, b: seq<LineItem>)
    ensures FragileFee(a + b) == FragileFee(a) + FragileFee(b)
  {
    if b == [] {
      assert a + b == a;
    } else {
      var n := |b| - 1;
      var ab := a + b;
      assert ab[..|ab| - 1] == a + b[..n];
      FragileFeeAppend(a, b[..n]);
    }
  }

  // ---------------------------------------------------------------------
  // Shipping

  /** The pre-discount subtotal from which a country ships free. */
  function FreeShippingThreshold(country: string): real {
    if country == "TH" then 500.0
    else if country == "JP" then 4000.0
    else if country == "US" then 300.0
    else 200.0
  }

  /** `_calculate_shipping`: a fee from a fixed set, and free exactly from
      the country's threshold on. */
  function Shipping(country: string, subtotal: real): (fee: real)
    ensures fee in {0.0, 8.0, 15.0, 25.0, 60.0, 600.0}
    ensures fee == 0.0 <==> subtotal >= FreeShippingThreshold(country)
  {
    if country == "TH" then (if subtotal < 500.0 then 60.0 else 0.0)
    else if country == "JP" then (if subtotal < 4000.0 then 600.0 else 0.0)
    else if country == "US" then
      (if subtotal < 100.0 then 15.0 else if subtotal < 300.0 then 8.0 else 0.0)
    else if subtotal < 200.0 then 25.0 else 0.0
  }

  /** A larger subtotal never costs more shipping. */
  lemma ShippingNonIncreasing(country: string, s1: real, s2: real)
    requires s1 <= s2
    ensures Shipping(country, s2) <= Shipping(country, s1)
  {
  }

  // ---------------------------------------------------------------------
  // Discount

  /** The membership part of the discount: the first matching tier wins. */
  function MembershipDiscount(membership: string, subtotal: real): (d: real)
    ensures subtotal >= 0.0 ==> 0.0 <= d <= 0.05 * subtotal || d == 20.0
    ensures membership != "gold" && membership != "platinum" ==> (d == 20.0 <==> subtotal > 3000.0)
  {
    if membership == "gold" then subtotal * 0.03
    else if membership == "platinum" then subtotal * 0.05
    else if subtotal > 3000.0 then 20.0
    else 0.0
  }

  /** What the coupon field amounts to. */
  datatype CouponLookup = NoCoupon | Known(rate: real) | Unknown

  /** Absent, empty and whitespace-only coupons count as no coupon;
      otherwise the stripped code is looked up in the rate table. */
  function LookupCoupon(coupon: Option<string>): CouponLookup {
    if coupon.None? || Strip(coupon.value) == "" then NoCoupon
    else if Strip(coupon.value) in CouponRate then Known(CouponRate[Strip(coupon.value)])
    else Unknown
  }

  /** There is no coupon exactly when the field is absent or blank, and a
      known code carries one of the table's rates. */
  lemma LookupCouponCases(coupon: Option<string>)
    ensures LookupCoupon(coupon).NoCoupon? <==> coupon.None? || IsBlank(coupon.value)
    ensures LookupCoupon(coupon).Known? ==>
              LookupCoupon(coupon).rate in CouponRate.Values && 0.0 < LookupCoupon(coupon).rate <= 0.20
  {
    if coupon.Some? {
      StripExact(coupon.value);
    }
  }

  /** The coupon part of the discount: `rate * subtotal` for a known code. */
  function CouponDiscount(coupon: Option<string>, subtotal: real): real {
    match LookupCoupon(coupon)
    case Known(rate) => subtotal * rate
    case _ => 0.0
  }

  /** A coupon takes off at most a fifth of a non-negative subtotal, and
      nothing unless its code is known. */
  lemma CouponDiscountBounds(coupon: Option<string>, subtotal: real)
    ensures subtotal >= 0.0 ==> 0.0 <= CouponDiscount(coupon, subtotal) <= 0.20 * subtotal
    ensures !LookupCoupon(coupon).Known? ==> CouponDiscount(coupon, subtotal) == 0.0
  {
    LookupCouponCases(coupon);
    match LookupCoupon(coupon)
    case Known(rate) =>
      if subtotal >= 0.0 {
        assert subtotal * rate <= subtotal * 0.20;
      }
    case _ =>
  }

  /** The coupon warning: one warning exactly for an unknown non-blank code. */
  function CouponWarnings(coupon: Option<string>): (w: seq<string>)
    ensures |w| <= 1
    ensures w != [] <==> LookupCoupon(coupon).Unknown?
    ensures forall k :: 0 <= k < |w| ==> w[k] == UnknownCouponWarning
  {
    if LookupCoupon(coupon).Unknown? then [UnknownCouponWarning] else []
  }

  /** The whole discount: membership part plus coupon part. */
  function Discount(inv: Invoice, subtotal: real): real {
    MembershipDiscount(inv.membership, subtotal) + CouponDiscount(inv.coupon, subtotal)
  }

  /** `_calculate_discount`: accumulates the discount and the warnings. */
  method CalculateDiscount(inv: Invoice, subtotal: real) returns (discount: real, warnings: seq<string>)
    ensures discount == Discount(inv, subtotal)
    ensures warnings == CouponWarnings(inv.coupon)
  {
    discount := 0.0;
    warnings := [];

    if inv.membership == "gold" {
      discount := discount + subtotal * 0.03;
    } else if inv.membership == "platinum" {
      discount := discount + subtotal * 0.05;
    } else if subtotal > 3000.0 {
      discount := discount + 20.0;
    }
    ghost var membershipPart, couponPart := discount, 0.0;
    assert membershipPart == MembershipDiscount(inv.membership, subtotal);

    if inv.coupon.Some? && inv.coupon.value != "" && Strip(inv.coupon.value) != "" {
      var code := Strip(inv.coupon.value);
      var rate := if code in CouponRate then Some(CouponRate[code]) else None;
      if rate.Some? {
        assert LookupCoupon(inv.coupon) == Known(rate.value);
        discount := discount + subtotal * rate.value;
        couponPart := subtotal * rate.value;
        assert couponPart == CouponDiscount(inv.coupon, subtotal);
      } else {
        assert LookupCoupon(inv.coupon) == Unknown;
        assert couponPart == CouponDiscount(inv.coupon, subtotal);
        warnings := warnings + [UnknownCouponWarning];
      }
    } else {
      assert LookupCoupon(inv.coupon) == NoCoupon;
      assert couponPart == CouponDiscount(inv.coupon, subtotal);
    }
  }

  // ---------------------------------------------------------------------
  // Tax and total

  /** The country's tax rate, or the default rate for a country not in the table. */
  function TaxRate(country: string): (rate: real)
    ensures rate in {0.05, 0.07, 0.08, 0.10}
    ensures country !in {"TH", "JP", "US"} ==> rate == DefaultTax
  {
    if country in TaxRates then TaxRates[country] else DefaultTax
  }

  /** Tax on the discounted subtotal; it is not clamped, so a discount
      above the subtotal gives a negative tax. */
  function Tax(country: string, subtotal: real, discount: real): (t: real)
    ensures t < 0.0 <==> discount > subtotal
    ensures t == 0.0 <==> discount == subtotal
  {
    (subtotal - discount) * TaxRate(country)
  }

  /** Python's `max(0, x)`. */
  function Max0(x: real): (r: real)
    ensures r >= 0.0 && r >= x && (r == x || r == 0.0)
  {
    if x > 0.0 then x else 0.0
  }

  /** Whether the membership-upgrade advisory is due. */
  predicate UpgradeAdvised(membership: string, subtotal: real) {
    subtotal > 10000.0 && membership != "gold" && membership != "platinum"
  }

  /** The outcome `compute_total` produces for `inv`. */
  function Pricing(inv: Invoice): (r: Outcome)
    ensures r.Success? ==> r.total >= 0.0
    ensures r.Success? ==> |r.warnings| <= 2
  {
    var problems := Problems(inv.items);
    if problems != [] then Failure(Join(problems, ProblemSeparator))
    else
      var subtotal := Subtotal(inv.items);
      var fragileFee := FragileFee(inv.items);
      var discount := Discount(inv, subtotal);
      var shipping := Shipping(inv.country, subtotal);
      var tax := Tax(inv.country, subtotal, discount);
      var total := Max0(subtotal + shipping + fragileFee + tax - discount);
      Success(total, CouponWarnings(inv.coupon) + (if UpgradeAdvised(inv.membership, subtotal) then [UpgradeWarning] else []))
  }

  /** `compute_total`: validates first, then prices the invoice. */
  method ComputeTotal(inv: Invoice) returns (r: Outcome)
    ensures r == Pricing(inv)
    ensures r.Failure? <==> !ValidQuantities(inv.items)
    ensures r.Success? ==> r.total >= 0.0
  {
    var problems := Validate(inv);
    if problems != [] {
      return Failure(Join(problems, ProblemSeparator));
    }

    var subtotal, fragileFee := Subtotal(inv.items), FragileFee(inv.items);

    var discount, warnings := CalculateDiscount(inv, subtotal);
    var shipping := Shipping(inv.country, subtotal);
    var tax := (subtotal - discount) * TaxRate(inv.country);
    assert tax == Tax(inv.country, subtotal, discount);

    var total := Max0(subtotal + shipping + fragileFee + tax - discount);

    if subtotal > 10000.0 && inv.membership != "gold" && inv.membership != "platinum" {
      warnings := warnings + [UpgradeWarning];
    }

    r := Success(total, warnings);
  }

  // ---------------------------------------------------------------------
  // Properties of the pricing outcome

  /** Pricing fails exactly when some quantity is not positive, and then
      carries the joined problems and no total. */
  lemma FailsIffInvalidQuantity(inv: Invoice)
    ensures Pricing(inv).Failure? <==> exists i :: 0 <= i < |inv.items| && inv.items[i].qty <= 0
    ensures Pricing(inv).Failure? ==> Pricing(inv).message == Join(Problems(inv.items), ProblemSeparator)
  {
    ProblemsEmptyIff(inv.items);
  }

  /** The failure message names every offending item. */
  lemma FailureNamesEveryOffender(inv: Invoice, i: nat)
    requires i < |inv.items| && inv.items[i].qty <= 0
    ensures Pricing(inv).Failure?
    ensures exists pre, post :: Pricing(inv).message == pre + Message(inv.items[i]) + post
  {
    var items := inv.items;
    ProblemsEmptyIff(items);
    ProblemsMatchOffenders(items);
    var ix := OffendingIndices(items);
    assert i in ix;
    var k :| 0 <= k < |ix| && ix[k] == i;
    JoinContains(Problems(items), ProblemSeparator, k);
  }

  /** On success the total is the clamped sum of subtotal, shipping,
      surcharge and tax less the discount, and is never negative. */
  lemma SuccessTotal(inv: Invoice)
    requires ValidQuantities(inv.items)
    ensures Pricing(inv).Success?
    ensures var s := Subtotal(inv.items);
            var d := Discount(inv, s);
            var x := s + Shipping(inv.country, s) + FragileFee(inv.items) + Tax(inv.country, s, d) - d;
            Pricing(inv).total == (if x > 0.0 then x else 0.0)
  {
    ProblemsEmptyIff(inv.items);
  }

  /** The warnings are the coupon warning, if any, followed by the upgrade
      advisory, if due, and nothing else; the advisory is present exactly when the subtotal
      exceeds 10000 and the membership is neither gold nor platinum. */
  lemma WarningsInOrder(inv: Invoice)
    requires ValidQuantities(inv.items)
    ensures Pricing(inv).Success?
    ensures var w := Pricing(inv).warnings;
            (UpgradeWarning in w <==> UpgradeAdvised(inv.membership, Subtotal(inv.items))) &&
            (UnknownCouponWarning in w <==> LookupCoupon(inv.coupon).Unknown?) &&
            (|w| == 2 ==> w == [UnknownCouponWarning, UpgradeWarning]) &&
            |w| == (if LookupCoupon(inv.coupon).Unknown? then 1 else 0) +
                   (if UpgradeAdvised(inv.membership, Subtotal(inv.items)) then 1 else 0)
  {
    ProblemsEmptyIff(inv.items);
  }

  /** A non-blank code missing from the table only adds the warning: the
      total is that of the same invoice without a coupon. */
  lemma UnknownCouponOnlyWarns(inv: Invoice, code: string)
    requires ValidQuantities(inv.items)
    requires !IsBlank(code) && Strip(code) !in CouponRate
    ensures var withCode := Pricing(inv.(coupon := Some(code)));
            var without := Pricing(inv.(coupon := None));
            withCode.Success? && without.Success? &&
            withCode.total == without.total &&
            withCode.warnings == [UnknownCouponWarning] + without.warnings
  {
    ProblemsEmptyIff(inv.items);
    LookupCouponCases(Some(code));
  }

  /** A blank coupon is the same as no coupon at all. */
  lemma BlankCouponIsAbsent(inv: Invoice, code: string)
    requires IsBlank(code)
    ensures Pricing(inv.(coupon := Some(code))) == Pricing(inv.(coupon := None))
  {
    LookupCouponCases(Some(code));
  }

  /** Every membership other than gold and platinum is priced alike. */
  lemma StandardTiersAgree(inv: Invoice, m1: string, m2: string)
    requires m1 !in {"gold", "platinum"} && m2 !in {"gold", "platinum"}
    ensures Pricing(inv.(membership := m1)) == Pricing(inv.(membership := m2))
  {
  }

  /** With a non-negative subtotal the discount never exceeds it. */
  lemma DiscountAtMostSubtotal(inv: Invoice, subtotal: real)
    requires subtotal >= 0.0
    ensures 0.0 <= Discount(inv, subtotal) <= subtotal
  {
    var m := MembershipDiscount(inv.membership, subtotal);
    CouponDiscountBounds(inv.coupon, subtotal);
    if inv.membership != "gold" && inv.membership != "platinum" && m == 20.0 {
      assert subtotal > 3000.0;
    }
  }

  /** When no unit price is negative the clamp at zero never fires: the
      total is the plain sum of subtotal, fees and tax less the discount. */
  lemma ClampInactiveForNonNegativePrices(inv: Invoice)
    requires ValidQuantities(inv.items)
    requires forall i :: 0 <= i < |inv.items| ==> inv.items[i].unitPrice >= 0.0
    ensures Pricing(inv).Success?
    ensures var s := Subtotal(inv.items);
            var d := Discount(inv, s);
            Pricing(inv).total == s + Shipping(inv.country, s) + FragileFee(inv.items) + Tax(inv.country, s, d) - d
  {
    ProblemsEmptyIff(inv.items);
    SubtotalNonNegative(inv.items);
    FragileFeeNonNegative(inv.items);
    DiscountAtMostSubtotal(inv, Subtotal(inv.items));
  }
}
