/** Worked invoices, priced exactly under the model. */
module Scenarios {
  import opened Text
  import opened InvoiceService

  /** Thailand, standard tier, no coupon, subtotal 400, nothing fragile:
      shipping 60, tax 28, total 488. */
  lemma ScenarioThailandStandard()
    ensures Pricing(Invoice("INV-A", "C-1", "TH", "standard", None,
                            [LineItem("BOOK", "books", 200.0, 2)]))
            == Success(488.0, [])
  {
  }

  /** United States, gold tier, coupon WELCOME10, subtotal 1000 with two
      fragile units: surcharge 10, discount 130, tax 69.6, total 949.6. */
  lemma ScenarioUnitedStatesGold()
    ensures Pricing(Invoice("INV-B", "C-2", "US", "gold", Some("WELCOME10"),
                            [LineItem("LAMP", "home", 400.0, 1, false),
                             LineItem("VASE", "home", 300.0, 2, true)]))
            == Success(949.6, [])
  {
    var items := [LineItem("LAMP", "home", 400.0, 1, false), LineItem("VASE", "home", 300.0, 2, true)];
    UnitedStatesGoldParts(items, Invoice("INV-B", "C-2", "US", "gold", Some("WELCOME10"), items));
  }

  lemma UnitedStatesGoldParts(items: seq<LineItem>, inv: Invoice)
    requires items == [LineItem("LAMP", "home", 400.0, 1, false), LineItem("VASE", "home", 300.0, 2, true)]
    requires inv == Invoice("INV-B", "C-2", "US", "gold", Some("WELCOME10"), items)
    ensures Subtotal(items) == 1000.0 && FragileFee(items) == 10.0 && Problems(items) == []
    ensures Discount(inv, 1000.0) == 130.0 && CouponWarnings(inv.coupon) == []
  {
    PairCosts(items[0], items[1]);
    assert ValidQuantities(items);
    ProblemsEmptyIff(items);
    StripUnpadded("WELCOME10");
  }

  /** The base costs of a two-line invoice, line by line. */
  lemma PairCosts(a: LineItem, b: LineItem)
    ensures Subtotal([a, b]) == LineAmount(a) + LineAmount(b)
    ensures FragileFee([a, b]) == (if a.fragile then 5.0 * a.qty as real else 0.0)
                                 + (if b.fragile then 5.0 * b.qty as real else 0.0)
  {
    assert [a, b] == [a] + [b];
    SubtotalAppend([a], [b]);
    FragileFeeAppend([a], [b]);
    assert [a][..0] == [] && [b][..0] == [];
  }

  /** An unlisted country with a blank coupon: no warning, the default
      shipping of 25 below 200, and the default tax rate 0.05. */
  lemma ScenarioUnknownCountryBlankCoupon()
    ensures Pricing(Invoice("INV-C", "C-3", "XX", "standard", Some("  "),
                            [LineItem("PEN", "office", 100.0, 1, false)]))
            == Success(130.0, [])
  {
    var items := [LineItem("PEN", "office", 100.0, 1, false)];
    UnknownCountryParts(items, Invoice("INV-C", "C-3", "XX", "standard", Some("  "), items));
  }

  lemma UnknownCountryParts(items: seq<LineItem>, inv: Invoice)
    requires items == [LineItem("PEN", "office", 100.0, 1, false)]
    requires inv == Invoice("INV-C", "C-3", "XX", "standard", Some("  "), items)
    ensures Subtotal(items) == 100.0 && FragileFee(items) == 0.0 && Problems(items) == []
    ensures Discount(inv, 100.0) == 0.0 && CouponWarnings(inv.coupon) == []
  {
    assert items[..0] == [];
    assert ValidQuantities(items);
    ProblemsEmptyIff(items);
    LookupCouponCases(inv.coupon);
  }

  /** Platinum with VIP20 adds both parts: 0.05 and 0.20 of the subtotal. */
  lemma ScenarioPlatinumWithCoupon(inv: Invoice, subtotal: real)
    requires inv.membership == "platinum" && inv.coupon == Some("VIP20")
    ensures Discount(inv, subtotal) == subtotal * 0.05 + subtotal * 0.20
  {
    StripUnpadded("VIP20");
  }

  /** A high-value standard invoice in Japan with an unknown coupon gets both
      warnings, the coupon warning first: discount 20, tax 1198, total 13178. */
  lemma ScenarioTwoWarnings()
    ensures Pricing(Invoice("INV-D", "C-4", "JP", "silver", Some(" FREE "),
                            [LineItem("TV", "electronics", 12000.0, 1, false)]))
            == Success(13178.0, [UnknownCouponWarning, UpgradeWarning])
  {
    var items := [LineItem("TV", "electronics", 12000.0, 1, false)];
    TwoWarningsParts(items, Invoice("INV-D", "C-4", "JP", "silver", Some(" FREE "), items));
  }

  lemma TwoWarningsParts(items: seq<LineItem>, inv: Invoice)
    requires items == [LineItem("TV", "electronics", 12000.0, 1, false)]
    requires inv == Invoice("INV-D", "C-4", "JP", "silver", Some(" FREE "), items)
    ensures Subtotal(items) == 12000.0 && FragileFee(items) == 0.0 && Problems(items) == []
    ensures Discount(inv, 12000.0) == 20.0 && CouponWarnings(inv.coupon) == [UnknownCouponWarning]
  {
    assert items[..0] == [];
    assert ValidQuantities(items);
    ProblemsEmptyIff(items);
    assert LeadingSpaces(" FREE ") == 1;
    assert TrailingSpaces("FREE ") == 1;
    assert Strip(" FREE ") == "FREE";
    assert LookupCoupon(inv.coupon) == Unknown;
  }

  /** A refund line drives the sum below zero and the total is clamped to 0. */
  lemma ScenarioClampedToZero()
    ensures Pricing(Invoice("INV-E", "C-5", "US", "standard", None,
                            [LineItem("REFUND", "adjustment", -50.0, 1, false)]))
            == Success(0.0, [])
  {
  }

  /** Two bad quantities are reported in item order, joined by "; ". */
  lemma ScenarioInvalidQuantities()
    ensures Pricing(Invoice("INV-F", "C-6", "TH", "gold", None,
                            [LineItem("X", "misc", 1.0, 0, false),
                             LineItem("Y", "misc", 1.0, 2, false),
                             LineItem("Z", "misc", 1.0, -3, true)]))
            == Failure("Invalid quantity for X: 0; Invalid quantity for Z: -3")
  {
    var items := [LineItem("X", "misc", 1.0, 0, false), LineItem("Y", "misc", 1.0, 2, false),
                  LineItem("Z", "misc", 1.0, -3, true)];
    var inv := Invoice("INV-F", "C-6", "TH", "gold", None, items);
    InvalidQuantitiesParts(items);
    var p, q := "Invalid quantity for X: 0", "Invalid quantity for Z: -3";
    JoinTwo(p, q, ProblemSeparator);
    FailsIffInvalidQuantity(inv);
    assert inv.items[0].qty <= 0;
    JoinedMessage(p, q);
  }

  lemma JoinedMessage(p: string, q: string)
    requires p == "Invalid quantity for X: 0" && q == "Invalid quantity for Z: -3"
    ensures p + ProblemSeparator + q == "Invalid quantity for X: 0; Invalid quantity for Z: -3"
  {
  }

  lemma InvalidQuantitiesParts(items: seq<LineItem>)
    requires items == [LineItem("X", "misc", 1.0, 0, false), LineItem("Y", "misc", 1.0, 2, false),
                       LineItem("Z", "misc", 1.0, -3, true)]
    ensures Problems(items) == ["Invalid quantity for X: 0", "Invalid quantity for Z: -3"]
  {
    assert items[..2] == items[..3][..2] && items[..2][..1] == [items[0]] && [items[0]][..0] == [];
    assert Problems(items[..1]) == [Message(items[0])];
    assert Problems(items[..2]) == [Message(items[0])];
    assert Problems(items) == [Message(items[0]), Message(items[2])];
    assert IntToString(0) == "0";
    assert NatToString(3) == "3";
    assert IntToString(-3) == "-3";
    assert Message(items[0]) == "Invalid quantity for " + "X" + ": " + "0";
    assert Message(items[2]) == "Invalid quantity for " + "Z" + ": " + "-3";
    assert "Invalid quantity for " + "X" + ": " + "0" == "Invalid quantity for X: 0";
    assert "Invalid quantity for " + "Z" + ": " + "-3" == "Invalid quantity for Z: -3";
  }
}
