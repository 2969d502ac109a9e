/** Amounts of one line item (`Item.subtotal`, `Item.vat`,
    `Item.unit_price_with_vat`, `Item.total`). */
module ItemAmounts {
  import opened Results
  import opened Money
  import opened Records

  /** The item's price after discount with no rounding at all. */
  function RawBase(it: Item): real {
    it.quantity * it.unitPrice * (100.0 - it.discount) / 100.0
  }

  /** The rate Python treats as set: `if self.tax_rate` is false for both `None` and zero. */
  function RateOrZero(it: Item): real {
    it.taxRate.GetOr(0.0)
  }

  /** `Item.subtotal`: the price times the quantity is rounded to cents
      first, and the discount is applied to that rounded amount. */
  function Subtotal(it: Item): (r: real)
    ensures IsCents(r)
    ensures 0.0 <= it.discount <= 100.0 ==> Abs(r - RawBase(it)) <= 0.01
  {
    var gross := Round2(it.unitPrice * it.quantity);
    var k := (100.0 - it.discount) / 100.0;
    SubtotalNearRawBase(it, gross, k);
    Round2(gross * k)
  }

  /** Rounding the gross amount moves the discounted amount by at most half a
      cent before the final rounding, so for a discount between 0 and 100 %
      the subtotal is within one cent of the unrounded discounted price. */
  lemma SubtotalNearRawBase(it: Item, gross: real, k: real)
    requires gross == Round2(it.unitPrice * it.quantity) && k == (100.0 - it.discount) / 100.0
    ensures 0.0 <= it.discount <= 100.0 ==> Abs(Round2(gross * k) - RawBase(it)) <= 0.01
  {
    if 0.0 <= it.discount <= 100.0 {
      var exact := it.unitPrice * it.quantity;
      assert RawBase(it) == exact * k;
      var e := gross - exact;
      assert gross * k - exact * k == e * k;
      ScaledError(e, k);
      var b := gross * k;
      assert Abs(b - RawBase(it)) <= 0.005;
      assert Abs(Round2(b) - b) <= 0.005;
    }
  }

  /** An error of at most half a cent stays so after scaling by a factor in [0, 1]. */
  lemma ScaledError(e: real, k: real)
    requires Abs(e) <= 0.005 && 0.0 <= k <= 1.0
    ensures Abs(e * k) <= 0.005
  {
    if e >= 0.0 {
      assert e * k <= e * 1.0;
    } else {
      assert (-e) * k <= (-e) * 1.0;
    }
  }

  /** `Item.vat`: the subtotal's tax rounded to cents; zero without a rate. */
  function Vat(it: Item): (r: real)
    ensures IsCents(r)
    ensures RateOrZero(it) == 0.0 ==> r == 0.0
    ensures Abs(r - Subtotal(it) * RateOrZero(it) / 100.0) <= 0.005
  {
    if RateOrZero(it) != 0.0 then Round2(Subtotal(it) * RateOrZero(it) / 100.0)
    else Round2OfCents(0.0); Round2(0.0)
  }

  /** `Item.unit_price_with_vat`. */
  function UnitPriceWithVat(it: Item): (r: real)
    ensures IsCents(r)
    ensures Abs(r - it.unitPrice * (100.0 + RateOrZero(it)) / 100.0) <= 0.005
    ensures IsCents(it.unitPrice) && RateOrZero(it) == 0.0 ==> r == it.unitPrice
  {
    PriceKeptWithoutRate(it);
    Round2(it.unitPrice * ((100.0 + RateOrZero(it)) / 100.0))
  }

  /** Without a rate, a price in cents is its own price with tax. */
  lemma PriceKeptWithoutRate(it: Item)
    ensures IsCents(it.unitPrice) && RateOrZero(it) == 0.0 ==>
      Round2(it.unitPrice * ((100.0 + RateOrZero(it)) / 100.0)) == it.unitPrice
  {
    if IsCents(it.unitPrice) && RateOrZero(it) == 0.0 {
      Round2OfCents(it.unitPrice);
    }
  }

  /** `Item.total`: the final rounding never changes the sum, so the total is
      exactly subtotal plus tax. */
  function Total(it: Item): (r: real)
    ensures r == Subtotal(it) + Vat(it)
    ensures RateOrZero(it) == 0.0 ==> r == Subtotal(it)
  {
    CentsClosed(Subtotal(it), Vat(it));
    Round2OfCents(Subtotal(it) + Vat(it));
    Round2(Subtotal(it) + Vat(it))
  }

  /** Rounding before the discount is visible in the last cent, with no tie
      involved: 1.6 units at 0.01 with 10 % off give 0.02, where discounting
      first would give 0.01. */
  lemma RoundingBeforeDiscountMatters()
    ensures var it := Item(1.6, 0.01, 10.0, None, false);
      Subtotal(it) == 0.02 && Round2(RawBase(it)) == 0.01
  {
    var it := Item(1.6, 0.01, 10.0, None, false);
    assert Round2(0.016) == 0.02;
    assert Round2(0.018) == 0.02;
    assert RawBase(it) == 0.0144;
    assert Round2(0.0144) == 0.01;
  }

  /** Three units at 10.00 with 20 % tax: 30.00 + 6.00 = 36.00. */
  lemma ScenarioStandardRate()
    ensures var it := Item(3.0, 10.0, 0.0, Some(20.0), true);
      Subtotal(it) == 30.0 && Vat(it) == 6.0 && Total(it) == 36.0
  {
    var it := Item(3.0, 10.0, 0.0, Some(20.0), true);
    Round2OfCents(30.0);
    Round2OfCents(6.0);
  }

  /** One unit at 99.99 with 10 % off and a zero rate: 89.99, no tax. */
  lemma ScenarioDiscountZeroRate()
    ensures var it := Item(1.0, 99.99, 10.0, Some(0.0), true);
      Subtotal(it) == 89.99 && Vat(it) == 0.0 && Total(it) == 89.99
  {
    var it := Item(1.0, 99.99, 10.0, Some(0.0), true);
    Round2OfCents(99.99);
    assert Round2(89.991) == 89.99;
  }
}
