/** Invoice-level amounts (`Invoice.subtotal`, `Invoice.vat`, `Invoice.total`). */
module InvoiceAmounts {
  import opened Results
  import opened Money
  import opened Records
  import opened RateSummary
  import ItemAmounts

  /** `Invoice.subtotal`: the item subtotals are already in cents, so the
      final rounding of their sum changes nothing. */
  function Subtotal(inv: Invoice): (r: real)
    ensures r == SumOf(inv.items, ItemAmounts.Subtotal)
    ensures IsCents(r)
  {
    var sum := SumOf(inv.items, ItemAmounts.Subtotal);
    SumOfCents(inv.items, ItemAmounts.Subtotal);
    Round2OfCents(sum);
    Round2(sum)
  }

  /** `Invoice.vat`: `None` when the summary is a single row without tax,
      otherwise the sum of the rows' tax. */
  function Vat(inv: Invoice): (r: Option<real>)
    ensures r.None? <==> |inv.items| > 0 && forall i :: 0 <= i < |inv.items| ==> inv.items[i].taxRate.None?
    ensures r.Some? ==> IsCents(r.value)
    ensures inv.items == [] ==> r == Some(0.0)
  {
    var groups := Summary(inv.items);
    SingleRatelessRow(inv.items);
    if |groups| == 1 && groups[0].vat.None? then None
    else Some(SumVats(groups))
  }

  /** The tax with "undefined" read as zero. */
  function VatOrZero(inv: Invoice): real {
    Vat(inv).GetOr(0.0)
  }

  /** The sum of `vat + base` over the rows, an absent tax counting as zero. */
  function SumRows(groups: seq<Group>): (r: real)
    ensures r == SumVats(groups) + SumBases(groups)
    decreases |groups|
  {
    if |groups| == 0 then 0.0
    else SumRows(groups[..|groups| - 1]) + (groups[|groups| - 1].vat.GetOr(0.0) + groups[|groups| - 1].base)
  }

  /** `Invoice.total`: the rows' tax and bases, less the credit, rounded once.
      It equals the invoice tax plus the unrounded discounted prices, less the credit,
      to within half a cent. */
  function Total(inv: Invoice): (r: real)
    ensures IsCents(r)
    ensures Abs(r - (VatOrZero(inv) + SumOf(inv.items, ItemAmounts.RawBase) - inv.credit)) <= 0.005
  {
    var groups := Summary(inv.items);
    SummaryBasesSumItems(inv.items);
    RowVatsAreInvoiceVat(inv);
    Round2(SumRows(groups) - inv.credit)
  }

  /** The rows' tax column adds up to the invoice tax, also when that tax is undefined. */
  lemma RowVatsAreInvoiceVat(inv: Invoice)
    ensures SumVats(Summary(inv.items)) == VatOrZero(inv)
  {
    var groups := Summary(inv.items);
    if |groups| == 1 && groups[0].vat.None? {
      assert groups[..0] == [];
    }
  }

  /** The total is built from the rows, not from `subtotal + vat`; the two
      differ by rounding only: at most half a cent plus one cent per item,
      when every discount is between 0 and 100 %. */
  lemma TotalNearSubtotalPlusVat(inv: Invoice)
    requires forall i :: 0 <= i < |inv.items| ==> 0.0 <= inv.items[i].discount <= 100.0
    ensures Abs(Total(inv) - (Subtotal(inv) + VatOrZero(inv) - inv.credit)) <= 0.005 + 0.01 * |inv.items| as real
  {
    SubtotalsNearBases(inv.items);
  }

  /** Per-item rounding moves the sum of subtotals at most one cent per item
      away from the unrounded sum. */
  lemma {:induction false} SubtotalsNearBases(items: seq<Item>)
    requires forall i :: 0 <= i < |items| ==> 0.0 <= items[i].discount <= 100.0
    ensures Abs(SumOf(items, ItemAmounts.Subtotal) - SumOf(items, ItemAmounts.RawBase)) <= 0.01 * |items| as real
    decreases |items|
  {
    if |items| > 0 {
      var prefix := items[..|items| - 1];
      assert forall i :: 0 <= i < |prefix| ==> prefix[i] == items[i];
      SubtotalsNearBases(prefix);
      var x := items[|items| - 1];
      assert Abs(ItemAmounts.Subtotal(x) - ItemAmounts.RawBase(x)) <= 0.01;
    }
  }

  /** The summary's tax is taken on the price before discount, while each
      item's tax is taken on its discounted subtotal: one unit at 100.00 with
      50 % off at 20 % shows item tax 10.00 but invoice tax 20.00. */
  lemma SummaryVatIgnoresDiscount(inv: Invoice)
    requires inv.items == [Item(1.0, 100.0, 50.0, Some(20.0), true)]
    ensures ItemAmounts.Vat(inv.items[0]) == 10.0
    ensures Vat(inv) == Some(20.0)
    ensures Total(inv) == Round2(70.0 - inv.credit)
  {
    var it := inv.items[0];
    Round2OfCents(100.0);
    Round2OfCents(50.0);
    Round2OfCents(10.0);
    OneRateOneRow(inv.items, Some(20.0));
    assert SumOf(inv.items, RawVat) == 20.0 by {
      assert inv.items[..0] == [];
    }
    RoundHalfAwayOfCents(20.0);
    var groups := Summary(inv.items);
    assert groups[..0] == [];
    assert SumVats(groups) == 20.0;
    assert SumRows(groups) == 70.0;
  }

  /** An invoice whose items all have a zero rate has tax zero, not undefined. */
  lemma ZeroRatedVat(inv: Invoice)
    requires forall i :: 0 <= i < |inv.items| ==> inv.items[i].taxRate == Some(0.0)
    ensures Vat(inv) == Some(0.0)
  {
    if |inv.items| > 0 {
      OneRateOneRow(inv.items, Some(0.0));
      ZeroRateRowHasNoTax(inv.items);
      var groups := Summary(inv.items);
      assert groups[..0] == [];
      assert SumVats(groups) == 0.0;
    }
  }

  /** The zero-rate row's tax is zero, whatever the other items are. */
  lemma ZeroRateRowHasNoTax(items: seq<Item>)
    ensures GroupOf(items, Some(0.0)).vat == Some(0.0)
  {
    var members := Members(items, Some(0.0));
    assert forall k :: 0 <= k < |members| ==> RawVat(members[k]) == 0.0;
    SumOfZeros(members, RawVat);
    RoundHalfAwayOfCents(0.0);
  }
}
