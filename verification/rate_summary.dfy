/** The per-rate summary of an invoice (`Invoice.vat_summary`): the items are
    grouped by tax rate, items without a rate forming a group of their own, as
    SQL's `group by tax_rate` groups NULLs. */
module RateSummary {
  import opened Results
  import opened Money
  import opened Records
  import ItemAmounts

  /** One row of the summary: the rate, the summed discounted price `base`
      (not rounded), and the rounded tax, absent for the group without a rate. */
  datatype Group = Group(rate: Option<real>, base: real, vat: Option<real>)

  /** The tax each item contributes to its group: price times quantity times
      rate, with NO discount applied, as the summary query computes it. */
  function RawVat(it: Item): real {
    it.quantity * it.unitPrice * (ItemAmounts.RateOrZero(it) / 100.0)
  }

  /** The sum of `f` over `items`, added up front to back. */
  function SumOf(items: seq<Item>, f: Item -> real): real
    decreases |items|
  {
    if |items| == 0 then 0.0
    else SumOf(items[..|items| - 1], f) + f(items[|items| - 1])
  }

  predicate Distinct<T(==)>(s: seq<T>) {
    forall i, j :: 0 <= i < j < |s| ==> s[i] != s[j]
  }

  /** Some item of `items` has rate `rate`. */
  predicate HasRate(items: seq<Item>, rate: Option<real>) {
    exists i :: 0 <= i < |items| && items[i].taxRate == rate
  }

  /** The distinct tax rates of `items`, in order of first appearance
      (`RatesDistinct`, `RatesCoverItems`, `RatesComeFromItems`). */
  function Rates(items: seq<Item>): seq<Option<real>>
    decreases |items|
  {
    if |items| == 0 then []
    else
      var rates := Rates(items[..|items| - 1]);
      var rate := items[|items| - 1].taxRate;
      if rate in rates then rates else rates + [rate]
  }

  /** No rate is listed twice. */
  lemma {:induction false} RatesDistinct(items: seq<Item>)
    ensures Distinct(Rates(items))
    decreases |items|
  {
    if |items| > 0 {
      RatesDistinct(items[..|items| - 1]);
    }
  }

  /** Every item's rate is listed. */
  lemma {:induction false} RatesCoverItems(items: seq<Item>)
    ensures forall i :: 0 <= i < |items| ==> items[i].taxRate in Rates(items)
    decreases |items|
  {
    if |items| > 0 {
      var prefix := items[..|items| - 1];
      RatesCoverItems(prefix);
      assert forall i :: 0 <= i < |prefix| ==> prefix[i] == items[i];
    }
  }

  /** Every listed rate is some item's rate. */
  lemma {:induction false} RatesComeFromItems(items: seq<Item>)
    ensures forall k :: 0 <= k < |Rates(items)| ==> HasRate(items, Rates(items)[k])
    decreases |items|
  {
    if |items| > 0 {
      var prefix := items[..|items| - 1];
      RatesComeFromItems(prefix);
      forall k | 0 <= k < |Rates(items)| ensures HasRate(items, Rates(items)[k]) {
        if k < |Rates(prefix)| {
          var i :| 0 <= i < |prefix| && prefix[i].taxRate == Rates(prefix)[k];
          assert items[i] == prefix[i];
        } else {
          assert items[|items| - 1].taxRate == Rates(items)[k];
        }
      }
    }
  }

  /** The items whose rate is `rate`, in their order. */
  function Members(items: seq<Item>, rate: Option<real>): (r: seq<Item>)
    ensures forall k :: 0 <= k < |r| ==> r[k] in items && r[k].taxRate == rate
    ensures (forall i :: 0 <= i < |items| ==> items[i].taxRate == rate) ==> r == items
    decreases |items|
  {
    if |items| == 0 then []
    else
      var prefix := items[..|items| - 1];
      var last := items[|items| - 1];
      assert items == prefix + [last];
      if last.taxRate == rate then Members(prefix, rate) + [last] else Members(prefix, rate)
  }

  /** The summary row of the items with rate `rate`. */
  function GroupOf(items: seq<Item>, rate: Option<real>): (g: Group)
    ensures g.rate == rate
    ensures g.vat.None? <==> rate.None?
    ensures g.vat.Some? ==> IsCents(g.vat.value)
  {
    var members := Members(items, rate);
    Group(rate, SumOf(members, ItemAmounts.RawBase),
          if rate.None? then None else Some(RoundHalfAway(SumOf(members, RawVat))))
  }

  /** The sum of `f` over the items whose rate is `rate`, every other item
      counting zero: a reference for a row's column that filters nothing out. */
  function SumWhere(items: seq<Item>, rate: Option<real>, f: Item -> real): real
    decreases |items|
  {
    if |items| == 0 then 0.0
    else
      var last := items[|items| - 1];
      SumWhere(items[..|items| - 1], rate, f) + (if last.taxRate == rate then f(last) else 0.0)
  }

  /** Grouping keeps every item of the rate once: each item occurs among the
      members exactly as often as in the list when it has the rate, and not
      at all otherwise. */
  lemma {:induction false} MembersAreTheItemsOfRate(items: seq<Item>, rate: Option<real>)
    ensures forall x :: multiset(Members(items, rate))[x] == if x.taxRate == rate then multiset(items)[x] else 0
    decreases |items|
  {
    if |items| > 0 {
      var prefix := items[..|items| - 1];
      var last := items[|items| - 1];
      assert items == prefix + [last];
      assert multiset(items) == multiset(prefix) + multiset{last};
      MembersAreTheItemsOfRate(prefix, rate);
    }
  }

  /** Summing over the members of a rate is summing over all items with the
      other rates counted as zero. */
  lemma {:induction false} MembersSum(items: seq<Item>, rate: Option<real>, f: Item -> real)
    ensures SumOf(Members(items, rate), f) == SumWhere(items, rate, f)
    decreases |items|
  {
    if |items| > 0 {
      var prefix := items[..|items| - 1];
      var last := items[|items| - 1];
      var m := Members(prefix, rate);
      MembersSum(prefix, rate, f);
      if last.taxRate == rate {
        assert (m + [last])[..|m|] == m;
      }
    }
  }

  /** A row's base is the unrounded sum of the discounted prices of the items
      of its rate; a row with a rate has as tax the rounded sum of quantity
      times price times rate over those items, with no discount applied. */
  lemma GroupOfSums(items: seq<Item>, rate: Option<real>)
    ensures GroupOf(items, rate).base == SumWhere(items, rate, ItemAmounts.RawBase)
    ensures rate.Some? ==> GroupOf(items, rate).vat == Some(RoundHalfAway(SumWhere(items, rate, RawVat)))
  {
    MembersSum(items, rate, ItemAmounts.RawBase);
    MembersSum(items, rate, RawVat);
  }

  /** The rows for `rates`, in that order. */
  function SummaryOf(items: seq<Item>, rates: seq<Option<real>>): (r: seq<Group>)
    ensures |r| == |rates|
    decreases |rates|
  {
    if |rates| == 0 then []
    else SummaryOf(items, rates[..|rates| - 1]) + [GroupOf(items, rates[|rates| - 1])]
  }

  /** Row `k` of `SummaryOf` is the group of the `k`-th rate. */
  lemma {:induction false} SummaryOfRow(items: seq<Item>, rates: seq<Option<real>>, k: int)
    requires 0 <= k < |rates|
    ensures SummaryOf(items, rates)[k] == GroupOf(items, rates[k])
    decreases |rates|
  {
    if k < |rates| - 1 {
      SummaryOfRow(items, rates[..|rates| - 1], k);
    }
  }

  /** Every row of `SummaryOf` is the group of its rate. */
  lemma SummaryOfRows(items: seq<Item>, rates: seq<Option<real>>)
    ensures forall k :: 0 <= k < |rates| ==> SummaryOf(items, rates)[k] == GroupOf(items, rates[k])
  {
    forall k | 0 <= k < |rates| ensures SummaryOf(items, rates)[k] == GroupOf(items, rates[k]) {
      SummaryOfRow(items, rates, k);
    }
  }

  /** `vat_summary`: one row per distinct rate of the items, each row's tax
      in cents and absent exactly for the row without a rate. */
  function Summary(items: seq<Item>): (r: seq<Group>)
    ensures forall i, j :: 0 <= i < j < |r| ==> r[i].rate != r[j].rate
    ensures forall k :: 0 <= k < |r| ==> (r[k].vat.None? <==> r[k].rate.None?)
    ensures forall k :: 0 <= k < |r| && r[k].vat.Some? ==> IsCents(r[k].vat.value)
  {
    var rates := Rates(items);
    RatesDistinct(items);
    SummaryOfRows(items, rates);
    SummaryOf(items, rates)
  }

  /** The summary's rows partition the items: every item's rate is the rate of
      exactly one row, and every row's rate is some item's rate. */
  lemma SummaryPartitionsItems(items: seq<Item>)
    ensures forall i :: 0 <= i < |items| ==>
      exists k :: 0 <= k < |Summary(items)| && Summary(items)[k].rate == items[i].taxRate
    ensures forall i, k, l :: 0 <= i < |items| && 0 <= k < l < |Summary(items)| ==>
      !(Summary(items)[k].rate == items[i].taxRate && Summary(items)[l].rate == items[i].taxRate)
    ensures forall k :: 0 <= k < |Summary(items)| ==> HasRate(items, Summary(items)[k].rate)
  {
    var rates := Rates(items);
    var r := Summary(items);
    RatesDistinct(items);
    RatesCoverItems(items);
    RatesComeFromItems(items);
    SummaryOfRows(items, rates);
    assert forall k :: 0 <= k < |r| ==> r[k].rate == rates[k];
    forall i | 0 <= i < |items| ensures exists k :: 0 <= k < |r| && r[k].rate == items[i].taxRate {
      var k :| 0 <= k < |rates| && rates[k] == items[i].taxRate;
      assert r[k].rate == items[i].taxRate;
    }
  }

  /** The values of every summary row, for any mix of rates: the base sums
      the discounted prices of the row's items, and the tax rounds once the
      undiscounted tax of those items. */
  lemma SummaryRowSums(items: seq<Item>, k: int)
    requires 0 <= k < |Summary(items)|
    ensures Summary(items)[k].base == SumWhere(items, Summary(items)[k].rate, ItemAmounts.RawBase)
    ensures Summary(items)[k].rate.Some? ==>
      Summary(items)[k].vat == Some(RoundHalfAway(SumWhere(items, Summary(items)[k].rate, RawVat)))
  {
    SummaryOfRow(items, Rates(items), k);
    GroupOfSums(items, Summary(items)[k].rate);
  }

  /** The sum of the summary's `base` column. */
  function SumBases(groups: seq<Group>): real
    decreases |groups|
  {
    if |groups| == 0 then 0.0
    else SumBases(groups[..|groups| - 1]) + groups[|groups| - 1].base
  }

  /** The sum of the summary's `vat` column, an absent tax counting as zero. */
  function SumVats(groups: seq<Group>): (r: real)
    ensures (forall k :: 0 <= k < |groups| && groups[k].vat.Some? ==> IsCents(groups[k].vat.value)) ==> IsCents(r)
    decreases |groups|
  {
    if |groups| == 0 then 0.0
    else
      var prefix := groups[..|groups| - 1];
      var last := groups[|groups| - 1];
      assert forall k :: 0 <= k < |prefix| ==> prefix[k] == groups[k];
      var rest := SumVats(prefix);
      var v := last.vat.GetOr(0.0);
      var allCents := forall k :: 0 <= k < |groups| && groups[k].vat.Some? ==> IsCents(groups[k].vat.value);
      CentsClosedWhen(allCents, rest, v);
      rest + v
  }

  /** `CentsClosed` under a condition that may fail. */
  lemma CentsClosedWhen(c: bool, a: real, b: real)
    requires c ==> IsCents(a) && IsCents(b)
    ensures c ==> IsCents(a + b)
  {
    if c {
      CentsClosed(a, b);
    }
  }

  /** Adding an item to the list adds its base to the row of its rate and
      changes no other row. */
  lemma {:induction false} BasesAfterAppend(items: seq<Item>, x: Item, rates: seq<Option<real>>)
    requires Distinct(rates)
    ensures SumBases(SummaryOf(items + [x], rates))
         == SumBases(SummaryOf(items, rates)) + (if x.taxRate in rates then ItemAmounts.RawBase(x) else 0.0)
    decreases |rates|
  {
    if |rates| > 0 {
      var front := rates[..|rates| - 1];
      var rate := rates[|rates| - 1];
      assert Distinct(front);
      BasesAfterAppend(items, x, front);
      var s := items + [x];
      assert s[..|s| - 1] == items;
      var before := SummaryOf(items, rates);
      var after := SummaryOf(s, rates);
      assert before[..|before| - 1] == SummaryOf(items, front);
      assert after[..|after| - 1] == SummaryOf(s, front);
      assert x.taxRate in rates <==> x.taxRate in front || x.taxRate == rate;
      SummaryOfRow(items, rates, |rates| - 1);
      SummaryOfRow(s, rates, |rates| - 1);
      if x.taxRate == rate {
        assert x.taxRate !in front;
        var m := Members(items, rate);
        assert (m + [x])[..|m|] == m;
      }
    }
  }

  /** No item has a rate that is not in the list, so its row is empty. */
  lemma MembersOfAbsentRate(items: seq<Item>, rate: Option<real>)
    requires forall i :: 0 <= i < |items| ==> items[i].taxRate != rate
    ensures Members(items, rate) == []
  {
    var m := Members(items, rate);
    if |m| > 0 {
      assert m[0] in items;
    }
  }

  /** An item whose rate is new to the list opens a row holding just its base. */
  lemma NewRateRow(prefix: seq<Item>, x: Item, rates: seq<Option<real>>)
    requires rates == Rates(prefix) && x.taxRate !in rates
    ensures SumBases(SummaryOf(prefix + [x], rates + [x.taxRate]))
         == SumBases(SummaryOf(prefix + [x], rates)) + ItemAmounts.RawBase(x)
  {
    RatesCoverItems(prefix);
    var items := prefix + [x];
    var rates' := rates + [x.taxRate];
    assert rates'[..|rates|] == rates;
    var all := SummaryOf(items, rates');
    assert all[..|all| - 1] == SummaryOf(items, rates);
    assert forall i :: 0 <= i < |prefix| ==> prefix[i].taxRate != x.taxRate;
    MembersOfAbsentRate(prefix, x.taxRate);
    assert items[..|items| - 1] == prefix;
    assert Members(items, x.taxRate) == [x];
    SummaryOfRow(items, rates', |rates|);
    assert [x][..0] == [];
    assert SumOf([x], ItemAmounts.RawBase) == ItemAmounts.RawBase(x);
  }

  /** The rows' bases add up to the undiscounted-then-discounted prices of all
      items, before any rounding: grouping loses and repeats nothing. */
  lemma {:induction false} SummaryBasesSumItems(items: seq<Item>)
    ensures SumBases(Summary(items)) == SumOf(items, ItemAmounts.RawBase)
    decreases |items|
  {
    if |items| > 0 {
      var prefix := items[..|items| - 1];
      var x := items[|items| - 1];
      assert items == prefix + [x];
      var rates := Rates(prefix);
      var total := SumOf(prefix, ItemAmounts.RawBase) + ItemAmounts.RawBase(x);
      assert SumOf(items, ItemAmounts.RawBase) == total;
      SummaryBasesSumItems(prefix);
      assert SumBases(SummaryOf(prefix, rates)) == SumOf(prefix, ItemAmounts.RawBase);
      RatesDistinct(prefix);
      BasesAfterAppend(prefix, x, rates);
      if x.taxRate in rates {
        assert Rates(items) == rates;
        assert SumBases(SummaryOf(items, rates)) == total;
      } else {
        assert Rates(items) == rates + [x.taxRate];
        NewRateRow(prefix, x, rates);
        assert SumBases(Summary(items)) == total;
      }
    }
  }

  /** The summary is a single row without tax exactly when there are items and
      none of them has a rate. */
  lemma {:induction false} SingleRatelessRow(items: seq<Item>)
    ensures (|Summary(items)| == 1 && Summary(items)[0].vat.None?)
        <==> |items| > 0 && forall i :: 0 <= i < |items| ==> items[i].taxRate.None?
  {
    var rates := Rates(items);
    var r := Summary(items);
    RatesDistinct(items);
    RatesCoverItems(items);
    RatesComeFromItems(items);
    SummaryOfRows(items, rates);
    if |r| == 1 && r[0].vat.None? {
      assert rates == [None];
    }
    if |items| > 0 && forall i :: 0 <= i < |items| ==> items[i].taxRate.None? {
      RatesOfUniform(items, None);
    }
  }

  /** The summary of an invoice whose items all have one rate is that rate's single row. */
  lemma {:induction false} OneRateOneRow(items: seq<Item>, rate: Option<real>)
    requires |items| > 0
    requires forall i :: 0 <= i < |items| ==> items[i].taxRate == rate
    ensures Summary(items) == [GroupOf(items, rate)]
    ensures GroupOf(items, rate).base == SumOf(items, ItemAmounts.RawBase)
    ensures rate.Some? ==> GroupOf(items, rate).vat == Some(RoundHalfAway(SumOf(items, RawVat)))
  {
    RatesOfUniform(items, rate);
    SummaryOfRows(items, [rate]);
    assert SummaryOf(items, [rate]) == [GroupOf(items, rate)];
  }

  /** Items that all share one rate list just that rate. */
  lemma {:induction false} RatesOfUniform(items: seq<Item>, rate: Option<real>)
    requires |items| > 0
    requires forall i :: 0 <= i < |items| ==> items[i].taxRate == rate
    ensures Rates(items) == [rate]
    decreases |items|
  {
    if |items| > 1 {
      var prefix := items[..|items| - 1];
      assert forall i :: 0 <= i < |prefix| ==> prefix[i] == items[i];
      RatesOfUniform(prefix, rate);
    } else {
      assert items[..0] == [];
    }
  }

  /** A sum of zeros is zero. */
  lemma {:induction false} SumOfZeros(items: seq<Item>, f: Item -> real)
    requires forall i :: 0 <= i < |items| ==> f(items[i]) == 0.0
    ensures SumOf(items, f) == 0.0
    decreases |items|
  {
    if |items| > 0 {
      var prefix := items[..|items| - 1];
      assert forall i :: 0 <= i < |prefix| ==> prefix[i] == items[i];
      SumOfZeros(prefix, f);
    }
  }

  /** A sum of cents amounts is a cents amount. */
  lemma {:induction false} SumOfCents(items: seq<Item>, f: Item -> real)
    requires forall i :: 0 <= i < |items| ==> IsCents(f(items[i]))
    ensures IsCents(SumOf(items, f))
    decreases |items|
  {
    if |items| > 0 {
      var prefix := items[..|items| - 1];
      assert forall i :: 0 <= i < |prefix| ==> prefix[i] == items[i];
      SumOfCents(prefix, f);
      CentsClosed(SumOf(prefix, f), f(items[|items| - 1]));
    }
  }
}
