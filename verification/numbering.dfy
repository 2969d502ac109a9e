/** Invoice number allocation (`Invoice._get_next_number`): the next number
    is one more than the largest number among the stored invoices of the same
    type whose issue date falls in the counter period of the new invoice's
    tax-point date. */
module Numbering {
  import opened Results
  import opened Dates
  import opened Records

  datatype CounterPeriod = Daily | Monthly | Yearly

  /** What the store knows of an invoice already saved. */
  datatype StoredInvoice = StoredInvoice(kind: InvoiceType, dateIssue: Date, number: int)

  const PeriodError: Error :=
    ImproperlyConfigured("INVOICING_COUNTER_PERIOD can be set only to these values: DAILY, MONTHLY, YEARLY.")

  /** The setting value naming each period. */
  function PeriodName(p: CounterPeriod): string {
    match p
    case Daily => "DAILY"
    case Monthly => "MONTHLY"
    case Yearly => "YEARLY"
  }

  /** Reads `INVOICING_COUNTER_PERIOD`: YEARLY when the setting is absent, an
      error for any value that names no period, `None` included. */
  function ResolvePeriod(setting: Setting<Option<string>>): (r: Result<CounterPeriod, Error>)
    ensures setting.Unset? ==> r == Success(Yearly)
    ensures setting.Set? && r.Success? ==> setting.value == Some(PeriodName(r.value))
    ensures r.Failure? <==> setting.Set? && forall p: CounterPeriod :: setting.value != Some(PeriodName(p))
    ensures r.Failure? ==> r.error == PeriodError
  {
    match setting
    case Unset => Success(Yearly)
    case Set(None) => Failure(PeriodError)
    case Set(Some(name)) =>
      if name == "DAILY" then Success(Daily)
      else if name == "YEARLY" then Success(Yearly)
      else if name == "MONTHLY" then Success(Monthly)
      else Failure(PeriodError)
  }

  /** `issued` lies in the counter period of `key`. */
  predicate InWindow(p: CounterPeriod, issued: Date, key: Date) {
    match p
    case Daily => issued == key
    case Monthly => issued.year == key.year && issued.month == key.month
    case Yearly => issued.year == key.year
  }

  /** The filter of `_get_next_number`: same type, and the stored invoice's
      issue date in the window of `key` (the new invoice's tax-point date). */
  predicate InScope(p: CounterPeriod, kind: InvoiceType, key: Date, s: StoredInvoice) {
    s.kind == kind && InWindow(p, s.dateIssue, key)
  }

  /** The `Max('number')` aggregate over the invoices in scope; `None` for no rows. */
  function MaxNumber(store: seq<StoredInvoice>, p: CounterPeriod, kind: InvoiceType, key: Date): (r: Option<int>)
    ensures r.None? <==> forall i :: 0 <= i < |store| ==> !InScope(p, kind, key, store[i])
    ensures r.Some? ==> exists i :: 0 <= i < |store| && InScope(p, kind, key, store[i]) && store[i].number == r.value
    ensures r.Some? ==> forall i :: 0 <= i < |store| && InScope(p, kind, key, store[i]) ==> store[i].number <= r.value
    decreases |store|
  {
    if |store| == 0 then None
    else
      var rest := store[..|store| - 1];
      var last := store[|store| - 1];
      var m := MaxNumber(rest, p, kind, key);
      assert forall i :: 0 <= i < |rest| ==> rest[i] == store[i];
      if !InScope(p, kind, key, last) then m
      else if m.None? || m.value < last.number then Some(last.number)
      else m
  }

  /** `_get_next_number` for a new invoice of type `kind` with tax-point date `taxPoint`. */
  function NextNumber(settings: Settings, store: seq<StoredInvoice>, kind: InvoiceType, taxPoint: Date): (r: Result<int, Error>)
    ensures r.Failure? <==> ResolvePeriod(settings.counterPeriod).Failure?
    ensures r.Failure? ==> r.error == PeriodError
    ensures r.Success? ==>
      var p := ResolvePeriod(settings.counterPeriod).value;
      && (forall i :: 0 <= i < |store| && InScope(p, kind, taxPoint, store[i]) ==> store[i].number < r.value)
      && ((forall i :: 0 <= i < |store| ==> !InScope(p, kind, taxPoint, store[i])) ==> r.value == 1)
      && ((exists i :: 0 <= i < |store| && InScope(p, kind, taxPoint, store[i])) ==>
            exists i :: 0 <= i < |store| && InScope(p, kind, taxPoint, store[i]) && store[i].number == r.value - 1)
  {
    match ResolvePeriod(settings.counterPeriod)
    case Failure(e) => Failure(e)
    case Success(p) =>
      var last := MaxNumber(store, p, kind, taxPoint).GetOr(0);
      Success(last + 1)
  }

  /** No two stored invoices of one type whose issue dates share a counter
      period carry the same number. */
  predicate NumbersUnique(p: CounterPeriod, store: seq<StoredInvoice>) {
    forall i, j :: 0 <= i < j < |store| && store[i].kind == store[j].kind && InWindow(p, store[j].dateIssue, store[i].dateIssue)
      ==> store[i].number != store[j].number
  }

  /** Saving invoices one at a time keeps numbers unique, provided each
      invoice is issued on its tax-point date. */
  lemma AllocationKeepsNumbersUnique(settings: Settings, store: seq<StoredInvoice>, kind: InvoiceType, d: Date, n: int)
    requires ResolvePeriod(settings.counterPeriod).Success?
    requires NumbersUnique(ResolvePeriod(settings.counterPeriod).value, store)
    requires NextNumber(settings, store, kind, d) == Success(n)
    ensures NumbersUnique(ResolvePeriod(settings.counterPeriod).value, store + [StoredInvoice(kind, d, n)])
  {
    var p := ResolvePeriod(settings.counterPeriod).value;
    var s' := store + [StoredInvoice(kind, d, n)];
    forall i, j | 0 <= i < j < |s'| && s'[i].kind == s'[j].kind && InWindow(p, s'[j].dateIssue, s'[i].dateIssue)
      ensures s'[i].number != s'[j].number
    {
      if j == |store| {
        assert InWindow(p, s'[i].dateIssue, d);
        assert InScope(p, kind, d, store[i]);
      }
    }
  }

  /** Two dates in one counter period select the same stored invoices. */
  lemma SameWindowSameScope(p: CounterPeriod, kind: InvoiceType, d: Date, e: Date, s: StoredInvoice)
    requires InWindow(p, d, e)
    ensures InScope(p, kind, d, s) <==> InScope(p, kind, e, s)
  {
  }

  /** Once an allocated number is stored for an invoice issued on its
      tax-point date, the next invoice of the same type in the same period
      gets the following number: serialised allocations of such invoices
      count up by one. An invoice issued outside its tax-point period does not
      (`TaxPointKeyAllowsRepeatedNumbers`). */
  lemma {:induction false} AllocationCountsUp(settings: Settings, store: seq<StoredInvoice>, kind: InvoiceType, d: Date, e: Date, n: int)
    requires ResolvePeriod(settings.counterPeriod).Success?
    requires InWindow(ResolvePeriod(settings.counterPeriod).value, d, e)
    requires NextNumber(settings, store, kind, d) == Success(n)
    ensures NextNumber(settings, store + [StoredInvoice(kind, d, n)], kind, e) == Success(n + 1)
  {
    var p := ResolvePeriod(settings.counterPeriod).value;
    var s' := store + [StoredInvoice(kind, d, n)];
    forall i | 0 <= i < |s'| ensures InScope(p, kind, e, s'[i]) <==> InScope(p, kind, d, s'[i]) {
      SameWindowSameScope(p, kind, d, e, s'[i]);
    }
    assert InScope(p, kind, e, s'[|store|]);
    assert forall i :: 0 <= i < |store| && InScope(p, kind, e, s'[i]) ==> s'[i].number < n by {
      forall i | 0 <= i < |store| && InScope(p, kind, e, s'[i]) ensures s'[i].number < n {
        assert s'[i] == store[i];
      }
    }
    var m := MaxNumber(s', p, kind, e);
    var k :| 0 <= k < |s'| && InScope(p, kind, e, s'[k]) && s'[k].number == m.value;
    assert m.value == n;
  }

  /** The tax-point date picks the period but the stored issue dates are
      matched against it, so an invoice issued after its tax-point year does
      not count in that year: with the default yearly counter, two invoices
      with tax points in 2023 both get number 1. */
  lemma TaxPointKeyAllowsRepeatedNumbers()
    ensures var settings := Settings(Unset, None);
      && NextNumber(settings, [], Standard, Date(2023, 12, 31)) == Success(1)
      && NextNumber(settings, [StoredInvoice(Standard, Date(2024, 1, 2), 1)], Standard, Date(2023, 12, 30)) == Success(1)
  {
    var settings := Settings(Unset, None);
    assert !InScope(Yearly, Standard, Date(2023, 12, 30), StoredInvoice(Standard, Date(2024, 1, 2), 1));
  }

  /** The scenario of a yearly counter whose largest number for invoices issued in 2024 is 7. */
  lemma YearlyScenario()
    ensures NextNumber(Settings(Set(Some("YEARLY")), None), ScenarioStore(), Standard, Date(2024, 6, 30)) == Success(8)
  {
    var store := ScenarioStore();
    var r := NextNumber(Settings(Set(Some("YEARLY")), None), store, Standard, Date(2024, 6, 30));
    assert InScope(Yearly, Standard, Date(2024, 6, 30), store[0]);
    var k :| 0 <= k < |store| && InScope(Yearly, Standard, Date(2024, 6, 30), store[k]) && store[k].number == r.value - 1;
  }

  function ScenarioStore(): seq<StoredInvoice> {
    [ StoredInvoice(Standard, Date(2024, 3, 1), 7), StoredInvoice(Standard, Date(2024, 1, 9), 3),
      StoredInvoice(Advance, Date(2024, 2, 1), 9), StoredInvoice(Standard, Date(2023, 5, 5), 12) ]
  }
}
