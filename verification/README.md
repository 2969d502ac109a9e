# Invoice numbering and amounts of django-invoicing, in Dafny

This project models the computational core of the `Invoice` and `Item` models
of django-invoicing (`invoicing/models.py`). It covers four pieces:

- **Invoice number allocation.** `_get_next_number` and `save` are modelled.
  Allocation is scoped by the counter period (DAILY, MONTHLY or YEARLY, with
  YEARLY the default) and by the invoice type. The window is keyed on the new
  invoice's tax-point date and matched against the stored invoices' issue
  dates. `number` and `full_number` are assigned only when they are empty.
- **Taxation-policy resolution.** `taxation_policy` and `get_tax_rate` are
  modelled. The configured policy comes first, then the EU policy for an EU
  supplier, then the default tax. `Item.save` fills in a missing rate on a new
  item.
- **Amounts.**
  - Item subtotal, tax, total and unit price with tax.
  - The per-rate summary (`vat_summary`): each rate's base is summed with the
    discount and without rounding, and its tax is summed without the discount
    and rounded once.
  - The invoice's subtotal, tax (with its "undefined" value) and total.
- **Derived properties.** `is_overdue`, `overdue_days`, `payment_term` and
  `is_supplier_vat_id_visible`.

Money is exact: amounts are `real`s, the decimal arithmetic the code's
`Decimal` fields intend. Two rounding functions round to whole cents.

- `Money.Round2` is Python's `round(x, 2)` on a `Decimal`. It rounds to the
  nearest cent, and a tie goes to the even cent.
- `Money.RoundHalfAway` is PostgreSQL's `ROUND(numeric, 2)` in the summary
  query. A tie goes away from zero.

Both give whole cents at most half a cent from their argument. Every general
property uses only that contract and the fact that a cents amount is left
unchanged. The other concrete examples involve no ties, so they hold under
any round-to-nearest rule. `Money.RoundingRulesDifferOnTies` shows where the two
rules part.

The model computes what the code evidently means, in exact decimals. The code
as it runs departs from that:

- Under Python 3, `round` of a `Decimal` is a `Decimal`. So `Item.vat`
  multiplies a `Decimal` by a `float`, which raises `TypeError` for any
  non-zero rate, and `Item.total` raises with it.
- Under both interpreters, `Invoice.total` converts each row's tax and base
  and the credit to `float` and rounds the float. A base that is a decimal
  tie can then round the other way: one unrated item of 1 × 2.03 at 50 % off
  has base 1.015, a total of 1.02 in the model, and 1.01 as a Python 3 float.
- Under Python 2, `round` returns a `float`. All item amounts are then binary
  floats, rounded half away from zero on their binary value.

Dates follow Python's `datetime.date`. Comparison is field by field, and day
differences go through `toordinal`. `Dates.NextDayIsOneDayLater` ties that
difference to the calendar.

Some settings and code are not part of the model. They enter as values:

- `Records.Settings` holds the values of `INVOICING_COUNTER_PERIOD` and
  `INVOICING_TAXATION_POLICY`. The counter period tells an absent setting
  (YEARLY) from one set to `None`, which the code rejects.
- `Records.Collaborators` holds four functions:
  - EU membership (`EUTaxationPolicy.is_in_EU`);
  - the policies' `get_tax_rate`;
  - the default tax (`TaxationPolicy.get_default_tax`);
  - the full-number template rendered against an invoice.
- The stored invoices that allocation looks at are a sequence of
  (type, issue date, number) records.
- "Today" is a parameter.

Modules: `Results` (Option and Result), `Money`, `Dates`, `Records` (the data
model), `Numbering`, `Taxation`, `ItemAmounts`, `RateSummary`,
`InvoiceAmounts` and `Lifecycle`.

Three behaviours of the code are worth knowing when reading the model:

- `Invoice.vat` is undefined only when the summary is a single row without a
  rate. So an invoice with no items has tax 0, not undefined
  (`InvoiceAmounts.Vat`).
- `_get_next_number` keys the counter window on the new invoice's tax-point
  date but filters the stored invoices by their issue date (`Numbering.InScope`,
  `Numbering.TaxPointKeyAllowsRepeatedNumbers`).
- `Invoice.save` sets the allocated number on the object before it renders the
  full number. A render error leaves the number in place, and a retried save
  keeps it (`Lifecycle.SavedState`, `Lifecycle.RetryKeepsAllocatedNumber`).

## Model

| member | source | states |
|---|---|---|
| `Money.Round2` | invoicing/models.py:473-474 | `round(x, 2)`: the result is a whole number of cents, at most half a cent from `x` |
| `Money.Round2IsNearest` | invoicing/models.py:473-474 | no cents amount is closer to `x` than the rounded value |
| `Money.Round2OfCents` | invoicing/models.py:410 | rounding an amount that is already in cents leaves it unchanged, so `round(sum, 2)` of cents subtotals is the sum |
| `Money.CentsClosed` | invoicing/models.py:487 | sums and differences of cents amounts are cents amounts |
| `Money.RoundHalfAway` | invoicing/models.py:397 | `ROUND(..., 2)` of the summary query: the result is a whole number of cents, at most half a cent from `x` |
| `Money.RoundHalfAwayOfCents` | invoicing/models.py:397 | the query's rounding leaves an amount already in cents unchanged |
| `Money.RoundingRulesDifferOnTies` | invoicing/models.py:397 | the query's rounding and `round` part on a tie: 0.025 gives 0.03 in the query and 0.02 with `round` |
| `Dates.BeforeIffOrdinalLess` | invoicing/models.py:325-331 | for valid dates, `a < b` holds exactly when `(b - a).days > 0`, and the dates are equal exactly when the difference is 0 |
| `Dates.DaysBeforeYearGrows` | invoicing/models.py:331 | every earlier year ends before a later year starts in the day count, so date subtraction agrees with the year order |
| `Dates.NextDay` | invoicing/models.py:331 | the day after a valid date is a valid later date, in the same year or on 1 January of the next |
| `Dates.NextDayIsOneDayLater` | invoicing/models.py:331 | date subtraction counts calendar days: the next day is exactly one day later, across month and year ends and leap days |
| `Numbering.ResolvePeriod` | invoicing/models.py:267-280 | an absent setting is YEARLY; a set value is accepted exactly when it names DAILY, MONTHLY or YEARLY, and any other value, `None` included, gives the ImproperlyConfigured error |
| `Numbering.InWindow` | invoicing/models.py:270-277 | the period filters: the same issue date (DAILY), the same year and month (MONTHLY), the same year (YEARLY) |
| `Numbering.InScope` | invoicing/models.py:269-277 | a stored invoice is in scope when it has the new invoice's type and its issue date lies in the window of the new invoice's tax-point date |
| `Numbering.MaxNumber` | invoicing/models.py:282 | `Max('number')` over the scope: `None` exactly when no stored invoice is in scope, otherwise the number of an in-scope invoice that no in-scope number exceeds |
| `Numbering.NextNumber` | invoicing/models.py:267-284 | fails exactly when the period setting is unrecognised; otherwise it exceeds every number in scope, is 1 for an empty scope and is one more than an in-scope number otherwise |
| `Numbering.AllocationKeepsNumbersUnique` | invoicing/models.py:269-284 | storing each allocated invoice before the next allocation keeps numbers unique per type and period, when each invoice is issued on its tax-point date |
| `Numbering.AllocationCountsUp` | invoicing/models.py:269-284 | when the stored invoice is issued on its tax-point date, the next allocation of that type in the same period is exactly one higher; an invoice issued outside its tax-point period breaks this, as `Numbering.TaxPointKeyAllowsRepeatedNumbers` shows |
| `Numbering.TaxPointKeyAllowsRepeatedNumbers` | invoicing/models.py:269-277 | because the tax-point key is matched against issue dates, two invoices with tax points in 2023 can both receive number 1 under the default yearly counter |
| `Numbering.YearlyScenario` | invoicing/models.py:273-284 | yearly counter, largest number 7 among same-type invoices issued in 2024: the next number is 8; other types and years are ignored |
| `Taxation.ResolvePolicy` | invoicing/models.py:312-323 | a configured policy always wins; otherwise the EU policy applies exactly when the supplier country is present and in the EU; otherwise there is none |
| `Taxation.GetTaxRate` | invoicing/models.py:302-310 | the rate comes from the configured policy, else from the EU policy for an EU supplier, given the customer VAT id and country codes and the supplier country code; otherwise it is the default tax |
| `Taxation.ConfiguredPolicyWins` | invoicing/models.py:314-316 | with a configured policy, the rate does not depend on EU membership or the default tax |
| `ItemAmounts.Subtotal` | invoicing/models.py:471-474 | the item subtotal is in cents and, for a discount between 0 and 100 %, within one cent of the unrounded discounted price |
| `ItemAmounts.SubtotalNearRawBase` | invoicing/models.py:473-474 | for discounts between 0 and 100 %, rounding the gross amount before the discount moves the result by at most one cent in all |
| `ItemAmounts.RoundingBeforeDiscountMatters` | invoicing/models.py:473-474 | rounding before the discount shows in the last cent: 1.6 at 0.01 with 10 % off gives 0.02, where discounting first gives 0.01 |
| `ItemAmounts.Vat` | invoicing/models.py:476-478 | the item tax is in cents, zero when the rate is missing or zero, and within half a cent of subtotal × rate / 100 |
| `ItemAmounts.UnitPriceWithVat` | invoicing/models.py:480-483 | in cents, within half a cent of price × (100 + rate) / 100; equal to the price when there is no rate and the price is in cents |
| `ItemAmounts.Total` | invoicing/models.py:485-487 | the final rounding is a no-op: the total is exactly subtotal + tax, and equals the subtotal without a rate |
| `ItemAmounts.ScenarioStandardRate` | invoicing/models.py:471-487 | 3 × 10.00 at 20 %: subtotal 30.00, tax 6.00, total 36.00 |
| `ItemAmounts.ScenarioDiscountZeroRate` | invoicing/models.py:471-487 | 1 × 99.99 with 10 % off at 0 %: subtotal 89.99, tax 0, total 89.99 |
| `RateSummary.RatesDistinct` | invoicing/models.py:397 | `group by tax_rate` lists no rate twice |
| `RateSummary.RatesCoverItems` | invoicing/models.py:397 | every item's rate, including "no rate", has a group |
| `RateSummary.RatesComeFromItems` | invoicing/models.py:397 | every group's rate is the rate of some item |
| `RateSummary.GroupOf` | invoicing/models.py:397 | a group row carries its rate; its tax is absent exactly for the NULL rate, and otherwise in cents |
| `RateSummary.MembersAreTheItemsOfRate` | invoicing/models.py:397 | a rate's group holds exactly the items with that rate, each as often as it occurs in the item list |
| `RateSummary.GroupOfSums` | invoicing/models.py:397 | a row's base is the unrounded Σ quantity × price × (100 − discount) / 100 over the items of its rate; its tax is ROUND(Σ quantity × price × rate / 100, 2) over those items, with no discount |
| `RateSummary.SummaryRowSums` | invoicing/models.py:397 | for any mix of rates, every row of the summary has the base and tax of the items of its rate |
| `RateSummary.Summary` | invoicing/models.py:389-403 | rows have distinct rates; a row's tax is absent exactly when its rate is; present taxes are in cents |
| `RateSummary.SummaryPartitionsItems` | invoicing/models.py:397 | the rows partition the items: each item's rate is the rate of exactly one row, and each row's rate belongs to an item |
| `RateSummary.SummaryBasesSumItems` | invoicing/models.py:397 | the bases of all rows sum to Σ quantity × price × (100 − discount) / 100 over all items, unrounded |
| `RateSummary.SingleRatelessRow` | invoicing/models.py:414 | the summary is one row without tax exactly when there are items and none has a rate |
| `RateSummary.OneRateOneRow` | invoicing/models.py:397 | items sharing one rate give one row; its base sums their discounted prices and its tax rounds once, ties away from zero, the sum of quantity × price × rate / 100, with no discount |
| `RateSummary.SumOfCents` | invoicing/models.py:407-410 | a sum of cents amounts is a cents amount |
| `RateSummary.SumVats` | invoicing/models.py:417-419 | the loop adding up the rows' tax: an absent tax counts as 0, and the sum is in cents when every present tax is |
| `InvoiceAmounts.Subtotal` | invoicing/models.py:405-410 | the invoice subtotal is exactly the sum of the item subtotals, in cents |
| `InvoiceAmounts.Vat` | invoicing/models.py:412-420 | undefined exactly when there are items and none has a rate; otherwise in cents; 0 for an invoice without items |
| `InvoiceAmounts.RowVatsAreInvoiceVat` | invoicing/models.py:412-420 | the rows' tax column, with absent tax as 0, adds up to the invoice tax read as 0 when undefined |
| `InvoiceAmounts.Total` | invoicing/models.py:422-432 | the total is in cents and within half a cent of invoice tax + Σ unrounded discounted prices − credit |
| `InvoiceAmounts.SumRows` | invoicing/models.py:425-427 | the loop adding `vat or 0` plus `base` over the rows is the tax column plus the base column |
| `InvoiceAmounts.TotalNearSubtotalPlusVat` | invoicing/models.py:405-432 | the total is not subtotal + tax − credit, but with discounts between 0 and 100 % it differs from it by at most half a cent plus one cent per item |
| `InvoiceAmounts.SubtotalsNearBases` | invoicing/models.py:407-409 | for discounts between 0 and 100 %, the sum of rounded item subtotals lies within one cent per item of the unrounded sum |
| `InvoiceAmounts.SummaryVatIgnoresDiscount` | invoicing/models.py:397-432 | one item at 100.00 with 50 % off at 20 %: the item tax is 10.00, but the invoice tax is 20.00 and the total is round(70.00 − credit) |
| `InvoiceAmounts.ZeroRatedVat` | invoicing/models.py:412-420 | when every item has rate 0, the invoice tax is 0, not undefined |
| `InvoiceAmounts.ZeroRateRowHasNoTax` | invoicing/models.py:397 | the row for rate 0 has tax 0 |
| `Lifecycle.Save` | invoicing/models.py:240-247 | only number and full number change. A missing number becomes the next number, and a period error aborts the save. A missing full number is rendered from the numbered invoice, and a render error aborts the save. Present values are kept |
| `Lifecycle.Allocated` | invoicing/models.py:241-242 | the numbering step of `save`: a present number is kept, a missing one is set to the next number, and a period error is passed on |
| `Lifecycle.SavedState` | invoicing/models.py:240-247 | the invoice object after `save` returns or raises: the saved invoice on success; after a render error, the invoice with its allocated number; after a period error, the invoice unchanged |
| `Lifecycle.RetryKeepsAllocatedNumber` | invoicing/models.py:240-245 | after a render error, saving the same object again keeps the number already allocated, whatever the settings and stored invoices are by then |
| `Lifecycle.SaveAssignsOnce` | invoicing/models.py:240-247 | saving a saved invoice again returns it unchanged, whatever the settings and stored invoices are |
| `Lifecycle.SaveFreezesRenderedNumber` | invoicing/models.py:240-247 | a saved invoice with a non-empty full number is returned unchanged by a later save under any settings, stored invoices and template |
| `Lifecycle.SaveItem` | invoicing/models.py:489-493 | a new item without a rate gets the invoice's resolved rate. A set rate, zero included, is kept, and so is the rate of an item saved before. Nothing else changes |
| `Lifecycle.SaveItemAssignsOnce` | invoicing/models.py:489-493 | after the first save, an item's rate is frozen under any later settings, policy or invoice |
| `Lifecycle.IsOverdue` | invoicing/models.py:325-327 | the due date lies before today, and the invoice is neither paid nor canceled |
| `Lifecycle.OverdueDays` | invoicing/models.py:329-331 | the overdue days are 0 exactly on the due date |
| `Lifecycle.OverdueIffPositiveDays` | invoicing/models.py:325-331 | an invoice is overdue exactly when it is neither paid nor canceled and its overdue days are positive |
| `Lifecycle.OverdueDaysCountDays` | invoicing/models.py:329-331 | one day later, the overdue days grow by exactly one |
| `Lifecycle.PaymentTerm` | invoicing/models.py:333-335 | 0 when the total is not positive; otherwise positive exactly when the issue date precedes the due date, and 0 exactly when they coincide |
| `Lifecycle.PaymentTermCountsDays` | invoicing/models.py:333-335 | with a positive total, moving the due date one day later lengthens the payment term by exactly one day |
| `Lifecycle.IsSupplierVatIdVisible` | invoicing/models.py:376-387 | the three rules in order: hidden for undefined tax between same countries; shown for tax other than 0 or a positive item rate; otherwise shown exactly for an EU customer in another country |
| `Lifecycle.VatIdWithoutRates` | invoicing/models.py:376-382 | with items and no rates, the supplier VAT id is shown exactly when the supplier and customer countries differ |
| `Lifecycle.VatIdWithTax` | invoicing/models.py:380-382 | a positive rate on any item always shows the supplier VAT id |
| `Lifecycle.VatIdZeroRated` | invoicing/models.py:384-387 | with every item at rate 0, the VAT id is shown exactly for a customer in another EU country. Same-country and non-EU customers do not see it |

## Left out

- Django field declarations, choice labels and `Meta` orderings. Only the type and status choices are kept, as datatypes. Item order (weight, then creation time) does not affect exact sums.
- `set_supplier_data`, `set_customer_data`, `set_shipping_data` and `default_supplier`: they only copy dictionary entries into fields.
- `get_absolute_url`, `__str__` and `__unicode__`: URL reversing and display.
- The persisting `super().save()` calls. `Lifecycle.Save` returns the updated invoice, and adding it to the stored invoices is the caller's step, as in `Numbering.AllocationCountsUp`.
- The database cursor and SQL dialect of `vat_summary`: numeric casts, backend decimal division and row order. Rows come in order of each rate's first appearance.
- Template rendering of `full_number` and the `INVOICING_NUMBER_FORMAT` default: the Django template engine is not part of this model. Rendering is the `render` collaborator, and its errors enter as `TemplateError` values.
- `EUTaxationPolicy.is_in_EU`, `EUTaxationPolicy.get_tax_rate`, `TaxationPolicy.get_default_tax` and `import_name` live in files not part of this model. They are collaborator functions, and the model assumes a configured policy path always imports.
- `ItemAmounts.Vat`: computes the decimal product. Under Python 3 the code raises `TypeError` for every non-zero rate, because it multiplies a `Decimal` by a `float`. Under Python 2 the code computes in binary floats. The model keeps the arithmetic the decimal fields evidently intend.
- `ItemAmounts.Total`: inherits the `TypeError` of `Item.vat` under Python 3 for a non-zero rate. The model gives the decimal sum.
- `InvoiceAmounts.Total`: the `float` conversions are not modelled. The sum is exact, so binary representation error is absent.
- `Money.Round2`: ties go to the even cent, as Python 3's `round` of a `Decimal` does. Python 2's `round` works on a binary `float` and rounds half away from zero on its binary value. The properties rely only on the nearest-cent contract, which both satisfy.
- `Lifecycle.SaveAssignsOnce`: holds for a second save with the same template. A template that rendered the full number as "" (Django renders a missing variable as "") leaves it empty, so a later save renders it again and a changed `INVOICING_NUMBER_FORMAT` then changes it. `Lifecycle.SaveFreezesRenderedNumber` covers any later template once the full number is non-empty.
- `ItemAmounts.Subtotal`, `ItemAmounts.SubtotalNearRawBase`, `InvoiceAmounts.SubtotalsNearBases`, `InvoiceAmounts.TotalNearSubtotalPlusVat`: the one-cent bounds are stated for discounts between 0 and 100 %. The `discount` field accepts values up to 999.9 without a validator, and beyond 100 % the rounding error is scaled by the discount factor.
- `now()`: "today" is a parameter of `Lifecycle.IsOverdue` and `Lifecycle.OverdueDays`.
- The race between reading the maximum number and saving, under concurrent saves: concurrency is outside the model.
- Field widths: the database integer width of `number` and the digit limits of the decimal fields are not enforced; integers and reals are unbounded.
