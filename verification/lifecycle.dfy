/** What happens when an invoice or an item is saved (`Invoice.save`,
    `Item.save`), and the derived properties read from a saved invoice
    (`is_overdue`, `overdue_days`, `payment_term`, `is_supplier_vat_id_visible`). */
module Lifecycle {
  import opened Results
  import opened Dates
  import opened Records
  import Numbering
  import Taxation
  import InvoiceAmounts

  /** The first step of `Invoice.save`: a missing number is allocated and
      set on the invoice. */
  function Allocated(settings: Settings, store: seq<Numbering.StoredInvoice>, inv: Invoice): (r: Result<Invoice, Error>)
    ensures inv.number.Some? ==> r == Success(inv)
    ensures inv.number.None? ==>
      (r.Failure? <==> Numbering.NextNumber(settings, store, inv.kind, inv.dateTaxPoint).Failure?)
    ensures r.Failure? ==> r.error == Numbering.PeriodError
    ensures r.Success? ==> r.value.number.Some? && r.value == inv.(number := r.value.number)
    ensures inv.number.None? && r.Success? ==>
      r.value.number == Some(Numbering.NextNumber(settings, store, inv.kind, inv.dateTaxPoint).value)
  {
    if inv.number.Some? then Success(inv)
    else match Numbering.NextNumber(settings, store, inv.kind, inv.dateTaxPoint)
      case Failure(e) => Failure(e)
      case Success(n) => Success(inv.(number := Some(n)))
  }

  /** `Invoice.save`: a missing number is allocated, then a missing full
      number is rendered from the invoice carrying that number. An error in
      either step aborts the save. */
  function Save(settings: Settings, env: Collaborators, store: seq<Numbering.StoredInvoice>, inv: Invoice): (r: Result<Invoice, Error>)
    ensures r.Success? ==> r.value.number.Some? && r.value == inv.(number := r.value.number, fullNumber := r.value.fullNumber)
    ensures r.Success? && inv.number.Some? ==> r.value.number == inv.number
    ensures r.Success? && inv.fullNumber != "" ==> r.value.fullNumber == inv.fullNumber
    ensures inv.number.None? ==>
      match Numbering.NextNumber(settings, store, inv.kind, inv.dateTaxPoint)
      case Failure(e) => r == Failure(e)
      case Success(n) => r.Success? ==> r.value.number == Some(n)
    ensures inv.number.None? && Numbering.NextNumber(settings, store, inv.kind, inv.dateTaxPoint).Success? ==>
      var numbered := inv.(number := Some(Numbering.NextNumber(settings, store, inv.kind, inv.dateTaxPoint).value));
      && (inv.fullNumber != "" ==> r == Success(numbered))
      && (inv.fullNumber == "" ==>
            match env.render(numbered)
            case Failure(e) => r == Failure(e)
            case Success(full) => r == Success(numbered.(fullNumber := full)))
    ensures r.Success? && inv.fullNumber == "" ==>
      env.render(inv.(number := r.value.number)) == Success(r.value.fullNumber)
    ensures inv.number.Some? && inv.fullNumber != "" ==> r == Success(inv)
    ensures inv.number.Some? && inv.fullNumber == "" ==>
      match env.render(inv)
      case Failure(e) => r == Failure(e)
      case Success(full) => r == Success(inv.(fullNumber := full))
  {
    match Allocated(settings, store, inv)
    case Failure(e) => Failure(e)
    case Success(inv') =>
      if inv'.fullNumber != "" then Success(inv')
      else match env.render(inv')
        case Failure(e) => Failure(e)
        case Success(full) => Success(inv'.(fullNumber := full))
  }

  /** The invoice object as `Invoice.save` leaves it in memory, whether the
      save returns or raises: a number allocated before the full number fails
      to render stays on the object. */
  function SavedState(settings: Settings, env: Collaborators, store: seq<Numbering.StoredInvoice>, inv: Invoice): (r: Invoice)
    ensures r == inv.(number := r.number, fullNumber := r.fullNumber)
    ensures Save(settings, env, store, inv).Success? ==> r == Save(settings, env, store, inv).value
    ensures Save(settings, env, store, inv).Failure? && inv.number.None? ==>
      match Numbering.NextNumber(settings, store, inv.kind, inv.dateTaxPoint)
      case Failure(_) => r == inv
      case Success(n) => r == inv.(number := Some(n))
    ensures Save(settings, env, store, inv).Failure? && inv.number.Some? ==> r == inv
  {
    match Allocated(settings, store, inv)
    case Failure(_) => inv
    case Success(inv') =>
      if inv'.fullNumber != "" then inv'
      else match env.render(inv')
        case Failure(_) => inv'
        case Success(full) => inv'.(fullNumber := full)
  }

  /** When rendering the full number fails after a number was allocated,
      saving the same object again keeps that number: the retry allocates
      nothing, whatever the settings and the stored invoices are by then. */
  lemma RetryKeepsAllocatedNumber(settings: Settings, settings': Settings, env: Collaborators, env': Collaborators,
                                  store: seq<Numbering.StoredInvoice>, store': seq<Numbering.StoredInvoice>, inv: Invoice, n: int)
    requires inv.number.None?
    requires Numbering.NextNumber(settings, store, inv.kind, inv.dateTaxPoint) == Success(n)
    requires Save(settings, env, store, inv).Failure?
    ensures SavedState(settings, env, store, inv).number == Some(n)
    ensures Save(settings', env', store', SavedState(settings, env, store, inv)).Success? ==>
      Save(settings', env', store', SavedState(settings, env, store, inv)).value.number == Some(n)
  {
  }

  /** Number and full number are assigned once: saving a saved invoice again
      changes nothing, whatever the settings and the stored invoices are by then. */
  lemma SaveAssignsOnce(settings: Settings, settings': Settings, env: Collaborators,
                        store: seq<Numbering.StoredInvoice>, store': seq<Numbering.StoredInvoice>, inv: Invoice)
    requires Save(settings, env, store, inv).Success?
    ensures Save(settings', env, store', Save(settings, env, store, inv).value) == Save(settings, env, store, inv)
  {
  }

  /** A saved invoice whose full number rendered non-empty is frozen even
      against a changed template: saving it again under any settings, store
      and collaborators returns it unchanged. */
  lemma SaveFreezesRenderedNumber(settings: Settings, settings': Settings, env: Collaborators, env': Collaborators,
                                  store: seq<Numbering.StoredInvoice>, store': seq<Numbering.StoredInvoice>, inv: Invoice)
    requires Save(settings, env, store, inv).Success?
    requires Save(settings, env, store, inv).value.fullNumber != ""
    ensures Save(settings', env', store', Save(settings, env, store, inv).value) == Save(settings, env, store, inv)
  {
  }

  /** `Item.save`: an item saved for the first time without a tax rate gets
      the invoice's rate; a set rate, zero included, and an item saved before
      keep theirs. */
  function SaveItem(settings: Settings, env: Collaborators, inv: Invoice, it: Item): (r: Item)
    ensures r.persisted
    ensures r == it.(taxRate := r.taxRate, persisted := true)
    ensures it.taxRate.Some? || it.persisted ==> r.taxRate == it.taxRate
    ensures it.taxRate.None? && !it.persisted ==> r.taxRate == Some(Taxation.GetTaxRate(settings, env, inv))
  {
    if it.taxRate.None? && !it.persisted then
      it.(taxRate := Some(Taxation.GetTaxRate(settings, env, inv)), persisted := true)
    else
      it.(persisted := true)
  }

  /** Once saved, an item's tax rate is frozen: later saves under any
      settings, policy or invoice data leave the item as it is. */
  lemma SaveItemAssignsOnce(settings: Settings, settings': Settings, env: Collaborators, env': Collaborators,
                            inv: Invoice, inv': Invoice, it: Item)
    ensures SaveItem(settings', env', inv', SaveItem(settings, env, inv, it)) == SaveItem(settings, env, inv, it)
  {
  }

  /** `is_overdue`: the due date has passed and the invoice is neither paid nor canceled. */
  predicate IsOverdue(inv: Invoice, today: Date) {
    Before(inv.dateDue, today) && inv.status != Paid && inv.status != Canceled
  }

  /** `overdue_days`: days from the due date to today, negative before it. */
  function OverdueDays(inv: Invoice, today: Date): (r: int)
    requires IsValid(inv.dateDue) && IsValid(today)
    ensures r == 0 <==> inv.dateDue == today
  {
    BeforeIffOrdinalLess(inv.dateDue, today);
    DaysBetween(inv.dateDue, today)
  }

  /** An invoice is overdue exactly when it is open and its overdue days are positive. */
  lemma OverdueIffPositiveDays(inv: Invoice, today: Date)
    requires IsValid(inv.dateDue) && IsValid(today)
    ensures IsOverdue(inv, today) <==> OverdueDays(inv, today) > 0 && inv.status != Paid && inv.status != Canceled
  {
    BeforeIffOrdinalLess(inv.dateDue, today);
  }

  /** `payment_term`: days from issue to due date, or 0 when the total is not positive. */
  function PaymentTerm(inv: Invoice): (r: int)
    requires IsValid(inv.dateIssue) && IsValid(inv.dateDue)
    ensures InvoiceAmounts.Total(inv) <= 0.0 ==> r == 0
    ensures InvoiceAmounts.Total(inv) > 0.0 ==> (r > 0 <==> Before(inv.dateIssue, inv.dateDue))
    ensures InvoiceAmounts.Total(inv) > 0.0 ==> (r == 0 <==> inv.dateIssue == inv.dateDue)
  {
    BeforeIffOrdinalLess(inv.dateIssue, inv.dateDue);
    if InvoiceAmounts.Total(inv) > 0.0 then DaysBetween(inv.dateIssue, inv.dateDue) else 0
  }

  /** Overdue days count calendar days: one day later, one more overdue day. */
  lemma OverdueDaysCountDays(inv: Invoice, today: Date)
    requires IsValid(inv.dateDue) && IsValid(today) && today != Date(9999, 12, 31)
    ensures OverdueDays(inv, NextDay(today)) == OverdueDays(inv, today) + 1
  {
    NextDayIsOneDayLater(today);
  }

  /** For an invoice with a positive total, moving the due date one day later
      lengthens the payment term by one day. */
  lemma PaymentTermCountsDays(inv: Invoice)
    requires IsValid(inv.dateIssue) && IsValid(inv.dateDue) && inv.dateDue != Date(9999, 12, 31)
    requires InvoiceAmounts.Total(inv) > 0.0
    ensures PaymentTerm(inv.(dateDue := NextDay(inv.dateDue))) == PaymentTerm(inv) + 1
  {
    var later := inv.(dateDue := NextDay(inv.dateDue));
    assert later.items == inv.items && later.credit == inv.credit;
    assert InvoiceAmounts.Total(later) == InvoiceAmounts.Total(inv);
    NextDayIsOneDayLater(inv.dateDue);
  }

  /** Some item carries a rate above zero. */
  predicate HasPositiveRate(inv: Invoice) {
    exists i :: 0 <= i < |inv.items| && inv.items[i].taxRate.Some? && inv.items[i].taxRate.value > 0.0
  }

  /** `is_supplier_vat_id_visible`, its three rules in order. */
  predicate IsSupplierVatIdVisible(inv: Invoice, env: Collaborators) {
    var vat := InvoiceAmounts.Vat(inv);
    if vat.None? && inv.supplierCountry == inv.customerCountry then false
    else if vat != Some(0.0) || HasPositiveRate(inv) then true
    else
      var euCustomer := inv.customerCountry.Some? && env.isInEU(inv.customerCountry.value);
      euCustomer && inv.supplierCountry != inv.customerCountry
  }

  /** With items but no rate on any of them, the VAT id is shown exactly when
      supplier and customer are in different countries. */
  lemma VatIdWithoutRates(inv: Invoice, env: Collaborators)
    requires |inv.items| > 0 && forall i :: 0 <= i < |inv.items| ==> inv.items[i].taxRate.None?
    ensures IsSupplierVatIdVisible(inv, env) <==> inv.supplierCountry != inv.customerCountry
  {
  }

  /** A positive rate on any item always shows the VAT id. */
  lemma VatIdWithTax(inv: Invoice, env: Collaborators)
    requires HasPositiveRate(inv)
    ensures IsSupplierVatIdVisible(inv, env)
  {
  }

  /** When every item is zero-rated the VAT id is shown exactly for a
      customer in another EU country. */
  lemma VatIdZeroRated(inv: Invoice, env: Collaborators)
    requires forall i :: 0 <= i < |inv.items| ==> inv.items[i].taxRate == Some(0.0)
    ensures IsSupplierVatIdVisible(inv, env) <==>
      inv.customerCountry.Some? && env.isInEU(inv.customerCountry.value) && inv.supplierCountry != inv.customerCountry
  {
    InvoiceAmounts.ZeroRatedVat(inv);
  }
}
