/** The entities of the invoicing core (the `Invoice` and `Item` models of
    invoicing/models.py), the settings it reads, and the collaborators it
    calls but whose code is not part of this model. */
module Records {
  import opened Results
  import opened Dates

  /** `Invoice.TYPE`; `Standard` is the value `INVOICE`. */
  datatype InvoiceType = Standard | Advance | Proforma | VatCreditNote

  /** `Invoice.STATUS`. */
  datatype Status = New | Sent | Returned | Canceled | Paid

  /** A line item. Percentages are percent values (`20.0` is 20 %);
      `persisted` is true once the item has a primary key. */
  datatype Item = Item(
    quantity: real,
    unitPrice: real,
    discount: real,
    taxRate: Option<real>,
    persisted: bool)

  /** An invoice with the fields the core reads or writes and its item set.
      Countries are country codes; `fullNumber == ""` is the empty value. */
  datatype Invoice = Invoice(
    kind: InvoiceType,
    status: Status,
    dateIssue: Date,
    dateTaxPoint: Date,
    dateDue: Date,
    credit: real,
    number: Option<int>,
    fullNumber: string,
    supplierCountry: Option<string>,
    customerCountry: Option<string>,
    customerVatId: Option<string>,
    items: seq<Item>)

  /** The exceptions the core raises. */
  datatype Error =
    | ImproperlyConfigured(message: string)
    | TemplateError(message: string)

  /** A Django setting that is either absent from the settings module or set
      to a value, Python's `None` included. */
  datatype Setting<+T> = Unset | Set(value: T)

  /** The `INVOICING_COUNTER_PERIOD` and `INVOICING_TAXATION_POLICY` settings.
      The counter period tells an absent setting (YEARLY) from one set to
      `None` (an error). The policy is read with `None` as its default, so for
      it absent and `None` are the same value `None`. */
  datatype Settings = Settings(counterPeriod: Setting<Option<string>>, taxationPolicy: Option<string>)

  /** A taxation policy: one named by dotted path in the settings, or the EU policy. */
  datatype Policy = Custom(path: string) | EUPolicy

  /** What the core uses but does not define: EU membership of a country code,
      a policy's rate for (customer VAT id, customer country, supplier country),
      the default tax rate, and the full-number template rendered against an invoice. */
  datatype Collaborators = Collaborators(
    isInEU: string -> bool,
    policyRate: (Policy, Option<string>, Option<string>, Option<string>) -> real,
    defaultTax: real,
    render: Invoice -> Result<string, Error>)
}
