/** Taxation-policy resolution (`Invoice.taxation_policy`, `Invoice.get_tax_rate`). */
module Taxation {
  import opened Results
  import opened Records

  /** The policy in force for `inv`: the one named in the settings, else the
      EU policy when the supplier's country is in the EU, else none. */
  function ResolvePolicy(settings: Settings, env: Collaborators, inv: Invoice): (r: Option<Policy>)
    ensures settings.taxationPolicy.Some? ==> r == Some(Custom(settings.taxationPolicy.value))
    ensures r == Some(EUPolicy) <==>
      settings.taxationPolicy.None? && inv.supplierCountry.Some? && env.isInEU(inv.supplierCountry.value)
    ensures r.None? <==>
      settings.taxationPolicy.None? && (inv.supplierCountry.None? || !env.isInEU(inv.supplierCountry.value))
  {
    if settings.taxationPolicy.Some? then Some(Custom(settings.taxationPolicy.value))
    else if inv.supplierCountry.Some? && env.isInEU(inv.supplierCountry.value) then Some(EUPolicy)
    else None
  }

  /** The tax rate a new item of `inv` receives: the policy's rate for the
      customer's VAT id and country and the supplier's country, or the
      default tax when no policy applies. */
  function GetTaxRate(settings: Settings, env: Collaborators, inv: Invoice): (r: real)
    ensures settings.taxationPolicy.Some? ==>
      r == env.policyRate(Custom(settings.taxationPolicy.value), inv.customerVatId, inv.customerCountry, inv.supplierCountry)
    ensures settings.taxationPolicy.None? && inv.supplierCountry.Some? && env.isInEU(inv.supplierCountry.value) ==>
      r == env.policyRate(EUPolicy, inv.customerVatId, inv.customerCountry, inv.supplierCountry)
    ensures settings.taxationPolicy.None? && (inv.supplierCountry.None? || !env.isInEU(inv.supplierCountry.value)) ==>
      r == env.defaultTax
  {
    match ResolvePolicy(settings, env, inv)
    case Some(policy) => env.policyRate(policy, inv.customerVatId, inv.customerCountry, inv.supplierCountry)
    case None => env.defaultTax
  }

  /** A configured policy decides the rate whatever EU membership says. */
  lemma ConfiguredPolicyWins(settings: Settings, env: Collaborators, env': Collaborators, inv: Invoice)
    requires settings.taxationPolicy.Some?
    requires env'.policyRate == env.policyRate
    ensures GetTaxRate(settings, env, inv) == GetTaxRate(settings, env', inv)
  {
  }
}
