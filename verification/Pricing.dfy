/** One log, priced three times: by the entity, by billing and by reporting. */
module Pricing {
  import opened Wrappers
  import opened Numbers
  import Billing
  import Facts
  import Workflow

  /** `billable_amount` */
  function BillableAmount(l: Workflow.Log): real {
    if l.billable && l.hourlyRate.Some? then Amount(l.hours, l.hourlyRate.value) else 0.0
  }

  /** A negative rate is the only disagreement: billing charges nothing for it, the entity and reporting a negative amount. */
  lemma PricesAgreeIff(l: Workflow.Log)
    requires l.billable
    ensures BillableAmount(l) == Facts.Charge(l.hours, l.hourlyRate)
    ensures BillableAmount(l) == Billing.CalculateTotal(l.hours, l.hourlyRate)
       <==> (l.hourlyRate.Some? && l.hourlyRate.value < 0.0 ==> Amount(l.hours, l.hourlyRate.value) == 0.0)
  {
    hide Amount;
    AmountIsCents(l.hours, l.hourlyRate.GetOr(0.0));
  }

  /** With a rate that is not negative an approved log is billed and reported at the amount the entity shows. */
  lemma PricesAgree(l: Workflow.Log)
    requires l.billable && (l.hourlyRate.Some? ==> l.hourlyRate.value >= 0.0)
    ensures BillableAmount(l) == Billing.CalculateTotal(l.hours, l.hourlyRate) == Facts.Charge(l.hours, l.hourlyRate)
    ensures IsCents(BillableAmount(l))
  {
    PricesAgreeIff(l);
    Billing.CalculateTotalIsCents(l.hours, l.hourlyRate);
  }

  /** The price of a positive rate is the cent nearest to hours times rate; nothing is charged without one. */
  lemma BillingPrices(hours: real, hourlyRate: Option<real>)
    ensures
      if hourlyRate.Some? && hourlyRate.value > 0.0 then IsPrice(Billing.CalculateTotal(hours, hourlyRate), hours, hourlyRate.value)
      else Billing.CalculateTotal(hours, hourlyRate) == 0.0
  {
    hide Amount, IsPrice;
    AmountIsPrice(hours, hourlyRate.GetOr(0.0));
  }

  /** Reporting charges the cent nearest to hours times rate, whatever the rate's sign, and nothing without a rate. */
  lemma ReportingPrices(hours: real, hourlyRate: Option<real>)
    ensures
      if hourlyRate.Some? then IsPrice(Facts.Charge(hours, hourlyRate), hours, hourlyRate.value)
      else Facts.Charge(hours, hourlyRate) == 0.0
  {
    hide Amount, IsPrice;
    AmountIsPrice(hours, hourlyRate.GetOr(0.0));
    AmountIsCents(hours, 0.0);
  }

  /** So does the entity for a billable log; a log that is not billable is worth nothing. */
  lemma EntityPrices(l: Workflow.Log)
    ensures
      if l.billable && l.hourlyRate.Some? then IsPrice(BillableAmount(l), l.hours, l.hourlyRate.value)
      else BillableAmount(l) == 0.0
  {
    hide Amount, IsPrice;
    AmountIsPrice(l.hours, l.hourlyRate.GetOr(0.0));
  }
}
