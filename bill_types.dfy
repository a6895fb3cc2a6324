/**
 * The bill record returned by the extraction service (types.ts), and the
 * JavaScript "falsy means missing" reading of its optional numeric fields.
 */
module BillTypes {
  import opened Wrappers

  datatype UtilityType = Luce | Gas | Acqua | Altro

  datatype CostItem = CostItem(category: string, amount: real)

  datatype Consumption = Consumption(period: string, value: real, unit: string)

  /** Consumption in one time-of-use slot ("F1", "F2", "F3"). */
  datatype TimeSlot = TimeSlot(slot: string, value: real, unit: string)

  /** BillAnalysisResult; amounts are exact reals, optional fields are Options. */
  datatype BillRecord = BillRecord(
    provider: string,
    totalAmount: real,
    currency: string,
    dueDate: string,
    billingPeriod: string,
    utilityType: UtilityType,
    costBreakdown: seq<CostItem>,
    consumptions: seq<Consumption>,
    timeSlots: Option<seq<TimeSlot>>,
    summary: string,
    unitPrice: Option<real>,
    fixedFeeMonthly: Option<real>,
    totalConsumption: Option<real>,
    consumptionUnit: Option<string>,
    billingMonths: Option<real>)

  /** A number is truthy in JavaScript when it is present and not zero. */
  predicate Truthy(x: Option<real>)
  {
    x.Some? && x.value != 0.0
  }

  /** JavaScript `x || fallback` on an optional number. */
  function OrElse(x: Option<real>, fallback: real): (r: real)
    ensures r == fallback || (Truthy(x) && r == x.value)
    ensures Truthy(x) ==> r == x.value
    ensures r != 0.0 || fallback == 0.0
  {
    if Truthy(x) then x.value else fallback
  }
}
