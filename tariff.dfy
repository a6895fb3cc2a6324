/**
 * The tariff "what-if" calculation of the dashboard: the variable commodity
 * ("materia") cost under the selected pricing mode, the original and the
 * simulated taxable bases, 10% VAT on their difference only, the simulated
 * total, the savings, and the time-slot share denominator.
 */
module Tariff {
  import opened Wrappers
  import opened BillTypes

  datatype PriceMode = Single | Slots | Variable

  /** The six simulator parameters the user can edit. */
  datatype Params = Params(
    priceMode: PriceMode,
    simUnitPrice: real,
    slotPrices: map<string, real>,
    simFixedFee: real,
    marketIndex: real,
    spread: real)

  datatype Outcome = Outcome(
    materiaVar: real,
    currentTaxable: real,
    simTaxable: real,
    taxableDelta: real,
    vatDelta: real,
    simulatedTotal: real,
    savings: real)

  const VatRate: real := 0.10
  const DefaultBillingMonths: real := 2.0

  /** An electricity bill that carries a non-empty list of time slots. */
  predicate IsLuceWithSlots(b: BillRecord)
  {
    b.utilityType == Luce && b.timeSlots.Some? && |b.timeSlots.value| > 0
  }

  /** `billingMonths || 2`: a present zero counts as missing, so the result is never zero. */
  function BillingMonths(b: BillRecord): (m: real)
    ensures m != 0.0
    ensures m == DefaultBillingMonths || b.billingMonths == Some(m)
    ensures Truthy(b.billingMonths) ==> m == b.billingMonths.value
    ensures b.billingMonths.None? ==> m == DefaultBillingMonths
  {
    OrElse(b.billingMonths, DefaultBillingMonths)
  }

  /** `totalConsumption || 0`, which agrees with `totalConsumption ?? 0`. */
  function TotalConsumption(b: BillRecord): (c: real)
    ensures b.totalConsumption.Some? ==> c == b.totalConsumption.value
    ensures b.totalConsumption.None? ==> c == 0.0
  {
    OrElse(b.totalConsumption, 0.0)
  }

  /** `slotPrices[id] ?? fallback`: the fallback is used only for a missing key. */
  function SlotPrice(prices: map<string, real>, id: string, fallback: real): real
  {
    if id in prices then prices[id] else fallback
  }

  /** The reduce over the time slots: sum of value times price, left to right. */
  function SlotCost(slots: seq<TimeSlot>, prices: map<string, real>, fallback: real): real
  {
    if |slots| == 0 then 0.0
    else
      var last := slots[|slots| - 1];
      SlotCost(slots[..|slots| - 1], prices, fallback) + last.value * SlotPrice(prices, last.slot, fallback)
  }

  /** The reduce that adds up the slot values. */
  function SlotSum(slots: seq<TimeSlot>): real
  {
    if |slots| == 0 then 0.0 else SlotSum(slots[..|slots| - 1]) + slots[|slots| - 1].value
  }

  /** The total consumption of the slots that carry identifier `id`. */
  function SlotSumOf(slots: seq<TimeSlot>, id: string): real
  {
    if |slots| == 0 then 0.0
    else
      var last := slots[|slots| - 1];
      SlotSumOf(slots[..|slots| - 1], id) + (if last.slot == id then last.value else 0.0)
  }

  /** The variable cost, by pricing mode; slot pricing needs slot data, else it falls through. */
  function MateriaVar(b: BillRecord, p: Params): real
  {
    if p.priceMode == Slots && IsLuceWithSlots(b) then
      SlotCost(b.timeSlots.value, p.slotPrices, p.simUnitPrice)
    else if p.priceMode == Variable then
      (p.marketIndex + p.spread) * TotalConsumption(b)
    else
      p.simUnitPrice * TotalConsumption(b)
  }

  /** The original bill's taxable base, rebuilt from the bill's own seed fields. */
  function CurrentTaxableMateria(b: BillRecord): real
  {
    OrElse(b.unitPrice, 0.0) * TotalConsumption(b) + OrElse(b.fixedFeeMonthly, 0.0) * BillingMonths(b)
  }

  /**
   * The whole calculation. VAT is charged on the change of the taxable base
   * only, so the simulated total moves by 1.1 times that change and the
   * savings are its negation.
   */
  function Simulate(b: BillRecord, p: Params): (o: Outcome)
    ensures o.materiaVar == MateriaVar(b, p)
    ensures o.currentTaxable == CurrentTaxableMateria(b)
    ensures o.simTaxable == o.materiaVar + p.simFixedFee * BillingMonths(b)
    ensures o.taxableDelta == o.simTaxable - o.currentTaxable
    ensures o.vatDelta * 10.0 == o.taxableDelta
    ensures o.simulatedTotal - b.totalAmount == 1.1 * o.taxableDelta
    ensures o.savings == -1.1 * o.taxableDelta
    ensures o.savings >= 0.0 <==> o.simTaxable <= o.currentTaxable
    ensures o.savings == 0.0 <==> o.simTaxable == o.currentTaxable
  {
    var months := BillingMonths(b);
    var materia := MateriaVar(b, p);
    var current := CurrentTaxableMateria(b);
    var simulated := materia + p.simFixedFee * months;
    var delta := simulated - current;
    var vat := delta * VatRate;
    var total := b.totalAmount + delta + vat;
    Outcome(materia, current, simulated, delta, vat, total, b.totalAmount - total)
  }

  /** The denominator of the slot shares: the slot sum, or 1 when that is missing or zero. */
  function SlotShareDenominator(b: BillRecord): (d: real)
    ensures d != 0.0
    ensures b.timeSlots.Some? && SlotSum(b.timeSlots.value) != 0.0 ==> d == SlotSum(b.timeSlots.value)
    ensures b.timeSlots.None? || SlotSum(b.timeSlots.value) == 0.0 ==> d == 1.0
  {
    if b.timeSlots.Some? && SlotSum(b.timeSlots.value) != 0.0 then SlotSum(b.timeSlots.value) else 1.0
  }

  /** The percentage shown for one slot. */
  function SlotPercent(b: BillRecord, s: TimeSlot): real
  {
    (s.value / SlotShareDenominator(b)) * 100.0
  }

  function PercentSum(b: BillRecord, slots: seq<TimeSlot>): real
  {
    if |slots| == 0 then 0.0 else PercentSum(b, slots[..|slots| - 1]) + SlotPercent(b, slots[|slots| - 1])
  }

  // ---------------------------------------------------------------- lemmas

  /** With no bill consumption, the single and indexed variable costs are zero whatever the price. */
  lemma NoConsumptionNoFlatCost(b: BillRecord, p: Params)
    requires b.totalConsumption.None?
    requires p.priceMode != Slots
    ensures MateriaVar(b, p) == 0.0
  {
  }

  /** The indexed mode is the single-price mode at price marketIndex + spread. */
  lemma VariableIsSingleAtIndexedRate(b: BillRecord, p: Params)
    ensures MateriaVar(b, p.(priceMode := Variable))
         == MateriaVar(b, p.(priceMode := Single, simUnitPrice := p.marketIndex + p.spread))
  {
  }

  /** Without slot data (including an empty slot list) the slot mode prices like the single mode. */
  lemma SlotsWithoutSlotDataIsSingle(b: BillRecord, p: Params)
    requires !IsLuceWithSlots(b)
    ensures MateriaVar(b, p.(priceMode := Slots)) == MateriaVar(b, p.(priceMode := Single))
  {
  }

  /** When every slot costs the same price, the slot formula is that price times the slot sum. */
  lemma {:induction false} SlotCostUniform(slots: seq<TimeSlot>, prices: map<string, real>, fallback: real, price: real)
    requires forall i :: 0 <= i < |slots| ==> SlotPrice(prices, slots[i].slot, fallback) == price
    ensures SlotCost(slots, prices, fallback) == price * SlotSum(slots)
  {
    if |slots| > 0 {
      var n := |slots| - 1;
      SlotCostUniform(slots[..n], prices, fallback, price);
      calc {
        SlotCost(slots, prices, fallback);
        SlotCost(slots[..n], prices, fallback) + slots[n].value * price;
        price * SlotSum(slots[..n]) + price * slots[n].value;
        price * SlotSum(slots);
      }
    }
  }

  /** When every slot has an explicit price, the fallback price plays no part. */
  lemma {:induction false} SlotCostFallbackUnused(slots: seq<TimeSlot>, prices: map<string, real>, fallback1: real, fallback2: real)
    requires forall i :: 0 <= i < |slots| ==> slots[i].slot in prices
    ensures SlotCost(slots, prices, fallback1) == SlotCost(slots, prices, fallback2)
  {
    if |slots| > 0 {
      SlotCostFallbackUnused(slots[..|slots| - 1], prices, fallback1, fallback2);
    }
  }

  /** The cost of the slots carrying identifier `id` when each unit costs `d`. */
  function SlotCostOf(slots: seq<TimeSlot>, id: string, d: real): real
  {
    if |slots| == 0 then 0.0
    else
      var last := slots[|slots| - 1];
      SlotCostOf(slots[..|slots| - 1], id, d) + (if last.slot == id then last.value * d else 0.0)
  }

  lemma {:induction false} SlotCostOfScaled(slots: seq<TimeSlot>, id: string, d: real)
    ensures SlotCostOf(slots, id, d) == SlotSumOf(slots, id) * d
  {
    if |slots| > 0 {
      SlotCostOfScaled(slots[..|slots| - 1], id, d);
    }
  }

  lemma {:induction false} SlotCostUpdateTerms(slots: seq<TimeSlot>, prices: map<string, real>, fallback: real, id: string, v: real)
    ensures SlotCost(slots, prices[id := v], fallback)
         == SlotCost(slots, prices, fallback) + SlotCostOf(slots, id, v - SlotPrice(prices, id, fallback))
  {
    if |slots| > 0 {
      var n := |slots| - 1;
      SlotCostUpdateTerms(slots[..n], prices, fallback, id, v);
      if slots[n].slot == id {
        UpdateStepSameId(slots, prices, fallback, id, v);
      } else {
        UpdateStepOtherId(slots, prices, fallback, id, v);
      }
    }
  }

  /** The inductive step of SlotCostUpdateTerms when the last slot is the edited one. */
  lemma UpdateStepSameId(slots: seq<TimeSlot>, prices: map<string, real>, fallback: real, id: string, v: real)
    requires |slots| > 0 && slots[|slots| - 1].slot == id
    requires SlotCost(slots[..|slots| - 1], prices[id := v], fallback)
          == SlotCost(slots[..|slots| - 1], prices, fallback) + SlotCostOf(slots[..|slots| - 1], id, v - SlotPrice(prices, id, fallback))
    ensures SlotCost(slots, prices[id := v], fallback)
         == SlotCost(slots, prices, fallback) + SlotCostOf(slots, id, v - SlotPrice(prices, id, fallback))
  {
    var x, w := slots[|slots| - 1].value, SlotPrice(prices, id, fallback);
    assert SlotPrice(prices[id := v], id, fallback) == v;
    assert x * v == x * w + x * (v - w);
  }

  /** The inductive step of SlotCostUpdateTerms when the last slot is another one. */
  lemma UpdateStepOtherId(slots: seq<TimeSlot>, prices: map<string, real>, fallback: real, id: string, v: real)
    requires |slots| > 0 && slots[|slots| - 1].slot != id
    requires SlotCost(slots[..|slots| - 1], prices[id := v], fallback)
          == SlotCost(slots[..|slots| - 1], prices, fallback) + SlotCostOf(slots[..|slots| - 1], id, v - SlotPrice(prices, id, fallback))
    ensures SlotCost(slots, prices[id := v], fallback)
         == SlotCost(slots, prices, fallback) + SlotCostOf(slots, id, v - SlotPrice(prices, id, fallback))
  {
    var last := slots[|slots| - 1];
    assert SlotPrice(prices[id := v], last.slot, fallback) == SlotPrice(prices, last.slot, fallback);
  }

  /**
   * Editing the price of one slot identifier changes the slot cost only by
   * that identifier's consumption times the price change.
   */
  lemma SlotCostUpdate(slots: seq<TimeSlot>, prices: map<string, real>, fallback: real, id: string, v: real)
    ensures SlotCost(slots, prices[id := v], fallback)
         == SlotCost(slots, prices, fallback) + SlotSumOf(slots, id) * (v - SlotPrice(prices, id, fallback))
  {
    SlotCostUpdateTerms(slots, prices, fallback, id, v);
    SlotCostOfScaled(slots, id, v - SlotPrice(prices, id, fallback));
  }

  /** The current taxable base does not depend on the simulator parameters. */
  lemma CurrentTaxableIgnoresParams(b: BillRecord, p1: Params, p2: Params)
    ensures Simulate(b, p1).currentTaxable == Simulate(b, p2).currentTaxable
  {
  }

  /** Simulating the bill's own unit price and fixed fee in single mode saves nothing. */
  lemma SavingsZeroAtBillRates(b: BillRecord, p: Params)
    requires Truthy(b.unitPrice) && Truthy(b.fixedFeeMonthly)
    requires p.priceMode == Single
    requires p.simUnitPrice == b.unitPrice.value && p.simFixedFee == b.fixedFeeMonthly.value
    ensures Simulate(b, p).savings == 0.0
  {
  }

  lemma {:induction false} PercentSumScaled(b: BillRecord, slots: seq<TimeSlot>)
    ensures PercentSum(b, slots) == SlotSum(slots) / SlotShareDenominator(b) * 100.0
  {
    if |slots| > 0 {
      var n := |slots| - 1;
      var d := SlotShareDenominator(b);
      PercentSumScaled(b, slots[..n]);
      calc {
        PercentSum(b, slots);
        SlotSum(slots[..n]) / d * 100.0 + slots[n].value / d * 100.0;
        (SlotSum(slots[..n]) + slots[n].value) / d * 100.0;
        SlotSum(slots) / d * 100.0;
      }
    }
  }

  /** When the slot values do not sum to zero, the displayed percentages add up to 100. */
  lemma PercentsSumTo100(b: BillRecord)
    requires b.timeSlots.Some? && SlotSum(b.timeSlots.value) != 0.0
    ensures PercentSum(b, b.timeSlots.value) == 100.0
  {
    PercentSumScaled(b, b.timeSlots.value);
    var t := SlotSum(b.timeSlots.value);
    assert SlotShareDenominator(b) == t;
    assert t / t == 1.0;
  }

  /** A bill with the given total, unit price, fixed fee, consumption, months and slots. */
  function SampleBill(total: real, unitPrice: real, fee: real, consumption: real, months: real,
                      slots: Option<seq<TimeSlot>>): BillRecord
  {
    BillRecord("Provider", total, "EUR", "", "", Luce, [], [], slots, "",
               Some(unitPrice), Some(fee), Some(consumption), Some("kWh"), Some(months))
  }

  /**
   * 300 kWh over two months at 0.25 with a 10 fee, billed 120: simulating a
   * 0.20 unit price lowers the taxable base from 95 to 80, the total to 103.5,
   * and saves 16.5.
   */
  lemma WorkedScenario()
    ensures var o := Simulate(SampleBill(120.0, 0.25, 10.0, 300.0, 2.0, None),
                              Params(Single, 0.20, map[], 10.0, 0.12, 0.02));
            o.currentTaxable == 95.0 && o.simTaxable == 80.0 && o.taxableDelta == -15.0
            && o.vatDelta == -1.5 && o.simulatedTotal == 103.5 && o.savings == 16.5
  {
  }

  /** Slots of 100, 50 and 50 take 50%, 25% and 25%. */
  lemma SlotShareExample()
    ensures var slots := [TimeSlot("F1", 100.0, "kWh"), TimeSlot("F2", 50.0, "kWh"), TimeSlot("F3", 50.0, "kWh")];
            var b := SampleBill(0.0, 0.0, 0.0, 200.0, 2.0, Some(slots));
            SlotPercent(b, slots[0]) == 50.0 && SlotPercent(b, slots[1]) == 25.0 && SlotPercent(b, slots[2]) == 25.0
  {
    var slots := [TimeSlot("F1", 100.0, "kWh"), TimeSlot("F2", 50.0, "kWh"), TimeSlot("F3", 50.0, "kWh")];
    assert slots[..2] == slots[..|slots| - 1];
    assert slots[..1] == slots[..2][..1];
    assert SlotSum(slots[..1]) == 100.0;
    assert SlotSum(slots[..2]) == 150.0;
    assert SlotSum(slots) == 200.0;
  }
}
