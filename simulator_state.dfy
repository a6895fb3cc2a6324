/**
 * The simulator's editable state inside the dashboard: six fields seeded
 * from the bill when the dashboard is mounted (the state initialisers, then
 * the seeding effect) and edited one field at a time by the input handlers.
 */
module SimulatorState {
  import opened Wrappers
  import opened BillTypes
  import opened Tariff

  const DefaultUnitPrice: real := 0.15
  const DefaultFixedFee: real := 10.0
  const DefaultMarketIndex: real := 0.12
  const DefaultSpread: real := 0.02
  const IndexShare: real := 0.8
  const SpreadShare: real := 0.2

  /** The identifiers of the given time slots. */
  function SlotIds(slots: seq<TimeSlot>): set<string>
  {
    set i | 0 <= i < |slots| :: slots[i].slot
  }

  /** The dictionary the seeding loop builds: every slot identifier mapped to `price`. */
  function UniformPrices(slots: seq<TimeSlot>, price: real): (m: map<string, real>)
    ensures m.Keys == SlotIds(slots)
    ensures forall id :: id in m ==> m[id] == price
  {
    if |slots| == 0 then map[]
    else
      var prefix := slots[..|slots| - 1];
      assert SlotIds(slots) == SlotIds(prefix) + {slots[|slots| - 1].slot} by {
        forall id | id in SlotIds(slots) ensures id in SlotIds(prefix) + {slots[|slots| - 1].slot} {
          var i :| 0 <= i < |slots| && slots[i].slot == id;
          if i < |slots| - 1 { assert prefix[i] == slots[i]; }
        }
        forall id | id in SlotIds(prefix) ensures id in SlotIds(slots) {
          var i :| 0 <= i < |prefix| && prefix[i].slot == id;
          assert slots[i] == prefix[i];
        }
      }
      UniformPrices(prefix, price)[slots[|slots| - 1].slot := price]
  }

  /** What the state initialisers give, before the seeding effect runs. */
  function InitialParams(b: BillRecord): (p: Params)
    ensures p.priceMode == Slots <==> IsLuceWithSlots(b)
    ensures p.priceMode != Variable
    ensures p.simUnitPrice == OrElse(b.unitPrice, DefaultUnitPrice) && p.simFixedFee == OrElse(b.fixedFeeMonthly, DefaultFixedFee)
    ensures p.marketIndex == DefaultMarketIndex && p.spread == DefaultSpread
    ensures p.simUnitPrice != 0.0 && p.simFixedFee != 0.0
    ensures p.slotPrices == map[]
  {
    Params(if IsLuceWithSlots(b) then Slots else Single,
           OrElse(b.unitPrice, DefaultUnitPrice),
           map[],
           OrElse(b.fixedFeeMonthly, DefaultFixedFee),
           DefaultMarketIndex,
           DefaultSpread)
  }

  /**
   * The seeding effect applied to the parameters `p`: a truthy unit price
   * replaces the unit price and splits 80/20 into index and spread, a truthy
   * fixed fee replaces the fee, and an electricity bill with slots gets one
   * price per slot. Everything else, the pricing mode included, is kept.
   */
  function Seeded(p: Params, b: BillRecord): Params
  {
    var withPrice :=
      if Truthy(b.unitPrice) then
        p.(simUnitPrice := b.unitPrice.value,
           marketIndex := b.unitPrice.value * IndexShare,
           spread := b.unitPrice.value * SpreadShare)
      else p;
    var withFee :=
      if Truthy(b.fixedFeeMonthly) then withPrice.(simFixedFee := b.fixedFeeMonthly.value) else withPrice;
    if IsLuceWithSlots(b) then
      withFee.(slotPrices := UniformPrices(b.timeSlots.value, OrElse(b.unitPrice, DefaultUnitPrice)))
    else withFee
  }

  /**
   * The parameters right after mounting. For a truthy unit price the index
   * and spread add up to it; every slot of a slot bill is priced, at the
   * simulated unit price.
   */
  function Mounted(b: BillRecord): (p: Params)
    ensures p.simUnitPrice == OrElse(b.unitPrice, DefaultUnitPrice)
    ensures p.simFixedFee == OrElse(b.fixedFeeMonthly, DefaultFixedFee)
    ensures Truthy(b.unitPrice) ==> p.marketIndex == b.unitPrice.value * IndexShare && p.spread == b.unitPrice.value * SpreadShare
    ensures Truthy(b.unitPrice) ==> p.marketIndex + p.spread == b.unitPrice.value
    ensures !Truthy(b.unitPrice) ==> p.marketIndex == DefaultMarketIndex && p.spread == DefaultSpread
    ensures p.priceMode == Slots <==> IsLuceWithSlots(b)
    ensures p.priceMode != Variable
    ensures IsLuceWithSlots(b) ==> p.slotPrices.Keys == SlotIds(b.timeSlots.value)
    ensures !IsLuceWithSlots(b) ==> p.slotPrices == map[]
    ensures forall id :: id in p.slotPrices ==> p.slotPrices[id] == p.simUnitPrice
    ensures Consistent(b, p)
  {
    Seeded(InitialParams(b), b)
  }

  /**
   * What every state after mounting satisfies (the first render, before the
   * seeding effect, does not yet price the slots): slot pricing is selected only for a
   * slot bill, and exactly the bill's slots are priced.
   */
  predicate Consistent(b: BillRecord, p: Params)
  {
    && (p.priceMode == Slots ==> IsLuceWithSlots(b))
    && (IsLuceWithSlots(b) ==> p.slotPrices.Keys == SlotIds(b.timeSlots.value))
    && (!IsLuceWithSlots(b) ==> p.slotPrices == map[])
  }

  /** Running the seeding effect again (as a development double render does) changes nothing. */
  lemma SeededIdempotent(p: Params, b: BillRecord)
    ensures Seeded(Seeded(p, b), b) == Seeded(p, b)
  {
  }

  lemma SeededKeepsConsistent(p: Params, b: BillRecord)
    requires Consistent(b, p)
    ensures Consistent(b, Seeded(p, b))
  {
  }

  /** In a consistent slot-priced state the unit-price fallback of the slot formula is never used. */
  lemma ConsistentSlotCostIgnoresUnitPrice(b: BillRecord, p: Params, unitPrice: real)
    requires Consistent(b, p) && IsLuceWithSlots(b)
    ensures MateriaVar(b, p.(priceMode := Slots)) == MateriaVar(b, p.(priceMode := Slots, simUnitPrice := unitPrice))
  {
    var slots := b.timeSlots.value;
    assert forall i :: 0 <= i < |slots| ==> slots[i].slot in SlotIds(slots);
    SlotCostFallbackUnused(slots, p.slotPrices, p.simUnitPrice, unitPrice);
  }

  /**
   * Right after mounting, a bill with a truthy unit price and fixed fee
   * simulates to no savings in the single and the indexed mode.
   */
  lemma MountedSavesNothingAtFlatRates(b: BillRecord, m: PriceMode)
    requires Truthy(b.unitPrice) && Truthy(b.fixedFeeMonthly)
    requires m != Slots
    ensures Simulate(b, Mounted(b).(priceMode := m)).savings == 0.0
  {
  }

  /**
   * Right after mounting a slot bill with a truthy unit price and fixed fee,
   * the slot mode saves nothing when the slots add up to the bill's consumption.
   */
  lemma MountedSavesNothingInSlotMode(b: BillRecord)
    requires IsLuceWithSlots(b) && Truthy(b.unitPrice) && Truthy(b.fixedFeeMonthly)
    requires SlotSum(b.timeSlots.value) == TotalConsumption(b)
    ensures Simulate(b, Mounted(b)).savings == 0.0
  {
    var p := Mounted(b);
    var slots := b.timeSlots.value;
    forall i | 0 <= i < |slots| ensures SlotPrice(p.slotPrices, slots[i].slot, p.simUnitPrice) == p.simUnitPrice {
      assert slots[i].slot in SlotIds(slots);
    }
    SlotCostUniform(slots, p.slotPrices, p.simUnitPrice, p.simUnitPrice);
  }

  /** The simulator state of one mounted dashboard, for the bill `data`. */
  class Simulator {
    const data: BillRecord
    var priceMode: PriceMode
    var simUnitPrice: real
    var slotPrices: map<string, real>
    var simFixedFee: real
    var marketIndex: real
    var spread: real

    function Parameters(): Params
      reads this
    {
      Params(priceMode, simUnitPrice, slotPrices, simFixedFee, marketIndex, spread)
    }

    ghost predicate Valid()
      reads this
    {
      Consistent(data, Parameters())
    }

    /** What the dashboard shows for the current parameters. */
    function Result(): Outcome
      reads this
    {
      Simulate(data, Parameters())
    }

    /** Mounting: the state initialisers, then the seeding effect. */
    constructor (data: BillRecord)
      ensures this.data == data
      ensures Valid()
      ensures Parameters() == Mounted(data)
    {
      this.data := data;
      priceMode := if IsLuceWithSlots(data) then Slots else Single;
      simUnitPrice := OrElse(data.unitPrice, DefaultUnitPrice);
      slotPrices := map[];
      simFixedFee := OrElse(data.fixedFeeMonthly, DefaultFixedFee);
      marketIndex := DefaultMarketIndex;
      spread := DefaultSpread;
      new;
      Seed();
    }

    /** The seeding effect; the slot dictionary is built one slot at a time. */
    method Seed()
      modifies this
      ensures Parameters() == Seeded(old(Parameters()), data)
    {
      if Truthy(data.unitPrice) {
        simUnitPrice := data.unitPrice.value;
        marketIndex := data.unitPrice.value * IndexShare;
        spread := data.unitPrice.value * SpreadShare;
      }
      if Truthy(data.fixedFeeMonthly) {
        simFixedFee := data.fixedFeeMonthly.value;
      }
      if IsLuceWithSlots(data) {
        var slots := data.timeSlots.value;
        var price := OrElse(data.unitPrice, DefaultUnitPrice);
        var initialSlots: map<string, real> := map[];
        var i := 0;
        while i < |slots|
          invariant 0 <= i <= |slots|
          invariant initialSlots == UniformPrices(slots[..i], price)
        {
          assert slots[..i + 1][..i] == slots[..i];
          initialSlots := initialSlots[slots[i].slot := price];
          i := i + 1;
        }
        assert slots[..|slots|] == slots;
        slotPrices := initialSlots;
      }
    }

    /** The pricing-mode buttons; the slot button exists only for a slot bill. */
    method SetPriceMode(m: PriceMode)
      requires Valid()
      requires m == Slots ==> IsLuceWithSlots(data)
      modifies this`priceMode
      ensures Valid()
      ensures Parameters() == old(Parameters()).(priceMode := m)
    {
      priceMode := m;
    }

    method SetSimUnitPrice(v: real)
      modifies this`simUnitPrice
      ensures Parameters() == old(Parameters()).(simUnitPrice := v)
    {
      simUnitPrice := v;
    }

    /** One slot's price input, shown only in slot mode and only for the bill's slots. */
    method SetSlotPrice(id: string, v: real)
      requires Valid()
      requires priceMode == Slots && id in SlotIds(data.timeSlots.value)
      modifies this`slotPrices
      ensures Valid()
      ensures Parameters() == old(Parameters()).(slotPrices := old(slotPrices)[id := v])
      ensures Result().materiaVar
           == old(Result().materiaVar) + SlotSumOf(data.timeSlots.value, id) * (v - old(slotPrices)[id])
    {
      SlotCostUpdate(data.timeSlots.value, slotPrices, simUnitPrice, id, v);
      slotPrices := slotPrices[id := v];
    }

    method SetSimFixedFee(v: real)
      modifies this`simFixedFee
      ensures Parameters() == old(Parameters()).(simFixedFee := v)
    {
      simFixedFee := v;
    }

    method SetMarketIndex(v: real)
      modifies this`marketIndex
      ensures Parameters() == old(Parameters()).(marketIndex := v)
    {
      marketIndex := v;
    }

    method SetSpread(v: real)
      modifies this`spread
      ensures Parameters() == old(Parameters()).(spread := v)
    {
      spread := v;
    }
  }
}
