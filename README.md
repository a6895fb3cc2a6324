# BollettaSmart tariff simulator — Dafny model

BollettaSmart reads a utility bill (via an external extraction model) and shows
it in a dashboard with a "what-if" tariff simulator. This project models that
simulator, which lives in `components/Dashboard.tsx`:

- `getValidCurrencyCode`, the currency-code normaliser (module `Currency`);
- the bill record of `types.ts` and JavaScript's `x || d` reading of its optional
  numbers, where a present `0` counts as missing (module `BillTypes`);
- the calculation run on every render (module `Tariff`). It covers:
  - the defaults for billing months and consumption;
  - the variable "materia" cost under the single, time-slot or indexed pricing mode;
  - the original and simulated taxable bases and 10% VAT on their difference only;
  - the simulated total and the savings;
  - the denominator of the time-slot percentages;
- the six pieces of simulator state (module `SimulatorState`, class `Simulator`):
  - mounting runs the state initialisers, then the seeding effect (`Seed`), whose loop builds the per-slot price dictionary;
  - one method per input handler edits a single field.

Amounts are exact `real`s and optional fields are `Option`s. A `Some(0.0)` is
treated as missing wherever the source uses `||`. The source uses `??` only for
the slot-price lookup, where a present zero is kept.

Behaviours of the code that are easy to misread:
- billing months also fall back to 2 when the bill says `0`;
- slot pricing falls back to the single-price formula when the bill is not an electricity bill with a non-empty slot list;
- the share denominator is also 1 when the slot values add up to zero or the slot list is absent;
- slot prices are seeded from `unitPrice || 0.15`, not from the simulated unit price.

The parameters are not rebuilt from scratch for each bill. The seeding effect
updates the existing state and keeps a field unchanged when the bill's value is
falsy. The state is fresh per bill only because `App.tsx` unmounts the dashboard
while a new analysis loads. The model therefore has the constructor (mount) run
the initialisers and then `Seed`.

## Model

| member | source | states |
|---|---|---|
| `Currency.GetValidCurrencyCode` | components/Dashboard.tsx:26-29 | the result is always three characters with no lower-case ASCII letter; it is "EUR" or the upper-cased input, and any three-character input is upper-cased (so the "€"/"$" guard never changes the outcome) |
| `Currency.FallsBackToDefault` | components/Dashboard.tsx:27-28 | a missing or empty code, "€", "$", or a code of length other than 3 gives "EUR" |
| `Currency.ToUpperIdempotent` | components/Dashboard.tsx:28 | upper-casing twice is upper-casing once |
| `Currency.GetValidCurrencyCodeIdempotent` | components/Dashboard.tsx:26-29 | normalising a normalised code gives the same code |
| `Currency.CurrencyExamples` | components/Dashboard.tsx:26-29 | "usd" gives "USD"; "€", "EURO" and a missing code give "EUR" |
| `BillTypes.OrElse` | components/Dashboard.tsx:36 | JavaScript's falsy default yields the present non-zero value or the fallback, and is non-zero whenever the fallback is |
| `Tariff.BillingMonths` | components/Dashboard.tsx:60 | billing months are never zero; they are the bill's value or 2, and 2 when absent; negative values pass through |
| `Tariff.TotalConsumption` | components/Dashboard.tsx:61 | consumption is the bill's value whenever present (a `0` too, so the falsy default 0 acts like `?? 0`) and 0 when absent |
| `Tariff.NoConsumptionNoFlatCost` | components/Dashboard.tsx:61-74 | without a bill consumption the single and indexed variable costs are 0 whatever the price |
| `Tariff.VariableIsSingleAtIndexedRate` | components/Dashboard.tsx:70-74 | the indexed mode costs what the single mode costs at price marketIndex + spread |
| `Tariff.SlotsWithoutSlotDataIsSingle` | components/Dashboard.tsx:65-74 | slot mode on a bill that is not an electricity bill with slots (an empty slot list included) prices as single mode |
| `Tariff.SlotCostUniform` | components/Dashboard.tsx:66-69 | when every slot's effective price is p, the slot cost is p times the sum of slot values |
| `Tariff.SlotCostFallbackUnused` | components/Dashboard.tsx:67 | the unit-price fallback matters only for slots whose key is absent from the price dictionary |
| `Tariff.SlotCostUpdate` | components/Dashboard.tsx:194 | setting one slot key's price changes the slot cost by that key's consumption times the price change, nothing else |
| `Tariff.IsLuceWithSlots` | components/Dashboard.tsx:32 | an electricity ("Luce") bill whose slot list is present and non-empty |
| `Tariff.SlotCost` | components/Dashboard.tsx:66-69 | the left-to-right reduce adding each slot's value times its price, the price being the slot's entry in the price map or, only when the key is absent, the simulated unit price |
| `Tariff.MateriaVar` | components/Dashboard.tsx:64-74 | the variable cost: the slot formula only in slot mode on a slot bill, (marketIndex + spread) × consumption in indexed mode, otherwise simulated unit price × consumption |
| `Tariff.CurrentTaxableMateria` | components/Dashboard.tsx:76 | the original taxable base from the bill's unit price and fixed fee (each falsy read as 0), consumption and billing months only |
| `Tariff.Simulate` | components/Dashboard.tsx:76-82 | taxable delta is simulated minus current base; VAT is a tenth of the delta; total − billed = 1.1·delta; savings = −1.1·delta; savings ≥ 0 exactly when the simulated base ≤ the current base, and 0 exactly when they are equal |
| `Tariff.CurrentTaxableIgnoresParams` | components/Dashboard.tsx:76 | the current taxable base is the same for every choice of simulator parameters |
| `Tariff.SavingsZeroAtBillRates` | components/Dashboard.tsx:73-82 | in single mode at the bill's own non-zero unit price and fee the savings are 0 |
| `Tariff.WorkedScenario` | components/Dashboard.tsx:60-82 | billed 120, 300 units at 0.25, fee 10 over 2 months, simulated at 0.20: bases 95 and 80, total 103.5, savings 16.5 |
| `Tariff.SlotSum` | components/Dashboard.tsx:83 | the reduce adding up the slot values |
| `Tariff.SlotPercent` | components/Dashboard.tsx:132 | a slot's value over the share denominator, times 100 |
| `Tariff.SlotShareDenominator` | components/Dashboard.tsx:83 | the denominator is never 0; it is the slot sum when that is non-zero, otherwise 1 (slots absent, empty or summing to 0) |
| `Tariff.PercentSumScaled` | components/Dashboard.tsx:145 | the slot percentages add up to the slot sum over the denominator, times 100 |
| `Tariff.PercentsSumTo100` | components/Dashboard.tsx:132 | when the slot values do not sum to 0, the displayed percentages add up to 100 |
| `Tariff.SlotShareExample` | components/Dashboard.tsx:145 | slots 100, 50, 50 show 50%, 25%, 25% |
| `SimulatorState.UniformPrices` | components/Dashboard.tsx:52-55 | the dictionary built from the slots has exactly the slot identifiers as keys, each mapped to the seeding price |
| `SimulatorState.InitialParams` | components/Dashboard.tsx:35-41 | before the effect: slot mode exactly for an electricity bill with slots, never indexed mode, non-zero unit price and fee, no slot prices |
| `SimulatorState.Seeded` | components/Dashboard.tsx:43-58 | the effect on given parameters: a truthy unit price sets the unit price, index 0.8·u and spread 0.2·u; a truthy fee sets the fee; a slot bill gets every slot priced at the unit price (or 0.15); every other field, the pricing mode included, is kept |
| `SimulatorState.Mounted` | components/Dashboard.tsx:35-58 | after mounting: unit price is `unitPrice` if truthy else 0.15, fee is `fixedFeeMonthly` if truthy else 10, index + spread = unit price when it is truthy (else 0.12 and 0.02), slot mode exactly for a slot bill, every slot of a slot bill priced at the unit price, no slot prices otherwise |
| `SimulatorState.SeededIdempotent` | components/Dashboard.tsx:43-58 | running the seeding effect a second time changes nothing |
| `SimulatorState.SeededKeepsConsistent` | components/Dashboard.tsx:43-58 | the seeding effect keeps the state consistent: slot mode only for a slot bill, exactly its slots priced |
| `SimulatorState.ConsistentSlotCostIgnoresUnitPrice` | components/Dashboard.tsx:67 | in a consistent state the slot cost does not depend on the simulated unit price |
| `SimulatorState.MountedSavesNothingAtFlatRates` | components/Dashboard.tsx:43-82 | right after mounting a bill with a truthy unit price and fee, single and indexed mode both save 0 |
| `SimulatorState.MountedSavesNothingInSlotMode` | components/Dashboard.tsx:51-82 | right after mounting such a slot bill, slot mode saves 0 when the slot values add up to the bill's consumption |
| `SimulatorState.Simulator.constructor` | components/Dashboard.tsx:35-58 | mounting yields exactly `Mounted(data)`, a consistent state |
| `SimulatorState.Simulator.Seed` | components/Dashboard.tsx:43-58 | the effect's loop leaves the state equal to `Seeded` of the previous state |
| `SimulatorState.Simulator.SetPriceMode` | components/Dashboard.tsx:184-186 | only the pricing mode changes (so switching back restores the previous result); consistency is kept |
| `SimulatorState.Simulator.SetSimUnitPrice` | components/Dashboard.tsx:203 | only the simulated unit price changes |
| `SimulatorState.Simulator.SetSlotPrice` | components/Dashboard.tsx:193-194 | only that slot key's price changes; the variable cost moves by that slot's consumption times the price change |
| `SimulatorState.Simulator.SetSimFixedFee` | components/Dashboard.tsx:210 | only the simulated fixed fee changes |
| `SimulatorState.Simulator.SetMarketIndex` | components/Dashboard.tsx:199 | only the market index changes |
| `SimulatorState.Simulator.SetSpread` | components/Dashboard.tsx:200 | only the spread changes |

## Left out

- Rendering is not modelled: the JSX markup, charts, colour tables, slot-hour labels and the donation links are presentation only.
- Number formatting is not modelled: `toLocaleString` and `toFixed` are locale and display concerns.
- Input parsing is not modelled: `parseFloat` of an input event can produce NaN, and an edit is modelled as setting a real value.
- NaN is not modelled: JavaScript treats NaN as falsy under `||`, and there is no NaN among reals.
- The slot input's displayed value `slotPrices[slot] || 0` (line 194) is not modelled, because it only affects display.
- IEEE-754 rounding is not modelled: amounts are exact reals. In doubles, `0.8·u + 0.2·u` need not equal `u` exactly, and `1.1·delta` may differ in the last bit.
- Currency.GetValidCurrencyCode: upper-casing is modelled for ASCII letters only. Other characters pass through unchanged, whereas JavaScript's Unicode case mapping can change them or even the string's length.
- Currency.GetValidCurrencyCode: the length test counts Unicode scalar values. JavaScript counts UTF-16 code units, so the two differ for characters outside the Basic Multilingual Plane.
- The handlers of `Simulator` require what the UI guarantees:
  - the slot-mode button exists only for an electricity bill with slots (line 185);
  - slot inputs exist only in slot mode, one per slot of the bill (lines 191-195).
- App.tsx is not part of this model. It holds the upload, the asynchronous extraction call and the status screens; only the fact that it unmounts the dashboard between analyses is relied on.
- geminiService.ts is not part of this model. It is the network client of the extraction service and parses that service's JSON.
- index.tsx and service-worker.js are not part of this model: they are application bootstrap and cache plumbing.
- `costBreakdown`, `consumptions` and the other display-only bill fields are carried in the record but used by no modelled operation.
