# EcoDesignComparator scenario calculator — Dafny model

EcoDesignComparator is a decision tool for construction projects. It compares a
classic design with an eco design on two axes: monetary cost and carbon
emissions (tonnes of CO2). Its computational core is the pure function
`calculate` in `src/lib/calculator.ts`. It takes one `SimulationState` record
and returns one `CalculationResults` record:

- **Category values.** There are eight categories: concrete (`beton`), steel
  (`acier`), copper (`cuivre`), asphalt (`enrobes`), freight transport,
  personnel travel, energy and site equipment (`engins`). Each gets a classic
  and an eco value on each axis. A value is quantity × unit price (cost) or
  quantity × emission factor (carbon). Both scenarios use the same quantity.
- **Special rules.** Eco energy is classic energy × 0.8. Equipment has no cost.
  Its emissions are supplied directly (`co2EnginsClassique`, `co2EnginsEco`).
- **Totals and derived figures.** The values are summed per scenario. From the
  sums come the eco surcharge (`surcout`), the carbon saving in tonnes and in
  currency, the carbon-adjusted eco cost, and the payback period
  (`amortissement`). The payback period falls back to 0 when its guard fails.

`src/lib/data.ts` supplies the emission-factor table (`carbonFootprints`) and the
default parameter record (`defaultSimulationState`).

Files:

- `types.dfy` (module `Types`): the parameter and result records as datatypes.
- `data.dfy` (module `Data`): the constant tables and the properties of their
  figures.
- `calculator.dfy` (module `Calculator`): `Calculate`, written as one binding
  per quantity like the source, plus its properties. Every quantity × rate
  product goes through one function, `Value`. The payback rule of line 76 is
  its own function, `Amortissement`.
- The properties are stated against an independent per-category descriptor
  table. For each category the table gives:
  - its quantity field (`Quantity`);
  - its classic and eco prices (`PriceRates`);
  - its classic and eco factors (`FactorRates`);
  - the multiplier applied to its eco value (`EcoMultiplier`: 0.8 for energy,
    1 otherwise).

  `ReferenceCost` and `ReferenceCarbon` build the row the table prescribes. The
  rows of a result are looked up by category (`CostOf`, `CarbonOf`) or listed
  in order (`CostRows`, `CarbonRows`) and summed by recursive functions.
- `scenarios.dfy` (module `Scenarios`): the default record worked through, and
  the payback examples.

All numbers are mathematical reals.

Where the declared types (`src/types/index.ts`) or other components expect
more than `calculate` builds, the model follows `calculate`:

- `calculate` computes no mixed (blended) scenario, although
  `src/types/index.ts:54-103` declares mixed members and totals.
- It has no helicopter term: `heuresHelicoptere` and `prixHeureHelicoptere`
  are declared (`src/types/index.ts:18`, `src/types/index.ts:36`) but never
  read.
- It has no aluminium term. Aluminium appears only in the price-lookup dialog
  (`src/components/material-prices-dialog.tsx:50-52`) and in the optimiser's
  input and output schemas (`src/ai/flows/optimize-design.ts:27`, `:32`,
  `:47-48`, `:63`, `:85`); `calculate` never reads it.
- It has no separate eco quantities: both scenarios use the same quantity.
- The "no payback" value of `amortissement` is 0. The −1 that appears at
  `src/components/synthesis-tab.tsx:116` is only the display value of the
  classic row in the synthesis table.
- The carbon-value cost row does have a `classique` member (0) and a `diff`
  member.

## Model

| member | source | states |
|---|---|---|
| `Calculator.Calculate` | src/lib/calculator.ts:8-114 | the payback period in the result is never negative, and it is positive exactly when the surcharge, the monetised saving and the lifetime are all positive |
| `Calculator.Amortissement` | src/lib/calculator.ts:76 | the payback is at least 0; it is positive iff surcharge, monetised saving and lifetime are all positive; when positive, years × saving = surcharge × lifetime (the division is always defined) |
| `Calculator.BreakdownsConsistent` | src/lib/calculator.ts:4-6 | every cost row, the carbon-value row and every carbon row of any result has diff = eco − classique |
| `Calculator.CostRowMatchesTable` | src/lib/calculator.ts:10-32 | every cost row equals the row the descriptor table prescribes: for a metered category, its one quantity times the classic price, and the same quantity times the eco price (times 0.8 for energy), with diff = eco − classique; equipment is (0, 0, 0) |
| `Calculator.CarbonRowMatchesTable` | src/lib/calculator.ts:35-57 | every carbon row equals the prescribed row: for a metered category, its one quantity times the classic and the eco emission factor of the table (the eco one times 0.8 for energy); for equipment, exactly the supplied classic and eco tonnages |
| `Calculator.ZeroQuantity` | src/lib/calculator.ts:10-54 | a category whose quantity is 0 has classic, eco and diff all 0 on both axes, whatever its prices and factors |
| `Calculator.EnergyReduction` | src/lib/calculator.ts:28-54 | eco energy is 0.8 × classic energy on the cost and carbon axes, so the energy cost gap is −20 % of the classic cost |
| `Calculator.CostTotalsAreSums` | src/lib/calculator.ts:60-61 | the classic and eco cost totals equal the sums of the eight category rows; the equipment row adds 0 |
| `Calculator.CarbonTotalsAreSums` | src/lib/calculator.ts:63-64 | the classic and eco carbon totals equal the sums of the eight category rows, equipment included |
| `Calculator.SumDiffIsGap` | src/lib/calculator.ts:4-6 | over any list of consistent rows, the sum of the diffs is the eco sum minus the classic sum |
| `Calculator.DerivedIdentities` | src/lib/calculator.ts:67-93 | surcharge = eco cost − classic cost = sum of cost diffs; carbon saving = classic − eco emissions = −(sum of carbon diffs); monetised saving = saving × carbon price; adjusted eco cost = eco cost − monetised saving; the carbon-value row is (0, −monetised saving, −monetised saving) |
| `Calculator.PaybackGuard` | src/lib/calculator.ts:76 | with surcharge, monetised saving and lifetime all positive, the payback is surcharge × lifetime / monetised saving and is strictly positive; otherwise it is exactly 0 |
| `Calculator.MeteredEcoEmitsNoMore` | src/lib/calculator.ts:35-54 | a metered category whose quantity is not negative never emits more in the eco scenario than in the classic one, whatever the prices, lifetime or blends |
| `Calculator.NegativeQuantityEmitsMore` | src/lib/calculator.ts:35-54 | a metered category with a negative quantity (the input form accepts one) emits strictly more in the eco scenario, so the ordering above is reversed |
| `Calculator.EcoEmitsNoMore` | src/lib/calculator.ts:35-68 | when the seven quantities are not negative, every metered carbon diff is ≤ 0, and the carbon saving is at least the equipment saving |
| `Data.KgToTonnes` | src/lib/data.ts:58-63 | a factor given per kg and converted to tonnes, multiplied back by 1000, gives the kg figure; a positive figure stays positive and gets smaller |
| `Data.FootprintsOrdered` | src/lib/data.ts:49-64 | each alternative factor (concrete, steel, copper, asphalt, truck, car) is strictly below its conventional counterpart, and every factor is strictly positive |
| `Data.FootprintsInTonnes` | src/lib/data.ts:58-63 | the per-km and per-kWh factors are 0.25, 0.05, 0.18, 0.02, 0.03 and 0.7 kg divided by 1000 |
| `Data.DefaultAdmissible` | src/lib/data.ts:5-46 | in the default record no quantity, price, equipment tonnage or carbon price is negative; the lifetime is positive; the project type is one of the listed types; every blend percentage is 50, inside the slider range [0, 100] |
| `Scenarios.DefaultScenario` | src/lib/data.ts:9-39 | on the default record: cost totals 300750 / 331250, surcharge 30500, carbon totals 314.9 / 129.3, saving 185.6 t worth 18560, adjusted eco cost 312690, payback 30500 × 50 / 18560 > 0 years |
| `Scenarios.PaybackExample` | src/lib/calculator.ts:76 | a surcharge of 5000, a saving of 1000 and a lifetime of 50 give a payback of 250 years |
| `Scenarios.CheaperEcoHasNoPayback` | src/lib/calculator.ts:76 | when the eco design is not more expensive, the payback is the sentinel 0 whatever the savings |

## Left out

- Floating point: every number is a real. The model makes no claim about
  IEEE-754 rounding. For example, the default carbon totals are exact here
  (314.9, 129.3) but only approximate in the running code.
- The mixed scenario: `src/types/index.ts:54-103` declares `mixte` members, mixed
  totals, `surcoutMixte` and `amortissementMixte`. `calculate` builds none of
  them, so the model does not either.
- Declared fields that `calculate` never reads and the default record never
  supplies: `projectDescription`, the `…Eco` quantities, `heuresHelicoptere`,
  `prixKmAutobusEssence`, `prixHeureHelicoptere` and `pctEcoDeplacements`.
  They are not part of the `SimulationState` datatype.
- The blend percentages and `prixKmAutobusElectrique` are carried in the record
  but unused, as in the source.
- Input validation: the model puts no `requires` on `Calculate`, because the
  program does not bound every field it passes in. `src/app/page.tsx:14,21`
  merges each change unclamped and calls `calculate`.
  - Free: the seven quantities, the two equipment tonnages and the lifetime
    are plain number fields (`src/components/data-input-tab.tsx:106-130`,
    `:172`). `handleInputChange` (`:68-73`) accepts any number, negatives
    included, and a cleared field reads as 0.
  - Bounded by sliders: the eight material prices, each with its own range
    (`:154-161`, minimums from 50 to 7000), and the carbon price, in [0, 500]
    (`:175`).
  - Fixed at their defaults: the transport, travel and energy prices have no
    input.
  - Blends: the sliders keep them in [0, 100] (`:56-62`), but the optimiser's
    percentages are merged as they come
    (`src/components/optimization-dialog.tsx:85`), and its output schema does
    not bound them (`src/ai/flows/optimize-design.ts:81-88`).
  - `Admissible` (no negative figure, a positive lifetime, blends in [0, 100])
    is therefore an assumption about meaningful figures, not a guarantee of
    the program.
  - The emission ordering needs only non-negative quantities. A negative
    quantity reverses it (`NegativeQuantityEmitsMore`).
- `calculateBreakdown` has no contract of its own. Its property (diff = eco −
  classique) is stated for every row it produces by `BreakdownsConsistent`.
- User interface components, chart shaping, number formatting, PDF export and
  the generative-model flows (price lookup, plant lookup, design optimiser) are
  not part of this model. They are rendering, browser APIs or network calls,
  and do no arithmetic that the calculator relies on.
