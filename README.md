# Enterprise cost estimator — a Dafny model

This project models the "Enterprise Solution Calculator" of the CBD mock
website (`src/components/PriceCalculator.tsx`). A visitor edits a
resource configuration:

- CPU cores;
- a GPU type (none, V100 or A100);
- RAM, SSD and HDD sizes in GB;
- four add-on services (MLOps, data processing, monitoring, security);
- a support level (basic, business or enterprise).

The component prices that configuration from a constant price list. The
result has four components (compute, storage, services, support) and a
total.

Money is modelled as exact integer cents. The decimal rates $6.50, $0.15
and $0.05 become 650, 15 and 5, so no floating point is involved.

- `pricing.dfy` (module `Pricing`) holds the price list: per-unit rates,
  the flat GPU fee, the service fees and the support fees.
- `configuration.dfy` (module `Configuration`) holds the nested
  configuration record and its initial value. It also holds the values
  each slider can produce and the single-box update of the services
  record.
- `cost_reducer.dfy` (module `CostReducer`) holds the pure cost reducer.
  The services component is modelled as the left fold over the services
  record's entries, as the source's `reduce` does it. The module proves
  the properties of the estimate about that reducer.
- `calculator.dfy` (module `Calculator`) holds the class `Estimator`. It
  keeps `config`, `costs` and `totalCost` as fields. Each edit method
  replaces one field of the configuration and then recomputes the whole
  estimate before it returns. This is the component's "set the
  configuration, then the effect recomputes" pipeline, made synchronous.
  The invariant `Valid()` states that the costs are the reducer's result
  for the current configuration and that the total is their exact sum.

## Model

| member | source | states |
|---|---|---|
| `Pricing.GpuFee` | src/components/PriceCalculator.tsx:59-63 | the GPU fee is zero exactly for "no GPU" and at most $4,000 |
| `Pricing.ServiceFee` | src/components/PriceCalculator.tsx:70-75 | every add-on service has a positive flat fee |
| `Pricing.SupportFee` | src/components/PriceCalculator.tsx:76-80 | the support fee is zero exactly for basic support and at most $5,000 |
| `Configuration.Services.With` | src/components/PriceCalculator.tsx:313-319 | setting one service box gives that box the new value and leaves the three other boxes unchanged |
| `Configuration.Services.Entries` | src/components/PriceCalculator.tsx:96 | the entries the fold visits are the four services in declaration order, each paired with its own box |
| `Configuration.Default` | src/components/PriceCalculator.tsx:28-45 | the initial configuration lies inside every slider's range and has no service enabled |
| `Configuration.InRangeIsNonNegative` | src/components/PriceCalculator.tsx:198-288 | a configuration the sliders can produce has no negative quantity |
| `Configuration.WithSameIsIdentity` | src/components/PriceCalculator.tsx:313-319 | setting a box to the value it already has leaves the services record unchanged |
| `Configuration.OnThenOffRestores` | src/components/PriceCalculator.tsx:313-319 | ticking an unticked box and then unticking it restores the services record |
| `CostReducer.ComputeCost` | src/components/PriceCalculator.tsx:85-88 | with non-negative cores and RAM, compute cost is at least the flat GPU fee |
| `CostReducer.StorageCost` | src/components/PriceCalculator.tsx:91-93 | storage cost is non-negative for non-negative sizes, and positive once any SSD is chosen |
| `CostReducer.Reduce` | src/components/PriceCalculator.tsx:96-98 | the fold never lowers its accumulator |
| `CostReducer.EnabledFeeSum` | src/components/PriceCalculator.tsx:96-98 | the reference sum of enabled fees is non-negative, and zero if and only if no entry is enabled |
| `CostReducer.ServicesCost` | src/components/PriceCalculator.tsx:96-98 | the services component is non-negative |
| `CostReducer.Breakdown` | src/components/PriceCalculator.tsx:83-108 | every cost component is non-negative when every quantity is, and services never exceed $5,500 |
| `CostReducer.ReduceIsSum` | src/components/PriceCalculator.tsx:96-98 | the left fold started at `acc` equals `acc` plus the sum of the fees of the enabled entries |
| `CostReducer.ServicesCostIsSumOfEnabledFees` | src/components/PriceCalculator.tsx:70-98 | the services component is the sum of the fees of exactly the ticked services |
| `CostReducer.ServicesCostZeroIffNoneEnabled` | src/components/PriceCalculator.tsx:96-98 | the services component is zero if and only if no service is enabled |
| `CostReducer.ServicesCostBounded` | src/components/PriceCalculator.tsx:70-98 | the services component lies between 0 and $5,500 |
| `CostReducer.AllServicesCost` | src/components/PriceCalculator.tsx:70-98 | with all four services enabled the services component is exactly $5,500 |
| `CostReducer.ServicesCostOfWith` | src/components/PriceCalculator.tsx:313-319 | setting one box changes the services component by that service's fee only: minus the fee if it was ticked, plus it if it is ticked now |
| `CostReducer.ServicesCostOnThenOff` | src/components/PriceCalculator.tsx:313-319 | ticking an unticked service adds exactly its fee, and unticking it again restores the prior services component |
| `CostReducer.AllServicesAddFixedAmount` | src/components/PriceCalculator.tsx:96-110 | enabling all four services adds exactly $5,500 to the services component and to the total, whatever the compute, storage and support settings |
| `CostReducer.DefaultBreakdown` | src/components/PriceCalculator.tsx:28-110 | the initial configuration costs $528 compute, $175 storage, $0 services and $0 support, $703 in total |
| `CostReducer.GpuFeeIsFlat` | src/components/PriceCalculator.tsx:85-88 | the GPU fee is added once, whatever the core and RAM counts |
| `CostReducer.ComputeCostMonotoneInCores` | src/components/PriceCalculator.tsx:85-88 | more cores, everything else fixed, never lower the compute cost |
| `CostReducer.ComputeCostMonotoneInRam` | src/components/PriceCalculator.tsx:85-88 | more RAM, everything else fixed, never lowers the compute cost |
| `CostReducer.StorageCostMonotoneInSsd` | src/components/PriceCalculator.tsx:91-93 | more SSD, everything else fixed, never lowers the storage cost |
| `CostReducer.StorageCostMonotoneInHdd` | src/components/PriceCalculator.tsx:91-93 | more HDD, everything else fixed, never lowers the storage cost |
| `Calculator.Estimator.constructor` | src/components/PriceCalculator.tsx:28-53 | the estimator starts with the initial configuration and, once recomputed, shows costs 528/175/0/0 with a total of $703 |
| `Calculator.Estimator.Recompute` | src/components/PriceCalculator.tsx:83-111 | after recomputation the costs are the reducer's result for the current configuration and the total is their exact sum |
| `Calculator.Estimator.SetCpuCores` | src/components/PriceCalculator.tsx:203-209 | only the core count changes; only the compute cost moves, by $40 per core; the total never falls when cores grow; slider values keep the configuration in range |
| `Calculator.Estimator.SetGpuType` | src/components/PriceCalculator.tsx:219-225 | only the GPU type changes; compute cost and total move by the difference of the two flat GPU fees |
| `Calculator.Estimator.SetRam` | src/components/PriceCalculator.tsx:243-249 | only RAM changes; only the compute cost moves, by $6.50 per GB; the total never falls when RAM grows; slider values keep the configuration in range |
| `Calculator.Estimator.SetSsd` | src/components/PriceCalculator.tsx:270-276 | only SSD changes; only the storage cost moves, by $0.15 per GB; the total never falls when SSD grows; slider values keep the configuration in range |
| `Calculator.Estimator.SetHdd` | src/components/PriceCalculator.tsx:290-296 | only HDD changes; only the storage cost moves, by $0.05 per GB; the total never falls when HDD grows; slider values keep the configuration in range |
| `Calculator.Estimator.SetService` | src/components/PriceCalculator.tsx:313-319 | only that service's box changes; services cost and total move by that service's fee only; setting a box to its current value changes neither the configuration nor any cost |
| `Calculator.Estimator.SetSupport` | src/components/PriceCalculator.tsx:341-344 | only the support level changes; the support cost becomes its fee and the total moves by the difference of the two fees |

## Left out

- Chart data and options (`chartData`, `barData`, `barOptions`) and the Chart.js registration are presentation around a foreign library.
- The JSX rendering and the `toLocaleString` currency formatting are user-interface and locale output.
- `parseInt` on the slider's string value is not modelled. The edit methods take the integer that results, so a non-numeric value (NaN) is not represented.
- The price list uses exact cents, not JavaScript's binary floating-point numbers. On every value the sliders produce the two agree: 6.5 is exactly representable, so `ram * 6.5` is exact, and SSD moves in steps of 100 GB and HDD in steps of 1000 GB, so `ssd * 0.15` and `hdd * 0.05` come out as exact whole-dollar amounts. The model differs from the source only for quantities no slider produces, such as 3 GB of SSD, where `3 * 0.15` is `0.44999999999999996` in the source and exactly 45 cents here.
- Quantities are unbounded integers. JavaScript numbers have no 32-bit wrap-around, and slider values are far below the range where doubles lose integer precision.
- React runs the effect asynchronously after the state update. The model recomputes synchronously inside each edit. So the moment between an edit and its recomputation, when the costs are stale, is not represented, and neither is React's batching of state updates.
- Numeric fields are not clamped on write. Each handler stores the slider's value as it is; only the browser's range input confines it to the slider's minimum, maximum and step. The model follows the code. The edit methods accept any integer, and each slider method promises that the configuration stays in range when the value is one the slider can produce.
- Determinism of the estimate is not stated as a lemma: `Breakdown` is a Dafny function, so equal configurations give equal estimates by construction.
- A malformed price list cannot arise: GPU types, services and support levels are closed datatypes, and each fee function is total over them.
- The rest of the site (`src/App.tsx` and every other component under `src/components/`) is static content and modal open/close toggles with no computation, and is not part of this model.
