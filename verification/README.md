# Roof insulation savings calculator — a Dafny model

This project models the calculator for Belgian roof insulation. It takes one request and produces a result record. A request has:

- a region;
- the roof area;
- the current and proposed thermal resistance (R-value);
- the heating source;
- the energy price;
- an optional upgrade cost.

The calculation is the same in both engines:

1. Convert each R-value to a U-value.
2. Compute the annual heat loss, U × area × heating degree days × 24 / 1000.
3. Compute the energy savings, floored at zero.
4. Compute the cost savings.
5. Use the upgrade cost if one is supplied; otherwise estimate it at area × 45 EUR/m2.
6. Compute the payback, which is 999 when nothing is saved.
7. Compute the ten-year net savings and the CO2 reduction.

The calculation exists twice:

- **The Cloudflare worker** (`cloudflare-deployment/worker/index.js`) checks its input with an ordered chain of guards. It maps an uninsulated roof (R = 0) to U = 5.0. It rounds every derived figure and the echoed numeric inputs with `Math.round(x * s) / s`. The looked-up degree days and CO2 intensity are returned as they are.
- **The Python backend** (`backend/calculations.py`) validates requests through a pydantic request model (`backend/models.py`). It reads its constants from `backend/config.py`. It refuses every R ≤ 0 when converting to U. It rounds the derived figures and the effective upgrade cost, supplied or estimated, with Python's `round`. The other echoed inputs are returned as they are.

The front end also has field validators in two variants, Dutch TypeScript and English JavaScript (`frontend/src/utils/validation.ts`, `validation.js`).

Everything in the core is side-effect free, so the model is functional throughout: datatypes, functions with named results, and lemmas. Arithmetic is over exact `real`s.

Modules:

- `Wrappers`: `Option` and `Result`.
- `Config`: the reference tables of both engines, which have identical values.
- `Rounding`: half-up rounding (the worker) and half-to-even rounding (the backend) to a decimal scale.
- `Savings`: the request and result records, the input rules, and the pipeline stages the two engines share.
- `Worker`: the worker's guards, its R-to-U conversion and its result object.
- `Models`: the backend request model, with pydantic's per-field error collection.
- `Calculations`: the backend pipeline as written, plus a corrected variant (see Findings).
- `FormInput`, `ValidationTs`, `ValidationJs`: the front-end validators over a typed view of a form field.
- `Agreement`: how the implementations relate to each other.

## Model

| member | source | states |
|---|---|---|
| Config.ReferenceDataWellFormed | backend/config.py:19-41 | Both tables have the key sets of the regions and heating sources, with positive degree days, positive intensities and prices in (0, 2]. The worker's table equals the backend's. |
| Config.TableKeys | backend/config.py:19-38 | Prices and degree days are keyed by exactly Vlaams, Waals and Brussels-Hoofdstedelijk. CO2 intensity is keyed by exactly gas, oil, electric and heat_pump. |
| Config.ClimateAndCostConstants | backend/config.py:26-41 | Waals > Brussels > Vlaams > 0 degree days; the default cost is 45.0 per m2. |
| Config.HeatPumpLeastIntensive | backend/config.py:33-38 | heat_pump has the smallest intensity of all sources, strictly below gas. |
| Rounding.HalfUpIndex | cloudflare-deployment/worker/index.js:145-160 | `Math.round` gives the integer k with k − 1/2 ≤ y < k + 1/2, so ties go up. |
| Rounding.HalfEvenIndex | backend/calculations.py:217-227 | Python's `round` gives an integer within 1/2 of y, and the even one on a tie. |
| Rounding.GridPoint | cloudflare-deployment/worker/index.js:145-160 | k / s is a multiple of 1/s whose scaled value is exactly k. |
| Rounding.RoundHalfUp | cloudflare-deployment/worker/index.js:145-160 | `Math.round(x * s) / s` gives a figure with at most d decimals, within half a unit of x, with ties resolved upward. |
| Rounding.RoundHalfEven | backend/calculations.py:217-227 | Python's `round` gives a figure with at most d decimals, within half a unit of x. On a tie it gives the neighbour that is an even number of units. |
| Rounding.PyRound | backend/calculations.py:217-227 | `round(x, d)` gives a figure with at most d decimals, within half a unit of x, and the even neighbour on a tie. |
| Rounding.RoundingFixesGridPoints | cloudflare-deployment/worker/index.js:145-160 | A figure that already has at most d decimals is unchanged by either rounding. |
| Rounding.RoundingIdempotent | backend/calculations.py:217-227 | Rounding a rounded figure again changes nothing, in both engines. |
| Rounding.RoundingsAgreeOffTies | backend/calculations.py:217-227 | Unless x lies exactly halfway between two grid points, both engines round it to the same value. |
| Rounding.RoundingMonotone | cloudflare-deployment/worker/index.js:145-160 | Neither rounding reverses the order of two figures. |
| Rounding.RoundingsDifferOnTie | backend/calculations.py:217-227 | On a tie the engines differ: 0.125 rounds to 0.13 in the worker and to 0.12 in the backend. |
| Savings.AnnualHeatLoss | backend/calculations.py:28-53 | Heat loss is non-negative for non-negative inputs. With a positive area and positive degree days, it is positive exactly when U is. |
| Savings.EnergySavings | cloudflare-deployment/worker/index.js:52-54 | Savings are the larger of 0 and current − proposed, so never negative. |
| Savings.CostSavings | cloudflare-deployment/worker/index.js:57-59 | Non-negative savings at a non-negative price save non-negative money. At a positive price, money is saved exactly when energy is. |
| Savings.PaybackPeriod | cloudflare-deployment/worker/index.js:62-65 | Savings ≤ 0 give exactly 999. Otherwise years × savings equals the cost. |
| Savings.Co2Reduction | backend/calculations.py:112-128 | Non-negative savings at a non-negative intensity avoid non-negative CO2. At a positive intensity, CO2 is avoided exactly when energy is saved. |
| Savings.EstimateInsulationCost | backend/calculations.py:131-141 | The default estimate is non-negative for a non-negative area and rate. At a positive rate it is positive exactly when the area is. |
| Savings.EffectiveCost | cloudflare-deployment/worker/index.js:129-131 | A supplied cost is used unchanged; a missing one becomes area × cost per m2. |
| Savings.TenYearSavings | cloudflare-deployment/worker/index.js:137 | Net ten-year savings plus the cost equal ten years of cost savings. They are non-negative exactly when the cost is at most ten years of savings. |
| Savings.Derive | cloudflare-deployment/worker/index.js:116-141 | The record holds: the given U-values; each heat loss from its own U, the area and the degree days; energy savings as the zero-floored difference of those two losses; cost savings as energy savings × price; annual CO2 as energy savings × intensity; and the effective cost. The payback follows the sentinel rule. Ten-year savings + cost = 10 × annual cost savings, and ten-year CO2 = 10 × annual CO2. |
| Savings.HeatLossMonotone | cloudflare-deployment/worker/index.js:47-49 | Heat loss is non-negative and non-decreasing in U, area and degree days when all are non-negative. |
| Savings.HeatLossStrictInU | backend/calculations.py:53 | With a positive area and positive degree days, a lower U gives strictly less heat loss. |
| Savings.HeatLossExamples | backend/test_calculations.py:45-67 | (0.5, 100, 2800) gives 3360 and (0.2, 100, 2800) gives 1344. More degree days give more loss. |
| Savings.EnergySavingsExamples | backend/test_calculations.py:73-88 | 3360 − 1344 saves 2016; equal inputs and a larger proposed loss both save 0. |
| Savings.CostSavingsGrowWithPrice | backend/calculations.py:88 | With positive energy savings, a higher price gives strictly larger cost savings. |
| Savings.PaybackExamples | backend/test_calculations.py:116-136 | 1000 / 500 gives 2.0; zero and negative savings give 999. |
| Savings.Co2GrowsWithIntensity | backend/calculations.py:128 | With positive savings, a higher intensity gives a strictly larger CO2 reduction. |
| Savings.EstimateProportionalToArea | backend/calculations.py:141 | The default estimate scales with the area (k × area costs k times as much). With a non-negative rate it is non-negative, and a larger roof never costs less. |
| Savings.EstimateExamples | backend/test_calculations.py:165-180 | At 45 EUR/m2, 100, 50 and 200 m2 cost 4500, 2250 and 9000. |
| Savings.TenYearSavingsIffPaybackWithinTen | backend/calculations.py:197-202 | With positive savings, ten-year net savings are ≥ 0 exactly when the payback is ≤ 10 years. |
| Savings.DeriveSavesWhenUDrops | cloudflare-deployment/worker/index.js:121-134 | With a lower proposed U and a positive area, degree days and price, energy and cost savings are strictly positive. The payback is then cost / savings, not 999. |
| Savings.DeriveSavesNothingWhenUGrows | cloudflare-deployment/worker/index.js:121-141 | With a proposed U that is not lower, savings and CO2 are 0, the payback is 999 and the ten-year figure is minus the cost. |
| Savings.IntensityAffectsOnlyCo2 | backend/calculations.py:205-208 | The intensity factor changes only the two CO2 figures, and annual CO2 = energy savings × intensity. |
| Worker.UValue | cloudflare-deployment/worker/index.js:34-44 | R < 0 fails with "R-value cannot be negative"; R = 0 gives 5.0; R > 0 gives a U with U × R = 1. |
| Worker.Passes | cloudflare-deployment/worker/index.js:90-110 | The region guard passes exactly for the three regions, and the heating-source guard exactly for the four sources. No guard concerns the cost. |
| Worker.Message | cloudflare-deployment/worker/index.js:90-110 | Every guard the worker has throws a non-empty message. The cost rule, which has no guard, has none. |
| Worker.Validate | cloudflare-deployment/worker/index.js:90-110 | No error exactly when every guard passes. An error names a failing guard, and every guard checked before it passed. |
| Worker.Derivation | cloudflare-deployment/worker/index.js:113-141 | An accepted request is derived with U = 5.0 for a bare roof, and 1/R otherwise. |
| Worker.DerivationUsesTables | cloudflare-deployment/worker/index.js:113-141 | Several figures come from the request's own table entries. Both heat losses use the region's degree days. Cost savings use the request's price. CO2 uses the heating source's intensity. The upgrade cost is the supplied cost or the per-m2 default. |
| Worker.Present | cloudflare-deployment/worker/index.js:143-163 | The result carries the request's region and source, plus the looked-up degree days and intensity. |
| Worker.PerformFullCalculation | cloudflare-deployment/worker/index.js:78-164 | The call fails exactly when a guard fails, with that guard's rule. Otherwise it presents the derivation. |
| Worker.ValidateAcceptsExactly | cloudflare-deployment/worker/index.js:90-110 | The guards accept a request iff: the region is known; 0 < area ≤ 10000; 0 ≤ current R ≤ 20; 0 < proposed R ≤ 20; proposed R > current R; the source is known; 0 < price ≤ 2. |
| Worker.UnknownLocationDecides | cloudflare-deployment/worker/index.js:90-92 | An unknown region is reported whatever the other fields hold. |
| Worker.MessagesIdentifyRules | cloudflare-deployment/worker/index.js:90-110 | Distinct guards throw distinct messages. |
| Worker.CostNeverChecked | cloudflare-deployment/worker/index.js:90-110 | The upgrade cost never affects the guards. |
| Worker.InsulatedRoofSaves | cloudflare-deployment/worker/index.js:117-134 | For an accepted request with current R > 0, proposed U < current U, savings are strictly positive, and payback × savings = cost. |
| Worker.ThinUpgradeOfBareRoofSavesNothing | cloudflare-deployment/worker/index.js:38-43 | For a bare roof, a proposed R < 0.2 saves nothing and the payback is 999. |
| Worker.UpgradeOfBareRoofSaves | cloudflare-deployment/worker/index.js:38-43 | For a bare roof, a proposed R > 0.2 saves energy and money, and the payback is cost / savings. |
| Worker.NegativeCostFlowsThrough | cloudflare-deployment/worker/index.js:129-134 | For an insulated roof (current R > 0), a supplied negative cost is accepted and used unchanged, giving a negative payback. |
| Worker.ScenarioBareRoofVlaams | cloudflare-deployment/worker/index.js:117-160 | Vlaams, 100 m2, R 0 → 6, gas, no cost gives: U 5.0 and 0.1667, 2800 degree days, losses 33600 and 1120, and cost 4500. |
| Worker.ScenarioProposedBelowCurrent | cloudflare-deployment/worker/index.js:102-104 | A proposed R of 4 against a current R of 6 is refused as not greater. |
| Worker.ScenarioOversizedRoof | cloudflare-deployment/worker/index.js:93-95 | A 15000 m2 roof is refused for its area. |
| Worker.ScenarioUnknownRegion | cloudflare-deployment/worker/index.js:90-92 | An unknown region is refused for every combination of the other fields. |
| Worker.ScenarioTinyPrice | cloudflare-deployment/worker/index.js:62-65 | A tiny positive price still yields positive savings and a computed payback, not 999. |
| Models.Fails | backend/models.py:8-56 | The region and heating-source Literals fail exactly for keys missing from the configuration tables. The improvement check fails only when both R-values met their own bounds. |
| Models.RequestValid | backend/models.py:8-56 | A request is valid exactly when no field rule fails. |
| Models.FieldErrors | backend/models.py:8-56 | The reported errors are exactly the failing field rules, one each, in field order. None are reported exactly when no rule fails. |
| Models.CollectMembers | backend/models.py:8-56 | Collecting over the fields keeps exactly the rules that fail. |
| Models.CollectSorted | backend/models.py:8-56 | Collecting keeps the field order. |
| Models.FieldOrderRanks | backend/models.py:11-47 | Each field is declared in the position of its rule, and every rule has a field. |
| Models.LiteralsMatchTables | backend/models.py:11-36 | The region and heating-source literal choices are exactly the key sets of the reference tables. |
| Models.DefaultPricesAccepted | backend/models.py:37-42 | Every regional default price lies in the accepted range (0, 2]. |
| Models.RequestValidBounds | backend/models.py:11-56 | The model accepts a request iff: the region is known; 0 < area ≤ 10000; 0 ≤ current R ≤ 20; 0 < proposed R ≤ 20; proposed R > current R; the source is known; 0 < price ≤ 2; any cost is ≥ 0. |
| Models.ImprovementCheckNeedsValidCurrent | backend/models.py:49-56 | The improvement error is reported iff proposed ≤ current and both R-values passed their own bounds. |
| Models.CostOptionalButNonNegative | backend/models.py:43-47 | A negative cost makes the request invalid. Leaving the cost out never does. |
| Calculations.UValue | backend/calculations.py:8-25 | Every R ≤ 0, 0 included, fails with "R-value must be greater than 0". Otherwise U > 0 and U × R = 1. |
| Calculations.Derivation | backend/calculations.py:168-208 | The derivation uses U-values that are the reciprocals of the R-values. |
| Calculations.DerivationUsesTables | backend/calculations.py:168-208 | Several figures come from the request's own entries in the backend settings. Both heat losses use the region's degree days. Cost savings use the request's price. CO2 uses the heating source's intensity. The upgrade cost is the supplied cost or the per-m2 default. |
| Calculations.Present | backend/calculations.py:210-230 | The inputs are echoed unrounded, and the looked-up degree days and intensity are returned. |
| Calculations.PerformFullCalculation | backend/calculations.py:144-230 | An unknown region fails first, with a key error on the region. An unknown source fails next. An R ≤ 0 fails after that. The call succeeds exactly when the keys are known and both R > 0. It does no range checks. |
| Calculations.UValueExamples | backend/test_calculations.py:20-39 | R 0 and −1 fail. R 5, 2, 1 and 10 give 0.2, 0.5, 1 and 0.1. |
| Calculations.NoRangeChecks | backend/calculations.py:168-208 | An area of −50, R 30 → 1, a price of 7 and a cost of −10 still compute. |
| Calculations.HeatPumpSavesLessCo2 | backend/test_calculations.py:228-252 | For a known region and both R > 0, switching gas to heat_pump keeps energy savings, cost savings and payback. The reported CO2 reduction is never higher. The unrounded one is strictly lower when energy is saved. |
| Calculations.HeatPumpCo2Example | backend/test_calculations.py:228-252 | Vlaams, 100 m2, R 2 to 6: gas and heat_pump save the same energy. They report 450.24 and 123.2 kg CO2 a year. |
| Calculations.DefaultCostExample | backend/test_calculations.py:212-226 | Waals, 100 m2, R 2 → 6, oil, no cost gives cost 4500 and energy savings 2400. |
| Calculations.VlaamsExample | backend/test_calculations.py:185-210 | Vlaams, 100 m2, R 2 → 6, gas gives U 0.5 and 0.1667, with positive energy, cost and CO2 savings. |
| Calculations.CorrectedUValue | cloudflare-deployment/worker/index.js:34-44 | With the bare-roof policy, R < 0 fails, R = 0 gives 5.0, and R > 0 agrees with `calculate_u_value`. |
| Calculations.CorrectedDerivation | backend/calculations.py:168-208 | With both R > 0 it equals the as-written derivation. A bare roof gets U = 5.0. |
| Calculations.PerformCorrectedCalculation | backend/calculations.py:144-230 | The call succeeds iff the keys are known and both R ≥ 0. It equals the as-written call whenever neither R is 0. |
| FormInput.ParseFloat | frontend/src/utils/validation.ts:16 | A number parses to itself. A falsy field parses to nothing or to 0. |
| ValidationTs.ValidateLocation | frontend/src/utils/validation.ts:5-10 | Only an empty region is refused, with "Selecteer een regio". |
| ValidationTs.ValidateRoofArea | frontend/src/utils/validation.ts:12-27 | The area is accepted iff it parses to a value in (0, 10000]. Each message is tied to its check, in both directions: the "required" message iff the field is falsy (the number 0 included); "not a number" iff it is truthy and does not parse; "must be greater than 0" iff it is truthy and parses to ≤ 0; "too large" iff it parses to > 10000. |
| ValidationTs.ZeroRoofAreaMessages | frontend/src/utils/validation.ts:12-27 | The number 0 is reported as missing, the text "0" as not above 0, a non-number as such, and 10000.5 as too large. |
| ValidationTs.ValidateRValue | frontend/src/utils/validation.ts:29-48 | Accepted iff the value parses to a value in [0, 20], so 0 passes. The "Voer de … in" message is returned iff the field is missing or empty. "Not a number" is returned iff a text does not parse, "cannot be negative" iff the value is < 0, and "too high" iff it is > 20. |
| ValidationTs.ValidateProposedRValue | frontend/src/utils/validation.ts:50-64 | The basic R-value error comes first. Otherwise the call errs iff both fields parse and proposed ≤ current. That error is "Voorgestelde R-waarde moet groter zijn dan de huidige R-waarde". |
| ValidationTs.ValidateHeatingSource | frontend/src/utils/validation.ts:66-71 | Only an empty source is refused. |
| ValidationTs.ValidateEnergyPrice | frontend/src/utils/validation.ts:73-88 | Accepted iff the price parses to a value in (0, 2]. The messages follow the checks, in both directions: "required" iff falsy; "not a number" iff truthy and unparsable; "must be greater than 0" iff truthy and ≤ 0; "too high" iff > 2. |
| ValidationTs.ValidateInsulationCost | frontend/src/utils/validation.ts:90-102 | Accepted iff the field is falsy or parses to a value ≥ 0. "Not a number" is returned iff the field is truthy and unparsable, and "cannot be negative" iff it parses to < 0. |
| ValidationTs.ValidateRoofType | frontend/src/utils/validation.ts:104-112 | Only "flat" and "pitched" are accepted. Empty input gives "Selecteer een daktype"; any other value gives "Ongeldig daktype". |
| ValidationTs.ValidateInsulationMaterial | frontend/src/utils/validation.ts:114-119 | Only an empty material is refused. |
| ValidationJs.ValidateLocation | frontend/src/utils/validation.js:5-10 | Only an empty region is refused, with "Please select a region". |
| ValidationJs.ValidateRoofArea | frontend/src/utils/validation.js:12-27 | The area is accepted iff it parses to a value in (0, 10000]. Each message is tied to its check, in both directions: "Please enter roof area" iff the field is falsy (the number 0 included); "must be a number" iff it is truthy and does not parse; "must be greater than 0" iff it is truthy and parses to ≤ 0; "seems too large" iff it parses to > 10000. |
| ValidationJs.ValidateRValue | frontend/src/utils/validation.js:29-44 | Accepted iff the field is truthy and parses to a value in [0, 20]. "Please enter …" is returned iff the field is falsy, the number 0 included. "Must be a number" is returned iff it is truthy and unparsable, "cannot be negative" iff truthy and < 0, and "seems too high" iff truthy and > 20. |
| ValidationJs.ValidateProposedRValue | frontend/src/utils/validation.js:46-57 | The basic error comes first. The not-greater error applies only when both fields parse and proposed ≤ current. It is "Proposed R-value must be greater than current R-value". |
| ValidationJs.ValidateHeatingSource | frontend/src/utils/validation.js:59-64 | Only an empty source is refused. |
| ValidationJs.ValidateEnergyPrice | frontend/src/utils/validation.js:66-81 | Accepted iff the price parses to a value in (0, 2]. The messages follow the checks, in both directions: "Please enter" iff falsy; "must be a number" iff truthy and unparsable; "must be greater than 0" iff truthy and ≤ 0; "seems too high" iff > 2. |
| ValidationJs.ValidateInsulationCost | frontend/src/utils/validation.js:83-95 | Accepted iff the field is falsy or parses to a value ≥ 0. "Must be a number" is returned iff the field is truthy and unparsable, and "cannot be negative" iff it parses to < 0. |
| Agreement.WorkerPassImpliesModelPass | backend/models.py:11-42 | A worker guard that passes never corresponds to a request-model error for the same rule. The cost is excluded. |
| Agreement.WorkerErrorIsModelsFirstError | cloudflare-deployment/worker/index.js:90-110 | When the worker refuses a request, the request model refuses it too, and its first error is the worker's rule. |
| Agreement.SameAcceptanceButCost | backend/models.py:8-56 | The request model accepts iff the worker's guards pass and any cost is ≥ 0. |
| Agreement.NegativeCostIsOnlyModelError | backend/models.py:43-47 | For a request the worker accepts, a negative cost is the only error the request model reports. |
| Agreement.NegativeCostOnlyRefusedByModel | cloudflare-deployment/worker/index.js:129-134 | For an insulated roof (current R > 0), a negative cost is computed by the worker, with a negative payback, and refused by the request model. |
| Agreement.EnginesAgreeOnInsulatedRoofs | backend/calculations.py:168-208 | For a worker-accepted request with current R > 0, the backend succeeds and derives exactly the worker's unrounded figures. |
| Agreement.BackendFailsAcceptedBareRoofs | backend/calculations.py:23-24 | Every request the model accepts with current R = 0 fails in the backend with the R ≤ 0 error. The worker computes it with U = 5.0. |
| Agreement.AcceptedBareRoofExists | backend/models.py:21-26 | A valid request with current R = 0 exists: Vlaams, 100 m2, R 0 → 6. The backend fails on it. |
| Agreement.CorrectedAgreesOnBareRoofs | cloudflare-deployment/worker/index.js:38-42 | On a worker-accepted bare roof, the corrected backend derives exactly the worker's figures. |
| Agreement.CorrectedBackendServesWorkerRequests | backend/calculations.py:144-230 | The corrected backend succeeds on every worker-accepted request, with the worker's figures. |
| Agreement.CorrectedBackendServesEveryValidRequest | backend/models.py:8-56 | Every request the model accepts is worker-accepted and served by the corrected backend. |
| Agreement.EchoedInputsDiffer | cloudflare-deployment/worker/index.js:145-149 | The worker echoes area 100.123 as 100.12 and price 0.3456 as 0.346. The backend echoes both unchanged. |
| Agreement.VariantsDifferOnlyOnNumericZeroR | frontend/src/utils/validation.js:29-32 | The TS and JS validators accept the same area, price, cost, region and source. Their R-value checks disagree exactly on the number 0. |
| Agreement.TsValidatorsMatchRequestModel | frontend/src/utils/validation.ts:12-102 | For numeric input the TS validators accept exactly what the request model accepts, field by field. For proposed R this holds against a valid current R. |
| Agreement.JsRefusesNumericBareRoof | frontend/src/utils/validation.js:29-32 | The request model accepts R = 0, but the JS check refuses the number 0 as missing and accepts the text "0". |

## Left out

- HTTP handling is not modelled. This covers the worker's request handler and its CORS and status mapping, the FastAPI endpoints, and the front-end API clients. Modelled operations return a `Result` instead of throwing or raising.
- PDF generation, the React components and the analytics calls are not part of this model. They hold no calculation logic.
- Settings loading from the environment is not modelled; only the constant tables are.
- Floating point is not modelled. Arithmetic is over exact reals, so IEEE effects on products, quotients and rounding ties are not represented. Rounding is modelled as exact half-up (`Math.round(x * s) / s`) and exact half-to-even (Python's `round`).
- Dynamic typing in the worker is not modelled. A request is a typed record, so a missing `roof_area`, whose comparisons are all false in JavaScript, cannot be expressed. Likewise a region or source that is a key of `Object.prototype` cannot be expressed.
- `parseFloat` on text is not modelled. A text field is represented by the number its prefix parses to, or by none. A `NaN` number is not represented.
- The TS validators type their input as `string | number`. `ValidationTs.ValidateProposedRValue` therefore requires a present current value, since `toString` on null throws.
- Inputs do not round-trip through the result. The worker rounds the echoed area, R-values and price. The backend echoes those unrounded. `Agreement.EchoedInputsDiffer` exhibits the difference.
- Worker.Present: its contract states only the fields that are passed through. The rounded figures are characterised by the `Rounding` lemmas and by the worked scenarios, not by a closed-form ensures.
- Calculations.Present: its contract likewise states only the unrounded echoes and the looked-up constants.
- Agreement.NegativeCostIsOnlyModelError: states that the negative cost is the only rule reported, not that the error list has length one. The length follows from `Models.FieldErrors` reporting rules in strictly increasing order.

## Findings

| source | as written | input that shows it | evidently intended | confidence | as-written member | corrected member |
|---|---|---|---|---|---|---|
| backend/calculations.py:23-24 | `calculate_u_value` raises for every R ≤ 0 (a unit test pins this for R = 0), yet the request model (backend/models.py:21-26) accepts current R = 0, so every valid bare-roof request fails | Vlaams, 100 m2, current R 0, proposed R 6, gas, 0.35 EUR/kWh | treat R = 0 as an uninsulated roof with U = 5.0, as the worker does (cloudflare-deployment/worker/index.js:38-42), and serve every request the model accepts | medium, not executed | Agreement.BackendFailsAcceptedBareRoofs | Agreement.CorrectedBackendServesEveryValidRequest |
