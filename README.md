# GeoStormX core, modelled in Dafny

GeoStormX is a space-weather dashboard. It forecasts the planetary Kp index
for 72 hours and draws the aurora oval for each hour on a map. It also lists
the countries under that oval, briefs aviation on night-side aurora exposure,
and prices insurance for satellites, power grids and aircraft. This project
models the computational core of that system and proves properties of it:

- **Map page** (`Map.jsx`):
  - the country table and its rectangle test, which has a wrap rule for boxes
    that cross the antimeridian;
  - the night-side longitude test, with its two normalising while-loops;
  - the 73-point oval loop, the night filter, the polygon threshold and the
    colour thresholds;
  - the sorted affected-country list;
  - the playback scrubber (slider, play/pause, speed, reset).
- **Kp utilities**, shared by the FastAPI backend and the two ML services:
  - the Kp to geomagnetic-latitude clamp;
  - the official Kp "thirds" string (digit plus `o`, `+` or `-`);
  - the aurora-level classifier and the forecast confidence;
  - the 72-hour forecast loops, the request guards and the prediction
    pipeline's error paths.
- **Aviation briefing** (backend): the 37-point circle, the no-wrap rectangle
  test and the selection of significant three-hour blocks.
- **Insurance pages**: `calculatePremium` (pure premium + risk margin +
  expense loading) and every tier the pages price.
- **Simulation page**: the single-asset what-if formulas, the Gaussian storm
  curve loop and the portfolio mitigation.
- **Premium page**: the USD/INR amounts, plan selection, the currency toggle
  and the payment form's state transitions.

All arithmetic is over exact reals. Python's `round` (half to even) and
JavaScript's `Math.round` (half up) are modelled separately
(`Arith.PyRound`, `Arith.JsRound`). Code whose numerics lie outside the
model is passed in as a function-valued parameter:

- the spherical rotation of the oval;
- `exp`;
- the random noise;
- the scaler plus model prediction;
- the solar-elevation night test of the backend.

Each module is one file:

- `arith.dfy`: Arith
- `wrappers.dfy`: Wrappers (the optional value)
- `seqs.dfy`: Seqs (order-preserving subsequences)
- `text.dfy`: Text (string order and sorting)
- `regions.dfy`: Regions
- `nightside.dfy`: NightSide
- `auroramap.dfy`: AuroraMap
- `kpscale.dfy`: KpScale
- `forecast.dfy`: Forecast
- `aviation.dfy`: Aviation
- `pricing.dfy`: Pricing
- `simulation.dfy`: Simulation
- `checkout.dfy`: Checkout

Some code is duplicated across the services and is defined once here:

- The latitude clamp, the aurora classifier, the confidence and the ML
  forecast loop are the same in `ml/main1.py` and `ml/forecasting_logic.py`.
- The latitude clamp also appears in `backend/main.py`.
- `calculatePremium` is repeated in the three insurance pages.

The two Kp string encoders differ in their code: the backend uses
`min(digit, 9)`, while the ML services have a `>= 10` fix-up. Both are
modelled, and `KpScale.EncodersAgree` proves that they give the same string
for every number.

## Model

| member | source | states |
|---|---|---|
| Arith.Clip | ml/main1.py:128 | np.clip: the result lies in [lo, hi], equals x inside the range and the nearer bound outside it |
| Arith.PyRound | backend/main.py:169 | Python round: within 1/2 of x, and an exact tie goes to the even integer |
| Arith.JsRound | frontend/lfg/src/components/Sim.jsx:62 | Math.round: the integer in (x - 1/2, x + 1/2] |
| Arith.RoundingsAgreeOffTies | backend/main.py:169 | away from exact halves, Python's and JavaScript's rounding give the same integer |
| Arith.JsRoundMonotone | frontend/lfg/src/components/Sim.jsx:63 | Math.round never decreases as its argument grows |
| Arith.ClipMonotone | ml/main1.py:128 | clipping is monotone |
| Text.LessEqTotal | frontend/lfg/src/components/Map.jsx:353 | the string order used by sort() is total |
| Text.LessEqTransitive | frontend/lfg/src/components/Map.jsx:353 | the string order is transitive |
| Text.LessEqAntisymmetric | frontend/lfg/src/components/Map.jsx:353 | the string order is antisymmetric, so sorting is unique |
| Text.StrictlySortedHasNoDuplicates | frontend/lfg/src/components/Map.jsx:353 | a strictly sorted list has no repeated name |
| Text.SortedNames | frontend/lfg/src/components/Map.jsx:353 | Array.from(set).sort(): strictly sorted, exactly the set's members, one entry per member |
| Regions.OrdinaryBoxesAgree | frontend/lfg/src/components/Map.jsx:26-35 | for a box with west <= east the wrap-aware test is the inclusive rectangle test, and equals the backend's no-wrap test |
| Regions.WrapRuleIsShiftedBox | frontend/lfg/src/components/Map.jsx:28-31 | for west > east, membership is the latitude band AND (lng >= west OR lng <= east), which is the box [west, east + 360] read modulo 360 |
| Regions.WrappedBoxEmptyWithoutWrapRule | backend/main.py:235-240 | the backend's test finds no point in a box whose west exceeds its east |
| Regions.MapRussiaWraps | frontend/lfg/src/components/Map.jsx:12 | the map's Russia row contains (60, 179) and (60, -175) but not (60, 0) |
| Regions.AviationRussiaRowIsEmpty | backend/main.py:190 | the aviation table's Russia row contains no point under the no-wrap test, though the wrap rule would put (60, 100) in it |
| NightSide.SunLongitude | frontend/lfg/src/components/Map.jsx:402 | for hour 0..23 and minute 0..59 the sub-solar longitude lies in [-180, 180) |
| NightSide.NormalizeLongitude | frontend/lfg/src/components/Map.jsx:403-405 | the two while-loops end in [-180, 180], on the same meridian, and leave in-range values alone |
| NightSide.WrapDifference | frontend/lfg/src/components/Map.jsx:406-408 | the wrapped difference is on the same meridian and in [-180, 180] for inputs in [-360, 360] |
| NightSide.IsOnNightSide | frontend/lfg/src/components/Map.jsx:401-410 | the loop-based test equals OnNightSide(lng, sunLon): the wrapped difference exceeds 90 in absolute value |
| NightSide.DifferenceInRange | frontend/lfg/src/components/Map.jsx:403-408 | after normalisation the final difference lies in [-180, 180] and differs from lng - sunLon by whole turns |
| NightSide.NightSideIsPeriodic | frontend/lfg/src/components/Map.jsx:401-410 | longitudes on the same meridian get the same verdict |
| NightSide.NightSideWholeTurns | frontend/lfg/src/components/Map.jsx:401-410 | lng and lng plus any number of 360-degree turns get the same verdict |
| NightSide.SunAndAntipode | frontend/lfg/src/components/Map.jsx:401-410 | the sub-solar longitude is never on the night side; the points 180 degrees away always are |
| NightSide.SameMeridianInRange | frontend/lfg/src/components/Map.jsx:403-405 | two longitudes in [-180, 180] on the same meridian are equal or are the pair -180/180 |
| AuroraMap.OvalLongitudes | frontend/lfg/src/components/Map.jsx:415 | the loop's geomagnetic longitudes run from -180 to 180 in steps of 5 |
| AuroraMap.OvalPoints | frontend/lfg/src/components/Map.jsx:415-420 | the loop yields exactly 73 points, point k being the rotation of geomagnetic longitude -180 + 5k |
| AuroraMap.NightFilterMembership | frontend/lfg/src/components/Map.jsx:421 | a point is kept exactly when it is an oval point on the night side |
| AuroraMap.NightFilterIsSubsequence | frontend/lfg/src/components/Map.jsx:421 | the night-side list is an order-preserving subsequence of the oval |
| AuroraMap.NightFilterIdempotent | frontend/lfg/src/components/Map.jsx:421 | filtering the night-side list again changes nothing |
| AuroraMap.FilterNightSide | frontend/lfg/src/components/Map.jsx:421 | the filter loop calling the night-side test produces exactly the night filter of the points |
| AuroraMap.OvalColourMatchesAuroraLevel | frontend/lfg/src/components/Map.jsx:422-424 | red exactly at Kp >= 7, amber exactly on [5, 7), purple below 5; red and amber coincide with the High and Moderate aurora levels |
| AuroraMap.AffectedCountries | frontend/lfg/src/components/Map.jsx:342-354 | the list is strictly sorted (so duplicate-free), a name is in it exactly when some point lies in that country's box, and no points give an empty list |
| AuroraMap.UpdateMap | frontend/lfg/src/components/Map.jsx:396-427 | the drawn path is the night filter of the 73-point oval, a polygon is drawn exactly when at least 2 points remain, the colour follows the Kp thresholds, and the affected list is sorted and holds exactly the countries the path touches |
| AuroraMap.NextFrame | frontend/lfg/src/components/Map.jsx:575 | the playback step keeps the slider in 0..71 and is (v + 1) mod 72 |
| AuroraMap.FramesRotate | frontend/lfg/src/components/Map.jsx:575 | k playback steps from v land on (v + k) mod 72 |
| AuroraMap.PlaybackPeriod | frontend/lfg/src/components/Map.jsx:575 | playback returns to its start after exactly 72 steps and not before |
| AuroraMap.NextSpeed | frontend/lfg/src/components/Map.jsx:593 | the speed toggle yields 150 or 500 and always changes a valid interval |
| AuroraMap.NextSpeedInvolution | frontend/lfg/src/components/Map.jsx:593 | toggling the speed twice restores it |
| AuroraMap.Scrubber.constructor | frontend/lfg/src/components/Map.jsx:326-328 | the scrubber starts at frame 0, paused, at 150 ms |
| AuroraMap.Scrubber.Tick | frontend/lfg/src/components/Map.jsx:571-579 | a timer tick while playing advances the slider by NextFrame and changes nothing else |
| AuroraMap.Scrubber.SlideTo | frontend/lfg/src/components/Map.jsx:591 | moving the slider sets the frame only |
| AuroraMap.Scrubber.ToggleAnimation | frontend/lfg/src/components/Map.jsx:592 | play/pause flips isPlaying only |
| AuroraMap.Scrubber.ToggleSpeed | frontend/lfg/src/components/Map.jsx:593 | the speed toggle switches between 150 and 500 ms only |
| AuroraMap.Scrubber.ResetToNow | frontend/lfg/src/components/Map.jsx:594-597 | reset stops playback and returns to frame 0, keeping the speed |
| KpScale.GeomagneticLatitude | backend/main.py:140-141 | the latitude lies in [50, 67.5]; it is 67.5 for Kp <= 0, 50 for Kp >= 7 and 67.5 - 2.5 Kp in between |
| KpScale.LatitudeNonIncreasing | ml/main1.py:127-130 | a larger Kp never raises the latitude |
| KpScale.LatitudeFloorExactlyFromSeven | ml/forecasting_logic.py:122-125 | the 50-degree floor is reached exactly when Kp >= 7 |
| KpScale.Thirds | backend/main.py:168-169 | round(3 clip(Kp, 0, 9)) lies in 0..27 |
| KpScale.BackendKpStringMeaning | backend/main.py:166-175 | for every number the string is a digit 0..9 and one of o, +, -; it reads back as round(3 clip(Kp, 0, 9)) / 3; and it is never "0-" |
| KpScale.KpStringIsNearestThird | backend/main.py:166-175 | the string's value is within 1/6 of the clipped Kp |
| KpScale.EncodersAgree | ml/main1.py:177-187 | the ML encoder equals the backend encoder on every number, and the digit never reaches 10, so the ">= 10" fix-up and min(..., 9) never act |
| KpScale.MissingValues | ml/forecasting_logic.py:191-192 | NaN gives "N/A" in both encoders, and a non-number gives "N/A" in the ML encoder |
| KpScale.KpStringEnds | backend/main.py:166-175 | Kp >= 9 gives "9o" and Kp <= 0 gives "0o" |
| KpScale.AuroraBands | ml/main1.py:189-194 | the level is High, Moderate, Low or Minimal exactly on Kp >= 7, [5, 7), [4, 5) and below 4; the radius is 25 + 5 per level |
| KpScale.RadiusFactorNonDecreasing | ml/forecasting_logic.py:203-208 | a larger Kp never shrinks the radius factor |
| KpScale.HighLevelIsLatitudeFloor | ml/main1.py:189-190 | the High level is exactly the case where the latitude sits on its 50-degree floor |
| KpScale.Confidence | ml/main1.py:170 | confidence lies in [0.3, 0.9], is 0.3 from hour 60 on and above 0.3 before |
| KpScale.ConfidenceNonIncreasing | ml/forecasting_logic.py:162 | confidence never rises with the hour |
| Forecast.FlattenAppend | ml/main1.py:118 | flattening distributes over concatenation of rows |
| Forecast.FlattenAt | ml/main1.py:118 | for rows of width w, entry k w + j of the flattened vector is column j of row k |
| Forecast.FlattenLength | ml/forecasting_logic.py:113 | rows of width w flatten to |rows| w values |
| Forecast.PreparePredictionData | ml/main1.py:111-125 | fewer than 18 rows is an InsufficientData error; a result always has the scaler's feature count |
| Forecast.PrepareUniformRows | ml/forecasting_logic.py:106-120 | with rows of one width w, preparation succeeds exactly when the scaler expects 18 w features, and the vector is the last 18 rows end to end |
| Forecast.RunForecastPipeline | ml/forecasting_logic.py:168-189 | a missing model is the first error; every prediction lies in [0, 9] |
| Forecast.PipelineOutcome | ml/main1.py:224-243 | the pipeline succeeds exactly when the model is loaded, the data fetched and the preparation succeeds, and the value is clip(predict(last 18 rows) / 10, 0, 9); its errors answer 503 only for a missing model and 500 otherwise (the 504 is re-raised as 500) |
| Forecast.DefaultReadingHasNoEffect | ml/main1.py:147-150 | missing Bz, speed and density columns contribute nothing |
| Forecast.SumOfDifferencesTelescopes | ml/main1.py:140 | the sum of consecutive differences is last minus first |
| Forecast.KpTrendIsAverageRise | ml/main1.py:138-143 | with 24 or more rows the trend is (last Kp - Kp 23 rows earlier) / 23; otherwise 0 |
| Forecast.MlForecast | ml/main1.py:133-174 | the loop yields exactly 72 points, point i being MlPointAt(i) |
| Forecast.MlStep | ml/main1.py:155-172 | one loop pass computes exactly MlPointAt(i) |
| Forecast.MlPointConsistent | ml/forecasting_logic.py:147-164 | each ML point has hour i, Kp in [0, 9], the clamp's latitude, a confidence in [0.3, 0.9] and a well-formed Kp string equal to the backend's, reading back as the nearest third |
| Forecast.FirstPointIsNoiseFree | ml/main1.py:158-161 | hour 0 has no noise and no trend: it does not depend on the noise source and is clip(baseKp + adjustment) |
| Forecast.BackendForecast | backend/main.py:143-164 | empty features give [] and otherwise exactly 72 points, point i being BackendPointAt(i) of the last row |
| Forecast.BackendStep | backend/main.py:152-163 | one loop pass computes exactly BackendPointAt(i) |
| Forecast.BackendPointConsistent | backend/main.py:155-162 | each backend point has Kp in [0, 9], no confidence, a latitude in [50, 67.5] and a Kp string within 1/6 of its Kp |
| Forecast.ForecastIndex | ml/main1.py:280 | min(int(offset), n - 1) is a valid index, the offset's whole hour below n, and n - 1 beyond |
| Forecast.ForecastForTime | ml/main1.py:273-282 | an offset outside [0, 72] is rejected before the pipeline runs; pipeline errors pass through; otherwise the forecast is generated from the pipeline's predicted Kp and features, and the answer is its point at the offset's whole hour (hour 71 at 72), MlPointAt of that hour, with the aurora details of that point's Kp |
| Forecast.LatitudeEndpoint | ml/main1.py:285-288 | Kp outside [0, 9] is rejected with 400; otherwise the Kp itself, the clamp's latitude, a well-formed Kp string and the aurora details of that Kp |
| Aviation.DropMissingKeepsParsedRows | backend/main.py:329-332 | a row survives dropna exactly when both its Kp and its time parsed |
| Aviation.AuroraOvalPoints | backend/main.py:225-233 | the loop yields exactly the 37-point circle at the given latitude |
| Aviation.GridShape | backend/main.py:225-233 | the circle has 37 points, longitudes strictly ascending from -180 to 180, every latitude the input |
| Aviation.SignificantRows | backend/main.py:337-354 | a scanned row gives a block exactly when its Kp is at least 4 and its affected-region set is non-empty: every block row qualifies and no qualifying row is skipped |
| Aviation.SignificantIsSubsequence | backend/main.py:336-356 | the blocks follow the order of the scanned rows: the selection is an order-preserving subsequence of them |
| Aviation.QuietRowsGiveNothing | backend/main.py:338 | with every Kp below 4 there is no block |
| Aviation.RussiaNeverAffected | backend/main.py:190 | the aviation Russia row never appears among affected regions |
| Aviation.AnalyseRow | backend/main.py:338-354 | a row gives a block exactly when Kp >= 4 and some night-side circle point lies in an aviation region, and the block's names are sorted and are exactly those regions |
| Aviation.AnalyseRows | backend/main.py:336-354 | the loop gives one block per significant row, in order |
| Aviation.AviationForecast | backend/main.py:316-372 | fewer than 2 rows answers 500; with no significant row among the first 8 cleaned rows the calm report; otherwise one block per significant row |
| Pricing.CalculatePremium | frontend/lfg/src/insurance/Satellite.js:7-11 | PP = cost rf, RM = PP / 5, total = PP + RM + EL = 1.26 cost rf + 10000 |
| Pricing.PremiumFloor | frontend/lfg/src/insurance/PowerGrids.js:7-11 | for non-negative inputs the total and EL are at least 10000, and the total is exactly 10000 at rf = 0 |
| Pricing.PremiumMonotone | frontend/lfg/src/insurance/Aviation.js:7-11 | the total never decreases in cost or in rf |
| Pricing.SatellitePremiums | frontend/lfg/src/insurance/Satellite.js:22-43 | the four tiers cost 671500 < 10090000 < 13240000 < 22690000 |
| Pricing.GridPremiums | frontend/lfg/src/insurance/PowerGrids.js:22-29 | the grids cost 138610000 and 703000, centralised above microgrid |
| Pricing.AviationPremium | frontend/lfg/src/insurance/Aviation.js:22 | the A320 tier costs 1900000 |
| Simulation.AnomalyProbability | frontend/lfg/src/components/Sim.jsx:60-61 | the probability is non-negative, is 0 or the linear formula, and is at most 80 for shielding >= 0 and orbit >= 300 |
| Simulation.ProbabilityNonIncreasing | frontend/lfg/src/components/Sim.jsx:61 | more shielding or a higher orbit never raises the probability |
| Simulation.ProbabilityVanishes | frontend/lfg/src/components/Sim.jsx:61 | the probability is 0 exactly when shielding / 2 + (orbit - 300) / 10 >= 80; the defaults give 15 |
| Simulation.Downtime | frontend/lfg/src/components/Sim.jsx:62 | downtime is within 1/2 of 0.8 p and non-negative for p >= 0 |
| Simulation.SuggestedPremium | frontend/lfg/src/components/Sim.jsx:63 | the premium is 500 plus the rounded value 15 p / 100, at least 500 for non-negative inputs |
| Simulation.PremiumNonDecreasingInValue | frontend/lfg/src/components/Sim.jsx:63 | a dearer asset never lowers the premium |
| Simulation.SingleAsset | frontend/lfg/src/components/Sim.jsx:58-70 | the panel shows the probability, a non-negative downtime and a premium of at least 500 |
| Simulation.NoRiskNoCost | frontend/lfg/src/components/Sim.jsx:60-63 | with zero probability, the downtime is 0 and the premium is exactly 500 |
| Simulation.StormExponent | frontend/lfg/src/components/Sim.jsx:76-81 | the Gaussian exponent is never positive and is 0 exactly at the peak hour |
| Simulation.StormExponentSymmetric | frontend/lfg/src/components/Sim.jsx:81 | the exponent is symmetric about duration / 2 |
| Simulation.StormCurve | frontend/lfg/src/components/Sim.jsx:74-86 | the loop yields duration + 1 points, point k at hour k with value StormPointAt(k) |
| Simulation.StormPeak | frontend/lfg/src/components/Sim.jsx:76-82 | for even durations the middle hour carries exactly the peak Kp, and hours equally far from it carry equal values |
| Simulation.StormBetweenBaseAndPeak | frontend/lfg/src/components/Sim.jsx:82 | with exp of a non-positive value in (0, 1], every value lies between the base Kp 2 and the peak |
| Simulation.InitialPortfolioTotal | frontend/lfg/src/components/Sim.jsx:28-34 | the starting portfolio's risks sum to 100 |
| Simulation.ReductionFactor | frontend/lfg/src/components/Sim.jsx:94 | the factor lies in [0, 0.5] on the slider's range: 0 at no budget, 0.5 at 100000 |
| Simulation.MitigatedRisk | frontend/lfg/src/components/Sim.jsx:98 | the mitigated risk lies in [0, risk] for a non-negative budget |
| Simulation.MitigatedRiskIsScaled | frontend/lfg/src/components/Sim.jsx:98 | the share-of-total detour cancels: the result is risk (1 - factor); budget 0 keeps the risk and 100000 halves it |
| Simulation.Mitigate | frontend/lfg/src/components/Sim.jsx:96-99 | the map keeps each asset's id, risk, value and position and adds its mitigated risk |
| Simulation.TotalOfScaled | frontend/lfg/src/components/Sim.jsx:104 | if each asset's mitigated risk is its risk times g, so is the total |
| Simulation.MitigateKeepsTotal | frontend/lfg/src/components/Sim.jsx:103 | mapping keeps the total of the original risks |
| Simulation.TotalMitigatedIsScaled | frontend/lfg/src/components/Sim.jsx:103-104 | over non-negative risks, total mitigated = total initial (1 - factor) |
| Simulation.ReductionPercentOfBudget | frontend/lfg/src/components/Sim.jsx:236 | on the page's portfolio, mitigated total <= initial total and the reduction shown is budget / 2000 percent, within [0, 50] |
| Checkout.ToggleCurrency | frontend/lfg/src/components/Premium.jsx:147 | the toggle always changes the currency |
| Checkout.ToggleTwiceIsIdentity | frontend/lfg/src/components/Premium.jsx:147 | toggling twice restores the currency |
| Checkout.AmountToCharge | frontend/lfg/src/components/Premium.jsx:32-34 | USD charges the dollar price; INR charges price times 83.33, rounded to within 1/2; non-negative prices give non-negative amounts |
| Checkout.MinorUnits | frontend/lfg/src/components/Premium.jsx:47 | the posted amount is a multiple of 100 whose hundredth is the amount charged |
| Checkout.HalfExpandRound | frontend/lfg/src/components/Premium.jsx:138 | rounding with no fraction digits lands within 1/2 of the value |
| Checkout.DisplayedPriceIsCharged | frontend/lfg/src/components/Premium.jsx:133-140 | the formatted price on a plan card is the amount the pay button charges |
| Checkout.SelectedPlan | frontend/lfg/src/components/Premium.jsx:130 | find returns a plan exactly when one has the id, and that plan is in the list with that id |
| Checkout.OtherPlans | frontend/lfg/src/components/Premium.jsx:131 | filter keeps exactly the plans with another id |
| Checkout.SelectedAt | frontend/lfg/src/components/Premium.jsx:130 | with unique ids, find returns the plan at the id's index |
| Checkout.OthersWithoutIndex | frontend/lfg/src/components/Premium.jsx:131 | with unique ids, filter is the list without the selected index, order kept |
| Checkout.SelectionPartitions | frontend/lfg/src/components/Premium.jsx:130-131 | selection plus others partition the plans, others having one fewer element |
| Checkout.DefaultSelection | frontend/lfg/src/components/Premium.jsx:119-131 | the five ids are unique; the default selects Enterprise and leaves the other four in order |
| Checkout.SwitchPlan | frontend/lfg/src/components/Premium.jsx:227-231 | clicking another plan selects it and moves the previous selection into the others list |
| Checkout.RupeeAmounts | frontend/lfg/src/components/Premium.jsx:122-128 | the rupee amounts of the five plans are 166660, 416650, 833300, 83330000 and 833300000 |
| Checkout.AfterSubmit | frontend/lfg/src/components/Premium.jsx:37-78 | missing stripe/elements leaves processing true; success clears the error, stops processing and sets succeeded; a decline sets "Payment failed: ..."; a backend or network error sets an error and keeps succeeded |
| Checkout.SubmitProperties | frontend/lfg/src/components/Premium.jsx:53-77 | success is never undone, a completed request ends processing, succeeded after submit exactly when it was before or the payment went through, and an absent backend message falls back to the default text |
| Checkout.DisabledStates | frontend/lfg/src/components/Premium.jsx:102 | the button is disabled after a not-ready submit and after success, and re-enabled after a failure when nothing had succeeded |
| Checkout.PaymentForm.constructor | frontend/lfg/src/components/Premium.jsx:28-30 | the form starts with no error, not processing, not succeeded |
| Checkout.PaymentForm.Submit | frontend/lfg/src/components/Premium.jsx:37-78 | handleSubmit updates the form's fields to AfterSubmit of the old state |

## Left out

- Spherical rotation: the geomagnetic-to-geographic rotation of the oval (asin/atan2) is the parameter `rotate`.
- Night test: the backend's solar-elevation test is the parameter `isNight`.
- Solar terminator: the terminator polyline and its computation are not modelled.
- Transcendentals and randomness: `exp` in the forecasts and the storm curve is a parameter, and so is the random noise.
- Noise scale: the ML noise's standard deviation (the Kp volatility) is not modelled, because the noise is an arbitrary function of the hour.
- Feature pipeline: pandas and numpy DataFrame building, resampling, interpolation, rolling features and the scaler's transform are not modelled. The forecast loops receive the latest row as a `Reading`, and the trend as the mean step of the Kp column.
- Prediction: the model's predict is the parameter `predict`.
- Historical output: the historical 24-hour list and the legacy forecast endpoint are not modelled.
- I/O and scheduling: fetches, timeouts, polling, retries and timers are not modelled. Tick models one timer firing.
- External services: Google Maps objects, the Gemini text generation, Twilio, Stripe and FastAPI routing are not modelled.
- Aviation output: the language-model call that turns blocks into prose, and block time formatting, are not modelled.
- Aviation.AviationForecast: NOAA data that is empty or shorter than 2 rows raises 503 inside the try block, and the handler re-raises every exception as 500. The model returns that 500.
- Formatting: toLocaleString, toFixed, round(..., 2), strftime and isoformat are not modelled. Values are exact reals.
- Floating point: IEEE-754 effects are not modelled. In particular, 83.33 and 0.02 are exact here.
- NaN queries: the model's offset and Kp are real numbers, so NaN is not modelled. A NaN passes both range guards (`ml/main1.py:275` and `ml/main1.py:286`). `/api/forecast/time/nan` then fails in `int(nan)` and is answered with 500. `/api/geomagnetic/latitude/nan` is answered with 200, latitude 50, Kp string "N/A" and level Minimal. Forecast.ForecastForTime and Forecast.LatitudeEndpoint describe only numeric queries.
- Forecast.RunForecastPipeline: `ml/forecasting_logic.py` raises plain exceptions rather than HTTP errors. The failure kind is modelled; the exception text is not.
- Forecast.PreparePredictionData: the check against the scaler's n_features_in_ is on the flattened width. The scaling itself belongs to `predict`.
- Simulation.Mitigate: it requires a non-zero total risk, because a zero total makes the page compute NaN. The page's portfolio totals 100 (Simulation.InitialPortfolioTotal).
- Simulation.StormCurve: it requires a positive duration, because the slider's range starts at 6 and a zero duration divides by zero in the page.
- Checkout.PaymentForm.Submit: the onPaymentSuccess callback into the page and the card element are not modelled. What the backend and card processor answer is the `SubmitOutcome` argument.
- Pages with no logic: the Dashboard, Analysis, Alerts, Learning, About, Landing, Navbar, Footer and Chatbot pages are not part of this model, and neither are the chatbot server and the dummy-model script.
