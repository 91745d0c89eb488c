# Crop yield calculator: a verified model

This project models the computational core of a crop-yield web
application, the module `src/lib/yieldCalculator.ts`. The module has three
parts:

- **Input validators.** `validateFieldData` and `validateFieldConditions`
  walk a fixed list of required field names. Each reports the first field
  that is absent, `undefined`, `null` or the empty string, or returns `null`
  when none is (`validation.dfy`).
- **Yield estimator.** `calculateYield` works in these steps
  (`yield_estimator.dfy`):
  - it looks up a base yield per crop, falling back to 2000;
  - it sums an adjustment from seven threshold rules and clamps it to
    [-0.5, 1.0];
  - it rounds `base * area * (1 + adjustment)`;
  - it derives an accuracy score from the distance to pH 7, 20 degrees C
    and 60 % humidity, capped at 0.3;
  - it builds an ordered suggestion list from twelve rules, pads it with a
    generic message when fewer than three fire, and keeps the first five.
- **Crop recommender.** `recommendCrops` scores each of seven catalog crops
  against a table of optimal ranges (`crop_recommender.dfy`):
  - the score starts at 1.0 and gains or loses an amount per range;
    rainfall below its range costs more than rainfall above it;
  - a nitrogen-tier bonus and a joint phosphorus/potassium bonus are added;
  - the score is clamped to [0.1, 1.0] and rounded to hundredths;
  - each crop gets the reasons of the rules that fired, or one generic
    reason when none did;
  - each crop's yield comes from the estimator;
  - the list is sorted in place by descending score. The sort is stable, so
    ties keep catalog order.

The parts of the source that work by updating variables are imperative
methods:

- the validators' loop with early return;
- the running `totalAdjustment`;
- the `push`es onto the suggestion list;
- the per-crop score and reasons accumulation;
- filling the result array;
- the in-place sort.

Each such method is proved against a specification. `CalculateYield`,
`ScoreCrop` and `SortBySuitability` return exactly `Prediction`,
`Recommendation` and `SortSeq` of their inputs. `FindMissing` reports
`None` iff every field is present, and otherwise a field satisfying the
`FirstMissing` predicate. The properties are proved about those
functions and that predicate.

Modelling choices:

- Numbers are exact `real`s.
- `Math.round(x)` is `Floor(x + 0.5)`, which is ECMAScript's
  round-half-towards-positive-infinity.
- `Math.round(x * 100) / 100` is `RoundTo2`.
- Messages and reasons are tags. The values they interpolate are kept as
  tag arguments.
- A partially filled record is a map from field names to
  `Undefined | Null | Text | Number`. A key the map lacks stands for an
  absent property.

## Model

| member | source | states |
|---|---|---|
| Numeric.Clamp | src/lib/yieldCalculator.ts:120 | `Math.max(lo, Math.min(hi, x))` lies in [lo, hi]; it is x inside the interval and the nearer end outside it |
| Numeric.Round | src/lib/yieldCalculator.ts:122 | `Math.round` gives the integer within half a unit, a half rounding up |
| Numeric.RoundTo2 | src/lib/yieldCalculator.ts:128 | `Math.round(x * 100) / 100` is a whole number of hundredths within half a hundredth of x (above x - 0.005, at most x + 0.005), which determines it |
| Numeric.Abs | src/lib/yieldCalculator.ts:125 | `Math.abs` is non-negative and is x or -x |
| Numeric.Min | src/lib/yieldCalculator.ts:128 | `Math.min` is below both arguments and is one of them |
| Validation.FindMissing | src/lib/yieldCalculator.ts:60-64 | the loop returns nothing iff every required field is present; otherwise it returns the first field in list order that is absent, undefined, null or "" |
| Validation.ValidateFieldData | src/lib/yieldCalculator.ts:54-67 | null iff all ten fields are present; otherwise the error names the first missing field in the order crop_type, season, …, humidity |
| Validation.ValidateFieldConditions | src/lib/yieldCalculator.ts:210-223 | the same over the nine fields without crop_type; it never names crop_type |
| Validation.FirstMissingUnique | src/lib/yieldCalculator.ts:60-64 | at most one field is "the first missing one", so the error is determined by the record |
| Validation.OnlyMissingFieldIsReported | src/lib/yieldCalculator.ts:60-64 | when exactly one required field is missing, that is the field reported |
| Validation.Present | src/lib/yieldCalculator.ts:61 | a field passes when its key is in the record and its value is neither `undefined`, `null` nor the empty string |
| Validation.FirstMissing | src/lib/yieldCalculator.ts:60-64 | `f` sits at some position of the required list, is not present, and every field before it is present |
| Validation.IndexOf | src/lib/yieldCalculator.ts:60 | the position of the first occurrence of a field in the list; used to pick the first missing field |
| Validation.FieldDataFields | src/lib/yieldCalculator.ts:55-58 | the ten required field names of `validateFieldData`, in the order they are checked |
| Validation.FieldConditionsFields | src/lib/yieldCalculator.ts:211-214 | the nine required field names of `validateFieldConditions`, in the order they are checked |
| Validation.RequiredFieldLists | src/lib/yieldCalculator.ts:55-58 | the field-data list names every field exactly once, with crop_type first; the field-conditions list (211-214) is that list without crop_type |
| YieldEstimator.BaseYield | src/lib/yieldCalculator.ts:70 | the crop's `BASE_YIELDS` entry, or 2000 for a crop not in the table; always positive |
| YieldEstimator.BaseYields | src/lib/yieldCalculator.ts:44-52 | `BASE_YIELDS`: wheat 2000, corn 2500, rice 1800, soybeans 1200, cotton 800, barley 1900, sunflower 1100 |
| YieldEstimator.PHTerm | src/lib/yieldCalculator.ts:74-79 | +0.10 when pH is in [6.5, 7.5], otherwise -0.05 |
| YieldEstimator.NitrogenTerm | src/lib/yieldCalculator.ts:81-86 | +0.002 per kg above 50, otherwise -0.001 per kg below 50 |
| YieldEstimator.PhosphorusTerm | src/lib/yieldCalculator.ts:88-91 | +0.001 per unit above 30, otherwise nothing |
| YieldEstimator.PotassiumTerm | src/lib/yieldCalculator.ts:93-96 | +0.001 per unit above 30, otherwise nothing |
| YieldEstimator.RainfallTerm | src/lib/yieldCalculator.ts:98-103 | +0.003 per mm above 300, otherwise -0.002 per mm below 300 |
| YieldEstimator.TemperatureTerm | src/lib/yieldCalculator.ts:105-110 | +0.002 per degree above 20, otherwise -0.003 per degree below 20 |
| YieldEstimator.HumidityTerm | src/lib/yieldCalculator.ts:112-117 | +0.001 per point above 60, otherwise -0.002 per point below 60 |
| YieldEstimator.Adjustment | src/lib/yieldCalculator.ts:72-117 | the running total before the clamp: the sum of the seven terms, starting from 0 |
| YieldEstimator.YieldAt | src/lib/yieldCalculator.ts:122 | `base * area * (1 + adjustment)` before `Math.round` |
| YieldEstimator.ExactYield | src/lib/yieldCalculator.ts:70-122 | the unrounded yield: the record's base yield and area with the clamped adjustment |
| YieldEstimator.PredictedYield | src/lib/yieldCalculator.ts:122 | `predicted_yield`: the exact yield rounded by `Math.round` |
| YieldEstimator.Fires | src/lib/yieldCalculator.ts:133-179 | the trigger of each of the twelve pushes, on the raw inputs. Lime fires for pH below 6.5 and sulfur above 7.5, the two arms of the nested `if` at 141-147. The crop rules compare `crop_type` with their crop |
| YieldEstimator.SuggestionRules | src/lib/yieldCalculator.ts:133-179 | the twelve suggestions in the order their `if` blocks run |
| YieldEstimator.SuggestionRulesTable | src/lib/yieldCalculator.ts:133-179 | twelve rules, none repeated, and every suggestion except the generic message has one |
| YieldEstimator.PushIfFires | src/lib/yieldCalculator.ts:133-179 | one `if (...) suggestions.push(...)`: the rule's suggestion appended when it fires |
| YieldEstimator.FiredAmong | src/lib/yieldCalculator.ts:133-179 | the list after the first n `if`-push blocks, in source order |
| YieldEstimator.Fired | src/lib/yieldCalculator.ts:133-179 | the list after all twelve blocks |
| YieldEstimator.Padded | src/lib/yieldCalculator.ts:181-183 | the generic "maintain current practices" message appended when fewer than three suggestions were pushed |
| YieldEstimator.Suggestions | src/lib/yieldCalculator.ts:189 | `optimization_suggestions`: the first five of the padded list |
| YieldEstimator.Prediction | src/lib/yieldCalculator.ts:185-190 | the returned record: predicted yield, unit `kg/acre`, accuracy score and suggestions |
| YieldEstimator.ClampedAdjustment | src/lib/yieldCalculator.ts:72-120 | the summed adjustment pulled into [-0.5, 1.0]; unchanged when already inside |
| YieldEstimator.TotalAdjustment | src/lib/yieldCalculator.ts:72-120 | the seven `+=`/`-=` rules and the clamp, applied to a running total, give exactly the clamped sum of the seven rule terms |
| YieldEstimator.YieldFor | src/lib/yieldCalculator.ts:122 | the rounded yield step equals `PredictedYield` |
| YieldEstimator.Deviation | src/lib/yieldCalculator.ts:125-127 | the summed relative deviation is non-negative |
| YieldEstimator.AccuracyScore | src/lib/yieldCalculator.ts:125-128 | always within [0.70, 1.00]; exactly 1.00 iff the deviation is at most 0.005, in particular at pH 7, 20 degrees C and 60 % humidity |
| YieldEstimator.AccuracyFor | src/lib/yieldCalculator.ts:125-128 | the accuracy step equals `AccuracyScore` |
| YieldEstimator.FirstFive | src/lib/yieldCalculator.ts:189 | `slice(0, 5)` is a prefix of the list: the whole list when that has at most five entries, exactly the first five otherwise |
| YieldEstimator.AddFieldConditionSuggestions | src/lib/yieldCalculator.ts:131-151 | after the irrigation, nitrogen, lime/sulfur and heat rules, the list holds exactly the first five rules' suggestions that fire, in rule order |
| YieldEstimator.AddCropSpecificSuggestions | src/lib/yieldCalculator.ts:153-171 | the five crop-specific rules extend that to the first ten rules |
| YieldEstimator.AddNutrientSuggestions | src/lib/yieldCalculator.ts:173-179 | the phosphorus and potassium rules extend it to all twelve |
| YieldEstimator.CalculateYield | src/lib/yieldCalculator.ts:69-190 | the whole step-by-step computation returns `Prediction(d)` |
| YieldEstimator.YieldAtBetween | src/lib/yieldCalculator.ts:122 | for non-negative base and area and an adjustment in [-0.5, 1.0], the rounded yield lies between the rounded yields at factors 0.5 and 2.0 and is non-negative |
| YieldEstimator.YieldBounds | src/lib/yieldCalculator.ts:72-122 | for area >= 0 the predicted yield lies between round(base*area*0.5) and round(base*area*2.0) and is never negative |
| YieldEstimator.AdjustmentFromReadings | src/lib/yieldCalculator.ts:74-117 | the adjustment depends only on pH, N, P, K, rainfall, temperature and humidity |
| YieldEstimator.YieldAtMonotone | src/lib/yieldCalculator.ts:122 | the rounded formula does not decrease with the area |
| YieldEstimator.AreaMonotone | src/lib/yieldCalculator.ts:122 | a larger area, all else equal, never predicts a smaller yield |
| YieldEstimator.YieldAtDouble | src/lib/yieldCalculator.ts:122 | the formula is linear in the area |
| YieldEstimator.AreaDoubling | src/lib/yieldCalculator.ts:122 | doubling the area doubles the predicted yield to within one unit of rounding |
| YieldEstimator.FiredAmongAgree | src/lib/yieldCalculator.ts:133-179 | two records on which every rule fires alike get the same suggestions |
| YieldEstimator.SeasonIrrelevant | src/lib/yieldCalculator.ts:69-190 | changing the season changes no part of the result |
| YieldEstimator.Rank | src/lib/yieldCalculator.ts:133-179 | each suggestion's position in the rule order; the generic message ranks after all rules |
| YieldEstimator.RankOfRule | src/lib/yieldCalculator.ts:133-179 | rank and rule order agree |
| YieldEstimator.FiredAmongMembers | src/lib/yieldCalculator.ts:133-179 | after the first n rules, a suggestion is in the list iff its rule fires and is among the first n |
| YieldEstimator.FiredAmongOrdered | src/lib/yieldCalculator.ts:133-179 | after the first n rules, the list has at most n entries, in strictly increasing rule order |
| YieldEstimator.NoneFired | src/lib/yieldCalculator.ts:133-179 | when none of the first n rules fires, the list is empty |
| YieldEstimator.FiredSpec | src/lib/yieldCalculator.ts:133-179 | a suggestion is pushed iff its rule fires; the pushed ones come in rule order, each once |
| YieldEstimator.SuggestionsShape | src/lib/yieldCalculator.ts:131-189 | one to five suggestions. With k <= 2 fired rules, the result is those k plus the generic message. Otherwise it is the first min(k, 5) fired, in rule order. It is a prefix of the untruncated list. The generic message appears iff k < 3, and every other entry's rule fired |
| YieldEstimator.LimeSulfurExclusive | src/lib/yieldCalculator.ts:141-147 | lime and sulfur never appear together, and neither appears when pH is in [6.5, 7.5] |
| YieldEstimator.WheatExample | src/lib/yieldCalculator.ts:69-190 | wheat, 10 acres, pH 6.8, N 55, P 35, K 40, 320 mm, 22 degrees C, 65 %: adjustment 0.194, yield 23880 kg/acre, accuracy 0.79, only the generic message |
| CropRecommender.NitrogenThreshold | src/lib/yieldCalculator.ts:268-269 | the low/medium/high tiers ask for 40 to 80 kg/ha |
| CropRecommender.CropConditions | src/lib/yieldCalculator.ts:194-208 | `CROP_CONDITIONS`: each crop's optimal pH, temperature, rainfall and humidity ranges and its nitrogen tier, as in rows 201-207 |
| CropRecommender.Catalog | src/lib/yieldCalculator.ts:226 | `cropTypes`: wheat, corn, rice, soybeans, cotton, barley, sunflower, in that order |
| CropRecommender.TablesCoverCatalog | src/lib/yieldCalculator.ts:44-52 | `BASE_YIELDS` (44-52), `CROP_CONDITIONS` (201-207) and the catalog (226) name the same seven crops |
| CropRecommender.ProfilesWellFormed | src/lib/yieldCalculator.ts:201-207 | every optimal range in the table has its lower end strictly below its upper end |
| CropRecommender.Range.Contains | src/lib/yieldCalculator.ts:234 | `x >= lo && x <= hi`, both ends inclusive, as in every range test of 234-260 |
| CropRecommender.PHScore | src/lib/yieldCalculator.ts:234-239 | +0.15 inside the crop's pH range, otherwise -0.15 |
| CropRecommender.TemperatureScore | src/lib/yieldCalculator.ts:242-247 | +0.2 inside the temperature range, otherwise -0.2 |
| CropRecommender.RainfallScore | src/lib/yieldCalculator.ts:250-257 | +0.15 inside the rainfall range, -0.1 below it, -0.05 above it |
| CropRecommender.HumidityScore | src/lib/yieldCalculator.ts:260-265 | +0.1 inside the humidity range, otherwise -0.1 |
| CropRecommender.NitrogenAdequateFor | src/lib/yieldCalculator.ts:268-270 | nitrogen is at least 0.8 times the crop's tier threshold |
| CropRecommender.GoodNutrients | src/lib/yieldCalculator.ts:276 | phosphorus and potassium both at least 30 |
| CropRecommender.NitrogenScore | src/lib/yieldCalculator.ts:270-273 | +0.1 when nitrogen is adequate, otherwise nothing |
| CropRecommender.NutrientScore | src/lib/yieldCalculator.ts:276-279 | +0.1 when phosphorus and potassium are both good, otherwise nothing |
| CropRecommender.PHReason | src/lib/yieldCalculator.ts:234-236 | the "soil pH is ideal" reason, with the pH and the range, when the pH rule fires |
| CropRecommender.TemperatureReason | src/lib/yieldCalculator.ts:242-244 | the "temperature is excellent" reason, with the temperature, when that rule fires |
| CropRecommender.RainfallReason | src/lib/yieldCalculator.ts:250-252 | the "rainfall matches" reason, with the rainfall, when the reading is inside the range |
| CropRecommender.HumidityReason | src/lib/yieldCalculator.ts:260-262 | the humidity reason when that rule fires |
| CropRecommender.NitrogenReason | src/lib/yieldCalculator.ts:270-272 | the "nitrogen adequate" reason, with the crop's tier, when that rule fires |
| CropRecommender.NutrientReason | src/lib/yieldCalculator.ts:276-278 | the phosphorus/potassium reason when that rule fires |
| CropRecommender.MatchedReasons | src/lib/yieldCalculator.ts:231-279 | the `reasons` array after the six blocks: the fired rules' reasons in source order |
| CropRecommender.WithCrop | src/lib/yieldCalculator.ts:285 | `{ ...conditions, crop_type: cropType }`: the conditions with the crop added |
| CropRecommender.Recommendation | src/lib/yieldCalculator.ts:288-293 | the record for one crop: its name, `calculateYield`'s predicted yield for the conditions with that crop, the clamped and rounded score, and the reasons or the generic one |
| CropRecommender.RawSuitability | src/lib/yieldCalculator.ts:230-279 | the unclamped score is 1.0 plus the six contributions; it always lies in [0.45, 1.8] |
| CropRecommender.Suitability | src/lib/yieldCalculator.ts:282-291 | the clamped, rounded score is in [0.10, 1.00], in fact never below 0.45, and is 1.00 whenever the raw score reaches 1.0 |
| CropRecommender.MatchedReasonsBounds | src/lib/yieldCalculator.ts:231-278 | at most six reasons, one per rule, never the generic one |
| CropRecommender.Reasons | src/lib/yieldCalculator.ts:292 | one to six reasons; exactly the generic reason iff no rule gave one |
| CropRecommender.NoMatchedReasons | src/lib/yieldCalculator.ts:234-278 | no rule gives a reason iff pH, temperature, rainfall and humidity are all outside their ranges and neither nutrient bonus applies |
| CropRecommender.RecommendationFacts | src/lib/yieldCalculator.ts:285-293 | each record carries its crop, a score in [0.10, 1.00], one to six reasons (the generic one iff none fired), and `calculateYield({...conditions, crop_type}).predicted_yield` |
| CropRecommender.AssessConditions | src/lib/yieldCalculator.ts:230-279 | the six `if`s mutating the score and pushing reasons give `RawSuitability` and `MatchedReasons` |
| CropRecommender.ScoreCrop | src/lib/yieldCalculator.ts:228-293 | the per-crop closure returns `Recommendation(c, cropType)` |
| CropRecommender.InsertPermutation | src/lib/yieldCalculator.ts:297 | inserting an entry into the sorted prefix adds exactly that entry |
| CropRecommender.SortPermutation | src/lib/yieldCalculator.ts:297 | the stable sort is a permutation of its input |
| CropRecommender.InsertOrdered | src/lib/yieldCalculator.ts:297 | inserting an entry that comes later in the catalog than every entry of an ordered list keeps the list ordered |
| CropRecommender.SortOrdered | src/lib/yieldCalculator.ts:297 | sorting a list in catalog order gives descending scores, ties in catalog order |
| CropRecommender.InsertSplit | src/lib/yieldCalculator.ts:297 | the insertion lands right after the last entry scoring at least as much |
| CropRecommender.SortedFromInput | src/lib/yieldCalculator.ts:297 | every sorted entry comes from the input |
| CropRecommender.CatalogIndex | src/lib/yieldCalculator.ts:226 | a crop's position in the catalog; ties in score keep this order, since `map` builds the list in catalog order and the sort is stable |
| CropRecommender.IndexIn | src/lib/yieldCalculator.ts:226 | the position of the first occurrence of a name in a list, or the list's length when it is absent |
| CropRecommender.IndexInSpec | src/lib/yieldCalculator.ts:226 | that position is at most the length, is below it iff the name occurs, and then holds the name |
| CropRecommender.IndexInDistinct | src/lib/yieldCalculator.ts:226 | in a list without repeats, the name at position i is first found at i |
| CropRecommender.Before | src/lib/yieldCalculator.ts:297 | `a` precedes `b` in the sorted output: a higher score, or an equal score and an earlier catalog position |
| CropRecommender.Ordered | src/lib/yieldCalculator.ts:297 | every entry precedes every later one: descending score, ties in catalog order |
| CropRecommender.Insert | src/lib/yieldCalculator.ts:297 | one stable-insertion step: the entry goes behind every entry scoring at least as much |
| CropRecommender.SortSeq | src/lib/yieldCalculator.ts:297 | the stable descending sort, as insertion of each entry in input order |
| CropRecommender.SortStep | src/lib/yieldCalculator.ts:297 | one step of the sort keeps the multiset of entries and adds one to the length |
| CropRecommender.InsertAt | src/lib/yieldCalculator.ts:297 | one pass of the in-place insertion sort turns the first i+1 cells into the stable insertion of a[i] into the sorted prefix; the rest of the array is untouched |
| CropRecommender.SortBySuitability | src/lib/yieldCalculator.ts:297 | the in-place sort leaves the array equal to `SortSeq` of its old contents |
| CropRecommender.CatalogInTable | src/lib/yieldCalculator.ts:201-207 | every catalog crop has an optimal-conditions entry, so the lookup never fails |
| CropRecommender.CatalogRecommendations | src/lib/yieldCalculator.ts:226-294 | the `map` over the catalog gives one record per crop |
| CropRecommender.RecommendCrops | src/lib/yieldCalculator.ts:225-298 | the result is the stable sort of the per-crop records: seven entries, a permutation of them, by descending score with ties in catalog order |
| CropRecommender.CatalogOrderBeforeSort | src/lib/yieldCalculator.ts:226-228 | before sorting the records follow the catalog order |
| CropRecommender.RecommendationsOrdered | src/lib/yieldCalculator.ts:225-298 | exactly seven entries, a permutation of the per-crop records, each entry before the next by score or, at equal score, by catalog position |
| CropRecommender.CatalogEntries | src/lib/yieldCalculator.ts:228-294 | each record before sorting is the recommendation for its own catalog crop |
| CropRecommender.SortedEntriesAreRecommendations | src/lib/yieldCalculator.ts:225-298 | each sorted entry is a catalog crop's recommendation for the given conditions |
| CropRecommender.EveryCropRecommended | src/lib/yieldCalculator.ts:225-298 | every catalog crop appears in the result |
| CropRecommender.CatalogDistinct | src/lib/yieldCalculator.ts:226 | no crop is listed twice in the catalog |
| CropRecommender.CatalogPositions | src/lib/yieldCalculator.ts:226 | catalog position i holds the crop whose catalog index is i |
| CropRecommender.OrderedTop | src/lib/yieldCalculator.ts:297 | in an ordered list, an entry nobody outscores that is first in the catalog comes first |
| CropRecommender.FullScoreFirst | src/lib/yieldCalculator.ts:225-298 | when wheat, the first catalog crop, scores 1.00, it heads the result |
| CropRecommender.LowestScoreLast | src/lib/yieldCalculator.ts:225-298 | a crop scoring strictly below every other crop is last |
| CropRecommender.ExampleScores | src/lib/yieldCalculator.ts:230-292 | under the example conditions every crop but rice scores 1.00; rice scores 0.95 with exactly the temperature and phosphorus/potassium reasons |
| CropRecommender.ExampleRanking | src/lib/yieldCalculator.ts:225-298 | under the example conditions the result has seven entries, wheat first and rice last at 0.95 |

## Left out

- The React components and pages (forms, result views, header, toasts, the simulated delay) are UI. They are not part of this model.
- The form-side `parseFloat(...) || 0` coercion, the three-crop dropdown limit, the display cut of reasons to three, and the score labels and colours are input-widget or presentation behaviour.
- IEEE-754 doubles are not modelled. Numbers are exact reals, so no `0.1 + 0.2` drift, and no NaN or Infinity from malformed input. A threshold hit exactly in exact arithmetic may fall the other way in doubles.
- Message and reason texts, including the interpolated values' formatting, are tags. The interpolated pH, temperature, rainfall, range and nitrogen tier are kept as tag arguments.
- `YieldUnit` includes `tons/hectare` for completeness; the estimator always answers `kg/acre`, as the source does.
- `BASE_YIELDS[crop] || 2000` is modelled as "table entry if present, else 2000". The `||` would also replace a zero or NaN entry, but the table has none.
- The crop type is any string. The TypeScript union is erased at run time, and both tables are `Record<string, …>` lookups. `Recommendation` is only defined for crops in `CROP_CONDITIONS`, which is what `recommendCrops` calls it with.
- YieldEstimator.BaseYield: the 2000 fallback is promised only for crop names that are not `Object.prototype` members. `BASE_YIELDS` is a plain object literal, so for `constructor`, `toString`, `valueOf`, `hasOwnProperty`, `__proto__` and the other inherited names the lookup returns a function or object. `|| 2000` then does not apply, and `predicted_yield` is NaN. The model has no NaN and gives these names the 2000 fallback, like every other name outside the table. The model's crop type is a plain string with no prototype chain.
- Only the result of `Array.prototype.sort` is modelled, not the engine's algorithm. The comparator `b.score - a.score` is a consistent comparison, and sort is stable since ES2019. So every conforming engine returns the unique stable descending order. The model computes that order with an in-place insertion sort.
- The validators see a record as a map from field names to values. JavaScript prototype properties and getters are not modelled, here or in the `BASE_YIELDS` lookup (see the BaseYield line above).
- YieldEstimator.AreaMonotone: states that the yield never decreases with the area, not that it strictly increases. Strict increase is false for the code under rounding: for wheat at factor 1, areas 0.0001 and 0.0002 both predict 0. AreaDoubling gives the quantitative version.
- CropRecommender.Suitability: the 0.1 floor of the clamp is kept as written. Since the raw score is never below 0.45, the floor never applies.
- CropRecommender.RecommendCrops: the result is stated as a permutation of the seven per-crop records, together with the fact that every catalog crop appears. It is not stated as a permutation of the crop names.
