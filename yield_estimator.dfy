/**
 * The yield estimator `calculateYield`: a base yield per crop, an
 * adjustment summed from seven independent threshold rules and clamped to
 * [-0.5, 1.0], the predicted yield round(base * area * (1 + adjustment)),
 * an accuracy score from the distance to pH 7, 20 degrees C and 60 %
 * humidity, and an ordered, padded and truncated list of suggestions.
 */
module YieldEstimator {
  import opened Numeric

  /** One field's data; the crop type is the lower-case crop name. */
  datatype FieldData = FieldData(
    cropType: string,
    season: string,
    area: real,
    soilPH: real,
    nitrogen: real,
    phosphorus: real,
    potassium: real,
    rainfall: real,
    temperature: real,
    humidity: real)

  datatype YieldUnit = KgPerAcre | TonsPerHectare

  /** The optimisation suggestions, one tag per fixed message. */
  datatype Suggestion =
    | DripIrrigation
    | NitrogenFertilizer
    | AgriculturalLime
    | SulfurToLowerPH
    | ShadeOrCoolerPlanting
    | DroughtResilientCrop     // wheat under low rainfall
    | SoybeanLime              // soybeans under very acid soil
    | CottonWarmth             // cotton under low temperature
    | BarleyLodging            // barley under excess nitrogen
    | SunflowerDrainage        // sunflower under high humidity
    | MorePhosphorus
    | MorePotassium
    | MaintainPractices        // the generic filler, not a rule of its own

  datatype PredictionResult = PredictionResult(
    predictedYield: int,
    unit: YieldUnit,
    accuracyScore: real,
    suggestions: seq<Suggestion>)

  const BaseYields: map<string, real> := map[
    "wheat" := 2000.0,
    "corn" := 2500.0,
    "rice" := 1800.0,
    "soybeans" := 1200.0,
    "cotton" := 800.0,
    "barley" := 1900.0,
    "sunflower" := 1100.0]

  const DefaultBaseYield: real := 2000.0

  /** The table entry for the crop, or the default for a crop the table does not know. */
  function BaseYield(crop: string): (r: real)
    ensures r > 0.0
    ensures crop in BaseYields ==> r == BaseYields[crop]
    ensures crop !in BaseYields ==> r == DefaultBaseYield
  {
    if crop in BaseYields then BaseYields[crop] else DefaultBaseYield
  }

  // ---------------------------------------------------------------------
  // The adjustment: seven independent contributions, summed

  function PHTerm(pH: real): real
  {
    if 6.5 <= pH <= 7.5 then 0.10 else -0.05
  }

  function NitrogenTerm(n: real): real
  {
    if n > 50.0 then (n - 50.0) * 0.002 else -((50.0 - n) * 0.001)
  }

  function PhosphorusTerm(p: real): real
  {
    if p > 30.0 then (p - 30.0) * 0.001 else 0.0
  }

  function PotassiumTerm(k: real): real
  {
    if k > 30.0 then (k - 30.0) * 0.001 else 0.0
  }

  function RainfallTerm(mm: real): real
  {
    if mm > 300.0 then (mm - 300.0) * 0.003 else -((300.0 - mm) * 0.002)
  }

  function TemperatureTerm(t: real): real
  {
    if t > 20.0 then (t - 20.0) * 0.002 else -((20.0 - t) * 0.003)
  }

  function HumidityTerm(h: real): real
  {
    if h > 60.0 then (h - 60.0) * 0.001 else -((60.0 - h) * 0.002)
  }

  /** The unclamped adjustment: the sum of the seven rule contributions. */
  function Adjustment(d: FieldData): real
  {
    PHTerm(d.soilPH) + NitrogenTerm(d.nitrogen) + PhosphorusTerm(d.phosphorus)
      + PotassiumTerm(d.potassium) + RainfallTerm(d.rainfall)
      + TemperatureTerm(d.temperature) + HumidityTerm(d.humidity)
  }

  function ClampedAdjustment(d: FieldData): (r: real)
    ensures -0.5 <= r <= 1.0
    ensures -0.5 <= Adjustment(d) <= 1.0 ==> r == Adjustment(d)
  {
    Clamp(-0.5, 1.0, Adjustment(d))
  }

  /** base * area * (1 + adjustment): the yield formula before rounding. */
  function YieldAt(base: real, area: real, adjustment: real): real
  {
    base * area * (1.0 + adjustment)
  }

  /** The predicted yield before rounding. */
  function ExactYield(d: FieldData): real
  {
    YieldAt(BaseYield(d.cropType), d.area, ClampedAdjustment(d))
  }

  // ---------------------------------------------------------------------
  // The accuracy score

  /** Summed relative distance from pH 7, 20 degrees C and 60 % humidity. */
  function Deviation(d: FieldData): (r: real)
    ensures r >= 0.0
  {
    Abs(d.soilPH - 7.0) / 7.0 + Abs(d.temperature - 20.0) / 20.0 + Abs(d.humidity - 60.0) / 60.0
  }

  /**
   * 1 minus the deviation capped at 0.3, to two decimals: never below 0.70,
   * and exactly 1.00 when the deviation is at most half a hundredth.
   */
  function AccuracyScore(d: FieldData): (r: real)
    ensures 0.70 <= r <= 1.00
    ensures r == 1.00 <==> Deviation(d) <= 0.005
    ensures d.soilPH == 7.0 && d.temperature == 20.0 && d.humidity == 60.0 ==> r == 1.00
  {
    var raw := 1.0 - Min(0.3, Deviation(d));
    RoundTo2Within(70, 100, raw);
    RoundTo2(raw)
  }

  // ---------------------------------------------------------------------
  // Suggestions: an ordered table of rules, each with its own trigger

  /** The rules in the order they are evaluated. */
  const SuggestionRules: seq<Suggestion> := [
    DripIrrigation, NitrogenFertilizer, AgriculturalLime, SulfurToLowerPH,
    ShadeOrCoolerPlanting, DroughtResilientCrop, SoybeanLime, CottonWarmth,
    BarleyLodging, SunflowerDrainage, MorePhosphorus, MorePotassium]

  /** Each suggestion but the generic one has exactly one rule, and no rule repeats. */
  lemma SuggestionRulesTable()
    ensures |SuggestionRules| == 12
    ensures forall i, j :: 0 <= i < j < |SuggestionRules| ==> SuggestionRules[i] != SuggestionRules[j]
    ensures forall s: Suggestion :: s in SuggestionRules <==> s != MaintainPractices
  {
  }

  /** When the rule that gives suggestion `s` fires on the raw inputs. */
  predicate Fires(s: Suggestion, d: FieldData)
  {
    match s
    case DripIrrigation => d.rainfall < 200.0
    case NitrogenFertilizer => d.nitrogen < 40.0
    case AgriculturalLime => d.soilPH < 6.5
    case SulfurToLowerPH => 7.5 < d.soilPH
    case ShadeOrCoolerPlanting => 30.0 < d.temperature
    case DroughtResilientCrop => d.cropType == "wheat" && d.rainfall < 250.0
    case SoybeanLime => d.cropType == "soybeans" && d.soilPH < 6.0
    case CottonWarmth => d.cropType == "cotton" && d.temperature < 15.0
    case BarleyLodging => d.cropType == "barley" && 80.0 < d.nitrogen
    case SunflowerDrainage => d.cropType == "sunflower" && 80.0 < d.humidity
    case MorePhosphorus => d.phosphorus < 25.0
    case MorePotassium => d.potassium < 30.0
    case MaintainPractices => false
  }

  /** `s` with the suggestion of `rule` pushed on its end when the rule fires. */
  function PushIfFires(s: seq<Suggestion>, rule: Suggestion, d: FieldData): seq<Suggestion>
  {
    if Fires(rule, d) then s + [rule] else s
  }

  /** The suggestions of those of the first n rules that fire on `d`, in rule order. */
  function FiredAmong(n: nat, d: FieldData): seq<Suggestion>
    requires n <= |SuggestionRules|
  {
    if n == 0 then [] else PushIfFires(FiredAmong(n - 1, d), SuggestionRules[n - 1], d)
  }

  /** The suggestions of every rule that fires, in rule order. */
  function Fired(d: FieldData): seq<Suggestion>
  {
    FiredAmong(|SuggestionRules|, d)
  }

  /** The list before truncation: padded with the generic message when fewer than 3 rules fire. */
  function Padded(d: FieldData): seq<Suggestion>
  {
    var fired := Fired(d);
    if |fired| < 3 then fired + [MaintainPractices] else fired
  }

  /** `slice(0, 5)`: the first five entries, or the whole list when it is shorter. */
  function FirstFive(s: seq<Suggestion>): (r: seq<Suggestion>)
    ensures |r| <= 5
    ensures r <= s
    ensures |s| <= 5 ==> r == s
    ensures |s| > 5 ==> |r| == 5
  {
    if |s| <= 5 then s else s[..5]
  }

  function Suggestions(d: FieldData): seq<Suggestion>
  {
    FirstFive(Padded(d))
  }

  /** The predicted yield in kg per acre. */
  function PredictedYield(d: FieldData): int
  {
    Round(ExactYield(d))
  }

  /** What `calculateYield` returns for `d`. */
  function Prediction(d: FieldData): PredictionResult
  {
    PredictionResult(PredictedYield(d), KgPerAcre, AccuracyScore(d), Suggestions(d))
  }

  // ---------------------------------------------------------------------
  // The adjustment, as a running total

  /** The seven adjustment rules applied in turn to a running total, then the clamp. */
  method TotalAdjustment(d: FieldData) returns (totalAdjustment: real)
    ensures totalAdjustment == ClampedAdjustment(d)
  {
    totalAdjustment := 0.0;
    if 6.5 <= d.soilPH && d.soilPH <= 7.5 {
      totalAdjustment := totalAdjustment + 0.10;
    } else {
      totalAdjustment := totalAdjustment - 0.05;
    }
    assert totalAdjustment == PHTerm(d.soilPH);
    if d.nitrogen > 50.0 {
      totalAdjustment := totalAdjustment + (d.nitrogen - 50.0) * 0.002;
    } else {
      totalAdjustment := totalAdjustment - (50.0 - d.nitrogen) * 0.001;
    }
    assert totalAdjustment == PHTerm(d.soilPH) + NitrogenTerm(d.nitrogen);
    if d.phosphorus > 30.0 {
      totalAdjustment := totalAdjustment + (d.phosphorus - 30.0) * 0.001;
    }
    assert totalAdjustment == PHTerm(d.soilPH) + NitrogenTerm(d.nitrogen) + PhosphorusTerm(d.phosphorus);
    if d.potassium > 30.0 {
      totalAdjustment := totalAdjustment + (d.potassium - 30.0) * 0.001;
    }
    assert totalAdjustment == PHTerm(d.soilPH) + NitrogenTerm(d.nitrogen) + PhosphorusTerm(d.phosphorus) + PotassiumTerm(d.potassium);
    if d.rainfall > 300.0 {
      totalAdjustment := totalAdjustment + (d.rainfall - 300.0) * 0.003;
    } else {
      totalAdjustment := totalAdjustment - (300.0 - d.rainfall) * 0.002;
    }
    assert totalAdjustment == PHTerm(d.soilPH) + NitrogenTerm(d.nitrogen) + PhosphorusTerm(d.phosphorus) + PotassiumTerm(d.potassium) + RainfallTerm(d.rainfall);
    if d.temperature > 20.0 {
      totalAdjustment := totalAdjustment + (d.temperature - 20.0) * 0.002;
    } else {
      totalAdjustment := totalAdjustment - (20.0 - d.temperature) * 0.003;
    }
    assert totalAdjustment == PHTerm(d.soilPH) + NitrogenTerm(d.nitrogen) + PhosphorusTerm(d.phosphorus) + PotassiumTerm(d.potassium) + RainfallTerm(d.rainfall) + TemperatureTerm(d.temperature);
    if d.humidity > 60.0 {
      totalAdjustment := totalAdjustment + (d.humidity - 60.0) * 0.001;
    } else {
      totalAdjustment := totalAdjustment - (60.0 - d.humidity) * 0.002;
    }
    assert totalAdjustment == PHTerm(d.soilPH) + NitrogenTerm(d.nitrogen) + PhosphorusTerm(d.phosphorus) + PotassiumTerm(d.potassium) + RainfallTerm(d.rainfall) + TemperatureTerm(d.temperature) + HumidityTerm(d.humidity);
    totalAdjustment := Clamp(-0.5, 1.0, totalAdjustment);
  }

  /** The yield step of `calculateYield`: base production times area, adjusted, rounded. */
  method YieldFor(d: FieldData) returns (predictedYield: int)
    ensures predictedYield == PredictedYield(d)
  {
    var baseYield := BaseYield(d.cropType);
    var totalAdjustment := TotalAdjustment(d);
    predictedYield := Round(YieldAt(baseYield, d.area, totalAdjustment));
  }

  /** The accuracy step of `calculateYield`: three relative deviations, capped, to two decimals. */
  method AccuracyFor(d: FieldData) returns (accuracyScore: real)
    ensures accuracyScore == AccuracyScore(d)
  {
    var phDeviation := Abs(d.soilPH - 7.0) / 7.0;
    var tempDeviation := Abs(d.temperature - 20.0) / 20.0;
    var humidityDeviation := Abs(d.humidity - 60.0) / 60.0;
    accuracyScore := RoundTo2(1.0 - Min(0.3, phDeviation + tempDeviation + humidityDeviation));
    assert phDeviation + tempDeviation + humidityDeviation == Deviation(d);
  }

  // ---------------------------------------------------------------------
  // The suggestion rules, pushed one after the other; after each rule the
  // list holds what the rules so far select

  /** Rules 1-5, starting from the empty list: irrigation, nitrogen, lime or sulfur, heat. */
  method AddFieldConditionSuggestions(d: FieldData) returns (suggestions: seq<Suggestion>)
    ensures suggestions == FiredAmong(5, d)
  {
    suggestions := [];
    if d.rainfall < 200.0 {
      suggestions := suggestions + [DripIrrigation];
    }
    assert suggestions == FiredAmong(1, d);
    if d.nitrogen < 40.0 {
      suggestions := suggestions + [NitrogenFertilizer];
    }
    assert suggestions == FiredAmong(2, d);
    if d.soilPH < 6.5 || d.soilPH > 7.5 {
      if d.soilPH < 6.5 {
        suggestions := suggestions + [AgriculturalLime];
      } else {
        suggestions := suggestions + [SulfurToLowerPH];
      }
    }
    assert suggestions == FiredAmong(4, d);
    if d.temperature > 30.0 {
      suggestions := suggestions + [ShadeOrCoolerPlanting];
    }
    assert suggestions == FiredAmong(5, d);
  }

  /** Rules 6-10: the warnings that apply to one named crop only. */
  method AddCropSpecificSuggestions(d: FieldData, previous: seq<Suggestion>) returns (suggestions: seq<Suggestion>)
    requires previous == FiredAmong(5, d)
    ensures suggestions == FiredAmong(10, d)
  {
    suggestions := previous;
    if d.cropType == "wheat" && d.rainfall < 250.0 {
      suggestions := suggestions + [DroughtResilientCrop];
    }
    assert suggestions == FiredAmong(6, d);
    if d.cropType == "soybeans" && d.soilPH < 6.0 {
      suggestions := suggestions + [SoybeanLime];
    }
    assert suggestions == FiredAmong(7, d);
    if d.cropType == "cotton" && d.temperature < 15.0 {
      suggestions := suggestions + [CottonWarmth];
    }
    assert suggestions == FiredAmong(8, d);
    if d.cropType == "barley" && d.nitrogen > 80.0 {
      suggestions := suggestions + [BarleyLodging];
    }
    assert suggestions == FiredAmong(9, d);
    if d.cropType == "sunflower" && d.humidity > 80.0 {
      suggestions := suggestions + [SunflowerDrainage];
    }
    assert suggestions == FiredAmong(10, d);
  }

  /** Rules 11-12: phosphorus and potassium. */
  method AddNutrientSuggestions(d: FieldData, previous: seq<Suggestion>) returns (suggestions: seq<Suggestion>)
    requires previous == FiredAmong(10, d)
    ensures suggestions == FiredAmong(12, d)
  {
    suggestions := previous;
    if d.phosphorus < 25.0 {
      suggestions := suggestions + [MorePhosphorus];
    }
    assert suggestions == FiredAmong(11, d);
    if d.potassium < 30.0 {
      suggestions := suggestions + [MorePotassium];
    }
    assert suggestions == FiredAmong(12, d);
  }

  // ---------------------------------------------------------------------
  // The estimator itself, written as the step-by-step computation it is

  method CalculateYield(d: FieldData) returns (r: PredictionResult)
    ensures r == Prediction(d)
  {
    var predictedYield := YieldFor(d);
    var accuracyScore := AccuracyFor(d);

    var suggestions := AddFieldConditionSuggestions(d);
    suggestions := AddCropSpecificSuggestions(d, suggestions);
    suggestions := AddNutrientSuggestions(d, suggestions);
    assert suggestions == Fired(d) by {
      assert |SuggestionRules| == 12;
    }
    if |suggestions| < 3 {
      suggestions := suggestions + [MaintainPractices];
    }
    assert suggestions == Padded(d);

    r := PredictionResult(predictedYield, KgPerAcre, accuracyScore, FirstFive(suggestions));
  }

  // ---------------------------------------------------------------------
  // Properties of the prediction

  /** The formula on a non-negative production, for an adjustment in [-0.5, 1.0]. */
  lemma YieldAtBetween(base: real, area: real, adjustment: real)
    requires base >= 0.0 && area >= 0.0 && -0.5 <= adjustment <= 1.0
    ensures Round(base * area * 0.5) <= Round(YieldAt(base, area, adjustment))
    ensures Round(YieldAt(base, area, adjustment)) <= Round(base * area * 2.0)
    ensures Round(YieldAt(base, area, adjustment)) >= 0
  {
    var production, factor := base * area, 1.0 + adjustment;
    ProductNonNegative(base, area);
    assert YieldAt(base, area, adjustment) == production * factor;
    RoundProductBetween(production, factor, 0.5, 2.0);
    assert Round(production * 0.5) <= Round(production * factor);
    assert Round(production * factor) <= Round(production * 2.0);
  }

  /**
   * With the adjustment clamped to [-0.5, 1.0], the predicted yield on a
   * non-negative area lies between the yields at half and at twice the base
   * production, and is never negative.
   */
  lemma YieldBounds(d: FieldData)
    requires d.area >= 0.0
    ensures Round(BaseYield(d.cropType) * d.area * 0.5) <= PredictedYield(d)
    ensures PredictedYield(d) <= Round(BaseYield(d.cropType) * d.area * 2.0)
    ensures PredictedYield(d) >= 0
  {
    YieldAtBetween(BaseYield(d.cropType), d.area, ClampedAdjustment(d));
  }

  /** The adjustment depends on the seven soil and weather readings only. */
  lemma AdjustmentFromReadings(d: FieldData, e: FieldData)
    requires d.soilPH == e.soilPH && d.nitrogen == e.nitrogen && d.phosphorus == e.phosphorus
    requires d.potassium == e.potassium && d.rainfall == e.rainfall
    requires d.temperature == e.temperature && d.humidity == e.humidity
    ensures ClampedAdjustment(d) == ClampedAdjustment(e)
  {
    assert Adjustment(d) == Adjustment(e);
  }

  /** The rounded formula is monotone in the area. */
  lemma YieldAtMonotone(base: real, area: real, larger: real, adjustment: real)
    requires base >= 0.0 && -1.0 <= adjustment && area <= larger
    ensures Round(YieldAt(base, area, adjustment)) <= Round(YieldAt(base, larger, adjustment))
  {
    ScaleMonotone(base, 1.0 + adjustment, area, larger);
    RoundMonotone(YieldAt(base, area, adjustment), YieldAt(base, larger, adjustment));
  }

  /** A larger area, all else equal, never predicts a smaller yield. */
  lemma AreaMonotone(d: FieldData, area: real)
    requires d.area <= area
    ensures PredictedYield(d) <= PredictedYield(d.(area := area))
  {
    var e := d.(area := area);
    AdjustmentFromReadings(d, e);
    var base, adjustment := BaseYield(d.cropType), ClampedAdjustment(d);
    assert ExactYield(d) == YieldAt(base, d.area, adjustment);
    assert ExactYield(e) == YieldAt(base, area, adjustment);
    YieldAtMonotone(base, d.area, area, adjustment);
  }

  /** The formula is linear in the area. */
  lemma YieldAtDouble(base: real, area: real, adjustment: real)
    ensures YieldAt(base, 2.0 * area, adjustment) == 2.0 * YieldAt(base, area, adjustment)
  {
  }

  /** Doubling the area doubles the predicted yield, up to one unit of rounding. */
  lemma AreaDoubling(d: FieldData)
    ensures -1 <= PredictedYield(d.(area := 2.0 * d.area)) - 2 * PredictedYield(d) <= 1
  {
    var e := d.(area := 2.0 * d.area);
    AdjustmentFromReadings(d, e);
    var base, adjustment := BaseYield(d.cropType), ClampedAdjustment(d);
    assert ExactYield(d) == YieldAt(base, d.area, adjustment);
    assert ExactYield(e) == YieldAt(base, 2.0 * d.area, adjustment);
    YieldAtDouble(base, d.area, adjustment);
    RoundDouble(YieldAt(base, d.area, adjustment));
  }

  /** Two records on which every rule fires alike select the same suggestions. */
  lemma {:induction false} FiredAmongAgree(n: nat, d: FieldData, e: FieldData)
    requires n <= |SuggestionRules|
    requires forall s :: Fires(s, d) == Fires(s, e)
    ensures FiredAmong(n, d) == FiredAmong(n, e)
  {
    if n > 0 {
      FiredAmongAgree(n - 1, d, e);
      assert Fires(SuggestionRules[n - 1], d) == Fires(SuggestionRules[n - 1], e);
    }
  }

  /** The season is validated but never read: it changes no part of the prediction. */
  lemma SeasonIrrelevant(d: FieldData, season: string)
    ensures Prediction(d.(season := season)) == Prediction(d)
  {
    var e := d.(season := season);
    assert forall s :: Fires(s, d) == Fires(s, e);
    FiredAmongAgree(|SuggestionRules|, d, e);
    AdjustmentFromReadings(d, e);
    assert ExactYield(e) == ExactYield(d);
  }

  /** The position of a rule's suggestion in the rule order. */
  function Rank(s: Suggestion): (r: nat)
    ensures s != MaintainPractices ==> r < |SuggestionRules| && SuggestionRules[r] == s
    ensures s == MaintainPractices ==> r == |SuggestionRules|
  {
    match s
    case DripIrrigation => 0
    case NitrogenFertilizer => 1
    case AgriculturalLime => 2
    case SulfurToLowerPH => 3
    case ShadeOrCoolerPlanting => 4
    case DroughtResilientCrop => 5
    case SoybeanLime => 6
    case CottonWarmth => 7
    case BarleyLodging => 8
    case SunflowerDrainage => 9
    case MorePhosphorus => 10
    case MorePotassium => 11
    case MaintainPractices => 12
  }

  /** Each rule's suggestion sits at its own rank in the rule order. */
  lemma RankOfRule(i: nat)
    requires i < |SuggestionRules|
    ensures Rank(SuggestionRules[i]) == i
  {
  }

  /** The first n rules select exactly those of their suggestions that fire. */
  lemma {:induction false} FiredAmongMembers(n: nat, d: FieldData)
    requires n <= |SuggestionRules|
    ensures forall s :: s in FiredAmong(n, d) <==> Fires(s, d) && Rank(s) < n
  {
    if n > 0 {
      FiredAmongMembers(n - 1, d);
      RankOfRule(n - 1);
      forall s
        ensures s in FiredAmong(n, d) <==> Fires(s, d) && Rank(s) < n
      {
        if Rank(s) == n - 1 {
          assert s == SuggestionRules[n - 1];
        }
      }
    }
  }

  /** The first n rules select their suggestions in rule order, each at most once. */
  lemma {:induction false} FiredAmongOrdered(n: nat, d: FieldData)
    requires n <= |SuggestionRules|
    ensures |FiredAmong(n, d)| <= n
    ensures forall i :: 0 <= i < |FiredAmong(n, d)| ==> Rank(FiredAmong(n, d)[i]) < n
    ensures forall i, j :: 0 <= i < j < |FiredAmong(n, d)| ==> Rank(FiredAmong(n, d)[i]) < Rank(FiredAmong(n, d)[j])
  {
    if n > 0 {
      FiredAmongOrdered(n - 1, d);
      RankOfRule(n - 1);
    }
  }

  /** When none of the first n rules fires, they select nothing. */
  lemma {:induction false} NoneFired(n: nat, d: FieldData)
    requires n <= |SuggestionRules|
    requires forall i :: 0 <= i < n ==> !Fires(SuggestionRules[i], d)
    ensures FiredAmong(n, d) == []
  {
    if n > 0 {
      NoneFired(n - 1, d);
    }
  }

  /** A suggestion is among the fired ones exactly when its rule fires; they come in rule order. */
  lemma FiredSpec(d: FieldData)
    ensures forall s :: s in Fired(d) <==> Fires(s, d)
    ensures forall i, j :: 0 <= i < j < |Fired(d)| ==> Rank(Fired(d)[i]) < Rank(Fired(d)[j])
    ensures |Fired(d)| <= |SuggestionRules|
  {
    FiredAmongMembers(|SuggestionRules|, d);
    FiredAmongOrdered(|SuggestionRules|, d);
    assert !Fires(MaintainPractices, d);
  }

  /**
   * The shape of the returned list: one to five entries; the fired rules
   * followed by the generic message when at most two fire; otherwise the
   * first five fired rules. The generic message appears exactly when fewer
   * than three rules fire, and every other entry is a rule that fired.
   */
  lemma SuggestionsShape(d: FieldData)
    ensures 1 <= |Suggestions(d)| <= 5
    ensures |Fired(d)| <= 2 ==> Suggestions(d) == Fired(d) + [MaintainPractices]
    ensures |Fired(d)| >= 3 ==> Suggestions(d) == Fired(d)[..if |Fired(d)| < 5 then |Fired(d)| else 5]
    ensures Suggestions(d) <= Padded(d)
    ensures MaintainPractices in Suggestions(d) <==> |Fired(d)| < 3
    ensures forall s :: s in Suggestions(d) && s != MaintainPractices ==> Fires(s, d)
  {
    FiredSpec(d);
    var f := Fired(d);
    assert MaintainPractices !in f;
    if |f| >= 3 {
      assert Suggestions(d) <= f;
    }
  }

  /**
   * The lime and sulfur suggestions never appear together, and neither
   * appears while the pH is inside [6.5, 7.5].
   */
  lemma LimeSulfurExclusive(d: FieldData)
    ensures !(AgriculturalLime in Suggestions(d) && SulfurToLowerPH in Suggestions(d))
    ensures 6.5 <= d.soilPH <= 7.5 ==> AgriculturalLime !in Suggestions(d) && SulfurToLowerPH !in Suggestions(d)
  {
    SuggestionsShape(d);
  }

  /**
   * The wheat record with 10 acres, pH 6.8, N 55, P 35, K 40, 320 mm, 22
   * degrees C and 65 % humidity: adjustment 0.194, yield 23880 kg/acre,
   * accuracy 0.79, and no rule fires, so only the generic message is given.
   */
  lemma WheatExample()
    ensures Prediction(FieldData("wheat", "rabi", 10.0, 6.8, 55.0, 35.0, 40.0, 320.0, 22.0, 65.0))
      == PredictionResult(23880, KgPerAcre, 0.79, [MaintainPractices])
  {
    var d := FieldData("wheat", "rabi", 10.0, 6.8, 55.0, 35.0, 40.0, 320.0, 22.0, 65.0);
    assert Adjustment(d) == 0.194;
    assert ExactYield(d) == 23880.0;
    RoundOfInteger(23880);
    NoneFired(|SuggestionRules|, d);
  }
}
