/**
 * The crop recommender `recommendCrops`: every crop of a fixed catalog is
 * scored against its optimal ranges (starting from 1.0, a bonus or a
 * penalty per range, a nitrogen-tier and a joint phosphorus/potassium
 * bonus, clamped to [0.1, 1.0] and rounded to hundredths), given the
 * reasons that fired and the yield the estimator predicts for it, and the
 * catalog is then sorted in place, highest score first, ties kept in
 * catalog order.
 */
module CropRecommender {
  import opened Numeric
  import opened YieldEstimator

  /** A field's conditions: a field-data record without a crop type. */
  datatype FieldConditions = FieldConditions(
    season: string,
    area: real,
    soilPH: real,
    nitrogen: real,
    phosphorus: real,
    potassium: real,
    rainfall: real,
    temperature: real,
    humidity: real)

  /** A closed interval [lo, hi]. */
  datatype Range = Range(lo: real, hi: real)
  {
    predicate Contains(x: real)
    {
      lo <= x && x <= hi
    }
  }

  datatype NitrogenNeed = Low | Medium | High

  /** One entry of the optimal-conditions table. */
  datatype CropProfile = CropProfile(
    optimalPH: Range,
    optimalTemp: Range,
    optimalRainfall: Range,
    optimalHumidity: Range,
    nitrogenNeed: NitrogenNeed)

  /** The reasons a crop is recommended, one tag per fixed message. */
  datatype Reason =
    | PHIdeal(pH: real, optimal: Range)
    | TemperatureExcellent(celsius: real)
    | RainfallMatches(mm: real)
    | HumiditySupports
    | NitrogenAdequate(need: NitrogenNeed)
    | GoodPhosphorusPotassium
    | GeneralConditionsSuitable       // the default when no rule fired

  datatype CropRecommendation = CropRecommendation(
    cropType: string,
    predictedYield: int,
    suitabilityScore: real,
    reasons: seq<Reason>)

  const CropConditions: map<string, CropProfile> := map[
    "wheat" := CropProfile(Range(6.0, 7.5), Range(15.0, 25.0), Range(250.0, 500.0), Range(40.0, 70.0), Medium),
    "corn" := CropProfile(Range(5.8, 7.0), Range(20.0, 30.0), Range(400.0, 600.0), Range(50.0, 80.0), High),
    "rice" := CropProfile(Range(5.5, 6.5), Range(22.0, 32.0), Range(500.0, 800.0), Range(70.0, 90.0), High),
    "soybeans" := CropProfile(Range(6.0, 7.0), Range(20.0, 30.0), Range(300.0, 500.0), Range(50.0, 75.0), Low),
    "cotton" := CropProfile(Range(5.8, 8.0), Range(20.0, 35.0), Range(400.0, 700.0), Range(40.0, 65.0), Medium),
    "barley" := CropProfile(Range(6.0, 8.0), Range(12.0, 22.0), Range(200.0, 400.0), Range(40.0, 65.0), Medium),
    "sunflower" := CropProfile(Range(6.0, 7.5), Range(18.0, 28.0), Range(300.0, 500.0), Range(40.0, 70.0), Low)]

  /** The crops considered, in the order they are scored. */
  const Catalog: seq<string> := ["wheat", "corn", "rice", "soybeans", "cotton", "barley", "sunflower"]

  /** kg/ha of nitrogen each tier asks for; 80 % of it is enough. */
  function NitrogenThreshold(need: NitrogenNeed): (r: real)
    ensures 40.0 <= r <= 80.0
  {
    match need
    case Low => 40.0
    case Medium => 60.0
    case High => 80.0
  }

  // ---------------------------------------------------------------------
  // The score and the reasons, rule by rule

  function PHScore(c: FieldConditions, p: CropProfile): real
  {
    if p.optimalPH.Contains(c.soilPH) then 0.15 else -0.15
  }

  function TemperatureScore(c: FieldConditions, p: CropProfile): real
  {
    if p.optimalTemp.Contains(c.temperature) then 0.2 else -0.2
  }

  /** Too little rain costs twice as much as too much. */
  function RainfallScore(c: FieldConditions, p: CropProfile): real
  {
    if p.optimalRainfall.Contains(c.rainfall) then 0.15
    else if c.rainfall < p.optimalRainfall.lo then -0.1
    else -0.05
  }

  function HumidityScore(c: FieldConditions, p: CropProfile): real
  {
    if p.optimalHumidity.Contains(c.humidity) then 0.1 else -0.1
  }

  predicate NitrogenAdequateFor(c: FieldConditions, p: CropProfile)
  {
    c.nitrogen >= NitrogenThreshold(p.nitrogenNeed) * 0.8
  }

  predicate GoodNutrients(c: FieldConditions)
  {
    c.phosphorus >= 30.0 && c.potassium >= 30.0
  }

  function NitrogenScore(c: FieldConditions, p: CropProfile): real
  {
    if NitrogenAdequateFor(c, p) then 0.1 else 0.0
  }

  function NutrientScore(c: FieldConditions): real
  {
    if GoodNutrients(c) then 0.1 else 0.0
  }

  /** The score before the clamp: 1.0 plus the six contributions. */
  function RawSuitability(c: FieldConditions, p: CropProfile): (r: real)
    ensures 0.45 <= r <= 1.8
  {
    1.0 + PHScore(c, p) + TemperatureScore(c, p) + RainfallScore(c, p)
      + HumidityScore(c, p) + NitrogenScore(c, p) + NutrientScore(c)
  }

  /**
   * The clamped score to hundredths: always within [0.10, 1.00], in fact
   * never below 0.45, since the six penalties together take off only 0.55.
   */
  function Suitability(c: FieldConditions, p: CropProfile): (r: real)
    ensures 0.1 <= r <= 1.0
    ensures 0.45 <= r
    ensures RawSuitability(c, p) >= 1.0 ==> r == 1.0
  {
    var clamped := Clamp(0.1, 1.0, RawSuitability(c, p));
    RoundTo2Within(45, 100, clamped);
    RoundOfInteger(100);
    RoundTo2(clamped)
  }

  function PHReason(c: FieldConditions, p: CropProfile): seq<Reason>
  {
    if p.optimalPH.Contains(c.soilPH) then [PHIdeal(c.soilPH, p.optimalPH)] else []
  }

  function TemperatureReason(c: FieldConditions, p: CropProfile): seq<Reason>
  {
    if p.optimalTemp.Contains(c.temperature) then [TemperatureExcellent(c.temperature)] else []
  }

  function RainfallReason(c: FieldConditions, p: CropProfile): seq<Reason>
  {
    if p.optimalRainfall.Contains(c.rainfall) then [RainfallMatches(c.rainfall)] else []
  }

  function HumidityReason(c: FieldConditions, p: CropProfile): seq<Reason>
  {
    if p.optimalHumidity.Contains(c.humidity) then [HumiditySupports] else []
  }

  function NitrogenReason(c: FieldConditions, p: CropProfile): seq<Reason>
  {
    if NitrogenAdequateFor(c, p) then [NitrogenAdequate(p.nitrogenNeed)] else []
  }

  function NutrientReason(c: FieldConditions): seq<Reason>
  {
    if GoodNutrients(c) then [GoodPhosphorusPotassium] else []
  }

  /** The reasons of the rules that fired, in rule order. */
  function MatchedReasons(c: FieldConditions, p: CropProfile): seq<Reason>
  {
    PHReason(c, p) + TemperatureReason(c, p) + RainfallReason(c, p)
      + HumidityReason(c, p) + NitrogenReason(c, p) + NutrientReason(c)
  }

  /** At most one reason per rule, and never the generic one. */
  lemma MatchedReasonsBounds(c: FieldConditions, p: CropProfile)
    ensures |MatchedReasons(c, p)| <= 6
    ensures GeneralConditionsSuitable !in MatchedReasons(c, p)
  {
    var ph, temperature, rainfall := PHReason(c, p), TemperatureReason(c, p), RainfallReason(c, p);
    var humidity, nitrogen, nutrients := HumidityReason(c, p), NitrogenReason(c, p), NutrientReason(c);
    assert ph == [] || ph == [PHIdeal(c.soilPH, p.optimalPH)];
    assert temperature == [] || temperature == [TemperatureExcellent(c.temperature)];
    assert rainfall == [] || rainfall == [RainfallMatches(c.rainfall)];
    assert humidity == [] || humidity == [HumiditySupports];
    assert nitrogen == [] || nitrogen == [NitrogenAdequate(p.nitrogenNeed)];
    assert nutrients == [] || nutrients == [GoodPhosphorusPotassium];
    var climate := ph + temperature + rainfall;
    assert |climate| <= 3 && GeneralConditionsSuitable !in climate;
    var soil := humidity + nitrogen + nutrients;
    assert |soil| <= 3 && GeneralConditionsSuitable !in soil;
    assert MatchedReasons(c, p) == climate + soil;
  }

  /** The fired reasons, or the single generic reason when none fired. */
  function Reasons(c: FieldConditions, p: CropProfile): (r: seq<Reason>)
    ensures 1 <= |r| <= 6
    ensures r == [GeneralConditionsSuitable] <==> MatchedReasons(c, p) == []
  {
    MatchedReasonsBounds(c, p);
    var matched := MatchedReasons(c, p);
    if |matched| > 0 then matched else [GeneralConditionsSuitable]
  }

  /** `{ ...conditions, crop_type }`. */
  function WithCrop(c: FieldConditions, cropType: string): FieldData
  {
    FieldData(cropType, c.season, c.area, c.soilPH, c.nitrogen, c.phosphorus,
      c.potassium, c.rainfall, c.temperature, c.humidity)
  }

  /** What the per-crop step of `recommendCrops` builds for one table crop. */
  function Recommendation(c: FieldConditions, cropType: string): (r: CropRecommendation)
    requires cropType in CropConditions
  {
    var p := CropConditions[cropType];
    CropRecommendation(cropType, PredictedYield(WithCrop(c, cropType)), Suitability(c, p), Reasons(c, p))
  }

  /**
   * Every recommendation carries its crop, a score within [0.10, 1.00], one
   * to six reasons (the generic one exactly when no rule fired), and the
   * yield the estimator predicts for the conditions planted with that crop.
   */
  lemma RecommendationFacts(c: FieldConditions, cropType: string)
    requires cropType in CropConditions
    ensures Recommendation(c, cropType).cropType == cropType
    ensures 0.1 <= Recommendation(c, cropType).suitabilityScore <= 1.0
    ensures 1 <= |Recommendation(c, cropType).reasons| <= 6
    ensures Recommendation(c, cropType).reasons == [GeneralConditionsSuitable]
      <==> MatchedReasons(c, CropConditions[cropType]) == []
    ensures Recommendation(c, cropType).predictedYield == Prediction(WithCrop(c, cropType)).predictedYield
  {
  }

  /** No reason is given exactly when none of the six rules fires. */
  lemma NoMatchedReasons(c: FieldConditions, p: CropProfile)
    ensures MatchedReasons(c, p) == [] <==>
      !p.optimalPH.Contains(c.soilPH) && !p.optimalTemp.Contains(c.temperature)
      && !p.optimalRainfall.Contains(c.rainfall) && !p.optimalHumidity.Contains(c.humidity)
      && !NitrogenAdequateFor(c, p) && !GoodNutrients(c)
  {
    if p.optimalPH.Contains(c.soilPH) {
      assert MatchedReasons(c, p)[0] == PHIdeal(c.soilPH, p.optimalPH);
    }
  }

  // ---------------------------------------------------------------------
  // Scoring one crop, step by step

  /** The six rules of the per-crop step, each adding to the score and possibly giving a reason. */
  method AssessConditions(c: FieldConditions, p: CropProfile) returns (suitabilityScore: real, reasons: seq<Reason>)
    ensures suitabilityScore == RawSuitability(c, p)
    ensures reasons == MatchedReasons(c, p)
  {
    suitabilityScore := 1.0;
    reasons := [];

    if c.soilPH >= p.optimalPH.lo && c.soilPH <= p.optimalPH.hi {
      suitabilityScore := suitabilityScore + 0.15;
      reasons := reasons + [PHIdeal(c.soilPH, p.optimalPH)];
    } else {
      suitabilityScore := suitabilityScore - 0.15;
    }
    assert reasons == PHReason(c, p);
    assert suitabilityScore == 1.0 + PHScore(c, p);

    if c.temperature >= p.optimalTemp.lo && c.temperature <= p.optimalTemp.hi {
      suitabilityScore := suitabilityScore + 0.2;
      reasons := reasons + [TemperatureExcellent(c.temperature)];
    } else {
      suitabilityScore := suitabilityScore - 0.2;
    }
    assert reasons == PHReason(c, p) + TemperatureReason(c, p);
    assert suitabilityScore == 1.0 + PHScore(c, p) + TemperatureScore(c, p);

    if c.rainfall >= p.optimalRainfall.lo && c.rainfall <= p.optimalRainfall.hi {
      suitabilityScore := suitabilityScore + 0.15;
      reasons := reasons + [RainfallMatches(c.rainfall)];
    } else if c.rainfall < p.optimalRainfall.lo {
      suitabilityScore := suitabilityScore - 0.1;
    } else {
      suitabilityScore := suitabilityScore - 0.05;
    }
    assert reasons == PHReason(c, p) + TemperatureReason(c, p) + RainfallReason(c, p);
    assert suitabilityScore == 1.0 + PHScore(c, p) + TemperatureScore(c, p) + RainfallScore(c, p);

    if c.humidity >= p.optimalHumidity.lo && c.humidity <= p.optimalHumidity.hi {
      suitabilityScore := suitabilityScore + 0.1;
      reasons := reasons + [HumiditySupports];
    } else {
      suitabilityScore := suitabilityScore - 0.1;
    }
    assert reasons == PHReason(c, p) + TemperatureReason(c, p) + RainfallReason(c, p)
      + HumidityReason(c, p);
    assert suitabilityScore == 1.0 + PHScore(c, p) + TemperatureScore(c, p) + RainfallScore(c, p) + HumidityScore(c, p);

    var requiredN := NitrogenThreshold(p.nitrogenNeed);
    if c.nitrogen >= requiredN * 0.8 {
      suitabilityScore := suitabilityScore + 0.1;
      reasons := reasons + [NitrogenAdequate(p.nitrogenNeed)];
    }
    assert reasons == PHReason(c, p) + TemperatureReason(c, p) + RainfallReason(c, p)
      + HumidityReason(c, p) + NitrogenReason(c, p);
    assert suitabilityScore == 1.0 + PHScore(c, p) + TemperatureScore(c, p) + RainfallScore(c, p) + HumidityScore(c, p) + NitrogenScore(c, p);

    if c.phosphorus >= 30.0 && c.potassium >= 30.0 {
      suitabilityScore := suitabilityScore + 0.1;
      reasons := reasons + [GoodPhosphorusPotassium];
    }
  }

  method ScoreCrop(c: FieldConditions, cropType: string) returns (rec: CropRecommendation)
    requires cropType in CropConditions
    ensures rec == Recommendation(c, cropType)
  {
    var cropConditions := CropConditions[cropType];
    var suitabilityScore, reasons := AssessConditions(c, cropConditions);
    suitabilityScore := Clamp(0.1, 1.0, suitabilityScore);

    var fieldData := WithCrop(c, cropType);
    var prediction := CalculateYield(fieldData);

    rec := CropRecommendation(
      cropType,
      prediction.predictedYield,
      RoundTo2(suitabilityScore),
      if |reasons| > 0 then reasons else [GeneralConditionsSuitable]);
  }

  // ---------------------------------------------------------------------
  // Ordering: highest score first, equal scores in catalog order

  /** The position of a crop in the catalog, or the catalog's length for any other crop. */
  function CatalogIndex(cropType: string): nat
  {
    IndexIn(Catalog, cropType)
  }

  /** The position of the first `x` in `s`, or |s| when there is none. */
  function IndexIn(s: seq<string>, x: string): nat
  {
    if |s| == 0 || s[0] == x then 0 else 1 + IndexIn(s[1..], x)
  }

  lemma {:induction false} IndexInSpec(s: seq<string>, x: string)
    ensures IndexIn(s, x) <= |s|
    ensures IndexIn(s, x) < |s| <==> x in s
    ensures IndexIn(s, x) < |s| ==> s[IndexIn(s, x)] == x
  {
    if |s| > 0 && s[0] != x {
      IndexInSpec(s[1..], x);
      assert s == [s[0]] + s[1..];
    }
  }

  /**
   * `a` comes strictly before `b` in the result: a higher score, or an equal
   * score and an earlier catalog position.
   */
  predicate Before(a: CropRecommendation, b: CropRecommendation)
  {
    a.suitabilityScore > b.suitabilityScore
    || (a.suitabilityScore == b.suitabilityScore && CatalogIndex(a.cropType) < CatalogIndex(b.cropType))
  }

  predicate Ordered(s: seq<CropRecommendation>)
  {
    forall i, j :: 0 <= i < j < |s| ==> Before(s[i], s[j])
  }

  /**
   * `x` inserted into `p` behind every entry whose score is at least its
   * own: one step of a stable sort by descending score.
   */
  function Insert(p: seq<CropRecommendation>, x: CropRecommendation): seq<CropRecommendation>
    decreases |p|
  {
    if |p| == 0 || p[|p| - 1].suitabilityScore >= x.suitabilityScore then p + [x]
    else Insert(p[..|p| - 1], x) + [p[|p| - 1]]
  }

  /** The stable sort by descending score, as repeated insertion. */
  function SortSeq(s: seq<CropRecommendation>): seq<CropRecommendation>
  {
    if |s| == 0 then [] else Insert(SortSeq(s[..|s| - 1]), s[|s| - 1])
  }

  /** Insertion adds exactly the inserted entry. */
  lemma {:induction false} InsertPermutation(p: seq<CropRecommendation>, x: CropRecommendation)
    ensures multiset(Insert(p, x)) == multiset(p) + multiset{x}
    ensures |Insert(p, x)| == |p| + 1
    decreases |p|
  {
    if |p| > 0 && p[|p| - 1].suitabilityScore < x.suitabilityScore {
      var init, last := p[..|p| - 1], p[|p| - 1];
      assert Insert(p, x) == Insert(init, x) + [last];
      InsertPermutation(init, x);
      assert multiset(p) == multiset(init) + multiset{last} by {
        assert p == init + [last];
      }
    }
  }

  /** One insertion step of the sort keeps the sorted list a rearrangement of the input. */
  lemma SortStep(s: seq<CropRecommendation>)
    requires |s| > 0
    requires multiset(SortSeq(s[..|s| - 1])) == multiset(s[..|s| - 1])
    ensures multiset(SortSeq(s)) == multiset(s)
    ensures |SortSeq(s)| == |SortSeq(s[..|s| - 1])| + 1
  {
    var init, last := s[..|s| - 1], s[|s| - 1];
    InsertPermutation(SortSeq(init), last);
    assert multiset(s) == multiset(init) + multiset{last} by {
      assert s == init + [last];
    }
  }

  /** Sorting rearranges the entries and neither adds nor drops any. */
  lemma {:induction false} SortPermutation(s: seq<CropRecommendation>)
    ensures multiset(SortSeq(s)) == multiset(s)
    ensures |SortSeq(s)| == |s|
  {
    if |s| > 0 {
      SortPermutation(s[..|s| - 1]);
      SortStep(s);
    }
  }

  /**
   * Inserting an entry whose catalog position follows every position in an
   * ordered list keeps it ordered.
   */
  lemma {:induction false} InsertOrdered(p: seq<CropRecommendation>, x: CropRecommendation)
    requires Ordered(p)
    requires forall y :: y in p ==> CatalogIndex(y.cropType) < CatalogIndex(x.cropType)
    ensures Ordered(Insert(p, x))
    decreases |p|
  {
    if |p| == 0 || p[|p| - 1].suitabilityScore >= x.suitabilityScore {
      forall i | 0 <= i < |p|
        ensures Before(p[i], x)
      {
        assert p[i] in p;
        if i < |p| - 1 {
          assert Before(p[i], p[|p| - 1]);
        }
      }
    } else {
      var init, last := p[..|p| - 1], p[|p| - 1];
      assert Ordered(init);
      forall y | y in init
        ensures CatalogIndex(y.cropType) < CatalogIndex(x.cropType)
      {
        assert y in p;
      }
      InsertOrdered(init, x);
      InsertPermutation(init, x);
      var q := Insert(init, x);
      forall i | 0 <= i < |q|
        ensures Before(q[i], last)
      {
        assert q[i] in multiset(q);
        if q[i] != x {
          assert q[i] in multiset(init);
          var k :| 0 <= k < |init| && init[k] == q[i];
          assert Before(p[k], p[|p| - 1]);
        }
      }
    }
  }

  /** Sorting a list whose catalog positions increase yields an ordered list. */
  lemma {:induction false} SortOrdered(s: seq<CropRecommendation>)
    requires forall i, j :: 0 <= i < j < |s| ==> CatalogIndex(s[i].cropType) < CatalogIndex(s[j].cropType)
    ensures Ordered(SortSeq(s))
  {
    if |s| > 0 {
      var init, last := s[..|s| - 1], s[|s| - 1];
      SortOrdered(init);
      SortPermutation(init);
      forall y | y in SortSeq(init)
        ensures CatalogIndex(y.cropType) < CatalogIndex(last.cropType)
      {
        assert y in multiset(SortSeq(init));
        var k :| 0 <= k < |init| && init[k] == y;
      }
      InsertOrdered(SortSeq(init), last);
    }
  }

  /**
   * Inserting `x` lands it right behind the last entry scoring at least as
   * much as it does, when every later entry scores less.
   */
  lemma {:induction false} InsertSplit(p: seq<CropRecommendation>, x: CropRecommendation, j: nat)
    requires j <= |p| && (j == 0 || p[j - 1].suitabilityScore >= x.suitabilityScore)
    requires forall k :: j <= k < |p| ==> p[k].suitabilityScore < x.suitabilityScore
    ensures Insert(p, x) == p[..j] + [x] + p[j..]
    decreases |p|
  {
    if j < |p| {
      var init, last := p[..|p| - 1], p[|p| - 1];
      assert init[..j] == p[..j];
      InsertSplit(init, x, j);
      assert p[j..] == init[j..] + [last];
    }
  }

  /** Every entry of the sorted list comes from the input. */
  lemma SortedFromInput(s: seq<CropRecommendation>)
    ensures forall r :: r in SortSeq(s) ==> r in s
  {
    SortPermutation(s);
    forall r | r in SortSeq(s)
      ensures r in s
    {
      assert r in multiset(SortSeq(s));
    }
  }

  /**
   * One pass of the insertion sort: with `a[..i]` sorted, shift the entries
   * scoring below `a[i]` one place right and drop `a[i]` into the gap.
   */
  method InsertAt(a: array<CropRecommendation>, i: nat)
    requires i < a.Length
    modifies a
    ensures a[..i + 1] == Insert(old(a[..i]), old(a[i]))
    ensures forall k :: i < k < a.Length ==> a[k] == old(a[k])
  {
    ghost var sorted := a[..i];
    var x := a[i];
    var j := i;
    while j > 0 && a[j - 1].suitabilityScore < x.suitabilityScore
      invariant 0 <= j <= i
      invariant forall k :: 0 <= k < j ==> a[k] == sorted[k]
      invariant forall k :: j < k <= i ==> a[k] == sorted[k - 1]
      invariant forall k :: j <= k < i ==> sorted[k].suitabilityScore < x.suitabilityScore
      invariant forall k :: i < k < a.Length ==> a[k] == old(a[k])
    {
      assert a[j - 1] == sorted[j - 1];
      a[j] := a[j - 1];
      j := j - 1;
    }
    InsertSplit(sorted, x, j);
    a[j] := x;
    forall k | 0 <= k <= i
      ensures a[k] == (sorted[..j] + [x] + sorted[j..])[k]
    {
    }
    assert a[..i + 1] == sorted[..j] + [x] + sorted[j..];
  }

  /**
   * The final in-place sort of the recommendations by descending
   * suitability score, stable for equal scores: an insertion sort.
   */
  method SortBySuitability(a: array<CropRecommendation>)
    modifies a
    ensures a[..] == SortSeq(old(a[..]))
  {
    ghost var input := a[..];
    for i := 0 to a.Length
      invariant a[..i] == SortSeq(input[..i])
      invariant forall k :: i <= k < a.Length ==> a[k] == input[k]
    {
      assert input[..i + 1] == input[..i] + [input[i]];
      InsertAt(a, i);
    }
    assert input[..a.Length] == input;
  }

  // ---------------------------------------------------------------------
  // The recommender

  /**
   * The base-yield table, the optimal-conditions table and the catalog name
   * the same seven crops, each listed once in the catalog.
   */
  lemma TablesCoverCatalog()
    ensures BaseYields.Keys == CropConditions.Keys
    ensures forall crop :: crop in CropConditions <==> crop in Catalog
    ensures |Catalog| == 7
  {
  }

  /** Every optimal range in the table is a proper interval, lower end first. */
  lemma ProfilesWellFormed()
    ensures forall crop :: crop in CropConditions ==>
      CropConditions[crop].optimalPH.lo < CropConditions[crop].optimalPH.hi &&
      CropConditions[crop].optimalTemp.lo < CropConditions[crop].optimalTemp.hi &&
      CropConditions[crop].optimalRainfall.lo < CropConditions[crop].optimalRainfall.hi &&
      CropConditions[crop].optimalHumidity.lo < CropConditions[crop].optimalHumidity.hi
  {
  }

  /** Every catalog crop has an entry in the optimal-conditions table. */
  lemma CatalogInTable()
    ensures forall i :: 0 <= i < |Catalog| ==> Catalog[i] in CropConditions
  {
  }

  /** The recommendations in catalog order, before sorting. */
  function CatalogRecommendations(c: FieldConditions): (r: seq<CropRecommendation>)
    ensures |r| == |Catalog|
  {
    CatalogInTable();
    seq(|Catalog|, i requires 0 <= i < |Catalog| => Recommendation(c, Catalog[i]))
  }

  method RecommendCrops(c: FieldConditions) returns (r: seq<CropRecommendation>)
    ensures r == SortSeq(CatalogRecommendations(c))
    ensures |r| == |Catalog| && multiset(r) == multiset(CatalogRecommendations(c))
    ensures Ordered(r)
  {
    var cropTypes := Catalog;
    CatalogInTable();
    var recommendations := new CropRecommendation[|cropTypes|];
    for i := 0 to |cropTypes|
      invariant forall k :: 0 <= k < i ==> recommendations[k] == Recommendation(c, cropTypes[k])
    {
      recommendations[i] := ScoreCrop(c, cropTypes[i]);
    }
    assert recommendations[..] == CatalogRecommendations(c);
    SortBySuitability(recommendations);
    r := recommendations[..];
    RecommendationsOrdered(c);
  }

  /** Before sorting, the entries follow the catalog: their catalog positions increase. */
  lemma CatalogOrderBeforeSort(c: FieldConditions)
    ensures forall i, j :: 0 <= i < j < |CatalogRecommendations(c)| ==>
      CatalogIndex(CatalogRecommendations(c)[i].cropType) < CatalogIndex(CatalogRecommendations(c)[j].cropType)
  {
    var s := CatalogRecommendations(c);
    forall i, j | 0 <= i < j < |s|
      ensures CatalogIndex(s[i].cropType) < CatalogIndex(s[j].cropType)
    {
      CatalogInTable();
      assert s[i].cropType == Catalog[i] && s[j].cropType == Catalog[j];
      CatalogPositions(i);
      CatalogPositions(j);
    }
  }

  /**
   * The sorted recommendations: seven entries, a rearrangement of the
   * catalog's, by descending score with equal scores in catalog order.
   */
  lemma RecommendationsOrdered(c: FieldConditions)
    ensures |SortSeq(CatalogRecommendations(c))| == |Catalog| == 7
    ensures multiset(SortSeq(CatalogRecommendations(c))) == multiset(CatalogRecommendations(c))
    ensures Ordered(SortSeq(CatalogRecommendations(c)))
  {
    SortPermutation(CatalogRecommendations(c));
    CatalogOrderBeforeSort(c);
    SortOrdered(CatalogRecommendations(c));
  }

  /** Each entry built from the catalog is the recommendation of its own catalog crop. */
  lemma CatalogEntries(c: FieldConditions)
    ensures forall r :: r in CatalogRecommendations(c) ==>
      r.cropType in Catalog && r.cropType in CropConditions && r == Recommendation(c, r.cropType)
  {
    var s := CatalogRecommendations(c);
    CatalogInTable();
    forall r | r in s
      ensures r.cropType in Catalog && r.cropType in CropConditions && r == Recommendation(c, r.cropType)
    {
      var k :| 0 <= k < |s| && s[k] == r;
      assert r == Recommendation(c, Catalog[k]);
      assert r.cropType == Catalog[k];
    }
  }

  /** Each sorted entry is the recommendation of its own catalog crop. */
  lemma SortedEntriesAreRecommendations(c: FieldConditions)
    ensures forall r :: r in SortSeq(CatalogRecommendations(c)) ==>
      r.cropType in Catalog && r.cropType in CropConditions && r == Recommendation(c, r.cropType)
  {
    SortedFromInput(CatalogRecommendations(c));
    CatalogEntries(c);
  }

  /** Every catalog crop has an entry among the sorted recommendations. */
  lemma EveryCropRecommended(c: FieldConditions)
    ensures forall crop :: crop in Catalog ==>
      exists r :: r in SortSeq(CatalogRecommendations(c)) && r.cropType == crop
  {
    var s := CatalogRecommendations(c);
    SortPermutation(s);
    CatalogInTable();
    forall crop | crop in Catalog
      ensures exists r :: r in SortSeq(s) && r.cropType == crop
    {
      IndexInSpec(Catalog, crop);
      var k := CatalogIndex(crop);
      assert s[k].cropType == Catalog[k];
      assert s[k] in multiset(SortSeq(s));
    }
  }

  /** No crop appears twice in the catalog. */
  lemma CatalogDistinct()
    ensures forall j, k :: 0 <= j < k < |Catalog| ==> Catalog[j] != Catalog[k]
  {
  }

  /** In a sequence without repeats, the first occurrence of s[i] is at i. */
  lemma {:induction false} IndexInDistinct(s: seq<string>, i: nat)
    requires i < |s|
    requires forall j, k :: 0 <= j < k < |s| ==> s[j] != s[k]
    ensures IndexIn(s, s[i]) == i
  {
    if i > 0 {
      assert s[0] != s[i];
      assert s[1..][i - 1] == s[i];
      IndexInDistinct(s[1..], i - 1);
    }
  }

  /** Catalog position i holds the crop whose catalog index is i. */
  lemma CatalogPositions(i: nat)
    requires i < |Catalog|
    ensures CatalogIndex(Catalog[i]) == i
  {
    CatalogDistinct();
    IndexInDistinct(Catalog, i);
  }

  // ---------------------------------------------------------------------
  // A worked example

  /** Rabi season, 10 acres, pH 6.8, N 55, P 35, K 40, 320 mm rain, 22 degrees C, 65 % humidity. */
  const ExampleConditions: FieldConditions := FieldConditions("rabi", 10.0, 6.8, 55.0, 35.0, 40.0, 320.0, 22.0, 65.0)

  /**
   * Under the example conditions every crop but rice reaches the full score;
   * rice loses 0.15 for pH, 0.1 for too little rain and 0.1 for humidity,
   * gains 0.2 for temperature and 0.1 for phosphorus and potassium, and
   * ends at 0.95 with exactly those two reasons.
   */
  lemma ExampleScores()
    ensures forall crop :: crop in CropConditions && crop != "rice" ==>
      Recommendation(ExampleConditions, crop).suitabilityScore == 1.0
    ensures Recommendation(ExampleConditions, "rice").suitabilityScore == 0.95
    ensures Recommendation(ExampleConditions, "rice").reasons == [TemperatureExcellent(22.0), GoodPhosphorusPotassium]
  {
    var c := ExampleConditions;
    forall crop | crop in CropConditions && crop != "rice"
      ensures Recommendation(c, crop).suitabilityScore == 1.0
    {
      assert RawSuitability(c, CropConditions[crop]) >= 1.0;
    }
    var rice := CropConditions["rice"];
    assert RawSuitability(c, rice) == 0.95;
    RoundOfInteger(95);
    assert MatchedReasons(c, rice) == [TemperatureExcellent(22.0), GoodPhosphorusPotassium];
  }

  /** A crop with the full score that is first in the catalog heads the ranking. */
  lemma FullScoreFirst(c: FieldConditions)
    requires Recommendation(c, Catalog[0]).suitabilityScore == 1.0
    ensures |SortSeq(CatalogRecommendations(c))| == |Catalog|
    ensures SortSeq(CatalogRecommendations(c))[0] == Recommendation(c, Catalog[0])
  {
    var r := SortSeq(CatalogRecommendations(c));
    RecommendationsOrdered(c);
    SortedEntriesAreRecommendations(c);
    EveryCropRecommended(c);
    assert Catalog[0] in Catalog;
    var w :| w in r && w.cropType == Catalog[0];
    forall y | y in r
      ensures y.suitabilityScore <= w.suitabilityScore
    {
      assert y == Recommendation(c, y.cropType);
    }
    CatalogPositions(0);
    OrderedTop(r, w);
  }

  /** In an ordered list, an entry no other outscores that is first in the catalog comes first. */
  lemma OrderedTop(s: seq<CropRecommendation>, x: CropRecommendation)
    requires Ordered(s) && x in s
    requires forall y :: y in s ==> y.suitabilityScore <= x.suitabilityScore
    requires CatalogIndex(x.cropType) == 0
    ensures s[0] == x
  {
    var i :| 0 <= i < |s| && s[i] == x;
    assert s[0] in s;
    assert i == 0 || Before(s[0], s[i]);
  }

  /** A crop scoring strictly below every other crop ends the ranking. */
  lemma LowestScoreLast(c: FieldConditions, crop: string)
    requires crop in Catalog && crop in CropConditions
    requires forall other :: other in CropConditions && other != crop ==>
      Recommendation(c, other).suitabilityScore > Recommendation(c, crop).suitabilityScore
    ensures |SortSeq(CatalogRecommendations(c))| == |Catalog|
    ensures SortSeq(CatalogRecommendations(c))[|Catalog| - 1] == Recommendation(c, crop)
  {
    var r := SortSeq(CatalogRecommendations(c));
    RecommendationsOrdered(c);
    SortedEntriesAreRecommendations(c);
    EveryCropRecommended(c);
    var x :| x in r && x.cropType == crop;
    var j :| 0 <= j < |r| && r[j] == x;
    assert r[|r| - 1] in r;
    assert j == |r| - 1 || Before(r[j], r[|r| - 1]);
  }

  /** So the example ranking starts with wheat and ends with rice at 0.95. */
  lemma ExampleRanking()
    ensures |SortSeq(CatalogRecommendations(ExampleConditions))| == 7
    ensures SortSeq(CatalogRecommendations(ExampleConditions))[0].cropType == "wheat"
    ensures SortSeq(CatalogRecommendations(ExampleConditions))[6].cropType == "rice"
    ensures SortSeq(CatalogRecommendations(ExampleConditions))[6].suitabilityScore == 0.95
  {
    ExampleScores();
    RecommendationsOrdered(ExampleConditions);
    FullScoreFirst(ExampleConditions);
    LowestScoreLast(ExampleConditions, "rice");
  }
}
