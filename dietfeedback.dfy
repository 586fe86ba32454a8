/** The server's diet feedback (get_diet_feedback in app.py): four predicted
    nutrient amounts are scored against their reference ranges, averaged into
    an overall score with a category, a colour and a message, and commented
    on one by one; a Poor diet also gets a risk message chosen from the
    personal data. */
module DietFeedback {
  import opened Optional

  /** The personal data fields the feedback reads; a missing key is None. */
  datatype PersonalData = PersonalData(
    age: Option<real>,
    gender: Option<string>,
    activity: Option<string>,
    chronicDisease: Option<string>)

  /** A reference range (low end, high end). */
  datatype Range = Range(low: real, high: real)

  const VitaminARange := Range(0.9, 1.8)
  const VitaminCRange := Range(75.0, 90.0)
  const CalciumRange := Range(1000.0, 1300.0)
  const IronRangeMale := Range(8.0, 11.0)
  const IronRangeFemale := Range(15.0, 18.0)

  /** The female iron range only for Gender == 'Female'; any other or missing
      gender gets the male range. */
  function IronRange(p: PersonalData): (r: Range)
    ensures r == IronRangeFemale <==> p.gender == Some("Female")
    ensures r == IronRangeMale <==> p.gender != Some("Female")
  {
    if p.gender == Some("Female") then IronRangeFemale else IronRangeMale
  }

  function Abs(x: real): (r: real)
    ensures r >= 0.0 && (r == x || r == -x)
  {
    if x < 0.0 then -x else x
  }

  function Max(a: real, b: real): (r: real)
    ensures r >= a && r >= b && (r == a || r == b)
  {
    if a >= b then a else b
  }

  /** Division by a positive number keeps comparisons with a multiple of it. */
  lemma DivideCompare(x: real, d: real, k: real)
    requires d > 0.0
    ensures x <= k * d <==> x / d <= k
    ensures x < k * d <==> x / d < k
    ensures x >= k * d <==> x / d >= k
  {
    assert x / d * d == x;
    assert (x / d - k) * d == x - k * d;
  }

  /** calculate_score, branch by branch. The test against one and a half
      times the upper end comes before the test against the upper end. Every
      value, of any size or sign, scores between 0 and 100. */
  function CalculateScore(value: real, minVal: real, maxVal: real): (r: real)
    requires 0.0 < minVal < maxVal
    ensures 0.0 <= r <= 100.0
  {
    if value < minVal then
      DivideCompare(value, minVal, 1.0);
      Max(0.0, 60.0 * (value / minVal))
    else if value > maxVal * 1.5 then
      DivideCompare((value - maxVal * 1.5) * 30.0, maxVal, 0.0);
      Max(0.0, 100.0 - (value - maxVal * 1.5) * 30.0 / maxVal)
    else if value > maxVal then
      DivideCompare((value - maxVal) * 30.0, maxVal, 0.0);
      DivideCompare((value - maxVal) * 30.0, maxVal, 15.0);
      90.0 - (value - maxVal) * 30.0 / maxVal
    else
      DivideCompare(value - minVal, maxVal - minVal, 0.0);
      DivideCompare(value - minVal, maxVal - minVal, 1.0);
      var normalized := (value - minVal) / (maxVal - minVal);
      80.0 + 20.0 * (1.0 - Abs(normalized - 0.5) * 2.0)
  }

  /** Below the range: a share of 60 in proportion to the value. */
  lemma BelowRangeBand(value: real, minVal: real, maxVal: real)
    requires 0.0 < minVal < maxVal && value < minVal
    ensures 0.0 <= CalculateScore(value, minVal, maxVal) < 60.0
  {
    DivideCompare(value, minVal, 1.0);
  }

  /** Inside the range: from 80 at the ends up to 100. */
  lemma InRangeBand(value: real, minVal: real, maxVal: real)
    requires 0.0 < minVal < maxVal && minVal <= value <= maxVal
    ensures 80.0 <= CalculateScore(value, minVal, maxVal) <= 100.0
  {
    DivideCompare(value - minVal, maxVal - minVal, 0.0);
    DivideCompare(value - minVal, maxVal - minVal, 1.0);
  }

  /** Above the range, up to one and a half times its upper end: from 90
      down to 75. */
  lemma AboveRangeBand(value: real, minVal: real, maxVal: real)
    requires 0.0 < minVal < maxVal && maxVal < value <= maxVal * 1.5
    ensures 75.0 <= CalculateScore(value, minVal, maxVal) < 90.0
  {
    DivideCompare((value - maxVal) * 30.0, maxVal, 0.0);
    DivideCompare((value - maxVal) * 30.0, maxVal, 15.0);
  }

  /** Beyond one and a half times the upper end: below 100, never below 0. */
  lemma FarAboveRangeBand(value: real, minVal: real, maxVal: real)
    requires 0.0 < minVal < maxVal && value > maxVal * 1.5
    ensures 0.0 <= CalculateScore(value, minVal, maxVal) < 100.0
  {
    DivideCompare((value - maxVal * 1.5) * 30.0, maxVal, 0.0);
  }

  /** The bands of calculate_score together: every value scores between 0
      and 100. */
  lemma ScoreBands(value: real, minVal: real, maxVal: real)
    requires 0.0 < minVal < maxVal
    ensures 0.0 <= CalculateScore(value, minVal, maxVal) <= 100.0
    ensures value < minVal ==> CalculateScore(value, minVal, maxVal) < 60.0
    ensures minVal <= value <= maxVal ==> 80.0 <= CalculateScore(value, minVal, maxVal)
    ensures maxVal < value <= maxVal * 1.5 ==> 75.0 <= CalculateScore(value, minVal, maxVal) < 90.0
    ensures value > maxVal * 1.5 ==> CalculateScore(value, minVal, maxVal) < 100.0
  {
    if value < minVal {
      BelowRangeBand(value, minVal, maxVal);
    } else if value <= maxVal {
      InRangeBand(value, minVal, maxVal);
    } else if value <= maxVal * 1.5 {
      AboveRangeBand(value, minVal, maxVal);
    } else {
      FarAboveRangeBand(value, minVal, maxVal);
    }
  }

  /** In the range the score is 100 exactly at the midpoint and 80 exactly at
      either end. */
  lemma InRangeExtremes(minVal: real, maxVal: real)
    requires 0.0 < minVal < maxVal
    ensures CalculateScore((minVal + maxVal) / 2.0, minVal, maxVal) == 100.0
    ensures CalculateScore(minVal, minVal, maxVal) == 80.0
    ensures CalculateScore(maxVal, minVal, maxVal) == 80.0
  {
    var mid := (minVal + maxVal) / 2.0;
    assert (mid - minVal) / (maxVal - minVal) == 0.5 by {
      DivideCompare(mid - minVal, maxVal - minVal, 0.5);
    }
    assert (maxVal - minVal) / (maxVal - minVal) == 1.0;
  }

  /** The penalty for an excess restarts at the top: up to twice the upper
      end a value above one and a half times it still scores at least 85, and
      up to 1.6 times the upper end at least 97, more than any value between
      the upper end and one and a half times it. */
  lemma ExcessScoreJumps(v1: real, v2: real, minVal: real, maxVal: real)
    requires 0.0 < minVal < maxVal
    requires maxVal < v1 <= maxVal * 1.5 < v2
    ensures v2 <= maxVal * 2.0 ==> CalculateScore(v2, minVal, maxVal) >= 85.0
    ensures v2 <= maxVal * 1.6 ==> CalculateScore(v2, minVal, maxVal) >= 97.0
    ensures v2 <= maxVal * 1.6 ==> CalculateScore(v1, minVal, maxVal) < CalculateScore(v2, minVal, maxVal)
  {
    AboveRangeBand(v1, minVal, maxVal);
    DivideCompare((v2 - maxVal * 1.5) * 30.0, maxVal, 15.0);
    DivideCompare((v2 - maxVal * 1.5) * 30.0, maxVal, 3.0);
  }

  /** The overall score: the mean of the four sub-scores, which lies
      between the smallest and the largest of them. */
  function OverallScore(a: real, c: real, ca: real, i: real): (r: real)
    ensures r <= a || r <= c || r <= ca || r <= i
    ensures r >= a || r >= c || r >= ca || r >= i
  {
    (a + c + ca + i) / 4.0
  }

  /** A mean of four scores in [0, 100] is in [0, 100]. */
  lemma OverallScoreBounds(a: real, c: real, ca: real, i: real)
    requires 0.0 <= a <= 100.0 && 0.0 <= c <= 100.0 && 0.0 <= ca <= 100.0 && 0.0 <= i <= 100.0
    ensures 0.0 <= OverallScore(a, c, ca, i) <= 100.0
    ensures OverallScore(a, c, ca, i) >= 85.0 ==> a >= 40.0 && c >= 40.0 && ca >= 40.0 && i >= 40.0
  {
  }

  /** The texts of the feedback. The record carries the text's name; its
      wording is Render(). */
  datatype Text =
    | ExcellentMessage | GoodMessage | AverageMessage | PoorMessage
    | VitaminALow | VitaminAHigh | VitaminAGood
    | VitaminCLow | VitaminCGood
    | CalciumLow | CalciumGood
    | IronLow | IronHigh | IronGood
    | AgeRisk | DiseaseRisk(disease: string) | GenericRisk
  {
    function Render(): string
    {
      match this
      case ExcellentMessage => "Congratulations! Your nutrient profile is excellent. You're on track for optimal health and wellness. Keep maintaining your balanced diet rich in essential nutrients."
      case GoodMessage => "Your nutrient profile is good. With a few targeted improvements, you could reach excellent levels. Review the specific nutrient recommendations below."
      case AverageMessage => "Your nutrient profile is average. While not concerning, there's room for improvement. Follow the recommendations below to boost your nutrition and overall health."
      case PoorMessage => "Your diet score needs attention. If you maintain this level, your health may be impacted over time. Consider making changes to your diet based on the recommendations below."
      case VitaminALow => "Your Vitamin A levels are low. Try incorporating more carrots, sweet potatoes, and leafy greens in your diet."
      case VitaminAHigh => "Your Vitamin A intake is higher than recommended. Monitor consumption of supplements and vitamin A-rich foods."
      case VitaminAGood => "Your Vitamin A levels look good. Keep maintaining a balanced diet."
      case VitaminCLow => "Your Vitamin C levels are low. Try adding more citrus fruits, bell peppers, and berries to your meals."
      case VitaminCGood => "Your Vitamin C intake is adequate. Great job including fruits and vegetables in your diet!"
      case CalciumLow => "Your Calcium levels are low. Consider adding more dairy products, fortified plant milks, or leafy greens."
      case CalciumGood => "Your Calcium intake is sufficient for maintaining healthy bones and teeth."
      case IronLow => "Your Iron levels are lower than recommended. Try including more lean meats, beans, and leafy greens in your diet."
      case IronHigh => "Your Iron intake is on the higher side. Consider consulting with a healthcare provider if you're taking supplements."
      case IronGood => "Your Iron levels are within a healthy range. Great job!"
      case AgeRisk => "At your age and activity level, improving your nutrient intake is particularly important to maintain health and prevent chronic conditions."
      case DiseaseRisk(disease) => DiseasePrefix + disease + DiseaseSuffix
      case GenericRisk => "If you continue with this nutrient profile, you may experience decreased energy levels, weakened immunity, and increased health risks over time."
    }
  }

  const DiseasePrefix := "With your "
  const DiseaseSuffix := " condition, improving your nutrition is crucial for managing your health effectively."

  /** The disease risk text names the disease as given, right after its
      fixed opening. */
  lemma DiseaseRiskNamesDisease(disease: string)
    ensures |DiseaseRisk(disease).Render()| == |DiseasePrefix| + |disease| + |DiseaseSuffix|
    ensures DiseaseRisk(disease).Render()[..|DiseasePrefix|] == DiseasePrefix
    ensures DiseaseRisk(disease).Render()[|DiseasePrefix|..|DiseasePrefix| + |disease|] == disease
  {
    var r := DiseaseRisk(disease).Render();
    assert r == DiseasePrefix + disease + DiseaseSuffix;
    assert r[..|DiseasePrefix|] == DiseasePrefix;
    assert r[|DiseasePrefix|..|DiseasePrefix| + |disease|] == disease;
  }

  /** Two different diseases give two different risk texts. */
  lemma DiseaseRiskInjective(d1: string, d2: string)
    requires d1 != d2
    ensures DiseaseRisk(d1).Render() != DiseaseRisk(d2).Render()
  {
    DiseaseRiskNamesDisease(d1);
    DiseaseRiskNamesDisease(d2);
  }

  /** The diet category with its colour and its message. */
  datatype DietCategory = Excellent | Good | Average | Poor
  {
    function Label(): string
    {
      match this
      case Excellent => "Excellent"
      case Good => "Good"
      case Average => "Average"
      case Poor => "Poor"
    }

    /** Excellent and Average share the colour green. */
    function Color(): string
    {
      match this
      case Excellent => "green"
      case Good => "blue"
      case Average => "green"
      case Poor => "red"
    }

    function Message(): Text
    {
      match this
      case Excellent => ExcellentMessage
      case Good => GoodMessage
      case Average => AverageMessage
      case Poor => PoorMessage
    }
  }

  /** First match over the thresholds 85, 70 and 55. */
  function CategoryOf(score: real): (c: DietCategory)
    ensures c == Excellent <==> score >= 85.0
    ensures c == Good <==> 70.0 <= score < 85.0
    ensures c == Average <==> 55.0 <= score < 70.0
    ensures c == Poor <==> score < 55.0
  {
    if score >= 85.0 then Excellent
    else if score >= 70.0 then Good
    else if score >= 55.0 then Average
    else Poor
  }

  /** The colour does not tell Excellent from Average, and every other pair of
      categories has different colours. */
  lemma ColorsOfCategories(c1: DietCategory, c2: DietCategory)
    ensures c1.Color() == c2.Color() <==> c1 == c2 || {c1, c2} == {Excellent, Average}
  {
  }

  /** The category string the record carries follows the score:
      'Excellent' from 85, 'Good' from 70, 'Average' from 55, else 'Poor'. */
  lemma CategoryLabelOfScore(score: real)
    ensures CategoryOf(score).Label() == "Excellent" <==> score >= 85.0
    ensures CategoryOf(score).Label() == "Good" <==> 70.0 <= score < 85.0
    ensures CategoryOf(score).Label() == "Average" <==> 55.0 <= score < 70.0
    ensures CategoryOf(score).Label() == "Poor" <==> score < 55.0
  {
  }

  /** The status of one nutrient in the detailed feedback. */
  datatype LevelStatus = TooLow | InRange | TooHigh
  {
    function Label(): string
    {
      match this
      case TooLow => "low"
      case InRange => "good"
      case TooHigh => "high"
    }
  }

  /** One entry of the detailed feedback. */
  datatype NutrientFeedback = NutrientFeedback(nutrient: string, value: real, status: LevelStatus, message: Text)

  /** Vitamin A is low below 0.9 and high only above 1.3 times 1.8. */
  function VitaminAStatus(v: real): (s: LevelStatus)
    ensures s == TooLow <==> v < VitaminARange.low
    ensures s == TooHigh <==> v > VitaminARange.high * 1.3
  {
    if v < VitaminARange.low then TooLow
    else if v > VitaminARange.high * 1.3 then TooHigh
    else InRange
  }

  /** Vitamin C and Calcium are only ever low or good. */
  function LowOrGood(v: real, r: Range): (s: LevelStatus)
    ensures s != TooHigh
    ensures s == TooLow <==> v < r.low
  {
    if v < r.low then TooLow else InRange
  }

  /** Iron is low below its range and high only above 1.5 times its upper end. */
  function IronStatus(v: real, r: Range): (s: LevelStatus)
    ensures s == TooLow <==> v < r.low
    ensures s == TooHigh <==> r.low <= v && v > r.high * 1.5
  {
    if v < r.low then TooLow
    else if v > r.high * 1.5 then TooHigh
    else InRange
  }

  function VitaminAMessage(s: LevelStatus): Text
  {
    match s
    case TooLow => VitaminALow
    case TooHigh => VitaminAHigh
    case InRange => VitaminAGood
  }

  function VitaminCMessage(s: LevelStatus): Text
  {
    if s == TooLow then VitaminCLow else VitaminCGood
  }

  function CalciumMessage(s: LevelStatus): Text
  {
    if s == TooLow then CalciumLow else CalciumGood
  }

  function IronMessage(s: LevelStatus): Text
  {
    match s
    case TooLow => IronLow
    case TooHigh => IronHigh
    case InRange => IronGood
  }

  /** The entry of each nutrient: its name, its value, its status and the
      message for that status. */
  function VitaminAEntry(v: real): NutrientFeedback
  {
    var s := VitaminAStatus(v);
    NutrientFeedback("Vitamin A", v, s, VitaminAMessage(s))
  }

  function VitaminCEntry(v: real): NutrientFeedback
  {
    var s := LowOrGood(v, VitaminCRange);
    NutrientFeedback("Vitamin C", v, s, VitaminCMessage(s))
  }

  function CalciumEntry(v: real): NutrientFeedback
  {
    var s := LowOrGood(v, CalciumRange);
    NutrientFeedback("Calcium", v, s, CalciumMessage(s))
  }

  function IronEntry(v: real, r: Range): NutrientFeedback
  {
    var s := IronStatus(v, r);
    NutrientFeedback("Iron", v, s, IronMessage(s))
  }

  /** The detailed feedback: one entry each for Vitamin A, Vitamin C, Calcium
      and Iron, in that order. */
  function Detailed(vitA: real, vitC: real, calcium: real, iron: real, p: PersonalData): seq<NutrientFeedback>
  {
    [VitaminAEntry(vitA), VitaminCEntry(vitC), CalciumEntry(calcium), IronEntry(iron, IronRange(p))]
  }

  /** Exactly four entries, in the order Vitamin A, Vitamin C, Calcium, Iron,
      each carrying its own value; Vitamin C and Calcium are never high. */
  lemma DetailedShape(vitA: real, vitC: real, calcium: real, iron: real, p: PersonalData)
    ensures |Detailed(vitA, vitC, calcium, iron, p)| == 4
    ensures Detailed(vitA, vitC, calcium, iron, p)[0].nutrient == "Vitamin A"
    ensures Detailed(vitA, vitC, calcium, iron, p)[1].nutrient == "Vitamin C"
    ensures Detailed(vitA, vitC, calcium, iron, p)[2].nutrient == "Calcium"
    ensures Detailed(vitA, vitC, calcium, iron, p)[3].nutrient == "Iron"
    ensures Detailed(vitA, vitC, calcium, iron, p)[0].value == vitA
    ensures Detailed(vitA, vitC, calcium, iron, p)[1].value == vitC
    ensures Detailed(vitA, vitC, calcium, iron, p)[2].value == calcium
    ensures Detailed(vitA, vitC, calcium, iron, p)[3].value == iron
    ensures Detailed(vitA, vitC, calcium, iron, p)[1].status != TooHigh
    ensures Detailed(vitA, vitC, calcium, iron, p)[2].status != TooHigh
  {
  }

  /** The status strings of the detailed feedback, in terms of the values:
      'low' below the low end of each range, 'high' only for Vitamin A above
      1.3 times its upper end and for Iron above 1.5 times its upper end,
      'good' otherwise. */
  lemma DetailedStatusLabels(vitA: real, vitC: real, calcium: real, iron: real, p: PersonalData)
    ensures Detailed(vitA, vitC, calcium, iron, p)[0].status.Label() == "low" <==> vitA < 0.9
    ensures Detailed(vitA, vitC, calcium, iron, p)[0].status.Label() == "high" <==> vitA > 1.8 * 1.3
    ensures Detailed(vitA, vitC, calcium, iron, p)[1].status.Label() == "low" <==> vitC < 75.0
    ensures Detailed(vitA, vitC, calcium, iron, p)[1].status.Label() != "high"
    ensures Detailed(vitA, vitC, calcium, iron, p)[2].status.Label() == "low" <==> calcium < 1000.0
    ensures Detailed(vitA, vitC, calcium, iron, p)[2].status.Label() != "high"
    ensures Detailed(vitA, vitC, calcium, iron, p)[3].status.Label() == "low" <==> iron < IronRange(p).low
    ensures Detailed(vitA, vitC, calcium, iron, p)[3].status.Label() == "high" <==>
      IronRange(p).low <= iron && iron > IronRange(p).high * 1.5
  {
  }

  /** The detailed feedback and the score judge an excess differently:
      Vitamin C of 435 or more is reported as good, yet scores 0. */
  lemma ExcessVitaminCReportedGood(vitC: real)
    requires vitC >= 435.0
    ensures VitaminCEntry(vitC).status == InRange
    ensures CalculateScore(vitC, VitaminCRange.low, VitaminCRange.high) == 0.0
  {
    assert (vitC - 90.0 * 1.5) * 30.0 / 90.0 >= 100.0;
  }

  /** The risk text: age over 50 together with Low activity comes first, then
      a chronic disease other than None, then the generic text. A missing age
      counts as 30 and a missing activity as Moderate. */
  function RiskMessage(p: PersonalData): (r: Text)
    ensures r == AgeRisk || r.DiseaseRisk? || r == GenericRisk
    ensures r == AgeRisk ==> p.age.Some? && p.activity == Some("Low")
    ensures r.DiseaseRisk? ==> p.chronicDisease == Some(r.disease) && r.disease != "None"
  {
    var age := p.age.GetOr(30.0);
    var activity := p.activity.GetOr("Moderate");
    if age > 50.0 && activity == "Low" then AgeRisk
    else if p.chronicDisease.Some? && p.chronicDisease.value != "None" then DiseaseRisk(p.chronicDisease.value)
    else GenericRisk
  }

  /** The order of the risk texts, stated on the fields as given: a missing
      age or activity never selects the age text, and a missing disease or
      the disease None never selects the disease text. */
  lemma RiskMessagePriority(p: PersonalData)
    ensures RiskMessage(p) == AgeRisk <==> p.age.Some? && p.age.value > 50.0 && p.activity == Some("Low")
    ensures RiskMessage(p).DiseaseRisk? <==>
      !(p.age.Some? && p.age.value > 50.0 && p.activity == Some("Low"))
      && p.chronicDisease.Some? && p.chronicDisease.value != "None"
    ensures RiskMessage(p).DiseaseRisk? ==> RiskMessage(p).disease == p.chronicDisease.value
    ensures RiskMessage(p) == GenericRisk <==>
      !(p.age.Some? && p.age.value > 50.0 && p.activity == Some("Low"))
      && (p.chronicDisease == None || p.chronicDisease == Some("None"))
  {
  }

  /** The Vitamin A block of the detailed feedback: low below the range,
      high only above 1.3 times its upper end, good otherwise. */
  method VitaminAFeedback(vitA: real) returns (entry: NutrientFeedback)
    ensures entry == VitaminAEntry(vitA)
  {
    if vitA < VitaminARange.low {
      entry := NutrientFeedback("Vitamin A", vitA, TooLow, VitaminALow);
    } else if vitA > VitaminARange.high * 1.3 {
      entry := NutrientFeedback("Vitamin A", vitA, TooHigh, VitaminAHigh);
    } else {
      entry := NutrientFeedback("Vitamin A", vitA, InRange, VitaminAGood);
    }
  }

  /** The Vitamin C block: low below the range, good otherwise. */
  method VitaminCFeedback(vitC: real) returns (entry: NutrientFeedback)
    ensures entry == VitaminCEntry(vitC)
  {
    if vitC < VitaminCRange.low {
      entry := NutrientFeedback("Vitamin C", vitC, TooLow, VitaminCLow);
    } else {
      entry := NutrientFeedback("Vitamin C", vitC, InRange, VitaminCGood);
    }
  }

  /** The Calcium block: low below the range, good otherwise. */
  method CalciumFeedback(calcium: real) returns (entry: NutrientFeedback)
    ensures entry == CalciumEntry(calcium)
  {
    if calcium < CalciumRange.low {
      entry := NutrientFeedback("Calcium", calcium, TooLow, CalciumLow);
    } else {
      entry := NutrientFeedback("Calcium", calcium, InRange, CalciumGood);
    }
  }

  /** The Iron block: low below the range, high only above 1.5 times its
      upper end, good otherwise. */
  method IronFeedback(iron: real, ironRange: Range) returns (entry: NutrientFeedback)
    ensures entry == IronEntry(iron, ironRange)
  {
    if iron < ironRange.low {
      entry := NutrientFeedback("Iron", iron, TooLow, IronLow);
    } else if iron > ironRange.high * 1.5 {
      entry := NutrientFeedback("Iron", iron, TooHigh, IronHigh);
    } else {
      entry := NutrientFeedback("Iron", iron, InRange, IronGood);
    }
  }

  /** The risk block, run for a Poor diet: the age text for an age over 50
      with Low activity, else the disease text for a chronic disease other
      than None, else the generic text. */
  method RiskFeedback(p: PersonalData) returns (risk: Text)
    ensures risk == RiskMessage(p)
  {
    var age := p.age.GetOr(30.0);
    var activity := p.activity.GetOr("Moderate");
    if age > 50.0 && activity == "Low" {
      risk := AgeRisk;
    } else if p.chronicDisease.Some? && p.chronicDisease.value != "None" {
      risk := DiseaseRisk(p.chronicDisease.value);
    } else {
      risk := GenericRisk;
    }
  }

  /** The feedback record. */
  datatype Feedback = Feedback(
    score: real,
    category: DietCategory,
    color: string,
    message: Option<Text>,
    detailed: seq<NutrientFeedback>,
    riskMessage: Option<Text>)

  /** get_diet_feedback: score the four values, average them, pick the
      category, colour and message, add the four detailed entries one by one,
      and add the risk message for a Poor diet only. */
  method GetDietFeedback(vitA: real, vitC: real, calcium: real, iron: real, p: PersonalData)
    returns (feedback: Feedback)
    ensures 0.0 <= feedback.score <= 100.0
    ensures feedback.score == OverallScore(
      CalculateScore(vitA, VitaminARange.low, VitaminARange.high),
      CalculateScore(vitC, VitaminCRange.low, VitaminCRange.high),
      CalculateScore(calcium, CalciumRange.low, CalciumRange.high),
      CalculateScore(iron, IronRange(p).low, IronRange(p).high))
    ensures feedback.category == CategoryOf(feedback.score)
    ensures feedback.color == feedback.category.Color()
    ensures feedback.message == Some(feedback.category.Message())
    ensures feedback.detailed == Detailed(vitA, vitC, calcium, iron, p)
    ensures feedback.riskMessage.Some? <==> feedback.category == Poor
    ensures feedback.riskMessage.Some? ==> feedback.riskMessage.value == RiskMessage(p)
  {
    var ironRange := if p.gender == Some("Female") then IronRangeFemale else IronRangeMale;
    assert ironRange == IronRange(p);

    var vitAScore := CalculateScore(vitA, VitaminARange.low, VitaminARange.high);
    var vitCScore := CalculateScore(vitC, VitaminCRange.low, VitaminCRange.high);
    var calciumScore := CalculateScore(calcium, CalciumRange.low, CalciumRange.high);
    var ironScore := CalculateScore(iron, ironRange.low, ironRange.high);

    var overall := (vitAScore + vitCScore + calciumScore + ironScore) / 4.0;
    assert 0.0 <= overall <= 100.0 by {
      ScoreBands(vitA, VitaminARange.low, VitaminARange.high);
      ScoreBands(vitC, VitaminCRange.low, VitaminCRange.high);
      ScoreBands(calcium, CalciumRange.low, CalciumRange.high);
      ScoreBands(iron, ironRange.low, ironRange.high);
      OverallScoreBounds(vitAScore, vitCScore, calciumScore, ironScore);
    }

    var category, color;
    if overall >= 85.0 {
      category, color := Excellent, "green";
    } else if overall >= 70.0 {
      category, color := Good, "blue";
    } else if overall >= 55.0 {
      category, color := Average, "green";
    } else {
      category, color := Poor, "red";
    }

    // The message starts out empty and is filled in once the entries are added.
    feedback := Feedback(overall, category, color, None, [], None);

    var nutrientsFeedback: seq<NutrientFeedback> := [];
    var entry := VitaminAFeedback(vitA);
    nutrientsFeedback := nutrientsFeedback + [entry];
    entry := VitaminCFeedback(vitC);
    nutrientsFeedback := nutrientsFeedback + [entry];
    entry := CalciumFeedback(calcium);
    nutrientsFeedback := nutrientsFeedback + [entry];
    entry := IronFeedback(iron, ironRange);
    nutrientsFeedback := nutrientsFeedback + [entry];

    feedback := feedback.(detailed := nutrientsFeedback);
    assert feedback.detailed == Detailed(vitA, vitC, calcium, iron, p);

    if category == Excellent {
      feedback := feedback.(message := Some(ExcellentMessage));
    } else if category == Good {
      feedback := feedback.(message := Some(GoodMessage));
    } else if category == Average {
      feedback := feedback.(message := Some(AverageMessage));
    } else {
      feedback := feedback.(message := Some(PoorMessage));
    }

    if category == Poor {
      var risk := RiskFeedback(p);
      feedback := feedback.(riskMessage := Some(risk));
    }
  }
}
