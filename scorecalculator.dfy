/** The client's lifestyle score (calculateScore in static/script.js) and the
    two threshold tables that read it: the category badge and the
    personalised message. */
module ScoreCalculator {
  import opened UserProfile

  const BaseScore := 70

  /** One line of the score table: `delta` when `holds`, otherwise nothing. */
  function Rule(holds: bool, delta: int): int
  {
    if holds then delta else 0
  }

  /** 1 when a rule fires, for counting how many rules of a field fire. */
  function Fires(holds: bool): nat
  {
    if holds then 1 else 0
  }

  /** The rules of each input field, as the client tests them. */
  function ActivityAdjustment(activity: string): int
  {
    Rule(activity == "High", 10) + Rule(activity == "Low", -10)
  }

  function SleepAdjustment(sleep: int): int
  {
    Rule(sleep >= 7 && sleep <= 9, 5) + Rule(sleep < 6 || sleep > 10, -5)
  }

  function SmokingAdjustment(smoking: string): int
  {
    Rule(smoking == "Yes", -15) + Rule(smoking == "Former", -5)
  }

  function AlcoholAdjustment(alcohol: string): int
  {
    Rule(alcohol == "Regular", -10) + Rule(alcohol == "None", 5)
  }

  function DiseaseAdjustment(disease: string): int
  {
    Rule(disease != "None", -10)
  }

  /** The BMI rules on the parsed BMI, as the client compares it. */
  function BmiAdjustment(bmi: real): int
  {
    Rule(bmi >= 18.5 && bmi <= 24.9, 10) + Rule(bmi >= 25.0 && bmi <= 29.9, -5)
    + Rule(bmi >= 30.0, -15) + Rule(bmi < 18.5, -10)
  }

  /** How many of the four BMI rules fire. */
  function BmiRulesFired(bmi: real): nat
  {
    Fires(bmi >= 18.5 && bmi <= 24.9) + Fires(bmi >= 25.0 && bmi <= 29.9)
    + Fires(bmi >= 30.0) + Fires(bmi < 18.5)
  }

  /** The score before the final clamp: the base plus every rule that fires. */
  function RawScore(u: UserData): int
  {
    BaseScore + ActivityAdjustment(u.activity) + SleepAdjustment(u.sleep)
    + SmokingAdjustment(u.smoking) + AlcoholAdjustment(u.alcohol)
    + DiseaseAdjustment(u.disease) + BmiAdjustment(Bmi(u))
  }

  /** Every input field adds at most one adjustment: High and Low activity,
      the two sleep bands, Yes and Former smoking, Regular and None alcohol
      exclude each other, so a field adds nothing or exactly one rule's delta,
      never the sum of two. Activity values other than High and Low, and
      sleep of exactly 6 or 10 hours, add nothing. */
  lemma AtMostOneRulePerField(u: UserData)
    ensures Fires(u.activity == "High") + Fires(u.activity == "Low") <= 1
    ensures ActivityAdjustment(u.activity) in {10, -10, 0}
    ensures u.activity != "High" && u.activity != "Low" ==> ActivityAdjustment(u.activity) == 0
    ensures Fires(u.sleep >= 7 && u.sleep <= 9) + Fires(u.sleep < 6 || u.sleep > 10) <= 1
    ensures SleepAdjustment(u.sleep) in {5, -5, 0}
    ensures u.sleep == 6 || u.sleep == 10 ==> SleepAdjustment(u.sleep) == 0
    ensures Fires(u.smoking == "Yes") + Fires(u.smoking == "Former") <= 1
    ensures SmokingAdjustment(u.smoking) in {-15, -5, 0}
    ensures Fires(u.alcohol == "Regular") + Fires(u.alcohol == "None") <= 1
    ensures AlcoholAdjustment(u.alcohol) in {-10, 5, 0}
    ensures DiseaseAdjustment(u.disease) in {-10, 0}
  {
  }

  /** With the BMI held to one decimal, exactly one of the four BMI rules
      fires: [18.5, 24.9] adds 10, [25, 29.9] takes 5, 30 and above takes 15,
      below 18.5 takes 10. */
  lemma ExactlyOneBmiRule(u: UserData)
    ensures BmiRulesFired(Bmi(u)) == 1
    ensures BmiAdjustment(Bmi(u)) in {10, -5, -15, -10}
  {
    var t := u.bmiTenths;
    assert t <= 249 || t >= 250;
    assert t <= 299 || t >= 300;
  }

  /** The one-decimal rounding is what makes the BMI rules total: an
      unrounded BMI between 24.9 and 25 (or between 29.9 and 30) matches none
      and adds nothing. */
  lemma UnroundedBmiFallsBetweenRules()
    ensures BmiRulesFired(24.95) == 0 && BmiAdjustment(24.95) == 0
    ensures BmiRulesFired(29.95) == 0 && BmiAdjustment(29.95) == 0
  {
  }

  /** Without the clamp the score already lies in [5, 100]: at best
      70 + 10 + 5 + 0 + 5 + 0 + 10, at worst 70 - 10 - 5 - 15 - 10 - 10 - 15. */
  lemma RawScoreBounds(u: UserData)
    ensures 5 <= RawScore(u) <= 100
  {
    AtMostOneRulePerField(u);
    ExactlyOneBmiRule(u);
  }

  /** Math.max(0, Math.min(100, x)). Math.round leaves the integer total as it is. */
  function Clamp(x: int): int
  {
    if 100 < x then 100 else if x < 0 then 0 else x
  }

  /** The clamp lands in [0, 100] and leaves a value already there unchanged. */
  lemma ClampBounds(x: int)
    ensures 0 <= Clamp(x) <= 100
    ensures 0 <= x <= 100 <==> Clamp(x) == x
  {
  }

  /** The clamped score is in [0, 100], and the clamp never changes the total. */
  lemma ClampNeverBites(u: UserData)
    ensures 0 <= Clamp(RawScore(u)) <= 100
    ensures Clamp(RawScore(u)) == RawScore(u)
  {
    RawScoreBounds(u);
  }

  /** calculateScore: start at 70, apply the rules field by field in the
      order the client tests them, then clamp to [0, 100]. */
  method CalculateScore(u: UserData) returns (score: int)
    ensures score == Clamp(RawScore(u))
  {
    score := BaseScore;

    if u.activity == "High" { score := score + 10; }
    if u.activity == "Low" { score := score - 10; }
    assert score == BaseScore + ActivityAdjustment(u.activity);

    if u.sleep >= 7 && u.sleep <= 9 { score := score + 5; }
    if u.sleep < 6 || u.sleep > 10 { score := score - 5; }
    assert score == BaseScore + ActivityAdjustment(u.activity) + SleepAdjustment(u.sleep);

    if u.smoking == "Yes" { score := score - 15; }
    if u.smoking == "Former" { score := score - 5; }
    assert score == BaseScore + ActivityAdjustment(u.activity) + SleepAdjustment(u.sleep)
      + SmokingAdjustment(u.smoking);

    if u.alcohol == "Regular" { score := score - 10; }
    if u.alcohol == "None" { score := score + 5; }
    assert score == BaseScore + ActivityAdjustment(u.activity) + SleepAdjustment(u.sleep)
      + SmokingAdjustment(u.smoking) + AlcoholAdjustment(u.alcohol);

    if u.disease != "None" { score := score - 10; }
    assert score == RawScore(u) - BmiAdjustment(Bmi(u));

    var bmi := Bmi(u);
    if bmi >= 18.5 && bmi <= 24.9 { score := score + 10; }
    if bmi >= 25.0 && bmi <= 29.9 { score := score - 5; }
    if bmi >= 30.0 { score := score - 15; }
    if bmi < 18.5 { score := score - 10; }
    assert score == RawScore(u);

    score := Clamp(score);
  }

  /** The best-case profile: male, 70 kg, 175 cm (BMI 22.9), high activity,
      8 hours of sleep, non-smoker, no alcohol, no disease scores 100. */
  lemma BestCaseScoresFullMarks(u: UserData)
    requires u.activity == "High" && u.sleep == 8 && u.smoking == "No"
    requires u.alcohol == "None" && u.disease == "None" && u.bmiTenths == 229
    ensures RawScore(u) == 100
  {
  }

  /** The BMI rule that fires, in terms of the weight and height the BMI was
      derived from: toFixed(1) moves each cut point of the rules to the
      half-tenth below it, so the rules split the raw BMI at 18.45, 24.95 and
      29.95. */
  lemma DerivedBmiAdjustment(u: UserData)
    requires HasDerivedBmi(u)
    ensures RawBmi(u.weightKg, u.heightCm) < 18.45 ==> BmiAdjustment(Bmi(u)) == -10
    ensures 18.45 <= RawBmi(u.weightKg, u.heightCm) < 24.95 ==> BmiAdjustment(Bmi(u)) == 10
    ensures 24.95 <= RawBmi(u.weightKg, u.heightCm) < 29.95 ==> BmiAdjustment(Bmi(u)) == -5
    ensures 29.95 <= RawBmi(u.weightKg, u.heightCm) ==> BmiAdjustment(Bmi(u)) == -15
  {
    var t := u.bmiTenths;
    var raw := RawBmi(u.weightKg, u.heightCm);
    if raw < 18.45 {
      assert t <= 184;
    } else if raw < 24.95 {
      assert 185 <= t <= 249;
    } else if raw < 29.95 {
      assert 250 <= t <= 299;
    } else {
      assert t >= 300;
    }
  }

  /** A 70 kg, 175 cm profile is stored with BMI 22.9, so with the best
      answers to the other questions it scores full marks. */
  lemma BestCaseFromWeightAndHeight(u: UserData)
    requires u.activity == "High" && u.sleep == 8 && u.smoking == "No"
    requires u.alcohol == "None" && u.disease == "None"
    requires u.weightKg == 70.0 && u.heightCm == 175.0 && HasDerivedBmi(u)
    ensures u.bmiTenths == 229
    ensures RawScore(u) == 100
  {
    assert RawBmi(70.0, 175.0) == 70.0 / 3.0625;
    BestCaseScoresFullMarks(u);
  }

  /** The worst case reaches 5 before the clamp, not below 0. */
  lemma WorstCaseScore(u: UserData)
    requires u.activity == "Low" && u.sleep == 5 && u.smoking == "Yes"
    requires u.alcohol == "Regular" && u.disease == "Diabetes" && u.bmiTenths == 320
    ensures RawScore(u) == 5
  {
  }

  /** The category badge of updateScoreCategory. */
  datatype ScoreCategory = Excellent | Good | Average | BelowAverage | Poor
  {
    function Label(): string
    {
      match this
      case Excellent => "Excellent"
      case Good => "Good"
      case Average => "Average"
      case BelowAverage => "Below Average"
      case Poor => "Poor"
    }

    function Color(): string
    {
      match this
      case Excellent => "#4CAF50"
      case Good => "#8BC34A"
      case Average => "#FFC107"
      case BelowAverage => "#FF9800"
      case Poor => "#F44336"
    }

    /** Poor is 0, Excellent is 4. */
    function Rank(): nat
    {
      match this
      case Excellent => 4
      case Good => 3
      case Average => 2
      case BelowAverage => 1
      case Poor => 0
    }
  }

  /** updateScoreCategory: the first of the thresholds 90, 75, 60, 40 that the
      score reaches decides the category; below all of them it is Poor. */
  function CategoryOf(score: int): (c: ScoreCategory)
    ensures c == Excellent <==> score >= 90
    ensures c == Good <==> 75 <= score < 90
    ensures c == Average <==> 60 <= score < 75
    ensures c == BelowAverage <==> 40 <= score < 60
    ensures c == Poor <==> score < 40
  {
    if score >= 90 then Excellent
    else if score >= 75 then Good
    else if score >= 60 then Average
    else if score >= 40 then BelowAverage
    else Poor
  }

  /** A higher score never gets a lower category. */
  lemma CategoryMonotone(s1: int, s2: int)
    requires s1 <= s2
    ensures CategoryOf(s1).Rank() <= CategoryOf(s2).Rank()
  {
  }

  /** The five categories carry five different labels and colours. */
  lemma CategoryLabelsDistinct(c1: ScoreCategory, c2: ScoreCategory)
    requires c1 != c2
    ensures c1.Label() != c2.Label() && c1.Color() != c2.Color()
  {
  }

  /** The four texts of generatePersonalizedMessage, best first. */
  const Messages: seq<string> := [
    "Your nutrient profile looks excellent! Your lifestyle choices are supporting good nutritional health.",
    "Your nutrient profile is good, but there's room for improvement in some areas.",
    "Your nutrient profile needs attention. Consider making some lifestyle changes to improve your nutritional health.",
    "Your nutrient profile indicates significant nutritional concerns. We recommend consulting with a healthcare professional."
  ]

  /** Which message a score gets: cut points 80, 60 and 40. */
  function MessageTier(score: int): (k: nat)
    ensures k < |Messages|
    ensures k == 0 <==> score >= 80
    ensures k == 1 <==> 60 <= score < 80
    ensures k == 2 <==> 40 <= score < 60
    ensures k == 3 <==> score < 40
  {
    if score >= 80 then 0
    else if score >= 60 then 1
    else if score >= 40 then 2
    else 3
  }

  /** generatePersonalizedMessage: the first of the cut points 80, 60 and 40
      that the score reaches picks the text, and a lower score the last one. */
  function PersonalizedMessage(score: int): (m: string)
    ensures m in Messages
    ensures score >= 80 ==> m == Messages[0]
    ensures 60 <= score < 80 ==> m == Messages[1]
    ensures 40 <= score < 60 ==> m == Messages[2]
    ensures score < 40 ==> m == Messages[3]
  {
    Messages[MessageTier(score)]
  }

  /** The message tier a category would get if both tables used the same cut points. */
  function TierOfCategory(c: ScoreCategory): nat
  {
    match c
    case Excellent => 0
    case Good => 0
    case Average => 1
    case BelowAverage => 2
    case Poor => 3
  }

  /** The two tables agree everywhere except on scores 75 to 79, which are
      Good but get the second message. */
  lemma MessageAgreesWithCategory(score: int)
    ensures PersonalizedMessage(score) == Messages[if 75 <= score < 80 then 1 else TierOfCategory(CategoryOf(score))]
    ensures 75 <= score < 80 ==> CategoryOf(score) == Good && PersonalizedMessage(score) != Messages[0]
  {
  }

  /** A higher score never gets a worse message. */
  lemma MessageMonotone(s1: int, s2: int)
    requires s1 <= s2
    ensures MessageTier(s2) <= MessageTier(s1)
  {
  }
}
