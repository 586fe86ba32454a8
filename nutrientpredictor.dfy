/** The client's nutrient estimate (predictNutrientLevels in static/script.js):
    seven predicted levels, as a percentage of the recommended intake, from a
    gender and activity multiplier and the protein and fat shares of the
    diet. Numbers are exact reals; Math.round is UserProfile.Round. */
module NutrientPredictor {
  import opened UserProfile

  /** The seven nutrients, in the order the client lists them. */
  datatype Nutrient = VitaminA | VitaminC | VitaminD | Calcium | Iron | Magnesium | Zinc
  {
    /** The key the client uses for the nutrient. */
    function Name(): string
    {
      match this
      case VitaminA => "Vitamin A"
      case VitaminC => "Vitamin C"
      case VitaminD => "Vitamin D"
      case Calcium => "Calcium"
      case Iron => "Iron"
      case Magnesium => "Magnesium"
      case Zinc => "Zinc"
    }

    /** The nutrient's position in the client's order. */
    function Index(): nat
    {
      match this
      case VitaminA => 0
      case VitaminC => 1
      case VitaminD => 2
      case Calcium => 3
      case Iron => 4
      case Magnesium => 5
      case Zinc => 6
    }
  }

  const Nutrients: seq<Nutrient> := [VitaminA, VitaminC, VitaminD, Calcium, Iron, Magnesium, Zinc]

  /** Every recommended level is 100 (per cent). */
  const Recommended := 100

  /** One entry of the prediction: the nutrient, its predicted and its recommended level. */
  datatype Level = Level(nutrient: Nutrient, predicted: int, recommended: int)

  /** Male profiles get 1.1, every other gender 0.9. */
  function GenderFactor(gender: string): real
  {
    if gender == "Male" then 1.1 else 0.9
  }

  /** High activity 1.2, Low 0.8, anything else leaves the multiplier alone. */
  function ActivityFactor(activity: string): real
  {
    if activity == "High" then 1.2 else if activity == "Low" then 0.8 else 1.0
  }

  /** The base multiplier every prediction is scaled by. */
  function Multiplier(u: UserData): (m: real)
    ensures 0.72 <= m <= 1.32
  {
    GenderFactor(u.gender) * ActivityFactor(u.activity)
  }

  /** Grams of a macronutrient per 1000 calories. */
  function PerThousandCalories(grams: int, calories: int): real
    requires calories != 0
  {
    grams as real / calories as real * 1000.0
  }

  /** The unrounded prediction of one nutrient. Calcium and Iron use the
      female factor only for "Female", so a gender that is neither Male nor
      Female takes the 0.9 multiplier together with the male factors. */
  function Estimate(u: UserData, n: Nutrient): real
    requires u.calories != 0
  {
    var m := Multiplier(u);
    match n
    case VitaminA => 80.0 * m * (1.0 + (PerThousandCalories(u.fat, u.calories) - 30.0) / 100.0)
    case VitaminC => 70.0 * m * (1.0 - (if u.smoking == "Yes" then 0.3 else 0.0))
    case VitaminD => 60.0 * m
    case Calcium => 75.0 * m * (if u.gender == "Female" then 0.9 else 1.1)
    case Iron => 85.0 * m * (if u.gender == "Female" then 0.8 else 1.2)
    case Magnesium => 65.0 * m * (1.0 + (PerThousandCalories(u.protein, u.calories) - 35.0) / 100.0)
    case Zinc => 70.0 * m
  }

  /** The predicted level of one nutrient: the estimate rounded by Math.round. */
  function Predicted(u: UserData, n: Nutrient): int
    requires u.calories != 0
  {
    Round(Estimate(u, n))
  }

  /** The whole prediction, one entry per nutrient in the client's order. */
  function PredictedLevels(u: UserData): seq<Level>
    requires u.calories != 0
  {
    seq(|Nutrients|, i requires 0 <= i < |Nutrients| => Level(Nutrients[i], Predicted(u, Nutrients[i]), Recommended))
  }

  /** predictNutrientLevels: the multiplier is built step by step from 1.0,
      then the seven entries are produced in order, each with recommended
      level 100. */
  method PredictNutrientLevels(u: UserData) returns (levels: seq<Level>)
    requires u.calories != 0
    ensures levels == PredictedLevels(u)
  {
    var baseMultiplier := 1.0;

    if u.gender == "Male" {
      baseMultiplier := baseMultiplier * 1.1;
    } else {
      baseMultiplier := baseMultiplier * 0.9;
    }

    if u.activity == "High" {
      baseMultiplier := baseMultiplier * 1.2;
    } else if u.activity == "Low" {
      baseMultiplier := baseMultiplier * 0.8;
    }
    assert baseMultiplier == Multiplier(u);

    var proteinRatio := PerThousandCalories(u.protein, u.calories);
    var fatRatio := PerThousandCalories(u.fat, u.calories);

    levels := [
      Level(VitaminA, Round(80.0 * baseMultiplier * (1.0 + (fatRatio - 30.0) / 100.0)), 100),
      Level(VitaminC, Round(70.0 * baseMultiplier * (1.0 - (if u.smoking == "Yes" then 0.3 else 0.0))), 100),
      Level(VitaminD, Round(60.0 * baseMultiplier), 100),
      Level(Calcium, Round(75.0 * baseMultiplier * (if u.gender == "Female" then 0.9 else 1.1)), 100),
      Level(Iron, Round(85.0 * baseMultiplier * (if u.gender == "Female" then 0.8 else 1.2)), 100),
      Level(Magnesium, Round(65.0 * baseMultiplier * (1.0 + (proteinRatio - 35.0) / 100.0)), 100),
      Level(Zinc, Round(70.0 * baseMultiplier), 100)
    ];
    assert levels[0].predicted == Predicted(u, VitaminA);
    assert levels[1].predicted == Predicted(u, VitaminC);
    assert levels[2].predicted == Predicted(u, VitaminD);
    assert levels[3].predicted == Predicted(u, Calcium);
    assert levels[4].predicted == Predicted(u, Iron);
    assert levels[5].predicted == Predicted(u, Magnesium);
    assert levels[6].predicted == Predicted(u, Zinc);
  }

  /** Exactly seven entries, in the fixed nutrient order, each predicted by
      its own formula and each recommended at 100. */
  lemma SevenLevelsInOrder(u: UserData)
    requires u.calories != 0
    ensures |PredictedLevels(u)| == 7
    ensures forall i :: 0 <= i < 7 ==> PredictedLevels(u)[i].nutrient == Nutrients[i]
    ensures forall i :: 0 <= i < 7 ==> PredictedLevels(u)[i].predicted == Predicted(u, Nutrients[i])
    ensures forall i :: 0 <= i < 7 ==> PredictedLevels(u)[i].recommended == 100
    ensures forall i, j :: 0 <= i < j < 7 ==> Nutrients[i] != Nutrients[j]
  {
  }

  /** The multiplier is one of six values, all positive: 1.1 or 0.9 for
      gender times 1.2, 0.8 or 1 for activity. */
  lemma MultiplierValues(u: UserData)
    ensures Multiplier(u) in {1.32, 0.88, 1.1, 1.08, 0.72, 0.9}
    ensures 0.72 <= Multiplier(u) <= 1.32
  {
  }

  /** Vitamin D and Zinc read nothing but gender and activity. */
  lemma MultiplierOnlyNutrients(u1: UserData, u2: UserData)
    requires u1.calories != 0 && u2.calories != 0
    requires u1.gender == u2.gender && u1.activity == u2.activity
    ensures Predicted(u1, VitaminD) == Predicted(u2, VitaminD)
    ensures Predicted(u1, Zinc) == Predicted(u2, Zinc)
  {
  }

  /** Smoking never raises Vitamin C: a smoker's prediction is at most the
      same profile's prediction without smoking. */
  lemma SmokingOnlyLowersVitaminC(u: UserData)
    requires u.calories != 0
    ensures Predicted(u.(smoking := "Yes"), VitaminC) <= Predicted(u.(smoking := "No"), VitaminC)
  {
    var m := Multiplier(u);
    MultiplierValues(u);
    assert Estimate(u.(smoking := "Yes"), VitaminC) == 70.0 * m * 0.7;
    assert Estimate(u.(smoking := "No"), VitaminC) == 70.0 * m;
    RoundMonotone(70.0 * m * 0.7, 70.0 * m);
  }

  /** Smoking touches no other nutrient. */
  lemma SmokingAffectsOnlyVitaminC(u: UserData, n: Nutrient)
    requires u.calories != 0 && n != VitaminC
    ensures Predicted(u.(smoking := "Yes"), n) == Predicted(u.(smoking := "No"), n)
  {
    var yes, no := u.(smoking := "Yes"), u.(smoking := "No");
    assert Multiplier(yes) == Multiplier(u) == Multiplier(no);
    assert Estimate(yes, n) == Estimate(no, n);
  }

  /** A gender that is neither Male nor Female takes the 0.9 multiplier and
      the non-female Calcium and Iron factors 1.1 and 1.2. */
  lemma OtherGenderMixesFactors(u: UserData)
    requires u.calories != 0 && u.gender != "Male" && u.gender != "Female"
    ensures GenderFactor(u.gender) == 0.9
    ensures Predicted(u, Calcium) == Round(75.0 * (0.9 * ActivityFactor(u.activity)) * 1.1)
    ensures Predicted(u, Iron) == Round(85.0 * (0.9 * ActivityFactor(u.activity)) * 1.2)
  {
  }

  /** Vitamin D is predicted between 43 and 79 for every profile, so always
      below 85; Zinc between 50 and 92, so never above 115. */
  lemma VitaminDAndZincBounds(u: UserData)
    requires u.calories != 0
    ensures 43 <= Predicted(u, VitaminD) <= 79
    ensures 50 <= Predicted(u, Zinc) <= 92
  {
    MultiplierValues(u);
    var m := Multiplier(u);
    RoundMonotone(60.0 * 0.72, 60.0 * m);
    RoundMonotone(60.0 * m, 60.0 * 1.32);
    RoundMonotone(70.0 * 0.72, 70.0 * m);
    RoundMonotone(70.0 * m, 70.0 * 1.32);
  }

  /** More fat per calorie never lowers Vitamin A. */
  lemma VitaminAMonotoneInFat(u: UserData, fat: int)
    requires u.calories > 0 && u.fat <= fat
    ensures Predicted(u, VitaminA) <= Predicted(u.(fat := fat), VitaminA)
  {
    var v := u.(fat := fat);
    var m := Multiplier(u);
    assert Multiplier(v) == m;
    MultiplierValues(u);
    var a1 := PerThousandCalories(u.fat, u.calories);
    var a2 := PerThousandCalories(fat, u.calories);
    ShareMonotone(u.fat, fat, u.calories);
    ScaleMonotone(80.0 * m, 1.0 + (a1 - 30.0) / 100.0, 1.0 + (a2 - 30.0) / 100.0);
    RoundMonotone(Estimate(u, VitaminA), Estimate(v, VitaminA));
  }

  /** More protein per calorie never lowers Magnesium. */
  lemma MagnesiumMonotoneInProtein(u: UserData, protein: int)
    requires u.calories > 0 && u.protein <= protein
    ensures Predicted(u, Magnesium) <= Predicted(u.(protein := protein), Magnesium)
  {
    var v := u.(protein := protein);
    var m := Multiplier(u);
    assert Multiplier(v) == m;
    MultiplierValues(u);
    var p1 := PerThousandCalories(u.protein, u.calories);
    var p2 := PerThousandCalories(protein, u.calories);
    ShareMonotone(u.protein, protein, u.calories);
    ScaleMonotone(65.0 * m, 1.0 + (p1 - 35.0) / 100.0, 1.0 + (p2 - 35.0) / 100.0);
    RoundMonotone(Estimate(u, Magnesium), Estimate(v, Magnesium));
  }

  /** More grams over the same positive calories is a larger share. */
  lemma ShareMonotone(g1: int, g2: int, calories: int)
    requires g1 <= g2 && calories > 0
    ensures PerThousandCalories(g1, calories) <= PerThousandCalories(g2, calories)
  {
    var c := calories as real;
    assert g1 as real / c <= g2 as real / c by {
      assert g1 as real / c * c == g1 as real && g2 as real / c * c == g2 as real;
    }
  }

  lemma ScaleMonotone(k: real, x: real, y: real)
    requires k >= 0.0 && x <= y
    ensures k * x <= k * y
  {
  }
}
