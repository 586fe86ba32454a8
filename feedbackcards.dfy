/** The client's nutrient feedback (generateFeedbackCards and getNutrientTips
    in static/script.js): one card per nutrient predicted outside the optimal
    band, with the tips for a low or a high level, or a single card praising
    the balance when no nutrient needs one. */
module FeedbackCards {
  import opened UserProfile
  import opened NutrientPredictor
  import opened Optional

  /** The icon class of a card, which says how the level relates to the band. */
  datatype Status = Deficient | Marginal | Excess | Optimal

  /** The content of one card: its heading, status, message and tips. */
  datatype Card = Card(heading: string, status: Status, message: string, tips: seq<string>)

  const FallbackTip := "Consult with a nutritionist for personalized advice"

  /** One entry of the tips table: a nutrient name with its 'low' and 'high' tips. */
  datatype TipRow = TipRow(name: string, low: seq<string>, high: seq<string>)

  /** The tips table of getNutrientTips, one row per nutrient key in the
      order the client writes them. */
  const TipTable: seq<TipRow> := [
    TipRow("Vitamin A",
      [
        "Include more orange and yellow vegetables like carrots and sweet potatoes",
        "Add dark leafy greens like spinach and kale to your diet",
        "Consider eating liver or fish oil occasionally"],
      [
        "Avoid excessive supplementation of Vitamin A",
        "Limit consumption of liver and fish oils",
        "Consult with a healthcare provider about your intake"]),
    TipRow("Vitamin C",
      [
        "Increase citrus fruits like oranges and grapefruits",
        "Add bell peppers and strawberries to your meals",
        "Consider kiwi fruit and broccoli for Vitamin C sources"],
      [
        "Reduce supplementation if taking Vitamin C supplements",
        "Excessive Vitamin C is usually excreted, but may cause digestive issues"]),
    TipRow("Vitamin D",
      [
        "Get moderate sun exposure (15-30 minutes several times a week)",
        "Include fatty fish like salmon and mackerel in your diet",
        "Consider fortified foods like milk, orange juice, or cereals"],
      [
        "Reduce supplementation if taking high doses",
        "Avoid multiple supplements containing Vitamin D",
        "Consult with a healthcare provider about your levels"]),
    TipRow("Calcium",
      [
        "Include more dairy products like milk, yogurt, and cheese",
        "Try calcium-rich non-dairy foods like fortified plant milks and tofu",
        "Add leafy greens like kale and bok choy to your diet"],
      [
        "Avoid excessive calcium supplementation",
        "If taking antacids containing calcium, consider alternatives",
        "Drink plenty of water to prevent kidney stone formation"]),
    TipRow("Iron",
      [
        "Include lean red meat in your diet",
        "Add plant-based iron sources like beans, lentils, and spinach",
        "Consume iron with Vitamin C to improve absorption"],
      [
        "Avoid cooking in cast iron cookware if levels are high",
        "Reduce red meat consumption",
        "Consult with a healthcare provider about potential causes"]),
    TipRow("Magnesium",
      [
        "Include more nuts and seeds in your diet",
        "Add whole grains like brown rice and whole wheat",
        "Consider leafy greens and legumes for more magnesium"],
      [
        "Review medications and supplements that may contain magnesium",
        "High levels are rare from diet alone but can occur with supplements"]),
    TipRow("Zinc",
      [
        "Include more oysters, red meat, and poultry",
        "Add beans, nuts, and whole grains to your diet",
        "Consider pumpkin seeds as a good plant-based source"],
      [
        "Avoid excessive supplementation",
        "Review any zinc lozenges or cold remedies you may be taking",
        "Be aware that high zinc can interfere with copper absorption"])
  ]

  /** The row stored under a key: the first row with that name, if any. */
  function FindRow(table: seq<TipRow>, name: string): (r: Option<TipRow>)
    ensures r.Some? ==> r.value in table && r.value.name == name
    ensures r.None? <==> forall i :: 0 <= i < |table| ==> table[i].name != name
  {
    if table == [] then None
    else if table[0].name == name then Some(table[0])
    else FindRow(table[1..], name)
  }

  /** Every row holds two or three tips for each level. */
  predicate WellStocked(table: seq<TipRow>)
  {
    forall i :: 0 <= i < |table| ==> 2 <= |table[i].low| <= 3 && 2 <= |table[i].high| <= 3
  }

  /** getNutrientTips over a given table: the 'low' or 'high' list of the
      nutrient's row when the row exists and the level is one of those two,
      otherwise the single fallback tip. Over a well-stocked table the answer
      is never empty. */
  function NutrientTips(table: seq<TipRow>, nutrient: string, level: string): (tips: seq<string>)
    ensures FindRow(table, nutrient).None? ==> tips == [FallbackTip]
    ensures level != "low" && level != "high" ==> tips == [FallbackTip]
    ensures FindRow(table, nutrient).Some? && level == "low" ==> tips == FindRow(table, nutrient).value.low
    ensures FindRow(table, nutrient).Some? && level == "high" ==> tips == FindRow(table, nutrient).value.high
    ensures WellStocked(table) ==> 1 <= |tips| <= 3
  {
    match FindRow(table, nutrient)
    case None => [FallbackTip]
    case Some(row) =>
      if level == "low" then row.low
      else if level == "high" then row.high
      else [FallbackTip]
  }

  /** A table with one row per nutrient, in nutrient order. */
  predicate RowPerNutrient(table: seq<TipRow>)
  {
    |table| == |Nutrients| && forall i :: 0 <= i < |Nutrients| ==> table[i].name == Nutrients[i].Name()
  }

  /** The client's table has a row for each of the seven nutrients, in
      nutrient order. */
  lemma TipTableRows()
    ensures RowPerNutrient(TipTable)
  {
  }

  /** No two rows of a table share a key. */
  predicate DistinctKeys(table: seq<TipRow>)
  {
    forall i, j :: 0 <= i < j < |table| ==> table[i].name != table[j].name
  }

  /** The client's table, an object literal, has no key twice, so the first
      matching row is the only one. */
  lemma TipTableKeysDistinct()
    ensures DistinctKeys(TipTable)
  {
  }

  /** Every row of the client's table holds two or three tips per level. */
  lemma TipTableStocked()
    ensures WellStocked(TipTable)
  {
  }

  /** Over a well-stocked table with a row per nutrient, every nutrient name
      gets two or three tips for 'low' and for 'high', and any other key gets
      the fallback tip. */
  lemma TipsOfRowPerNutrient(table: seq<TipRow>, nutrient: string, level: string)
    requires RowPerNutrient(table) && WellStocked(table)
    ensures 1 <= |NutrientTips(table, nutrient, level)| <= 3
    ensures (forall n: Nutrient :: nutrient != n.Name()) ==> NutrientTips(table, nutrient, level) == [FallbackTip]
    ensures (exists n: Nutrient :: nutrient == n.Name()) && (level == "low" || level == "high")
      ==> 2 <= |NutrientTips(table, nutrient, level)| <= 3
  {
    if forall n: Nutrient :: nutrient != n.Name() {
      forall i | 0 <= i < |table|
        ensures table[i].name != nutrient
      {
        assert table[i].name == Nutrients[i].Name();
      }
    }
    if exists n: Nutrient :: nutrient == n.Name() {
      var n: Nutrient :| nutrient == n.Name();
      var i := n.Index();
      assert Nutrients[i] == n;
      assert table[i].name == nutrient;
    }
  }

  /** getNutrientTips never answers with an empty list: each of the seven
      nutrients finds its row, with two or three tips per level, and any
      other key gets the fallback tip. */
  lemma TipsNeverEmpty(nutrient: string, level: string)
    ensures 1 <= |NutrientTips(TipTable, nutrient, level)| <= 3
    ensures (forall n: Nutrient :: nutrient != n.Name()) ==> NutrientTips(TipTable, nutrient, level) == [FallbackTip]
    ensures (exists n: Nutrient :: nutrient == n.Name()) && (level == "low" || level == "high")
      ==> 2 <= |NutrientTips(TipTable, nutrient, level)| <= 3
  {
    TipTableRows();
    TipTableStocked();
    TipsOfRowPerNutrient(TipTable, nutrient, level);
  }

  /** A predicted level inside [85, 115] needs no card. */
  predicate InOptimalBand(l: Level)
  {
    85 <= l.predicted && l.predicted <= 115
  }

  function LowMessage(name: string): string
  {
    "Your " + name + " levels are predicted to be low."
  }

  function MarginalMessage(name: string): string
  {
    "Your " + name + " levels may be slightly below optimal."
  }

  function ExcessMessage(name: string): string
  {
    "Your " + name + " levels may be higher than recommended."
  }

  /** The card of a level outside the optimal band: Deficient below 70 and
      Marginal from 70 to 84, both with the 'low' tips; Excess above 115,
      with the 'high' tips. */
  function CardOf(table: seq<TipRow>, l: Level): (c: Card)
    requires !InOptimalBand(l)
    ensures c.heading == l.nutrient.Name()
    ensures c.status == Deficient <==> l.predicted < 70
    ensures c.status == Marginal <==> 70 <= l.predicted < 85
    ensures c.status == Excess <==> l.predicted > 115
    ensures c.status != Optimal
    ensures c.tips == NutrientTips(table, l.nutrient.Name(), if l.predicted > 115 then "high" else "low")
  {
    var name := l.nutrient.Name();
    if l.predicted < 70 then Card(name, Deficient, LowMessage(name), NutrientTips(table, name, "low"))
    else if l.predicted < 85 then Card(name, Marginal, MarginalMessage(name), NutrientTips(table, name, "low"))
    else Card(name, Excess, ExcessMessage(name), NutrientTips(table, name, "high"))
  }

  /** The cards of a list of levels, in list order: one per level outside the band. */
  function Items(table: seq<TipRow>, ls: seq<Level>): seq<Card>
  {
    if ls == [] then []
    else Items(table, ls[..|ls| - 1]) + (if InOptimalBand(ls[|ls| - 1]) then [] else [CardOf(table, ls[|ls| - 1])])
  }

  /** The positions of the levels that produce a card, in increasing order. */
  function Sources(ls: seq<Level>): (ix: seq<nat>)
    ensures forall k :: 0 <= k < |ix| ==> ix[k] < |ls|
    ensures forall k1, k2 :: 0 <= k1 < k2 < |ix| ==> ix[k1] < ix[k2]
    ensures forall i :: 0 <= i < |ls| ==> (i in ix <==> !InOptimalBand(ls[i]))
  {
    if ls == [] then []
    else
      var init := ls[..|ls| - 1];
      var rest := Sources(init);
      assert forall i :: 0 <= i < |init| ==> init[i] == ls[i];
      rest + (if InOptimalBand(ls[|ls| - 1]) then [] else [|ls| - 1])
  }

  /** The k-th card is the card of the k-th level outside the band: the cards
      keep the order of the levels, and no level is skipped or repeated. */
  lemma {:induction false} ItemsFollowSources(table: seq<TipRow>, ls: seq<Level>)
    ensures |Items(table, ls)| == |Sources(ls)|
    ensures forall k :: 0 <= k < |Sources(ls)| ==> !InOptimalBand(ls[Sources(ls)[k]])
    ensures forall k :: 0 <= k < |Items(table, ls)| ==> Items(table, ls)[k] == CardOf(table, ls[Sources(ls)[k]])
  {
    if ls != [] {
      var init := ls[..|ls| - 1];
      ItemsFollowSources(table, init);
      assert forall i :: 0 <= i < |init| ==> init[i] == ls[i];
    }
  }

  /** The card praising the balance, shown only when no other card was produced. */
  const OptimalCard := Card(
    "Excellent Nutrient Balance",
    Optimal,
    "Based on your inputs, your predicted nutrient levels are well-balanced. Keep up your healthy lifestyle!",
    [ "Regular exercise and physical activity",
      "Balanced diet with variety of foods",
      "Adequate hydration throughout the day",
      "Regular health check-ups"])

  /** All cards of a prediction: the out-of-band cards, or the optimal card alone. */
  function Feedback(table: seq<TipRow>, ls: seq<Level>): (cards: seq<Card>)
    ensures 1 <= |cards|
    ensures ls == [] ==> cards == [OptimalCard]
  {
    var items := Items(table, ls);
    if |items| == 0 then [OptimalCard] else items
  }

  /** The loop of generateFeedbackCards over the predicted levels: skip each
      one inside [85, 115], append a card for each other one, and append the
      optimal card when nothing was appended. */
  method CardsForLevels(levels: seq<Level>, table: seq<TipRow>) returns (cards: seq<Card>)
    ensures cards == Feedback(table, levels)
  {
    cards := [];

    for i := 0 to |levels|
      invariant cards == Items(table, levels[..i])
    {
      assert levels[..i + 1][..i] == levels[..i];
      var data := levels[i];
      if 85 <= data.predicted && data.predicted <= 115 {
        continue;
      }

      var name := data.nutrient.Name();
      var status, message, tips;
      if data.predicted < 70 {
        status, message, tips := Deficient, LowMessage(name), NutrientTips(table, name, "low");
      } else if data.predicted < 85 {
        status, message, tips := Marginal, MarginalMessage(name), NutrientTips(table, name, "low");
      } else {
        // the remaining case, predicted > 115
        status, message, tips := Excess, ExcessMessage(name), NutrientTips(table, name, "high");
      }
      cards := cards + [Card(name, status, message, tips)];
    }
    assert levels[..|levels|] == levels;

    if |cards| == 0 {
      cards := cards + [OptimalCard];
    }
  }

  /** generateFeedbackCards: predict the levels of the profile and build their
      cards with the client's tips table. */
  method GenerateFeedbackCards(u: UserData) returns (cards: seq<Card>)
    requires u.calories != 0
    ensures cards == Feedback(TipTable, PredictedLevels(u))
  {
    var levels := PredictNutrientLevels(u);
    cards := CardsForLevels(levels, TipTable);
  }

  /** The optimal card appears exactly when no level produced a card, and
      then it is the only card. */
  lemma OptimalCardIffNoItems(table: seq<TipRow>, ls: seq<Level>)
    ensures (exists c :: c in Feedback(table, ls) && c.status == Optimal) <==> Items(table, ls) == []
    ensures Items(table, ls) == [] <==> forall i :: 0 <= i < |ls| ==> InOptimalBand(ls[i])
    ensures Items(table, ls) == [] ==> Feedback(table, ls) == [OptimalCard]
  {
    ItemsFollowSources(table, ls);
    var items := Items(table, ls);
    if items != [] {
      assert Sources(ls)[0] in Sources(ls);
      forall c | c in Feedback(table, ls)
        ensures c.status != Optimal
      {
        var k :| 0 <= k < |items| && items[k] == c;
        assert c == CardOf(table, ls[Sources(ls)[k]]);
      }
    } else {
      assert OptimalCard in Feedback(table, ls);
      forall i | 0 <= i < |ls|
        ensures InOptimalBand(ls[i])
      {
        assert i !in Sources(ls);
      }
    }
  }

  /** A level outside the band at position `i` puts its own card among the
      cards, and then no card is the optimal one. */
  lemma OutOfBandLevelShowsCard(table: seq<TipRow>, ls: seq<Level>, i: nat)
    requires i < |ls| && !InOptimalBand(ls[i])
    ensures CardOf(table, ls[i]) in Feedback(table, ls)
    ensures forall c :: c in Feedback(table, ls) ==> c.status != Optimal
  {
    OptimalCardIffNoItems(table, ls);
    ItemsFollowSources(table, ls);
    assert i in Sources(ls);
    var k :| 0 <= k < |Sources(ls)| && Sources(ls)[k] == i;
    assert Items(table, ls)[k] == CardOf(table, ls[i]);
  }

  /** For every profile the Vitamin D level (at most 79) produces a Deficient
      or Marginal card, so the optimal card is never shown. */
  lemma OptimalCardNeverShown(table: seq<TipRow>, u: UserData)
    requires u.calories != 0
    ensures forall c :: c in Feedback(table, PredictedLevels(u)) ==> c.status != Optimal
    ensures exists c :: (c in Feedback(table, PredictedLevels(u))
      && c.heading == "Vitamin D" && (c.status == Deficient || c.status == Marginal))
  {
    var ls := PredictedLevels(u);
    VitaminDAndZincBounds(u);
    var d := ls[2];
    assert d == Level(VitaminD, Predicted(u, VitaminD), Recommended);
    OutOfBandLevelShowsCard(table, ls, 2);
    var c := CardOf(table, d);
    assert c.heading == "Vitamin D" && (c.status == Deficient || c.status == Marginal);
  }
}
