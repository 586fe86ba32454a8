# Nutrient health calculator: a Dafny model of its rules

The application asks for a lifestyle and diet profile and answers with a
health score, a category badge, a personalised message, a list of health
warnings, seven predicted nutrient levels and a card per nutrient that needs
attention. The browser client does all of this in `static/script.js`. The
Flask server has a second set of rules in `get_diet_feedback` in `app.py`,
which scores four predicted nutrient amounts against reference ranges.

This project models those rules and proves what they promise.

| module | models |
|---|---|
| `UserProfile` | the client's profile record, `Math.round`, the one-decimal BMI string (`toFixed(1)`), `toLowerCase` |
| `ScoreCalculator` | `calculateScore`, `updateScoreCategory`, `generatePersonalizedMessage` |
| `HealthRisks` | `checkHealthRisks`, as a builder of the warning list |
| `NutrientPredictor` | `predictNutrientLevels` |
| `FeedbackCards` | `generateFeedbackCards`, as a builder of the card list, and `getNutrientTips` |
| `DietFeedback` | `get_diet_feedback` and its nested `calculate_score` |
| `Optional` | an `Option` type for missing keys and missing table rows |

The client's score is an `int` that starts at 70. Each rule is a separate
`if` that adds or subtracts a fixed amount.

The BMI is kept as the integer number of tenths that `toFixed(1)` leaves in
the record. The rules then compare it as a number.

Predicted nutrient levels are integers obtained from exact real-number
formulas through `Round`, which is `Math.round`.

The server works on `real`s, the exact mathematical reading of its float
arithmetic. Missing keys of its personal data are `None`.

Where the source changes a value step by step, the model is a method proved
equal to a specification function. This holds for:

- the score accumulator;
- the multiplier;
- the warning and card lists;
- the feedback record and its list of entries.

Lemmas then prove the source's promises about those functions.

## Model

| member | source | states |
|---|---|---|
| UserProfile.Round | static/script.js:242-266 | `Math.round`: the result is within half a unit of its argument, halves rounding up |
| UserProfile.RoundMonotone | static/script.js:242-266 | `Math.round` never reverses the order of two numbers |
| UserProfile.BmiTenths | static/script.js:48 | the stored BMI is the raw BMI rounded to one decimal, halves away from zero: the one number of tenths within half a tenth of it, with the raw BMI's sign |
| UserProfile.LowerChar | static/script.js:140 | `toLowerCase` on ASCII: an upper-case ASCII letter becomes its own lower-case letter, and every other character is left alone |
| UserProfile.Lower | static/script.js:140 | `toLowerCase` on ASCII text keeps the length and lowers character by character |
| UserProfile.LowerLeavesNoUpper | static/script.js:140 | no upper-case ASCII letter is left in the lowered disease name |
| UserProfile.LowerIdempotent | static/script.js:140 | lowering an already lowered name changes nothing |
| UserProfile.LowerFixedIffNoUpper | static/script.js:140 | a name is its own lower case exactly when it holds no upper-case ASCII letter |
| ScoreCalculator.AtMostOneRulePerField | static/script.js:73-85 | each input field adds at most one adjustment; activity other than High/Low, and sleep of exactly 6 or 10, add nothing |
| ScoreCalculator.ExactlyOneBmiRule | static/script.js:87-91 | with the BMI held to one decimal, exactly one of the four BMI rules fires |
| ScoreCalculator.DerivedBmiAdjustment | static/script.js:48-91 | for a BMI derived from weight and height, the rule that fires is fixed by the raw BMI: below 18.45 takes 10, up to 24.95 adds 10, up to 29.95 takes 5, from 29.95 takes 15 |
| ScoreCalculator.BestCaseFromWeightAndHeight | static/script.js:48-91 | 70 kg at 175 cm is stored as BMI 22.9, and with the best other answers scores exactly 100 |
| ScoreCalculator.UnroundedBmiFallsBetweenRules | static/script.js:87-91 | an unrounded BMI of 24.95 or 29.95 would match no BMI rule, so the one-decimal rounding is what makes the rules total |
| ScoreCalculator.RawScoreBounds | static/script.js:71-91 | the total before the clamp lies in [5, 100] |
| ScoreCalculator.ClampBounds | static/script.js:93 | the clamp lands in [0, 100] and changes no value already there |
| ScoreCalculator.ClampNeverBites | static/script.js:71-93 | the returned score is in [0, 100], and the clamp never changes the total |
| ScoreCalculator.CalculateScore | static/script.js:70-94 | the sequential adjustments, starting from 70 in the source's order, yield the clamped table total |
| ScoreCalculator.BestCaseScoresFullMarks | static/script.js:71-91 | the best profile (high activity, 8 h sleep, no smoking or alcohol, no disease, BMI 22.9) totals exactly 100 |
| ScoreCalculator.WorstCaseScore | static/script.js:71-91 | the worst profile totals 5, so the lower clamp never bites |
| ScoreCalculator.CategoryOf | static/script.js:96-118 | the category is the first of the thresholds 90/75/60/40 the score reaches, as an if-and-only-if for each category |
| ScoreCalculator.CategoryMonotone | static/script.js:99-114 | a higher score never gets a lower category |
| ScoreCalculator.CategoryLabelsDistinct | static/script.js:99-114 | the five categories have five different labels and colours |
| ScoreCalculator.MessageTier | static/script.js:120-134 | the message is chosen by the cut points 80/60/40, as an if-and-only-if for each message |
| ScoreCalculator.PersonalizedMessage | static/script.js:120-134 | the message is one of the four texts: the first for 80 and above, the second for 60 to 79, the third for 40 to 59, the last below 40 |
| ScoreCalculator.MessageAgreesWithCategory | static/script.js:99-131 | the two tables agree except on scores 75 to 79: those are Good but get the second message |
| ScoreCalculator.MessageMonotone | static/script.js:123-131 | a higher score never gets a worse message |
| HealthRisks.FlaggedIn | static/script.js:137-153 | filtering risks keeps exactly the raised ones, never more than given, in the given order |
| HealthRisks.Texts | static/script.js:140-152 | one warning per risk, each that risk's text |
| HealthRisks.WarningsSnoc | static/script.js:137-153 | testing one more risk appends its warning exactly when it is raised |
| HealthRisks.WarningsInTestOrder | static/script.js:137-153 | the warnings of the four risks are each one's contribution in the order disease, cardiovascular, smoking, obesity |
| HealthRisks.CheckHealthRisks | static/script.js:136-162 | the pushed list equals the warnings in test order, and the panel is shown exactly when the list is not empty |
| HealthRisks.RisksAtMostFourInOrder | static/script.js:137-153 | at most four warnings, one for each raised risk and only those, in test order |
| HealthRisks.PanelHiddenIffNoRisk | static/script.js:155-161 | the panel is hidden exactly when the profile raises no risk |
| NutrientPredictor.PredictNutrientLevels | static/script.js:220-270 | the multiplier built step by step, and the seven formulas, give the specified prediction |
| NutrientPredictor.SevenLevelsInOrder | static/script.js:240-268 | exactly seven distinct nutrients in fixed order, each predicted by its own formula and recommended at 100 |
| NutrientPredictor.Multiplier | static/script.js:222-234 | the base multiplier lies in [0.72, 1.32] |
| NutrientPredictor.MultiplierValues | static/script.js:222-234 | the multiplier is one of six values, all in [0.72, 1.32] |
| NutrientPredictor.MultiplierOnlyNutrients | static/script.js:249-267 | Vitamin D and Zinc depend only on gender and activity |
| NutrientPredictor.SmokingOnlyLowersVitaminC | static/script.js:245-247 | smoking never raises Vitamin C |
| NutrientPredictor.SmokingAffectsOnlyVitaminC | static/script.js:240-268 | smoking changes no other nutrient |
| NutrientPredictor.OtherGenderMixesFactors | static/script.js:224-259 | a gender that is neither Male nor Female gets the 0.9 multiplier together with the non-female Calcium and Iron factors 1.1 and 1.2 |
| NutrientPredictor.VitaminDAndZincBounds | static/script.js:249-267 | Vitamin D is always between 43 and 79, and Zinc between 50 and 92 |
| NutrientPredictor.VitaminAMonotoneInFat | static/script.js:237-243 | more fat per calorie never lowers Vitamin A |
| NutrientPredictor.MagnesiumMonotoneInProtein | static/script.js:236-263 | more protein per calorie never lowers Magnesium |
| FeedbackCards.FindRow | static/script.js:432 | a table lookup finds a row with that key, and finds none exactly when no row has it |
| FeedbackCards.NutrientTips | static/script.js:346-433 | the tips are the row's 'low' or 'high' list, or else the single fallback tip; over a well-stocked table there are 1 to 3 |
| FeedbackCards.TipTableRows | static/script.js:347-430 | the tips table has one row per nutrient, in nutrient order |
| FeedbackCards.TipTableKeysDistinct | static/script.js:347-430 | no two rows of the tips table share a key, so the first matching row is the only one |
| FeedbackCards.TipTableStocked | static/script.js:347-430 | every row holds two or three tips for each level |
| FeedbackCards.TipsOfRowPerNutrient | static/script.js:432 | over such a table each nutrient gets 2 to 3 tips for 'low' and 'high', and any other key that names no row gets the fallback tip |
| FeedbackCards.TipsNeverEmpty | static/script.js:346-433 | the client's lookup never returns an empty list |
| FeedbackCards.CardOf | static/script.js:285-300 | a level outside [85, 115] gets exactly one status: Deficient below 70, Marginal for 70 to 84 (both with 'low' tips), Excess above 115 (with 'high' tips) |
| FeedbackCards.Sources | static/script.js:277-278 | the positions that produce a card are increasing, and they are exactly the levels outside [85, 115] |
| FeedbackCards.ItemsFollowSources | static/script.js:277-319 | the k-th card is the card of the k-th level outside the band: cards follow nutrient order with nothing skipped or repeated |
| FeedbackCards.CardsForLevels | static/script.js:277-343 | the loop that skips, classifies and appends, followed by the child-count test, yields the specified card list |
| FeedbackCards.GenerateFeedbackCards | static/script.js:272-344 | the cards of a profile are those of its predicted levels with the client's tips table |
| FeedbackCards.Feedback | static/script.js:277-343 | the container always ends up with at least one card; with no levels it holds the optimal card alone |
| FeedbackCards.OptimalCardIffNoItems | static/script.js:321-343 | the optimal card appears exactly when no level produced a card, and then it is the only card |
| FeedbackCards.OutOfBandLevelShowsCard | static/script.js:277-319 | a level outside [85, 115] puts its own card among the cards, and then no card is the optimal one |
| FeedbackCards.OptimalCardNeverShown | static/script.js:278-343 | Vitamin D always produces a Deficient or Marginal card, so no profile sees the optimal card |
| DietFeedback.IronRange | app.py:36-39 | the female iron range applies exactly when Gender is 'Female'; any other or missing gender gets the male range |
| DietFeedback.CalculateScore | app.py:41-50 | `calculate_score`, branch by branch with the 1.5 times test first: every value, of any size or sign, scores in [0, 100] |
| DietFeedback.BelowRangeBand | app.py:42-43 | below the range the score lies in [0, 60) |
| DietFeedback.InRangeBand | app.py:48-50 | inside the range the score lies in [80, 100] |
| DietFeedback.AboveRangeBand | app.py:46-47 | above the range, up to 1.5 times its upper end, the score lies in [75, 90) |
| DietFeedback.FarAboveRangeBand | app.py:44-45 | beyond 1.5 times the upper end the score lies in [0, 100) |
| DietFeedback.ScoreBands | app.py:41-50 | every branch of `calculate_score` returns a value in [0, 100], with the band bounds above |
| DietFeedback.InRangeExtremes | app.py:48-50 | the score is exactly 100 at the midpoint of the range and exactly 80 at either end |
| DietFeedback.ExcessScoreJumps | app.py:44-47 | because the 1.5 times test comes first, the score jumps back up past 1.5 times the upper end: at least 85 up to twice it, at least 97 up to 1.6 times it, more than any value between the upper end and 1.5 times it |
| DietFeedback.OverallScore | app.py:58 | the overall score is the mean of the four sub-scores, never below the smallest nor above the largest of them |
| DietFeedback.OverallScoreBounds | app.py:58 | the mean of four scores in [0, 100] is in [0, 100]; an Excellent mean needs every sub-score at least 40 |
| DietFeedback.CategoryOf | app.py:60-71 | the category is first-match over 85/70/55, as an if-and-only-if for each category |
| DietFeedback.CategoryLabelOfScore | app.py:60-71 | the category string follows the score: 'Excellent' from 85, 'Good' from 70, 'Average' from 55, otherwise 'Poor' |
| DietFeedback.ColorsOfCategories | app.py:60-71 | two categories share a colour only when they are equal or are Excellent and Average (both green) |
| DietFeedback.DiseaseRiskNamesDisease | app.py:175 | the disease risk text names the disease as given, right after its fixed opening |
| DietFeedback.DiseaseRiskInjective | app.py:175 | different diseases give different risk texts |
| DietFeedback.VitaminAStatus | app.py:83-103 | Vitamin A is low exactly below 0.9 and high exactly above 1.3 times 1.8 |
| DietFeedback.LowOrGood | app.py:105-133 | Vitamin C and Calcium are never high, and are low exactly below the range |
| DietFeedback.IronStatus | app.py:135-155 | Iron is low exactly below its range and high exactly when not low and above 1.5 times the upper end |
| DietFeedback.DetailedStatusLabels | app.py:81-157 | each entry's status string is 'low' exactly below its range, 'high' only for Vitamin A above 1.3 times and Iron above 1.5 times the upper end, 'good' otherwise |
| DietFeedback.DetailedShape | app.py:81-157 | the detailed feedback has exactly four entries, Vitamin A, Vitamin C, Calcium and Iron in that order, each with its own value; Vitamin C and Calcium are never high |
| DietFeedback.ExcessVitaminCReportedGood | app.py:44-118 | Vitamin C of 435 or more is reported as good, yet scores 0 |
| DietFeedback.RiskMessage | app.py:168-177 | the risk text is the age, disease or generic text; the age text needs an age given and activity given as Low; the disease text names the disease given, never None |
| DietFeedback.RiskMessagePriority | app.py:168-177 | the risk text is the age text exactly for an age over 50 with Low activity; otherwise the disease text exactly for a disease other than None; otherwise the generic text. A missing age or activity never selects the age text |
| DietFeedback.VitaminAFeedback | app.py:83-103 | the Vitamin A block appends the specified entry |
| DietFeedback.VitaminCFeedback | app.py:105-118 | the Vitamin C block appends the specified entry |
| DietFeedback.CalciumFeedback | app.py:120-133 | the Calcium block appends the specified entry |
| DietFeedback.IronFeedback | app.py:135-155 | the Iron block appends the specified entry |
| DietFeedback.RiskFeedback | app.py:168-177 | the risk block picks the specified risk text |
| DietFeedback.GetDietFeedback | app.py:29-179 | the record has the following contents: the mean of the four sub-scores, which lies in [0, 100]; its category and that category's colour and message; the four entries in order; and a risk message exactly when the category is Poor |

## Left out

- The DOM is not modelled: element lookups, event wiring, the theme toggle, the 1500 ms delay, and writes to `textContent`, `innerHTML`, `style` and `classList`. The data those writes show is returned instead.
- Chart.js and the shared chart handle (`createNutrientChart`) are foreign UI code.
- HTML templating of the cards and of the risk list, and the icon class names, are left out. A card is a record of heading, status, message and tips.
- Floating point is not modelled. All arithmetic is exact on reals or integers, so float rounding inside the nutrient formulas and in the server's score is not captured. `Math.round` and `toFixed(1)` are modelled exactly on reals.
- Form parsing (`parseInt`, `parseFloat`) is left out, and so are NaN values. The profile fields are already numbers.
- An empty or zero height is excluded: `BmiTenths` requires a non-zero height, and the predicate `HasDerivedBmi`, which ties the stored BMI to weight and height, includes that condition.
- NutrientPredictor.PredictNutrientLevels requires non-zero calories, because the source divides by them. FeedbackCards.GenerateFeedbackCards requires it too.
- `carbRatio` is left out of NutrientPredictor.PredictNutrientLevels: it is computed but no formula reads it.
- The tip lookup and the card builder take the tips table as a parameter so that their properties are proved once for any table. The client's own table is the constant `TipTable`, which `GenerateFeedbackCards` passes in.
- A JavaScript object lookup is modelled as the first row whose key matches. The table has no duplicate keys (`TipTableKeysDistinct`).
- FeedbackCards.NutrientTips does not model properties inherited through JavaScript's prototype chain: `tips[nutrient]?.[level]` with a key such as `constructor` finds an `Object` member, where the model answers with the fallback tip. The client only asks for its seven nutrient names with the levels 'low' and 'high', which the model covers exactly.
- FeedbackCards.TipsOfRowPerNutrient and FeedbackCards.TipsNeverEmpty state the fallback tip for any other key under the same reading: inherited object properties are not modelled.
- UserProfile.Lower models `toLowerCase` for ASCII only: letters outside 'A' to 'Z' (such as 'É') are left as they are, and the Unicode mappings that change a string's length (such as 'İ') are not modelled. A disease name with such letters gets a warning text the model does not match.
- UserProfile.LowerChar maps only the ASCII letters 'A' to 'Z', for the same reason.
- `Math.round` in `calculateScore` is applied to a total that is already an integer, so it is left out.
- The server's feedback texts are held in the record by name: a `Text` value whose `Render()` is the exact string of the source. The server's initial empty `message` is `None` until the message is set.
- The nutrient blocks and the risk block of `get_diet_feedback` are small methods that `GetDietFeedback` calls in the source's order. They are not inlined.
- DietFeedback.GetDietFeedback does not model a personal data `Age` that is not a number. Python would raise on comparing it with 50.
- The non-negative inputs that `predict_nutrients` guarantees (`np.maximum`) are not required. The model holds for every real input.
- Flask routes, the required-field check, `render_template`, the TensorFlow and joblib model loading, `MockModel`'s random output, and the pandas pipeline of `predict_nutrients` are left out. They are HTTP I/O, foreign ML calls and randomness.
