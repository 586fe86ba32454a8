/** The record the browser client builds from its form (static/script.js),
    together with the two pieces of JavaScript number and string behaviour
    the scoring rules depend on: Math.round and toFixed(1), and toLowerCase. */
module UserProfile {

  /** The parsed form values. Select boxes stay strings: a value the rules do
      not name simply matches no rule. `bmiTenths` is the BMI as stored by the
      client, a one-decimal string, read back as an integer number of tenths. */
  datatype UserData = UserData(
    age: int,
    gender: string,
    weightKg: real,
    heightCm: real,
    activity: string,
    sleep: int,
    smoking: string,
    alcohol: string,
    calories: int,
    meals: int,
    protein: int,
    carbs: int,
    fat: int,
    disease: string,
    bp: string,
    cholesterol: string,
    bmiTenths: int)

  /** JavaScript's Math.round on a finite number: the nearest integer, with
      halves rounded up (towards positive infinity). */
  function Round(x: real): (r: int)
    ensures r as real - 0.5 <= x < r as real + 0.5
  {
    (x + 0.5).Floor
  }

  /** Math.round never reverses the order of two numbers. */
  lemma RoundMonotone(x: real, y: real)
    requires x <= y
    ensures Round(x) <= Round(y)
  {
  }

  /** weight / (height / 100)^2, the unrounded body-mass index. */
  function RawBmi(weightKg: real, heightCm: real): real
    requires heightCm != 0.0
  {
    weightKg / ((heightCm / 100.0) * (heightCm / 100.0))
  }

  /** toFixed(1) of the raw BMI, in tenths: the nearest one-decimal value,
      halves rounded away from zero. The two bounds pick exactly one integer. */
  function BmiTenths(weightKg: real, heightCm: real): (t: int)
    requires heightCm != 0.0
    ensures RawBmi(weightKg, heightCm) >= 0.0 ==>
      t as real - 0.5 <= 10.0 * RawBmi(weightKg, heightCm) < t as real + 0.5
    ensures RawBmi(weightKg, heightCm) < 0.0 ==>
      t as real - 0.5 < 10.0 * RawBmi(weightKg, heightCm) <= t as real + 0.5
    ensures t > 0 ==> RawBmi(weightKg, heightCm) > 0.0
    ensures t < 0 ==> RawBmi(weightKg, heightCm) < 0.0
  {
    var x := 10.0 * RawBmi(weightKg, heightCm);
    if x >= 0.0 then Round(x) else -Round(-x)
  }

  /** The client's record is complete once the BMI field has been derived
      from the weight and height it holds. */
  predicate HasDerivedBmi(u: UserData)
  {
    u.heightCm != 0.0 && u.bmiTenths == BmiTenths(u.weightKg, u.heightCm)
  }

  /** parseFloat of the stored BMI string. */
  function Bmi(u: UserData): real
  {
    u.bmiTenths as real / 10.0
  }

  /** String.prototype.toLowerCase on one character; only ASCII letters are mapped. */
  function LowerChar(c: char): (d: char)
    ensures 'A' <= c <= 'Z' ==> 'a' <= d <= 'z'
    ensures 'A' <= c <= 'Z' ==> d as int - 'a' as int == c as int - 'A' as int
    ensures !('A' <= c <= 'Z') ==> d == c
  {
    if 'A' <= c <= 'Z' then (c as int + 32) as char else c
  }

  /** String.prototype.toLowerCase: the same length, character by character. */
  function Lower(s: string): (r: string)
    ensures |r| == |s|
    ensures forall i :: 0 <= i < |s| ==> r[i] == LowerChar(s[i])
  {
    seq(|s|, i requires 0 <= i < |s| => LowerChar(s[i]))
  }

  /** No upper-case ASCII letter survives toLowerCase. */
  lemma LowerLeavesNoUpper(s: string)
    ensures forall i :: 0 <= i < |Lower(s)| ==> !('A' <= Lower(s)[i] <= 'Z')
  {
    forall i | 0 <= i < |Lower(s)|
      ensures !('A' <= Lower(s)[i] <= 'Z')
    {
      assert Lower(s)[i] == LowerChar(s[i]);
    }
  }

  /** Lowering twice is lowering once. */
  lemma LowerIdempotent(s: string)
    ensures Lower(Lower(s)) == Lower(s)
  {
    LowerLeavesNoUpper(s);
  }

  /** toLowerCase changes exactly the upper-case letters: a string is its own
      lower case when, and only when, it holds none. */
  lemma LowerFixedIffNoUpper(s: string)
    ensures Lower(s) == s <==> forall i :: 0 <= i < |s| ==> !('A' <= s[i] <= 'Z')
  {
    if Lower(s) == s {
      forall i | 0 <= i < |s|
        ensures !('A' <= s[i] <= 'Z')
      {
        assert Lower(s)[i] == LowerChar(s[i]);
      }
    }
  }
}
