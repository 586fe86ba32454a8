/** The health-considerations panel of the client (checkHealthRisks in
    static/script.js): which warnings a profile raises, in which order, and
    whether the panel is shown at all. */
module HealthRisks {
  import opened UserProfile

  /** The four conditions the client looks for, one warning each. */
  datatype Risk = ChronicDisease | Cardiovascular | Smoking | Obesity
  {
    /** The position at which the client tests this risk. */
    function Position(): nat
    {
      match this
      case ChronicDisease => 0
      case Cardiovascular => 1
      case Smoking => 2
      case Obesity => 3
    }
  }

  /** The order in which the client tests the risks. */
  const RiskOrder: seq<Risk> := [ChronicDisease, Cardiovascular, Smoking, Obesity]

  /** Whether a profile raises a risk. The stored BMI string is compared with
      30 as a number. */
  predicate Flagged(u: UserData, r: Risk)
  {
    match r
    case ChronicDisease => u.disease != "None"
    case Cardiovascular => u.bp == "High" || u.cholesterol == "High"
    case Smoking => u.smoking == "Yes"
    case Obesity => Bmi(u) >= 30.0
  }

  /** The disease warning names the disease in lower case. */
  function DiseaseWarning(disease: string): string
  {
    "Your " + Lower(disease) + " condition requires special nutritional attention."
  }

  const CardiovascularWarning := "Your cardiovascular indicators suggest you may need to monitor sodium and saturated fat intake."
  const SmokingWarning := "Smoking can deplete certain nutrients. Consider increasing antioxidants like Vitamins C and E."
  const ObesityWarning := "Your BMI indicates obesity, which may require specialized nutritional planning."

  /** The warning text of a risk. */
  function RiskText(u: UserData, r: Risk): string
  {
    match r
    case ChronicDisease => DiseaseWarning(u.disease)
    case Cardiovascular => CardiovascularWarning
    case Smoking => SmokingWarning
    case Obesity => ObesityWarning
  }

  /** Positions strictly increase along the sequence. */
  predicate InTestOrder(rs: seq<Risk>)
  {
    forall i, j :: 0 <= i < j < |rs| ==> rs[i].Position() < rs[j].Position()
  }

  /** The risks of `rs` that the profile raises, in the order of `rs`: exactly
      the flagged ones, never more than `rs` holds, and in test order when
      `rs` is. */
  function FlaggedIn(u: UserData, rs: seq<Risk>): (f: seq<Risk>)
    ensures forall r :: r in f <==> r in rs && Flagged(u, r)
    ensures |f| <= |rs|
    ensures InTestOrder(rs) ==> InTestOrder(f)
  {
    if rs == [] then []
    else
      var init := rs[..|rs| - 1];
      var last := rs[|rs| - 1];
      assert forall r :: r in rs <==> r in init || r == last;
      assert InTestOrder(rs) ==> InTestOrder(init) && forall r :: r in init ==> r.Position() < last.Position();
      FlaggedIn(u, init) + (if Flagged(u, last) then [last] else [])
  }

  /** The warnings for a list of risks, one text per risk. */
  function Texts(u: UserData, rs: seq<Risk>): (t: seq<string>)
    ensures |t| == |rs|
    ensures forall i :: 0 <= i < |rs| ==> t[i] == RiskText(u, rs[i])
  {
    seq(|rs|, i requires 0 <= i < |rs| => RiskText(u, rs[i]))
  }

  /** The warnings a profile raises among the risks `rs`, in the order of `rs`. */
  function Warnings(u: UserData, rs: seq<Risk>): seq<string>
  {
    Texts(u, FlaggedIn(u, rs))
  }

  /** The warning one risk contributes: its text if raised, nothing otherwise. */
  function Raised(u: UserData, r: Risk): seq<string>
  {
    if Flagged(u, r) then [RiskText(u, r)] else []
  }

  /** Testing one more risk appends its warning when, and only when, it is raised. */
  lemma WarningsSnoc(u: UserData, rs: seq<Risk>, r: Risk)
    ensures Warnings(u, rs + [r]) == Warnings(u, rs) + Raised(u, r)
  {
    assert (rs + [r])[..|rs|] == rs;
  }

  /** Filtering the four risks in test order yields each one's contribution in turn. */
  lemma WarningsInTestOrder(u: UserData)
    ensures Warnings(u, RiskOrder)
         == Raised(u, ChronicDisease) + Raised(u, Cardiovascular) + Raised(u, Smoking) + Raised(u, Obesity)
  {
    var r0: seq<Risk> := [];
    var r1 := r0 + [ChronicDisease];
    var r2 := r1 + [Cardiovascular];
    var r3 := r2 + [Smoking];
    assert RiskOrder == r3 + [Obesity];
    assert Warnings(u, r0) == [];
    WarningsSnoc(u, r0, ChronicDisease);
    assert Warnings(u, r1) == Raised(u, ChronicDisease);
    WarningsSnoc(u, r1, Cardiovascular);
    assert Warnings(u, r2) == Raised(u, ChronicDisease) + Raised(u, Cardiovascular);
    WarningsSnoc(u, r2, Smoking);
    WarningsSnoc(u, r3, Obesity);
  }

  /** checkHealthRisks as a list builder: each risk the profile raises pushes
      its warning, in the order disease, cardiovascular, smoking, obesity;
      the panel is shown exactly when some warning was pushed. */
  method CheckHealthRisks(u: UserData) returns (risks: seq<string>, shown: bool)
    ensures risks == Warnings(u, RiskOrder)
    ensures shown <==> risks != []
  {
    risks := [];

    if u.disease != "None" {
      risks := risks + [DiseaseWarning(u.disease)];
    }
    assert risks == Raised(u, ChronicDisease);

    if u.bp == "High" || u.cholesterol == "High" {
      risks := risks + [CardiovascularWarning];
    }
    assert risks == Raised(u, ChronicDisease) + Raised(u, Cardiovascular);

    if u.smoking == "Yes" {
      risks := risks + [SmokingWarning];
    }
    assert risks == Raised(u, ChronicDisease) + Raised(u, Cardiovascular) + Raised(u, Smoking);

    if Bmi(u) >= 30.0 {
      risks := risks + [ObesityWarning];
    }

    WarningsInTestOrder(u);
    shown := |risks| > 0;
  }

  /** At most four warnings, one per risk, in the order the client tests them. */
  lemma RisksAtMostFourInOrder(u: UserData)
    ensures |Warnings(u, RiskOrder)| <= 4
    ensures InTestOrder(FlaggedIn(u, RiskOrder))
    ensures forall r :: r in FlaggedIn(u, RiskOrder) <==> Flagged(u, r)
  {
    assert InTestOrder(RiskOrder);
    forall r
      ensures r in RiskOrder
    {
      assert RiskOrder[r.Position()] == r;
    }
  }

  /** The panel is hidden exactly when the profile raises no risk at all. */
  lemma PanelHiddenIffNoRisk(u: UserData)
    ensures Warnings(u, RiskOrder) == [] <==> forall r: Risk :: !Flagged(u, r)
  {
    RisksAtMostFourInOrder(u);
    if FlaggedIn(u, RiskOrder) != [] {
      assert FlaggedIn(u, RiskOrder)[0] in FlaggedIn(u, RiskOrder);
    }
  }
}
