/** The two formulas of the layout that are evaluated here: the nested-threshold grade
    in B28 and the blank guard of the attendance percentage in B26. */
module Grading {
  import opened Spreadsheet

  /** A nested IF over one total: the first threshold the total reaches gives its letter. */
  datatype Scale = Letter(grade: string) | AtLeast(threshold: nat, grade: string, otherwise: Scale)

  /** A at 90 or above, then B at 80, C at 70, D at 60, and F below. */
  const GradeScale: Scale :=
    AtLeast(90, "A", AtLeast(80, "B", AtLeast(70, "C", AtLeast(60, "D", Letter("F")))))

  /** The formula written to B28, over the final total in B21 (one string in the source,
      written here in pieces at each IF). */
  const GradeFormula: string :=
    "=" + "IF(B21>=90,\"A\"," + "IF(B21>=80,\"B\"," + "IF(B21>=70,\"C\"," + "IF(B21>=60,\"D\"," +
    "\"F\"" + ")" + ")" + ")" + ")"

  function Quote(s: string): string {
    "\"" + s + "\""
  }

  function Digit(d: nat): char
    requires d < 10
  {
    "0123456789"[d]
  }

  /** The decimal numeral of n. */
  function NatText(n: nat): string
    decreases n
  {
    if n < 10 then [Digit(n)] else NatText(n / 10) + [Digit(n % 10)]
  }

  /** The spreadsheet text of a scale applied to the cell named ref. */
  function Render(s: Scale, ref: string): string {
    match s
    case Letter(g) => Quote(g)
    case AtLeast(t, g, rest) =>
      "IF(" + ref + ">=" + NatText(t) + "," + Quote(g) + "," + Render(rest, ref) + ")"
  }

  /** The letter a scale gives a total. */
  function Evaluate(s: Scale, total: real): string {
    match s
    case Letter(g) => g
    case AtLeast(t, g, rest) => if total >= t as real then g else Evaluate(rest, total)
  }

  function Grade(total: real): string {
    Evaluate(GradeScale, total)
  }

  /** The letters a scale can give, in the order its branches list them. */
  function Letters(s: Scale): seq<string> {
    match s
    case Letter(g) => [g]
    case AtLeast(_, g, rest) => [g] + Letters(rest)
  }

  /** Whatever the total, the scale gives one of its own letters. */
  lemma {:induction false} EvaluateInLetters(s: Scale, total: real)
    ensures Evaluate(s, total) in Letters(s)
  {
    match s
    case Letter(g) =>
    case AtLeast(t, g, rest) =>
      if total < t as real {
        EvaluateInLetters(rest, total);
      }
  }

  /** The text a threshold renders to before the rendering of the rest of the scale. */
  function Head(t: nat, g: string, ref: string): string {
    "IF(" + ref + ">=" + NatText(t) + "," + Quote(g) + ","
  }

  lemma {:induction false} RenderStep(t: nat, g: string, rest: Scale, ref: string)
    ensures Render(AtLeast(t, g, rest), ref) == Head(t, g, ref) + Render(rest, ref) + ")"
  {
  }

  lemma HeadA()
    ensures Head(90, "A", "B21") == "IF(B21>=90,\"A\","
  {
    assert NatText(90) == "90";
  }

  lemma HeadB()
    ensures Head(80, "B", "B21") == "IF(B21>=80,\"B\","
  {
    assert NatText(80) == "80";
  }

  lemma HeadC()
    ensures Head(70, "C", "B21") == "IF(B21>=70,\"C\","
  {
    assert NatText(70) == "70";
  }

  lemma HeadD()
    ensures Head(60, "D", "B21") == "IF(B21>=60,\"D\","
  {
    assert NatText(60) == "60";
  }


  /** Regrouping the pieces of the formula. */
  lemma Nest(e: string, a: string, b: string, c: string, d: string, f: string)
    ensures e + a + b + c + d + f + ")" + ")" + ")" + ")" == e + (a + (b + (c + (d + f + ")") + ")") + ")") + ")")
  {
  }

  /** The literal B28 formula is the rendering of GradeScale over B21, so the letter the
      cell shows is the one Grade gives for the final total. */
  lemma GradeFormulaIsScale()
    ensures GradeFormula == "=" + Render(GradeScale, "B21")
  {
    var d := AtLeast(60, "D", Letter("F"));
    var c := AtLeast(70, "C", d);
    var b := AtLeast(80, "B", c);
    RenderStep(60, "D", Letter("F"), "B21");
    RenderStep(70, "C", d, "B21");
    RenderStep(80, "B", c, "B21");
    RenderStep(90, "A", b, "B21");
    HeadA();
    HeadB();
    HeadC();
    HeadD();
    Nest("=", "IF(B21>=90,\"A\",", "IF(B21>=80,\"B\",", "IF(B21>=70,\"C\",", "IF(B21>=60,\"D\",", "\"F\"");
  }

  /** Each letter is given on exactly its band of totals; in particular a total of 0 is F. */
  lemma GradeBands(total: real)
    ensures Grade(total) == "A" <==> total >= 90.0
    ensures Grade(total) == "B" <==> 80.0 <= total < 90.0
    ensures Grade(total) == "C" <==> 70.0 <= total < 80.0
    ensures Grade(total) == "D" <==> 60.0 <= total < 70.0
    ensures Grade(total) == "F" <==> total < 60.0
  {
    var d := AtLeast(60, "D", Letter("F"));
    var c := AtLeast(70, "C", d);
    var b := AtLeast(80, "B", c);
    assert Evaluate(d, total) == if total >= 60.0 then "D" else "F";
    assert Evaluate(c, total) == if total >= 70.0 then "C" else Evaluate(d, total);
    assert Evaluate(b, total) == if total >= 80.0 then "B" else Evaluate(c, total);
    assert Grade(total) == if total >= 90.0 then "A" else Evaluate(b, total);
  }

  lemma GradeOfZero()
    ensures Grade(0.0) == "F"
  {
    GradeBands(0.0);
  }

  /** Raising a total never lowers its grade: the letters are ordered A > B > C > D > F. */
  function Rank(g: string): nat {
    if g == "A" then 4 else if g == "B" then 3 else if g == "C" then 2 else if g == "D" then 1 else 0
  }

  lemma GradeMonotone(x: real, y: real)
    requires x <= y
    ensures Rank(Grade(x)) <= Rank(Grade(y))
  {
    GradeBands(x);
    GradeBands(y);
  }

  const GradeCell: Cell := Cell(28, 2)

  /** The five conditional-format rules on B28, one per letter. */
  const GradeHighlights: seq<Highlight> := [
    CellIs(Range(GradeCell, GradeCell), "equal", "\"A\"", "90EE90"),
    CellIs(Range(GradeCell, GradeCell), "equal", "\"B\"", "ADD8E6"),
    CellIs(Range(GradeCell, GradeCell), "equal", "\"C\"", "FFFFE0"),
    CellIs(Range(GradeCell, GradeCell), "equal", "\"D\"", "FFA07A"),
    CellIs(Range(GradeCell, GradeCell), "equal", "\"F\"", "FF4040")
  ]

  /** The rules match the letters of the scale one for one, in order, and all target B28
      with distinct fills. */
  lemma HighlightsFollowScale()
    ensures |GradeHighlights| == |Letters(GradeScale)| == 5
    ensures forall i :: 0 <= i < 5 ==>
              GradeHighlights[i].target == Range(GradeCell, GradeCell) &&
              GradeHighlights[i].operator == "equal" &&
              GradeHighlights[i].formula == Quote(Letters(GradeScale)[i])
    ensures forall i, j :: 0 <= i < j < 5 ==>
              GradeHighlights[i].fill != GradeHighlights[j].fill &&
              GradeHighlights[i].formula != GradeHighlights[j].formula
  {
    assert Letters(GradeScale) == ["A", "B", "C", "D", "F"];
  }

  /** Whatever the total, exactly one rule colours the grade cell. */
  lemma OneHighlightPerTotal(total: real)
    ensures exists i :: 0 <= i < |GradeHighlights| && GradeHighlights[i].formula == Quote(Grade(total))
    ensures forall i, j ::
              (0 <= i < |GradeHighlights| && 0 <= j < |GradeHighlights| &&
               GradeHighlights[i].formula == Quote(Grade(total)) &&
               GradeHighlights[j].formula == Quote(Grade(total))) ==> i == j
  {
    HighlightsFollowScale();
    EvaluateInLetters(GradeScale, total);
    var ls := Letters(GradeScale);
    var g := Grade(total);
    var i :| 0 <= i < |ls| && ls[i] == g;
    assert GradeHighlights[i].formula == Quote(g);
  }

  /** The formula written to B26. */
  const AttendanceFormula: string := "=IF(B25=\"\",0,B25/B24*100)"

  /** IF(ref="", fallback, ref/den*scale): a count in ref as a scaled share of den, with a
      fallback while ref is blank. */
  datatype BlankGuard = BlankGuard(ref: string, fallback: nat, den: string, scale: nat)

  /** The spreadsheet text of a guard. */
  function RenderGuard(g: BlankGuard): string {
    "IF(" + g.ref + "=" + Quote("") + "," + NatText(g.fallback) + "," + g.ref + "/" + g.den + "*" + NatText(g.scale) + ")"
  }

  /** A reference to a blank cell compares equal to "". */
  predicate IsBlank(v: Value) {
    v == Empty || v == Text("")
  }

  /** The value a guard takes for the values of its two cells. Only a blank or an integer
      count over a non-zero integer is evaluated; None means the model does not evaluate the
      guard for those values (a text operand, a formula, a division by zero). */
  function EvalGuard(g: BlankGuard, count: Value, den: Value): Option<real> {
    if IsBlank(count) then Some(g.fallback as real)
    else if count.Int? && den.Int? && den.n != 0 then Some(count.n as real / den.n as real * g.scale as real)
    else None
  }

  /** The guard B26 holds: B25 over B24 as a percentage, 0 while B25 is blank. */
  const AttendanceGuard: BlankGuard := BlankGuard("B25", 0, "B24", 100)

  lemma AttendanceNumerals()
    ensures NatText(0) == "0" && NatText(100) == "100"
  {
    assert NatText(10) == "10";
  }

  /** The literal B26 formula is the rendering of AttendanceGuard. */
  lemma AttendanceFormulaIsGuard()
    ensures AttendanceFormula == "=" + RenderGuard(AttendanceGuard)
  {
    AttendanceNumerals();
  }

  /** The value B26 takes for attended in B25 and classes in B24. */
  function Attendance(attended: Value, classes: Value): (r: Option<real>)
    ensures IsBlank(attended) ==> r == Some(0.0)
    ensures !IsBlank(attended) && r.Some? ==>
              attended.Int? && classes.Int? && classes.n != 0 &&
              r.value == attended.n as real / classes.n as real * 100.0
    ensures attended.Int? && classes.Int? && classes.n != 0 ==> r.Some?
    ensures attended.Int? && classes.Int? && 0 <= attended.n <= classes.n && classes.n != 0 ==>
              r.Some? && 0.0 <= r.value <= 100.0
  {
    ShareBounded(attended, classes);
    EvalGuard(AttendanceGuard, attended, classes)
  }

  /** A count between 0 and its total is at most the whole of it. */
  lemma ShareBounded(attended: Value, classes: Value)
    ensures attended.Int? && classes.Int? && 0 <= attended.n <= classes.n && classes.n != 0 ==>
              0.0 <= attended.n as real / classes.n as real * 100.0 <= 100.0
  {
    if attended.Int? && classes.Int? && 0 <= attended.n <= classes.n && classes.n != 0 {
      var a, c := attended.n as real, classes.n as real;
      var q := a / c;
      assert q * c == a;
      assert q <= 1.0 by {
        if q > 1.0 {
          assert q * c > 1.0 * c;
        }
      }
    }
  }

  /** More classes attended never lowers the percentage. */
  lemma AttendanceMonotone(a: int, b: int, classes: int)
    requires a <= b && classes > 0
    ensures Attendance(Int(a), Int(classes)).value <= Attendance(Int(b), Int(classes)).value
  {
    var c := classes as real;
    assert a as real / c <= b as real / c by {
      var qa, qb := a as real / c, b as real / c;
      assert qa * c == a as real && qb * c == b as real;
    }
  }
}
