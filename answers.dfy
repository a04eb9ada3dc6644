/**
 * What the student pages (`questao.js`, `painel.js`, `resultado.js`) read
 * from the `respostas_alunos` rows: which question an answer belongs to,
 * the grade as JavaScript's `Number` converts it, the pass mark, and the
 * mean grade. A grade stored as a number is a whole number here, as every
 * number of the model; one stored as text is read as the decimal it spells.
 */
module StudentAnswers {
  import opened Wrappers
  import opened Js
  import opened Text

  /** `a === b` on values read from JSON: two objects or arrays are never the same reference. */
  predicate StrictEq(a: Value, b: Value)
  {
    !(a.Arr? || a.Obj?) && a == b
  }

  /** `r.questao_id === q.id`. */
  predicate AnswersQuestion(r: Record, q: Record)
  {
    StrictEq(Get(r, "questao_id"), Get(q, "id"))
  }

  /** The position of the first answer to the question, -1 when none answers it. */
  function AnswerIndex(respostas: seq<Record>, q: Record): (i: int)
    ensures -1 <= i < |respostas|
    ensures i == -1 <==> forall j :: 0 <= j < |respostas| ==> !AnswersQuestion(respostas[j], q)
    ensures i >= 0 ==> AnswersQuestion(respostas[i], q) && forall j :: 0 <= j < i ==> !AnswersQuestion(respostas[j], q)
  {
    if respostas == [] then -1
    else if AnswersQuestion(respostas[0], q) then 0
    else
      var i := AnswerIndex(respostas[1..], q);
      if i == -1 then -1 else i + 1
  }

  /** `respostas.find((r) => r.questao_id === q.id)`: the first answer to the question. */
  function FindAnswer(respostas: seq<Record>, q: Record): (r: Option<Record>)
    ensures r.None? <==> forall j :: 0 <= j < |respostas| ==> !AnswersQuestion(respostas[j], q)
    ensures r.Some? ==>
      exists i :: 0 <= i < |respostas| && respostas[i] == r.value && AnswersQuestion(r.value, q) &&
        forall j :: 0 <= j < i ==> !AnswersQuestion(respostas[j], q)
  {
    var i := AnswerIndex(respostas, q);
    if i == -1 then None else Some(respostas[i])
  }

  predicate AllDigits(d: string)
  {
    forall i :: 0 <= i < |d| ==> '0' <= d[i] <= '9'
  }

  /** The value of a run of decimal digits. */
  function DigitsValue(d: string): nat
    requires AllDigits(d)
  {
    if d == [] then 0 else DigitsValue(d[..|d| - 1]) * 10 + (d[|d| - 1] as int - '0' as int)
  }

  function Pow10(k: nat): (r: nat)
    ensures r >= 1
  {
    if k == 0 then 1 else 10 * Pow10(k - 1)
  }

  /** The position of the first ".", or the length when there is none. */
  function DotIndex(u: string): (k: nat)
    ensures k <= |u|
    ensures forall i :: 0 <= i < k ==> u[i] != '.'
    ensures k < |u| ==> u[k] == '.'
  {
    if u == [] then 0 else if u[0] == '.' then 0 else 1 + DotIndex(u[1..])
  }

  /** An unsigned decimal literal: digits, then optionally "." and digits, with at least one digit. */
  function UnsignedDecimal(u: string): Option<real>
  {
    var k := DotIndex(u);
    var whole := u[..k];
    var frac := if k < |u| then u[k + 1..] else "";
    if AllDigits(whole) && AllDigits(frac) && |whole| + |frac| > 0 then
      Some(DigitsValue(whole) as real + DigitsValue(frac) as real / Pow10(|frac|) as real)
    else None
  }

  /** A trimmed, non-empty text as `Number` reads it: an optional sign and a decimal literal. */
  function DecimalText(t: string): Option<real>
  {
    if t != [] && t[0] == '-' then
      var u := UnsignedDecimal(t[1..]);
      if u.Some? then Some(-u.value) else None
    else if t != [] && t[0] == '+' then UnsignedDecimal(t[1..])
    else UnsignedDecimal(t)
  }

  /**
   * `Number(v)`, None standing for `NaN`. A string is read after trimming: 0
   * when nothing is left, else the decimal number it spells. An array is
   * converted through its string form: 0 when empty, the number of its one
   * element when that element is a number, a string, an array or nullish,
   * and `NaN` otherwise (a longer array's string holds a comma).
   */
  function NumberOf(v: Value): (r: Option<real>)
    ensures IsNullish(v) ==> (r.Some? <==> v.Null?)
    ensures v.Str? && IsBlank(v.s) ==> r == Some(0.0)
    ensures v.Arr? && |v.items| == 1 && v.items[0].Num? ==> r == Some(v.items[0].n as real)
  {
    match v
    case Undefined => None
    case Null => Some(0.0)
    case Bool(b) => Some(if b then 1.0 else 0.0)
    case Num(n) => Some(n as real)
    case Str(s) => TrimBlank(s); var t := Trim(s); if t == [] then Some(0.0) else DecimalText(t)
    case Arr(items) =>
      if items == [] then Some(0.0)
      else if |items| > 1 || items[0].Bool? || items[0].Obj? then None
      else if IsNullish(items[0]) then Some(0.0)
      else NumberOf(items[0])
    case Obj(_) => None
  }

  /** White space around a number never matters: a text reads as its trimmed text does. */
  lemma {:induction false} NumberOfTrims(s: string)
    ensures NumberOf(Str(s)) == NumberOf(Str(Trim(s)))
  {
    if Trim(s) != [] {
      TrimUnpadded(Trim(s));
    }
  }

  lemma {:induction false} NatToStringValue(n: nat)
    ensures AllDigits(NatToString(n)) && DigitsValue(NatToString(n)) == n
    decreases n
  {
    NatToStringDigits(n);
    if n >= 10 {
      NatToStringValue(n / 10);
      var d := NatToString(n);
      assert d[..|d| - 1] == NatToString(n / 10);
    }
  }

  lemma {:induction false} NoDot(d: string)
    requires AllDigits(d)
    ensures DotIndex(d) == |d|
  {
    if d != [] {
      assert AllDigits(d[1..]) by {
        forall i | 0 <= i < |d| - 1 ensures '0' <= d[1..][i] <= '9' {
          assert d[1..][i] == d[i + 1];
        }
      }
      NoDot(d[1..]);
    }
  }

  /** A text without white space at either end is its own trim. */
  lemma {:induction false} TrimUnpadded(t: string)
    requires t != [] && !IsSpace(t[0]) && !IsSpace(t[|t| - 1])
    ensures Trim(t) == t
  {
  }

  lemma {:induction false} UnsignedNat(n: nat)
    ensures UnsignedDecimal(NatToString(n)) == Some(n as real)
  {
    var d := NatToString(n);
    NatToStringValue(n);
    NoDot(d);
    assert d[..|d|] == d;
  }

  lemma {:induction false} DecimalNat(n: nat)
    ensures DecimalText(IntToString(n)) == Some(n as real)
  {
    var d := NatToString(n);
    NatToStringDigits(n);
    assert '0' <= d[0] <= '9';
    UnsignedNat(n);
  }

  lemma {:induction false} DecimalNegative(n: int)
    requires n < 0
    ensures DecimalText(IntToString(n)) == Some(n as real)
  {
    var t := IntToString(n);
    var m: nat := -n;
    assert t[0] == '-' && t[1..] == NatToString(m);
    UnsignedNat(m);
    var u := UnsignedDecimal(t[1..]);
    assert u == Some(m as real);
    assert DecimalText(t) == Some(-u.value);
  }

  /** The text `String(n)` prints reads back as `n`: the grades a webhook sends as text count at their value. */
  lemma {:induction false} NumberOfIntText(n: int)
    ensures NumberOf(Str(IntToString(n))) == Some(n as real)
  {
    var m: nat := if n < 0 then -n else n;
    var d := NatToString(m);
    var t := IntToString(n);
    assert !IsSpace(t[0]) && !IsSpace(t[|t| - 1]) by {
      NatToStringDigits(m);
      assert t[|t| - 1] == d[|d| - 1];
      assert t[0] == '-' || t[0] == d[0];
    }
    TrimUnpadded(t);
    if n < 0 {
      DecimalNegative(n);
    } else {
      DecimalNat(n);
    }
  }

  /** `Number(res.nota || 0) >= 6`; `NaN` never passes. */
  predicate Passes(res: Record): (b: bool)
    ensures b ==> Truthy(Get(res, "nota"))
  {
    var x := NumberOf(Or(Get(res, "nota"), Num(0)));
    x.Some? && x.value >= 6.0
  }

  /**
   * A missing grade counts as 0 and fails; a grade given as a number, as the
   * text of a number or as a one-number array passes exactly from 6 up.
   */
  lemma PassCases(res: Record)
    ensures IsNullish(Get(res, "nota")) ==> !Passes(res)
    ensures Get(res, "nota").Num? ==> (Passes(res) <==> Get(res, "nota").n >= 6)
    ensures forall n :: Get(res, "nota") == Str(IntToString(n)) ==> (Passes(res) <==> n >= 6)
    ensures forall n :: Get(res, "nota") == Arr([Num(n)]) ==> (Passes(res) <==> n >= 6)
  {
    forall n | Get(res, "nota") == Str(IntToString(n))
      ensures Passes(res) <==> n >= 6
    {
      NumberOfIntText(n);
    }
    forall n | Get(res, "nota") == Arr([Num(n)])
      ensures Passes(res) <==> n >= 6
    {
      assert NumberOf(Arr([Num(n)])) == NumberOf(Num(n));
    }
  }

  /** `Number(b.nota) || 0`: `NaN` and 0 both count as 0. */
  function GradeOrZero(v: Value): real
  {
    var x := NumberOf(v);
    if x.Some? then x.value else 0.0
  }

  /** The sum `reduce((a, b) => a + (Number(b.nota) || 0), 0)`. */
  function GradeSum(respostas: seq<Record>): real
  {
    if respostas == [] then 0.0
    else GradeSum(respostas[..|respostas| - 1]) + GradeOrZero(Get(respostas[|respostas| - 1], "nota"))
  }

  /** What a page's mean-grade box shows: "-" with no answers, else a mean (`None` for `NaN`). */
  datatype MeanBox = Dash | Mean(value: Option<real>)

  /** The mean as `questao.js` computes it: every grade that is not a number counts as 0. */
  function MeanOrZero(respostas: seq<Record>): (m: MeanBox)
    ensures m.Dash? <==> respostas == []
    ensures m.Mean? ==> m.value == Some(GradeSum(respostas) / |respostas| as real)
  {
    if |respostas| > 0 then Mean(Some(GradeSum(respostas) / |respostas| as real)) else Dash
  }

  /** The top of the grading scale. */
  const MaxGrade: real := 10.0

  predicate GradesOnScale(respostas: seq<Record>)
  {
    forall i :: 0 <= i < |respostas| ==> 0.0 <= GradeOrZero(Get(respostas[i], "nota")) <= MaxGrade
  }

  lemma {:induction false} GradeSumBounds(respostas: seq<Record>)
    requires GradesOnScale(respostas)
    ensures 0.0 <= GradeSum(respostas) <= MaxGrade * |respostas| as real
  {
    if respostas != [] {
      var init := respostas[..|respostas| - 1];
      assert GradesOnScale(init) by {
        forall i | 0 <= i < |init| ensures 0.0 <= GradeOrZero(Get(init[i], "nota")) <= MaxGrade {
          assert init[i] == respostas[i];
        }
      }
      GradeSumBounds(init);
      assert 0.0 <= GradeOrZero(Get(respostas[|respostas| - 1], "nota")) <= MaxGrade;
    }
  }

  /** When every grade lies on the 0 to 10 scale, so does the mean. */
  lemma {:induction false} MeanOnScale(respostas: seq<Record>)
    requires respostas != [] && GradesOnScale(respostas)
    ensures var m := MeanOrZero(respostas); m.Mean? && m.value.Some? && 0.0 <= m.value.value <= MaxGrade
  {
    GradeSumBounds(respostas);
    var n := |respostas| as real;
    var s := GradeSum(respostas);
    assert s / n <= MaxGrade by {
      assert s <= MaxGrade * n;
      assert (s / n) * n == s;
    }
  }

  /** An answer with no grade adds 0 to the sum, so it only pulls the mean down. */
  lemma {:induction false} UngradedCountsZero(respostas: seq<Record>, r: Record)
    requires IsNullish(Get(r, "nota"))
    ensures GradeSum(respostas + [r]) == GradeSum(respostas)
  {
    assert (respostas + [r])[..|respostas|] == respostas;
  }

  /** The sum `reduce((sum, r) => sum + Number(r.nota || 0), 0)`, in which one `NaN` spoils the total. */
  function CoercedSum(respostas: seq<Record>): Option<real>
  {
    if respostas == [] then Some(0.0)
    else
      var s := CoercedSum(respostas[..|respostas| - 1]);
      var x := NumberOf(Or(Get(respostas[|respostas| - 1], "nota"), Num(0)));
      if s.Some? && x.Some? then Some(s.value + x.value) else None
  }

  /** The mean as `painel.js` computes it: `NaN` as soon as one grade cannot be read. */
  function CoercedMean(respostas: seq<Record>): (m: MeanBox)
    ensures m.Dash? <==> respostas == []
    ensures m.Mean? ==> (m.value.None? <==> exists i :: 0 <= i < |respostas| && NumberOf(Or(Get(respostas[i], "nota"), Num(0))).None?)
  {
    CoercedSumNaN(respostas);
    if |respostas| > 0 then
      var s := CoercedSum(respostas);
      Mean(if s.Some? then Some(s.value / |respostas| as real) else None)
    else Dash
  }

  /** Every grade is one `Number(r.nota || 0)` can read. */
  predicate PlainGrades(respostas: seq<Record>)
  {
    forall i :: 0 <= i < |respostas| ==> NumberOf(Or(Get(respostas[i], "nota"), Num(0))).Some?
  }

  /** On a readable grade, `Number(v) || 0` and `Number(v || 0)` agree. */
  lemma GradeAgrees(v: Value)
    requires NumberOf(Or(v, Num(0))).Some?
    ensures GradeOrZero(v) == NumberOf(Or(v, Num(0))).value
  {
    if v.Str? && v.s == [] {
      assert Trim(v.s) == [];
    }
  }

  /** The panel's sum is `NaN` exactly when some grade cannot be read. */
  lemma {:induction false} CoercedSumNaN(respostas: seq<Record>)
    ensures CoercedSum(respostas).None? <==> !PlainGrades(respostas)
  {
    if respostas != [] {
      var init := respostas[..|respostas| - 1];
      CoercedSumNaN(init);
      assert forall i :: 0 <= i < |init| ==> init[i] == respostas[i];
    }
  }

  lemma {:induction false} SumsAgree(respostas: seq<Record>)
    requires PlainGrades(respostas)
    ensures CoercedSum(respostas) == Some(GradeSum(respostas))
  {
    if respostas != [] {
      var init := respostas[..|respostas| - 1];
      assert PlainGrades(init) by {
        forall i | 0 <= i < |init| ensures NumberOf(Or(Get(init[i], "nota"), Num(0))).Some? {
          assert init[i] == respostas[i];
        }
      }
      SumsAgree(init);
      GradeAgrees(Get(respostas[|respostas| - 1], "nota"));
    }
  }

  /**
   * The two pages' means agree when every grade can be read; they part only
   * on a grade such as a non-numeric string, which `questao.js` counts as 0
   * and `painel.js` lets turn the mean into `NaN`.
   */
  lemma {:induction false} MeansAgree(respostas: seq<Record>)
    requires PlainGrades(respostas)
    ensures CoercedMean(respostas) == MeanOrZero(respostas)
  {
    SumsAgree(respostas);
  }

  /** A single ungradable answer makes the panel's mean `NaN`, where the question page counts it as 0. */
  lemma {:induction false} MeansDiffer(r: Record)
    requires Get(r, "nota") == Str("dez")
    ensures CoercedMean([r]) == Mean(None)
    ensures MeanOrZero([r]) == Mean(Some(0.0))
  {
    assert [r][..0] == [];
    assert "dez"[0] == 'd' && !IsSpace('d');
    assert NumberOf(Str("dez")) == None;
    assert GradeSum([r]) == 0.0;
  }
}
