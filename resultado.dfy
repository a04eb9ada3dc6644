/**
 * The result page (`aluno-interface/js/resultado.js`): it loads one answer
 * with its question and shows the grade, whether it passes, the student's
 * answer, the official key and the model's feedback, each escaped for HTML.
 * The address's `resposta_id` and the query's row are parameters.
 */
module ResultadoPage {
  import opened Wrappers
  import opened Js
  import opened Text
  import opened StudentAnswers

  // ===== escapeHTML =====

  /** `String(str || "")` followed by the three `replace` passes, "&" first. */
  function EscapeHtml(v: Value): string
  {
    ReplaceAll(ReplaceAll(ReplaceAll(ToStr(Or(v, Str(""))), '&', "&amp;"), '<', "&lt;"), '>', "&gt;")
  }

  /** What each character becomes: only "&", "<" and ">" are replaced. */
  function Entity(c: char): string
  {
    if c == '&' then "&amp;" else if c == '<' then "&lt;" else if c == '>' then "&gt;" else [c]
  }

  function EscapeEach(s: string): string
  {
    if s == [] then [] else Entity(s[0]) + EscapeEach(s[1..])
  }

  /** The three passes on a text. */
  function Passes3(s: string): string
  {
    ReplaceAll(ReplaceAll(ReplaceAll(s, '&', "&amp;"), '<', "&lt;"), '>', "&gt;")
  }

  lemma {:induction false} Passes3Append(a: string, b: string)
    ensures Passes3(a + b) == Passes3(a) + Passes3(b)
  {
    var a1, b1 := ReplaceAll(a, '&', "&amp;"), ReplaceAll(b, '&', "&amp;");
    ReplaceAllAppend(a, b, '&', "&amp;");
    var a2, b2 := ReplaceAll(a1, '<', "&lt;"), ReplaceAll(b1, '<', "&lt;");
    ReplaceAllAppend(a1, b1, '<', "&lt;");
    ReplaceAllAppend(a2, b2, '>', "&gt;");
  }

  lemma {:induction false} Passes3Char(c: char)
    ensures Passes3([c]) == Entity(c)
  {
    assert ReplaceAll([c], c, Entity(c)) == Entity(c) by {
      assert [c][1..] == [];
    }
    forall d: char, rep: string | d != c
      ensures ReplaceAll([c], d, rep) == [c]
    {
      ReplaceAllAbsent([c], d, rep);
    }
    if c == '&' {
      ReplaceAllAbsent("&amp;", '<', "&lt;");
      ReplaceAllAbsent("&amp;", '>', "&gt;");
    } else if c == '<' {
      ReplaceAllAbsent("&lt;", '>', "&gt;");
    }
  }

  /** The passes replace each "&", "<" and ">" by its entity once and leave every other character, quotes included. */
  lemma {:induction false} Passes3Each(s: string)
    ensures Passes3(s) == EscapeEach(s)
  {
    if s != [] {
      assert s == [s[0]] + s[1..];
      Passes3Append([s[0]], s[1..]);
      Passes3Char(s[0]);
      Passes3Each(s[1..]);
    }
  }

  function Unescape(t: string): string
    decreases |t|
  {
    if t == [] then []
    else if t[0] != '&' then [t[0]] + Unescape(t[1..])
    else if "&amp;" <= t then "&" + Unescape(t[5..])
    else if "&lt;" <= t then "<" + Unescape(t[4..])
    else if "&gt;" <= t then ">" + Unescape(t[4..])
    else [t[0]] + Unescape(t[1..])
  }

  lemma {:induction false} EachRoundTrip(s: string)
    ensures Unescape(EscapeEach(s)) == s
  {
    if s != [] {
      var rest := EscapeEach(s[1..]);
      var t := Entity(s[0]) + rest;
      if s[0] == '&' {
        assert t[5..] == rest;
      } else if s[0] == '<' {
        assert t[1] == 'l' && t[4..] == rest;
      } else if s[0] == '>' {
        assert t[1] == 'g' && t[4..] == rest;
      } else {
        assert t[0] == s[0] && t[1..] == rest;
      }
      EachRoundTrip(s[1..]);
    }
  }

  /**
   * A falsy value shows as nothing; any other value shows as its text, which
   * reading the entities back recovers; quotes are left as they are.
   */
  lemma {:induction false} EscapeHtmlRoundTrip(v: Value)
    ensures !Truthy(v) ==> EscapeHtml(v) == ""
    ensures Truthy(v) ==> Unescape(EscapeHtml(v)) == ToStr(v)
    ensures EscapeHtml(Str("\"")) == "\""
  {
    Passes3Each(ToStr(Or(v, Str(""))));
    EachRoundTrip(ToStr(Or(v, Str(""))));
    Passes3Char('"');
  }

  // ===== the result =====

  /** The official key and, when present, its justification. */
  datatype Key = Key(gabarito: string, justificativa: Option<string>)

  /** What `renderizarResultado` draws. `nota` is None for `NaN`. */
  datatype View = View(passed: bool, correct: bool, nota: Option<real>, enunciado: string, resposta: string,
                       key: Option<Key>, feedback: Option<string>, contestFor: Value)

  /** `res.resposta_alternativa || res.resposta_texto || "Sem resposta"`. */
  function StudentAnswer(res: Record): Value
  {
    Or(Or(Get(res, "resposta_alternativa"), Get(res, "resposta_texto")), Str(NoAnswer))
  }

  /** `renderizarResultado(res, questao)`: None when reading `questao.enunciado` throws on a missing question. */
  function Render(res: Record, questao: Value): (r: Option<View>)
    ensures r.None? <==> IsNullish(questao)
    ensures r.Some? ==> (r.value.passed <==> Passes(res)) && (r.value.correct <==> Truthy(Get(res, "correta")))
    ensures r.Some? ==> (r.value.key.Some? <==> Truthy(Field(questao, "gabarito")))
    ensures r.Some? ==> (r.value.feedback.Some? <==> Truthy(Get(res, "feedback")))
    ensures r.Some? ==> r.value.contestFor == Get(res, "id")
  {
    if IsNullish(questao) then None
    else
      var gab := Field(questao, "gabarito");
      var just := Field(questao, "justificativa_gabarito");
      Some(View(
        Passes(res), Truthy(Get(res, "correta")), NumberOf(Or(Get(res, "nota"), Num(0))),
        EscapeHtml(Field(questao, "enunciado")), EscapeHtml(StudentAnswer(res)),
        if Truthy(gab) then Some(Key(EscapeHtml(gab), if Truthy(just) then Some(EscapeHtml(just)) else None)) else None,
        if Truthy(Get(res, "feedback")) then Some(EscapeHtml(Get(res, "feedback"))) else None,
        Get(res, "id")))
  }

  /** The page passes exactly from grade 6, a missing grade counting as 0 and failing. */
  lemma {:induction false} RenderGrade(res: Record, questao: Value)
    requires !IsNullish(questao)
    ensures var v := Render(res, questao).value;
      (v.passed <==> Passes(res)) &&
      (IsNullish(Get(res, "nota")) ==> !v.passed && v.nota == Some(0.0)) &&
      (Get(res, "nota").Num? ==> (v.passed <==> Get(res, "nota").n >= 6))
  {
    PassCases(res);
  }

  /** The key appears only with a key and its justification only with one; the feedback only when there is some. */
  lemma {:induction false} RenderBlocks(res: Record, questao: Value)
    requires !IsNullish(questao)
    ensures var v := Render(res, questao).value;
      (v.key.Some? <==> Truthy(Field(questao, "gabarito"))) &&
      (v.key.Some? ==> (v.key.value.justificativa.Some? <==> Truthy(Field(questao, "justificativa_gabarito")))) &&
      (v.feedback.Some? <==> Truthy(Get(res, "feedback"))) &&
      (v.feedback.Some? ==> Unescape(v.feedback.value) == ToStr(Get(res, "feedback")))
  {
    EscapeHtmlRoundTrip(Get(res, "feedback"));
  }

  /** What is shown when the student gave no answer. */
  const NoAnswer: string := "Sem resposta"

  /** A non-empty text without "&", "<" or ">" is shown as it is. */
  lemma {:induction false} ShownAsIs(s: string)
    requires s != [] && forall i :: 0 <= i < |s| ==> s[i] != '&' && s[i] != '<' && s[i] != '>'
    ensures EscapeHtml(Str(s)) == s
  {
    Passes3Each(s);
    NoEntities(s);
  }

  /** With neither an alternative nor a text, the page says "Sem resposta". */
  lemma {:induction false} NoAnswerCase(res: Record)
    requires !Truthy(Get(res, "resposta_alternativa")) && !Truthy(Get(res, "resposta_texto"))
    ensures EscapeHtml(StudentAnswer(res)) == NoAnswer
  {
    var s := NoAnswer;
    ShownAsIs(s);
  }

  /** The student's answer is the alternative, else the text. */
  lemma {:induction false} RenderAnswer(res: Record, questao: Value)
    requires !IsNullish(questao)
    ensures var v := Render(res, questao).value;
      (Truthy(Get(res, "resposta_alternativa")) ==> Unescape(v.resposta) == ToStr(Get(res, "resposta_alternativa"))) &&
      (!Truthy(Get(res, "resposta_alternativa")) && Truthy(Get(res, "resposta_texto")) ==>
         Unescape(v.resposta) == ToStr(Get(res, "resposta_texto")))
  {
    var a := StudentAnswer(res);
    assert Render(res, questao).value.resposta == EscapeHtml(a);
    EscapeHtmlRoundTrip(a);
  }

  /** A text without "&", "<" or ">" escapes to itself. */
  lemma {:induction false} NoEntities(s: string)
    requires forall i :: 0 <= i < |s| ==> s[i] != '&' && s[i] != '<' && s[i] != '>'
    ensures EscapeEach(s) == s
  {
    if s != [] {
      NoEntities(s[1..]);
    }
  }

  // ===== opening the page =====

  datatype Page = MissingId | LoadError | Shown(view: View)

  /** The page and the id the database was asked for, if any. */
  datatype Loaded = Loaded(page: Page, queried: Option<string>)

  /**
   * `initResultado` once the user is signed in: `id` is the address's
   * `resposta_id`, `row` the query's answer row (None on an error or no row).
   */
  function Open(id: Option<string>, row: Option<Record>): (r: Loaded)
    ensures r.page.MissingId? <==> id.None? || id.value == ""
    ensures r.queried.None? <==> r.page.MissingId?
    ensures r.queried.Some? ==> r.queried == id
    ensures r.page.Shown? <==>
      !(id.None? || id.value == "") && row.Some? && !IsNullish(Get(row.value, "questoes_geradas"))
    ensures r.page.Shown? ==> row.Some? && Render(row.value, Get(row.value, "questoes_geradas")) == Some(r.page.view)
    ensures row.Some? && IsNullish(Get(row.value, "questoes_geradas")) && r.queried.Some? ==> r.page.LoadError?
  {
    if id.None? || id.value == "" then Loaded(MissingId, None)
    else if row.None? then Loaded(LoadError, id)
    else
      var v := Render(row.value, Get(row.value, "questoes_geradas"));
      Loaded(if v.Some? then Shown(v.value) else LoadError, id)
  }
}
