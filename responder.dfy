/**
 * The stand-alone answer page (`aluno-interface/js/responder.js`): it escapes
 * alternatives for HTML, finds the alternatives among four possible fields,
 * picks the answer widget from the question's type, and sends the answer to
 * the correction webhook, then follows the id it returns. The webhook's
 * answer, `JSON.parse` and the clock are parameters.
 */
module ResponderPage {
  import opened Wrappers
  import opened Js
  import opened Text
  import QuestaoPage

  // ===== escapeHtml =====

  /** `escapeHtml`: five `replaceAll` passes, the one for "&" first. */
  function EscapeHtml(s: string): string
  {
    ReplaceAll(ReplaceAll(ReplaceAll(ReplaceAll(ReplaceAll(s, '&', "&amp;"), '<', "&lt;"), '>', "&gt;"), '"', "&quot;"),
               '\'', "&#039;")
  }

  /** The entity each special character ends up as. */
  function Entity(c: char): string
  {
    if c == '&' then "&amp;"
    else if c == '<' then "&lt;"
    else if c == '>' then "&gt;"
    else if c == '"' then "&quot;"
    else if c == '\'' then "&#039;"
    else [c]
  }

  /** Escaping character by character, each one replaced by its entity. */
  function EscapeEach(s: string): string
  {
    if s == [] then [] else Entity(s[0]) + EscapeEach(s[1..])
  }

  lemma {:induction false} EscapeHtmlAppend(a: string, b: string)
    ensures EscapeHtml(a + b) == EscapeHtml(a) + EscapeHtml(b)
  {
    var a1, b1 := ReplaceAll(a, '&', "&amp;"), ReplaceAll(b, '&', "&amp;");
    ReplaceAllAppend(a, b, '&', "&amp;");
    var a2, b2 := ReplaceAll(a1, '<', "&lt;"), ReplaceAll(b1, '<', "&lt;");
    ReplaceAllAppend(a1, b1, '<', "&lt;");
    var a3, b3 := ReplaceAll(a2, '>', "&gt;"), ReplaceAll(b2, '>', "&gt;");
    ReplaceAllAppend(a2, b2, '>', "&gt;");
    var a4, b4 := ReplaceAll(a3, '"', "&quot;"), ReplaceAll(b3, '"', "&quot;");
    ReplaceAllAppend(a3, b3, '"', "&quot;");
    ReplaceAllAppend(a4, b4, '\'', "&#039;");
  }

  /** One pass over a text that holds none of the pass's character leaves it as it is. */
  lemma {:induction false} Untouched(t: string, c: char, rep: string)
    requires forall i :: 0 <= i < |t| ==> t[i] != c
    ensures ReplaceAll(t, c, rep) == t
  {
    ReplaceAllAbsent(t, c, rep);
  }

  /** One pass over a single character: its own pass replaces it, any other leaves it. */
  lemma OnePass(c: char, d: char, rep: string)
    ensures ReplaceAll([c], d, rep) == if c == d then rep else [c]
  {
    assert [c][1..] == [];
  }

  /** "&" becomes "&amp;" in the first pass, which no later pass touches. */
  lemma EscapeAmp()
    ensures EscapeHtml(['&']) == "&amp;"
  {
    var c, e := '&', "&amp;";
    var t1 := ReplaceAll([c], '&', "&amp;");
    assert t1 == e by { OnePass(c, '&', "&amp;"); }
    var t2 := ReplaceAll(t1, '<', "&lt;");
    assert t2 == e by { Untouched(e, '<', "&lt;"); }
    var t3 := ReplaceAll(t2, '>', "&gt;");
    assert t3 == e by { Untouched(e, '>', "&gt;"); }
    var t4 := ReplaceAll(t3, '"', "&quot;");
    assert t4 == e by { Untouched(e, '"', "&quot;"); }
    var t5 := ReplaceAll(t4, '\'', "&#039;");
    assert t5 == e by { Untouched(e, '\'', "&#039;"); }
  }

  /** "<" becomes "&lt;" in the second pass, and the later passes leave it. */
  lemma EscapeLt()
    ensures EscapeHtml(['<']) == "&lt;"
  {
    var c, e := '<', "&lt;";
    var t1 := ReplaceAll([c], '&', "&amp;");
    assert t1 == [c] by { OnePass(c, '&', "&amp;"); }
    var t2 := ReplaceAll(t1, '<', "&lt;");
    assert t2 == e by { OnePass(c, '<', "&lt;"); }
    var t3 := ReplaceAll(t2, '>', "&gt;");
    assert t3 == e by { Untouched(e, '>', "&gt;"); }
    var t4 := ReplaceAll(t3, '"', "&quot;");
    assert t4 == e by { Untouched(e, '"', "&quot;"); }
    var t5 := ReplaceAll(t4, '\'', "&#039;");
    assert t5 == e by { Untouched(e, '\'', "&#039;"); }
  }

  /** ">" becomes "&gt;" in the third pass, and the later passes leave it. */
  lemma EscapeGt()
    ensures EscapeHtml(['>']) == "&gt;"
  {
    var c, e := '>', "&gt;";
    var t1 := ReplaceAll([c], '&', "&amp;");
    assert t1 == [c] by { OnePass(c, '&', "&amp;"); }
    var t2 := ReplaceAll(t1, '<', "&lt;");
    assert t2 == [c] by { OnePass(c, '<', "&lt;"); }
    var t3 := ReplaceAll(t2, '>', "&gt;");
    assert t3 == e by { OnePass(c, '>', "&gt;"); }
    var t4 := ReplaceAll(t3, '"', "&quot;");
    assert t4 == e by { Untouched(e, '"', "&quot;"); }
    var t5 := ReplaceAll(t4, '\'', "&#039;");
    assert t5 == e by { Untouched(e, '\'', "&#039;"); }
  }

  /** A double quote becomes "&quot;" in the fourth pass, and the last pass leaves it. */
  lemma EscapeQuot()
    ensures EscapeHtml(['"']) == "&quot;"
  {
    var c, e := '"', "&quot;";
    var t1 := ReplaceAll([c], '&', "&amp;");
    assert t1 == [c] by { OnePass(c, '&', "&amp;"); }
    var t2 := ReplaceAll(t1, '<', "&lt;");
    assert t2 == [c] by { OnePass(c, '<', "&lt;"); }
    var t3 := ReplaceAll(t2, '>', "&gt;");
    assert t3 == [c] by { OnePass(c, '>', "&gt;"); }
    var t4 := ReplaceAll(t3, '"', "&quot;");
    assert t4 == e by { OnePass(c, '"', "&quot;"); }
    var t5 := ReplaceAll(t4, '\'', "&#039;");
    assert t5 == e by { Untouched(e, '\'', "&#039;"); }
  }

  /** A single quote becomes "&#039;" in the last pass. */
  lemma EscapeApos()
    ensures EscapeHtml(['\'']) == "&#039;"
  {
    var c, e := '\'', "&#039;";
    var t1 := ReplaceAll([c], '&', "&amp;");
    assert t1 == [c] by { OnePass(c, '&', "&amp;"); }
    var t2 := ReplaceAll(t1, '<', "&lt;");
    assert t2 == [c] by { OnePass(c, '<', "&lt;"); }
    var t3 := ReplaceAll(t2, '>', "&gt;");
    assert t3 == [c] by { OnePass(c, '>', "&gt;"); }
    var t4 := ReplaceAll(t3, '"', "&quot;");
    assert t4 == [c] by { OnePass(c, '"', "&quot;"); }
    var t5 := ReplaceAll(t4, '\'', "&#039;");
    assert t5 == e by { OnePass(c, '\'', "&#039;"); }
  }

  /** Any other character goes through all five passes unchanged. */
  lemma EscapePlain(c: char)
    requires c != '&' && c != '<' && c != '>' && c != '"' && c != '\''
    ensures EscapeHtml([c]) == [c]
  {
    var t1 := ReplaceAll([c], '&', "&amp;");
    assert t1 == [c] by { OnePass(c, '&', "&amp;"); }
    var t2 := ReplaceAll(t1, '<', "&lt;");
    assert t2 == [c] by { OnePass(c, '<', "&lt;"); }
    var t3 := ReplaceAll(t2, '>', "&gt;");
    assert t3 == [c] by { OnePass(c, '>', "&gt;"); }
    var t4 := ReplaceAll(t3, '"', "&quot;");
    assert t4 == [c] by { OnePass(c, '"', "&quot;"); }
    var t5 := ReplaceAll(t4, '\'', "&#039;");
    assert t5 == [c] by { OnePass(c, '\'', "&#039;"); }
  }

  /** One character: the pass for it turns it into its entity, and no later pass touches the entity. */
  lemma {:induction false} EscapeHtmlChar(c: char)
    ensures EscapeHtml([c]) == Entity(c)
  {
    if c == '&' {
      EscapeAmp();
    } else if c == '<' {
      EscapeLt();
    } else if c == '>' {
      EscapeGt();
    } else if c == '"' {
      EscapeQuot();
    } else if c == '\'' {
      EscapeApos();
    } else {
      EscapePlain(c);
    }
  }

  /** The five passes in the page's order amount to replacing each character by its entity once. */
  lemma {:induction false} EscapeHtmlEach(s: string)
    ensures EscapeHtml(s) == EscapeEach(s)
  {
    if s != [] {
      assert s == [s[0]] + s[1..];
      EscapeHtmlAppend([s[0]], s[1..]);
      EscapeHtmlChar(s[0]);
      EscapeHtmlEach(s[1..]);
    }
  }

  /** Reading the entities back. */
  function Unescape(t: string): string
    decreases |t|
  {
    if t == [] then []
    else if t[0] != '&' then [t[0]] + Unescape(t[1..])
    else if "&amp;" <= t then "&" + Unescape(t[5..])
    else if "&lt;" <= t then "<" + Unescape(t[4..])
    else if "&gt;" <= t then ">" + Unescape(t[4..])
    else if "&quot;" <= t then "\"" + Unescape(t[6..])
    else if "&#039;" <= t then "'" + Unescape(t[6..])
    else [t[0]] + Unescape(t[1..])
  }

  lemma {:induction false} UnescapeEntity(c: char, rest: string)
    ensures Unescape(Entity(c) + rest) == [c] + Unescape(rest)
  {
    var t := Entity(c) + rest;
    if c == '&' {
      assert t[5..] == rest;
    } else if c == '<' {
      assert t[1] == 'l' && t[4..] == rest;
    } else if c == '>' {
      assert t[1] == 'g' && t[4..] == rest;
    } else if c == '"' {
      assert t[1] == 'q' && t[6..] == rest;
    } else if c == '\'' {
      assert t[1] == '#' && t[6..] == rest;
    } else {
      assert t[0] == c && t[1..] == rest;
    }
  }

  /** Because "&" is escaped first, no entity is escaped twice, and reading the entities back gives the text. */
  lemma {:induction false} EscapeHtmlRoundTrip(s: string)
    ensures Unescape(EscapeHtml(s)) == s
  {
    EscapeHtmlEach(s);
    EachRoundTrip(s);
  }

  lemma {:induction false} EachRoundTrip(s: string)
    ensures Unescape(EscapeEach(s)) == s
  {
    if s != [] {
      UnescapeEntity(s[0], EscapeEach(s[1..]));
      EachRoundTrip(s[1..]);
    }
  }

  // ===== the alternatives =====

  /** `q.alternativas || q.opcoes || q.opcoes_json || q.alternativas_json || []`. */
  function AlternativesField(q: Record): Value
  {
    Or(Or(Or(Or(Get(q, "alternativas"), Get(q, "opcoes")), Get(q, "opcoes_json")), Get(q, "alternativas_json")), Arr([]))
  }

  /** `.map((s) => s.trim()).filter(Boolean)` over the lines. */
  function KeptLines(lines: seq<string>): (r: seq<string>)
    ensures |r| <= |lines|
    ensures forall i :: 0 <= i < |r| ==> r[i] != [] && !IsSpace(r[i][0]) && !IsSpace(r[i][|r[i]| - 1])
  {
    if lines == [] then []
    else
      var t := Trim(lines[|lines| - 1]);
      KeptLines(lines[..|lines| - 1]) + (if t != "" then [t] else [])
  }

  function AsStrings(ss: seq<string>): (r: seq<Value>)
    ensures |r| == |ss| && forall i :: 0 <= i < |ss| ==> r[i] == Str(ss[i])
  {
    if ss == [] then [] else AsStrings(ss[..|ss| - 1]) + [Str(ss[|ss| - 1])]
  }

  /**
   * The alternatives after the string case: a string is parsed as JSON
   * (`parse`, None when it throws), and when that fails it is split into
   * its trimmed non-empty lines.
   */
  function Alternatives(q: Record, parse: string -> Option<Value>): Value
  {
    var a := AlternativesField(q);
    if a.Str? then
      (if parse(a.s).Some? then parse(a.s).value else Arr(AsStrings(KeptLines(Split(a.s, '\n')))))
    else a
  }

  /**
   * The first truthy field is taken; a string that is not JSON becomes its
   * lines, each trimmed, non-empty, and free of line breaks.
   */
  lemma {:induction false} AlternativesCases(q: Record, parse: string -> Option<Value>)
    ensures Truthy(Get(q, "alternativas")) ==>
      AlternativesField(q) == Get(q, "alternativas")
    ensures !Truthy(Get(q, "alternativas")) && Truthy(Get(q, "opcoes")) ==> AlternativesField(q) == Get(q, "opcoes")
    ensures !AlternativesField(q).Str? ==> Alternatives(q, parse) == AlternativesField(q)
    ensures var a := AlternativesField(q);
      a.Str? && parse(a.s).None? ==>
        Alternatives(q, parse).Arr? &&
        forall v :: v in Alternatives(q, parse).items ==>
          v.Str? && v.s != [] && !IsSpace(v.s[0]) && (forall k :: 0 <= k < |v.s| ==> v.s[k] != '\n')
  {
    var a := AlternativesField(q);
    if a.Str? && parse(a.s).None? {
      var lines := Split(a.s, '\n');
      SplitJoin(a.s, '\n');
      var kept := KeptLines(lines);
      KeptLinesFromPieces(lines);
      forall v | v in Alternatives(q, parse).items
        ensures v.Str? && v.s != [] && !IsSpace(v.s[0]) && (forall k :: 0 <= k < |v.s| ==> v.s[k] != '\n')
      {
        var i :| 0 <= i < |kept| && v == Str(kept[i]);
      }
    }
  }

  /** Every kept line is the trimmed form of one of the lines, so it holds no line break when they hold none. */
  lemma {:induction false} KeptLinesFromPieces(lines: seq<string>)
    requires forall p, i :: p in lines && 0 <= i < |p| ==> p[i] != '\n'
    ensures forall j, k :: 0 <= j < |KeptLines(lines)| && 0 <= k < |KeptLines(lines)[j]| ==> KeptLines(lines)[j][k] != '\n'
  {
    if lines != [] {
      var init := lines[..|lines| - 1];
      var last := lines[|lines| - 1];
      assert forall p :: p in init ==> p in lines;
      KeptLinesFromPieces(init);
      var t := Trim(last);
      TrimIsPiece(last);
    }
  }

  /** `trim()` returns a piece of its argument. */
  lemma {:induction false} TrimIsPiece(s: string)
    ensures exists a, b :: 0 <= a <= b <= |s| && Trim(s) == s[a..b]
  {
    var u := TrimStart(s);
    var a := |s| - |u|;
    var t := TrimEnd(u);
    assert t == u[..|t|];
    assert u == s[a..];
    assert t == s[a..a + |t|];
  }

  // ===== the widget =====

  datatype Widget = Radios(options: seq<string>) | TrueFalse | AssociationText | EssayText

  /** The escaped text of every alternative. */
  function OptionTexts(alts: seq<Value>): (r: seq<string>)
    ensures |r| == |alts| && forall i :: 0 <= i < |alts| ==> r[i] == EscapeHtml(ToStr(alts[i]))
  {
    if alts == [] then [] else OptionTexts(alts[..|alts| - 1]) + [EscapeHtml(ToStr(alts[|alts| - 1]))]
  }

  /**
   * `montarOpcoes`, on `(q.tipo_questao || "").toLowerCase()`. Multiple
   * choice without a usable list falls back to the text area, and with one
   * shows each alternative escaped; true/false gives its two radios;
   * association and any other type give a text area.
   */
  function WidgetFor(q: Record, parse: string -> Option<Value>): (w: Widget)
    ensures w.Radios? <==>
      Contains(Lower(ToStr(Or(Get(q, "tipo_questao"), Str("")))), "multipla") &&
      Alternatives(q, parse).Arr? && |Alternatives(q, parse).items| > 0
    ensures w.Radios? ==> |w.options| == |Alternatives(q, parse).items|
    ensures w.Radios? ==>
      forall i :: 0 <= i < |w.options| ==> Unescape(w.options[i]) == ToStr(Alternatives(q, parse).items[i])
    ensures w.TrueFalse? <==>
      var tipo := Lower(ToStr(Or(Get(q, "tipo_questao"), Str(""))));
      !Contains(tipo, "multipla") && (Contains(tipo, "verdadeiro") || Contains(tipo, "falso"))
    ensures w.AssociationText? ==> Contains(Lower(ToStr(Or(Get(q, "tipo_questao"), Str("")))), "associacao")
  {
    var tipo := Lower(ToStr(Or(Get(q, "tipo_questao"), Str(""))));
    if Contains(tipo, "multipla") then
      var alts := Alternatives(q, parse);
      if !alts.Arr? || |alts.items| == 0 then EssayText
      else OptionsRoundTrip(alts.items); Radios(OptionTexts(alts.items))
    else if Contains(tipo, "verdadeiro") || Contains(tipo, "falso") then TrueFalse
    else if Contains(tipo, "associacao") then AssociationText
    else EssayText
  }

  /** Reading the entities back out of each escaped alternative gives its text. */
  lemma {:induction false} OptionsRoundTrip(alts: seq<Value>)
    ensures forall i :: 0 <= i < |alts| ==> Unescape(OptionTexts(alts)[i]) == ToStr(alts[i])
  {
    forall i | 0 <= i < |alts| ensures Unescape(OptionTexts(alts)[i]) == ToStr(alts[i]) {
      EscapeHtmlRoundTrip(ToStr(alts[i]));
    }
  }

  /** The header: the type with its first "_" as a space, discipline, grade level and statement. */
  datatype Header = Header(tipo: string, disciplina: string, serie: string, enunciado: string)

  function HeaderFor(q: Record): Header
  {
    Header(ReplaceFirstChar(ToStr(Or(Get(q, "tipo_questao"), Str(""))), '_', ' '),
           ToStr(Or(Get(q, "disciplina"), Str(""))), ToStr(Or(Get(q, "serie"), Str(""))),
           ToStr(Or(Get(q, "enunciado"), Str("—"))))
  }

  /**
   * Only the first "_" of the type becomes a space; a missing statement
   * shows as "—" and a missing discipline or grade level as "".
   */
  lemma {:induction false} HeaderCases(q: Record, k: nat)
    ensures var t := ToStr(Or(Get(q, "tipo_questao"), Str(""))); var h := HeaderFor(q);
      (k < |t| && t[k] == '_' && (forall j :: 0 <= j < k ==> t[j] != '_') ==> h.tipo == t[..k] + " " + t[k + 1..]) &&
      ((forall j :: 0 <= j < |t| ==> t[j] != '_') ==> h.tipo == t) &&
      (!Truthy(Get(q, "enunciado")) ==> h.enunciado == "—") &&
      (!Truthy(Get(q, "disciplina")) ==> h.disciplina == "")
  {
    var t := ToStr(Or(Get(q, "tipo_questao"), Str("")));
    if k < |t| && t[k] == '_' && (forall j :: 0 <= j < k ==> t[j] != '_') {
      ReplaceFirstSplit(t, '_', ' ', k);
    }
    if forall j :: 0 <= j < |t| ==> t[j] != '_' {
      ReplaceFirstAbsent(t, '_', ' ');
    }
  }

  /** What opening the page shows: no profile, no id in the address, a failed load, or the question. */
  datatype Opened = NoProfile | NoQuestionId | LoadFailed | Shown(header: Header, widget: Widget)

  /**
   * `initializeResponder` once the user is signed in: `perfil` and `loaded`
   * are the two queries' rows (None on an error or no row), `questaoId` the
   * address's `questao_id` parameter. The question is asked for only with an id.
   */
  function Open(perfil: Option<Record>, questaoId: Option<string>, loaded: Option<Record>,
                parse: string -> Option<Value>): (r: Opened)
    ensures perfil.None? <==> r.NoProfile?
    ensures r.NoQuestionId? <==> perfil.Some? && (questaoId.None? || questaoId.value == "")
    ensures r.Shown? <==> perfil.Some? && questaoId.Some? && questaoId.value != "" && loaded.Some?
    ensures r.Shown? ==> r.header == HeaderFor(loaded.value) && r.widget == WidgetFor(loaded.value, parse)
  {
    if perfil.None? then NoProfile
    else if questaoId.None? || questaoId.value == "" then NoQuestionId
    else if loaded.None? then LoadFailed
    else Shown(HeaderFor(loaded.value), WidgetFor(loaded.value, parse))
  }

  // ===== sending =====

  /** `Math.max(1, Math.round((Date.now() - (inicioCronometro || Date.now())) / 1000))`. */
  function ElapsedSeconds(now: int, start: Option<int>): (r: int)
    ensures r >= 1
    ensures start.None? || start.value == 0 ==> r == 1
    ensures r == Max(1, Round((now - (if start.Some? && start.value != 0 then start.value else now)) as real / 1000.0))
  {
    var from := if start.Some? && start.value != 0 then start.value else now;
    Max(1, Round((now - from) as real / 1000.0))
  }

  /** `sel ? sel.value : (txt && txt.value) || ""`. */
  function AnswerValue(sel: Option<string>, txt: Option<string>): string
  {
    if sel.Some? then sel.value else if txt.Some? then txt.value else ""
  }

  /** The JSON sent to the webhook, or None when the answer is empty and the button comes back. */
  function Payload(aluno: Record, q: Record, sel: Option<string>, txt: Option<string>, now: int, start: Option<int>): Option<Record>
  {
    var v := AnswerValue(sel, txt);
    if v == "" then None
    else Some(map[
      "aluno_id" := Get(aluno, "id"),
      "aluno_email" := Get(aluno, "email"),
      "questao_id" := Get(q, "id"),
      "tipo_questao" := Get(q, "tipo_questao"),
      "resposta" := Str(v),
      "tempo_segundos" := Num(ElapsedSeconds(now, start))])
  }

  /**
   * Only an empty answer is held back here: an answer of spaces goes to the
   * webhook, where the activity page refuses it.
   */
  lemma {:induction false} BlankAnswersDiffer(aluno: Record, q: Record, txt: string, now: int, start: Option<int>, elapsedMs: int)
    requires txt != "" && IsBlank(txt)
    ensures Payload(aluno, q, None, Some(txt), now, start).Some?
    ensures QuestaoPage.Payload(aluno, q, None, Some(txt), elapsedMs).None?
  {
  }

  /** The page after a send: nothing sent, a failure (the button comes back), the result page, or the panel. */
  datatype After = NotSent | SendFailed | ToResult(id: Value) | ToPanel

  /**
   * `handleSubmit`: `reply` is the webhook's parsed answer, None when it is
   * not ok or the request throws. The result page opens on `resposta_id`,
   * else on `id`; with neither the student goes back to the panel.
   */
  function Submit(aluno: Record, q: Record, sel: Option<string>, txt: Option<string>, now: int, start: Option<int>,
                  reply: Option<Value>): (a: After)
    ensures a.NotSent? <==> AnswerValue(sel, txt) == ""
    ensures a.SendFailed? <==> AnswerValue(sel, txt) != "" && reply.None?
    ensures a.ToResult? <==>
      AnswerValue(sel, txt) != "" && reply.Some? &&
      (Truthy(Field(reply.value, "resposta_id")) || Truthy(Field(reply.value, "id")))
    ensures a.ToResult? ==>
      reply.Some? && Truthy(a.id) && (a.id == Field(reply.value, "resposta_id") || a.id == Field(reply.value, "id"))
    ensures a.ToResult? && Truthy(Field(reply.value, "resposta_id")) ==> a.id == Field(reply.value, "resposta_id")
    ensures a.ToPanel? <==>
      AnswerValue(sel, txt) != "" && reply.Some? &&
      !Truthy(Field(reply.value, "resposta_id")) && !Truthy(Field(reply.value, "id"))
  {
    if Payload(aluno, q, sel, txt, now, start).None? then NotSent
    else if reply.None? then SendFailed
    else
      var id := Or(Field(reply.value, "resposta_id"), Field(reply.value, "id"));
      if Truthy(id) then ToResult(id) else ToPanel
  }
}
