/**
 * The student's activity page (`aluno-interface/js/questao.js`): the grid of
 * questions with their answered flags, the answer widget chosen by the
 * question's type, the answer that is written as pending and then corrected,
 * the result view, the counters and the two filters. The page's globals
 * (`aluno`, `todasQuestoes`, `todasRespostas`, `questaoAtual`) are the fields
 * of `QuestaoPage`; database and webhook answers are parameters.
 */
module QuestaoPage {
  import opened Wrappers
  import opened Js
  import opened Text
  import opened Seqs
  import opened StudentAnswers

  const SummaryLength: nat := 80

  /** `q.tipo || q.tipo_questao || ""`. */
  function TipoRaw(q: Record): string
  {
    ToStr(Or(Or(Get(q, "tipo"), Get(q, "tipo_questao")), Str("")))
  }

  /** `tipoRaw.replace(/_/g, " ")`. */
  function TipoLabel(q: Record): string
  {
    ReplaceAllChar(TipoRaw(q), '_', ' ')
  }

  /** The type label keeps the type's length and has every "_" turned into a space. */
  lemma TipoLabelSpaces(q: Record)
    ensures |TipoLabel(q)| == |TipoRaw(q)|
    ensures forall i :: 0 <= i < |TipoLabel(q)| ==> TipoLabel(q)[i] != '_'
    ensures forall i :: 0 <= i < |TipoLabel(q)| && TipoRaw(q)[i] != '_' ==> TipoLabel(q)[i] == TipoRaw(q)[i]
  {
  }

  /** The card's summary: a long statement is cut to 80 characters and marked with "...". */
  function Resumo(q: Record): string
  {
    var e := Get(q, "enunciado");
    if e.Str? && |e.s| > SummaryLength then e.s[..SummaryLength] + "..."
    else ToStr(Or(e, Str("Questão sem texto")))
  }

  /** A statement longer than 80 characters shows as its first 80 and "..."; a shorter one shows whole. */
  lemma {:induction false} ResumoCases(q: Record)
    requires Get(q, "enunciado").Str? && Get(q, "enunciado").s != ""
    ensures var s := Get(q, "enunciado").s;
      (|s| > SummaryLength ==> |Resumo(q)| == SummaryLength + 3 && s[..SummaryLength] <= Resumo(q) && EndsWith(Resumo(q), "...")) &&
      (|s| <= SummaryLength ==> Resumo(q) == s)
  {
    var s := Get(q, "enunciado").s;
    if |s| > SummaryLength {
      var r := s[..SummaryLength] + "...";
      assert r[|r| - 3..] == "...";
    }
  }

  /** A card: the question, the student's first answer to it (if any), and the texts it shows. */
  datatype Card = Card(question: Record, answer: Option<Record>, disciplina: string, resumo: string, tipo: string)

  function CardFor(q: Record, respostas: seq<Record>): Card
  {
    Card(q, FindAnswer(respostas, q), StrOr(q, "disciplina", "Geral"), Resumo(q), TipoLabel(q))
  }

  /** The card's button: feedback for an answered question, an answer form otherwise. */
  function ButtonLabel(c: Card): string
  {
    if c.answer.Some? then "Ver Feedback" else "Responder"
  }

  /** A card is marked answered exactly when some answer names its question, and then it holds the first one. */
  lemma CardAnswered(q: Record, respostas: seq<Record>)
    ensures CardFor(q, respostas).answer.Some? <==>
      exists j :: 0 <= j < |respostas| && AnswersQuestion(respostas[j], q)
    ensures CardFor(q, respostas).answer.Some? ==> CardFor(q, respostas).answer.value in respostas
  {
  }

  /** `lista.forEach` building one card per question, in order. */
  function CardsFor(lista: seq<Record>, respostas: seq<Record>): (cs: seq<Card>)
    ensures |cs| == |lista|
    ensures forall i :: 0 <= i < |lista| ==> cs[i] == CardFor(lista[i], respostas)
  {
    Map(lista, q => CardFor(q, respostas))
  }
  /** The loop of `renderizarGrid`: one card per question, built in order. */
  method BuildCards(lista: seq<Record>, respostas: seq<Record>) returns (cards: seq<Card>)
    ensures cards == CardsFor(lista, respostas)
  {
    cards := [];
    var i := 0;
    while i < |lista|
      invariant 0 <= i <= |lista|
      invariant |cards| == i
      invariant forall j :: 0 <= j < i ==> cards[j] == CardFor(lista[j], respostas)
    {
      cards := cards + [CardFor(lista[i], respostas)];
      i := i + 1;
    }
  }


  /** The grid: not drawn yet, the empty message, the load error, or the cards. */
  datatype Grid = NotDrawn | NoActivities | LoadError | Cards(cards: seq<Card>)

  function GridFor(lista: seq<Record>, respostas: seq<Record>): (g: Grid)
    ensures g.NoActivities? <==> lista == []
    ensures g.Cards? ==> g.cards == CardsFor(lista, respostas)
  {
    if lista == [] then NoActivities else Cards(CardsFor(lista, respostas))
  }

  // ===== the answer widget =====

  datatype RadioOption = RadioOption(value: string, caption: string)

  /** What `abrirQuestao` puts in the form. */
  datatype Widget = NoWidget | TrueFalse | Radios(options: seq<RadioOption>) | MissingAlternatives | Essay

  /**
   * The alternatives: an array as it is, a string through `JSON.parse`
   * (`parse`, None when it throws), anything else none.
   */
  function AlternativesOf(q: Record, parse: string -> Option<Value>): seq<Value>
  {
    var a := Get(q, "alternativas");
    if a.Arr? then a.items
    else if a.Str? && parse(a.s).Some? && parse(a.s).value.Arr? then parse(a.s).value.items
    else []
  }

  /** One radio per alternative: the value has `"` escaped, the label is the text as it is. */
  function OptionsOf(alts: seq<Value>): (r: seq<RadioOption>)
    ensures |r| == |alts|
    ensures forall i :: 0 <= i < |alts| ==> r[i] == RadioOption(ReplaceAll(ToStr(alts[i]), '"', "&quot;"), ToStr(alts[i]))
  {
    if alts == [] then []
    else OptionsOf(alts[..|alts| - 1]) + [RadioOption(ReplaceAll(ToStr(alts[|alts| - 1]), '"', "&quot;"), ToStr(alts[|alts| - 1]))]
  }

  predicate IsTrueFalse(tipo: string)
  {
    Contains(tipo, "verdadeiro") || Contains(tipo, "falso")
  }

  /**
   * The lower-cased type decides: true/false wins over multiple choice,
   * multiple choice shows one radio per alternative (or the error when there
   * are none), and everything else is a text area. No radio value holds a
   * bare `"`.
   */
  function WidgetFor(q: Record, parse: string -> Option<Value>): (w: Widget)
    ensures w.TrueFalse? <==> IsTrueFalse(Lower(TipoRaw(q)))
    ensures w.Radios? <==>
      !IsTrueFalse(Lower(TipoRaw(q))) && Contains(Lower(TipoRaw(q)), "multipla") && |AlternativesOf(q, parse)| > 0
    ensures w.MissingAlternatives? <==>
      !IsTrueFalse(Lower(TipoRaw(q))) && Contains(Lower(TipoRaw(q)), "multipla") && |AlternativesOf(q, parse)| == 0
    ensures w.Essay? <==> !IsTrueFalse(Lower(TipoRaw(q))) && !Contains(Lower(TipoRaw(q)), "multipla")
    ensures w.Radios? ==> |w.options| == |AlternativesOf(q, parse)|
    ensures w.Radios? ==>
      forall i, k :: 0 <= i < |w.options| && 0 <= k < |w.options[i].value| ==> w.options[i].value[k] != '"'
  {
    var tipo := Lower(TipoRaw(q));
    if IsTrueFalse(tipo) then TrueFalse
    else if Contains(tipo, "multipla") then
      var alts := AlternativesOf(q, parse);
      if |alts| > 0 then OptionsUnquoted(alts); Radios(OptionsOf(alts)) else MissingAlternatives
    else Essay
  }

  /** No radio value holds a bare `"`: every one has been escaped. */
  lemma {:induction false} OptionsUnquoted(alts: seq<Value>)
    ensures forall i, k :: 0 <= i < |OptionsOf(alts)| && 0 <= k < |OptionsOf(alts)[i].value| ==>
      OptionsOf(alts)[i].value[k] != '"'
  {
    var r := OptionsOf(alts);
    forall i | 0 <= i < |r|
      ensures forall k :: 0 <= k < |r[i].value| ==> r[i].value[k] != '"'
    {
      ReplaceAllRemoves(ToStr(alts[i]), '"', "&quot;");
    }
  }

  // ===== sending an answer =====

  const Pendente: string := "pendente"
  const Concluido: string := "concluido"

  /** The chosen radio's value, else the text area's, else "". */
  function AnswerValue(radio: Option<string>, text: Option<string>): string
  {
    if radio.Some? then radio.value else if text.Some? then text.value else ""
  }

  /**
   * The row `enviarResposta` inserts, or None when the answer is blank and
   * nothing is written. `elapsedMs` is `Date.now() - tempoInicio`. A row that
   * is written is pending, holds the answer as text, and holds it as the
   * chosen alternative only when a radio was picked.
   */
  function Payload(aluno: Record, q: Record, radio: Option<string>, text: Option<string>, elapsedMs: int): (p: Option<Record>)
    ensures p.None? <==> IsBlank(AnswerValue(radio, text))
    ensures p.Some? ==> Get(p.value, "status_correcao") == Str(Pendente)
    ensures p.Some? ==> Get(p.value, "resposta_texto") == Str(AnswerValue(radio, text))
    ensures p.Some? ==> (Get(p.value, "resposta_alternativa").Null? <==> radio.None?)
    ensures p.Some? ==> Get(p.value, "questao_id") == Get(q, "id")
  {
    var val := AnswerValue(radio, text);
    TrimBlank(val);
    if val == "" || Trim(val) == "" then None
    else
      var tempo := Num(Round(elapsedMs as real / 1000.0));
      PayloadFields(Get(aluno, "id"), Get(q, "id"), radio.Some?, val, tempo);
      Some(map[
        "aluno_id" := Get(aluno, "id"),
        "questao_id" := Get(q, "id"),
        "resposta_alternativa" := if radio.Some? then Str(val) else Null,
        "resposta_texto" := Str(val),
        "tempo_segundos" := tempo,
        "status_correcao" := Str(Pendente)])
  }

  /** The fields of the row read back as they were put in. */
  lemma PayloadFields(aluno: Value, questao: Value, chosen: bool, val: string, tempo: Value)
    ensures var m := map[
        "aluno_id" := aluno,
        "questao_id" := questao,
        "resposta_alternativa" := if chosen then Str(val) else Null,
        "resposta_texto" := Str(val),
        "tempo_segundos" := tempo,
        "status_correcao" := Str(Pendente)];
      Get(m, "status_correcao") == Str(Pendente) && Get(m, "resposta_texto") == Str(val) &&
      Get(m, "resposta_alternativa") == (if chosen then Str(val) else Null) && Get(m, "questao_id") == questao
  {
  }

  /** The fields the correction webhook's answer writes into the saved answer. */
  const CorrectionFields: set<string> := {"nota", "feedback", "pontos_melhoria", "correta", "status_correcao"}

  /** `respSalva` after the webhook's correction `ia`. */
  function Corrected(saved: Record, ia: Record): Record
  {
    saved + map[
      "nota" := Get(ia, "nota"),
      "feedback" := Get(ia, "feedback"),
      "pontos_melhoria" := Get(ia, "pontos_melhoria"),
      "correta" := Get(ia, "correta"),
      "status_correcao" := Str(Concluido)]
  }

  /** `carregarResultado`'s pending flag. */
  predicate Pending(resposta: Record)
  {
    Get(resposta, "status_correcao") == Str(Pendente) && !Truthy(Get(resposta, "feedback"))
  }

  /** A corrected answer is never pending, takes the correction's grade, and keeps every other field. */
  lemma CorrectedFields(saved: Record, ia: Record)
    ensures !Pending(Corrected(saved, ia))
    ensures Get(Corrected(saved, ia), "nota") == Get(ia, "nota")
    ensures forall k :: k !in CorrectionFields ==> Get(Corrected(saved, ia), k) == Get(saved, k)
  {
  }

  /** How a send ends: nothing sent, the insert failing (the button comes back), or the result shown. */
  datatype Sent = NotSent | SaveFailed | ResultShown(resposta: Record)

  /**
   * `enviarResposta`: `inserted` is the row the insert returns (None on
   * error); `webhook` whether a correction webhook is configured; `ia` its
   * parsed answer when it answers ok, None when it fails or throws. The
   * result shown is corrected exactly when the webhook answered; a blank
   * answer sends nothing.
   */
  function Send(aluno: Record, q: Record, radio: Option<string>, text: Option<string>, elapsedMs: int,
                inserted: Option<Record>, webhook: bool, ia: Option<Record>): (s: Sent)
    ensures s.NotSent? <==> IsBlank(AnswerValue(radio, text))
    ensures s.SaveFailed? <==> !IsBlank(AnswerValue(radio, text)) && inserted.None?
    ensures s.ResultShown? && webhook && ia.Some? ==> !Pending(s.resposta) && Get(s.resposta, "nota") == Get(ia.value, "nota")
    ensures s.ResultShown? && !(webhook && ia.Some?) ==> s.resposta == inserted.value
  {
    if Payload(aluno, q, radio, text, elapsedMs).None? then NotSent
    else if inserted.None? then SaveFailed
    else if webhook && ia.Some? then CorrectedFields(inserted.value, ia.value); ResultShown(Corrected(inserted.value, ia.value))
    else ResultShown(inserted.value)
  }

  // ===== the result view =====

  datatype Heading = Waiting | Congratulations | KeepStudying

  /** `carregarResultado`: the heading, the official answer block and the improvement block. */
  datatype ResultView = ResultView(heading: Heading, gabarito: Option<(Value, string)>, melhoria: Option<Value>)

  /**
   * A pending answer shows the waiting heading whatever its grade; otherwise
   * the heading says whether the grade reached 6. The official answer shows
   * only when the question has one.
   */
  function ResultFor(resposta: Record, questao: Option<Record>, atual: Option<Record>): (v: ResultView)
    ensures v.heading.Waiting? <==> Pending(resposta)
    ensures v.heading.Congratulations? <==> !Pending(resposta) && Passes(resposta)
    ensures questao.Some? ==> (v.gabarito.Some? <==> Truthy(Get(questao.value, "gabarito")))
    ensures v.melhoria.Some? <==> Truthy(Get(resposta, "pontos_melhoria"))
  {
    var heading := if Pending(resposta) then Waiting else if Passes(resposta) then Congratulations else KeepStudying;
    var dados := if questao.Some? then questao else atual;
    var gabarito :=
      if dados.Some? && Truthy(Get(dados.value, "gabarito"))
      then Some((Get(dados.value, "gabarito"), StrOr(dados.value, "justificativa", "")))
      else None;
    var melhoria := if Truthy(Get(resposta, "pontos_melhoria")) then Some(Get(resposta, "pontos_melhoria")) else None;
    ResultView(heading, gabarito, melhoria)
  }

  // ===== filters =====

  /** `aplicarFiltros`' test: the discipline exactly, the type as a piece of the lower-cased type; "" accepts all. */
  predicate Matches(q: Record, disc: string, tipo: string)
  {
    (disc == "" || Get(q, "disciplina") == Str(disc)) &&
    (tipo == "" || Contains(Lower(TipoRaw(q)), tipo))
  }

  function Filtered(questoes: seq<Record>, disc: string, tipo: string): seq<Record>
  {
    Filter(questoes, q => Matches(q, disc, tipo))
  }

  /** With both filters empty every question stays, in order. */
  lemma {:induction false} EmptyFiltersKeepAll(questoes: seq<Record>)
    ensures Filtered(questoes, "", "") == questoes
  {
    FilterKeepsAll(questoes, q => Matches(q, "", ""));
  }

  /** A question is shown after filtering exactly when it is loaded and matches both filters. */
  lemma {:induction false} FilteredMembers(questoes: seq<Record>, disc: string, tipo: string, q: Record)
    ensures q in Filtered(questoes, disc, tipo) <==> q in questoes && Matches(q, disc, tipo)
  {
    var r := Filtered(questoes, disc, tipo);
    if q in r {
      var i :| 0 <= i < |r| && r[i] == q;
    }
    if q in questoes && Matches(q, disc, tipo) {
      var i :| 0 <= i < |questoes| && questoes[i] == q;
    }
  }

  // ===== the question query =====

  /** An equality filter of a database query: column and value. */
  datatype Eq = Eq(column: string, value: Value)

  /**
   * The filters of `carregarDados`' question query: the student's grade
   * always, the teacher only when the profile names one.
   */
  function QuestoesQuery(aluno: Record): (fs: seq<Eq>)
    ensures 1 <= |fs| <= 2 && fs[0] == Eq("serie", Get(aluno, "serie"))
    ensures |fs| == 2 <==> Truthy(Get(aluno, "professor_id"))
    ensures |fs| == 2 ==> fs[1] == Eq("professor_id", Get(aluno, "professor_id"))
  {
    [Eq("serie", Get(aluno, "serie"))] +
    (if Truthy(Get(aluno, "professor_id")) then [Eq("professor_id", Get(aluno, "professor_id"))] else [])
  }

  // ===== the page =====

  class QuestaoPage {
    var aluno: Record
    var questoes: seq<Record>
    var respostas: seq<Record>
    var atual: Option<Record>
    var grid: Grid
    var widget: Widget

    /** The page once the student's profile `perfil` was found. */
    constructor (perfil: Record)
      ensures aluno == perfil && questoes == [] && respostas == [] && atual == None
      ensures grid == NotDrawn && widget == NoWidget
    {
      aluno, questoes, respostas, atual := perfil, [], [], None;
      grid, widget := NotDrawn, NoWidget;
    }

    /** `atualizarStats`: the two counters and the mean grade. */
    function Stats(): (nat, nat, MeanBox)
      reads this
    {
      (|questoes|, |respostas|, MeanOrZero(respostas))
    }

    /**
     * `carregarDados`: the answers (`[]` for none) are always taken; a failing
     * question query leaves the questions as they were and shows the error.
     */
    method CarregarDados(resps: Option<seq<Record>>, quests: Result<Option<seq<Record>>>)
      modifies this
      ensures respostas == resps.GetOr([])
      ensures quests.Err? ==> questoes == old(questoes) && grid == LoadError
      ensures quests.Ok? ==> questoes == quests.value.GetOr([]) && grid == GridFor(questoes, respostas)
      ensures aluno == old(aluno) && atual == old(atual) && widget == old(widget)
    {
      respostas := resps.GetOr([]);
      if quests.Err? {
        grid := LoadError;
        return;
      }
      questoes := quests.value.GetOr([]);
      RenderizarGrid(questoes);
    }

    /** `renderizarGrid`: the empty message, or one card per question appended in order. */
    method RenderizarGrid(lista: seq<Record>)
      modifies this
      ensures grid == GridFor(lista, respostas)
      ensures aluno == old(aluno) && questoes == old(questoes) && respostas == old(respostas)
      ensures atual == old(atual) && widget == old(widget)
    {
      if |lista| == 0 {
        grid := NoActivities;
        return;
      }
      var cards := BuildCards(lista, respostas);
      grid := Cards(cards);
    }

    /** `abrirQuestao`: the question becomes the current one and its widget is drawn. */
    method AbrirQuestao(q: Record, parse: string -> Option<Value>)
      modifies this
      ensures atual == Some(q) && widget == WidgetFor(q, parse)
      ensures aluno == old(aluno) && questoes == old(questoes) && respostas == old(respostas) && grid == old(grid)
    {
      atual := Some(q);
      widget := WidgetFor(q, parse);
    }

    /** `aplicarFiltros`: the loaded questions that match, drawn as the grid; the loaded list itself stays. */
    method AplicarFiltros(disc: string, tipo: string)
      modifies this
      ensures grid == GridFor(Filtered(questoes, disc, tipo), respostas)
      ensures aluno == old(aluno) && questoes == old(questoes) && respostas == old(respostas)
      ensures atual == old(atual) && widget == old(widget)
    {
      RenderizarGrid(Filtered(questoes, disc, tipo));
    }
  }
}
