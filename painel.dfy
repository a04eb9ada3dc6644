/**
 * The student's panel (`aluno-interface/js/painel.js`): it loads the
 * questions of the student's teacher and grade and the student's answers,
 * draws one card per question, shows the counters and the mean grade, and
 * filters by discipline and type. The globals `aluno`, `questoes` and
 * `respostas` are the fields of `PainelPage`.
 */
module PainelPage {
  import opened Wrappers
  import opened Js
  import opened Text
  import opened Seqs
  import opened StudentAnswers
  import QuestaoPage

  const PreviewLength: nat := 100

  /** `(q.tipo_questao || "").replace("_", " ")`: only the first "_" becomes a space. */
  function TipoBadge(q: Record): string
  {
    ReplaceFirstChar(ToStr(Or(Get(q, "tipo_questao"), Str(""))), '_', ' ')
  }

  /** The badge changes the type at its first "_" and nowhere else; a type without "_" shows as it is. */
  lemma {:induction false} TipoBadgeFirstOnly(q: Record, k: nat)
    ensures var t := ToStr(Or(Get(q, "tipo_questao"), Str("")));
      (k < |t| && t[k] == '_' && (forall j :: 0 <= j < k ==> t[j] != '_') ==> TipoBadge(q) == t[..k] + " " + t[k + 1..]) &&
      ((forall j :: 0 <= j < |t| ==> t[j] != '_') ==> TipoBadge(q) == t)
  {
    var t := ToStr(Or(Get(q, "tipo_questao"), Str("")));
    if k < |t| && t[k] == '_' && (forall j :: 0 <= j < k ==> t[j] != '_') {
      ReplaceFirstSplit(t, '_', ' ', k);
    }
    if forall j :: 0 <= j < |t| ==> t[j] != '_' {
      ReplaceFirstAbsent(t, '_', ' ');
    }
  }

  /** A type with two "_" keeps the second one on the panel, where the activity page turns both into spaces. */
  lemma {:induction false} TipoBadgeKeepsSecond(q: Record)
    requires Get(q, "tipo_questao") == Str("a_b_c") && Get(q, "tipo").Undefined?
    ensures TipoBadge(q) == "a b_c"
    ensures QuestaoPage.TipoLabel(q) == "a b c"
  {
    var t := "a_b_c";
    assert t[0] == 'a' && t[1] == '_';
    ReplaceFirstSplit(t, '_', ' ', 1);
    assert t[..1] + " " + t[2..] == "a b_c";
  }

  /** `(q.enunciado ?? "").substring(0, 100) + "..."`: "..." is added whatever the length. */
  function Preview(q: Record): string
  {
    Take(ToStr(Coalesce(Get(q, "enunciado"), Str(""))), PreviewLength) + "..."
  }

  /** The preview is always the statement's first 100 characters (or all of a shorter one) followed by "...". */
  lemma {:induction false} PreviewShape(q: Record)
    ensures var t := ToStr(Coalesce(Get(q, "enunciado"), Str("")));
      EndsWith(Preview(q), "...") && |Preview(q)| == Min(|t|, PreviewLength) + 3 &&
      Preview(q)[..|Preview(q)| - 3] <= t
  {
    var p := Preview(q);
    assert p[|p| - 3..] == "...";
  }

  /** A card: the question, its first answer, and what it shows; grade and difficulty only on the unfiltered grid. */
  datatype PanelCard = PanelCard(question: Record, answer: Option<Record>, tipo: string, disciplina: string,
                                 serie: Option<string>, preview: string, dificuldade: Option<string>)

  /** `respondida.nota ?? "-"`. */
  function GradeShown(answer: Record): string
  {
    ToStr(Coalesce(Get(answer, "nota"), Str("-")))
  }

  /** One card; `full` for `exibirQuestoes`, which also shows the grade level and the difficulty. */
  function CardFor(q: Record, respostas: seq<Record>, full: bool): PanelCard
  {
    PanelCard(q, FindAnswer(respostas, q), TipoBadge(q), ToStr(Coalesce(Get(q, "disciplina"), Str(""))),
              if full then Some(ToStr(Coalesce(Get(q, "serie"), Str("")))) else None,
              Preview(q),
              if full then Some(ToStr(Coalesce(Get(q, "dificuldade"), Str("-")))) else None)
  }

  function CardsFor(qs: seq<Record>, respostas: seq<Record>, full: bool): (cs: seq<PanelCard>)
    ensures |cs| == |qs|
    ensures forall i :: 0 <= i < |qs| ==> cs[i] == CardFor(qs[i], respostas, full)
  {
    Map(qs, q => CardFor(q, respostas, full))
  }

  /** The panel and the activity page mark the same questions as answered, with the same answer. */
  lemma SameAnsweredFlag(q: Record, respostas: seq<Record>)
    ensures CardFor(q, respostas, true).answer == QuestaoPage.CardFor(q, respostas).answer
    ensures CardFor(q, respostas, true).answer.Some? <==> exists j :: 0 <= j < |respostas| && AnswersQuestion(respostas[j], q)
  {
  }

  datatype Grid = NotDrawn | NoQuestions | NoMatches | Cards(cards: seq<PanelCard>)

  /** `aplicarFiltros`' test: both fields must be equal when set; "" accepts all. */
  predicate Matches(q: Record, disc: string, tipo: string)
  {
    (disc == "" || Get(q, "disciplina") == Str(disc)) && (tipo == "" || Get(q, "tipo_questao") == Str(tipo))
  }

  function Filtered(qs: seq<Record>, disc: string, tipo: string): seq<Record>
  {
    Filter(qs, q => Matches(q, disc, tipo))
  }

  /** With no filter every question stays, in order; with filters a question stays exactly when it matches both. */
  lemma {:induction false} FilterCases(qs: seq<Record>, disc: string, tipo: string, q: Record)
    ensures Filtered(qs, "", "") == qs
    ensures q in Filtered(qs, disc, tipo) <==> q in qs && Matches(q, disc, tipo)
  {
    FilterKeepsAll(qs, q => Matches(q, "", ""));
    var r := Filtered(qs, disc, tipo);
    if q in r {
      var i :| 0 <= i < |r| && r[i] == q;
    }
    if q in qs && Matches(q, disc, tipo) {
      var i :| 0 <= i < |qs| && qs[i] == q;
    }
  }

  /**
   * The filters of `carregarQuestoes`' query: none at all without a teacher
   * (the page then keeps no question), else the teacher and the grade.
   */
  function PanelQuery(aluno: Record): (q: Option<seq<QuestaoPage.Eq>>)
    ensures q.None? <==> !Truthy(Get(aluno, "professor_id"))
    ensures q.Some? ==> |q.value| == 2
    ensures q.Some? ==> QuestaoPage.Eq("professor_id", Get(aluno, "professor_id")) in q.value
    ensures q.Some? ==> QuestaoPage.Eq("serie", Get(aluno, "serie")) in q.value
  {
    if !Truthy(Get(aluno, "professor_id")) then None
    else Some([QuestaoPage.Eq("professor_id", Get(aluno, "professor_id")), QuestaoPage.Eq("serie", Get(aluno, "serie"))])
  }

  /**
   * The panel asks for nothing without a teacher, and so shows no question,
   * where the activity page still lists every question of the student's
   * grade, from every teacher.
   */
  lemma NoTeacherDiffers(aluno: Record)
    requires !Truthy(Get(aluno, "professor_id"))
    ensures PanelQuery(aluno).None?
    ensures QuestaoPage.QuestoesQuery(aluno) == [QuestaoPage.Eq("serie", Get(aluno, "serie"))]
  {
  }

  /** With a teacher, the panel and the activity page ask for the same two filters, in another order. */
  lemma {:induction false} TeacherQueriesAgree(aluno: Record)
    requires Truthy(Get(aluno, "professor_id"))
    ensures multiset(PanelQuery(aluno).value) == multiset(QuestaoPage.QuestoesQuery(aluno))
  {
    var p := PanelQuery(aluno).value;
    var a := QuestaoPage.QuestoesQuery(aluno);
    assert p == [a[1], a[0]];
  }

  class PainelPage {
    var aluno: Record
    var questoes: seq<Record>
    var respostas: seq<Record>
    var grid: Grid

    /** The page once the profile `perfil` was found. */
    constructor (perfil: Record)
      ensures aluno == perfil && questoes == [] && respostas == [] && grid == NotDrawn
    {
      aluno, questoes, respostas, grid := perfil, [], [], NotDrawn;
    }

    /** `atualizarEstatisticas`: the counters and the mean with a missing grade as 0. */
    function Stats(): (nat, nat, MeanBox)
      reads this
    {
      (|questoes|, |respostas|, CoercedMean(respostas))
    }

    /**
     * `carregarQuestoes`: without a teacher on the profile nothing is asked
     * and the list is empty; an error or a non-array answer also leaves it
     * empty. `queried` says whether the database was asked.
     */
    method CarregarQuestoes(fetched: Result<Option<seq<Record>>>) returns (queried: bool)
      modifies this
      ensures queried <==> PanelQuery(aluno).Some?
      ensures !queried ==> questoes == []
      ensures queried ==> questoes == (if fetched.Ok? then fetched.value.GetOr([]) else [])
      ensures aluno == old(aluno) && respostas == old(respostas) && grid == old(grid)
    {
      if !Truthy(Get(aluno, "professor_id")) {
        questoes := [];
        return false;
      }
      questoes := if fetched.Ok? then fetched.value.GetOr([]) else [];
      return true;
    }

    /** `carregarRespostas`: the answers, or `[]` on an error or a non-array answer. */
    method CarregarRespostas(fetched: Result<Option<seq<Record>>>)
      modifies this
      ensures respostas == (if fetched.Ok? then fetched.value.GetOr([]) else [])
      ensures aluno == old(aluno) && questoes == old(questoes) && grid == old(grid)
    {
      respostas := if fetched.Ok? then fetched.value.GetOr([]) else [];
    }

    /** `exibirQuestoes`: the empty message, or one full card per loaded question. */
    method ExibirQuestoes()
      modifies this
      ensures grid == (if questoes == [] then NoQuestions else Cards(CardsFor(questoes, respostas, true)))
      ensures aluno == old(aluno) && questoes == old(questoes) && respostas == old(respostas)
    {
      if |questoes| == 0 {
        grid := NoQuestions;
        return;
      }
      grid := Cards(CardsFor(questoes, respostas, true));
    }

    /** `aplicarFiltros`: the matching questions as short cards, or the no-match message; the loaded list stays. */
    method AplicarFiltros(disc: string, tipo: string)
      modifies this
      ensures var f := Filtered(questoes, disc, tipo);
        grid == (if f == [] then NoMatches else Cards(CardsFor(f, respostas, false)))
      ensures aluno == old(aluno) && questoes == old(questoes) && respostas == old(respostas)
    {
      var filtradas := Filtered(questoes, disc, tipo);
      if |filtradas| == 0 {
        grid := NoMatches;
        return;
      }
      grid := Cards(CardsFor(filtradas, respostas, false));
    }
  }
}
