/**
 * The teacher's history panel (`newnerd-interface/js/history.js`): it lists
 * the stored questions, opens or deletes one, clears the history, filters by
 * type, discipline and age, and searches the text. The confirmation dialogs,
 * the clock and `new Date(...)` are parameters; the history itself is the
 * `Storage.HistoryStore` the page reads and writes.
 */
module HistoryPage {
  import opened Wrappers
  import opened Js
  import opened Text
  import opened Seqs
  import opened Storage

  const PreviewLength: nat := 80

  /** `QUESTION_TYPES` of the teacher configuration: the label of each type key. */
  const QuestionTypes: map<string, string> := map[
    "multipla_escolha" := "Múltipla Escolha",
    "discursiva" := "Discursiva",
    "verdadeiro_falso" := "Verdadeiro/Falso",
    "associacao" := "Associação",
    "desconhecido" := "Tipo Desconhecido"]

  /** `QUESTION_TYPES[q.tipo_questao] || q.tipo_questao`, as the badge prints it. */
  function TipoShown(q: Record): string
  {
    var t := Get(q, "tipo_questao");
    if t.Str? && t.s in QuestionTypes then QuestionTypes[t.s] else ToStr(t)
  }

  /** One entry of the list: what it opens and deletes (the id as text), and what it shows. */
  datatype Item = Item(id: string, tipo: string, data: string, preview: string, disciplina: string,
                       serie: Option<string>, dificuldade: Option<string>)

  function ItemFor(q: Record): Item
  {
    Item(ToStr(Get(q, "id")), TipoShown(q), ToStr(Or(Get(q, "data_criacao"), Str("Sem data"))),
         Take(ToStr(Or(Get(q, "enunciado"), Str(""))), PreviewLength) + "...",
         ToStr(Or(Get(q, "disciplina"), Str("Geral"))),
         if Truthy(Get(q, "serie")) then Some(ToStr(Get(q, "serie"))) else None,
         if Truthy(Get(q, "dificuldade")) then Some(ToStr(Get(q, "dificuldade"))) else None)
  }

  /**
   * The preview is always the statement's first 80 characters followed by
   * "..."; a missing discipline shows "Geral", a missing date "Sem data"; the
   * grade level and difficulty appear only when set; a known type shows its
   * label.
   */
  lemma {:induction false} ItemCases(q: Record)
    ensures var it := ItemFor(q); var e := ToStr(Or(Get(q, "enunciado"), Str("")));
      |it.preview| == Min(|e|, PreviewLength) + 3 && EndsWith(it.preview, "...") &&
      it.preview[..|it.preview| - 3] <= e &&
      (!Truthy(Get(q, "disciplina")) ==> it.disciplina == "Geral") &&
      (!Truthy(Get(q, "data_criacao")) ==> it.data == "Sem data") &&
      (it.serie.Some? <==> Truthy(Get(q, "serie"))) &&
      (it.dificuldade.Some? <==> Truthy(Get(q, "dificuldade"))) &&
      (Get(q, "tipo_questao") == Str("discursiva") ==> it.tipo == "Discursiva")
  {
    var p := ItemFor(q).preview;
    assert p[|p| - 3..] == "...";
  }

  /** The entries of a list, one per record, in order. */
  function ItemsFor(h: seq<Record>): (r: seq<Item>)
  {
    seq(|h|, i requires 0 <= i < |h| => ItemFor(h[i]))
  }

  /** The `forEach` that appends one entry per record to the markup. */
  method RenderItems(h: seq<Record>) returns (items: seq<Item>)
    ensures items == ItemsFor(h)
  {
    items := [];
    var i := 0;
    while i < |h|
      invariant 0 <= i <= |h|
      invariant |items| == i && forall j :: 0 <= j < i ==> items[j] == ItemFor(h[j])
    {
      items := items + [ItemFor(h[i])];
      i := i + 1;
    }
  }

  /** What the history box shows: nothing yet, one of the two placeholders, or the entries. */
  datatype Listing = NotDrawn | NothingYet | NoneFound | Items(items: seq<Item>)

  // ===== the filters =====

  /** The three limits `applyFilters` computes from the clock: midnight today, a week and a month ago. */
  datatype Limits = Limits(today: int, weekAgo: int, monthAgo: int)

  /** The limit for the date filter's value; any other value sets none. */
  function DateLimit(filterData: string, l: Limits): Option<int>
  {
    if filterData == "hoje" then Some(l.today)
    else if filterData == "semana" then Some(l.weekAgo)
    else if filterData == "mes" then Some(l.monthAgo)
    else None
  }

  /** `new Date(q.timestamp) >= dataLimite`; `time` is `new Date(...)`, None for an invalid date, which never passes. */
  predicate RecentEnough(q: Record, limit: int, time: Value -> Option<int>)
  {
    time(Get(q, "timestamp")).Some? && time(Get(q, "timestamp")).value >= limit
  }

  /** The type filter's test; an empty choice accepts every record. */
  predicate TipoOk(q: Record, tipo: string)
  {
    tipo == "" || Get(q, "tipo_questao") == Str(tipo)
  }

  /** The discipline filter's test; an empty choice accepts every record. */
  predicate DiscOk(q: Record, disc: string)
  {
    disc == "" || Get(q, "disciplina") == Str(disc)
  }

  /** The date filter's test; an empty or unknown period accepts every record. */
  predicate DateOk(q: Record, data: string, l: Limits, time: Value -> Option<int>)
  {
    DateLimit(data, l).None? || RecentEnough(q, DateLimit(data, l).value, time)
  }

  /**
   * `applyFilters`: each chosen filter is applied in turn to what the
   * previous one kept (a filter that is not chosen is skipped).
   */
  function FilteredHistory(h: seq<Record>, tipo: string, disc: string, data: string, l: Limits,
                           time: Value -> Option<int>): (r: seq<Record>)
    ensures |r| <= |h|
    ensures forall q :: q in r ==> q in h && Keeps(q, tipo, disc, data, l, time)
    ensures forall q :: q in h && Keeps(q, tipo, disc, data, l, time) ==> q in r
  {
    var pt: Record -> bool := q => TipoOk(q, tipo);
    var pd: Record -> bool := q => DiscOk(q, disc);
    var pl: Record -> bool := q => DateOk(q, data, l, time);
    var h1 := if tipo != "" then Filter(h, pt) else h;
    var h2 := if disc != "" then Filter(h1, pd) else h1;
    var r := if data != "" && DateLimit(data, l).Some? then Filter(h2, pl) else h2;
    StageFacts(h, pt, tipo != "");
    StageFacts(h1, pd, disc != "");
    StageFacts(h2, pl, data != "" && DateLimit(data, l).Some?);
    r
  }

  /** One optional filter keeps only what it tests true and drops nothing it tests true. */
  lemma StageFacts(h: seq<Record>, p: Record -> bool, apply: bool)
    ensures var r := if apply then Filter(h, p) else h;
      |r| <= |h| &&
      (forall q :: q in r ==> q in h && (apply ==> p(q))) &&
      (forall q :: q in h && p(q) ==> q in r)
  {
    if apply {
      var r := Filter(h, p);
      forall q | q in r ensures q in h && p(q) {
        var i :| 0 <= i < |r| && r[i] == q;
      }
      forall q | q in h && p(q) ensures q in r {
        var i :| 0 <= i < |h| && h[i] == q;
      }
    }
  }

  /** The combined test: both fields equal when set, and recent enough when a known period is chosen. */
  predicate Keeps(q: Record, tipo: string, disc: string, data: string, l: Limits, time: Value -> Option<int>)
  {
    TipoOk(q, tipo) && DiscOk(q, disc) && DateOk(q, data, l, time)
  }

  /** Skipping a filter whose test accepts everything is the same as applying it. */
  lemma {:induction false} SkipIsFilter(h: seq<Record>, p: Record -> bool, apply: bool)
    requires !apply ==> forall x :: p(x)
    ensures (if apply then Filter(h, p) else h) == Filter(h, p)
  {
    if !apply {
      FilterKeepsAll(h, p);
    }
  }

  /**
   * The filters in sequence amount to one filter by the combined test: the
   * result keeps exactly the matching records, in their stored order.
   */
  lemma {:induction false} FilteredHistoryIsOneFilter(h: seq<Record>, tipo: string, disc: string, data: string, l: Limits,
                                   time: Value -> Option<int>)
    ensures FilteredHistory(h, tipo, disc, data, l, time) == Filter(h, q => Keeps(q, tipo, disc, data, l, time))
  {
    var pt: Record -> bool := q => TipoOk(q, tipo);
    var pd: Record -> bool := q => DiscOk(q, disc);
    var pl: Record -> bool := q => DateOk(q, data, l, time);
    SkipIsFilter(h, pt, tipo != "");
    var h1 := Filter(h, pt);
    SkipIsFilter(h1, pd, disc != "");
    var h2 := Filter(h1, pd);
    SkipIsFilter(h2, pl, data != "" && DateLimit(data, l).Some?);
    assert FilteredHistory(h, tipo, disc, data, l, time) == Filter(h2, pl);
    ThreeFilters(h, tipo, disc, data, l, time);
  }

  lemma ThreeFilters(h: seq<Record>, tipo: string, disc: string, data: string, l: Limits,
                     time: Value -> Option<int>)
    ensures Filter(Filter(Filter(h, q => TipoOk(q, tipo)), q => DiscOk(q, disc)), q => DateOk(q, data, l, time)) ==
            Filter(h, q => Keeps(q, tipo, disc, data, l, time))
  {
    var pt: Record -> bool := q => TipoOk(q, tipo);
    var pd: Record -> bool := q => DiscOk(q, disc);
    var pl: Record -> bool := q => DateOk(q, data, l, time);
    var ptd: Record -> bool := q => TipoOk(q, tipo) && DiscOk(q, disc);
    FilterFilter(h, pt, pd, ptd);
    FilterFilter(h, ptd, pl, q => Keeps(q, tipo, disc, data, l, time));
  }

  /** With no filter chosen, or an unknown period, the whole history stays. */
  lemma NoFilterKeepsAll(h: seq<Record>, data: string, l: Limits, time: Value -> Option<int>)
    requires DateLimit(data, l).None?
    ensures FilteredHistory(h, "", "", data, l, time) == h
  {
  }

  // ===== the search =====

  /** `searchInput.value.toLowerCase().trim()`. */
  function SearchTerm(input: string): string
  {
    Trim(Lower(input))
  }

  /** The term occurs in the lower-cased statement, discipline or type. */
  predicate Hit(q: Record, termo: string)
  {
    Contains(Lower(ToStr(Or(Get(q, "enunciado"), Str("")))), termo) ||
    Contains(Lower(ToStr(Or(Get(q, "disciplina"), Str("")))), termo) ||
    Contains(Lower(ToStr(Or(Get(q, "tipo_questao"), Str("")))), termo)
  }

  /** The records the search shows; None when the term is blank and the full history is drawn instead. */
  function Search(h: seq<Record>, input: string): (r: Option<seq<Record>>)
    ensures r.None? <==> IsBlank(Lower(input))
    ensures r.Some? ==> r.value == Filter(h, q => Hit(q, SearchTerm(input)))
  {
    TrimBlank(Lower(input));
    var termo := SearchTerm(input);
    if termo == "" then None else Some(Filter(h, q => Hit(q, termo)))
  }

  /** A record is found exactly when the term occurs in one of the three fields; found records keep their order. */
  lemma {:induction false} SearchMembers(h: seq<Record>, input: string, q: Record)
    requires !IsBlank(Lower(input))
    ensures q in Search(h, input).value <==> q in h && Hit(q, SearchTerm(input))
  {
    var r := Search(h, input).value;
    if q in r {
      var i :| 0 <= i < |r| && r[i] == q;
    }
    if q in h && Hit(q, SearchTerm(input)) {
      var i :| 0 <= i < |h| && h[i] == q;
    }
  }

  // ===== the page =====

  class HistoryPage {
    var store: HistoryStore
    var listing: Listing
    /** `currentQuestion`. */
    var current: Option<Record>
    /** Whether the result panel is shown (its `active` class). */
    var resultActive: bool

    constructor (s: HistoryStore, shown: bool)
      ensures store == s && listing == NotDrawn && current == None && resultActive == shown
    {
      store, listing, current, resultActive := s, NotDrawn, None, shown;
    }

    /** What a list of records looks like, with the given placeholder for an empty one. */
    static function Shown(h: seq<Record>, empty: Listing): Listing
    {
      if h == [] then empty else Items(ItemsFor(h))
    }

    /** `loadHistory`: the "nothing yet" placeholder for an empty history, else one entry per stored record. */
    method LoadHistory()
      modifies this
      ensures listing == Shown(store.History(), NothingYet)
      ensures store == old(store) && current == old(current) && resultActive == old(resultActive)
    {
      var historico := store.History();
      if |historico| == 0 {
        listing := NothingYet;
        return;
      }
      var items := RenderItems(historico);
      listing := Items(items);
    }

    /** `displayFilteredHistory`: the "none found" placeholder, or one entry per record. */
    method DisplayFiltered(h: seq<Record>)
      modifies this
      ensures listing == Shown(h, NoneFound)
      ensures store == old(store) && current == old(current) && resultActive == old(resultActive)
    {
      if |h| == 0 {
        listing := NoneFound;
        return;
      }
      var items := RenderItems(h);
      listing := Items(items);
    }

    /** `loadQuestionFromHistory`: the first record with the id becomes the current question; none, nothing changes. */
    method LoadQuestionFromHistory(id: string) returns (found: bool)
      modifies this
      ensures found <==> store.QuestaoById(Str(id)).Some?
      ensures current == (if found then store.QuestaoById(Str(id)) else old(current))
      ensures store == old(store) && listing == old(listing) && resultActive == old(resultActive)
    {
      var questao := store.QuestaoById(Str(id));
      if questao.None? {
        return false;
      }
      current := questao;
      return true;
    }

    /**
     * `deleteQuestion`: nothing happens unless the teacher confirms; then the
     * record is removed and the list is drawn again only when the write succeeded.
     */
    method DeleteQuestion(id: string, confirmed: bool, writeOk: bool) returns (ok: bool)
      modifies this, store
      ensures store == old(store) && current == old(current) && resultActive == old(resultActive)
      ensures ok <==> confirmed && writeOk
      ensures !confirmed ==> store.slot == old(store.slot) && listing == old(listing)
      ensures confirmed && !writeOk ==> store.slot == old(store.slot) && listing == old(listing)
      ensures ok ==> store.History() == WithoutId(old(store.History()), Str(id)) &&
                     listing == Shown(store.History(), NothingYet)
      ensures store.theme == old(store.theme)
    {
      if !confirmed {
        return false;
      }
      ok := store.RemoverQuestao(Str(id), writeOk);
      if ok {
        LoadHistory();
      }
    }

    /**
     * `clearHistory`: nothing happens unless the teacher confirms; on success
     * the list shows the "nothing yet" placeholder and the result panel closes.
     */
    method ClearHistory(confirmed: bool, removeOk: bool) returns (ok: bool)
      modifies this, store
      ensures store == old(store) && current == old(current)
      ensures ok <==> confirmed && removeOk
      ensures !ok ==> store.slot == old(store.slot) && listing == old(listing) && resultActive == old(resultActive)
      ensures ok ==> store.History() == [] && listing == NothingYet && !resultActive
      ensures store.theme == old(store.theme)
    {
      if !confirmed {
        return false;
      }
      ok := store.LimparHistorico(removeOk);
      if ok {
        LoadHistory();
        resultActive := false;
      }
    }

    /** `applyFilters`: the stored history narrowed by the chosen filters. */
    method ApplyFilters(tipo: string, disc: string, data: string, l: Limits, time: Value -> Option<int>)
      modifies this
      ensures listing == Shown(FilteredHistory(store.History(), tipo, disc, data, l, time), NoneFound)
      ensures store == old(store) && current == old(current) && resultActive == old(resultActive)
    {
      var historico := store.History();
      if tipo != "" {
        historico := Filter(historico, q => TipoOk(q, tipo));
      }
      if disc != "" {
        historico := Filter(historico, q => DiscOk(q, disc));
      }
      if data != "" && DateLimit(data, l).Some? {
        historico := Filter(historico, q => DateOk(q, data, l, time));
      }
      DisplayFiltered(historico);
    }

    /** `searchQuestions`: a blank term draws the whole history; any other, the records it is found in. */
    method SearchQuestions(input: string)
      modifies this
      ensures var r := Search(store.History(), input);
        listing == (if r.None? then Shown(store.History(), NothingYet) else Shown(r.value, NoneFound))
      ensures store == old(store) && current == old(current) && resultActive == old(resultActive)
    {
      var termo := SearchTerm(input);
      if termo == "" {
        LoadHistory();
        return;
      }
      var resultados := Filter(store.History(), q => Hit(q, termo));
      DisplayFiltered(resultados);
    }
  }
}
