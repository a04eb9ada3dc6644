/**
 * `UIManager` of the document library, in its two copies: the shared module
 * (`modules/UIBiblioteca.js`) and the teacher interface's own copy
 * (`newnerd-interface/js/UIBiblioteca.js`). `escapeHtml` and `statusBadge`
 * are the same in both; `renderDocs` differs in the path it links and the
 * object its buttons call. A rendered card is reduced to the decisions it
 * shows: title, semantic flag, size/status line, snippet, path and target.
 */
module UiBiblioteca {
  import opened Wrappers
  import opened Js
  import opened Text
  import FileBiblioteca

  // ===== escapeHtml =====

  function Entity(c: char): string
  {
    if c == '&' then "&amp;"
    else if c == '<' then "&lt;"
    else if c == '>' then "&gt;"
    else if c == '"' then "&quot;"
    else if c == '\'' then "&#39;"
    else [c]
  }

  /** The characters `escapeHtml` replaces. */
  predicate Special(c: char)
  {
    c == '&' || c == '<' || c == '>' || c == '"' || c == '\''
  }

  /** `escapeHtml` on a string: each of `& < > " '` becomes its entity; "" (and so `null`, through `|| ""`) gives "". */
  function Escape(s: string): (r: string)
    ensures |r| >= |s|
    ensures forall i :: 0 <= i < |r| ==> r[i] != '<' && r[i] != '>' && r[i] != '"' && r[i] != '\''
    ensures (forall i :: 0 <= i < |s| ==> !Special(s[i])) ==> r == s
  {
    if s == [] then [] else Entity(s[0]) + Escape(s[1..])
  }

  /** Reading the entities back. */
  function Unescape(t: string): string
    decreases |t|
  {
    if t == [] then []
    else if t[0] != '&' then [t[0]] + Unescape(t[1..])
    else if "&amp;" <= t then "&" + Unescape(t[5..])
    else if "&lt;" <= t then "<" + Unescape(t[4..])
    else if "&gt;" <= t then ">" + Unescape(t[4..])
    else if "&quot;" <= t then "\"" + Unescape(t[6..])
    else if "&#39;" <= t then "'" + Unescape(t[5..])
    else [t[0]] + Unescape(t[1..])
  }

  lemma {:induction false} UnescapeEntity(c: char, rest: string)
    ensures Unescape(Entity(c) + rest) == [c] + Unescape(rest)
  {
    var t := Entity(c) + rest;
    if c == '&' {
      assert t[5..] == rest;
    } else if c == '<' {
      assert t[1] == 'l' && t[4..] == rest;
    } else if c == '>' {
      assert t[1] == 'g' && t[4..] == rest;
    } else if c == '"' {
      assert t[1] == 'q' && t[6..] == rest;
    } else if c == '\'' {
      assert t[1] == '#' && t[5..] == rest;
    } else {
      assert t[0] == c && t[1..] == rest;
    }
  }

  /** Escaping loses nothing: reading the entities back gives the original text. */
  lemma {:induction false} EscapeRoundTrip(s: string)
    ensures Unescape(Escape(s)) == s
  {
    if s != [] {
      UnescapeEntity(s[0], Escape(s[1..]));
      EscapeRoundTrip(s[1..]);
    }
  }

  // ===== statusBadge =====

  const BadgeLabels: map<string, string> := map[
    "pendente" := "⏳ pendente",
    "uploading" := "📤 enviando",
    "processing" := "🧠 processando",
    "ready" := "✅ pronto",
    "uploaded" := "📦 enviado",
    "error" := "❌ erro"]

  /** The badge text: the label of a known status, anything else printed as it is. */
  function BadgeText(status: Value): string
  {
    var key := ToStr(status);
    if key in BadgeLabels then BadgeLabels[key] else key
  }

  function StatusBadge(status: Value): (html: string)
    ensures html == "<span class=\"badge\">" + BadgeText(status) + "</span>"
  {
    "<span class=\"badge\">" + BadgeText(status) + "</span>"
  }

  /** The six known statuses get six different labels; any other status passes through verbatim. */
  lemma BadgeLabelsFaithful(status: Value)
    ensures ToStr(status) !in BadgeLabels ==> BadgeText(status) == ToStr(status)
    ensures forall a, b :: a in BadgeLabels && b in BadgeLabels && a != b ==> BadgeLabels[a] != BadgeLabels[b]
    ensures status == Str("ready") ==> BadgeText(status) == "✅ pronto"
  {
  }

  // ===== renderDocs =====

  /** Which copy renders: the shared module links `caminho_arquivo` as a last resort and takes the caller's instance name. */
  datatype Copy = Shared | Teacher

  const EmptyTitle: string := "Sem título"
  const DefaultInstance: string := "bibliotecaProfessor"
  const SnippetChars: nat := 200

  /** `doc.metadata?.titulo`. */
  function MetaTitle(doc: Record): Value
  {
    var m := Get(doc, "metadata");
    if m.Obj? then Get(m.fields, "titulo") else Undefined
  }

  /** The last segment of `caminho || documento_path || ""`. */
  function PathTail(doc: Record): Value
  {
    Str(FileBiblioteca.Basename(ToStr(Or(Or(Get(doc, "caminho"), Get(doc, "documento_path")), Str("")))))
  }

  function Title(doc: Record): Value
  {
    Or(Or(Or(Or(MetaTitle(doc), Get(doc, "titulo")), Get(doc, "nome_original")), PathTail(doc)), Str(EmptyTitle))
  }

  /** The title is the first truthy of its fallback chain, and never empty. */
  lemma TitleFallback(doc: Record)
    ensures Truthy(Title(doc))
    ensures Truthy(MetaTitle(doc)) ==> Title(doc) == MetaTitle(doc)
    ensures !Truthy(MetaTitle(doc)) && Truthy(Get(doc, "titulo")) ==> Title(doc) == Get(doc, "titulo")
    ensures !Truthy(MetaTitle(doc)) && !Truthy(Get(doc, "titulo")) && !Truthy(Get(doc, "nome_original")) ==>
      Title(doc) == (if Truthy(PathTail(doc)) then PathTail(doc) else Str(EmptyTitle))
  {
  }

  /** `doc.score_final ?? doc.similarity`. */
  function ScoreRaw(doc: Record): Value
  {
    Coalesce(Get(doc, "score_final"), Get(doc, "similarity"))
  }

  function RawText(doc: Record): Value
  {
    Or(Or(Or(Get(doc, "content"), Get(doc, "chunk_texto")), Get(doc, "texto_extraido")), Str(""))
  }

  /** The escaped first 200 characters followed by "...", when there is any text. */
  function Snippet(doc: Record): Option<string>
  {
    var t := RawText(doc);
    if Truthy(t) then Some(Escape(Take(ToStr(t), SnippetChars)) + "...") else None
  }

  function PathOf(copy: Copy, doc: Record): string
  {
    match copy
    case Shared => ToStr(Or(Or(Get(doc, "caminho"), Get(doc, "documento_path")), Get(doc, "caminho_arquivo")))
    case Teacher => ToStr(Or(Get(doc, "caminho"), Get(doc, "documento_path")))
  }

  /** The size/type line and status badge a card shows. */
  datatype Details = Details(tipo: string, badge: string)

  datatype Card = Card(titleHtml: string, semantic: bool, details: Option<Details>, snippet: Option<string>,
                       path: string, target: string)

  function CardOf(copy: Copy, instanceName: Option<string>, doc: Record): Card
  {
    var semantic := ScoreRaw(doc).Num?;
    Card(Escape(ToStr(Title(doc))), semantic,
         if semantic then None else Some(Details(StrOr(doc, "tipo_arquivo", "-"), StatusBadge(Get(doc, "status")))),
         Snippet(doc), PathOf(copy, doc), if copy.Shared? then instanceName.GetOr(DefaultInstance) else DefaultInstance)
  }

  /** What the container ends up holding: unchanged without a container, the empty state, or one card per document. */
  datatype Rendered = Unchanged | EmptyState | Cards(cards: seq<Card>)

  /**
   * `renderDocs(list, containerEl, instanceName)`; `list` is None when it is
   * `null` or `undefined`, `instanceName` None when the caller leaves it out.
   */
  function RenderDocs(copy: Copy, list: Option<seq<Record>>, hasContainer: bool, instanceName: Option<string>): (r: Rendered)
    ensures !hasContainer <==> r.Unchanged?
    ensures r.EmptyState? <==> hasContainer && (list.None? || list.value == [])
    ensures r.Cards? ==> |r.cards| == |list.value|
    ensures r.Cards? ==> forall i :: 0 <= i < |list.value| ==> r.cards[i] == CardOf(copy, instanceName, list.value[i])
  {
    if !hasContainer then Unchanged
    else if list.None? || list.value == [] then EmptyState
    else Cards(seq(|list.value|, i requires 0 <= i < |list.value| => CardOf(copy, instanceName, list.value[i])))
  }

  /**
   * A card is semantic exactly when the document carries a numeric score;
   * semantic cards omit the size/status line, the others show it.
   */
  lemma SemanticCards(copy: Copy, instanceName: Option<string>, doc: Record)
    ensures var c := CardOf(copy, instanceName, doc);
      (c.semantic <==> ScoreRaw(doc).Num?) && (c.details.None? <==> c.semantic)
  {
  }

  /** The snippet is present exactly when some text field is, and reads back as at most the text's first 200 characters. */
  lemma {:induction false} SnippetContent(doc: Record)
    ensures Snippet(doc).Some? <==> Truthy(RawText(doc))
    ensures Snippet(doc).Some? ==>
      var h := Snippet(doc).value;
      |h| >= 3 && h[|h| - 3..] == "..." && Unescape(h[..|h| - 3]) == Take(ToStr(RawText(doc)), SnippetChars) &&
      |Unescape(h[..|h| - 3])| <= SnippetChars
  {
    if Truthy(RawText(doc)) {
      var e := Escape(Take(ToStr(RawText(doc)), SnippetChars));
      assert (e + "...")[..|e|] == e;
      EscapeRoundTrip(Take(ToStr(RawText(doc)), SnippetChars));
    }
  }

  /**
   * The two copies render the same cards except for the link: the shared
   * module falls back to `caminho_arquivo` when `caminho` and
   * `documento_path` are both empty, and its buttons call the given instance
   * instead of the fixed `bibliotecaProfessor`.
   */
  lemma CopiesDifferOnPath(instanceName: Option<string>, doc: Record)
    ensures var s, t := CardOf(Shared, instanceName, doc), CardOf(Teacher, instanceName, doc);
      s.titleHtml == t.titleHtml && s.semantic == t.semantic && s.details == t.details && s.snippet == t.snippet &&
      s.target == instanceName.GetOr(DefaultInstance) && t.target == DefaultInstance
    ensures Truthy(Get(doc, "caminho")) || Truthy(Get(doc, "documento_path")) ==>
      PathOf(Shared, doc) == PathOf(Teacher, doc)
    ensures !Truthy(Get(doc, "caminho")) && !Truthy(Get(doc, "documento_path")) ==>
      PathOf(Shared, doc) == ToStr(Get(doc, "caminho_arquivo")) && PathOf(Teacher, doc) == ToStr(Get(doc, "documento_path"))
  {
  }
}
