/**
 * The student library's database helper (`aluno-interface/js/supabase-manager.js`):
 * it is set up once, builds the document-list query from the chosen filters,
 * calls the semantic search with its default threshold and count, and turns
 * the search's rows into what the library shows. The database, the storage
 * bucket and the embedding service are parameters.
 */
module SupabaseManager {
  import opened Wrappers
  import opened Js
  import opened Text

  // ===== formatarResultados =====

  const ExcerptLength: nat := 300

  /** How a row's similarity is shown: its percentage, or "N/A" when it is falsy. */
  datatype Similarity = NotAvailable | Percent(similarity: Value)

  /** One formatted search hit. */
  datatype Hit = Hit(id: Value, documentoId: Value, texto: string, textoCompleto: Value, similarity: Similarity,
                     titulo: Value, dataUpload: Value, tipoArquivo: Value)

  /** `r.content ? r.content.substring(0, 300) + (r.content.length > 300 ? "..." : "") : ""`. */
  function Excerpt(content: Value): string
  {
    if Truthy(content) then
      var c := ToStr(content);
      Take(c, ExcerptLength) + (if |c| > ExcerptLength then "..." else "")
    else ""
  }

  /**
   * A falsy content gives ""; otherwise the excerpt is the content itself
   * when it has at most 300 characters, and its first 300 followed by "..."
   * exactly when it is longer.
   */
  lemma {:induction false} ExcerptCases(content: Value)
    ensures !Truthy(content) ==> Excerpt(content) == ""
    ensures Truthy(content) && |ToStr(content)| <= ExcerptLength ==> Excerpt(content) == ToStr(content)
    ensures Truthy(content) && |ToStr(content)| > ExcerptLength ==>
      |Excerpt(content)| == ExcerptLength + 3 && Excerpt(content)[..ExcerptLength] == ToStr(content)[..ExcerptLength] &&
      Excerpt(content)[ExcerptLength..] == "..."
  {
    if Truthy(content) {
      var c := ToStr(content);
      if |c| <= ExcerptLength {
        assert Take(c, ExcerptLength) == c;
      } else {
        var e := Excerpt(content);
        assert e[..ExcerptLength] == Take(c, ExcerptLength);
      }
    }
  }

  function FormatOne(r: Record): Hit
  {
    var meta := Get(r, "metadata");
    Hit(Get(r, "id"), Get(r, "documento_id"), Excerpt(Get(r, "content")), Or(Get(r, "content"), Str("")),
        if Truthy(Get(r, "similarity")) then Percent(Get(r, "similarity")) else NotAvailable,
        Or(Field(meta, "titulo"), Str("Sem título")), Field(meta, "data_upload"), Field(meta, "tipo_arquivo"))
  }

  /** `formatarResultados`: one hit per row, in the rows' order. */
  function FormatarResultados(rows: seq<Record>): (hits: seq<Hit>)
    ensures |hits| == |rows|
    ensures forall i :: 0 <= i < |rows| ==> hits[i] == FormatOne(rows[i])
  {
    if rows == [] then [] else [FormatOne(rows[0])] + FormatarResultados(rows[1..])
  }

  /**
   * Each hit keeps its row's ids; the full text is the content or ""; the
   * title falls back to "Sem título"; a falsy similarity shows "N/A".
   */
  lemma HitFields(rows: seq<Record>, i: nat)
    requires i < |rows|
    ensures var h := FormatarResultados(rows)[i]; var r := rows[i];
      h.id == Get(r, "id") && h.documentoId == Get(r, "documento_id") &&
      (Truthy(Get(r, "content")) ==> h.textoCompleto == Get(r, "content")) &&
      (!Truthy(Get(r, "content")) ==> h.textoCompleto == Str("") && h.texto == "") &&
      (h.similarity.NotAvailable? <==> !Truthy(Get(r, "similarity"))) &&
      (!Truthy(Field(Get(r, "metadata"), "titulo")) ==> h.titulo == Str("Sem título")) &&
      (Truthy(Field(Get(r, "metadata"), "titulo")) ==> h.titulo == Field(Get(r, "metadata"), "titulo"))
  {
  }

  /** Formatting a concatenation formats each part: no row is dropped, added or moved. */
  lemma {:induction false} FormatAppend(a: seq<Record>, b: seq<Record>)
    ensures FormatarResultados(a + b) == FormatarResultados(a) + FormatarResultados(b)
  {
    if a != [] {
      assert (a + b)[1..] == a[1..] + b;
      FormatAppend(a[1..], b);
    } else {
      assert a + b == b;
    }
  }

  // ===== buscarBibliotecaSemantica =====

  /** The defaults of `opcoes`: a similarity threshold of 0.3 and ten matches. */
  const DefaultMatchThreshold: real := 0.3
  const DefaultMatchCount: int := 10

  /** A threshold: the default, or the caller's value. */
  datatype Threshold = DefaultThreshold | GivenThreshold(v: Value)

  /** The arguments of the `buscar_biblioteca_aluno` call. */
  datatype RpcArgs = RpcArgs(queryEmbedding: string, alunoId: Value, matchThreshold: Threshold, matchCount: Value)

  /**
   * `const { matchThreshold = 0.3, matchCount = 10 } = opcoes`, with
   * `opcoes = {}` when it is not passed: a default replaces only an absent
   * (undefined) option, and destructuring `null` throws (None).
   */
  function Options(opcoes: Value): Option<(Threshold, Value)>
  {
    if opcoes.Null? then None
    else
      var t := Field(opcoes, "matchThreshold");
      var c := Field(opcoes, "matchCount");
      Some((if t.Undefined? then DefaultThreshold else GivenThreshold(t), if c.Undefined? then Num(DefaultMatchCount) else c))
  }

  /** What a semantic search did: the call it made, if any, and what it returned or threw. */
  datatype Search = Search(sent: Option<RpcArgs>, result: Result<Value>)

  /**
   * `buscarBibliotecaSemantica(query, alunoId, opcoes)`: `embedding` is the
   * JSON text of the query's embedding (an error when the embedding service
   * fails), `rpc` the call's answer, and `thrown` the message of the
   * `TypeError` that reading `data.length` raises when the call answers no
   * error and no data.
   */
  function BuscarBibliotecaSemantica(alunoId: Value, opcoes: Value, embedding: Result<string>, rpc: Result<Value>,
                                     thrown: string): (s: Search)
    ensures s.sent.Some? <==> Options(opcoes).Some? && embedding.Ok?
    ensures s.result.Ok? <==> s.sent.Some? && rpc.Ok? && !IsNullish(rpc.value)
    ensures s.result.Ok? ==> s.result.value == rpc.value
    ensures s.sent.Some? && rpc.Ok? && IsNullish(rpc.value) ==> s.result == Err(thrown)
    ensures s.sent.Some? ==> s.sent.value.queryEmbedding == embedding.value && s.sent.value.alunoId == alunoId
  {
    var o := Options(opcoes);
    if o.None? then Search(None, Err("opcoes"))
    else if embedding.Err? then Search(None, Err(embedding.error))
    else
      var args := RpcArgs(embedding.value, alunoId, o.value.0, o.value.1);
      Search(Some(args), if rpc.Err? then Err(rpc.error) else if IsNullish(rpc.value) then Err(thrown) else Ok(rpc.value))
  }

  /** Without options the call uses the threshold 0.3 and ten matches; a given option is passed unchanged, even 0. */
  lemma SemanticDefaults(alunoId: Value, opcoes: Value, embedding: Result<string>, rpc: Result<Value>, thrown: string)
    requires embedding.Ok?
    ensures opcoes.Undefined? || opcoes == Obj(map[]) ==>
      var s := BuscarBibliotecaSemantica(alunoId, opcoes, embedding, rpc, thrown);
      s.sent.Some? && s.sent.value.matchThreshold == DefaultThreshold && s.sent.value.matchCount == Num(DefaultMatchCount)
    ensures opcoes.Obj? && !Field(opcoes, "matchCount").Undefined? ==>
      BuscarBibliotecaSemantica(alunoId, opcoes, embedding, rpc, thrown).sent.value.matchCount == Field(opcoes, "matchCount")
  {
  }

  // ===== buscarDocumentos =====

  /** A condition of the document query. */
  datatype Cond = Eq(column: string, value: Value) | ILike(column: string, pattern: string)

  /**
   * The conditions `buscarDocumentos` puts on `aluno_documentos` (the rows
   * come newest first); None when reading the filters throws (`null`).
   */
  function DocumentsQuery(alunoId: Value, filtros: Value): (q: Option<seq<Cond>>)
    ensures q.None? <==> filtros.Null?
    ensures q.Some? ==> 1 <= |q.value| <= 3 && q.value[0] == Eq("aluno_id", alunoId)
  {
    if filtros.Null? then None
    else
      var tipo := Field(filtros, "tipo");
      var busca := Field(filtros, "busca");
      Some([Eq("aluno_id", alunoId)] +
           (if Truthy(tipo) then [Eq("tipo_arquivo", tipo)] else []) +
           (if Truthy(busca) then [ILike("titulo", "%" + ToStr(busca) + "%")] else []))
  }

  /**
   * The query always restricts to the student; the type condition is there
   * exactly when a type is given, the title pattern exactly when a search
   * text is given, and it wraps that text in "%".
   */
  lemma {:induction false} QueryConditions(alunoId: Value, filtros: Value)
    requires !filtros.Null?
    ensures var q := DocumentsQuery(alunoId, filtros).value;
      (Eq("tipo_arquivo", Field(filtros, "tipo")) in q <==> Truthy(Field(filtros, "tipo"))) &&
      ((exists p :: ILike("titulo", p) in q) <==> Truthy(Field(filtros, "busca"))) &&
      (forall p :: ILike("titulo", p) in q ==> p == "%" + ToStr(Field(filtros, "busca")) + "%") &&
      (filtros.Undefined? ==> q == [Eq("aluno_id", alunoId)])
  {
    var q := DocumentsQuery(alunoId, filtros).value;
    if Truthy(Field(filtros, "busca")) {
      assert ILike("titulo", "%" + ToStr(Field(filtros, "busca")) + "%") in q;
    }
  }

  /** `buscarDocumentos`: the rows, or `[]` for a null answer; an error is passed on. */
  function BuscarDocumentos(alunoId: Value, filtros: Value, answer: Result<Option<seq<Record>>>): (r: Result<seq<Record>>)
    ensures r.Ok? <==> !filtros.Null? && answer.Ok?
    ensures r.Ok? && answer.value.None? ==> r.value == []
    ensures r.Ok? && answer.value.Some? ==> r.value == answer.value.value
  {
    if DocumentsQuery(alunoId, filtros).None? then Err("filtros")
    else if answer.Err? then Err(answer.error)
    else Ok(answer.value.GetOr([]))
  }

  // ===== upload =====

  /** `${alunoId}/${timestamp}_${file.name}`: the student's folder, then the time and the file's name. */
  function UploadPath(alunoId: Value, timestamp: int, name: string): (p: string)
    ensures StartsWith(p, ToStr(alunoId) + "/") && EndsWith(p, "_" + name)
  {
    var prefix := ToStr(alunoId) + "/";
    var p := prefix + IntToString(timestamp) + "_" + name;
    assert p[..|prefix|] == prefix;
    assert p[|p| - |"_" + name|..] == "_" + name;
    p
  }

  // ===== setup =====

  /** The module's globals: whether it was set up, and the client it created (its URL and key). */
  class Manager {
    var initialized: bool
    var client: Option<(string, string)>

    constructor ()
      ensures !initialized && client == None
    {
      initialized, client := false, None;
    }

    /** `initializeSupabaseManager`: the first call creates the client; any later call changes nothing. */
    method Initialize(url: string, key: string)
      modifies this
      ensures old(initialized) ==> initialized && client == old(client)
      ensures !old(initialized) ==> initialized && client == Some((url, key))
    {
      if initialized {
        return;
      }
      client := Some((url, key));
      initialized := true;
    }
  }

  /** However many times the page sets the module up, the client is the one from the first call. */
  method InitializeAll(calls: seq<(string, string)>) returns (client: Option<(string, string)>)
    ensures client == if calls == [] then None else Some(calls[0])
  {
    var m := new Manager();
    var i := 0;
    while i < |calls|
      invariant 0 <= i <= |calls|
      invariant m.initialized <==> i > 0
      invariant m.client == if i == 0 then None else Some(calls[0])
    {
      m.Initialize(calls[i].0, calls[i].1);
      i := i + 1;
    }
    client := m.client;
  }
}
