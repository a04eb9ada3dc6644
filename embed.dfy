/**
 * The "embed" edge function: it normalises a request for embeddings into
 * chunks of text, asks the embedding model for one vector per chunk, checks
 * the vectors and stores one row per chunk. The model's and the database's
 * answers, the clock and the text of exceptions the runtime would raise are
 * parameters.
 */
module EmbedFunction {
  import opened Wrappers
  import opened Js
  import opened Text
  import opened Seqs
  import opened EdgeHttp

  const Model: string := "text-embedding-3-small"
  const MaxChunkChars: nat := 12000
  const DefaultOrigem: string := "prof_biblioteca"

  const AllowedOrigins: set<string> := {
    "http://127.0.0.1:5500", "http://localhost:5500", "http://localhost:3000",
    "http://localhost:5173", "http://localhost", "*"}

  /** `corsHeaders(origin)`; `origin` is None when the request has no Origin header. */
  function CorsHeaders(origin: Option<string>): Cors
  {
    Cors(AllowOrigin(AllowedOrigins, origin), "POST, OPTIONS", "Content-Type, Authorization, x-client-info, apikey", "86400")
  }

  /** Since the allowed set holds "*", any non-empty origin is echoed and a missing one becomes "*". */
  lemma {:induction false} CorsEchoesOrigin(origin: Option<string>)
    ensures CorsHeaders(origin).allowOrigin == if origin.Some? && origin.value != "" then origin.value else "*"
  {
    AllowOriginEchoes(AllowedOrigins, origin);
  }

  // ===== input normalisation =====

  /** `body.professor_id || body.owner_id || null`. */
  function ProfessorId(body: Value): Value
  {
    Or(Or(Field(body, "professor_id"), Field(body, "owner_id")), Null)
  }

  /** `body.origem ?? body.owner_type ?? "prof_biblioteca"`. */
  function Origem(body: Value): Value
  {
    Coalesce(Coalesce(Field(body, "origem"), Field(body, "owner_type")), Str(DefaultOrigem))
  }

  /** `body.origem_id ?? body.documento_id ?? null`. */
  function OrigemId(body: Value): Value
  {
    Coalesce(Coalesce(Field(body, "origem_id"), Field(body, "documento_id")), Null)
  }

  datatype Chunk = Chunk(texto: string, metadata: Value)

  /** One entry of `chunks[]`: `String(c.texto ?? "")` cut to 12000 characters, and `c.metadata ?? {}`. */
  function NormChunk(c: Value): (r: Chunk)
    ensures |r.texto| <= MaxChunkChars
  {
    Chunk(Take(ToStr(Coalesce(Field(c, "texto"), Str(""))), MaxChunkChars), Coalesce(Field(c, "metadata"), Obj(map[])))
  }

  /** `c.texto && c.texto.trim().length > 0`. */
  predicate Kept(c: Chunk)
  {
    Trim(c.texto) != ""
  }

  function Normalized(items: seq<Value>): (r: seq<Chunk>)
    ensures |r| == |items|
    ensures forall i :: 0 <= i < |items| ==> r[i] == NormChunk(items[i])
  {
    seq(|items|, i requires 0 <= i < |items| => NormChunk(items[i]))
  }

  /** Whether the request uses the `chunks[]` form: a non-empty array. */
  predicate ChunkForm(body: Value)
  {
    Field(body, "chunks").Arr? && |Field(body, "chunks").items| > 0
  }

  /** `chunks.map(NormChunk).filter(Kept)`. */
  function KeptChunks(items: seq<Value>): (r: seq<Chunk>)
    ensures |r| <= |items|
  {
    if items == [] then []
    else
      var c := NormChunk(items[|items| - 1]);
      KeptChunks(items[..|items| - 1]) + (if Kept(c) then [c] else [])
  }

  /** Keeping entry by entry is filtering the normalised entries. */
  lemma {:induction false} KeptChunksFilter(items: seq<Value>)
    ensures KeptChunks(items) == Filter(Normalized(items), Kept)
  {
    if items != [] {
      var init := items[..|items| - 1];
      KeptChunksFilter(init);
      assert Normalized(items)[..|items| - 1] == Normalized(init);
    }
  }

  /** The chunks to embed: from `chunks[]` when it is a non-empty array, else from a non-blank `content`, else none. */
  function ChunksOf(body: Value): seq<Chunk>
  {
    if ChunkForm(body) then KeptChunks(Field(body, "chunks").items)
    else
      var content := Field(body, "content");
      if content.Str? && Trim(content.s) != "" then
        [Chunk(Take(content.s, MaxChunkChars), Coalesce(Field(body, "metadata"), Obj(map[])))]
      else []
  }

  /**
   * No chunk is longer than 12000 characters. In the `chunks[]` form exactly
   * the entries whose cut text is not blank are kept; the `content` form
   * gives one chunk exactly when the content is a non-blank string; anything
   * else gives none.
   */
  lemma {:induction false} ChunksOfCases(body: Value)
    ensures forall i :: 0 <= i < |ChunksOf(body)| ==> |ChunksOf(body)[i].texto| <= MaxChunkChars
    ensures ChunkForm(body) ==>
      var ns := Normalized(Field(body, "chunks").items);
      (forall i :: 0 <= i < |ns| && Kept(ns[i]) ==> ns[i] in ChunksOf(body)) &&
      (forall i :: 0 <= i < |ChunksOf(body)| ==> Kept(ChunksOf(body)[i]) && ChunksOf(body)[i] in ns)
    ensures !ChunkForm(body) ==>
      (|ChunksOf(body)| == 1 <==> Field(body, "content").Str? && Trim(Field(body, "content").s) != "") &&
      (ChunksOf(body) != [] ==> ChunksOf(body)[0].texto == Take(Field(body, "content").s, MaxChunkChars))
    ensures !ChunkForm(body) && !Field(body, "content").Str? ==> ChunksOf(body) == []
  {
    if ChunkForm(body) {
      KeptChunksFilter(Field(body, "chunks").items);
    }
  }

  function Texts(chunks: seq<Chunk>): (r: seq<string>)
    ensures |r| == |chunks|
  {
    seq(|chunks|, i requires 0 <= i < |chunks| => chunks[i].texto)
  }

  // ===== answers and responses =====

  /**
   * The embedding model's answer: a failed status with its text, the JSON's
   * `data`, or an exception with its message (the `fetch` rejected, or
   * reading the body threw).
   */
  datatype OpenAi = OpenAiError(details: string) | OpenAiOk(data: Value) | OpenAiThrew(message: string)

  /** The database's answer to the insert: a failed status with its text, the rows it returned, or an exception with its message. */
  datatype Insert = InsertError(details: string) | InsertOk(inserted: Value) | InsertThrew(message: string)

  /** Why a request failed, each with the status and the `error` text the function answers with. */
  datatype Failure =
    | UsePost
    | NotConfigured
    | Thrown(message: string)
    | MissingProfessor
    | NoText
    | OpenAiFailed(details: string)
    | NoEmbeddings
    | InvalidAt(index: nat)
    | SupabaseFailed(details: string)

  function Status(f: Failure): int
  {
    match f
    case UsePost => 405
    case MissingProfessor => 400
    case NoText => 400
    case OpenAiFailed(_) => 502
    case SupabaseFailed(_) => 502
    case _ => 500
  }

  const NotConfiguredText: string := "OPENAI_API_KEY / SUPABASE_URL / SERVICE_ROLE não configurados"
  const MissingProfessorText: string := "Campo obrigatório: professor_id"
  const NoTextText: string := "Nenhum texto válido para gerar embeddings. Forneça chunks[] ou content."

  /** The JSON body of a failure. */
  function ErrorJson(f: Failure): Value
  {
    match f
    case UsePost => Obj(map["error" := Str("Use POST")])
    case NotConfigured => Obj(map["error" := Str(NotConfiguredText)])
    case Thrown(m) => Obj(map["error" := Str(m)])
    case MissingProfessor => Obj(map["error" := Str(MissingProfessorText)])
    case NoText => Obj(map["error" := Str(NoTextText)])
    case OpenAiFailed(d) => Obj(map["error" := Str("Erro OpenAI"), "details" := Str(d)])
    case NoEmbeddings => Obj(map["error" := Str("Nenhum embedding retornado")])
    case InvalidAt(i) => Obj(map["error" := Str("Embedding inválido no índice " + IntToString(i))])
    case SupabaseFailed(d) => Obj(map["error" := Str("Erro Supabase"), "details" := Str(d)])
  }

  /** The answer: "ok" to a preflight, a failure, or the success body. Every answer carries `CorsHeaders(origin)`. */
  datatype Reply = Preflight | Failed(failure: Failure) | Success(body: Value)

  function ReplyStatus(r: Reply): int
  {
    match r
    case Preflight => 200
    case Failed(f) => Status(f)
    case Success(_) => 200
  }

  /** The reply, the texts sent to the model (if it was called), and the rows sent to the database (if any). */
  datatype Outcome = Outcome(reply: Reply, inputs: Option<seq<string>>, rows: Option<seq<Value>>)

  // ===== embedding check =====

  /** How one returned item fares in the check: an `embedding` array, something else, or an item whose property read throws. */
  datatype Check = Good | Bad | Throws

  function CheckItem(v: Value): Check
  {
    if IsNullish(v) then Throws
    else if Field(v, "embedding").Arr? then Good
    else Bad
  }

  /** The first index from `i` on whose item is not good, or the length when there is none. */
  function Scan(items: seq<Value>, i: nat): (k: nat)
    requires i <= |items|
    ensures i <= k <= |items|
    decreases |items| - i
  {
    if i == |items| || CheckItem(items[i]) != Good then i else Scan(items, i + 1)
  }

  lemma {:induction false} ScanFacts(items: seq<Value>, i: nat)
    requires i <= |items|
    ensures forall j :: i <= j < Scan(items, i) ==> CheckItem(items[j]) == Good
    ensures Scan(items, i) < |items| ==> CheckItem(items[Scan(items, i)]) != Good
    decreases |items| - i
  {
    if i < |items| && CheckItem(items[i]) == Good {
      ScanFacts(items, i + 1);
    }
  }

  /** The scan stops at the first item that is not an array embedding. */
  lemma {:induction false} ScanStopsAt(items: seq<Value>, k: nat)
    requires k < |items| && CheckItem(items[k]) != Good
    requires forall j :: 0 <= j < k ==> CheckItem(items[j]) == Good
    ensures Scan(items, 0) == k
  {
    ScanFacts(items, 0);
  }

  /** The validation loop: it stops at the first item that is not an array embedding. */
  method FirstInvalid(items: seq<Value>) returns (k: nat)
    ensures k == Scan(items, 0)
  {
    k := 0;
    while k < |items| && CheckItem(items[k]) == Good
      invariant k <= |items|
      invariant Scan(items, k) == Scan(items, 0)
      decreases |items| - k
    {
      k := k + 1;
    }
  }

  // ===== rows =====

  function MetaFields(m: Value): Record
  {
    if m.Obj? then m.fields else map[]
  }

  /** Row `i`: the request's ids, chunk `i`'s text, embedding `i`, and chunk `i`'s metadata extended with the model and dimensions. */
  function Row(body: Value, c: Chunk, embedding: seq<Value>, now: string): Value
  {
    Obj(map[
      "professor_id" := ProfessorId(body),
      "origem" := Origem(body),
      "origem_id" := OrigemId(body),
      "chunk_texto" := Str(c.texto),
      "embedding" := Arr(embedding),
      "metadata" := Obj(Spread(MetaFields(c.metadata),
        map["embedding_model" := Str(Model), "embedding_dims" := Num(|embedding|), "generated_at" := Str(now)]))])
  }

  /** `data[i].embedding`, once the check has found it to be an array. */
  function Vector(v: Value): seq<Value>
  {
    var e := Field(v, "embedding");
    if e.Arr? then e.items else []
  }

  function Rows(body: Value, chunks: seq<Chunk>, items: seq<Value>, now: string): (r: seq<Value>)
    requires |chunks| <= |items|
    ensures |r| == |chunks|
  {
    seq(|chunks|, i requires 0 <= i < |chunks| => Row(body, chunks[i], Vector(items[i]), now))
  }

  /**
   * `{ ok: true, count: inserted?.length ?? 0, embeddings_ids }`, or None when
   * `inserted.map` would throw: on a value that is not an array, or on a
   * nullish entry, whose `row.id` throws.
   */
  function SuccessBody(inserted: Value): Option<Value>
  {
    if inserted.Arr? then
      if exists i :: 0 <= i < |inserted.items| && IsNullish(inserted.items[i]) then None
      else Some(Obj(map["ok" := Bool(true), "count" := Num(|inserted.items|),
                   "embeddings_ids" := Arr(seq(|inserted.items|, i requires 0 <= i < |inserted.items| => Field(inserted.items[i], "id")))]))
    else if IsNullish(inserted) then
      Some(Obj(map["ok" := Bool(true), "count" := Num(0), "embeddings_ids" := Arr([])]))
    else None
  }

  // ===== the handler =====

  /** Everything after the model was called with the chunk texts. */
  function AfterModel(body: Value, chunks: seq<Chunk>, oai: OpenAi, db: Insert, now: string, thrown: string): (r: Outcome)
    ensures !r.reply.Preflight? && ReplyStatus(r.reply) != 400
    ensures r.inputs == Some(Texts(chunks))
    ensures r.rows.Some? ==>
      oai.OpenAiOk? && oai.data.Arr? && |chunks| <= |oai.data.items| && Scan(oai.data.items, 0) == |oai.data.items| &&
      r.rows.value == Rows(body, chunks, oai.data.items, now)
    ensures r.reply.Success? ==> db.InsertOk? && r.rows.Some? && SuccessBody(db.inserted) == Some(r.reply.body)
  {
    var inputs := Some(Texts(chunks));
    var crash := Outcome(Failed(Thrown(thrown)), inputs, None);
    match oai
    case OpenAiError(details) => Outcome(Failed(OpenAiFailed(details)), inputs, None)
    case OpenAiThrew(message) => Outcome(Failed(Thrown(message)), inputs, None)
    case OpenAiOk(data) =>
      var items := if data.Arr? then data.items else [];
      if data.Str? && data.s != "" then crash
      else if items == [] then Outcome(Failed(NoEmbeddings), inputs, None)
      else if IsNullish(items[0]) || IsNullish(Field(items[0], "embedding")) then crash
      else
        var k := Scan(items, 0);
        if k < |items| then
          (if CheckItem(items[k]).Throws? then crash else Outcome(Failed(InvalidAt(k)), inputs, None))
        else if |items| < |chunks| then crash
        else
          var rows := Rows(body, chunks, items, now);
          match db
          case InsertError(details) => Outcome(Failed(SupabaseFailed(details)), inputs, Some(rows))
          case InsertThrew(message) => Outcome(Failed(Thrown(message)), inputs, Some(rows))
          case InsertOk(inserted) =>
            var ok := SuccessBody(inserted);
            if ok.None? then Outcome(Failed(Thrown(thrown)), inputs, Some(rows))
            else Outcome(Success(ok.value), inputs, Some(rows))
  }

  /** The body's checks, in order, before anything is called. */
  function Validated(body: Value, oai: OpenAi, db: Insert, now: string, thrown: string): (r: Outcome)
    ensures !r.reply.Preflight?
  {
    if !Truthy(ProfessorId(body)) then Outcome(Failed(MissingProfessor), None, None)
    else if ChunksOf(body) == [] then Outcome(Failed(NoText), None, None)
    else AfterModel(body, ChunksOf(body), oai, db, now, thrown)
  }

  /** The model is called exactly when the body names a teacher and has text. */
  lemma ValidatedCalls(body: Value, oai: OpenAi, db: Insert, now: string, thrown: string)
    ensures var r := Validated(body, oai, db, now, thrown);
      (r.inputs.Some? <==> Truthy(ProfessorId(body)) && ChunksOf(body) != []) &&
      (r.inputs.Some? ==> r == AfterModel(body, ChunksOf(body), oai, db, now, thrown))
  {
  }

  /** A body turned away by the checks gets a 400 and causes no write. */
  lemma ValidatedRejects(body: Value, oai: OpenAi, db: Insert, now: string, thrown: string)
    ensures var r := Validated(body, oai, db, now, thrown);
      r.inputs.None? ==> r.rows.None? && ReplyStatus(r.reply) == 400
  {
  }

  /**
   * The whole request. `configured` says whether the three secrets are set;
   * `thrown` is the message of an exception the runtime raises on the way
   * (an unparsable body, a property read on nothing).
   */
  function Handle(req: Request, configured: bool, oai: OpenAi, db: Insert, now: string, thrown: string): (r: Outcome)
    ensures r.reply.Preflight? <==> req.verb.Options?
    ensures r.rows.Some? ==> r.inputs.Some?
    ensures r.inputs.Some? ==>
      req.verb.Post? && configured && req.body.Some? && Truthy(ProfessorId(req.body.value)) && ChunksOf(req.body.value) != []
    ensures req.verb.Post? && !configured ==> r == Outcome(Failed(NotConfigured), None, None)
  {
    if req.verb.Options? then Outcome(Preflight, None, None)
    else if !req.verb.Post? then Outcome(Failed(UsePost), None, None)
    else if !configured then Outcome(Failed(NotConfigured), None, None)
    else if req.body.None? then Outcome(Failed(Thrown(thrown)), None, None)
    else Validated(req.body.value, oai, db, now, thrown)
  }

  /** The handler's steps in order, with the validation loop. */
  method Serve(req: Request, configured: bool, oai: OpenAi, db: Insert, now: string, thrown: string) returns (out: Outcome)
    ensures out == Handle(req, configured, oai, db, now, thrown)
  {
    if req.verb.Options? {
      return Outcome(Preflight, None, None);
    }
    if !req.verb.Post? {
      return Outcome(Failed(UsePost), None, None);
    }
    if !configured {
      return Outcome(Failed(NotConfigured), None, None);
    }
    if req.body.None? {
      return Outcome(Failed(Thrown(thrown)), None, None);
    }
    var body := req.body.value;
    var chunks := ChunksOf(body);
    if !Truthy(ProfessorId(body)) {
      return Outcome(Failed(MissingProfessor), None, None);
    }
    if |chunks| == 0 {
      return Outcome(Failed(NoText), None, None);
    }
    var inputs := Some(Texts(chunks));
    if oai.OpenAiError? {
      return Outcome(Failed(OpenAiFailed(oai.details)), inputs, None);
    }
    if oai.OpenAiThrew? {
      return Outcome(Failed(Thrown(oai.message)), inputs, None);
    }
    var items := if oai.data.Arr? then oai.data.items else [];
    if oai.data.Str? && oai.data.s != "" {
      return Outcome(Failed(Thrown(thrown)), inputs, None);
    }
    if |items| == 0 {
      return Outcome(Failed(NoEmbeddings), inputs, None);
    }
    if IsNullish(items[0]) || IsNullish(Field(items[0], "embedding")) {
      return Outcome(Failed(Thrown(thrown)), inputs, None);
    }
    var k := FirstInvalid(items);
    if k < |items| {
      if CheckItem(items[k]).Throws? {
        return Outcome(Failed(Thrown(thrown)), inputs, None);
      }
      return Outcome(Failed(InvalidAt(k)), inputs, None);
    }
    if |items| < |chunks| {
      return Outcome(Failed(Thrown(thrown)), inputs, None);
    }
    var rows := Rows(body, chunks, items, now);
    if db.InsertError? {
      return Outcome(Failed(SupabaseFailed(db.details)), inputs, Some(rows));
    }
    if db.InsertThrew? {
      return Outcome(Failed(Thrown(db.message)), inputs, Some(rows));
    }
    var ok := SuccessBody(db.inserted);
    if ok.None? {
      return Outcome(Failed(Thrown(thrown)), inputs, Some(rows));
    }
    out := Outcome(Success(ok.value), inputs, Some(rows));
  }

  // ===== properties =====

  /** OPTIONS answers "ok"; every other method but POST answers 405; neither calls anything. */
  lemma MethodHandling(req: Request, configured: bool, oai: OpenAi, db: Insert, now: string, thrown: string)
    ensures var out := Handle(req, configured, oai, db, now, thrown);
      (req.verb.Options? <==> out.reply.Preflight?) &&
      (!req.verb.Options? && !req.verb.Post? ==> ReplyStatus(out.reply) == 405) &&
      (!req.verb.Post? ==> out.inputs.None? && out.rows.None?)
  {
  }

  /**
   * A missing teacher id is reported before a missing text, both as 400,
   * and either way neither the model nor the database is called; the model
   * is called exactly when both are present.
   */
  lemma ValidationOrder(req: Request, configured: bool, oai: OpenAi, db: Insert, now: string, thrown: string)
    requires req.verb.Post? && configured && req.body.Some?
    ensures var out := Handle(req, configured, oai, db, now, thrown);
      (!Truthy(ProfessorId(req.body.value)) ==> out.reply == Failed(MissingProfessor)) &&
      (Truthy(ProfessorId(req.body.value)) && ChunksOf(req.body.value) == [] ==> out.reply == Failed(NoText)) &&
      (ReplyStatus(out.reply) == 400 ==> out.inputs.None? && out.rows.None?) &&
      (out.inputs.Some? <==> Truthy(ProfessorId(req.body.value)) && ChunksOf(req.body.value) != [])
  {
  }

  /**
   * The model gets exactly the chunk texts; rows are written only once every
   * returned item is an array embedding, and then row `i` holds chunk `i`'s
   * text and embedding `i`.
   */
  lemma {:induction false} RowsPairChunks(req: Request, configured: bool, oai: OpenAi, db: Insert, now: string, thrown: string)
    ensures var out := Handle(req, configured, oai, db, now, thrown);
      out.inputs.Some? ==> req.body.Some? && out.inputs.value == Texts(ChunksOf(req.body.value))
    ensures var out := Handle(req, configured, oai, db, now, thrown);
      out.rows.Some? ==>
        req.body.Some? && oai.OpenAiOk? && oai.data.Arr? &&
        var chunks := ChunksOf(req.body.value);
        |out.rows.value| == |chunks| && |chunks| <= |oai.data.items| &&
        forall i :: 0 <= i < |chunks| ==>
          CheckItem(oai.data.items[i]) == Good &&
          out.rows.value[i] == Row(req.body.value, chunks[i], Vector(oai.data.items[i]), now)
  {
    var out := Handle(req, configured, oai, db, now, thrown);
    if out.rows.Some? {
      ScanFacts(oai.data.items, 0);
    }
  }

  /** A row's metadata keeps the chunk's own entries and adds the model, the dimensions and the time. */
  lemma RowMetadata(body: Value, c: Chunk, embedding: seq<Value>, now: string, key: string)
    ensures var m := Get(Row(body, c, embedding, now).fields, "metadata").fields;
      Get(m, "embedding_model") == Str(Model) && Get(m, "embedding_dims") == Num(|embedding|) &&
      (key !in {"embedding_model", "embedding_dims", "generated_at"} ==> Get(m, key) == Get(MetaFields(c.metadata), key))
  {
  }

  /**
   * When the first item that is not an array embedding is a present item at
   * index `k`, the answer is a 500 naming `k`, and nothing is written.
   */
  lemma {:induction false} InvalidIndexNamed(req: Request, oai: OpenAi, db: Insert, now: string, thrown: string, k: nat)
    requires req.verb.Post? && req.body.Some?
    requires Truthy(ProfessorId(req.body.value)) && ChunksOf(req.body.value) != []
    requires oai.OpenAiOk? && oai.data.Arr? && k < |oai.data.items|
    requires !IsNullish(oai.data.items[0]) && !IsNullish(Field(oai.data.items[0], "embedding"))
    requires CheckItem(oai.data.items[k]) == Bad
    requires forall j :: 0 <= j < k ==> CheckItem(oai.data.items[j]) == Good
    ensures var out := Handle(req, true, oai, db, now, thrown);
      out.reply == Failed(InvalidAt(k)) && ReplyStatus(out.reply) == 500 && out.rows.None?
  {
    HandleReachesModel(req, oai, db, now, thrown);
    AfterModelInvalid(req.body.value, ChunksOf(req.body.value), oai, db, now, thrown, k);
    InvalidIs500(k);
  }

  lemma InvalidIs500(k: nat)
    ensures ReplyStatus(Failed(InvalidAt(k))) == 500
  {
  }

  /** A configured POST with a teacher id and some text goes on to the model. */
  lemma HandleReachesModel(req: Request, oai: OpenAi, db: Insert, now: string, thrown: string)
    requires req.verb.Post? && req.body.Some?
    requires Truthy(ProfessorId(req.body.value)) && ChunksOf(req.body.value) != []
    ensures Handle(req, true, oai, db, now, thrown) == AfterModel(req.body.value, ChunksOf(req.body.value), oai, db, now, thrown)
  {
  }

  /** Past the model's call: the first item that fails the check is named, and nothing is stored. */
  lemma AfterModelInvalid(body: Value, chunks: seq<Chunk>, oai: OpenAi, db: Insert, now: string, thrown: string, k: nat)
    requires oai.OpenAiOk? && oai.data.Arr? && k < |oai.data.items|
    requires !IsNullish(oai.data.items[0]) && !IsNullish(Field(oai.data.items[0], "embedding"))
    requires CheckItem(oai.data.items[k]) == Bad
    requires forall j :: 0 <= j < k ==> CheckItem(oai.data.items[j]) == Good
    ensures AfterModel(body, chunks, oai, db, now, thrown) == Outcome(Failed(InvalidAt(k)), Some(Texts(chunks)), None)
  {
    ScanStopsAt(oai.data.items, k);
  }

  /** A 200 to a POST is a stored batch, and its count is the number of rows the database returned. */
  lemma SuccessCount(req: Request, configured: bool, oai: OpenAi, db: Insert, now: string, thrown: string)
    ensures var out := Handle(req, configured, oai, db, now, thrown);
      out.reply.Success? ==>
        req.verb.Post? && db.InsertOk? && out.rows.Some? &&
        Field(out.reply.body, "count") == Num(if db.inserted.Arr? then |db.inserted.items| else 0)
  {
    if db.InsertOk? {
      SuccessBodyCount(db.inserted);
    }
  }

  /** The success body counts the returned rows, and none when the database returned nothing. */
  lemma SuccessBodyCount(inserted: Value)
    ensures SuccessBody(inserted).Some? ==>
      Field(SuccessBody(inserted).value, "count") == Num(if inserted.Arr? then |inserted.items| else 0)
  {
  }

  /**
   * Two answers make the handler throw rather than reply: a non-empty text
   * where the model's `data` array belongs (`data[0].embedding.length` reads
   * a property of undefined), and a null entry among the inserted rows
   * (`row.id`). A call that rejects, or a body that cannot be read, ends
   * in the `catch` with that exception's message: before the insert with
   * nothing written, after it with the rows sent.
   */
  lemma ThrowingAnswers(body: Value, chunks: seq<Chunk>, oai: OpenAi, db: Insert, now: string, thrown: string)
    ensures oai.OpenAiOk? && oai.data.Str? && oai.data.s != "" ==>
      AfterModel(body, chunks, oai, db, now, thrown).reply == Failed(Thrown(thrown))
    ensures db.InsertOk? && db.inserted.Arr? && (exists i :: 0 <= i < |db.inserted.items| && IsNullish(db.inserted.items[i])) ==>
      SuccessBody(db.inserted).None? && !AfterModel(body, chunks, oai, db, now, thrown).reply.Success?
    ensures oai.OpenAiThrew? ==>
      AfterModel(body, chunks, oai, db, now, thrown) == Outcome(Failed(Thrown(oai.message)), Some(Texts(chunks)), None)
    ensures db.InsertThrew? ==>
      !AfterModel(body, chunks, oai, db, now, thrown).reply.Success? &&
      (AfterModel(body, chunks, oai, db, now, thrown).rows.Some? ==> AfterModel(body, chunks, oai, db, now, thrown).reply == Failed(Thrown(db.message)))
  {
  }
}
