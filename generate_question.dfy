/**
 * The "generate-question" edge function: it fills the request's defaults,
 * requires a topic, asks the chat model for questions in a type-specific
 * JSON format, reshapes the model's JSON into a list of questions, stamps
 * each with the token usage and, when a teacher id is given, writes one
 * question row and one embedding placeholder row per question. The model's
 * answer, the random seed and id sources, the clock and the text of runtime
 * exceptions are parameters; the prompt is reduced to the values it
 * interpolates.
 */
module GenerateQuestionFunction {
  import opened Wrappers
  import opened Js
  import opened Text
  import opened EdgeHttp
  import StudentAnswers

  const AllowedOrigins: set<string> := {
    "http://127.0.0.1:5500", "http://localhost:5500", "http://localhost:3000",
    "http://localhost:5173", "http://localhost", "*"}

  /** `corsHeaders(origin)`. */
  function CorsHeaders(origin: Option<string>): (c: Cors)
    ensures c.allowOrigin == if origin.Some? && origin.value != "" then origin.value else "*"
  {
    AllowOriginEchoes(AllowedOrigins, origin);
    Cors(AllowOrigin(AllowedOrigins, origin), "GET, POST, OPTIONS", "Content-Type, Authorization, x-client-info, apikey", "86400")
  }

  // ===== parameters =====

  const DefaultTipo: string := "multipla_escolha"
  const DefaultDisciplina: string := "geral"
  const DefaultSerie: string := "auto"
  const DefaultDificuldade: string := "média"

  /** The request's values after the defaults are filled in. */
  datatype Params = Params(tipo: string, tema: Value, disciplina: Value, serie: Value, dificuldade: Value,
                           professorId: Value, quantidade: Value)

  /** `body.tipo_questao || body.tipo`: the type the request asks for, if any. */
  function AskedTipo(body: Value): Value
  {
    Or(Field(body, "tipo_questao"), Field(body, "tipo"))
  }

  /**
   * `(body.tipo_questao || body.tipo || "multipla_escolha").toLowerCase()` and
   * the other defaults; None when the body is `null`, where reading
   * `body.tipo_questao` throws, and when the chosen type is not a string,
   * where `toLowerCase` throws. The default type is already lower-case
   * (`DefaultTipoAsWritten`), so it is used as it is.
   */
  function ParamsOf(body: Value): (r: Option<Params>)
    ensures r.None? <==> IsNullish(body) || (Truthy(AskedTipo(body)) && !AskedTipo(body).Str?)
    ensures r.Some? ==> Truthy(r.value.disciplina) && Truthy(r.value.serie) && Truthy(r.value.dificuldade) &&
                        !IsNullish(r.value.quantidade) && (Truthy(r.value.tema) || r.value.tema == Str(""))
  {
    var asked := AskedTipo(body);
    if IsNullish(body) then None
    else if Truthy(asked) && !asked.Str? then None
    else Some(Params(if Truthy(asked) then Lower(asked.s) else DefaultTipo,
                     Or(Or(Field(body, "tema"), Field(body, "mensagem")), Str("")),
                     Or(Field(body, "disciplina"), Str(DefaultDisciplina)),
                     Or(Field(body, "serie"), Str(DefaultSerie)),
                     Or(Field(body, "dificuldade"), Str(DefaultDificuldade)),
                     Or(Field(body, "professor_id"), Null),
                     Coalesce(Field(body, "quantidade"), Num(1))))
  }

  /**
   * The type is the lower-cased `tipo_questao || tipo || "multipla_escolha"`,
   * exactly as written; a `null` body or a type that is not a string gives none.
   */
  lemma {:induction false} DefaultTipoAsWritten(body: Value)
    ensures var t := Or(AskedTipo(body), Str(DefaultTipo));
      (ParamsOf(body).None? <==> IsNullish(body) || !t.Str?) &&
      (ParamsOf(body).Some? ==> ParamsOf(body).value.tipo == Lower(t.s))
  {
    if !Truthy(AskedTipo(body)) {
      LowerLowerCase(DefaultTipo);
    }
  }

  /**
   * Every default is a truthy value and the type has no capitals; a request
   * without a type asks for multiple choice; the topic is `tema`, else
   * `mensagem`; the quantity is 1 only when it is missing.
   */
  lemma ParamsDefaults(body: Value)
    ensures ParamsOf(body).Some? ==>
      var p := ParamsOf(body).value;
      Truthy(p.disciplina) && Truthy(p.serie) && Truthy(p.dificuldade) && !IsNullish(p.quantidade) &&
      (!Truthy(AskedTipo(body)) ==> p.tipo == DefaultTipo) &&
      (Truthy(p.tema) <==> Truthy(Field(body, "tema")) || Truthy(Field(body, "mensagem"))) &&
      (!Truthy(Field(body, "disciplina")) ==> p.disciplina == Str(DefaultDisciplina)) &&
      (IsNullish(Field(body, "quantidade")) ==> p.quantidade == Num(1)) &&
      (!IsNullish(Field(body, "quantidade")) ==> p.quantidade == Field(body, "quantidade"))
  {
  }

  /** The type sent on has no ASCII capitals. */
  lemma {:induction false} TipoLowerCase(body: Value, i: nat)
    requires ParamsOf(body).Some? && i < |ParamsOf(body).value.tipo|
    ensures !('A' <= ParamsOf(body).value.tipo[i] <= 'Z')
  {
    if !Truthy(AskedTipo(body)) {
      assert ParamsOf(body).value.tipo == DefaultTipo;
    }
  }

  /** `toLowerCase` leaves a string without capitals as it is. */
  lemma {:induction false} LowerLowerCase(s: string)
    requires forall i :: 0 <= i < |s| ==> 'a' <= s[i] <= 'z' || s[i] == '_'
    ensures Lower(s) == s
  {
    if s != [] {
      LowerLowerCase(s[1..]);
    }
  }

  // ===== the prompt =====

  /** `estilos[seed % estilos.length]` as an index: None where JavaScript reads `undefined`. */
  function StyleIndex(seed: Value): Option<nat>
  {
    if !seed.Num? then None
    else if seed.n % 10 == 0 then Some(0)
    else if seed.n > 0 then Some(seed.n % 10)
    else None
  }

  /**
   * A non-negative seed picks style `seed mod 10`, so the styles cycle with
   * period 10; a negative seed that is not a multiple of 10 gives a negative
   * remainder and no style.
   */
  lemma {:induction false} StyleCycle(n: int)
    ensures n >= 0 ==> StyleIndex(Num(n)) == Some(n % 10) && StyleIndex(Num(n + 10)) == StyleIndex(Num(n))
    ensures n < 0 && n % 10 != 0 ==> StyleIndex(Num(n)).None?
    ensures forall k :: StyleIndex(Num(n)) == Some(k) ==> k < 10
  {
    ModPeriod(n, 10);
  }

  /** The type-specific format block of the prompt. */
  datatype Format = DiscursivaFormat | MultiplaFormat | VerdadeiroFalsoFormat | NoFormat

  function FormatFor(tipo: string): (f: Format)
    ensures f.NoFormat? <==> tipo != "discursiva" && tipo != "multipla_escolha" && tipo != "verdadeiro_falso"
  {
    if tipo == "discursiva" then DiscursivaFormat
    else if tipo == "multipla_escolha" then MultiplaFormat
    else if tipo == "verdadeiro_falso" then VerdadeiroFalsoFormat
    else NoFormat
  }

  /**
   * `quantidade > 1`: JavaScript compares `Number(quantidade)` with 1, so a
   * numeric text such as "2" is plural, and a value that reads as `NaN` is not.
   */
  predicate Plural(quantidade: Value)
  {
    var n := StudentAnswers.NumberOf(quantidade);
    n.Some? && n.value > 1.0
  }

  /** A count given as a number or as its decimal text is plural exactly when it exceeds one; a missing count is not. */
  lemma {:induction false} PluralCases(n: int)
    ensures Plural(Num(n)) <==> n > 1
    ensures Plural(Str(IntToString(n))) <==> n > 1
    ensures !Plural(Undefined) && !Plural(Null)
  {
    StudentAnswers.NumberOfIntText(n);
  }

  /** What the prompt interpolates: the variation tag, the style, the format block and the request's values. */
  datatype Prompt = Prompt(variacao: string, style: Option<nat>, format: Format, params: Params, plural: bool)

  /** `body.seed || random` and `body.variacao || uuid.slice(0, 8)`. */
  function PromptOf(body: Value, p: Params, random: nat, uuid: string): Prompt
  {
    var seed := Or(Field(body, "seed"), Num(random));
    var variacao := ToStr(Or(Field(body, "variacao"), Str(Take(uuid, 8))));
    Prompt(variacao, StyleIndex(seed), FormatFor(p.tipo), p, Plural(p.quantidade))
  }

  // ===== the model's answer =====

  /**
   * The chat model's answer: a failed status with its text, or the message
   * content (or "") together with what `JSON.parse` makes of it (None when
   * it throws) and the `usage` object; or an exception with its message
   * (the `fetch` rejected, or reading the body threw).
   */
  datatype Chat = ChatFailed(err: string) | ChatOk(text: string, parsed: Option<Value>, usage: Value) | ChatThrew(message: string)

  /**
   * `Array.isArray(parsed) ? parsed : parsed.questoes ? parsed.questoes : [parsed]`;
   * None when `parsed` is `null`, where reading `questoes` throws.
   */
  function Reshape(parsed: Value): Option<Value>
  {
    if parsed.Arr? then Some(parsed)
    else if IsNullish(parsed) then None
    else if Truthy(Field(parsed, "questoes")) then Some(Field(parsed, "questoes"))
    else Some(Arr([parsed]))
  }

  /** An array stays as it is, a truthy `questoes` is taken, anything else but `null` is wrapped as a one-question list. */
  lemma ReshapeCases(parsed: Value)
    ensures Reshape(parsed).None? <==> parsed.Null? || parsed.Undefined?
    ensures parsed.Arr? ==> Reshape(parsed) == Some(parsed)
    ensures parsed.Obj? && Truthy(Get(parsed.fields, "questoes")) ==> Reshape(parsed) == Some(Get(parsed.fields, "questoes"))
    ensures !parsed.Arr? && !IsNullish(parsed) && !Truthy(Field(parsed, "questoes")) ==>
      Reshape(parsed) == Some(Arr([parsed])) && |Reshape(parsed).value.items| == 1
  {
  }

  /** `data.usage?.total_tokens || 0`. */
  function Tokens(usage: Value): Value
  {
    Or(Field(usage, "total_tokens"), Num(0))
  }

  const Api: string := "openai"

  /** The own properties `{...q}` copies: those of an object, none of `null` or a number. */
  function OwnFields(q: Value): Record
  {
    if q.Obj? then q.fields else map[]
  }

  /** `{...q, tokens_usados, api_usada: "openai"}`. */
  function Stamp(q: Value, tokens: Value): Value
  {
    Obj(Spread(OwnFields(q), map["tokens_usados" := tokens, "api_usada" := Str(Api)]))
  }

  function Stamped(qs: seq<Value>, tokens: Value): (r: seq<Value>)
    ensures |r| == |qs|
  {
    seq(|qs|, i requires 0 <= i < |qs| => Stamp(qs[i], tokens))
  }

  /** Every question carries the same token count and "openai", and keeps its other properties. */
  lemma StampedQuestions(qs: seq<Value>, tokens: Value, i: nat, k: string)
    requires i < |qs|
    ensures var q := Stamped(qs, tokens)[i];
      q.Obj? && Get(q.fields, "tokens_usados") == tokens && Get(q.fields, "api_usada") == Str(Api) &&
      (k != "tokens_usados" && k != "api_usada" ==> Get(q.fields, k) == Get(OwnFields(qs[i]), k))
  {
  }

  // ===== rows =====

  /** A row of `questoes_geradas`. */
  datatype QuestionRow = QuestionRow(
    id: string, professorId: Value, enunciado: Value, tipoQuestao: Value, disciplina: Value, serie: Value,
    dificuldade: Value, alternativas: Value, respostaEsperada: Value, afirmacoes: Value, colunaA: Value,
    colunaB: Value, criteriosAvaliacao: Value, gabarito: Value, justificativaGabarito: Value, apiUsada: string,
    tokensUsados: Value, createdAt: string)

  /** A row of `professor_embeddings` for a question, with no embedding yet. */
  datatype EmbeddingRow = EmbeddingRow(
    professorId: Value, origem: string, origemId: string, chunkTexto: Value,
    tipoQuestao: Value, disciplina: Value, serie: Value, dificuldade: Value)

  const EmbeddingOrigem: string := "questoes_geradas"

  /** `q.k || null`. */
  function OrNull(q: Value, k: string): Value
  {
    Or(Field(q, k), Null)
  }

  function RowOf(q: Value, id: string, p: Params, tokens: Value, now: string): QuestionRow
  {
    QuestionRow(id, p.professorId, Field(q, "enunciado"),
                Or(Field(q, "tipo_questao"), Str(p.tipo)), Or(Field(q, "disciplina"), p.disciplina),
                Or(Field(q, "serie"), p.serie), Or(Field(q, "dificuldade"), p.dificuldade),
                OrNull(q, "alternativas"), OrNull(q, "resposta_esperada"), OrNull(q, "afirmacoes"),
                OrNull(q, "coluna_a"), OrNull(q, "coluna_b"), OrNull(q, "criterios_avaliacao"),
                OrNull(q, "gabarito"), OrNull(q, "justificativa_gabarito"), Api, tokens, now)
  }

  function EmbeddingRowOf(r: QuestionRow): EmbeddingRow
  {
    EmbeddingRow(r.professorId, EmbeddingOrigem, r.id, r.enunciado, r.tipoQuestao, r.disciplina, r.serie, r.dificuldade)
  }

  /** Question `i` gets id `ids(i)`. */
  function Rows(qs: seq<Value>, ids: nat -> string, p: Params, tokens: Value, now: string): (r: seq<QuestionRow>)
    ensures |r| == |qs|
  {
    seq(|qs|, i requires 0 <= i < |qs| => RowOf(qs[i], ids(i), p, tokens, now))
  }

  function EmbeddingRows(rows: seq<QuestionRow>): (r: seq<EmbeddingRow>)
    ensures |r| == |rows|
  {
    seq(|rows|, i requires 0 <= i < |rows| => EmbeddingRowOf(rows[i]))
  }

  /**
   * A row's type, subject, grade and difficulty come from the question when
   * it has them and from the request otherwise, so they are never empty;
   * its embedding row points back at it by id and holds its statement.
   */
  lemma RowFallbacks(q: Value, id: string, p: Params, tokens: Value, now: string)
    requires Truthy(p.disciplina) && Truthy(p.serie) && Truthy(p.dificuldade)
    ensures var r := RowOf(q, id, p, tokens, now);
      Truthy(r.tipoQuestao) == (Truthy(Field(q, "tipo_questao")) || p.tipo != "") &&
      Truthy(r.disciplina) && Truthy(r.serie) && Truthy(r.dificuldade) &&
      (!Truthy(Field(q, "disciplina")) ==> r.disciplina == p.disciplina) &&
      (Truthy(Field(q, "disciplina")) ==> r.disciplina == Field(q, "disciplina")) &&
      (!Truthy(Field(q, "gabarito")) ==> r.gabarito == Null) &&
      EmbeddingRowOf(r).origemId == r.id && EmbeddingRowOf(r).chunkTexto == r.enunciado &&
      EmbeddingRowOf(r).professorId == p.professorId
  {
  }

  // ===== answers =====

  datatype Failure = UsePost | MissingTema | OpenAiFailed(err: string) | InvalidJson(raw: string) | Thrown(message: string)

  function Status(f: Failure): int
  {
    match f
    case UsePost => 405
    case MissingTema => 400
    case OpenAiFailed(_) => 502
    case _ => 500
  }

  /** The answer: "ok" to a preflight, a failure, or `{ questoes }`. Every answer carries `CorsHeaders(origin)`. */
  datatype Reply = Preflight | Failed(failure: Failure) | Success(questoes: seq<Value>)

  function ReplyStatus(r: Reply): int
  {
    match r
    case Preflight => 200
    case Failed(f) => Status(f)
    case Success(_) => 200
  }

  /** The reply, the prompt sent to the model (if it was called), and the rows written (if any). */
  datatype Outcome = Outcome(reply: Reply, prompt: Option<Prompt>, rows: Option<seq<QuestionRow>>,
                             embeddings: Option<seq<EmbeddingRow>>)

  // ===== the handler =====

  /**
   * Everything after the model was called. `ids` and `now` are the
   * `randomUUID` and clock values of the rows; `saveError` is the message
   * when one of the two inserts cannot be sent at all.
   */
  function AfterChat(p: Params, prompt: Prompt, chat: Chat, ids: nat -> string, now: string,
                     saveError: Option<string>, thrown: string): (r: Outcome)
    ensures !r.reply.Preflight? && ReplyStatus(r.reply) != 400 && ReplyStatus(r.reply) != 405
    ensures r.prompt == Some(prompt)
    ensures r.rows.Some? <==> r.embeddings.Some?
    ensures r.rows.Some? ==>
      Truthy(p.professorId) && chat.ChatOk? && chat.parsed.Some? && Reshape(chat.parsed.value).Some? &&
      Reshape(chat.parsed.value).value.Arr? &&
      var qs := Stamped(Reshape(chat.parsed.value).value.items, Tokens(chat.usage));
      r.rows.value == Rows(qs, ids, p, Tokens(chat.usage), now) && r.embeddings.value == EmbeddingRows(r.rows.value)
    ensures r.reply.Success? ==>
      chat.ChatOk? && chat.parsed.Some? && Reshape(chat.parsed.value).Some? && Reshape(chat.parsed.value).value.Arr? &&
      r.reply.questoes == Stamped(Reshape(chat.parsed.value).value.items, Tokens(chat.usage)) &&
      (r.rows.Some? <==> Truthy(p.professorId))
  {
    match chat
    case ChatFailed(err) => Outcome(Failed(OpenAiFailed(err)), Some(prompt), None, None)
    case ChatThrew(message) => Outcome(Failed(Thrown(message)), Some(prompt), None, None)
    case ChatOk(text, parsed, usage) =>
      if parsed.None? || Reshape(parsed.value).None? then Outcome(Failed(InvalidJson(text)), Some(prompt), None, None)
      else
        var list := Reshape(parsed.value).value;
        if !list.Arr? then Outcome(Failed(Thrown(thrown)), Some(prompt), None, None)
        else
          var tokens := Tokens(usage);
          var qs := Stamped(list.items, tokens);
          if !Truthy(p.professorId) then Outcome(Success(qs), Some(prompt), None, None)
          else
            var rows := Rows(qs, ids, p, tokens, now);
            var reply := if saveError.Some? then Failed(Thrown(saveError.value)) else Success(qs);
            Outcome(reply, Some(prompt), Some(rows), Some(EmbeddingRows(rows)))
  }

  /** The body's defaults and the topic check, before the model is called. */
  function Posted(body: Value, chat: Chat, random: nat, uuid: string, ids: nat -> string, now: string,
                  saveError: Option<string>, thrown: string): (r: Outcome)
    ensures !r.reply.Preflight? && ReplyStatus(r.reply) != 405
  {
    var p := ParamsOf(body);
    if p.None? then Outcome(Failed(Thrown(thrown)), None, None, None)
    else if !Truthy(p.value.tema) then Outcome(Failed(MissingTema), None, None, None)
    else AfterChat(p.value, PromptOf(body, p.value, random, uuid), chat, ids, now, saveError, thrown)
  }

  /**
   * The whole request. `random` and `uuid` stand for `Math.random` and
   * `crypto.randomUUID`; `thrown` is the message of an exception the runtime
   * raises on the way.
   */
  function Handle(req: Request, chat: Chat, random: nat, uuid: string, ids: nat -> string, now: string,
                  saveError: Option<string>, thrown: string): (r: Outcome)
    ensures ReplyStatus(r.reply) in {200, 400, 405, 500, 502}
    ensures r.rows.Some? ==> r.prompt.Some? && r.embeddings.Some?
    ensures r.prompt.Some? ==> req.verb.Post? && req.body.Some? && ParamsOf(req.body.value).Some?
    ensures req.verb.Post? && (req.body.None? || ParamsOf(req.body.value).None?) ==>
      r == Outcome(Failed(Thrown(thrown)), None, None, None)
  {
    if req.verb.Options? then Outcome(Preflight, None, None, None)
    else if !req.verb.Post? then Outcome(Failed(UsePost), None, None, None)
    else if req.body.None? then Outcome(Failed(Thrown(thrown)), None, None, None)
    else Posted(req.body.value, chat, random, uuid, ids, now, saveError, thrown)
  }

  // ===== properties =====

  /** OPTIONS gets the preflight answer and nothing else does; any other non-POST gets a 405; neither reaches the model. */
  lemma MethodHandling(req: Request, chat: Chat, random: nat, uuid: string, ids: nat -> string, now: string,
                       saveError: Option<string>, thrown: string)
    ensures var out := Handle(req, chat, random, uuid, ids, now, saveError, thrown);
      (req.verb.Options? <==> out.reply.Preflight?) &&
      (ReplyStatus(out.reply) == 405 <==> !req.verb.Options? && !req.verb.Post?) &&
      (!req.verb.Post? ==> out.prompt.None? && out.rows.None?)
  {
  }

  /** A request without a topic is answered 400 and neither the model nor the database is called; the model is called only with a topic. */
  lemma TemaRequired(req: Request, chat: Chat, random: nat, uuid: string, ids: nat -> string, now: string,
                     saveError: Option<string>, thrown: string)
    ensures var out := Handle(req, chat, random, uuid, ids, now, saveError, thrown);
      (ReplyStatus(out.reply) == 400 <==>
         req.verb.Post? && req.body.Some? && ParamsOf(req.body.value).Some? && !Truthy(ParamsOf(req.body.value).value.tema)) &&
      (ReplyStatus(out.reply) == 400 ==> out.prompt.None? && out.rows.None?) &&
      (out.prompt.Some? ==> req.body.Some? && ParamsOf(req.body.value).Some? && Truthy(ParamsOf(req.body.value).value.tema)) &&
      (req.verb.Post? && req.body == Some(Null) ==> ReplyStatus(out.reply) == 500 && out.prompt.None?)
  {
  }

  /**
   * A successful answer lists the reshaped questions, each stamped with the
   * same token count; rows are written exactly when the request names a
   * teacher, one question row and one embedding row per question.
   */
  lemma SuccessShape(req: Request, chat: Chat, random: nat, uuid: string, ids: nat -> string, now: string,
                     saveError: Option<string>, thrown: string)
    ensures var out := Handle(req, chat, random, uuid, ids, now, saveError, thrown);
      out.reply.Success? ==>
        req.body.Some? && ParamsOf(req.body.value).Some? && chat.ChatOk? && chat.parsed.Some? &&
        Reshape(chat.parsed.value).Some? && Reshape(chat.parsed.value).value.Arr? &&
        |out.reply.questoes| == |Reshape(chat.parsed.value).value.items| &&
        (out.rows.Some? <==> Truthy(ParamsOf(req.body.value).value.professorId)) &&
        (out.rows.Some? ==> |out.rows.value| == |out.reply.questoes| && |out.embeddings.value| == |out.reply.questoes|)
  {
  }

  /** Rows are only ever written for a teacher id, and row `i` is built from question `i`, stamped. */
  lemma RowsNeedTeacher(req: Request, chat: Chat, random: nat, uuid: string, ids: nat -> string, now: string,
                        saveError: Option<string>, thrown: string, i: nat)
    ensures var out := Handle(req, chat, random, uuid, ids, now, saveError, thrown);
      out.rows.Some? ==>
        req.body.Some? && ParamsOf(req.body.value).Some? && Truthy(ParamsOf(req.body.value).value.professorId) &&
        chat.ChatOk? && chat.parsed.Some? && Reshape(chat.parsed.value).Some? && Reshape(chat.parsed.value).value.Arr? &&
        var qs := Reshape(chat.parsed.value).value.items;
        (i < |qs| ==>
           out.rows.value[i] == RowOf(Stamp(qs[i], Tokens(chat.usage)), ids(i), ParamsOf(req.body.value).value, Tokens(chat.usage), now) &&
           out.embeddings.value[i].origemId == ids(i))
  {
  }

  /**
   * A call to the model that rejects, or whose body cannot be read, ends in
   * the `catch`: a 500 with the exception's message, after the prompt was
   * sent and with nothing written.
   */
  lemma ThrowingCall(req: Request, chat: Chat, random: nat, uuid: string, ids: nat -> string, now: string,
                     saveError: Option<string>, thrown: string)
    requires req.verb.Post? && req.body.Some? && ParamsOf(req.body.value).Some? && Truthy(ParamsOf(req.body.value).value.tema)
    requires chat.ChatThrew?
    ensures var out := Handle(req, chat, random, uuid, ids, now, saveError, thrown);
      out.reply == Failed(Thrown(chat.message)) && ReplyStatus(out.reply) == 500 &&
      out.prompt.Some? && out.rows.None? && out.embeddings.None?
  {
  }
}
