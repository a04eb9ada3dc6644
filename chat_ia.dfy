/**
 * The "chat-ia" edge function: it admits only browser origins it trusts,
 * answers their preflights with CORS headers, and relays a conversation to
 * the chat model behind one of two system prompts. Parsing an origin as a
 * URL is a parameter (`host`), as are the model's answer and the secret's
 * presence.
 */
module ChatIaFunction {
  import opened Wrappers
  import opened Js
  import opened EdgeHttp

  /** The production origins; none are listed. */
  const FixedAllowedOrigins: set<string> := {}

  const DevHosts: set<string> := {"localhost", "127.0.0.1", "[::1]"}

  const DefaultRequestedHeaders: string := "authorization,content-type,apikey,x-client-info"

  /**
   * `isAllowedOrigin(origin)`: `host(o)` is the hostname `new URL(o)` gives,
   * None when the constructor throws.
   */
  predicate IsAllowedOrigin(origin: Option<string>, host: string -> Option<string>)
  {
    origin.Some? && origin.value != "" && host(origin.value).Some? &&
    (origin.value in FixedAllowedOrigins || host(origin.value).value in DevHosts)
  }

  /**
   * With no production origin listed, an origin is allowed exactly when it
   * parses and its hostname is one of the three loopback names, whatever
   * its scheme or port; a missing or unparsable origin never is.
   */
  lemma AllowedOriginCases(origin: Option<string>, host: string -> Option<string>)
    ensures origin.None? || (origin.Some? && host(origin.value).None?) ==> !IsAllowedOrigin(origin, host)
    ensures IsAllowedOrigin(origin, host) <==>
      origin.Some? && origin.value != "" && host(origin.value).Some? &&
      (host(origin.value).value == "localhost" || host(origin.value).value == "127.0.0.1" ||
       host(origin.value).value == "[::1]")
  {
  }

  /**
   * The varying part of `buildCorsHeaders(req)`: Allow-Origin and
   * Allow-Headers. Methods, max-age, credentials and `Vary: Origin` are
   * constants.
   */
  datatype Headers = Headers(allowOrigin: string, allowHeaders: string)

  /** `requested` is the Access-Control-Request-Headers header, None when absent. */
  function CorsHeaders(origin: Option<string>, requested: Option<string>, host: string -> Option<string>): (h: Headers)
    ensures h.allowOrigin == (if IsAllowedOrigin(origin, host) then origin.value else "")
    ensures requested.Some? ==> h.allowHeaders == requested.value
    ensures requested.None? ==> h.allowHeaders == DefaultRequestedHeaders
  {
    Headers(if IsAllowedOrigin(origin, host) then origin.value else "", requested.GetOr(DefaultRequestedHeaders))
  }

  // ===== the conversation =====

  /** The two system prompts: the Socratic tutor for students, the teaching assistant otherwise. */
  datatype SystemPrompt = SocraticTutor | TeacherAssistant

  const TutorRole: string := "tutor_estudos"

  /** `contexto?.papel === "tutor_estudos" ? socratic : teacher`. */
  function PromptFor(contexto: Value): SystemPrompt
  {
    if Field(contexto, "papel") == Str(TutorRole) then SocraticTutor else TeacherAssistant
  }

  /** What the model is sent: the system prompt followed by the caller's messages, in order. */
  datatype Sent = Sent(system: SystemPrompt, messages: seq<Value>)

  /**
   * `const { mensagens = [], contexto = {} } = body` and the spread of
   * `mensagens`; None when either throws (a `null` body, messages that are
   * neither an array nor a string). A string spreads into one message per
   * character.
   */
  function SentFor(body: Value): Option<Sent>
  {
    if IsNullish(body) then None
    else
      var mensagens := Field(body, "mensagens");
      var contexto := if Field(body, "contexto").Undefined? then Obj(map[]) else Field(body, "contexto");
      if mensagens.Undefined? then Some(Sent(PromptFor(contexto), []))
      else if mensagens.Arr? then Some(Sent(PromptFor(contexto), mensagens.items))
      else if mensagens.Str? then Some(Sent(PromptFor(contexto), Spread(mensagens.s)))
      else None
  }

  /** `[...s]`: one one-character string per character. */
  function Spread(s: string): (r: seq<Value>)
    ensures |r| == |s| && forall i :: 0 <= i < |s| ==> r[i] == Str([s[i]])
  {
    seq(|s|, i requires 0 <= i < |s| => Str([s[i]]))
  }

  /** Only the role "tutor_estudos" selects the Socratic prompt; the caller's messages go after it unchanged. */
  lemma PromptChoice(body: Value)
    requires SentFor(body).Some?
    ensures SentFor(body).value.system.SocraticTutor? <==> Field(Field(body, "contexto"), "papel") == Str(TutorRole)
    ensures Field(body, "mensagens").Arr? ==> SentFor(body).value.messages == Field(body, "mensagens").items
    ensures Field(body, "mensagens").Undefined? ==> SentFor(body).value.messages == []
    ensures Field(body, "mensagens").Str? ==> SentFor(body).value.messages == Spread(Field(body, "mensagens").s)
    ensures !IsNullish(body)
    ensures Field(body, "mensagens").Undefined? || Field(body, "mensagens").Arr? || Field(body, "mensagens").Str?
  {
  }

  // ===== answers =====

  /**
   * The model's answer: a failed status with its text, the parsed JSON, or
   * an exception with its message (the `fetch` rejected, or reading the
   * body threw).
   */
  datatype Completion = CompletionFailed(status: int, text: string) | CompletionOk(data: Value) | CompletionThrew(message: string)

  /** `v?.[0]` on an array. */
  function First(v: Value): Value
  {
    if v.Arr? && |v.items| > 0 then v.items[0] else Undefined
  }

  /** `data?.choices?.[0]?.message?.content ?? ""`. */
  function ReplyText(data: Value): Value
  {
    Coalesce(Field(Field(First(Field(data, "choices")), "message"), "content"), Str(""))
  }

  /** `data?.usage?.total_tokens ?? 0`. */
  function ReplyTokens(data: Value): Value
  {
    Coalesce(Field(Field(data, "usage"), "total_tokens"), Num(0))
  }

  /** The reply text defaults to "" and the token count to 0; present values pass through, even falsy ones. */
  lemma ReplyDefaults(data: Value)
    ensures !IsNullish(ReplyText(data)) && !IsNullish(ReplyTokens(data))
    ensures var c := Field(Field(First(Field(data, "choices")), "message"), "content");
      (IsNullish(c) ==> ReplyText(data) == Str("")) && (!IsNullish(c) ==> ReplyText(data) == c)
    ensures var t := Field(Field(data, "usage"), "total_tokens");
      (IsNullish(t) ==> ReplyTokens(data) == Num(0)) && (!IsNullish(t) ==> ReplyTokens(data) == t)
  {
  }

  datatype Failure = UsePost | OriginRefused | NotConfigured | ModelFailed(status: int, text: string) | Thrown(message: string)

  function Status(f: Failure): int
  {
    match f
    case UsePost => 405
    case OriginRefused => 403
    case _ => 500
  }

  /** A bare 204, a 200 preflight, a failure, or `{ texto, tokens }`. */
  datatype Reply = NoContent | PreflightOk | Failed(failure: Failure) | Answer(texto: Value, tokens: Value)

  function ReplyStatus(r: Reply): int
  {
    match r
    case NoContent => 204
    case PreflightOk => 200
    case Failed(f) => Status(f)
    case Answer(_, _) => 200
  }

  /** The reply, the CORS headers it carries (None for the bare 204), and what the model was sent, if it was called. */
  datatype Outcome = Outcome(reply: Reply, headers: Option<Headers>, sent: Option<Sent>)

  /**
   * The whole request. `requested` is the Access-Control-Request-Headers
   * header; `configured` whether the secret is set; `thrown` the message of
   * an exception the runtime raises on the way.
   */
  function Handle(req: Request, requested: Option<string>, host: string -> Option<string>, configured: bool,
                  completion: Completion, thrown: string): (r: Outcome)
    ensures r.headers.None? <==> req.verb.Options? && !IsAllowedOrigin(req.origin, host)
    ensures r.sent.Some? ==> req.body.Some? && r.sent == SentFor(req.body.value)
    ensures r.reply.Answer? ==> r.sent.Some? && completion.CompletionOk?
    ensures req.verb.Post? && IsAllowedOrigin(req.origin, host) && configured && req.body.Some? && SentFor(req.body.value).Some? ==>
      r.sent == SentFor(req.body.value)
  {
    var h := Some(CorsHeaders(req.origin, requested, host));
    if req.verb.Options? then
      (if !IsAllowedOrigin(req.origin, host) then Outcome(NoContent, None, None) else Outcome(PreflightOk, h, None))
    else if !req.verb.Post? then Outcome(Failed(UsePost), h, None)
    else if !IsAllowedOrigin(req.origin, host) then Outcome(Failed(OriginRefused), h, None)
    else if !configured then Outcome(Failed(NotConfigured), h, None)
    else if req.body.None? || SentFor(req.body.value).None? then Outcome(Failed(Thrown(thrown)), h, None)
    else
      var sent := SentFor(req.body.value);
      match completion
      case CompletionFailed(status, text) => Outcome(Failed(ModelFailed(status, text)), h, sent)
      case CompletionOk(data) => Outcome(Answer(ReplyText(data), ReplyTokens(data)), h, sent)
      case CompletionThrew(message) => Outcome(Failed(Thrown(message)), h, sent)
  }

  // ===== properties =====

  /** A preflight from an untrusted origin gets a bare 204 with no CORS headers; from a trusted one, a 200 with them. */
  lemma PreflightCases(req: Request, requested: Option<string>, host: string -> Option<string>, configured: bool,
                       completion: Completion, thrown: string)
    requires req.verb.Options?
    ensures var out := Handle(req, requested, host, configured, completion, thrown);
      (!IsAllowedOrigin(req.origin, host) ==> ReplyStatus(out.reply) == 204 && out.headers.None?) &&
      (IsAllowedOrigin(req.origin, host) ==>
         ReplyStatus(out.reply) == 200 && out.headers.Some? && out.headers.value.allowOrigin == req.origin.value) &&
      out.sent.None?
  {
  }

  /**
   * Any other method but POST is a 405, from any origin; a POST from an
   * untrusted origin is a 403, and its body is never read nor sent; the
   * model is called only for a trusted POST.
   */
  lemma DecisionOrder(req: Request, requested: Option<string>, host: string -> Option<string>, configured: bool,
                      completion: Completion, thrown: string)
    ensures var out := Handle(req, requested, host, configured, completion, thrown);
      (!req.verb.Options? && !req.verb.Post? ==> ReplyStatus(out.reply) == 405) &&
      (req.verb.Post? && !IsAllowedOrigin(req.origin, host) ==> ReplyStatus(out.reply) == 403 && out.sent.None?) &&
      (out.sent.Some? ==> req.verb.Post? && IsAllowedOrigin(req.origin, host) && configured) &&
      (out.headers.Some? ==> out.headers.value.allowOrigin == (if IsAllowedOrigin(req.origin, host) then req.origin.value else ""))
  {
  }

  /** A 200 to a POST carries the model's text or "" and its token count or 0. */
  lemma {:induction false} AnswerShape(req: Request, requested: Option<string>, host: string -> Option<string>, configured: bool,
                    completion: Completion, thrown: string)
    ensures var out := Handle(req, requested, host, configured, completion, thrown);
      out.reply.Answer? ==>
        completion.CompletionOk? && out.reply.texto == ReplyText(completion.data) &&
        out.reply.tokens == ReplyTokens(completion.data) && !IsNullish(out.reply.texto) && out.sent.Some?
  {
    if completion.CompletionOk? {
      ReplyDefaults(completion.data);
    }
  }

  /**
   * A call to the model that rejects, or whose body cannot be read, is a 500
   * carrying the exception's message and the CORS headers, after the
   * messages were sent.
   */
  lemma ThrowingCall(req: Request, requested: Option<string>, host: string -> Option<string>,
                     completion: Completion, thrown: string)
    requires req.verb.Post? && IsAllowedOrigin(req.origin, host) && req.body.Some? && SentFor(req.body.value).Some?
    requires completion.CompletionThrew?
    ensures var out := Handle(req, requested, host, true, completion, thrown);
      out.reply == Failed(Thrown(completion.message)) && ReplyStatus(out.reply) == 500 &&
      out.headers == Some(CorsHeaders(req.origin, requested, host)) && out.sent == SentFor(req.body.value)
  {
  }
}
