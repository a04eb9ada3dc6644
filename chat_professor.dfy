/**
 * The teacher's chat (`newnerd-interface/js/chat-ia-professor.js`): it waits
 * for the database client, checks that the signed-in user is a teacher,
 * opens or creates the teacher's active session and replays it, and for each
 * message stores it and asks the "chat-ia" edge function (through the
 * client's `invoke`, then by a direct request when that fails) with the six
 * newest messages and the teaching-assistant role. The client, the
 * database's answers and the edge function's answers are parameters.
 */
module ChatProfessor {
  import opened Wrappers
  import opened Js
  import opened Text
  import opened ChatHistory
  import ChatIaFunction

  /** `contexto: { papel: "assistente_pedagogico" }`. */
  const Papel: string := "assistente_pedagogico"
  /** `tentativa < 5`: the last attempt that schedules another. */
  const MaxAttempt: nat := 5
  const GreetingStart: string := "👋 Olá, Prof. "
  const GreetingEnd: string := "! Sou seu assistente pedagógico."
  const ProcessingError: string := "Erro ao processar."

  // ===== starting =====

  /** The attempt `tentarIniciar` schedules when the client is still missing: the next one, while fewer than five were made. */
  function NextAttempt(tentativa: nat): (next: Option<nat>)
    ensures next.Some? <==> tentativa < MaxAttempt
    ensures next.Some? ==> next.value == tentativa + 1 && next.value <= MaxAttempt
  {
    if tentativa < MaxAttempt then Some(tentativa + 1) else None
  }

  /** The attempts made from `tentativa` on while the client never appears. */
  function Attempts(tentativa: nat): seq<nat>
    decreases if tentativa < MaxAttempt then MaxAttempt - tentativa else 0
  {
    match NextAttempt(tentativa)
    case None => [tentativa]
    case Some(next) => [tentativa] + Attempts(next)
  }

  /**
   * Waiting for the client ends: from attempt `t` below five there are
   * exactly `6 - t` attempts, counting up by one to the fifth; from any other
   * there is only that one.
   */
  lemma {:induction false} AttemptsBounded(t: nat)
    ensures t < MaxAttempt ==> |Attempts(t)| == MaxAttempt + 1 - t && Attempts(t)[|Attempts(t)| - 1] == MaxAttempt
    ensures t >= MaxAttempt ==> Attempts(t) == [t]
    ensures forall i :: 0 <= i < |Attempts(t)| ==> Attempts(t)[i] == t + i
    decreases if t < MaxAttempt then MaxAttempt - t else 0
  {
    if t < MaxAttempt {
      AttemptsBounded(t + 1);
      var rest := Attempts(t + 1);
      assert Attempts(t) == [t] + rest;
      forall i | 0 <= i < |Attempts(t)| ensures Attempts(t)[i] == t + i {
        if i > 0 {
          assert Attempts(t)[i] == rest[i - 1];
        }
      }
    }
  }

  /** The session `iniciarSessao` creates for a teacher without an active one. */
  function NewSession(userId: Value): (s: Record)
    ensures Get(s, "usuario_id") == userId && Get(s, "usuario_tipo") == Str("professor")
    ensures ChatIaFunction.PromptFor(Get(s, "contexto")) == ChatIaFunction.TeacherAssistant
  {
    map["usuario_id" := userId, "usuario_tipo" := Str("professor"), "contexto" := Obj(map["papel" := Str(Papel)])]
  }

  // ===== the greeting =====

  /** `user.nome ? user.nome.split(" ")[0] : ""`. */
  function FirstName(nome: Value): string
  {
    if Truthy(nome) then Split(ToStr(nome), ' ')[0] else ""
  }

  /** `👋 Olá, Prof. ${first name}! Sou seu assistente pedagógico.` */
  function Greeting(nome: Value): string
  {
    GreetingStart + FirstName(nome) + GreetingEnd
  }

  lemma {:induction false} JoinStarts(parts: seq<string>, sep: string)
    requires |parts| >= 1
    ensures StartsWith(Join(parts, sep), parts[0])
  {
    var j := Join(parts, sep);
    if |parts| > 1 {
      assert j == parts[0] + sep + Join(parts[1..], sep);
      assert j[..|parts[0]|] == parts[0];
    } else {
      assert j[..|parts[0]|] == parts[0];
    }
  }

  /** The name shown is the start of the teacher's name up to its first space, and holds no space; no name shows none. */
  lemma {:induction false} FirstNameCases(nome: Value)
    ensures !Truthy(nome) ==> FirstName(nome) == ""
    ensures Truthy(nome) ==> StartsWith(ToStr(nome), FirstName(nome))
    ensures forall i :: 0 <= i < |FirstName(nome)| ==> FirstName(nome)[i] != ' '
    ensures Truthy(nome) && (forall i :: 0 <= i < |ToStr(nome)| ==> ToStr(nome)[i] != ' ') ==> FirstName(nome) == ToStr(nome)
  {
    if Truthy(nome) {
      var s := ToStr(nome);
      SplitJoin(s, ' ');
      JoinStarts(Split(s, ' '), [' ']);
      assert Split(s, ' ')[0] in Split(s, ' ');
      if forall i :: 0 <= i < |s| ==> s[i] != ' ' {
        NoSeparatorOnePiece(s, ' ');
      }
    }
  }

  lemma {:induction false} NoSeparatorOnePiece(s: string, sep: char)
    requires forall i :: 0 <= i < |s| ==> s[i] != sep
    ensures Split(s, sep) == [s]
  {
    if s != [] {
      NoSeparatorOnePiece(s[1..], sep);
      assert [s[0]] + s[1..] == s;
    }
  }

  /** An empty session shows only the greeting; it names the teacher by the first name. */
  lemma GreetingShown(data: Option<seq<Record>>, nome: Value)
    requires data.None? || data.value == []
    ensures Loaded(data, Greeting(nome)) == [UiMessage(Str(GreetingStart + FirstName(nome) + GreetingEnd), Str("ia"))]
  {
  }

  // ===== chamarIAProfessor =====

  /** `mensagensAPI`: the history and the new message last; no system message, the edge function adds it. */
  function Messages(historico: Option<seq<Record>>, mensagem: string): (ms: seq<ApiMessage>)
    ensures |ms| == |historico.GetOr([])| + 1
    ensures ms[|ms| - 1] == ApiMessage(User, Str(mensagem))
    ensures ms[..|ms| - 1] == HistoryMessages(historico)
  {
    HistoryMessages(historico) + [ApiMessage(User, Str(mensagem))]
  }

  /**
   * With the history the query returns, at most seven messages are sent:
   * the session's newest in the order they were written, each "usuario"
   * message as the user's, then the new message; none is a system message.
   */
  lemma {:induction false} MessagesShape(stored: seq<Record>, mensagem: string)
    ensures var ms := Messages(Some(NewestFirst(stored, HistoryLimit)), mensagem);
      var k := Min(HistoryLimit, |stored|);
      |ms| == k + 1 && |ms| <= HistoryLimit + 1 &&
      (forall i :: 0 <= i < k ==> ms[i] == FromRow(stored[|stored| - k + i])) &&
      (forall i :: 0 <= i < |ms| ==> ms[i].role != System)
  {
    var ms := Messages(Some(NewestFirst(stored, HistoryLimit)), mensagem);
    var k := Min(HistoryLimit, |stored|);
    HistoryFromQuery(stored);
    forall i | 0 <= i < |ms| ensures ms[i].role != System {
      if i < k {
        assert ms[i] == FromRow(stored[|stored| - k + i]);
      }
    }
  }

  /** The body sent both ways: `{ mensagens, contexto: { papel: "assistente_pedagogico" } }`. */
  function Body(ms: seq<ApiMessage>): Value
  {
    Obj(map["mensagens" := Arr(AsValues(ms)), "contexto" := Obj(map["papel" := Str(Papel)])])
  }

  /** The edge function reads this body as the teaching assistant's conversation with exactly these messages. */
  lemma {:induction false} BodyAsReceived(ms: seq<ApiMessage>)
    ensures ChatIaFunction.SentFor(Body(ms)) == Some(ChatIaFunction.Sent(ChatIaFunction.TeacherAssistant, AsValues(ms)))
  {
    var b := Body(ms);
    assert Field(b, "contexto") == Obj(map["papel" := Str(Papel)]);
    assert Field(b, "mensagens") == Arr(AsValues(ms));
    assert Papel[0] != ChatIaFunction.TutorRole[0];
  }

  /** What `functions.invoke` gives back: its error, or its data. */
  datatype InvokeAnswer = InvokeFailed(error: Value) | InvokeData(data: Value)

  /** What the direct request gives back: a failed status (its body text, "" when unreadable), the parsed JSON, or an exception. */
  datatype FetchAnswer = FetchNotOk(status: int, errTxt: string, statusText: string) | FetchData(data: Value) | FetchThrew(message: string)

  /**
   * The `invoke` path: the reply's `texto`, or None when it fails. Every
   * failure is caught there: an error, a data carrying `error`, and a data
   * that is null (reading `texto` throws).
   */
  function InvokeReply(answer: InvokeAnswer): Option<Value>
  {
    match answer
    case InvokeFailed(_) => None
    case InvokeData(data) =>
      if Truthy(Field(data, "error")) || IsNullish(data) then None else Some(Field(data, "texto"))
  }

  /** `Edge ${resp.status}: ${errTxt || resp.statusText}`. */
  function EdgeError(status: int, errTxt: string, statusText: string): string
  {
    "Edge " + IntToString(status) + ": " + (if errTxt != "" then errTxt else statusText)
  }

  /** The direct path: the reply's `texto`, or the error thrown out of `chamarIAProfessor`. */
  function FetchReply(answer: FetchAnswer): Result<Value>
  {
    match answer
    case FetchNotOk(status, errTxt, statusText) => Err(EdgeError(status, errTxt, statusText))
    case FetchData(data) =>
      if Truthy(Field(data, "error")) then Err(ToStr(Field(data, "error")))
      else if IsNullish(data) then Err("TypeError")
      else Ok(Field(data, "texto"))
    case FetchThrew(message) => Err(message)
  }

  /** A call of `chamarIAProfessor`: the messages it sent, whether it fell back to the direct request, and its outcome. */
  datatype Call = Call(sent: seq<ApiMessage>, fellBack: bool, result: Result<Value>)

  /** `chamarIAProfessor(mensagem)`: `invoke` first, the direct request only when `invoke` fails. */
  function ChamarIAProfessor(historico: Option<seq<Record>>, mensagem: string, invoke: InvokeAnswer, fetch: FetchAnswer): (c: Call)
    ensures c.sent == Messages(historico, mensagem)
    ensures !c.fellBack <==> InvokeReply(invoke).Some?
    ensures !c.fellBack ==> c.result == Ok(InvokeReply(invoke).value)
    ensures c.fellBack ==> c.result == FetchReply(fetch)
  {
    var ms := Messages(historico, mensagem);
    var first := InvokeReply(invoke);
    if first.Some? then Call(ms, false, Ok(first.value)) else Call(ms, true, FetchReply(fetch))
  }

  /**
   * Both paths refuse a reply carrying `error`: with it, `invoke` falls back,
   * and the direct request's answer is an error with that message. A failed
   * status names the status and the body text, or the status text when the
   * body is empty.
   */
  lemma FallbackOrder(historico: Option<seq<Record>>, mensagem: string, invoke: InvokeAnswer, fetch: FetchAnswer)
    ensures invoke.InvokeFailed? || (invoke.InvokeData? && Truthy(Field(invoke.data, "error"))) ==>
      ChamarIAProfessor(historico, mensagem, invoke, fetch).fellBack
    ensures fetch.FetchData? && Truthy(Field(fetch.data, "error")) ==>
      FetchReply(fetch) == Err(ToStr(Field(fetch.data, "error")))
    ensures fetch.FetchNotOk? && fetch.errTxt == "" ==>
      FetchReply(fetch) == Err("Edge " + IntToString(fetch.status) + ": " + fetch.statusText)
    ensures ChamarIAProfessor(historico, mensagem, invoke, fetch).result.Ok? ==>
      (invoke.InvokeData? && !Truthy(Field(invoke.data, "error"))) || (fetch.FetchData? && !Truthy(Field(fetch.data, "error")))
  {
  }

  // ===== the page =====

  /** The bubble after the user's: the reply, or "Erro ao processar." whatever the error. */
  function ReplyBubble(result: Result<Value>): (m: UiMessage)
    ensures m.remetente == Str("ia")
    ensures result.Ok? ==> m.text == result.value
    ensures result.Err? ==> m.text == Str(ProcessingError)
  {
    UiMessage(if result.Ok? then result.value else Str(ProcessingError), Str("ia"))
  }

  /**
   * What a `tentarIniciar` run meets: whether the shared client is there,
   * the teacher `verificarAuthProfessorChat` returns (falsy when the user is
   * not signed in or not a teacher), and the answers of `iniciarSessao`.
   */
  datatype Start = Start(clientAvailable: bool, teacher: Value, opening: Opening)

  /** The part of the page a start can change: the client, the teacher, the session, its rows and the box. */
  datatype Held = Held(clientReady: bool, user: Value, session: Value, stored: seq<Record>, ui: seq<UiMessage>)

  /**
   * The page after a `tentarIniciar` that runs (neither under way nor
   * already started): without a client nothing else changes; with one the
   * teacher is taken, and for a teacher the session that opens replaces
   * the rows, and the box is replayed when its id is truthy.
   */
  function Restarted(h: Held, start: Start): Held
  {
    if !(h.clientReady || start.clientAvailable) then h
    else if !Truthy(start.teacher) || !start.opening.Opens() then h.(clientReady := true, user := start.teacher)
    else
      var o := start.opening;
      Held(true, start.teacher, o.Id(), o.Rows(),
           if Truthy(o.Id()) then Loaded(Some(o.Rows()), Greeting(Field(start.teacher, "nome"))) else h.ui)
  }

  /**
   * What the exchange of `enviarMensagem` starts from: the page as it is
   * with a client and a session, or while a start is under way; else what
   * `tentarIniciar` leaves.
   */
  function Resumed(inicializando: bool, h: Held, start: Start): Held
  {
    if (h.clientReady && Truthy(h.session)) || inicializando then h else Restarted(h, start)
  }

  /**
   * A send that recovers a session works on that session: the rows the
   * exchange extends are its rows and the box is its replay (the greeting
   * for a new one); a recovery that leaves no session keeps the box.
   */
  lemma RecoveryReplays(h: Held, start: Start)
    requires !(h.clientReady && Truthy(h.session))
    ensures var r := Resumed(false, h, start);
      Truthy(r.session) && !Truthy(h.session) ==>
        start.opening.Opens() && r.stored == start.opening.Rows() &&
        r.ui == Loaded(Some(r.stored), Greeting(Field(start.teacher, "nome"))) &&
        (start.opening.found.None? ==> r.ui == [UiMessage(Str(Greeting(Field(start.teacher, "nome"))), Str("ia"))])
    ensures var r := Resumed(false, h, start);
      !Truthy(r.session) ==> r.ui == h.ui
    ensures Resumed(true, h, start) == h
  {
  }

  class ChatProfessorPage {
    /** `inicializando`: a start is under way. */
    var inicializando: bool
    /** Whether `supabase` holds a client. */
    var clientReady: bool
    /** `user`: the teacher, once signed in. */
    var user: Value
    /** `sessaoAtual`: the active session's id. */
    var session: Value
    /** The session's rows in `chat_mensagens`, oldest first. */
    var stored: seq<Record>
    /** The message box. */
    var ui: seq<UiMessage>

    constructor ()
      ensures !inicializando && !clientReady && user == Undefined && session == Undefined && stored == [] && ui == []
    {
      inicializando, clientReady, user, session, stored, ui := false, false, Undefined, Undefined, [], [];
    }

    /** `supabase && user && sessaoAtual`: fully started. */
    predicate Started()
      reads this
    {
      clientReady && Truthy(user) && Truthy(session)
    }

    function Holds(): Held
      reads this
    {
      Held(clientReady, user, session, stored, ui)
    }

    /**
     * `tentarIniciar(tentativa)`: nothing while a start is under way or once
     * started. Otherwise it takes the shared client (`clientAvailable`),
     * and without one schedules the next attempt (`retry`) while fewer than
     * five were made. With a client it checks the teacher (`teacher`, a
     * falsy value when the user is not signed in or not a teacher) and opens
     * the session (`found`, `created`, `rows` as in `iniciarSessao`).
     */
    method TentarIniciar(tentativa: nat, clientAvailable: bool, teacher: Value,
                         found: Option<Record>, created: Result<Record>, rows: seq<Record>)
      returns (retry: Option<nat>)
      modifies this
      ensures old(inicializando) || old(Started()) ==>
        retry.None? && inicializando == old(inicializando) && clientReady == old(clientReady) &&
        user == old(user) && session == old(session) && stored == old(stored) && ui == old(ui)
      ensures !old(inicializando) && !old(Started()) ==> !inicializando && clientReady == (old(clientReady) || clientAvailable)
      ensures !old(inicializando) && !old(Started()) && !clientReady ==>
        retry == NextAttempt(tentativa) && user == old(user) && session == old(session) && stored == old(stored) && ui == old(ui)
      ensures !old(inicializando) && !old(Started()) && clientReady ==> retry.None? && user == teacher
      ensures !old(inicializando) && !old(Started()) && clientReady && !Truthy(teacher) ==>
        session == old(session) && stored == old(stored) && ui == old(ui)
      ensures !old(inicializando) && !old(Started()) && clientReady && Truthy(teacher) && (found.Some? || created.Ok?) ==>
        session == (if found.Some? then Get(found.value, "id") else Get(created.value, "id"))
      ensures !old(inicializando) && !old(Started()) ==>
        Holds() == Restarted(old(Holds()), Start(clientAvailable, teacher, Opening(found, created, rows)))
    {
      retry := None;
      if inicializando || Started() {
        return;
      }
      inicializando := true;
      clientReady := clientReady || clientAvailable;
      if !clientReady {
        inicializando := false;
        retry := NextAttempt(tentativa);
        return;
      }
      user := teacher;
      if !Truthy(user) {
        inicializando := false;
        return;
      }
      IniciarSessao(found, created, rows);
      inicializando := false;
    }

    /**
     * `iniciarSessao`: the teacher's active session (`found`), else the one
     * created (`created`; when the insert fails the error is caught and
     * nothing changes); the box is then replayed.
     */
    method IniciarSessao(found: Option<Record>, created: Result<Record>, rows: seq<Record>)
      modifies this
      ensures inicializando == old(inicializando) && clientReady == old(clientReady) && user == old(user)
      ensures found.Some? ==> session == Get(found.value, "id") && stored == rows
      ensures found.None? && created.Ok? ==> session == Get(created.value, "id") && stored == []
      ensures found.None? && created.Err? ==> session == old(session) && stored == old(stored) && ui == old(ui)
      ensures found.Some? || created.Ok? ==>
        ui == (if Truthy(session) then Loaded(Some(stored), Greeting(Field(user, "nome"))) else old(ui))
    {
      var sessao: Record;
      if found.Some? {
        sessao := found.value;
        stored := rows;
      } else {
        if created.Err? {
          return;
        }
        sessao := created.value;
        stored := [];
      }
      session := Get(sessao, "id");
      CarregarHistorico();
    }

    /** `carregarHistorico`: nothing without a session; else the stored messages, or the greeting when there are none. */
    method CarregarHistorico()
      modifies this
      ensures inicializando == old(inicializando) && clientReady == old(clientReady) && user == old(user)
      ensures session == old(session) && stored == old(stored)
      ensures ui == (if Truthy(session) then Loaded(Some(stored), Greeting(Field(user, "nome"))) else old(ui))
    {
      if !Truthy(session) {
        return;
      }
      ui := Loaded(Some(stored), Greeting(Field(user, "nome")));
    }

    /**
     * The part of `enviarMensagem` after the checks, once the page has a
     * session: the message is shown and, with a client, stored and sent.
     */
    method Exchange(texto: string, userSaved: bool, historyRead: bool, invoke: InvokeAnswer, fetch: FetchAnswer,
                    replySaved: bool) returns (call: Option<Call>)
      modifies this
      ensures inicializando == old(inicializando) && user == old(user)
      ensures clientReady == old(clientReady) && session == old(session)
      ensures call.Some? <==> clientReady
      ensures call.Some? ==>
        var before := Saved(old(stored), session, texto, userSaved);
        call.value == ChamarIAProfessor(if historyRead then Some(NewestFirst(before, HistoryLimit)) else None,
                                        texto, invoke, fetch)
      ensures ui == old(ui) + [UiMessage(Str(texto), Str("usuario")),
                               ReplyBubble(if call.Some? then call.value.result else Err(ProcessingError))]
      ensures call.None? ==> stored == old(stored)
      ensures call.Some? ==>
        stored == Saved(old(stored), session, texto, userSaved) +
                  (if replySaved && call.value.result.Ok? then [Row(session, "ia", call.value.result.value)] else [])
    {
      var userBubble := UiMessage(Str(texto), Str("usuario"));
      if !clientReady {
        ui := ui + [userBubble, ReplyBubble(Err(ProcessingError))];
        return None;
      }
      var before := Saved(stored, session, texto, userSaved);
      var c := ChamarIAProfessor(if historyRead then Some(NewestFirst(before, HistoryLimit)) else None, texto, invoke, fetch);
      call := Some(c);
      ui := ui + [userBubble, ReplyBubble(c.result)];
      stored := before + (if replySaved && c.result.Ok? then [Row(session, "ia", c.result.value)] else []);
    }

    /**
     * `enviarMensagem`: a blank input sends nothing. Without a client or a
     * session the page runs `tentarIniciar()` (`start`: what it meets), which
     * replaces the rows and the box with the recovered session's, and gives
     * up when there is still no session.
     * Otherwise the message is shown; without a client the first database
     * call throws and the box shows "Erro ao processar.". With one, the
     * message is stored (when `userSaved`), the history is read back
     * (`historyRead`; a failed read sends none), the edge function is asked,
     * and the reply is shown and stored (when `replySaved`); any error shows
     * "Erro ao processar.".
     */
    method EnviarMensagem(input: string, start: Start, userSaved: bool,
                          historyRead: bool, invoke: InvokeAnswer, fetch: FetchAnswer, replySaved: bool)
      returns (call: Option<Call>)
      modifies this
      ensures inicializando == old(inicializando)
      ensures Trim(input) == "" ==> call.None? && Holds() == old(Holds())
      ensures Trim(input) != "" ==>
        clientReady == Resumed(old(inicializando), old(Holds()), start).clientReady &&
        user == Resumed(old(inicializando), old(Holds()), start).user &&
        session == Resumed(old(inicializando), old(Holds()), start).session
      ensures call.Some? ==> Trim(input) != "" && clientReady && Truthy(session)
      ensures call.Some? ==>
        var before := Saved(Resumed(old(inicializando), old(Holds()), start).stored, session, Trim(input), userSaved);
        call.value == ChamarIAProfessor(if historyRead then Some(NewestFirst(before, HistoryLimit)) else None,
                                        Trim(input), invoke, fetch)
      ensures call.Some? ==>
        ui == Resumed(old(inicializando), old(Holds()), start).ui +
              [UiMessage(Str(Trim(input)), Str("usuario")), ReplyBubble(call.value.result)]
      ensures call.Some? ==>
        stored == Saved(Resumed(old(inicializando), old(Holds()), start).stored, session, Trim(input), userSaved) +
                  (if replySaved && call.value.result.Ok? then [Row(session, "ia", call.value.result.value)] else [])
      ensures call.None? && Trim(input) != "" && Truthy(session) ==>
        !clientReady && stored == Resumed(old(inicializando), old(Holds()), start).stored &&
        ui == Resumed(old(inicializando), old(Holds()), start).ui +
              [UiMessage(Str(Trim(input)), Str("usuario")), ReplyBubble(Err(ProcessingError))]
      ensures Trim(input) != "" && !Truthy(session) ==>
        call.None? && stored == Resumed(old(inicializando), old(Holds()), start).stored && ui == old(ui)
    {
      var texto := Trim(input);
      if texto == "" {
        return None;
      }
      call := Send(texto, start, userSaved, historyRead, invoke, fetch, replySaved);
    }

    /** `enviarMensagem` for a non-blank message: recover, give up without a session, else the exchange. */
    method Send(texto: string, start: Start, userSaved: bool,
                historyRead: bool, invoke: InvokeAnswer, fetch: FetchAnswer, replySaved: bool)
      returns (call: Option<Call>)
      modifies this
      ensures inicializando == old(inicializando)
      ensures clientReady == Resumed(old(inicializando), old(Holds()), start).clientReady
      ensures user == Resumed(old(inicializando), old(Holds()), start).user
      ensures session == Resumed(old(inicializando), old(Holds()), start).session
      ensures !Truthy(session) ==>
        call.None? && stored == Resumed(old(inicializando), old(Holds()), start).stored && ui == old(ui)
      ensures call.Some? ==> clientReady && Truthy(session)
      ensures call.Some? ==>
        var before := Saved(Resumed(old(inicializando), old(Holds()), start).stored, session, texto, userSaved);
        call.value == ChamarIAProfessor(if historyRead then Some(NewestFirst(before, HistoryLimit)) else None,
                                        texto, invoke, fetch)
      ensures call.Some? ==>
        ui == Resumed(old(inicializando), old(Holds()), start).ui +
              [UiMessage(Str(texto), Str("usuario")), ReplyBubble(call.value.result)]
      ensures call.Some? ==>
        stored == Saved(Resumed(old(inicializando), old(Holds()), start).stored, session, texto, userSaved) +
                  (if replySaved && call.value.result.Ok? then [Row(session, "ia", call.value.result.value)] else [])
      ensures call.None? && Truthy(session) ==>
        !clientReady && stored == Resumed(old(inicializando), old(Holds()), start).stored &&
        ui == Resumed(old(inicializando), old(Holds()), start).ui +
              [UiMessage(Str(texto), Str("usuario")), ReplyBubble(Err(ProcessingError))]
    {
      if !clientReady || !Truthy(session) {
        var retry := TentarIniciar(0, start.clientAvailable, start.teacher, start.opening.found, start.opening.created,
                                   start.opening.rows);
        RecoveryReplays(old(Holds()), start);
      }
      if !Truthy(session) {
        return None;
      }
      call := Exchange(texto, userSaved, historyRead, invoke, fetch, replySaved);
    }
  }
}
