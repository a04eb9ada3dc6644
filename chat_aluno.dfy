/**
 * The student's study chat (`aluno-interface/js/chat-ia-aluno.js`): it opens
 * or creates the student's active session, replays it, and for each message
 * stores it, asks the chat model directly with a Socratic system prompt and
 * the six newest messages, and stores the reply. The database rows of the
 * session are the field `stored`; the model's answer, the keys and the
 * database's success are parameters.
 */
module ChatAluno {
  import opened Wrappers
  import opened Js
  import opened Text
  import opened ChatHistory

  const Welcome: string := "👋 Olá! Sou seu assistente de estudos New Nerd. Como posso ajudar?"
  const SystemText: string := "Você é o New Nerd, um tutor socrático. Use Markdown."
  const MissingKey: string := "Chave API não configurada no config.local.js"

  /** The session `iniciarSessao` creates for a student without an active one. */
  function NewSession(userId: Value): Record
  {
    map["usuario_id" := userId, "usuario_tipo" := Str("aluno"), "contexto" := Obj(map["papel" := Str("tutor_estudos")])]
  }

  /** `mensagensAPI`: the system prompt, the history, and the new message last. */
  function Request(historico: Option<seq<Record>>, mensagem: string): (ms: seq<ApiMessage>)
    ensures |ms| == |historico.GetOr([])| + 2
    ensures ms[0] == ApiMessage(System, Str(SystemText)) && ms[|ms| - 1] == ApiMessage(User, Str(mensagem))
    ensures ms[1..|ms| - 1] == HistoryMessages(historico)
  {
    [ApiMessage(System, Str(SystemText))] + HistoryMessages(historico) + [ApiMessage(User, Str(mensagem))]
  }

  /**
   * With the history the query returns, the request holds at most eight
   * messages: the system prompt first, the newest stored messages in order,
   * the new message last, and no other system message.
   */
  lemma {:induction false} RequestShape(stored: seq<Record>, mensagem: string)
    ensures var ms := Request(Some(NewestFirst(stored, HistoryLimit)), mensagem);
      |ms| <= HistoryLimit + 2 &&
      (forall i :: 1 <= i < |ms| ==> ms[i].role != System) &&
      (|stored| >= HistoryLimit ==> |ms| == HistoryLimit + 2)
  {
    var ms := Request(Some(NewestFirst(stored, HistoryLimit)), mensagem);
    var h := HistoryMessages(Some(NewestFirst(stored, HistoryLimit)));
    HistoryFromQuery(stored);
    forall i | 1 <= i < |ms| ensures ms[i].role != System {
      if i < |ms| - 1 {
        assert ms[i] == h[i - 1];
      }
    }
  }

  /** The model's answer: a failed status with its JSON and status text, the reply's content, or an exception. */
  datatype ModelAnswer = NotOk(errData: Value, statusText: string) | Answered(content: Value) | Threw(message: string)

  /** `OpenAI: ${errData.error?.message || response.statusText}`. */
  function NotOkMessage(errData: Value, statusText: string): string
  {
    "OpenAI: " + ToStr(Or(Field(Field(errData, "error"), "message"), Str(statusText)))
  }

  /**
   * `chamarIAModeDev`: the key comes from the local configuration, else the
   * global one; without either it throws before any request.
   */
  function ChamarIA(localKey: Value, configKey: Value, historico: Option<seq<Record>>, mensagem: string,
                    answer: ModelAnswer): (r: (Option<seq<ApiMessage>>, Result<Value>))
    ensures !Truthy(localKey) && !Truthy(configKey) ==> r.0.None? && r.1 == Err(MissingKey)
    ensures Truthy(localKey) || Truthy(configKey) ==> r.0 == Some(Request(historico, mensagem))
    ensures r.1.Ok? <==> (Truthy(localKey) || Truthy(configKey)) && answer.Answered?
    ensures r.1.Ok? ==> r.1.value == answer.content
  {
    if !Truthy(Or(localKey, configKey)) then (None, Err(MissingKey))
    else
      var sent := Some(Request(historico, mensagem));
      match answer
      case NotOk(errData, statusText) => (sent, Err(NotOkMessage(errData, statusText)))
      case Answered(content) => (sent, Ok(content))
      case Threw(message) => (sent, Err(message))
  }

  /** `Erro: ${erro.message}`. */
  function ErrorText(message: string): string
  {
    "Erro: " + message
  }

  /** The bubble after the user's: the reply, or the error's message. */
  function ReplyBubble(answer: ModelAnswer): UiMessage
  {
    match answer
    case NotOk(errData, statusText) => UiMessage(Str(ErrorText(NotOkMessage(errData, statusText))), Str("ia"))
    case Answered(content) => UiMessage(content, Str("ia"))
    case Threw(message) => UiMessage(Str(ErrorText(message)), Str("ia"))
  }

  /** The bubble shown for the call's outcome: the reply, or `Erro: ` and the error's message. */
  function Bubble(result: Result<Value>): UiMessage
  {
    if result.Ok? then UiMessage(result.value, Str("ia")) else UiMessage(Str(ErrorText(result.error)), Str("ia"))
  }

  /** `LOCAL_CONFIG.OPENAI_API_KEY || CONFIG.OPENAI_API_KEY` is set. */
  predicate HasKey(localKey: Value, configKey: Value)
  {
    Truthy(localKey) || Truthy(configKey)
  }

  /** The bubble after the user's: the model's reply or its error with a key, the missing-key error without one. */
  function ShownReply(localKey: Value, configKey: Value, answer: ModelAnswer): UiMessage
  {
    if HasKey(localKey, configKey) then ReplyBubble(answer) else UiMessage(Str(ErrorText(MissingKey)), Str("ia"))
  }

  /**
   * What the model is sent: nothing without a key, else the history read
   * back (the newest rows, the message included when stored; none when the
   * read fails, `historico || []`) and the message.
   */
  function Asked(stored: seq<Record>, sessao: Value, texto: string, userSaved: bool, historyRead: bool,
                 localKey: Value, configKey: Value): Option<seq<ApiMessage>>
  {
    if HasKey(localKey, configKey)
    then Some(Request(if historyRead then Some(NewestFirst(Saved(stored, sessao, texto, userSaved), HistoryLimit)) else None, texto))
    else None
  }

  /** The session's rows after an exchange: the message when its insert succeeds, then the reply when it came and its insert succeeds. */
  function Kept(stored: seq<Record>, sessao: Value, texto: string, userSaved: bool, replySaved: bool,
                localKey: Value, configKey: Value, answer: ModelAnswer): seq<Record>
  {
    Saved(stored, sessao, texto, userSaved) +
    (if replySaved && HasKey(localKey, configKey) && answer.Answered? then [Row(sessao, "ia", answer.content)] else [])
  }

  /** With a key, the bubble shown is the model's reply, or the error its answer leads to; without one, the missing-key error. */
  lemma BubbleIsReply(localKey: Value, configKey: Value, historico: Option<seq<Record>>, mensagem: string, answer: ModelAnswer)
    ensures Truthy(localKey) || Truthy(configKey) ==> Bubble(ChamarIA(localKey, configKey, historico, mensagem, answer).1) == ReplyBubble(answer)
    ensures !Truthy(localKey) && !Truthy(configKey) ==>
      Bubble(ChamarIA(localKey, configKey, historico, mensagem, answer).1) == UiMessage(Str(ErrorText(MissingKey)), Str("ia"))
  {
  }

  /**
   * A `tentarIniciar` that reaches `iniciarSessao`: the signed-in user's id
   * and what the session queries answer.
   */
  datatype Start = Start(userId: Value, opening: Opening)

  /**
   * The page's session, rows and box once `tentarIniciar` ran for a lost
   * session: `start` is None when it stopped before `iniciarSessao` (no client
   * or no signed-in user). A session that opens replaces the rows, and the box
   * is replayed when its id is truthy; a failed insert changes nothing.
   */
  function Restarted(session: Option<Value>, stored: seq<Record>, ui: seq<UiMessage>, start: Option<Start>)
    : (Option<Value>, seq<Record>, seq<UiMessage>)
  {
    if start.Some? && start.value.opening.Opens() then
      var o := start.value.opening;
      (Some(o.Id()), o.Rows(), if Truthy(o.Id()) then Loaded(Some(o.Rows()), Welcome) else ui)
    else (session, stored, ui)
  }

  /** What the exchange starts from: the page as it is with a session, else what `tentarIniciar` left. */
  function Resumed(session: Option<Value>, stored: seq<Record>, ui: seq<UiMessage>, start: Option<Start>)
    : (Option<Value>, seq<Record>, seq<UiMessage>)
  {
    if session.Some? && Truthy(session.value) then (session, stored, ui) else Restarted(session, stored, ui, start)
  }

  /**
   * A lost session that is recovered is the one `iniciarSessao` opened: the
   * history sent and the rows the exchange extends are that session's rows,
   * and the box is its replay, or the welcome for an empty one. A recovery
   * that leaves no session keeps the box.
   */
  lemma RecoveryReplays(session: Option<Value>, stored: seq<Record>, ui: seq<UiMessage>, start: Option<Start>)
    requires !(session.Some? && Truthy(session.value))
    ensures var r := Resumed(session, stored, ui, start);
      r.0.Some? && Truthy(r.0.value) <==> start.Some? && start.value.opening.Opens() && Truthy(start.value.opening.Id())
    ensures var r := Resumed(session, stored, ui, start);
      r.0.Some? && Truthy(r.0.value) ==>
        r.1 == start.value.opening.Rows() && r.2 == Loaded(Some(r.1), Welcome) &&
        (start.value.opening.found.Some? ==> r.1 == start.value.opening.rows) &&
        (start.value.opening.found.None? ==> r.1 == [] && r.2 == [UiMessage(Str(Welcome), Str("ia"))])
    ensures var r := Resumed(session, stored, ui, start);
      !(r.0.Some? && Truthy(r.0.value)) ==> r.2 == ui
  {
  }

  /** The history `chamarIAModeDev` reads back: the newest rows once the message is stored, or none when the read fails. */
  function Historico(stored: seq<Record>, sessao: Value, texto: string, userSaved: bool, historyRead: bool)
    : Option<seq<Record>>
  {
    if historyRead then Some(NewestFirst(Saved(stored, sessao, texto, userSaved), HistoryLimit)) else None
  }

  /**
   * One exchange as `enviarMensagem` runs it: the request is Asked, the
   * bubble is ShownReply, and the rows are Kept.
   */
  lemma {:induction false} ExchangeFacts(stored: seq<Record>, sessao: Value, texto: string, userSaved: bool, historyRead: bool,
                                         replySaved: bool, localKey: Value, configKey: Value, answer: ModelAnswer)
    ensures var r := ChamarIA(localKey, configKey, Historico(stored, sessao, texto, userSaved, historyRead), texto, answer);
      r.0 == Asked(stored, sessao, texto, userSaved, historyRead, localKey, configKey) &&
      Bubble(r.1) == ShownReply(localKey, configKey, answer) &&
      Saved(stored, sessao, texto, userSaved) + (if replySaved && r.1.Ok? then [Row(sessao, "ia", r.1.value)] else []) ==
        Kept(stored, sessao, texto, userSaved, replySaved, localKey, configKey, answer)
  {
    BubbleIsReply(localKey, configKey, Historico(stored, sessao, texto, userSaved, historyRead), texto, answer);
  }

  class ChatAlunoPage {
    /** `sessaoAtual`: the active session's id. */
    var session: Option<Value>
    /** The session's rows in `chat_mensagens`, oldest first. */
    var stored: seq<Record>
    /** The message box. */
    var ui: seq<UiMessage>

    constructor ()
      ensures session == None && stored == [] && ui == []
    {
      session, stored, ui := None, [], [];
    }

    predicate HasSession()
      reads this
    {
      session.Some? && Truthy(session.value)
    }

    /**
     * `iniciarSessao`: the active session found for the user (`found`), else
     * the one created (`created`, an error when the insert fails, in which
     * case nothing changes); `rows` are the found session's messages. The box
     * is then replayed, or shows the welcome for an empty session.
     */
    method IniciarSessao(userId: Value, found: Option<Record>, created: Result<Record>, rows: seq<Record>)
      returns (inserted: Option<Record>)
      modifies this
      ensures found.Some? ==> inserted.None? && session == Some(Get(found.value, "id")) && stored == rows
      ensures found.None? ==> inserted == Some(NewSession(userId))
      ensures found.None? && created.Ok? ==> session == Some(Get(created.value, "id")) && stored == []
      ensures found.None? && created.Err? ==> session == old(session) && stored == old(stored) && ui == old(ui)
      ensures found.Some? || created.Ok? ==> ui == (if HasSession() then Loaded(Some(stored), Welcome) else old(ui))
    {
      inserted := None;
      var sessao: Record;
      if found.Some? {
        sessao := found.value;
        stored := rows;
      } else {
        inserted := Some(NewSession(userId));
        if created.Err? {
          return;
        }
        sessao := created.value;
        stored := [];
      }
      session := Some(Get(sessao, "id"));
      CarregarHistorico();
    }

    /** `carregarHistorico`: nothing without a session; else the stored messages, or the welcome when there are none. */
    method CarregarHistorico()
      modifies this
      ensures session == old(session) && stored == old(stored)
      ensures ui == (if HasSession() then Loaded(Some(stored), Welcome) else old(ui))
    {
      if !HasSession() {
        return;
      }
      ui := Loaded(Some(stored), Welcome);
    }

    /**
     * `tentarIniciar` for a lost session: nothing when it stops before
     * `iniciarSessao` (`start` None), else `iniciarSessao` with its answers.
     */
    method Recover(start: Option<Start>)
      modifies this
      ensures (session, stored, ui) == Restarted(old(session), old(stored), old(ui), start)
    {
      if start.Some? {
        var o := start.value.opening;
        var inserted := IniciarSessao(start.value.userId, o.found, o.created, o.rows);
      }
    }

    /**
     * `enviarMensagem`: a blank input sends nothing. Without a session the
     * page tries to start again (`start`, see Recover), which replaces the
     * box and the rows with the recovered session's, and gives up when it
     * still has none. Otherwise the message is shown and stored (when
     * `userSaved`), the history is read back (`historyRead`), the model is
     * asked, and its reply (or the error) is shown and a reply stored (when
     * `replySaved`). `request` is what the model was sent.
     */
    method EnviarMensagem(input: string, start: Option<Start>, localKey: Value, configKey: Value,
                          userSaved: bool, historyRead: bool, replySaved: bool, answer: ModelAnswer)
      returns (request: Option<seq<ApiMessage>>)
      modifies this
      ensures Trim(input) == "" ==> request.None? && session == old(session) && stored == old(stored) && ui == old(ui)
      ensures Trim(input) != "" ==> session == Resumed(old(session), old(stored), old(ui), start).0
      ensures Trim(input) != "" && !HasSession() ==>
        request.None? && stored == Resumed(old(session), old(stored), old(ui), start).1 && ui == old(ui)
      ensures Trim(input) != "" && HasSession() ==>
        request == Asked(Resumed(old(session), old(stored), old(ui), start).1, session.value, Trim(input), userSaved,
                         historyRead, localKey, configKey)
      ensures Trim(input) != "" && HasSession() ==>
        ui == Resumed(old(session), old(stored), old(ui), start).2 +
              [UiMessage(Str(Trim(input)), Str("usuario")), ShownReply(localKey, configKey, answer)]
      ensures Trim(input) != "" && HasSession() ==>
        stored == Kept(Resumed(old(session), old(stored), old(ui), start).1, session.value, Trim(input), userSaved,
                       replySaved, localKey, configKey, answer)
    {
      var texto := Trim(input);
      if texto == "" {
        request := None;
      } else {
        request := Send(texto, start, localKey, configKey, userSaved, historyRead, replySaved, answer);
      }
    }

    /** `enviarMensagem` for a non-blank message: recover a lost session or give up, then the exchange. */
    method Send(texto: string, start: Option<Start>, localKey: Value, configKey: Value,
                userSaved: bool, historyRead: bool, replySaved: bool, answer: ModelAnswer)
      returns (request: Option<seq<ApiMessage>>)
      modifies this
      ensures session == Resumed(old(session), old(stored), old(ui), start).0
      ensures !HasSession() ==>
        request.None? && stored == Resumed(old(session), old(stored), old(ui), start).1 && ui == old(ui)
      ensures HasSession() ==>
        request == Asked(Resumed(old(session), old(stored), old(ui), start).1, session.value, texto, userSaved,
                         historyRead, localKey, configKey)
      ensures HasSession() ==>
        ui == Resumed(old(session), old(stored), old(ui), start).2 +
              [UiMessage(Str(texto), Str("usuario")), ShownReply(localKey, configKey, answer)]
      ensures HasSession() ==>
        stored == Kept(Resumed(old(session), old(stored), old(ui), start).1, session.value, texto, userSaved,
                       replySaved, localKey, configKey, answer)
    {
      if !HasSession() {
        Recover(start);
        RecoveryReplays(old(session), old(stored), old(ui), start);
      }
      if HasSession() {
        request := Exchange(texto, localKey, configKey, userSaved, historyRead, replySaved, answer);
      } else {
        request := None;
      }
    }

    /**
     * The part of `enviarMensagem` past its checks: store the message, call
     * the model, show both bubbles, store the reply. Without a key the
     * message is still shown and stored and the missing-key error is shown.
     */
    method Exchange(texto: string, localKey: Value, configKey: Value, userSaved: bool, historyRead: bool,
                    replySaved: bool, answer: ModelAnswer)
      returns (request: Option<seq<ApiMessage>>)
      requires HasSession()
      modifies this
      ensures session == old(session)
      ensures request == Asked(old(stored), session.value, texto, userSaved, historyRead, localKey, configKey)
      ensures ui == old(ui) + [UiMessage(Str(texto), Str("usuario")), ShownReply(localKey, configKey, answer)]
      ensures stored == Kept(old(stored), session.value, texto, userSaved, replySaved, localKey, configKey, answer)
    {
      var sessao := session.value;
      var r := ChamarIA(localKey, configKey, Historico(stored, sessao, texto, userSaved, historyRead), texto, answer);
      ExchangeFacts(stored, sessao, texto, userSaved, historyRead, replySaved, localKey, configKey, answer);
      request := r.0;
      var shown := Bubble(r.1);
      var reply := if replySaved && r.1.Ok? then [Row(sessao, "ia", r.1.value)] else [];
      stored := Saved(stored, sessao, texto, userSaved) + reply;
      ui := ui + [UiMessage(Str(texto), Str("usuario")), shown];
    }
  }
}
