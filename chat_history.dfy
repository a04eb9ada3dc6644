/**
 * What the two chat pages (`aluno-interface/js/chat-ia-aluno.js` and
 * `newnerd-interface/js/chat-ia-professor.js`) share: the session's stored
 * messages, the short history sent to the model (the six newest, put back
 * in chronological order and mapped to chat roles), and the replay of a
 * session into the message box.
 */
module ChatHistory {
  import opened Wrappers
  import opened Js

  /** `.limit(6)` on the history query. */
  const HistoryLimit: nat := 6

  datatype Role = System | User | Assistant

  /** One entry of `mensagensAPI`. */
  datatype ApiMessage = ApiMessage(role: Role, content: Value)

  /** `h.remetente === "usuario" ? "user" : "assistant"`. */
  function RoleOf(remetente: Value): Role
  {
    if remetente == Str("usuario") then User else Assistant
  }

  function Reverse<T>(s: seq<T>): (r: seq<T>)
    ensures |r| == |s| && forall i :: 0 <= i < |s| ==> r[i] == s[|s| - 1 - i]
  {
    if s == [] then [] else [s[|s| - 1]] + Reverse(s[..|s| - 1])
  }

  /**
   * The query `order("created_at", { ascending: false }).limit(n)` over the
   * session's messages, kept oldest first: the `n` newest, newest first.
   */
  function NewestFirst(stored: seq<Record>, n: nat): (r: seq<Record>)
    ensures |r| == Min(n, |stored|)
    ensures forall i :: 0 <= i < |r| ==> r[i] == stored[|stored| - 1 - i]
  {
    Reverse(stored)[..Min(n, |stored|)]
  }

  /** Reversing the query's answer gives back the newest messages in the order they were written. */
  lemma {:induction false} Chronological(stored: seq<Record>, n: nat)
    ensures Reverse(NewestFirst(stored, n)) == stored[|stored| - Min(n, |stored|)..]
  {
    var r := Reverse(NewestFirst(stored, n));
    var t := stored[|stored| - Min(n, |stored|)..];
    assert |r| == |t|;
    forall i | 0 <= i < |r| ensures r[i] == t[i] {
    }
  }

  function FromRow(row: Record): ApiMessage
  {
    ApiMessage(RoleOf(Get(row, "remetente")), Get(row, "conteudo"))
  }

  /** `.map((h) => ({ role, content: h.conteudo }))`. */
  function FromRows(rows: seq<Record>): (ms: seq<ApiMessage>)
    ensures |ms| == |rows| && forall i :: 0 <= i < |rows| ==> ms[i] == FromRow(rows[i])
  {
    if rows == [] then [] else FromRows(rows[..|rows| - 1]) + [FromRow(rows[|rows| - 1])]
  }

  /** `(historico || []).reverse().map(...)`. */
  function HistoryMessages(historico: Option<seq<Record>>): seq<ApiMessage>
  {
    FromRows(Reverse(historico.GetOr([])))
  }

  /**
   * When the history comes from the query, it holds at most six messages:
   * the session's newest, oldest first, each "usuario" message as the user's
   * and every other as the assistant's.
   */
  lemma {:induction false} HistoryFromQuery(stored: seq<Record>)
    ensures var h := HistoryMessages(Some(NewestFirst(stored, HistoryLimit)));
      var k := Min(HistoryLimit, |stored|);
      |h| == k && forall i :: 0 <= i < k ==>
        h[i] == FromRow(stored[|stored| - k + i]) &&
        (h[i].role == User <==> Get(stored[|stored| - k + i], "remetente") == Str("usuario"))
  {
    Chronological(stored, HistoryLimit);
  }

  function RoleName(r: Role): string
  {
    match r
    case System => "system"
    case User => "user"
    case Assistant => "assistant"
  }

  /** The JSON object `{ role, content }`. */
  function AsValue(m: ApiMessage): Value
  {
    Obj(map["role" := Str(RoleName(m.role)), "content" := m.content])
  }

  function AsValues(ms: seq<ApiMessage>): (vs: seq<Value>)
    ensures |vs| == |ms| && forall i :: 0 <= i < |ms| ==> vs[i] == AsValue(ms[i])
  {
    if ms == [] then [] else AsValues(ms[..|ms| - 1]) + [AsValue(ms[|ms| - 1])]
  }

  /** A row the page stores in `chat_mensagens`. */
  function Row(sessao: Value, remetente: string, conteudo: Value): Record
  {
    map["sessao_id" := sessao, "remetente" := Str(remetente), "conteudo" := conteudo]
  }

  /** The session's rows once the user's message is stored (when the write succeeds). */
  function Saved(stored: seq<Record>, sessao: Value, texto: string, saveOk: bool): (rows: seq<Record>)
    ensures saveOk ==> |rows| == |stored| + 1 && rows[|stored|] == Row(sessao, "usuario", Str(texto))
    ensures !saveOk ==> rows == stored
    ensures rows[..|stored|] == stored
  {
    stored + (if saveOk then [Row(sessao, "usuario", Str(texto))] else [])
  }

  /** One bubble of the message box: its text and its sender. */
  datatype UiMessage = UiMessage(text: Value, remetente: Value)

  function Replayed(rows: seq<Record>): (ui: seq<UiMessage>)
    ensures |ui| == |rows|
    ensures forall i :: 0 <= i < |rows| ==> ui[i] == UiMessage(Get(rows[i], "conteudo"), Get(rows[i], "remetente"))
  {
    if rows == [] then [] else Replayed(rows[..|rows| - 1]) + [UiMessage(Get(rows[|rows| - 1], "conteudo"), Get(rows[|rows| - 1], "remetente"))]
  }

  /**
   * What the queries of `iniciarSessao` answer: the user's active session
   * (`found`), else the outcome of inserting a new one (`created`), and the
   * found session's stored messages (`rows`).
   */
  datatype Opening = Opening(found: Option<Record>, created: Result<Record>, rows: seq<Record>)
  {
    /** A session is opened: one was found, or the insert succeeded. */
    predicate Opens()
    {
      found.Some? || created.Ok?
    }

    /** `sessao.id` of the opened session. */
    function Id(): Value
      requires Opens()
    {
      if found.Some? then Get(found.value, "id") else Get(created.value, "id")
    }

    /** The opened session's messages: the found one's rows, none for a new one. */
    function Rows(): seq<Record>
      requires Opens()
    {
      if found.Some? then rows else []
    }
  }

  /** `carregarHistorico`'s box: the welcome line for a missing or empty history, else every stored message in order. */
  function Loaded(data: Option<seq<Record>>, welcome: string): seq<UiMessage>
  {
    if data.None? || data.value == [] then [UiMessage(Str(welcome), Str("ia"))] else Replayed(data.value)
  }

  /** An empty session shows exactly one message, the welcome; any other shows its messages and no welcome. */
  lemma LoadedCases(data: Option<seq<Record>>, welcome: string)
    ensures data.None? || data.value == [] ==> Loaded(data, welcome) == [UiMessage(Str(welcome), Str("ia"))]
    ensures data.Some? && data.value != [] ==>
      |Loaded(data, welcome)| == |data.value| &&
      forall i :: 0 <= i < |data.value| ==> Loaded(data, welcome)[i].text == Get(data.value[i], "conteudo")
  {
  }

  /**
   * Both pages store the user's message before they query the history, so
   * when that write succeeds the message is both the history's last entry
   * and the final message sent: the model reads it twice.
   */
  lemma {:induction false} CurrentMessageRepeated(stored: seq<Record>, sessao: Value, texto: string)
    ensures var h := HistoryMessages(Some(NewestFirst(stored + [Row(sessao, "usuario", Str(texto))], HistoryLimit)));
      |h| >= 1 && h[|h| - 1] == ApiMessage(User, Str(texto))
  {
    var s := stored + [Row(sessao, "usuario", Str(texto))];
    HistoryFromQuery(s);
  }
}
