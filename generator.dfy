/**
 * Question generation on the teacher side (`Generator` in `generator.js`):
 * shaping the reply of the generation endpoint into one question, the
 * varied prompts, batch generation over a bounded worker pool, the request
 * parameters, the complete-exam plan and the per-question render guards.
 * The network is a parameter: `Transport` is what one request ends in, and
 * batch methods take the outcome of the n-th request as a function.
 */
module Generator {
  import opened Wrappers
  import opened Js
  import opened Text

  // ===== generateOne =====

  /** `CONFIG.MESSAGES`. */
  const ErrorTimeout: string := "⏱️ Tempo esgotado. O servidor demorou muito para responder."
  const ErrorNetwork: string := "🌐 Erro de conexão."
  const ErrorEmpty: string := "❌ Resposta vazia do servidor."
  const EmptyReply: string := EmptyReplyHead + EmptyReplyTail
  const EmptyReplyHead: string := "Resposta vazia da função"
  const EmptyReplyTail: string := " — nenhuma questão gerada."

  /** How one request ends: a reply (with its JSON parse, if the body parses), an abort by the timer, or a failed fetch. */
  datatype Transport =
    | Delivered(status: int, raw: string, parsed: Option<Value>)
    | Aborted
    | FetchFailed(message: string)

  /** `response.ok`. */
  predicate StatusOk(status: int)
  {
    200 <= status <= 299
  }

  /** `v?.length` is truthy. */
  predicate HasLength(v: Value)
  {
    match v
    case Arr(items) => |items| > 0
    case Str(s) => |s| > 0
    case Obj(f) => Truthy(Get(f, "length"))
    case _ => false
  }

  /** The type a question without `tipo_questao` is given, by the first rule that applies. */
  function InferredType(f: Record): string
  {
    if HasLength(Get(f, "alternativas")) then "multipla_escolha"
    else if Truthy(Get(f, "resposta_esperada")) then "discursiva"
    else if HasLength(Get(f, "afirmacoes")) then "verdadeiro_falso"
    else if Truthy(Get(f, "coluna_a")) && Truthy(Get(f, "coluna_b")) then "associacao"
    else "desconhecido"
  }

  /** Only a missing (falsy) `tipo_questao` of an object is filled in. */
  function InferType(d: Value): (r: Value)
    ensures r.Obj? <==> d.Obj?
    ensures r.Obj? ==> Truthy(Get(r.fields, "tipo_questao"))
    ensures Truthy(d) ==> Truthy(r)
  {
    if d.Obj? && !Truthy(Get(d.fields, "tipo_questao")) then Obj(d.fields["tipo_questao" := Str(InferredType(d.fields))])
    else d
  }

  /** `{ questoes: [...] }` stands for its first question, or `null` when the list is empty. */
  function Unwrap(d: Value): Value
  {
    if d.Obj? && Get(d.fields, "questoes").Arr? then
      var qs := Get(d.fields, "questoes").items;
      if |qs| > 0 then qs[0] else Null
    else d
  }

  /** The `try` block of `generateOne` after the fetch: status, blank body, parse, envelope, emptiness, type. */
  function ShapeReply(status: int, raw: string, parsed: Option<Value>): Result<Value>
  {
    if !StatusOk(status) then Err("HTTP " + IntToString(status) + ": " + raw)
    else if Trim(raw) == "" then Err(ErrorEmpty)
    else if parsed.None? then Err("Resposta inválida: " + Take(raw, 200) + "...")
    else
      var data := Unwrap(parsed.value);
      if !Truthy(data) then Err(EmptyReply) else Ok(InferType(data))
  }

  /** The `catch` block: an abort becomes the timeout message, any message mentioning "fetch" the network one. */
  function CatchMessage(m: string): string
  {
    if Contains(m, "fetch") then ErrorNetwork else m
  }

  /**
   * `generateOne`: the question, or the message of the error it throws. A
   * question comes back only from a 2xx reply with a non-blank body that
   * parses; it is truthy, and when it is an object it carries a truthy type.
   */
  function GenerateOne(t: Transport): (r: Result<Value>)
    ensures r.Ok? ==> t.Delivered? && StatusOk(t.status) && Trim(t.raw) != "" && t.parsed.Some?
    ensures r.Ok? ==> Truthy(r.value) && (r.value.Obj? ==> Truthy(Get(r.value.fields, "tipo_questao")))
    ensures t.Aborted? ==> r == Err(ErrorTimeout)
  {
    match t
    case Aborted => Err(ErrorTimeout)
    case FetchFailed(m) => Err(CatchMessage(m))
    case Delivered(status, raw, parsed) =>
      match ShapeReply(status, raw, parsed)
      case Ok(q) => Ok(q)
      case Err(m) => Err(CatchMessage(m))
  }

  /** Error replies: a failing status, a blank body and an empty envelope each end the request with their message. */
  lemma {:induction false} GenerateOneErrors(status: int, raw: string, parsed: Option<Value>)
    ensures !StatusOk(status) ==> GenerateOne(Delivered(status, raw, parsed)).Err?
    ensures StatusOk(status) && Trim(raw) == "" ==> GenerateOne(Delivered(status, raw, parsed)) == Err(ErrorEmpty)
    ensures StatusOk(status) && Trim(raw) != "" && parsed.Some? && parsed.value.Obj? && Get(parsed.value.fields, "questoes") == Arr([]) ==>
      GenerateOne(Delivered(status, raw, parsed)) == Err(EmptyReply)
  {
    NoFetchInMessages();
  }

  /** Neither message mentions "fetch", so the `catch` block rethrows them unchanged. */
  lemma {:induction false} NoFetchInMessages()
    ensures !Contains(ErrorEmpty, "fetch") && !Contains(EmptyReply, "fetch")
  {
    NoLetterC();
    NotContains(ErrorEmpty, "fetch", 'c');
    NotContains(EmptyReply, "fetch", 'c');
  }

  lemma {:induction false} NoLetterC()
    ensures 'c' in "fetch" && 'c' !in ErrorEmpty && 'c' !in EmptyReply
  {
    NoLetterCInPieces();
  }

  lemma NoLetterCInPieces()
    ensures 'c' !in EmptyReplyHead && 'c' !in EmptyReplyTail
  {
  }

  /** An existing type is kept; otherwise only `tipo_questao` changes, to the first rule that applies. */
  lemma InferTypeOnlyFillsMissing(d: Value)
    ensures d.Obj? && Truthy(Get(d.fields, "tipo_questao")) ==> InferType(d) == d
    ensures !d.Obj? ==> InferType(d) == d
    ensures d.Obj? && !Truthy(Get(d.fields, "tipo_questao")) ==>
      InferType(d).Obj? && InferType(d).fields.Keys == d.fields.Keys + {"tipo_questao"} &&
      (forall k :: k in d.fields && k != "tipo_questao" ==> InferType(d).fields[k] == d.fields[k])
  {
  }

  /** The inference rules in priority order, each as an if-and-only-if. */
  lemma InferredTypePriority(f: Record)
    ensures InferredType(f) == "multipla_escolha" <==> HasLength(Get(f, "alternativas"))
    ensures InferredType(f) == "discursiva" <==> !HasLength(Get(f, "alternativas")) && Truthy(Get(f, "resposta_esperada"))
    ensures InferredType(f) == "verdadeiro_falso" <==>
      !HasLength(Get(f, "alternativas")) && !Truthy(Get(f, "resposta_esperada")) && HasLength(Get(f, "afirmacoes"))
    ensures InferredType(f) == "desconhecido" <==>
      !HasLength(Get(f, "alternativas")) && !Truthy(Get(f, "resposta_esperada")) && !HasLength(Get(f, "afirmacoes")) &&
      !(Truthy(Get(f, "coluna_a")) && Truthy(Get(f, "coluna_b")))
  {
  }

  /** The body of a generation request: the parameters plus a variation tag, a seed and a timestamp. */
  function RequestBody(params: Record, variacaoIndex: nat, now: int, seed: int, iso: string): (body: Record)
    ensures Get(body, "variacao") == Str("v" + NatToString(variacaoIndex) + "_" + IntToString(now))
    ensures Get(body, "seed") == Num(seed) && Get(body, "timestamp") == Str(iso)
    ensures forall k :: k in params && k !in {"variacao", "seed", "timestamp"} ==> k in body && body[k] == params[k]
  {
    Spread(params, map["variacao" := Str("v" + NatToString(variacaoIndex) + "_" + IntToString(now)),
                       "seed" := Num(seed), "timestamp" := Str(iso)])
  }

  // ===== getExemploDiferente =====

  const Exemplo0: string := "Crie uma questão abordando aspectos práticos"
  const Exemplo1: string := "Foque em aplicações do cotidiano"
  const Exemplo2: string := "Desenvolva uma questão com análise crítica"
  const Exemplo3: string := "Crie uma questão contextualizada"
  const Exemplo4: string := "Aborde o tema de forma interdisciplinar"
  const Exemplo5: string := "Foque em resolução de problemas"
  const Exemplo6: string := "Crie uma questão com gráficos ou tabelas"
  const Exemplo7: string := "Desenvolva uma questão interpretativa"
  const Exemplo8: string := "Aborde conceitos fundamentais"
  const Exemplo9: string := "Crie uma questão desafiadora"

  const Exemplos: seq<string> := [Exemplo0, Exemplo1, Exemplo2, Exemplo3, Exemplo4, Exemplo5, Exemplo6, Exemplo7, Exemplo8, Exemplo9]

  /** `getExemploDiferente(index)`. */
  function ExemploDiferente(index: nat): (e: string)
    ensures e == Exemplos[index % |Exemplos|]
  {
    Exemplos[index % |Exemplos|]
  }

  /** The prompts repeat with period ten, and any ten consecutive indices use every one of them. */
  lemma {:induction false} ExemplosPeriodic(index: nat)
    ensures ExemploDiferente(index + |Exemplos|) == ExemploDiferente(index)
  {
    ModPeriod(index, |Exemplos|);
  }

  /** Any ten consecutive indices use every prompt. */
  lemma {:induction false} ExemplosCovered(index: nat, k: nat)
    requires k < |Exemplos|
    ensures exists j :: index <= j < index + |Exemplos| && ExemploDiferente(j) == Exemplos[k]
  {
    var n := |Exemplos|;
    var r := index % n;
    var q := index / n;
    var j := if k >= r then q * n + k else (q + 1) * n + k;
    ModUnique(j, n, if k >= r then q else q + 1, k);
    assert ExemploDiferente(j) == Exemplos[k];
  }

  // ===== generateMultiple =====

  /** `Math.min(3, Math.max(1, quantidade))`. */
  function Concurrency(quantidade: int): (c: int)
    ensures 1 <= c <= 3
    ensures quantidade >= 1 && quantidade <= 3 ==> c == quantidade
  {
    Min(3, Max(1, quantidade))
  }

  /** One entry of `erros`: the 1-based index and the message. */
  datatype GenError = GenError(indice: nat, mensagem: string)

  /** The questions of requests `0..n-1` that succeeded, in index order. */
  function Successes(outcome: nat -> Result<Value>, n: nat): seq<Value>
  {
    if n == 0 then [] else Successes(outcome, n - 1) + (if outcome(n - 1).Ok? then [outcome(n - 1).value] else [])
  }

  /** The failures of requests `0..n-1`, in index order. */
  function Failures(outcome: nat -> Result<Value>, n: nat): seq<GenError>
  {
    if n == 0 then [] else Failures(outcome, n - 1) + (if outcome(n - 1).Err? then [GenError(n, outcome(n - 1).error)] else [])
  }

  datatype Report = Report(questoes: seq<Value>, erros: seq<GenError>, sucesso: nat, total: int, concorrencia: int)

  /**
   * `generateMultiple`: the workers claim indices `0..quantidade-1` through
   * the shared `proximoIndice`, each index once; here the claims are served
   * in index order.
   */
  method GenerateMultiple(quantidade: int, outcome: nat -> Result<Value>) returns (r: Report)
    ensures var n := Max(0, quantidade);
      r.questoes == Successes(outcome, n) && r.erros == Failures(outcome, n)
    ensures r.sucesso == |r.questoes| && r.total == quantidade && r.concorrencia == Concurrency(quantidade)
  {
    var questoes: seq<Value> := [];
    var erros: seq<GenError> := [];
    var maxConcorrentes := Min(3, Max(1, quantidade));
    var proximoIndice := 0;
    var concluidas := 0;
    while proximoIndice < quantidade
      invariant 0 <= proximoIndice <= Max(0, quantidade)
      invariant concluidas == proximoIndice
      invariant questoes == Successes(outcome, proximoIndice)
      invariant erros == Failures(outcome, proximoIndice)
      decreases quantidade - proximoIndice
    {
      var i := proximoIndice;
      proximoIndice := proximoIndice + 1;
      match outcome(i) {
        case Ok(questao) =>
          questoes := questoes + [questao];
        case Err(mensagem) =>
          erros := erros + [GenError(i + 1, mensagem)];
      }
      concluidas := concluidas + 1;
    }
    r := Report(questoes, erros, |questoes|, quantidade, maxConcorrentes);
  }

  /**
   * Every index is claimed exactly once: successes and failures together
   * account for all `n` requests, and index `k` (1-based) is among the
   * failures exactly when request `k - 1` failed.
   */
  /** The indices an error list reports. */
  function Indices(erros: seq<GenError>): set<nat>
  {
    set e | e in erros :: e.indice
  }

  lemma {:induction false} EachIndexOnce(outcome: nat -> Result<Value>, n: nat)
    ensures |Successes(outcome, n)| + |Failures(outcome, n)| == n
    ensures forall k: nat :: k in Indices(Failures(outcome, n)) <==> 1 <= k <= n && outcome(k - 1).Err?
  {
    if n > 0 {
      EachIndexOnce(outcome, n - 1);
      var f0 := Failures(outcome, n - 1);
      var last := if outcome(n - 1).Err? then [GenError(n, outcome(n - 1).error)] else [];
      assert Failures(outcome, n) == f0 + last;
      assert Indices(f0 + last) == Indices(f0) + Indices(last);
    }
  }

  // ===== buildParams =====

  /**
   * `buildParams`: the four fields always, `disciplina` when set and not
   * "auto", trimmed `criterios_professor` when not blank. A `criterios` that
   * is truthy but not a string has no `trim` and throws.
   */
  /** The four fields `buildParams` always sets. */
  function BaseParams(form: Record): (p: Record)
    ensures p.Keys == {"mensagem", "tipo", "serie", "dificuldade"}
    ensures p["mensagem"] == Get(form, "tema") && p["tipo"] == Get(form, "tipo")
    ensures p["serie"] == Get(form, "serie") && p["dificuldade"] == Get(form, "dificuldade")
  {
    map["mensagem" := Get(form, "tema"), "tipo" := Get(form, "tipo"),
        "serie" := Get(form, "serie"), "dificuldade" := Get(form, "dificuldade")]
  }

  function BuildParams(form: Record): (r: Result<Record>)
    ensures var c := Get(form, "criterios");
      r.Err? <==> Truthy(c) && !c.Str?
    ensures r.Ok? ==>
      Get(r.value, "mensagem") == Get(form, "tema") && Get(r.value, "tipo") == Get(form, "tipo") &&
      Get(r.value, "serie") == Get(form, "serie") && Get(r.value, "dificuldade") == Get(form, "dificuldade")
    ensures r.Ok? ==>
      ("disciplina" in r.value <==> Truthy(Get(form, "disciplina")) && Get(form, "disciplina") != Str("auto")) &&
      ("disciplina" in r.value ==> r.value["disciplina"] == Get(form, "disciplina"))
    ensures r.Ok? ==>
      ("criterios_professor" in r.value <==> Get(form, "criterios").Str? && Trim(Get(form, "criterios").s) != "") &&
      ("criterios_professor" in r.value ==> r.value["criterios_professor"] == Str(Trim(Get(form, "criterios").s)))
    ensures r.Ok? ==> r.value.Keys <= {"mensagem", "tipo", "serie", "dificuldade", "disciplina", "criterios_professor"}
  {
    var base := BaseParams(form);
    var disciplina := Get(form, "disciplina");
    var withDisciplina := if Truthy(disciplina) && disciplina != Str("auto") then base["disciplina" := disciplina] else base;
    var criterios := Get(form, "criterios");
    if !Truthy(criterios) then Ok(withDisciplina)
    else if !criterios.Str? then Err("TypeError: criterios.trim is not a function")
    else if Trim(criterios.s) != "" then Ok(withDisciplina["criterios_professor" := Str(Trim(criterios.s))])
    else Ok(withDisciplina)
  }

  // ===== distribuirTopicos =====

  /** `topicos[i % topicos.length]`: `undefined` when there are no topics. */
  function TopicAt(topicos: seq<Value>, i: nat): Value
  {
    if |topicos| == 0 then Undefined else topicos[i % |topicos|]
  }

  /** `distribuirTopicos`: pushes the topics round-robin, `quantidade` times. */
  method DistribuirTopicos(topicos: seq<Value>, quantidade: int) returns (resultado: seq<Value>)
    ensures |resultado| == Max(0, quantidade)
    ensures forall i :: 0 <= i < |resultado| ==> resultado[i] == TopicAt(topicos, i)
  {
    resultado := [];
    var i := 0;
    while i < quantidade
      invariant 0 <= i <= Max(0, quantidade) && |resultado| == i
      invariant forall j :: 0 <= j < i ==> resultado[j] == TopicAt(topicos, j)
      decreases quantidade - i
    {
      resultado := resultado + [TopicAt(topicos, i)];
      i := i + 1;
    }
  }

  /** With topics, the distribution cycles through them with period `|topicos|`, and the first round uses each once. */
  lemma {:induction false} TopicsCycle(topicos: seq<Value>, i: nat)
    requires |topicos| > 0
    ensures TopicAt(topicos, i + |topicos|) == TopicAt(topicos, i)
    ensures i < |topicos| ==> TopicAt(topicos, i) == topicos[i]
  {
    ModPeriod(i, |topicos|);
  }

  // ===== gerarProvaCompleta =====

  /** The four question types, in the order an exam lists them. */
  const QuestionTypes: seq<string> := ["multipla_escolha", "discursiva", "verdadeiro_falso", "associacao"]
  const Dificuldades: seq<string> := ["fácil", "média", "difícil"]

  datatype ExamConfig = ExamConfig(
    titulo: Value, disciplina: Value, serie: Value, topicos: seq<Value>, dificuldade: Value,
    qtdMultipla: int, qtdDiscursiva: int, qtdVF: int, qtdAssoc: int)

  function Quantity(cfg: ExamConfig, t: nat): int
    requires t < |QuestionTypes|
  {
    if t == 0 then cfg.qtdMultipla else if t == 1 then cfg.qtdDiscursiva else if t == 2 then cfg.qtdVF else cfg.qtdAssoc
  }

  /** `totalQuestoes`: the sum of the four quantities. */
  function TotalQuestoes(cfg: ExamConfig): int
  {
    cfg.qtdMultipla + cfg.qtdDiscursiva + cfg.qtdVF + cfg.qtdAssoc
  }

  /** The difficulty of the question requested `geradas`-th: a random one of three when the exam is "mista". */
  function DifficultyOf(cfg: ExamConfig, pick: nat -> nat, geradas: nat): Value
  {
    if cfg.dificuldade == Str("mista") then Str(Dificuldades[pick(geradas) % |Dificuldades|]) else cfg.dificuldade
  }

  /** The parameters of question `i` of type `t`, requested `geradas`-th overall. */
  function ExamRequest(cfg: ExamConfig, pick: nat -> nat, t: nat, i: nat, geradas: nat): Record
    requires t < |QuestionTypes|
  {
    map["tema" := TopicAt(cfg.topicos, i), "tipo_questao" := Str(QuestionTypes[t]),
        "disciplina" := cfg.disciplina, "serie" := cfg.serie, "dificuldade" := DifficultyOf(cfg, pick, geradas)]
  }

  /** The requests of type `t`, given that `start` requests came before; none for a quantity of zero or less. */
  function TypeRequests(cfg: ExamConfig, pick: nat -> nat, t: nat, start: nat): (rs: seq<Record>)
    requires t < |QuestionTypes|
    ensures |rs| == Max(0, Quantity(cfg, t))
  {
    seq(Max(0, Quantity(cfg, t)), i requires 0 <= i < Max(0, Quantity(cfg, t)) => ExamRequest(cfg, pick, t, i, start + i))
  }

  /** The requests of the first `t` types, in type order. */
  function PlanUpTo(cfg: ExamConfig, pick: nat -> nat, t: nat): seq<Record>
    requires t <= |QuestionTypes|
  {
    if t == 0 then [] else
      var before := PlanUpTo(cfg, pick, t - 1);
      before + TypeRequests(cfg, pick, t - 1, |before|)
  }

  function ExamPlan(cfg: ExamConfig, pick: nat -> nat): seq<Record>
  {
    PlanUpTo(cfg, pick, |QuestionTypes|)
  }

  datatype Exam = Exam(titulo: Value, disciplina: Value, serie: Value, topicos: seq<Value>, dificuldade: Value,
                       questoes: seq<Value>, dataGeracao: string)

  /**
   * `gerarProvaCompleta`: for each type in order, skipping quantity zero,
   * requests its questions with round-robin topics; the `geradas`-th request
   * is answered by `generate(geradas, params)`, and the first failure aborts
   * the exam with its message.
   */
  /**
   * One pass of the outer loop of `gerarProvaCompleta`: the questions of type
   * `t`, each answering its request of the plan, appended to those generated
   * so far; the first failure stops the exam with its message.
   */
  method GenerateBlock(cfg: ExamConfig, pick: nat -> nat, generate: (nat, Record) -> Result<Value>, t: nat,
                       sofar: seq<Value>) returns (r: Result<seq<Value>>)
    requires t < |QuestionTypes|
    requires |sofar| == Offset(cfg, t) && Answered(generate, ExamPlan(cfg, pick), sofar)
    ensures r.Ok? ==> |r.value| == Offset(cfg, t + 1) && Answered(generate, ExamPlan(cfg, pick), r.value)
    ensures var plan := ExamPlan(cfg, pick);
      r.Err? ==> exists j :: 0 <= j < |plan| && generate(j, plan[j]) == Err(r.error) && Succeeded(generate, plan, j)
  {
    ghost var plan := ExamPlan(cfg, pick);
    PlanLength(cfg, pick, |QuestionTypes|);
    if t + 1 < |QuestionTypes| {
      OffsetGrows(cfg, t + 1, |QuestionTypes|);
    }
    var questoes := sofar;
    var geradas := |sofar|;
    var qtd := Quantity(cfg, t);
    if qtd == 0 {
      return Ok(questoes);
    }
    var topicoPorQuestao := DistribuirTopicos(cfg.topicos, qtd);
    var i := 0;
    while i < qtd
      invariant 0 <= i <= Max(0, qtd)
      invariant geradas == |sofar| + i == |questoes| <= |plan|
      invariant Answered(generate, plan, questoes)
      decreases qtd - i
    {
      var params := map["tema" := topicoPorQuestao[i], "tipo_questao" := Str(QuestionTypes[t]),
                        "disciplina" := cfg.disciplina, "serie" := cfg.serie, "dificuldade" := DifficultyOf(cfg, pick, geradas)];
      PlanEntry(cfg, pick, |QuestionTypes|, t, geradas);
      assert params == ExamRequest(cfg, pick, t, i, geradas) == plan[geradas];
      var questao := generate(geradas, params);
      if questao.Err? {
        AnsweredSucceeded(generate, plan, questoes);
        return Err(questao.error);
      }
      AnsweredSnoc(generate, plan, questoes);
      questoes := questoes + [questao.value];
      geradas := geradas + 1;
      i := i + 1;
    }
    return Ok(questoes);
  }

  method GerarProvaCompleta(cfg: ExamConfig, pick: nat -> nat, generate: (nat, Record) -> Result<Value>, now: string)
    returns (r: Result<Exam>)
    ensures r.Ok? ==> |r.value.questoes| == |ExamPlan(cfg, pick)| && Answered(generate, ExamPlan(cfg, pick), r.value.questoes)
    ensures var plan := ExamPlan(cfg, pick);
      r.Err? ==> exists j :: 0 <= j < |plan| && generate(j, plan[j]) == Err(r.error) && Succeeded(generate, plan, j)
  {
    ghost var plan := ExamPlan(cfg, pick);
    PlanLength(cfg, pick, |QuestionTypes|);
    var questoes: seq<Value> := [];
    var t := 0;
    while t < |QuestionTypes|
      invariant 0 <= t <= |QuestionTypes|
      invariant Offset(cfg, t) == |questoes| <= |plan|
      invariant Answered(generate, plan, questoes)
    {
      var block := GenerateBlock(cfg, pick, generate, t, questoes);
      if block.Err? {
        return Err(block.error);
      }
      questoes := block.value;
      t := t + 1;
    }
    return Ok(Exam(cfg.titulo, cfg.disciplina, cfg.serie, cfg.topicos, cfg.dificuldade, questoes, now));
  }

  /** `questoes` holds, in order, the questions the first `|questoes|` requests of the plan got. */
  ghost predicate Answered(generate: (nat, Record) -> Result<Value>, plan: seq<Record>, questoes: seq<Value>)
  {
    |questoes| <= |plan| &&
    forall j :: 0 <= j < |questoes| ==> generate(j, plan[j]).Ok? && questoes[j] == generate(j, plan[j]).value
  }

  lemma AnsweredSnoc(generate: (nat, Record) -> Result<Value>, plan: seq<Record>, questoes: seq<Value>)
    requires Answered(generate, plan, questoes) && |questoes| < |plan|
    requires generate(|questoes|, plan[|questoes|]).Ok?
    ensures Answered(generate, plan, questoes + [generate(|questoes|, plan[|questoes|]).value])
  {
  }

  lemma AnsweredSucceeded(generate: (nat, Record) -> Result<Value>, plan: seq<Record>, questoes: seq<Value>)
    requires Answered(generate, plan, questoes)
    ensures Succeeded(generate, plan, |questoes|)
  {
  }

  /** Every request before the `j`-th got its question. */
  ghost predicate Succeeded(generate: (nat, Record) -> Result<Value>, plan: seq<Record>, j: nat)
    requires j <= |plan|
  {
    forall k :: 0 <= k < j ==> generate(k, plan[k]).Ok?
  }

  /** First index of type `t`'s block in the plan: the earlier quantities, those below zero counting as none. */
  function Offset(cfg: ExamConfig, t: nat): nat
    requires t <= |QuestionTypes|
  {
    if t == 0 then 0 else Offset(cfg, t - 1) + Max(0, Quantity(cfg, t - 1))
  }

  /** Type `u`'s block ends before any later type's block starts. */
  lemma {:induction false} OffsetGrows(cfg: ExamConfig, u: nat, t: nat)
    requires u < t <= |QuestionTypes|
    ensures Offset(cfg, u) + Max(0, Quantity(cfg, u)) <= Offset(cfg, t)
  {
    if u < t - 1 {
      OffsetGrows(cfg, u, t - 1);
    }
  }

  lemma {:induction false} PlanLength(cfg: ExamConfig, pick: nat -> nat, t: nat)
    requires t <= |QuestionTypes|
    ensures |PlanUpTo(cfg, pick, t)| == Offset(cfg, t)
  {
    if t > 0 {
      PlanLength(cfg, pick, t - 1);
    }
  }

  /**
   * The plan lists the types in order, each as one block of its quantity
   * (none for zero or less): entry `j` of type `u`'s block is its question
   * `j - Offset(u)`, on topic `j - Offset(u)` round-robin, requested `j`-th.
   */
  lemma {:induction false} PlanEntry(cfg: ExamConfig, pick: nat -> nat, t: nat, u: nat, j: nat)
    requires u < t <= |QuestionTypes|
    requires Offset(cfg, u) <= j < Offset(cfg, u) + Max(0, Quantity(cfg, u))
    ensures j < |PlanUpTo(cfg, pick, t)|
    ensures PlanUpTo(cfg, pick, t)[j] == ExamRequest(cfg, pick, u, j - Offset(cfg, u), j)
  {
    if u < t - 1 {
      PlanEntry(cfg, pick, t - 1, u, j);
      OffsetGrows(cfg, u, t - 1);
      PlanPrefix(cfg, pick, t, j);
    } else {
      PlanEntryLast(cfg, pick, t, j);
    }
  }

  /** Adding a type's block keeps the earlier requests where they were. */
  lemma PlanPrefix(cfg: ExamConfig, pick: nat -> nat, t: nat, j: nat)
    requires 0 < t <= |QuestionTypes| && j < |PlanUpTo(cfg, pick, t - 1)|
    ensures j < |PlanUpTo(cfg, pick, t)| && PlanUpTo(cfg, pick, t)[j] == PlanUpTo(cfg, pick, t - 1)[j]
  {
  }

  /** The requests of the last type added sit right after the earlier ones. */
  lemma PlanEntryLast(cfg: ExamConfig, pick: nat -> nat, t: nat, j: nat)
    requires 0 < t <= |QuestionTypes|
    requires Offset(cfg, t - 1) <= j < Offset(cfg, t - 1) + Max(0, Quantity(cfg, t - 1))
    ensures j < |PlanUpTo(cfg, pick, t)|
    ensures PlanUpTo(cfg, pick, t)[j] == ExamRequest(cfg, pick, t - 1, j - Offset(cfg, t - 1), j)
  {
    PlanLength(cfg, pick, t - 1);
    var before := PlanUpTo(cfg, pick, t - 1);
    var start := Offset(cfg, t - 1);
    assert |before| == start;
    var i := j - start;
    TypeRequestsAt(cfg, pick, t - 1, start, i);
    assert start + i == j;
    var block := TypeRequests(cfg, pick, t - 1, start);
    assert PlanUpTo(cfg, pick, t) == before + block;
    assert (before + block)[j] == block[i];
  }

  /** The i-th request of a type's block is its i-th question, numbered from the block's start. */
  lemma TypeRequestsAt(cfg: ExamConfig, pick: nat -> nat, t: nat, start: nat, i: nat)
    requires t < |QuestionTypes| && i < Max(0, Quantity(cfg, t))
    ensures TypeRequests(cfg, pick, t, start)[i] == ExamRequest(cfg, pick, t, i, start + i)
  {
  }

  /** With no negative quantity, the exam has `totalQuestoes` questions. */
  lemma {:induction false} PlanSize(cfg: ExamConfig, pick: nat -> nat)
    requires cfg.qtdMultipla >= 0 && cfg.qtdDiscursiva >= 0 && cfg.qtdVF >= 0 && cfg.qtdAssoc >= 0
    ensures |ExamPlan(cfg, pick)| == TotalQuestoes(cfg)
  {
    PlanLength(cfg, pick, |QuestionTypes|);
    assert |QuestionTypes| == 4;
    assert Offset(cfg, 1) == cfg.qtdMultipla;
    assert Offset(cfg, 2) == cfg.qtdMultipla + cfg.qtdDiscursiva;
    assert Offset(cfg, 3) == cfg.qtdMultipla + cfg.qtdDiscursiva + cfg.qtdVF;
  }

  // ===== renderQuestion =====

  /** The type labels of `renderQuestion`'s own table. */
  function TypeLabel(tipo: Value): string
  {
    if tipo == Str("multipla_escolha") then "Múltipla Escolha"
    else if tipo == Str("discursiva") then "Discursiva"
    else if tipo == Str("verdadeiro_falso") then "Verdadeiro/Falso"
    else if tipo == Str("associacao") then "Associação"
    else "Tipo Desconhecido"
  }

  /** What `renderQuestion` shows, reduced to its decisions: an error fragment, or the card's label and the class of each alternative. */
  datatype Rendered = Invalid(html: string) | Card(tipoLabel: string, alternativeClasses: seq<string>)

  /** `alt.letra`: undefined unless the alternative is an object. */
  function Letra(alt: Value): Value
  {
    if alt.Obj? then Get(alt.fields, "letra") else Undefined
  }

  /** The class of each listed alternative: "correta" when its letter is the answer key, strictly equal. */
  function AlternativeClasses(data: Value): (cs: seq<string>)
    requires data.Obj?
  {
    var alts := Get(data.fields, "alternativas");
    if Get(data.fields, "tipo_questao") == Str("multipla_escolha") && alts.Arr? then
      seq(|alts.items|, i requires 0 <= i < |alts.items| =>
        if Letra(alts.items[i]) == Get(data.fields, "gabarito") then "correta" else "")
    else []
  }

  function RenderQuestion(data: Value, index: nat): Rendered
  {
    if !Truthy(data) || !data.Obj? || !Truthy(Get(data.fields, "enunciado")) then
      Invalid("<div class=\"error active\">❌ Questão " + NatToString(index + 1) + " inválida - formato não reconhecido</div>")
    else Card(TypeLabel(Get(data.fields, "tipo_questao")), AlternativeClasses(data))
  }

  /**
   * A missing question or statement gives the error fragment; otherwise, in
   * a multiple-choice question, exactly the alternatives whose letter equals
   * the answer key are marked "correta".
   */
  lemma RenderGuards(data: Value, index: nat)
    ensures RenderQuestion(data, index).Invalid? <==> !Truthy(data) || !data.Obj? || !Truthy(Get(data.fields, "enunciado"))
    ensures var r := RenderQuestion(data, index);
      r.Card? && Get(data.fields, "tipo_questao") == Str("multipla_escolha") && Get(data.fields, "alternativas").Arr? ==>
      var alts := Get(data.fields, "alternativas").items;
      |r.alternativeClasses| == |alts| &&
      forall i :: 0 <= i < |alts| ==>
        (r.alternativeClasses[i] == "correta" <==> Letra(alts[i]) == Get(data.fields, "gabarito"))
  {
  }
}
