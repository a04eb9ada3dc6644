/**
 * What the two library pages, `BibliotecaProfessor`
 * (`newnerd-interface/js/biblioteca-professor.js`) and `BibliotecaAluno`
 * (`aluno-interface/js/biblioteca-aluno.js`), share: the upload queue items,
 * the storage name sanitiser, the per-item status machine, the payload sent
 * for embeddings, the type filter, the title search and the hybrid search
 * merge. Where the two pages differ, a `Side` says which one runs.
 */
module Library {
  import opened Wrappers
  import opened Js
  import opened Text
  import opened Seqs
  import FileBiblioteca

  datatype Side = Professor | Student

  // ===== the upload queue =====

  /** A picked file: name, size in bytes, browser MIME type, and what the extractors can read from it. */
  datatype FileInfo = FileInfo(name: string, size: int, mimeType: string, content: Option<string>, docx: Option<string>)

  /** The file as `FileProcessor.tryExtractText` sees it. */
  function Input(f: FileInfo): FileBiblioteca.FileInput
  {
    FileBiblioteca.FileInput(f.name, f.mimeType, f.content, f.docx)
  }

  datatype QueueItem = QueueItem(file: FileInfo, status: string)

  const Pendente: string := "pendente"
  const Uploading: string := "uploading"
  const Processing: string := "processing"
  const Ready: string := "ready"
  const Failed: string := "error"

  /** One pending item per picked file, in order. */
  function NewItems(files: seq<FileInfo>): (r: seq<QueueItem>)
    ensures |r| == |files|
    ensures forall i :: 0 <= i < |r| ==> r[i] == QueueItem(files[i], Pendente)
  {
    if files == [] then [] else NewItems(files[..|files| - 1]) + [QueueItem(files[|files| - 1], Pendente)]
  }

  predicate IsPending(item: QueueItem) { item.status == Pendente }

  /** `fileQueue.filter((i) => i.status === "pendente")`. */
  function PendingOf(queue: seq<QueueItem>): seq<QueueItem>
  {
    Filter(queue, IsPending)
  }

  /** A queue that has just been filled holds nothing but pending items, so all of it is uploaded. */
  lemma {:induction false} NewItemsPending(queue: seq<QueueItem>, files: seq<FileInfo>)
    ensures PendingOf(queue + NewItems(files)) == PendingOf(queue) + NewItems(files)
  {
    FilterAppend(queue, NewItems(files), IsPending);
    FilterKeepsAll(NewItems(files), IsPending);
  }

  // ===== storage name =====

  /** The characters `[\w.\-() ]` the storage name keeps (`\w` is ASCII letters, digits and "_"). */
  predicate NameChar(c: char)
  {
    ('a' <= c <= 'z') || ('A' <= c <= 'Z') || ('0' <= c <= '9') || c == '_' || c == '.' || c == '-' ||
    c == '(' || c == ')' || c == ' '
  }

  predicate Clean(s: string)
  {
    forall i :: 0 <= i < |s| ==> NameChar(s[i])
  }

  /** What follows the run of rejected characters that starts `s`. */
  function SkipRun(s: string): (r: string)
    ensures |r| <= |s| && r == s[|s| - |r|..]
    ensures r == [] || NameChar(r[0])
  {
    if s == [] || NameChar(s[0]) then s else SkipRun(s[1..])
  }

  /** `name.replace(/[^\w.\-() ]+/g, "_")`: every run of rejected characters becomes one "_". */
  function Sanitize(s: string): (r: string)
    ensures |r| <= |s|
    decreases |s|
  {
    if s == [] then []
    else if NameChar(s[0]) then [s[0]] + Sanitize(s[1..])
    else "_" + Sanitize(SkipRun(s[1..]))
  }

  /** The clean name holds only accepted characters. */
  lemma {:induction false} SanitizeIsClean(s: string)
    ensures Clean(Sanitize(s))
    decreases |s|
  {
    if s != [] {
      var tail := if NameChar(s[0]) then s[1..] else SkipRun(s[1..]);
      var head := if NameChar(s[0]) then [s[0]] else "_";
      SanitizeIsClean(tail);
      assert Sanitize(s) == head + Sanitize(tail);
      assert NameChar(head[0]);
    }
  }

  /** An accepted first character is kept. */
  lemma SanitizeKeep(s: string)
    requires s != [] && NameChar(s[0])
    ensures Sanitize(s) == [s[0]] + Sanitize(s[1..])
  {
  }

  /** A rejected first character starts a run that becomes one "_". */
  lemma SanitizeDrop(s: string)
    requires s != [] && !NameChar(s[0])
    ensures Sanitize(s) == "_" + Sanitize(SkipRun(s[1..]))
  {
  }

  /** A clean prefix is kept as it is. */
  lemma {:induction false} SanitizeCleanPrefix(p: string, t: string)
    requires Clean(p)
    ensures Sanitize(p + t) == p + Sanitize(t)
  {
    if p == [] {
      assert p + t == t;
    } else {
      var rest := p[1..];
      assert Clean(rest) by {
        forall i | 0 <= i < |rest|
          ensures NameChar(rest[i])
        {
          assert rest[i] == p[i + 1];
        }
      }
      var pt := p + t;
      assert pt[0] == p[0] && pt[1..] == rest + t;
      assert NameChar(p[0]);
      SanitizeKeep(pt);
      SanitizeCleanPrefix(rest, t);
      assert p == [p[0]] + rest;
      assert [p[0]] + (rest + Sanitize(t)) == p + Sanitize(t);
    }
  }

  lemma {:induction false} SkipRunAll(run: string, t: string)
    requires forall i :: 0 <= i < |run| ==> !NameChar(run[i])
    requires t == [] || NameChar(t[0])
    ensures SkipRun(run + t) == t
  {
    if run != [] {
      assert (run + t)[1..] == run[1..] + t;
      SkipRunAll(run[1..], t);
    }
  }

  /** A whole run of rejected characters, however long, becomes a single "_". */
  lemma {:induction false} SanitizeRun(run: string, t: string)
    requires run != [] && forall i :: 0 <= i < |run| ==> !NameChar(run[i])
    requires t == [] || NameChar(t[0])
    ensures Sanitize(run + t) == "_" + Sanitize(t)
  {
    var rest := run[1..];
    var rt := run + t;
    assert rt[0] == run[0] && rt[1..] == rest + t;
    SanitizeDrop(rt);
    assert SkipRun(rest + t) == t by {
      assert forall i :: 0 <= i < |rest| ==> rest[i] == run[i + 1];
      SkipRunAll(rest, t);
    }
  }

  /** A name is left alone exactly when it is already clean; so sanitising twice changes nothing more. */
  lemma {:induction false} SanitizeFixes(s: string)
    ensures Sanitize(s) == s <==> Clean(s)
    ensures Sanitize(Sanitize(s)) == Sanitize(s)
  {
    if Clean(s) {
      SanitizeCleanPrefix(s, []);
      assert s + [] == s;
    }
    SanitizeIsClean(s);
    SanitizeCleanPrefix(Sanitize(s), []);
    assert Sanitize(s) + [] == Sanitize(s);
  }

  /** `${ownerId}/${Date.now()}_${cleanName}`. */
  function StoragePath(owner: Value, now: int, name: string): string
  {
    ToStr(owner) + "/" + IntToString(now) + "_" + Sanitize(name)
  }

  lemma {:induction false} DigitsNoSlash(now: int)
    ensures '/' !in IntToString(now)
  {
    IntToStringChars(now);
    forall i | 0 <= i < |IntToString(now)|
      ensures IntToString(now)[i] != '/'
    {
    }
  }

  lemma {:induction false} CleanNoSlash(name: string)
    ensures '/' !in Sanitize(name)
  {
    var c := Sanitize(name);
    SanitizeIsClean(name);
    forall i | 0 <= i < |c|
      ensures c[i] != '/'
    {
      assert NameChar(c[i]);
    }
  }

  /** The timestamped clean name has no slash. */
  lemma {:induction false} StampedNameNoSlash(now: int, name: string)
    ensures '/' !in IntToString(now) + "_" + Sanitize(name)
  {
    DigitsNoSlash(now);
    CleanNoSlash(name);
    assert '/' !in IntToString(now) + "_";
  }

  /** The path is the owner's folder, and its last segment is the timestamped clean name. */
  lemma {:induction false} StoragePathShape(owner: Value, now: int, name: string)
    ensures StartsWith(StoragePath(owner, now, name), ToStr(owner) + "/")
    ensures FileBiblioteca.Basename(StoragePath(owner, now, name)) == IntToString(now) + "_" + Sanitize(name)
  {
    var dir := ToStr(owner);
    var tail := IntToString(now) + "_" + Sanitize(name);
    var path := StoragePath(owner, now, name);
    assert path == dir + "/" + tail by {
      AppendAssoc(dir + "/", IntToString(now), "_");
      AppendAssoc(dir + "/", IntToString(now) + "_", Sanitize(name));
    }
    assert path[..|dir + "/"|] == dir + "/";
    StampedNameNoSlash(now, name);
    FileBiblioteca.BasenameOfPath(dir, tail);
  }

  // ===== sendEmbeddings =====

  const MaxEmbedChars: nat := 30000

  /** `textToSend`: nothing for a ".pdf" path or an empty extraction, else at most the first 30000 characters. */
  function TextToSend(path: string, extracted: Option<string>): (r: Option<string>)
    ensures r.Some? <==> !EndsWith(Lower(path), ".pdf") && extracted.Some? && extracted.value != ""
    ensures r.Some? ==> |r.value| <= MaxEmbedChars && r.value <= extracted.value
    ensures r.Some? && |extracted.value| <= MaxEmbedChars ==> r.value == extracted.value
  {
    if !EndsWith(Lower(path), ".pdf") && extracted.Some? && extracted.value != "" then
      Some(Take(extracted.value, MaxEmbedChars))
    else None
  }

  /** The body given to the "embed" function: `record.name`, `record.owner`, the student flag and `text`. */
  datatype EmbedCall = EmbedCall(name: string, owner: Value, isStudent: bool, text: Option<string>)

  // ===== uploadOne =====

  /** What the storage and database answered for one file. */
  datatype Outcome =
    | StorageFailed
    | InsertFailed
    | Stored(readyUpdateThrows: bool)

  /** The storage path, the statuses the item takes in order, and the embeddings call, if one is made. */
  datatype Upload = Upload(path: string, statuses: seq<string>, embed: Option<EmbedCall>)

  function UploadOne(side: Side, owner: Value, now: int, file: FileInfo, outcome: Outcome): Upload
  {
    var path := StoragePath(owner, now, file.name);
    match outcome
    case StorageFailed => Upload(path, [Uploading, Failed], None)
    case InsertFailed => Upload(path, [Uploading, Failed], None)
    case Stored(throws) =>
      var extracted := FileBiblioteca.ExtractModules(Input(file));
      var skip := extracted == Some(FileBiblioteca.SkipAi);
      var call := if skip then None else Some(EmbedCall(path, owner, side.Student?, TextToSend(path, extracted)));
      var middle := if skip && side.Professor? then [] else [Processing];
      var last := if throws && side.Professor? then Failed else Ready;
      Upload(path, [Uploading] + middle + [last], call)
  }

  /** Item `i` uploaded at time `now(i)` with answer `outcome(i)`. */
  function UploadStep(side: Side, owner: Value, now: nat -> int, outcome: nat -> Outcome): (nat, QueueItem) -> Upload
  {
    (i: nat, item: QueueItem) => UploadOne(side, owner, now(i), item.file, outcome(i))
  }

  /** `for (const item of pendentes) await this.uploadOne(item)`: the items in order, the i-th at time `now(i)` with answer `outcome(i)`. */
  function UploadEach(side: Side, owner: Value, now: nat -> int, outcome: nat -> Outcome, items: seq<QueueItem>): seq<Upload>
  {
    MapIndexed(items, UploadStep(side, owner, now, outcome))
  }

  /** The i-th upload is the i-th item's, at time `now(i)` with answer `outcome(i)`, and there is one per item. */
  lemma {:induction false} UploadEachAt(side: Side, owner: Value, now: nat -> int, outcome: nat -> Outcome, items: seq<QueueItem>, j: nat)
    requires j < |items|
    ensures |UploadEach(side, owner, now, outcome, items)| == |items|
    ensures UploadEach(side, owner, now, outcome, items)[j] == UploadOne(side, owner, now(j), items[j].file, outcome(j))
  {
    MapIndexedAt(items, UploadStep(side, owner, now, outcome), j);
  }

  /** The loop of `uploadAll`: each item uploaded in turn, the i-th at time `now(i)` with answer `outcome(i)`. */
  method UploadInTurn(side: Side, owner: Value, now: nat -> int, outcome: nat -> Outcome, items: seq<QueueItem>)
    returns (uploads: seq<Upload>)
    ensures uploads == UploadEach(side, owner, now, outcome, items)
  {
    var step := UploadStep(side, owner, now, outcome);
    uploads := [];
    var i := 0;
    while i < |items|
      invariant 0 <= i <= |items|
      invariant uploads == MapIndexed(items[..i], step)
    {
      MapIndexedSnoc(items, step, i);
      uploads := uploads + [UploadOne(side, owner, now(i), items[i].file, outcome(i))];
      i := i + 1;
    }
    assert items[..|items|] == items;
  }

  /** The moves the status machine allows. */
  predicate Step(a: string, b: string)
  {
    (a == Uploading && (b == Processing || b == Ready || b == Failed)) ||
    (a == Processing && (b == Ready || b == Failed))
  }

  /**
   * Every upload starts "uploading", moves only forward and ends "ready" or
   * "error". It fails exactly when storage or the insert fails or, on the
   * teacher's page only, when the final status update throws. It passes
   * through "processing" exactly when the file is not marked to skip the AI
   * or, on the student's page, always after a successful insert.
   */
  lemma StatusMachine(side: Side, owner: Value, now: int, file: FileInfo, outcome: Outcome)
    ensures var u := UploadOne(side, owner, now, file, outcome);
      2 <= |u.statuses| <= 3 && u.statuses[0] == Uploading &&
      (forall i :: 0 <= i < |u.statuses| - 1 ==> Step(u.statuses[i], u.statuses[i + 1])) &&
      (u.statuses[|u.statuses| - 1] == Failed <==>
        !outcome.Stored? || (side.Professor? && outcome.readyUpdateThrows)) &&
      (u.statuses[|u.statuses| - 1] == Ready <==>
        outcome.Stored? && (side.Student? || !outcome.readyUpdateThrows)) &&
      (Processing in u.statuses <==>
        outcome.Stored? && (side.Student? || FileBiblioteca.ExtractModules(Input(file)) != Some(FileBiblioteca.SkipAi)))
  {
  }

  /**
   * The embeddings call is made after a successful insert unless the file is
   * marked to skip the AI; it names the storage path and carries at most
   * 30000 characters, none for a PDF.
   */
  lemma EmbedCallShape(side: Side, owner: Value, now: int, file: FileInfo, outcome: Outcome)
    ensures var u := UploadOne(side, owner, now, file, outcome);
      (u.embed.Some? <==> outcome.Stored? && FileBiblioteca.ExtractModules(Input(file)) != Some(FileBiblioteca.SkipAi)) &&
      (u.embed.Some? ==>
        (u.embed.value.name == u.path && u.embed.value.owner == owner &&
         u.embed.value.isStudent == side.Student? &&
         (u.embed.value.text.Some? ==> |u.embed.value.text.value| <= MaxEmbedChars) &&
         (EndsWith(Lower(u.path), ".pdf") ==> u.embed.value.text.None?)))
  {
  }

  // ===== applyTypeFilter =====

  const TypeMatchers: map<string, seq<string>> := map[
    "pdf" := [".pdf", "application/pdf"],
    "docx" := [".doc", ".docx", "word"],
    "txt" := [".txt", "text/plain", ".md"],
    "csv" := [".csv"],
    "json" := [".json"],
    "zip" := [".zip", ".rar"],
    "audio" := [".mp3", "audio/"],
    "video" := [".mp4", "video/"]]

  /** `map[type] || [type]`. */
  function Matchers(t: string): (ms: seq<string>)
    ensures t !in TypeMatchers ==> ms == [t]
  {
    if t in TypeMatchers then TypeMatchers[t] else [t]
  }

  /** `(d.nome_original || d.titulo || "").toLowerCase()`. */
  function DocName(d: Record): string
  {
    Lower(ToStr(Or(Or(Get(d, "nome_original"), Get(d, "titulo")), Str(""))))
  }

  /** `(d.tipo_arquivo || "").toLowerCase()`. */
  function DocMime(d: Record): string
  {
    Lower(ToStr(Or(Get(d, "tipo_arquivo"), Str(""))))
  }

  predicate MatchesAny(d: Record, ms: seq<string>)
  {
    exists m :: m in ms && (EndsWith(DocName(d), m) || Contains(DocMime(d), m))
  }

  /** The documents some matcher of the type accepts, as a suffix of the name or a part of the MIME type. */
  function FilterByType(docs: seq<Record>, t: string): (r: seq<Record>)
    ensures forall i :: 0 <= i < |r| ==> r[i] in docs && MatchesAny(r[i], Matchers(t))
    ensures forall i :: 0 <= i < |docs| && MatchesAny(docs[i], Matchers(t)) ==> docs[i] in r
  {
    Filter(docs, d => MatchesAny(d, Matchers(t)))
  }

  /** A type without an entry matches on itself; a file named "*.pdf" always passes the "pdf" tab. */
  lemma {:induction false} TypeFilterCases(docs: seq<Record>, t: string, d: Record)
    requires d in docs
    ensures t !in TypeMatchers ==> (d in FilterByType(docs, t) <==> EndsWith(DocName(d), t) || Contains(DocMime(d), t))
    ensures EndsWith(DocName(d), ".pdf") ==> d in FilterByType(docs, "pdf")
  {
    if t !in TypeMatchers && (EndsWith(DocName(d), t) || Contains(DocMime(d), t)) {
      assert t in Matchers(t);
    }
    if EndsWith(DocName(d), ".pdf") {
      assert ".pdf" in Matchers("pdf");
    }
  }

  // ===== handleSearch =====

  /** `(d.titulo || "").toLowerCase().includes(q)` with `q` the lower-cased query. */
  predicate TitleHas(d: Record, q: string)
  {
    Contains(Lower(ToStr(Or(Get(d, "titulo"), Str("")))), Lower(q))
  }

  function TitleSearch(docs: seq<Record>, q: string): (r: seq<Record>)
    ensures forall i :: 0 <= i < |r| ==> r[i] in docs && TitleHas(r[i], q)
    ensures forall i :: 0 <= i < |docs| && TitleHas(docs[i], q) ==> docs[i] in r
  {
    Filter(docs, d => TitleHas(d, q))
  }

  /** The empty query is part of every title, so it keeps the whole list. */
  lemma {:induction false} EmptySearchKeepsAll(docs: seq<Record>)
    ensures TitleSearch(docs, "") == docs
  {
    forall d: Record
      ensures TitleHas(d, "")
    {
      assert "" <= Lower(ToStr(Or(Get(d, "titulo"), Str(""))))[0..];
    }
    FilterKeepsAll(docs, d => TitleHas(d, ""));
  }

  // ===== performSemanticSearch =====

  /** A row of the "semantic-search" answer and its `similarity`, when it is a number. */
  datatype AiResult = AiResult(doc: Record, similarity: Option<real>)

  /** One entry of the merge map: its key, the document and `score_final`. */
  datatype Hit = Hit(key: Value, doc: Record, score: real)

  const Threshold: real := 0.45
  const KeywordScore: real := 1.0

  /** `{...r, titulo: r.metadata?.titulo || "Doc IA", chunk_texto: r.content || ""}`. */
  function AiDoc(r: Record): Record
  {
    var m := Get(r, "metadata");
    var t := if m.Obj? then Get(m.fields, "titulo") else Undefined;
    r["titulo" := Or(t, Str("Doc IA"))]["chunk_texto" := Or(Get(r, "content"), Str(""))]
  }

  function AiKey(r: Record): Value
  {
    Or(Get(r, "id"), Get(r, "caminho"))
  }

  /** The keyword row with `origem`, `chunk_texto` and `caminho` filled in; the student's rows link `caminho_arquivo`. */
  function KeywordDoc(side: Side, d: Record): Record
  {
    var path := if side.Professor? then Get(d, "caminho") else Get(d, "caminho_arquivo");
    d["origem" := Str("Título")]["chunk_texto" := Or(Get(d, "texto_extraido"), Str("Encontrado pelo título"))]["caminho" := path]
  }

  function KeywordKey(side: Side, d: Record): Value
  {
    Or(Get(d, "id"), if side.Professor? then Get(d, "caminho") else Get(d, "caminho_arquivo"))
  }

  /** Where key `k` sits in the map, or -1. */
  function IndexOf(m: seq<Hit>, k: Value): (i: int)
    ensures -1 <= i < |m|
    ensures i >= 0 ==> m[i].key == k
    ensures i < 0 ==> forall j :: 0 <= j < |m| ==> m[j].key != k
  {
    if m == [] then -1 else if m[|m| - 1].key == k then |m| - 1 else IndexOf(m[..|m| - 1], k)
  }

  /** `Map.prototype.set`: a new key goes last, an existing key keeps its place and takes the new entry. */
  function Put(m: seq<Hit>, h: Hit): seq<Hit>
  {
    var i := IndexOf(m, h.key);
    if i < 0 then m + [h] else m[i := h]
  }

  predicate UniqueKeys(m: seq<Hit>)
  {
    forall i, j :: 0 <= i < j < |m| ==> m[i].key != m[j].key
  }

  function Keys(m: seq<Hit>): set<Value>
  {
    set h | h in m :: h.key
  }

  predicate AllScoresAbove(m: seq<Hit>, t: real)
  {
    forall i :: 0 <= i < |m| ==> m[i].score >= t
  }

  /** Key `k` is in the map with score 1.0. */
  predicate Forced(m: seq<Hit>, k: Value)
  {
    exists j :: 0 <= j < |m| && m[j].key == k && m[j].score == KeywordScore
  }

  /** The AI rows at or above the threshold, put in order. */
  function MergeAi(ai: seq<AiResult>): seq<Hit>
  {
    if ai == [] then []
    else
      var m := MergeAi(ai[..|ai| - 1]);
      var r := ai[|ai| - 1];
      if r.similarity.Some? && r.similarity.value >= Threshold then Put(m, Hit(AiKey(r.doc), AiDoc(r.doc), r.similarity.value))
      else m
  }

  /** A keyword row forces the score of its key to 1.0, adding its own entry when the key is new. */
  function AddKeyword(side: Side, m: seq<Hit>, d: Record): seq<Hit>
  {
    var k := KeywordKey(side, d);
    var i := IndexOf(m, k);
    if i >= 0 then m[i := m[i].(score := KeywordScore)] else m + [Hit(k, KeywordDoc(side, d), KeywordScore)]
  }

  function MergeKeyword(side: Side, m: seq<Hit>, kw: seq<Record>): seq<Hit>
  {
    if kw == [] then m else AddKeyword(side, MergeKeyword(side, m, kw[..|kw| - 1]), kw[|kw| - 1])
  }

  lemma {:induction false} PutKeeps(m: seq<Hit>, h: Hit)
    requires UniqueKeys(m)
    ensures UniqueKeys(Put(m, h)) && Keys(Put(m, h)) == Keys(m) + {h.key}
    ensures AllScoresAbove(m, Threshold) && h.score >= Threshold ==> AllScoresAbove(Put(m, h), Threshold)
  {
    var i := IndexOf(m, h.key);
    var r := Put(m, h);
    if i >= 0 {
      forall v | v in Keys(m) + {h.key}
        ensures v in Keys(r)
      {
        if v != h.key {
          var g :| g in m && g.key == v;
          var j :| 0 <= j < |m| && m[j] == g;
          assert r[j] == g;
        } else {
          assert r[i] == h;
        }
      }
    } else {
      assert r[|m|] == h;
    }
  }

  lemma {:induction false} AddKeywordKeeps(side: Side, m: seq<Hit>, d: Record, k: Value)
    requires UniqueKeys(m)
    ensures var r := AddKeyword(side, m, d);
      UniqueKeys(r) && Keys(r) == Keys(m) + {KeywordKey(side, d)} && Forced(r, KeywordKey(side, d)) &&
      (Forced(m, k) ==> Forced(r, k)) &&
      (AllScoresAbove(m, Threshold) ==> AllScoresAbove(r, Threshold))
  {
    var key := KeywordKey(side, d);
    var i := IndexOf(m, key);
    var r := AddKeyword(side, m, d);
    if i >= 0 {
      assert r[i].key == key && r[i].score == KeywordScore;
      forall v | v in Keys(m)
        ensures v in Keys(r)
      {
        var g :| g in m && g.key == v;
        var j :| 0 <= j < |m| && m[j] == g;
        assert r[j].key == v;
      }
      if Forced(m, k) {
        var j :| 0 <= j < |m| && m[j].key == k && m[j].score == KeywordScore;
        assert r[j].key == k && r[j].score == KeywordScore;
      }
    } else {
      assert r[|m|].key == key && r[|m|].score == KeywordScore;
      if Forced(m, k) {
        var j :| 0 <= j < |m| && m[j].key == k && m[j].score == KeywordScore;
        assert r[j] == m[j];
      }
    }
  }

  /** `AiKey` of the AI rows that reach the threshold. */
  function StrongKeys(ai: seq<AiResult>): set<Value>
  {
    set r | r in ai && r.similarity.Some? && r.similarity.value >= Threshold :: AiKey(r.doc)
  }

  function KeywordKeys(side: Side, kw: seq<Record>): set<Value>
  {
    set d | d in kw :: KeywordKey(side, d)
  }

  lemma {:induction false} MergeAiFacts(ai: seq<AiResult>)
    ensures UniqueKeys(MergeAi(ai)) && AllScoresAbove(MergeAi(ai), Threshold) && Keys(MergeAi(ai)) == StrongKeys(ai)
  {
    if ai != [] {
      var init := ai[..|ai| - 1];
      var r := ai[|ai| - 1];
      MergeAiFacts(init);
      assert ai == init + [r];
      if r.similarity.Some? && r.similarity.value >= Threshold {
        PutKeeps(MergeAi(init), Hit(AiKey(r.doc), AiDoc(r.doc), r.similarity.value));
        assert StrongKeys(ai) == StrongKeys(init) + {AiKey(r.doc)};
      } else {
        assert StrongKeys(ai) == StrongKeys(init);
      }
    }
  }

  lemma {:induction false} KeywordKeysSnoc(side: Side, kw: seq<Record>)
    requires kw != []
    ensures KeywordKeys(side, kw) == KeywordKeys(side, kw[..|kw| - 1]) + {KeywordKey(side, kw[|kw| - 1])}
  {
    assert kw == kw[..|kw| - 1] + [kw[|kw| - 1]];
  }

  lemma {:induction false} MergeKeywordShape(side: Side, m: seq<Hit>, kw: seq<Record>)
    requires UniqueKeys(m) && AllScoresAbove(m, Threshold)
    ensures var r := MergeKeyword(side, m, kw);
      UniqueKeys(r) && AllScoresAbove(r, Threshold) && Keys(r) == Keys(m) + KeywordKeys(side, kw)
  {
    if kw != [] {
      var init := kw[..|kw| - 1];
      var d := kw[|kw| - 1];
      MergeKeywordShape(side, m, init);
      KeywordKeysSnoc(side, kw);
      AddKeywordKeeps(side, MergeKeyword(side, m, init), d, KeywordKey(side, d));
    }
  }

  lemma {:induction false} MergeKeywordForced(side: Side, m: seq<Hit>, kw: seq<Record>, d: Record)
    requires UniqueKeys(m) && AllScoresAbove(m, Threshold) && d in kw
    ensures Forced(MergeKeyword(side, m, kw), KeywordKey(side, d))
  {
    var init := kw[..|kw| - 1];
    var last := kw[|kw| - 1];
    assert kw == init + [last];
    MergeKeywordShape(side, m, init);
    if d != last {
      MergeKeywordForced(side, m, init, d);
    }
    AddKeywordKeeps(side, MergeKeyword(side, m, init), last, KeywordKey(side, d));
  }

  /** `InsertByScore` places `h` after every entry scoring at least as much: Array.sort's stable order for `b - a`. */
  function InsertByScore(t: seq<Hit>, h: Hit): seq<Hit>
  {
    if t == [] || t[|t| - 1].score >= h.score then t + [h] else InsertByScore(t[..|t| - 1], h) + [t[|t| - 1]]
  }

  /** `sort((a, b) => b.score_final - a.score_final)`. */
  function SortByScore(s: seq<Hit>): seq<Hit>
  {
    if s == [] then [] else InsertByScore(SortByScore(s[..|s| - 1]), s[|s| - 1])
  }

  predicate Descending(s: seq<Hit>)
  {
    forall i, j :: 0 <= i < j < |s| ==> s[i].score >= s[j].score
  }

  lemma DescendingSnoc(r: seq<Hit>, x: Hit)
    requires Descending(r) && forall i :: 0 <= i < |r| ==> r[i].score >= x.score
    ensures Descending(r + [x])
  {
  }

  /** Every entry of a multiset-equal list scores at least `b` when all entries of the parts do. */
  lemma {:induction false} ScoresFrom(r: seq<Hit>, init: seq<Hit>, h: Hit, b: real)
    requires multiset(r) == multiset(init) + multiset{h}
    requires h.score >= b && forall j :: 0 <= j < |init| ==> init[j].score >= b
    ensures forall i :: 0 <= i < |r| ==> r[i].score >= b
  {
    forall i | 0 <= i < |r|
      ensures r[i].score >= b
    {
      assert r[i] in multiset(r);
      if r[i] != h {
        assert r[i] in multiset(init);
        var j :| 0 <= j < |init| && init[j] == r[i];
      }
    }
  }

  lemma {:induction false} InsertByScoreSorted(t: seq<Hit>, h: Hit)
    requires Descending(t)
    ensures Descending(InsertByScore(t, h)) && multiset(InsertByScore(t, h)) == multiset(t) + multiset{h}
  {
    if t == [] || t[|t| - 1].score >= h.score {
      DescendingSnoc(t, h);
    } else {
      var init := t[..|t| - 1];
      var last := t[|t| - 1];
      assert t == init + [last];
      InsertByScoreSorted(init, h);
      var r := InsertByScore(init, h);
      ScoresFrom(r, init, h, last.score);
      DescendingSnoc(r, last);
    }
  }

  /** The sort returns the same entries, ordered by descending score. */
  lemma {:induction false} SortByScoreSorted(s: seq<Hit>)
    ensures Descending(SortByScore(s)) && multiset(SortByScore(s)) == multiset(s)
  {
    if s != [] {
      SortByScoreSorted(s[..|s| - 1]);
      InsertByScoreSorted(SortByScore(s[..|s| - 1]), s[|s| - 1]);
      assert s == s[..|s| - 1] + [s[|s| - 1]];
    }
  }

  /**
   * The merge of the hybrid search: the AI rows at or above 0.45 by
   * `id || caminho`, then the keyword rows, whose key is forced to score
   * 1.0, then the map's values sorted by descending score.
   */
  method MergeHits(side: Side, ai: seq<AiResult>, kw: seq<Record>) returns (finais: seq<Hit>)
    ensures finais == SortByScore(MergeKeyword(side, MergeAi(ai), kw))
  {
    var mapa: seq<Hit> := [];
    var i := 0;
    while i < |ai|
      invariant 0 <= i <= |ai|
      invariant mapa == MergeAi(ai[..i])
    {
      var r := ai[i];
      assert ai[..i + 1][..i] == ai[..i];
      if r.similarity.Some? && r.similarity.value >= Threshold {
        mapa := Put(mapa, Hit(AiKey(r.doc), AiDoc(r.doc), r.similarity.value));
      }
      i := i + 1;
    }
    assert ai[..|ai|] == ai;
    var base := mapa;
    var j := 0;
    while j < |kw|
      invariant 0 <= j <= |kw|
      invariant mapa == MergeKeyword(side, base, kw[..j])
    {
      var d := kw[j];
      assert kw[..j + 1][..j] == kw[..j];
      var k := KeywordKey(side, d);
      var at := IndexOf(mapa, k);
      if at >= 0 {
        mapa := mapa[at := mapa[at].(score := KeywordScore)];
      } else {
        mapa := mapa + [Hit(k, KeywordDoc(side, d), KeywordScore)];
      }
      j := j + 1;
    }
    assert kw[..|kw|] == kw;
    finais := SortByScore(mapa);
  }

  /**
   * What the merge guarantees: no key twice, every entry at or above the
   * threshold, exactly the keys of the strong AI rows and of the keyword rows,
   * every keyword key at score 1.0, and the list in descending score order.
   */
  lemma {:induction false} MergeMeaning(side: Side, ai: seq<AiResult>, kw: seq<Record>)
    ensures var merged := MergeKeyword(side, MergeAi(ai), kw);
      var finais := SortByScore(merged);
      UniqueKeys(merged) && Keys(merged) == StrongKeys(ai) + KeywordKeys(side, kw) &&
      multiset(finais) == multiset(merged) && Descending(finais) &&
      (forall i :: 0 <= i < |finais| ==> finais[i].score >= Threshold) &&
      (forall d :: d in kw ==> Forced(merged, KeywordKey(side, d)))
  {
    MergeAiFacts(ai);
    MergeKeywordShape(side, MergeAi(ai), kw);
    var merged := MergeKeyword(side, MergeAi(ai), kw);
    forall d | d in kw
      ensures Forced(merged, KeywordKey(side, d))
    {
      MergeKeywordForced(side, MergeAi(ai), kw, d);
    }
    SortByScoreSorted(merged);
    forall i | 0 <= i < |SortByScore(merged)|
      ensures SortByScore(merged)[i].score >= Threshold
    {
      var h := SortByScore(merged)[i];
      assert h in multiset(merged);
      var j :| 0 <= j < |merged| && merged[j] == h;
    }
  }

  /** What the search shows: nothing for a blank query, the "Nada encontrado" state, or the merged hits. */
  datatype SearchOutcome = NoQuery | NothingFound | Found(hits: seq<Hit>)

  /** `performSemanticSearch`: the keyword and AI answers for the trimmed query are parameters. */
  method SemanticSearch(side: Side, input: string, ai: seq<AiResult>, kw: seq<Record>) returns (r: SearchOutcome)
    ensures r.NoQuery? <==> Trim(input) == ""
    ensures r.NothingFound? <==> Trim(input) != "" && MergeKeyword(side, MergeAi(ai), kw) == []
    ensures r.Found? ==> r.hits == SortByScore(MergeKeyword(side, MergeAi(ai), kw)) && r.hits != []
  {
    var q := Trim(input);
    if q == "" {
      return NoQuery;
    }
    var finais := MergeHits(side, ai, kw);
    SortByScoreSorted(MergeKeyword(side, MergeAi(ai), kw));
    if |finais| == 0 {
      return NothingFound;
    }
    return Found(finais);
  }
}
