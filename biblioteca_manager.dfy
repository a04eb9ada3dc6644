/**
 * The student library's older manager (`BibliotecaManager`): a deduplicating
 * upload queue, uploads run side by side, local chunking of the text sent to
 * the embedding service, and its own list rendering, type filter, title
 * search and totals. The signed-in user's id is fixed when the page starts.
 */
module BibliotecaManagerPage {
  import opened Wrappers
  import opened Js
  import opened Text
  import opened Seqs
  import Library

  type FileInfo = Library.FileInfo
  type QueueItem = Library.QueueItem

  // ===== addFilesToQueue =====

  /** Two files are the same when name and size are. */
  predicate SameFile(a: FileInfo, b: FileInfo)
  {
    a.name == b.name && a.size == b.size
  }

  predicate InQueue(queue: seq<QueueItem>, f: FileInfo)
  {
    exists i :: 0 <= i < |queue| && SameFile(queue[i].file, f)
  }

  /** `doc.metadata?.size`. */
  function MetaSize(doc: Record): Value
  {
    var m := Get(doc, "metadata");
    if m.Obj? then Get(m.fields, "size") else Undefined
  }

  /** A stored document whose `titulo` is the file's name and whose `metadata.size` is its size. */
  predicate InLibrary(docs: seq<Record>, f: FileInfo)
  {
    exists i :: 0 <= i < |docs| && Get(docs[i], "titulo") == Str(f.name) && MetaSize(docs[i]) == Num(f.size)
  }

  /**
   * The queue after offering `files` one by one: a file already in the queue
   * (also one offered earlier in the same batch) or already in the library
   * is skipped, any other is appended as pending.
   */
  function Admit(queue: seq<QueueItem>, docs: seq<Record>, files: seq<FileInfo>): (r: seq<QueueItem>)
    ensures queue <= r && |r| <= |queue| + |files|
  {
    if files == [] then queue
    else
      var prev := Admit(queue, docs, files[..|files| - 1]);
      var f := files[|files| - 1];
      if InQueue(prev, f) || InLibrary(docs, f) then prev else prev + [Library.QueueItem(f, Library.Pendente)]
  }

  /** No two items of the queue hold the same name and size. */
  predicate NoDuplicates(queue: seq<QueueItem>)
  {
    forall i, j :: 0 <= i < j < |queue| ==> !SameFile(queue[i].file, queue[j].file)
  }

  lemma {:induction false} AdmitSnoc(queue: seq<QueueItem>, docs: seq<Record>, files: seq<FileInfo>, f: FileInfo)
    ensures Admit(queue, docs, files + [f]) ==
      var prev := Admit(queue, docs, files);
      if InQueue(prev, f) || InLibrary(docs, f) then prev else prev + [Library.QueueItem(f, Library.Pendente)]
  {
    assert (files + [f])[..|files + [f]| - 1] == files;
  }

  /**
   * Admitting keeps the queue free of duplicates, and every added item is a
   * pending copy of an offered file that the library does not hold.
   */
  lemma {:induction false} AdmitAdds(queue: seq<QueueItem>, docs: seq<Record>, files: seq<FileInfo>)
    requires NoDuplicates(queue)
    ensures var r := Admit(queue, docs, files);
      NoDuplicates(r) &&
      forall i :: |queue| <= i < |r| ==>
        r[i].status == Library.Pendente && r[i].file in files && !InLibrary(docs, r[i].file)
    decreases |files|
  {
    if files != [] {
      var init := files[..|files| - 1];
      var f := files[|files| - 1];
      AdmitAdds(queue, docs, init);
      AdmitSnoc(queue, docs, init, f);
      assert init + [f] == files;
    }
  }

  /** Every offered file ends up in the queue unless the library holds it. */
  lemma {:induction false} AdmitCovers(queue: seq<QueueItem>, docs: seq<Record>, files: seq<FileInfo>)
    ensures var r := Admit(queue, docs, files);
      forall k :: 0 <= k < |files| ==> InQueue(r, files[k]) || InLibrary(docs, files[k])
    decreases |files|
  {
    if files != [] {
      var init := files[..|files| - 1];
      var f := files[|files| - 1];
      AdmitCovers(queue, docs, init);
      AdmitSnoc(queue, docs, init, f);
      assert init + [f] == files;
      var prev := Admit(queue, docs, init);
      var r := Admit(queue, docs, files);
      forall k | 0 <= k < |files|
        ensures InQueue(r, files[k]) || InLibrary(docs, files[k])
      {
        if k < |files| - 1 {
          assert files[k] == init[k];
          if InQueue(prev, files[k]) {
            var j :| 0 <= j < |prev| && SameFile(prev[j].file, files[k]);
            assert r[j] == prev[j];
          }
        } else if !InQueue(prev, f) && !InLibrary(docs, f) {
          assert SameFile(r[|prev|].file, files[k]);
        }
      }
    }
  }

  // ===== getStatusClass =====

  const StatusClasses: map<string, string> := map[
    "pendente" := "status-pending",
    "enviando..." := "status-uploading",
    "processando..." := "status-processing",
    "sucesso" := "status-success",
    "erro" := "status-error"]

  function StatusClass(status: string): string
  {
    if status in StatusClasses then StatusClasses[status] else "status-pending"
  }

  const Enviando: string := "enviando..."
  const Gerando: string := "gerando embeddings..."
  const Sucesso: string := "sucesso"
  const Erro: string := "erro"

  /**
   * Any status shows one of the five classes; an unknown status, and in
   * particular the "gerando embeddings..." that uploads do pass through,
   * shows as pending.
   */
  lemma {:induction false} StatusClassCases(status: string)
    ensures StatusClass(status) in StatusClasses.Values
    ensures status !in StatusClasses ==> StatusClass(status) == "status-pending"
    ensures StatusClass(Gerando) == "status-pending" && StatusClass(Erro) == "status-error"
    ensures StatusClass(status) == "status-success" <==> status == Sucesso
  {
    assert StatusClasses["pendente"] == "status-pending";
  }

  // ===== uploadFile =====

  /** What the storage and the insert answered. */
  datatype Answer = StorageError | DbError | NoRows | Inserted(docId: Value)

  /** One upload: the storage path, the statuses the item showed, and the body sent to the embedding service. */
  datatype Sent = Sent(path: string, statuses: seq<string>, embed: Option<Value>)

  /**
   * `uploadFile`: `text` is what `file.text()` resolved to and `embedOk`
   * whether the embedding call went through: `fetch` resolved, the answer
   * was 2xx and `res.json()` read its body. A storage error, an insert
   * error, an insert returning no row, or a failed embedding call ends in
   * "erro"; blank text skips the call and succeeds.
   */
  function UploadFile(userId: Value, now: int, file: FileInfo, answer: Answer, text: string, embedOk: bool): Sent
  {
    var path := Library.StoragePath(userId, now, file.name);
    match answer
    case Inserted(docId) =>
      var body := EmbedBody(userId, docId, file.name, text);
      var last := if body.None? || embedOk then Sucesso else Erro;
      Sent(path, [Enviando, Gerando, last], body)
    case _ => Sent(path, [Enviando, Erro], None)
  }

  /**
   * Every upload starts "enviando...", ends in "sucesso" or "erro", and
   * reaches "gerando embeddings..." exactly when the row was inserted; it
   * succeeds exactly when the row was inserted and the call, if any, went
   * through.
   */
  lemma UploadFileStatuses(userId: Value, now: int, file: FileInfo, answer: Answer, text: string, embedOk: bool)
    ensures var s := UploadFile(userId, now, file, answer, text, embedOk).statuses;
      |s| >= 2 && s[0] == Enviando && (s[|s| - 1] == Sucesso || s[|s| - 1] == Erro) &&
      (Gerando in s <==> answer.Inserted?) &&
      (s[|s| - 1] == Sucesso <==> answer.Inserted? && (IsBlankText(text) || embedOk))
  {
  }

  // ===== gerarEmbeddingsDocumento =====

  const MaxCharsPerChunk: nat := 28000

  /** How many slices a text of this length makes. */
  function ChunkCount(t: string): nat
  {
    (|t| + MaxCharsPerChunk - 1) / MaxCharsPerChunk
  }

  /** `texto.substring(k * 28000, k * 28000 + 28000)`. */
  function Slice(t: string, k: nat): string
    requires k < ChunkCount(t)
  {
    t[k * MaxCharsPerChunk..Min(k * MaxCharsPerChunk + MaxCharsPerChunk, |t|)]
  }

  /** The consecutive 28000-character slices of the text. */
  function Chunks(t: string): (r: seq<string>)
    ensures |r| == ChunkCount(t)
  {
    seq(ChunkCount(t), k requires 0 <= k < ChunkCount(t) => Slice(t, k))
  }

  lemma ChunkCountAbove(t: string, c: nat)
    requires c * MaxCharsPerChunk < |t|
    ensures c < ChunkCount(t)
  {
  }

  /** The chunking loop. */
  method ChunkText(texto: string) returns (chunks: seq<string>)
    ensures chunks == Chunks(texto)
  {
    chunks := [];
    var i := 0;
    while i < |texto|
      invariant i == |chunks| * MaxCharsPerChunk
      invariant i < |texto| + MaxCharsPerChunk
      invariant |texto| == 0 ==> i == 0
      invariant forall k :: 0 <= k < |chunks| ==> k < ChunkCount(texto) && chunks[k] == Slice(texto, k)
    {
      ChunkCountAbove(texto, |chunks|);
      chunks := chunks + [texto[i..Min(i + MaxCharsPerChunk, |texto|)]];
      i := i + MaxCharsPerChunk;
    }
    ModUnique(|texto| + MaxCharsPerChunk - 1, MaxCharsPerChunk, |chunks|, |texto| + MaxCharsPerChunk - 1 - i);
    assert (|texto| + MaxCharsPerChunk - 1) / MaxCharsPerChunk == |chunks|;
  }

  lemma {:induction false} ConcatChunksPrefix(t: string, k: nat)
    requires k <= ChunkCount(t)
    ensures Concat(Chunks(t)[..k]) == t[..Min(k * MaxCharsPerChunk, |t|)]
  {
    if k > 0 {
      ConcatChunksPrefix(t, k - 1);
      ConcatSnoc(Chunks(t), k - 1);
      assert t[..Min((k - 1) * MaxCharsPerChunk, |t|)] + Slice(t, k - 1) == t[..Min(k * MaxCharsPerChunk, |t|)];
    }
  }

  /**
   * The slices put back together give the text; every slice but the last
   * has exactly 28000 characters, and none is empty.
   */
  lemma {:induction false} ChunksRebuild(t: string)
    ensures Concat(Chunks(t)) == t
    ensures forall k :: 0 <= k < |Chunks(t)| ==> 0 < |Chunks(t)[k]| <= MaxCharsPerChunk
    ensures forall k :: 0 <= k < |Chunks(t)| - 1 ==> |Chunks(t)[k]| == MaxCharsPerChunk
  {
    var n := ChunkCount(t);
    ConcatChunksPrefix(t, n);
    assert Chunks(t)[..n] == Chunks(t);
    assert n * MaxCharsPerChunk >= |t|;
  }

  /** `!texto || texto.trim().length === 0`. */
  predicate IsBlankText(t: string)
  {
    Trim(t) == ""
  }

  const Origem: string := "aluno_biblioteca"

  /** The body's entry for chunk `k` of `n`. */
  function ChunkEntry(c: string, k: nat, n: nat, name: string, docId: Value, userId: Value): Value
  {
    Obj(map["texto" := Str(c),
            "metadata" := Obj(map["titulo" := Str(name), "documento_id" := docId, "aluno_id" := userId,
                                  "chunk_numero" := Num(k + 1), "total_chunks" := Num(n)])])
  }

  function Entries(chunks: seq<string>, name: string, docId: Value, userId: Value): (r: seq<Value>)
    ensures |r| == |chunks|
  {
    seq(|chunks|, k requires 0 <= k < |chunks| => ChunkEntry(chunks[k], k, |chunks|, name, docId, userId))
  }

  /** The body sent to the embedding service: none for blank text. The student's id goes as `professor_id`. */
  function EmbedBody(userId: Value, docId: Value, name: string, text: string): Option<Value>
  {
    if IsBlankText(text) then None
    else Some(Obj(map["professor_id" := userId, "origem" := Str(Origem), "origem_id" := docId,
                      "chunks" := Arr(Entries(Chunks(text), name, docId, userId))]))
  }

  /** `gerarEmbeddingsDocumento` up to the request it sends. */
  method GerarEmbeddings(userId: Value, docId: Value, name: string, texto: string) returns (body: Option<Value>)
    ensures body == EmbedBody(userId, docId, name, texto)
  {
    if IsBlankText(texto) {
      return None;
    }
    var chunks := ChunkText(texto);
    body := Some(Obj(map["professor_id" := userId, "origem" := Str(Origem), "origem_id" := docId,
                         "chunks" := Arr(Entries(chunks, name, docId, userId))]));
  }

  /** `texto` of entry `k`. */
  function EntryText(e: Value): string
  {
    if e.Obj? then ToStr(Get(e.fields, "texto")) else ""
  }

  /** The `metadata` of a body entry. */
  function EntryMeta(e: Value): Record
  {
    if e.Obj? && Get(e.fields, "metadata").Obj? then Get(e.fields, "metadata").fields else map[]
  }

  /** The `chunks` array of a body. */
  function BodyChunks(body: Value): seq<Value>
  {
    if body.Obj? && Get(body.fields, "chunks").Arr? then Get(body.fields, "chunks").items else []
  }

  lemma EntryAt(chunks: seq<string>, name: string, docId: Value, userId: Value, k: nat)
    requires k < |chunks|
    ensures var e := Entries(chunks, name, docId, userId)[k];
      EntryText(e) == chunks[k] && Get(EntryMeta(e), "chunk_numero") == Num(k + 1) &&
      Get(EntryMeta(e), "total_chunks") == Num(|chunks|) && Get(EntryMeta(e), "documento_id") == docId &&
      Get(EntryMeta(e), "titulo") == Str(name)
  {
  }

  /**
   * Blank text sends nothing. Otherwise the chunks are numbered 1 to n, each
   * carries n as its total, and their texts put back together give the text.
   */
  lemma {:induction false} EmbedBodyChunks(userId: Value, docId: Value, name: string, text: string)
    ensures EmbedBody(userId, docId, name, text).None? <==> IsBlankText(text)
    ensures EmbedBody(userId, docId, name, text).Some? ==>
      var items := BodyChunks(EmbedBody(userId, docId, name, text).value);
      |items| == ChunkCount(text) && |items| > 0 &&
      (forall k :: 0 <= k < |items| ==>
         EntryText(items[k]) == Chunks(text)[k] && Get(EntryMeta(items[k]), "chunk_numero") == Num(k + 1) &&
         Get(EntryMeta(items[k]), "total_chunks") == Num(|items|))
    ensures EmbedBody(userId, docId, name, text).Some? ==> Concat(Chunks(text)) == text
  {
    ChunksRebuild(text);
    var body := EmbedBody(userId, docId, name, text);
    if body.Some? {
      var cs := Chunks(text);
      assert text != "";
      assert BodyChunks(body.value) == Entries(cs, name, docId, userId);
      forall k | 0 <= k < |cs|
        ensures EntryText(Entries(cs, name, docId, userId)[k]) == cs[k]
        ensures Get(EntryMeta(Entries(cs, name, docId, userId)[k]), "chunk_numero") == Num(k + 1)
        ensures Get(EntryMeta(Entries(cs, name, docId, userId)[k]), "total_chunks") == Num(|cs|)
      {
        EntryAt(cs, name, docId, userId, k);
      }
    }
  }

  // ===== displayDocuments, getFileIcon =====

  /** `getFileIcon`: the first of these tests the lower-cased MIME type passes picks the icon. */
  function FileIcon(mimeType: Value): (icon: string)
  {
    var mime := Lower(ToStr(Or(mimeType, Str(""))));
    if Contains(mime, "pdf") then "📄"
    else if Contains(mime, "word") || Contains(mime, "docx") then "📝"
    else if Contains(mime, "text") then "📃"
    else if Contains(mime, "csv") then "📊"
    else if Contains(mime, "json") then "🔧"
    else if Contains(mime, "audio") then "🎵"
    else if Contains(mime, "video") then "🎥"
    else if Contains(mime, "zip") then "📦"
    else "📄"
  }

  /**
   * The text test comes before csv and json, so the csv icon needs a type
   * without "text" ("text/csv" shows the text icon); the text icon goes to
   * every type with "text" that is not a PDF or Word type.
   */
  lemma FileIconOrder(mimeType: Value)
    ensures var mime := Lower(ToStr(Or(mimeType, Str(""))));
      (FileIcon(mimeType) == "📊" ==> Contains(mime, "csv") && !Contains(mime, "text")) &&
      (FileIcon(mimeType) == "📃" <==> Contains(mime, "text") && !Contains(mime, "pdf") &&
                                       !Contains(mime, "word") && !Contains(mime, "docx"))
  {
  }

  /** A card as `displayDocuments` draws it; the title is written without escaping. */
  datatype DocCard = DocCard(icon: string, title: string, processing: bool, viewEnabled: bool)

  datatype Shown = Unchanged | EmptyLibrary | Cards(cards: seq<DocCard>)

  function CardOf(doc: Record): DocCard
  {
    var processing := Get(doc, "status") == Str("processing");
    DocCard(FileIcon(Get(doc, "tipo_arquivo")), ToStr(Or(Get(doc, "titulo"), Str("(sem título)"))), processing, !processing)
  }

  /** `displayDocuments(docs)`: nothing without the grid, the empty state for no documents, else one card each. */
  function Display(docs: seq<Record>, grid: bool): (v: Shown)
    ensures !grid <==> v.Unchanged?
    ensures v.EmptyLibrary? <==> grid && docs == []
    ensures v.Cards? ==> |v.cards| == |docs|
    ensures v.Cards? ==> forall i :: 0 <= i < |docs| ==> (v.cards[i].viewEnabled <==> Get(docs[i], "status") != Str("processing"))
    ensures v.Cards? ==> forall i :: 0 <= i < |docs| ==> v.cards[i] == CardOf(docs[i])
  {
    if !grid then Unchanged
    else if docs == [] then EmptyLibrary
    else Cards(seq(|docs|, i requires 0 <= i < |docs| => CardOf(docs[i])))
  }

  // ===== applyTypeFilter =====

  /** Whether a document of this lower-cased MIME type passes the filter for `t`; an unknown type lets everything through. */
  predicate TypeMatches(t: string, mime: string)
  {
    if t == "pdf" then Contains(mime, "pdf")
    else if t == "docx" then Contains(mime, "word") || Contains(mime, "docx")
    else if t == "txt" then Contains(mime, "text/plain")
    else if t == "csv" then Contains(mime, "csv")
    else if t == "json" then Contains(mime, "json")
    else if t == "audio" then StartsWith(mime, "audio/")
    else if t == "video" then StartsWith(mime, "video/")
    else true
  }

  function DocMime(doc: Record): string
  {
    Lower(ToStr(Or(Get(doc, "tipo_arquivo"), Str(""))))
  }

  const KnownTypes: set<string> := {"pdf", "docx", "txt", "csv", "json", "audio", "video"}

  /** The documents shown for the type tab `t` (`None` for a tab without `data-type`). */
  function TypeFiltered(docs: seq<Record>, t: Option<string>): (r: seq<Record>)
    ensures |r| <= |docs|
    ensures forall i :: 0 <= i < |r| ==> r[i] in docs
  {
    if t.None? || t.value == "" || t.value == "all" then docs
    else Filter(docs, d => TypeMatches(t.value, DocMime(d)))
  }

  /**
   * "all" and an unknown type show every document; a known type shows
   * exactly the documents whose MIME type passes its test: "txt" asks for
   * "text/plain", audio and video for the prefix.
   */
  lemma {:induction false} TypeFilterCases(docs: seq<Record>, t: string)
    ensures t == "all" || t !in KnownTypes ==> TypeFiltered(docs, Some(t)) == docs
    ensures t in KnownTypes ==>
      (forall i :: 0 <= i < |docs| && TypeMatches(t, DocMime(docs[i])) ==> docs[i] in TypeFiltered(docs, Some(t))) &&
      (forall i :: 0 <= i < |TypeFiltered(docs, Some(t))| ==> TypeMatches(t, DocMime(TypeFiltered(docs, Some(t))[i])))
    ensures t == "audio" ==> forall i :: 0 <= i < |TypeFiltered(docs, Some(t))| ==>
      StartsWith(DocMime(TypeFiltered(docs, Some(t))[i]), "audio/")
  {
    if t != "all" && t != "" && t !in KnownTypes {
      FilterKeepsAll(docs, d => TypeMatches(t, DocMime(d)));
    }
  }

  // ===== handleSearch =====

  /** The documents `handleSearch` shows: all of them for a blank query, else the title matches. */
  function Searched(docs: seq<Record>, query: string): seq<Record>
  {
    if IsBlankText(query) then docs else Library.TitleSearch(docs, query)
  }

  /**
   * A blank query shows every document; any other shows exactly those whose
   * lower-cased title contains the lower-cased query, untrimmed.
   */
  lemma SearchedCases(docs: seq<Record>, query: string)
    ensures IsBlankText(query) ==> Searched(docs, query) == docs
    ensures !IsBlankText(query) ==>
      (forall i :: 0 <= i < |docs| && Library.TitleHas(docs[i], query) ==> docs[i] in Searched(docs, query)) &&
      (forall i :: 0 <= i < |Searched(docs, query)| ==>
         Library.TitleHas(Searched(docs, query)[i], query) && Searched(docs, query)[i] in docs)
  {
  }

  // ===== updateStats =====

  /** `doc.metadata?.size || 0`, for a numeric or missing size. */
  function SizeOf(doc: Record): int
  {
    var s := MetaSize(doc);
    if s.Num? then s.n else 0
  }

  function TotalSize(docs: seq<Record>): int
  {
    if docs == [] then 0 else TotalSize(docs[..|docs| - 1]) + SizeOf(docs[|docs| - 1])
  }

  /** The total splits over a concatenation, and documents without a size add nothing. */
  lemma {:induction false} TotalSizeAppend(a: seq<Record>, b: seq<Record>)
    ensures TotalSize(a + b) == TotalSize(a) + TotalSize(b)
    decreases |b|
  {
    if b == [] {
      assert a + b == a;
    } else {
      assert (a + b)[..|a + b| - 1] == a + b[..|b| - 1];
      TotalSizeAppend(a, b[..|b| - 1]);
    }
  }

  lemma {:induction false} TotalSizeUnsized(docs: seq<Record>)
    requires forall i :: 0 <= i < |docs| ==> !MetaSize(docs[i]).Num?
    ensures TotalSize(docs) == 0
  {
    if docs != [] {
      TotalSizeUnsized(docs[..|docs| - 1]);
    }
  }

  lemma {:induction false} TotalSizeNonNegative(docs: seq<Record>)
    requires forall i :: 0 <= i < |docs| ==> SizeOf(docs[i]) >= 0
    ensures TotalSize(docs) >= 0
  {
    if docs != [] {
      TotalSizeNonNegative(docs[..|docs| - 1]);
    }
  }

  /** `loadDocuments`' answer: an error, or the rows (`None` for `null`). */
  datatype Load = LoadError | Loaded(data: Option<seq<Record>>)

  /** The two numbers `updateStats` writes. */
  datatype Totals = Totals(totalDocs: nat, totalSize: int)

  class BibliotecaManager {
    var userId: Value
    var documents: seq<Record>
    var fileQueue: seq<QueueItem>

    /** The manager starts once a user is signed in; `init` sends anyone else to the login page. */
    constructor(user: Value)
      ensures userId == user && documents == [] && fileQueue == []
    {
      userId := user;
      documents := [];
      fileQueue := [];
    }

    /** `updateStats`: the number of documents and the sum of their sizes. */
    function Stats(): (s: Totals)
      reads this
      ensures s.totalDocs == |documents|
    {
      Totals(|documents|, TotalSize(documents))
    }

    /** `addFilesToQueue`: admits the files one by one and counts the ones added. */
    method AddFilesToQueue(files: seq<FileInfo>) returns (added: nat)
      modifies this
      ensures fileQueue == Admit(old(fileQueue), documents, files)
      ensures |fileQueue| == |old(fileQueue)| + added
      ensures documents == old(documents) && userId == old(userId)
    {
      added := 0;
      var i := 0;
      while i < |files|
        invariant 0 <= i <= |files|
        invariant fileQueue == Admit(old(fileQueue), documents, files[..i])
        invariant |fileQueue| == |old(fileQueue)| + added
        invariant documents == old(documents) && userId == old(userId)
      {
        var file := files[i];
        assert files[..i + 1] == files[..i] + [file];
        AdmitSnoc(old(fileQueue), documents, files[..i], file);
        var jaNaFileQueue := InQueue(fileQueue, file);
        var jaNaBiblioteca := InLibrary(documents, file);
        if !jaNaFileQueue && !jaNaBiblioteca {
          fileQueue := fileQueue + [Library.QueueItem(file, Library.Pendente)];
          added := added + 1;
        }
        i := i + 1;
      }
      assert files[..|files|] == files;
    }

    /** `loadDocuments`: an error leaves the list as it was; otherwise the rows (or none) become the list. */
    method LoadDocuments(answer: Load, grid: bool) returns (shown: Shown)
      modifies this
      ensures answer.LoadError? ==> documents == old(documents) && shown.Unchanged?
      ensures answer.Loaded? ==> documents == answer.data.GetOr([]) && shown == Display(documents, grid)
      ensures fileQueue == old(fileQueue) && userId == old(userId)
    {
      if answer.LoadError? {
        return Unchanged;
      }
      documents := answer.data.GetOr([]);
      shown := Display(documents, grid);
    }

    /**
     * `uploadAllFiles`: with no pending item nothing changes; otherwise every
     * pending item is uploaded at once, the queue is emptied and the list
     * reloaded. Item `k` uploads at time `now(k)` with the answers given for `k`.
     */
    method UploadAllFiles(now: nat -> int, answers: nat -> Answer, texts: nat -> string, embedOk: nat -> bool,
                          reload: Load, grid: bool)
      returns (sent: seq<Sent>)
      modifies this
      ensures Library.PendingOf(old(fileQueue)) == [] ==>
        fileQueue == old(fileQueue) && documents == old(documents) && sent == []
      ensures Library.PendingOf(old(fileQueue)) != [] ==>
        fileQueue == [] &&
        sent == UploadAllAtOnce(userId, now, answers, texts, embedOk, Library.PendingOf(old(fileQueue))) &&
        documents == (if reload.Loaded? then reload.data.GetOr([]) else old(documents))
      ensures userId == old(userId)
    {
      var pendingFiles := Library.PendingOf(fileQueue);
      if |pendingFiles| == 0 {
        return [];
      }
      sent := UploadAllAtOnce(userId, now, answers, texts, embedOk, pendingFiles);
      fileQueue := [];
      var _ := LoadDocuments(reload, grid);
    }

    method ApplyTypeFilter(t: Option<string>, grid: bool) returns (shown: Shown)
      ensures shown == Display(TypeFiltered(documents, t), grid)
    {
      shown := Display(TypeFiltered(documents, t), grid);
    }

    method HandleSearch(query: string, grid: bool) returns (shown: Shown)
      ensures shown == Display(Searched(documents, query), grid)
    {
      shown := Display(Searched(documents, query), grid);
    }
  }

  /** `Promise.all(pendingFiles.map(uploadFile))`: each item's upload, side by side. */
  function UploadAllAtOnce(userId: Value, now: nat -> int, answers: nat -> Answer, texts: nat -> string,
                           embedOk: nat -> bool, pending: seq<QueueItem>): (r: seq<Sent>)
    ensures |r| == |pending|
    ensures forall k :: 0 <= k < |pending| ==>
      r[k] == UploadFile(userId, now(k), pending[k].file, answers(k), texts(k), embedOk(k))
  {
    seq(|pending|, k requires 0 <= k < |pending| => UploadFile(userId, now(k), pending[k].file, answers(k), texts(k), embedOk(k)))
  }
}
