/**
 * The "process-file" edge function: given a document id, its table and its
 * storage bucket, it reads the document's row, downloads the file, keeps
 * its first 8000 characters with white space collapsed, and either marks a
 * near-empty document as done or stores the text with its embedding from
 * the embedding service. The database, storage and embedding answers are
 * parameters.
 */
module ProcessFileFunction {
  import opened Wrappers
  import opened Js
  import opened Text
  import opened EdgeHttp

  const MaxChars: nat := 8000
  const MinChars: nat := 10
  const ProfessorTable: string := "arquivos_professor"
  const Ready: string := "ready"

  // ===== cleanText =====

  /** `replace(/\s+/g, " ")`: every run of white space becomes one space. */
  function Collapse(s: string): (r: string)
    ensures |r| <= |s|
    decreases |s|
  {
    if s == [] then []
    else if IsSpace(s[0]) then [' '] + Collapse(TrimStart(s[1..]))
    else [s[0]] + Collapse(s[1..])
  }

  /** The characters of `s` that are not white space, in order. */
  function Visible(s: string): string
  {
    if s == [] then [] else (if IsSpace(s[0]) then [] else [s[0]]) + Visible(s[1..])
  }

  /** White space in `s` is only single plain spaces. */
  predicate SingleSpaced(s: string)
  {
    (forall i :: 0 <= i < |s| && IsSpace(s[i]) ==> s[i] == ' ') &&
    (forall i :: 0 <= i < |s| - 1 ==> !(IsSpace(s[i]) && IsSpace(s[i + 1])))
  }

  lemma {:induction false} VisibleAppend(a: string, b: string)
    ensures Visible(a + b) == Visible(a) + Visible(b)
  {
    if a != [] {
      assert (a + b)[1..] == a[1..] + b;
      VisibleAppend(a[1..], b);
    } else {
      assert a + b == b;
    }
  }

  /** Leading white space carries no visible character. */
  lemma {:induction false} VisibleSkipsSpace(s: string, k: nat)
    requires k <= |s| && forall i :: 0 <= i < k ==> IsSpace(s[i])
    ensures Visible(s[k..]) == Visible(s)
  {
    if k > 0 {
      assert s[1..][k - 1..] == s[k..];
      VisibleSkipsSpace(s[1..], k - 1);
    }
  }

  /** Nothing but white space is visible as nothing. */
  lemma {:induction false} VisibleOfSpace(s: string)
    requires forall i :: 0 <= i < |s| ==> IsSpace(s[i])
    ensures Visible(s) == []
  {
    if s != [] {
      VisibleOfSpace(s[1..]);
    }
  }

  /** `TrimStart` drops only leading white space. */
  lemma {:induction false} TrimStartDropsSpace(s: string)
    ensures forall i :: 0 <= i < |s| - |TrimStart(s)| ==> IsSpace(s[i])
    decreases |s|
  {
    if s != [] && IsSpace(s[0]) {
      TrimStartDropsSpace(s[1..]);
    }
  }

  /** `TrimEnd` drops only trailing white space. */
  lemma {:induction false} TrimEndDropsSpace(s: string)
    ensures forall i :: |TrimEnd(s)| <= i < |s| ==> IsSpace(s[i])
    decreases |s|
  {
    if s != [] && IsSpace(s[|s| - 1]) {
      TrimEndDropsSpace(s[..|s| - 1]);
    }
  }

  /** Collapsing starts with a space exactly when the text does. */
  lemma CollapseStart(s: string)
    ensures (Collapse(s) != [] && IsSpace(Collapse(s)[0])) <==> (s != [] && IsSpace(s[0]))
  {
  }

  /** Collapsing keeps every visible character, in order. */
  lemma {:induction false} CollapseVisible(s: string)
    ensures Visible(Collapse(s)) == Visible(s)
    decreases |s|
  {
    if s != [] {
      assert s == [s[0]] + s[1..];
      VisibleAppend([s[0]], s[1..]);
      if IsSpace(s[0]) {
        var rest := TrimStart(s[1..]);
        CollapseVisible(rest);
        TrimStartDropsSpace(s[1..]);
        VisibleSkipsSpace(s[1..], |s[1..]| - |rest|);
        VisibleAppend([' '], Collapse(rest));
      } else {
        CollapseVisible(s[1..]);
        VisibleAppend([s[0]], Collapse(s[1..]));
      }
    }
  }

  /** Collapsing leaves only single plain spaces. */
  lemma {:induction false} CollapseSingle(s: string)
    ensures SingleSpaced(Collapse(s))
    decreases |s|
  {
    if s != [] {
      var tail := if IsSpace(s[0]) then TrimStart(s[1..]) else s[1..];
      var c := if IsSpace(s[0]) then ' ' else s[0];
      CollapseSingle(tail);
      CollapseStart(tail);
      assert Collapse(s) == [c] + Collapse(tail);
      SingleSpacedCons(c, Collapse(tail));
    }
  }

  /** A character put in front of a single-spaced text keeps it single-spaced when it is not a second space. */
  lemma SingleSpacedCons(c: char, t: string)
    requires SingleSpaced(t)
    requires IsSpace(c) ==> c == ' ' && (t == [] || !IsSpace(t[0]))
    ensures SingleSpaced([c] + t)
  {
    var r := [c] + t;
    assert forall i :: 1 <= i < |r| ==> r[i] == t[i - 1];
  }

  /** A piece of a single-spaced text is single-spaced. */
  lemma {:induction false} SingleSpacedSlice(x: string, a: nat, b: nat)
    requires SingleSpaced(x) && a <= b <= |x|
    ensures SingleSpaced(x[a..b])
  {
    var y := x[a..b];
    assert forall i :: 0 <= i < |y| ==> y[i] == x[a + i];
  }

  /** `trim` cuts white space off both ends: it is the piece `x[k..k + |Trim(x)|]` with white space around it. */
  lemma {:induction false} TrimIsSlice(x: string) returns (k: nat)
    ensures k + |Trim(x)| <= |x| && Trim(x) == x[k..k + |Trim(x)|]
    ensures forall i :: 0 <= i < k ==> IsSpace(x[i])
    ensures forall i :: k + |Trim(x)| <= i < |x| ==> IsSpace(x[i])
  {
    var s := TrimStart(x);
    k := |x| - |s|;
    assert s == x[k..];
    assert forall i :: 0 <= i < k ==> IsSpace(x[i]) by {
      TrimStartDropsSpace(x);
    }
    var t := TrimEnd(s);
    assert t == s[..|t|] && Trim(x) == t;
    assert forall i :: k + |t| <= i < |x| ==> IsSpace(x[i]) by {
      TrimEndDropsSpace(s);
      forall i | k + |t| <= i < |x|
        ensures IsSpace(x[i])
      {
        assert x[i] == s[i - k];
      }
    }
  }

  /** Trimming keeps every visible character. */
  lemma {:induction false} TrimVisible(x: string)
    ensures Visible(Trim(x)) == Visible(x)
  {
    var k := TrimIsSlice(x);
    var c := Trim(x);
    var e := k + |c|;
    var pre, post := x[..k], x[e..];
    assert x == pre + c + post by { SliceThree(x, k, e); }
    VisibleAppend(pre + c, post);
    VisibleAppend(pre, c);
    assert Visible(pre) == [] by { VisibleOfSpace(pre); }
    assert Visible(post) == [] by { VisibleOfSpace(post); }
  }

  /** A text is its three slices put back together. */
  lemma SliceThree(x: string, k: nat, e: nat)
    requires k <= e <= |x|
    ensures x == x[..k] + x[k..e] + x[e..]
  {
  }

  /** `textContent.slice(0, 8000).replace(/\s+/g, " ").trim()`. */
  function CleanText(t: string): string
  {
    Trim(Collapse(Take(t, MaxChars)))
  }

  /**
   * The cleaned text is at most 8000 characters, has no white space at
   * either end, holds white space only as single spaces, and keeps every
   * visible character of the first 8000 in order.
   */
  lemma {:induction false} CleanTextFacts(t: string)
    ensures var c := CleanText(t);
      |c| <= MaxChars && SingleSpaced(c) && (c == [] || (!IsSpace(c[0]) && !IsSpace(c[|c| - 1]))) &&
      Visible(c) == Visible(Take(t, MaxChars))
  {
    var x := Collapse(Take(t, MaxChars));
    CollapseSingle(Take(t, MaxChars));
    CollapseVisible(Take(t, MaxChars));
    var k := TrimIsSlice(x);
    SingleSpacedSlice(x, k, k + |Trim(x)|);
    TrimVisible(x);
  }

  // ===== the request =====

  /** The document's row: a database error, no row, or the row. */
  datatype Lookup = LookupError(message: string) | NoRow | Row(doc: Value)

  /** The storage download: an error, or the file's text. */
  datatype Download = DownloadError(message: string) | Downloaded(text: string)

  /**
   * The embedding service: a failed status with its text, the parsed JSON,
   * or an exception with its message (the `fetch` rejected, or reading the
   * body threw).
   */
  datatype Embedding = EmbeddingError(text: string) | EmbeddingOk(data: Value) | EmbeddingThrew(message: string)

  /** Every failure is thrown inside one `try`, so each is a 500 carrying its message. */
  datatype Failure =
    | NotConfigured
    | EmptyBody
    | Thrown(message: string)
    | MissingFields
    | NotFound(detail: Value)
    | NoPath
    | StorageFailed(message: string)
    | EmbeddingFailed(text: string)

  datatype Reply = Preflight | Ignored | Processed | Failed(failure: Failure)

  function ReplyStatus(r: Reply): int
  {
    if r.Failed? then 500 else 200
  }

  /** The three required fields of the body. */
  datatype Target = Target(documentId: Value, table: Value, bucket: Value)

  /** `{ document_id, table_name, bucket_name } = JSON.parse(bodyText)`; None when that destructuring throws (`null`). */
  function TargetOf(parsed: Value): Option<Target>
  {
    if IsNullish(parsed) then None
    else Some(Target(Field(parsed, "document_id"), Field(parsed, "table_name"), Field(parsed, "bucket_name")))
  }

  predicate Complete(t: Target)
  {
    Truthy(t.documentId) && Truthy(t.table) && Truthy(t.bucket)
  }

  /** `doc.caminho || doc.caminho_arquivo || doc.path || null`. */
  function PathOf(doc: Value): Value
  {
    Or(Or(Or(Field(doc, "caminho"), Field(doc, "caminho_arquivo")), Field(doc, "path")), Null)
  }

  /** `{ status: "ready" }` on the teacher's table, `{}` elsewhere. */
  function ShortUpdate(table: Value): Record
  {
    if table == Str(ProfessorTable) then map["status" := Str(Ready)] else map[]
  }

  /** `{ embedding, texto_extraido }`, plus `status: "ready"` on the teacher's table. */
  function FullUpdate(table: Value, vector: Value, clean: string): Record
  {
    var base := map["embedding" := vector, "texto_extraido" := Str(clean)];
    if table == Str(ProfessorTable) then base["status" := Str(Ready)] else base
  }

  /**
   * The reply; the storage path downloaded, if any; the text sent to the
   * embedding service, if any; and the update written to the row, if any.
   */
  datatype Outcome = Outcome(reply: Reply, downloaded: Option<Value>, embedded: Option<string>, update: Option<Record>)

  /** Everything after the download: clean, then ignore or embed, then update. */
  function AfterDownload(t: Target, path: Value, text: string, google: Embedding, thrown: string): (r: Outcome)
    ensures r.downloaded == Some(path)
    ensures !r.reply.Preflight?
  {
    var clean := CleanText(text);
    if |clean| < MinChars then Outcome(Ignored, Some(path), None, Some(ShortUpdate(t.table)))
    else match google
      case EmbeddingError(e) => Outcome(Failed(EmbeddingFailed(e)), Some(path), Some(clean), None)
      case EmbeddingThrew(m) => Outcome(Failed(Thrown(m)), Some(path), Some(clean), None)
      case EmbeddingOk(data) =>
        var embedding := Field(data, "embedding");
        if IsNullish(embedding) then Outcome(Failed(Thrown(thrown)), Some(path), Some(clean), None)
        else Outcome(Processed, Some(path), Some(clean), Some(FullUpdate(t.table, Field(embedding, "values"), clean)))
  }

  /** The body's checks, then the row, the path and the download. */
  function AfterBody(parsed: Value, lookup: Lookup, download: Download, google: Embedding, thrown: string): (r: Outcome)
    ensures !r.reply.Preflight?
  {
    var t := TargetOf(parsed);
    if t.None? then Outcome(Failed(Thrown(thrown)), None, None, None)
    else if !Complete(t.value) then Outcome(Failed(MissingFields), None, None, None)
    else match lookup
      case LookupError(m) => Outcome(Failed(NotFound(Str(m))), None, None, None)
      case NoRow => Outcome(Failed(NotFound(Undefined)), None, None, None)
      case Row(doc) =>
        if !Truthy(doc) then Outcome(Failed(NotFound(Undefined)), None, None, None)
        else
        var path := PathOf(doc);
        if !Truthy(path) then Outcome(Failed(NoPath), None, None, None)
        else match download
          case DownloadError(m) => Outcome(Failed(StorageFailed(m)), None, None, None)
          case Downloaded(text) => AfterDownload(t.value, path, text, google, thrown)
  }

  /**
   * The whole request. `configured` says whether the three secrets are set;
   * `bodyText` is the raw body and `parsed` what `JSON.parse` makes of it
   * (None when it throws with message `thrown`).
   */
  function Handle(verb: Verb, configured: bool, bodyText: string, parsed: Option<Value>, lookup: Lookup,
                  download: Download, google: Embedding, thrown: string): (r: Outcome)
    ensures r.update.Some? || r.embedded.Some? ==>
      r.downloaded.Some? && !verb.Options? && configured && bodyText != "" && parsed.Some? &&
      TargetOf(parsed.value).Some? && Complete(TargetOf(parsed.value).value)
    ensures !verb.Options? && !configured ==> r == Outcome(Failed(NotConfigured), None, None, None)
    ensures !verb.Options? && configured && bodyText == "" ==> r == Outcome(Failed(EmptyBody), None, None, None)
  {
    if verb.Options? then Outcome(Preflight, None, None, None)
    else if !configured then Outcome(Failed(NotConfigured), None, None, None)
    else if bodyText == "" then Outcome(Failed(EmptyBody), None, None, None)
    else if parsed.None? then Outcome(Failed(Thrown(thrown)), None, None, None)
    else AfterBody(parsed.value, lookup, download, google, thrown)
  }

  // ===== properties =====

  /** OPTIONS is answered "ok" before anything else; every other method is processed alike, and every failure is a 500. */
  lemma PreflightFirst(verb: Verb, configured: bool, bodyText: string, parsed: Option<Value>, lookup: Lookup,
                       download: Download, google: Embedding, thrown: string)
    ensures var out := Handle(verb, configured, bodyText, parsed, lookup, download, google, thrown);
      (out.reply.Preflight? <==> verb.Options?) &&
      (ReplyStatus(out.reply) != 200 <==> out.reply.Failed?) &&
      (verb.Options? ==> out.downloaded.None? && out.update.None?)
  {
  }

  /** A body without all three fields is a 500 before any read, download or write. */
  lemma FieldsRequired(parsed: Value, lookup: Lookup, download: Download, google: Embedding, thrown: string)
    requires TargetOf(parsed).Some? && !Complete(TargetOf(parsed).value)
    ensures var out := AfterBody(parsed, lookup, download, google, thrown);
      out.reply == Failed(MissingFields) && ReplyStatus(out.reply) == 500 && out.downloaded.None? && out.update.None?
  {
  }

  /**
   * The file downloaded is `caminho`, else `caminho_arquivo`, else `path`; a
   * row with none of them is a 500 with nothing downloaded, and a falsy row
   * is reported as not found before its path is read.
   */
  lemma PathFallback(parsed: Value, doc: Value, download: Download, google: Embedding, thrown: string)
    requires TargetOf(parsed).Some? && Complete(TargetOf(parsed).value)
    ensures var out := AfterBody(parsed, Row(doc), download, google, thrown);
      (!Truthy(doc) ==> out.reply == Failed(NotFound(Undefined)) && out.downloaded.None?) &&
      (Truthy(doc) && !Truthy(PathOf(doc)) ==> out.reply == Failed(NoPath) && out.downloaded.None?) &&
      (out.downloaded.Some? ==> Truthy(PathOf(doc)) && out.downloaded.value == PathOf(doc)) &&
      (Truthy(Field(doc, "caminho")) ==> PathOf(doc) == Field(doc, "caminho")) &&
      (!Truthy(Field(doc, "caminho")) && Truthy(Field(doc, "caminho_arquivo")) ==> PathOf(doc) == Field(doc, "caminho_arquivo"))
  {
  }

  /**
   * A cleaned text under 10 characters is answered "Ignored" without calling
   * the embedding service; the row is then only marked ready, and only on
   * the teacher's table.
   */
  lemma {:induction false} ShortTextIgnored(t: Target, path: Value, text: string, google: Embedding, thrown: string)
    ensures var out := AfterDownload(t, path, text, google, thrown);
      (out.reply.Ignored? <==> |CleanText(text)| < MinChars) &&
      (out.reply.Ignored? ==> out.embedded.None? && out.update == Some(ShortUpdate(t.table))) &&
      (out.embedded.Some? ==> out.embedded.value == CleanText(text) && MinChars <= |out.embedded.value| <= MaxChars)
  {
    CleanTextFacts(text);
  }

  /**
   * A call to the embedding service that rejects, or whose body cannot be
   * read, is a 500 with the exception's message, after the cleaned text was
   * sent and with nothing written.
   */
  lemma ThrowingCall(t: Target, path: Value, text: string, google: Embedding, thrown: string)
    requires google.EmbeddingThrew? && MinChars <= |CleanText(text)|
    ensures var out := AfterDownload(t, path, text, google, thrown);
      out.reply == Failed(Thrown(google.message)) && ReplyStatus(out.reply) == 500 &&
      out.embedded == Some(CleanText(text)) && out.update.None?
  {
  }

  /** Status "ready" is written exactly on the teacher's table; a processed row also gets the vector and the cleaned text. */
  lemma ReadyOnlyForProfessor(t: Target, path: Value, text: string, google: Embedding, thrown: string)
    ensures var out := AfterDownload(t, path, text, google, thrown);
      out.update.Some? ==>
        ("status" in out.update.value <==> t.table == Str(ProfessorTable)) &&
        ("status" in out.update.value ==> out.update.value["status"] == Str(Ready)) &&
        (out.reply.Processed? ==> Get(out.update.value, "texto_extraido") == Str(CleanText(text)) &&
                                   "embedding" in out.update.value)
  {
    ShortUpdateStatus(t.table);
    if google.EmbeddingOk? {
      FullUpdateFields(t.table, Field(Field(google.data, "embedding"), "values"), CleanText(text));
    }
  }

  /** The short update marks only teacher documents, as ready. */
  lemma ShortUpdateStatus(table: Value)
    ensures "status" in ShortUpdate(table) <==> table == Str(ProfessorTable)
    ensures "status" in ShortUpdate(table) ==> ShortUpdate(table)["status"] == Str(Ready)
  {
  }

  /** The full update carries the text and the vector, and marks only teacher documents, as ready. */
  lemma FullUpdateFields(table: Value, vector: Value, clean: string)
    ensures var u := FullUpdate(table, vector, clean);
      ("status" in u <==> table == Str(ProfessorTable)) && ("status" in u ==> u["status"] == Str(Ready)) &&
      Get(u, "texto_extraido") == Str(clean) && "embedding" in u
  {
  }
}
