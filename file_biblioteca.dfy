/**
 * `FileProcessor` of the document library, in its two copies: the shared
 * module (`modules/FileBiblioteca.js`) and the teacher interface's own copy
 * (`newnerd-interface/js/FileBiblioteca.js`). Both copies have the same
 * `basename`, `ext` and `guessMimeByExtension`; they differ in
 * `tryExtractText`. Reading a file and running the Word extractor are
 * parameters of the model.
 */
module FileBiblioteca {
  import opened Wrappers
  import opened Text

  // ===== basename / ext =====

  /** `filename.split("/").pop()`: the longest suffix without a slash. */
  function Basename(f: string): (b: string)
    ensures '/' !in b
    ensures |b| <= |f| && b == f[|f| - |b|..]
    ensures |b| < |f| ==> f[|f| - |b| - 1] == '/'
  {
    if f == [] || f[|f| - 1] == '/' then [] else Basename(f[..|f| - 1]) + [f[|f| - 1]]
  }

  /** Any slash-free suffix that starts the string or follows a slash is the basename. */
  lemma BasenameUnique(f: string, b: string)
    requires '/' !in b && |b| <= |f| && b == f[|f| - |b|..]
    requires |b| < |f| ==> f[|f| - |b| - 1] == '/'
    ensures Basename(f) == b
  {
  }

  /** The basename of `dir/b`, for a `b` without slashes, is `b`. */
  lemma {:induction false} BasenameOfPath(dir: string, b: string)
    requires '/' !in b
    ensures Basename(dir + "/" + b) == b
  {
    var f := dir + "/" + b;
    assert f[|f| - |b|..] == b;
    assert f[|f| - |b| - 1] == '/';
    BasenameUnique(f, b);
  }

  /** `lastIndexOf(c)`: -1 when `c` does not occur. */
  function LastIndexOf(s: string, c: char): (i: int)
    ensures -1 <= i < |s|
    ensures i >= 0 ==> s[i] == c
    ensures forall k :: i < k < |s| ==> s[k] != c
  {
    if s == [] then -1
    else if s[|s| - 1] == c then |s| - 1
    else LastIndexOf(s[..|s| - 1], c)
  }

  lemma LastIndexOfUnique(s: string, c: char, i: int)
    requires 0 <= i < |s| && s[i] == c
    requires forall k :: i < k < |s| ==> s[k] != c
    ensures LastIndexOf(s, c) == i
  {
  }

  /** `ext`: the lower-cased text after the basename's last dot, or "" when it has none. */
  function Ext(f: string): string
  {
    ExtOfBase(Basename(f))
  }

  function ExtOfBase(base: string): string
  {
    var idx := LastIndexOf(base, '.');
    if idx >= 0 then Lower(base[idx + 1..]) else ""
  }

  /** A base name ending in `.ext`, for an `ext` without dots, has extension `ext` lower-cased. */
  lemma {:induction false} ExtOfBaseDot(bs: string, e: string)
    requires '.' !in e
    ensures ExtOfBase(bs + ("." + e)) == Lower(e)
  {
    var base := bs + ("." + e);
    assert LastIndexOf(base, '.') == |bs| by {
      forall k | |bs| < k < |base|
        ensures base[k] != '.'
      {
        assert base[k] == e[k - |bs| - 1];
      }
      LastIndexOfUnique(base, '.', |bs|);
    }
    assert base[|bs| + 1..] == e;
  }

  /** `name.ext`, for an `ext` without dots or slashes, has extension `ext` lower-cased. */
  lemma {:induction false} ExtOfName(stem: string, e: string)
    requires '.' !in e && '/' !in e
    ensures Ext(stem + "." + e) == Lower(e)
  {
    var de := "." + e;
    assert '/' !in de by {
      forall k | 0 <= k < |de|
        ensures de[k] != '/'
      {
        if k > 0 {
          assert de[k] == e[k - 1];
        }
      }
    }
    assert stem + "." + e == stem + de by {
      AppendAssoc(stem, ".", e);
    }
    BasenameExtends(stem, de);
    ExtOfBaseDot(Basename(stem), e);
  }

  /** Appending a slash-free piece extends the basename by that piece. */
  lemma {:induction false} BasenameExtends(f: string, tail: string)
    requires '/' !in tail
    ensures Basename(f + tail) == Basename(f) + tail
  {
    var b := Basename(f);
    var g := f + tail;
    assert g[|g| - |b + tail|..] == b + tail by {
      assert g[|g| - |b + tail|..] == f[|f| - |b|..] + tail;
    }
    if |b + tail| < |g| {
      assert g[|g| - |b + tail| - 1] == f[|f| - |b| - 1];
    }
    BasenameUnique(g, b + tail);
  }

  lemma LowerCharKeeps(c: char)
    ensures LowerChar(c) == '/' <==> c == '/'
    ensures LowerChar(c) == '.' <==> c == '.'
    ensures LowerChar(LowerChar(c)) == LowerChar(c)
  {
  }

  lemma LowerSlice(s: string, i: nat)
    requires i <= |s|
    ensures Lower(s)[i..] == Lower(s[i..])
  {
  }

  lemma {:induction false} LowerIdempotent(s: string)
    ensures Lower(Lower(s)) == Lower(s)
  {
    forall k | 0 <= k < |s|
      ensures Lower(Lower(s))[k] == Lower(s)[k]
    {
      LowerCharKeeps(s[k]);
    }
  }

  lemma {:induction false} LowerNoSlash(s: string)
    requires '/' !in s
    ensures '/' !in Lower(s)
  {
    forall k | 0 <= k < |s|
      ensures Lower(s)[k] != '/'
    {
      LowerCharKeeps(s[k]);
    }
  }

  /** Lower-casing neither creates nor removes slashes, so it commutes with `basename`. */
  lemma {:induction false} LowerBasename(f: string)
    ensures Basename(Lower(f)) == Lower(Basename(f))
  {
    var b := Basename(f);
    var i := |f| - |b|;
    var lf, lb := Lower(f), Lower(b);
    LowerNoSlash(b);
    assert lf[i..] == lb by {
      LowerSlice(f, i);
    }
    if |b| < |f| {
      assert lf[i - 1] == '/' by {
        LowerCharKeeps(f[i - 1]);
      }
    }
    BasenameUnique(lf, lb);
  }

  /** Lower-casing neither creates nor removes dots. */
  lemma {:induction false} LowerLastDot(s: string)
    ensures LastIndexOf(Lower(s), '.') == LastIndexOf(s, '.')
  {
    var idx := LastIndexOf(s, '.');
    forall k | idx < k < |s|
      ensures Lower(s)[k] != '.'
    {
      LowerCharKeeps(s[k]);
    }
    if idx >= 0 {
      LowerCharKeeps(s[idx]);
      LastIndexOfUnique(Lower(s), '.', idx);
    } else {
      var j := LastIndexOf(Lower(s), '.');
      assert j == -1;
    }
  }

  /** `ext` lower-cases its result, so the case of the file name does not matter. */
  lemma {:induction false} ExtIgnoresCase(f: string)
    ensures Ext(Lower(f)) == Ext(f)
  {
    LowerBasename(f);
    ExtOfBaseIgnoresCase(Basename(f));
  }

  lemma {:induction false} ExtOfBaseIgnoresCase(b: string)
    ensures ExtOfBase(Lower(b)) == ExtOfBase(b)
  {
    var idx := LastIndexOf(b, '.');
    LowerLastDot(b);
    if idx >= 0 {
      LowerSlice(b, idx + 1);
      LowerIdempotent(b[idx + 1..]);
    }
  }

  // ===== guessMimeByExtension =====

  const OctetStream: string := "application/octet-stream"

  const MimeTable: map<string, string> := map[
    "pdf" := "application/pdf",
    "doc" := "application/msword",
    "docx" := "application/vnd.openxmlformats-officedocument.wordprocessingml.document",
    "txt" := "text/plain",
    "md" := "text/markdown",
    "csv" := "text/csv",
    "json" := "application/json",
    "zip" := "application/zip",
    "ppt" := "application/vnd.ms-powerpoint",
    "pptx" := "application/vnd.openxmlformats-officedocument.presentationml.presentation",
    "epub" := "application/epub+zip",
    "html" := "text/html",
    "mp3" := "audio/mpeg",
    "mp4" := "video/mp4"]

  /** `guessMimeByExtension`: the table entry of the extension; every entry is non-empty, so `||` only falls back for unlisted ones. */
  function GuessMime(f: string): (m: string)
    ensures m != ""
    ensures m == OctetStream <==> Ext(f) !in MimeTable
  {
    var e := Ext(f);
    if e in MimeTable then MimeEntries(e); MimeTable[e] else OctetStream
  }

  /** Every entry of the table is a non-empty type other than the generic binary one. */
  lemma MimeEntries(e: string)
    requires e in MimeTable
    ensures MimeTable[e] != "" && MimeTable[e] != OctetStream
  {
  }

  /** The type of `stem.ext` is the table's entry for `ext` in any letter case, and the generic binary type for an unlisted `ext`. */
  lemma {:induction false} GuessMimeOfName(stem: string, e: string)
    requires '.' !in e && '/' !in e
    ensures Lower(e) in MimeTable ==> GuessMime(stem + "." + e) == MimeTable[Lower(e)]
    ensures Lower(e) !in MimeTable ==> GuessMime(stem + "." + e) == OctetStream
  {
    ExtOfName(stem, e);
  }

  lemma {:induction false} GuessMimeIgnoresCase(f: string)
    ensures GuessMime(Lower(f)) == GuessMime(f)
  {
    ExtIgnoresCase(f);
  }

  // ===== tryExtractText =====

  /** A picked file: its name and MIME type, what `file.text()` yields (None when reading fails) and what the Word extractor returns (None when it is missing or fails). */
  datatype FileInput = FileInput(name: string, mimeType: string, content: Option<string>, docx: Option<string>)

  const SkipAi: string := "SKIP_AI"
  const MaxTextChars: nat := 30000
  const TextExtensions: seq<string> := [".txt", ".md", ".csv", ".json", ".html", ".xml", ".js", ".css"]

  predicate HasTextExtension(n: string)
  {
    exists e :: e in TextExtensions && EndsWith(n, e)
  }

  /** `_extrairTextoDOCX`: the extracted text trimmed, "" when the extractor is missing or fails. */
  function DocxText(docx: Option<string>): (r: string)
    ensures docx.None? ==> r == ""
    ensures r == "" || (!IsSpace(r[0]) && !IsSpace(r[|r| - 1]))
  {
    if docx.Some? then Trim(docx.value) else ""
  }

  /**
   * The shared module's `tryExtractText`: by lower-cased name only, text
   * files truncated, media marked to skip the AI. A text file yields at most
   * its first 30000 characters and a read failure yields null; anything it
   * yields is that prefix, the Word text or the skip marker.
   */
  function ExtractModules(f: FileInput): (r: Option<string>)
    ensures HasTextExtension(Lower(f.name)) ==> (r.Some? <==> f.content.Some?)
    ensures HasTextExtension(Lower(f.name)) && r.Some? ==> |r.value| <= MaxTextChars && r.value <= f.content.value
    ensures r.Some? ==> HasTextExtension(Lower(f.name)) || r.value == DocxText(f.docx) || r.value == SkipAi
  {
    var n := Lower(f.name);
    if HasTextExtension(n) then
      (if f.content.Some? then Some(Take(f.content.value, MaxTextChars)) else None)
    else if EndsWith(n, ".docx") then Some(DocxText(f.docx))
    else if EndsWith(n, ".pdf") then None
    else if EndsWith(n, ".zip") || EndsWith(n, ".mp3") || EndsWith(n, ".mp4") then Some(SkipAi)
    else None
  }

  /** `file.type` says text: it starts with "text/" or mentions json or csv. */
  predicate IsTextType(t: string)
  {
    StartsWith(t, "text/") || Contains(t, "json") || Contains(t, "csv")
  }

  /**
   * The teacher interface's `tryExtractText`: MIME-aware, whole text, no skip
   * marker. A text type or a text extension reads the whole file; otherwise
   * only a Word name or type yields anything, the extracted Word text.
   */
  function ExtractInterface(f: FileInput): (r: Option<string>)
    ensures IsTextType(Lower(f.mimeType)) || HasTextExtension(Lower(f.name)) ==> r == f.content
    ensures r.Some? ==> r == f.content || r.value == DocxText(f.docx)
    ensures (!IsTextType(Lower(f.mimeType)) && !HasTextExtension(Lower(f.name)) &&
             !EndsWith(Lower(f.name), ".docx") && !Contains(Lower(f.mimeType), "word")) ==> r.None?
  {
    var n := Lower(f.name);
    var t := Lower(f.mimeType);
    if IsTextType(t) || HasTextExtension(n) then f.content
    else if EndsWith(n, ".docx") || Contains(t, "word") then Some(DocxText(f.docx))
    else if EndsWith(n, ".pdf") || Contains(t, "pdf") then None
    else None
  }

  lemma EndsWithLast(n: string, e: string)
    requires e != [] && EndsWith(n, e)
    ensures n[|n| - 1] == e[|e| - 1]
  {
  }

  /** A name whose last character is none of the text extensions' last characters has no text extension. */
  lemma {:induction false} NoTextExtension(n: string)
    requires n != [] && n[|n| - 1] !in {'t', 'd', 'v', 'n', 'l', 's'}
    ensures !HasTextExtension(n)
  {
    forall e | e in TextExtensions && EndsWith(n, e)
      ensures false
    {
      EndsWithLast(n, e);
    }
  }

  /** In the shared module, a PDF name gives null and a zip, mp3 or mp4 name the skip marker, whatever the letter case. */
  lemma {:induction false} ModulesClassifiesByName(f: FileInput)
    ensures EndsWith(Lower(f.name), ".pdf") ==> ExtractModules(f).None?
    ensures EndsWith(Lower(f.name), ".zip") || EndsWith(Lower(f.name), ".mp3") || EndsWith(Lower(f.name), ".mp4") ==>
      ExtractModules(f) == Some(SkipAi)
  {
    var n := Lower(f.name);
    if EndsWith(n, ".pdf") || EndsWith(n, ".zip") || EndsWith(n, ".mp3") || EndsWith(n, ".mp4") {
      var e := if EndsWith(n, ".pdf") then ".pdf" else if EndsWith(n, ".zip") then ".zip"
               else if EndsWith(n, ".mp3") then ".mp3" else ".mp4";
      EndsWithLast(n, e);
      NoTextExtension(n);
      if EndsWith(n, ".docx") {
        EndsWithLast(n, ".docx");
      }
    }
  }

  /**
   * The interface copy never marks a file to skip the AI: a zip, mp3 or mp4
   * whose MIME type says neither text, Word nor PDF yields null there, while
   * the shared module returns the skip marker.
   */
  lemma {:induction false} CopiesDifferOnMedia(f: FileInput)
    requires EndsWith(Lower(f.name), ".zip") || EndsWith(Lower(f.name), ".mp3") || EndsWith(Lower(f.name), ".mp4")
    requires !IsTextType(Lower(f.mimeType)) && !Contains(Lower(f.mimeType), "word")
    ensures ExtractInterface(f).None?
    ensures ExtractModules(f) == Some(SkipAi)
  {
    ModulesClassifiesByName(f);
    var n := Lower(f.name);
    var e := if EndsWith(n, ".zip") then ".zip" else if EndsWith(n, ".mp3") then ".mp3" else ".mp4";
    EndsWithLast(n, e);
    NoTextExtension(n);
    if EndsWith(n, ".docx") {
      EndsWithLast(n, ".docx");
    }
  }

  /** On a name with a text extension both copies read the file; only the shared module truncates. */
  lemma CopiesAgreeOnText(f: FileInput)
    requires HasTextExtension(Lower(f.name))
    ensures ExtractInterface(f) == f.content
    ensures ExtractModules(f) == if f.content.Some? then Some(Take(f.content.value, MaxTextChars)) else None
  {
  }

  /** Only the interface copy reads a file by its MIME type: a text type on a name with no known extension. */
  lemma {:induction false} InterfaceReadsByMime(f: FileInput)
    requires f.name != [] && Lower(f.name)[|f.name| - 1] !in {'t', 'd', 'v', 'n', 'l', 's', 'x', 'f', 'p', '3', '4'}
    requires IsTextType(Lower(f.mimeType))
    ensures ExtractInterface(f) == f.content
    ensures ExtractModules(f).None?
  {
    var n := Lower(f.name);
    NoTextExtension(n);
    LastDiffers(n, ".docx");
    LastDiffers(n, ".pdf");
    LastDiffers(n, ".zip");
    LastDiffers(n, ".mp3");
    LastDiffers(n, ".mp4");
  }

  /** A name whose last character differs from an ending's last character does not end with it. */
  lemma LastDiffers(n: string, e: string)
    requires n != [] && e != [] && n[|n| - 1] != e[|e| - 1]
    ensures !EndsWith(n, e)
  {
    if EndsWith(n, e) {
      EndsWithLast(n, e);
    }
  }
}
