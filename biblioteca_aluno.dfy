/**
 * The student's document library page (`BibliotecaAluno`). It shares the
 * queue, status machine and search merge with the teacher's page; its rows
 * keep the storage path in `caminho_arquivo`, which it copies into the
 * fields the shared renderer links.
 */
module BibliotecaAlunoPage {
  import opened Wrappers
  import opened Js
  import opened Text
  import opened Seqs
  import opened Library
  import UiBiblioteca

  const Instance: string := "bibliotecaAluno"

  function Show(list: seq<Record>, grid: bool): UiBiblioteca.Rendered
  {
    UiBiblioteca.RenderDocs(UiBiblioteca.Shared, Some(list), grid, Some(Instance))
  }

  /** `{...d, caminho: d.caminho_arquivo, documento_path: d.caminho_arquivo}`, as `loadDocuments` adapts a row. */
  function ForLoad(d: Record): Record
  {
    d["caminho" := Get(d, "caminho_arquivo")]["documento_path" := Get(d, "caminho_arquivo")]
  }

  /** `{...d, caminho: d.caminho_arquivo}`, as the filter and the search adapt a row. */
  function ForView(d: Record): Record
  {
    d["caminho" := Get(d, "caminho_arquivo")]
  }

  function LoadedView(docs: seq<Record>): (r: seq<Record>)
    ensures |r| == |docs|
    ensures forall i :: 0 <= i < |docs| ==> r[i] == ForLoad(docs[i])
  {
    seq(|docs|, i requires 0 <= i < |docs| => ForLoad(docs[i]))
  }

  function FilteredView(docs: seq<Record>): (r: seq<Record>)
    ensures |r| == |docs|
    ensures forall i :: 0 <= i < |docs| ==> r[i] == ForView(docs[i])
  {
    seq(|docs|, i requires 0 <= i < |docs| => ForView(docs[i]))
  }

  /**
   * A loaded row always links its own `caminho_arquivo`; a filtered or
   * searched row does so whenever it has one.
   */
  lemma CardsLinkStoragePath(d: Record)
    ensures UiBiblioteca.PathOf(UiBiblioteca.Shared, ForLoad(d)) == ToStr(Get(d, "caminho_arquivo"))
    ensures Truthy(Get(d, "caminho_arquivo")) ==>
      UiBiblioteca.PathOf(UiBiblioteca.Shared, ForView(d)) == ToStr(Get(d, "caminho_arquivo"))
  {
  }

  method PerformSemanticSearch(input: string, ai: seq<AiResult>, kw: seq<Record>) returns (r: SearchOutcome)
    ensures r.NoQuery? <==> Trim(input) == ""
    ensures r.Found? ==> r.hits == SortByScore(MergeKeyword(Student, MergeAi(ai), kw))
    ensures r.NothingFound? ==> MergeKeyword(Student, MergeAi(ai), kw) == []
  {
    r := SemanticSearch(Student, input, ai, kw);
  }

  class BibliotecaAluno {
    var studentId: Value
    var docs: seq<Record>
    var fileQueue: seq<QueueItem>

    constructor()
      ensures studentId == Null && docs == [] && fileQueue == []
    {
      studentId := Null;
      docs := [];
      fileQueue := [];
    }

    /** `ensureAuth`: the profile's id when there is one; otherwise the id stays as it was. */
    method EnsureAuth(profileId: Value)
      modifies this
      ensures studentId == if Truthy(profileId) then profileId else old(studentId)
      ensures docs == old(docs) && fileQueue == old(fileQueue)
    {
      if Truthy(profileId) {
        studentId := profileId;
      }
    }

    method AddFiles(files: seq<FileInfo>)
      modifies this
      ensures fileQueue == old(fileQueue) + NewItems(files)
      ensures docs == old(docs) && studentId == old(studentId)
    {
      var i := 0;
      while i < |files|
        invariant 0 <= i <= |files|
        invariant fileQueue == old(fileQueue) + NewItems(files[..i])
        invariant docs == old(docs) && studentId == old(studentId)
      {
        assert files[..i + 1][..i] == files[..i];
        fileQueue := fileQueue + [QueueItem(files[i], Pendente)];
        i := i + 1;
      }
      assert files[..|files|] == files;
    }

    /** `loadDocuments`: nothing without a student id; otherwise the rows, adapted for the renderer. */
    method LoadDocuments(data: Option<seq<Record>>, grid: bool) returns (view: UiBiblioteca.Rendered)
      modifies this
      ensures Truthy(old(studentId)) ==> docs == data.GetOr([]) && view == Show(LoadedView(docs), grid)
      ensures !Truthy(old(studentId)) ==> docs == old(docs) && view.Unchanged?
      ensures fileQueue == old(fileQueue) && studentId == old(studentId)
    {
      if !Truthy(studentId) {
        return UiBiblioteca.Unchanged;
      }
      docs := data.GetOr([]);
      view := Show(LoadedView(docs), grid);
    }

    /** `uploadAll`, as on the teacher's page, with the student's status machine. */
    method UploadAll(profileId: Value, now: nat -> int, outcome: nat -> Outcome, data: Option<seq<Record>>, grid: bool)
      returns (uploads: seq<Upload>)
      modifies this
      ensures studentId == if !Truthy(old(studentId)) && Truthy(profileId) then profileId else old(studentId)
      ensures PendingOf(old(fileQueue)) == [] ==> fileQueue == old(fileQueue) && docs == old(docs) && uploads == []
      ensures PendingOf(old(fileQueue)) != [] ==> fileQueue == []
      ensures PendingOf(old(fileQueue)) != [] ==> uploads == UploadEach(Student, studentId, now, outcome, PendingOf(old(fileQueue)))
      ensures PendingOf(old(fileQueue)) != [] ==> docs == if Truthy(studentId) then data.GetOr([]) else old(docs)
    {
      if !Truthy(studentId) {
        EnsureAuth(profileId);
      }
      var pendentes := PendingOf(fileQueue);
      if |pendentes| == 0 {
        return [];
      }
      uploads := UploadInTurn(Student, studentId, now, outcome, pendentes);
      fileQueue := [];
      var _ := LoadDocuments(data, grid);
    }

    method ApplyTypeFilter(t: Option<string>, data: Option<seq<Record>>, grid: bool) returns (view: UiBiblioteca.Rendered)
      modifies this
      ensures t.None? || t.value == "" || t.value == "all" ==>
        (if Truthy(old(studentId)) then docs == data.GetOr([]) && view == Show(LoadedView(docs), grid)
         else docs == old(docs) && view.Unchanged?)
      ensures t.Some? && t.value != "" && t.value != "all" ==>
        docs == old(docs) && view == Show(FilteredView(FilterByType(docs, t.value)), grid)
      ensures fileQueue == old(fileQueue) && studentId == old(studentId)
    {
      if t.None? || t.value == "" || t.value == "all" {
        view := LoadDocuments(data, grid);
        return;
      }
      view := Show(FilteredView(FilterByType(docs, t.value)), grid);
    }

    function HandleSearch(val: string, grid: bool): (view: UiBiblioteca.Rendered)
      reads this
      ensures view == Show(FilteredView(TitleSearch(docs, val)), grid)
      ensures !grid <==> view.Unchanged?
      ensures view.EmptyState? <==> grid && TitleSearch(docs, val) == []
      ensures grid && TitleSearch(docs, val) != [] ==>
        view.Cards? && |view.cards| == |TitleSearch(docs, val)| &&
        forall i :: 0 <= i < |view.cards| ==>
          view.cards[i] == UiBiblioteca.CardOf(UiBiblioteca.Shared, Some(Instance), ForView(TitleSearch(docs, val)[i]))
    {
      Show(FilteredView(TitleSearch(docs, val)), grid)
    }
  }
}
