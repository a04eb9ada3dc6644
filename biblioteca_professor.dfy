/**
 * The teacher's document library page (`BibliotecaProfessor`): a queue of
 * picked files, the teacher's documents as last loaded, and the signed-in
 * teacher's id. Storage, database and AI answers are parameters.
 */
module BibliotecaProfessorPage {
  import opened Wrappers
  import opened Js
  import opened Text
  import opened Seqs
  import opened Library
  import UiBiblioteca

  const Instance: string := "bibliotecaProfessor"

  /** `renderDocs(list, docsGrid, "bibliotecaProfessor")` with the shared renderer. */
  function Show(list: seq<Record>, grid: bool): UiBiblioteca.Rendered
  {
    UiBiblioteca.RenderDocs(UiBiblioteca.Shared, Some(list), grid, Some(Instance))
  }

  /** The "Nada encontrado" state or the hits, as `performSemanticSearch` leaves the grid. */
  method PerformSemanticSearch(input: string, ai: seq<AiResult>, kw: seq<Record>) returns (r: SearchOutcome)
    ensures r.NoQuery? <==> Trim(input) == ""
    ensures r.Found? ==> r.hits == SortByScore(MergeKeyword(Professor, MergeAi(ai), kw))
    ensures r.NothingFound? ==> MergeKeyword(Professor, MergeAi(ai), kw) == []
  {
    r := SemanticSearch(Professor, input, ai, kw);
  }

  class BibliotecaProfessor {
    var professorId: Value
    var docs: seq<Record>
    var fileQueue: seq<QueueItem>

    /** `devId` is `CONFIG.PROFESSOR_ID ?? null` in the "dev" environment and `null` otherwise. */
    constructor(devId: Value)
      ensures professorId == devId && docs == [] && fileQueue == []
    {
      professorId := devId;
      docs := [];
      fileQueue := [];
    }

    /** `addFiles`: one pending item per file, appended in order, with no duplicate check. */
    method AddFiles(files: seq<FileInfo>)
      modifies this
      ensures fileQueue == old(fileQueue) + NewItems(files)
      ensures docs == old(docs) && professorId == old(professorId)
    {
      var i := 0;
      while i < |files|
        invariant 0 <= i <= |files|
        invariant fileQueue == old(fileQueue) + NewItems(files[..i])
        invariant docs == old(docs) && professorId == old(professorId)
      {
        assert files[..i + 1][..i] == files[..i];
        fileQueue := fileQueue + [QueueItem(files[i], Pendente)];
        i := i + 1;
      }
      assert files[..|files|] == files;
    }

    /** `loadDocuments`: nothing without a teacher id; otherwise the answer (or none) becomes the list shown. */
    method LoadDocuments(data: Option<seq<Record>>, grid: bool) returns (view: UiBiblioteca.Rendered)
      modifies this
      ensures Truthy(old(professorId)) ==> docs == data.GetOr([]) && view == Show(docs, grid)
      ensures !Truthy(old(professorId)) ==> docs == old(docs) && view.Unchanged?
      ensures fileQueue == old(fileQueue) && professorId == old(professorId)
    {
      if !Truthy(professorId) {
        return UiBiblioteca.Unchanged;
      }
      docs := data.GetOr([]);
      view := Show(docs, grid);
    }

    /**
     * `uploadAll`: signs in first when there is no id; with no pending item it
     * stops there. Otherwise it uploads the pending items one after another,
     * empties the queue and reloads the list.
     */
    method UploadAll(authId: Value, now: nat -> int, outcome: nat -> Outcome, data: Option<seq<Record>>, grid: bool)
      returns (uploads: seq<Upload>)
      modifies this
      ensures professorId == if !Truthy(old(professorId)) && Truthy(authId) then authId else old(professorId)
      ensures PendingOf(old(fileQueue)) == [] ==> fileQueue == old(fileQueue) && docs == old(docs) && uploads == []
      ensures PendingOf(old(fileQueue)) != [] ==> fileQueue == []
      ensures PendingOf(old(fileQueue)) != [] ==> uploads == UploadEach(Professor, professorId, now, outcome, PendingOf(old(fileQueue)))
      ensures PendingOf(old(fileQueue)) != [] ==> docs == if Truthy(professorId) then data.GetOr([]) else old(docs)
    {
      if !Truthy(professorId) && Truthy(authId) {
        professorId := authId;
      }
      var pendentes := PendingOf(fileQueue);
      if |pendentes| == 0 {
        return [];
      }
      uploads := UploadInTurn(Professor, professorId, now, outcome, pendentes);
      fileQueue := [];
      var _ := LoadDocuments(data, grid);
    }

    /** `applyTypeFilter`: no type or "all" reloads the list; any other type shows the matching documents. */
    method ApplyTypeFilter(t: Option<string>, data: Option<seq<Record>>, grid: bool) returns (view: UiBiblioteca.Rendered)
      modifies this
      ensures t.None? || t.value == "" || t.value == "all" ==>
        (if Truthy(old(professorId)) then docs == data.GetOr([]) && view == Show(docs, grid)
         else docs == old(docs) && view.Unchanged?)
      ensures t.Some? && t.value != "" && t.value != "all" ==>
        docs == old(docs) && view == Show(FilterByType(docs, t.value), grid)
      ensures fileQueue == old(fileQueue) && professorId == old(professorId)
    {
      if t.None? || t.value == "" || t.value == "all" {
        view := LoadDocuments(data, grid);
        return;
      }
      view := Show(FilterByType(docs, t.value), grid);
    }

    /** `handleSearch`: the documents whose lower-cased title contains the lower-cased text. */
    function HandleSearch(val: string, grid: bool): (view: UiBiblioteca.Rendered)
      reads this
      ensures view == Show(TitleSearch(docs, val), grid)
      ensures !grid <==> view.Unchanged?
      ensures view.EmptyState? <==> grid && TitleSearch(docs, val) == []
      ensures grid && TitleSearch(docs, val) != [] ==>
        view.Cards? && |view.cards| == |TitleSearch(docs, val)| &&
        forall i :: 0 <= i < |view.cards| ==>
          view.cards[i] == UiBiblioteca.CardOf(UiBiblioteca.Shared, Some(Instance), TitleSearch(docs, val)[i])
    {
      Show(TitleSearch(docs, val), grid)
    }
  }
}
