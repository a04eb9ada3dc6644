/**
 * What the "embed" edge function makes of the bodies its callers send. The
 * two library pages send `{ record: { name, owner }, text }`, the student's
 * adding `is_student: true` to the record. The student's
 * `BibliotecaManager` sends `{ professor_id, origem,
 * origem_id, chunks[] }` with 28000-character chunks. The function reads
 * `professor_id`/`owner_id` and `chunks[]`/`content`, and cuts every chunk
 * to 12000 characters.
 */
module EmbedClients {
  import opened Wrappers
  import opened Js
  import opened Text
  import Library
  import BibliotecaManagerPage
  import EmbedFunction
  import EdgeHttp

  /**
   * The JSON the library pages put in the `embed` call. Only the student's
   * page names `is_student` in the record; the teacher's sends the name and
   * owner alone.
   */
  function CallJson(c: Library.EmbedCall): Value
  {
    var record := map["name" := Str(c.name), "owner" := c.owner];
    Obj(map["record" := Obj(if c.isStudent then record["is_student" := Bool(true)] else record),
            "text" := if c.text.Some? then Str(c.text.value) else Null])
  }

  /**
   * A library page's call names no `professor_id` or `owner_id` at the top
   * level, so the function turns it away with a 400 before calling the
   * model, whatever the page's owner and text.
   */
  lemma {:induction false} PageCallsRejected(c: Library.EmbedCall, origin: Option<string>, oai: EmbedFunction.OpenAi,
                                               db: EmbedFunction.Insert, now: string, thrown: string)
    ensures var out := EmbedFunction.Handle(EdgeHttp.Request(EdgeHttp.Post, origin, Some(CallJson(c))),
                                            true, oai, db, now, thrown);
      out.reply == EmbedFunction.Failed(EmbedFunction.MissingProfessor) &&
      EmbedFunction.ReplyStatus(out.reply) == 400 && out.inputs.None? && out.rows.None?
  {
    assert !Truthy(EmbedFunction.ProfessorId(CallJson(c)));
  }

  /**
   * The manager's body, for a signed-in user and a non-blank text of at most
   * 28000 characters, is one chunk holding the whole text; the function keeps
   * at most its first 12000 characters, so a text longer than that never
   * reaches the model whole.
   */
  lemma {:induction false} ManagerChunkCut(userId: Value, docId: Value, name: string, text: string, body: Value)
    requires Truthy(userId) && |text| <= BibliotecaManagerPage.MaxCharsPerChunk
    requires BibliotecaManagerPage.EmbedBody(userId, docId, name, text) == Some(body)
    ensures Truthy(EmbedFunction.ProfessorId(body))
    ensures |EmbedFunction.ChunksOf(body)| <= 1
    ensures forall c :: c in EmbedFunction.ChunksOf(body) ==> c.texto == Take(text, EmbedFunction.MaxChunkChars)
  {
    var e := BibliotecaManagerPage.ChunkEntry(text, 0, 1, name, docId, userId);
    ManagerSingleEntry(userId, docId, name, text);
    SingleEntryChunks(body, e);
    EntryCut(text, name, docId, userId);
  }

  lemma EntryCut(text: string, name: string, docId: Value, userId: Value)
    ensures EmbedFunction.NormChunk(BibliotecaManagerPage.ChunkEntry(text, 0, 1, name, docId, userId)).texto ==
      Take(text, EmbedFunction.MaxChunkChars)
  {
  }

  /** A text of at most one chunk goes as a single entry holding all of it. */
  lemma {:induction false} ManagerSingleEntry(userId: Value, docId: Value, name: string, text: string)
    requires Truthy(userId) && !BibliotecaManagerPage.IsBlankText(text)
    requires |text| <= BibliotecaManagerPage.MaxCharsPerChunk
    ensures var body := BibliotecaManagerPage.EmbedBody(userId, docId, name, text).value;
      Truthy(EmbedFunction.ProfessorId(body)) &&
      Field(body, "chunks") == Arr([BibliotecaManagerPage.ChunkEntry(text, 0, 1, name, docId, userId)])
  {
    assert BibliotecaManagerPage.Chunks(text) == [text] by { SingleChunk(text); }
    assert BibliotecaManagerPage.Entries([text], name, docId, userId) == [BibliotecaManagerPage.ChunkEntry(text, 0, 1, name, docId, userId)];
    ManagerBodyFields(userId, docId, name, text);
  }

  /** A text no longer than one chunk is its own single chunk. */
  lemma SingleChunk(text: string)
    requires !BibliotecaManagerPage.IsBlankText(text) && |text| <= BibliotecaManagerPage.MaxCharsPerChunk
    ensures BibliotecaManagerPage.Chunks(text) == [text]
  {
    assert text != [];
    assert BibliotecaManagerPage.ChunkCount(text) == 1;
    assert BibliotecaManagerPage.Chunks(text)[0] == text;
  }

  /** The manager's body names its owner and carries the entries of the text's chunks. */
  lemma ManagerBodyFields(userId: Value, docId: Value, name: string, text: string)
    requires Truthy(userId) && !BibliotecaManagerPage.IsBlankText(text)
    ensures var body := BibliotecaManagerPage.EmbedBody(userId, docId, name, text).value;
      Truthy(EmbedFunction.ProfessorId(body)) &&
      Field(body, "chunks") == Arr(BibliotecaManagerPage.Entries(BibliotecaManagerPage.Chunks(text), name, docId, userId))
  {
  }

  /** A one-entry `chunks[]` keeps that entry, normalised, or nothing. */
  lemma {:induction false} SingleEntryChunks(body: Value, e: Value)
    requires Field(body, "chunks") == Arr([e])
    ensures EmbedFunction.ChunksOf(body) == [] || EmbedFunction.ChunksOf(body) == [EmbedFunction.NormChunk(e)]
  {
    assert [e][..0] == [];
  }
}
