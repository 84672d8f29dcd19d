/** How hits flow from the index into the prompt and the sources of an answer
    (knowledge/knowledge.go, Search and Ask). */
module Answers {
  import opened Ordered
  import opened Database
  import opened Prompt
  import Chunker

  /** The passage of a stored chunk: its note, and the chunk itself. */
  function PassageOf(db: DB, path: string, id: nat): Passage
    requires path in db.notes && id in db.chunks
  {
    Passage(path, db.notes[path].name, db.chunks[id].index, db.chunks[id].text)
  }

  predicate RowAt(db: DB, path: string, id: nat) {
    path in db.notes && id in db.chunks && db.chunks[id].noteId == db.notes[path].id
  }

  /** The passage joins a chunk of the index with the note it belongs to. */
  ghost predicate IsHit(db: DB, p: Passage) {
    exists path, id :: RowAt(db, path, id) && p == PassageOf(db, path, id)
  }

  lemma ChunkOfNote(chunks: map<nat, ChunkRow>, noteId: nat, texts: seq<string>, id: nat) returns (i: nat)
    requires ChunksMatch(chunks, noteId, texts) && id in chunks && chunks[id].noteId == noteId
    ensures i < |texts| && chunks[id].text == texts[i]
  {
    var ids := Sorted(Owned(chunks, noteId));
    SortedShape(Owned(chunks, noteId));
    assert id in Elements(ids);
    i :| 0 <= i < |ids| && ids[i] == id;
    assert chunks[ids[i]] == ChunkRow(noteId, i, texts[i]);
  }

  /** Every stored chunk has between 1 and `size` runes. */
  lemma StoredChunkSize(setup: Setup, db: DB, size: nat, id: nat)
    requires Sound(setup, db) && size > 0 && id in db.chunks
    requires forall text :: setup.cut(text) == Chunker.Chunks(text, size)
    ensures 1 <= |db.chunks[id].text| <= size
  {
    assert HasNote(db, db.chunks[id].noteId);
    var path :| path in db.notes && db.notes[path].id == db.chunks[id].noteId;
    var texts := setup.cut(db.notes[path].text);
    var i := ChunkOfNote(db.chunks, db.notes[path].id, texts, id);
    Chunker.ChunkSizes(db.notes[path].text, size);
  }

  /** When topK * chunkSize is at most 12000, the default budget, no hit of a sound index is
      dropped from the prompt, so the listed sources are exactly the notes shown. */
  lemma NoHitDropped(setup: Setup, db: DB, chunkSize: nat, topK: int, hits: seq<Passage>)
    requires Sound(setup, db) && chunkSize > 0
    requires forall text :: setup.cut(text) == Chunker.Chunks(text, chunkSize)
    requires |hits| <= (if topK < 1 then 1 else topK) && topK * chunkSize <= 12000
    requires forall i | 0 <= i < |hits| :: IsHit(db, hits[i])
    ensures Shown(hits, 12000) == hits && SourceList(Shown(hits, 12000)) == SourceList(hits)
  {
    forall i | 0 <= i < |hits| ensures |hits[i].text| <= chunkSize {
      assert IsHit(db, hits[i]);
      var path, id :| RowAt(db, path, id) && hits[i] == PassageOf(db, path, id);
      StoredChunkSize(setup, db, chunkSize, id);
    }
    if topK < 1 {
      DroppedIffOverBudget(hits, DEFAULT_MAX_CONTEXT_RUNES);
    } else {
      SmallHitsShown(hits, topK, chunkSize);
    }
  }
}
