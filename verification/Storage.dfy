/** The store, internal/storage: the tables as fields, and each transaction as the
    sequence of its statements. `fault` numbers the statement that fails, if one
    does; a failed transaction is rolled back, but not the identity columns. */
module Storage {
  import opened Arithmetic
  import opened Outcome
  import opened Ordered
  import opened Spaces
  import opened Vault
  import opened Database
  import opened Passes
  import Chunker
  import Insert

  datatype SpaceRef = SpaceRef(space: Space, table: string)

  datatype StoreError = StatementFailed | ChunkingFailed | InvalidSpace | SlugTaken | InsertRejected

  /** How SaveNoteWithChunks changed the database. */
  ghost predicate StoreEffect(setup: Setup, before: DB, info: Note, r: Result<(nat, bool), StoreError>,
                              ev: Event, after: DB)
  {
    match r
    case Err(_) => ev.Fault? && after == Burn(before, ev.burned)
    case Ok((_, false)) => ev.Commit? && Stored(before, info) && after == before
    case Ok((_, true)) =>
      && ev.Commit? && !Stored(before, info)
      && CanIssue(setup, before, info, ev.noteId, ev.ids)
      && after == RewriteNote(setup, before, info, ev.noteId, ev.ids)
  }

  /** The number of statements of the transaction that stores a note. */
  ghost function StoreStatements(setup: Setup, db: DB, info: Note): nat {
    if Stored(db, info) then 3 else 4 + |setup.cut(info.text)|
  }

  predicate Hits(fault: Option<nat>, statements: nat) {
    fault.Some? && fault.value < statements
  }

  class Store {
    var notes: map<string, NoteRow>
    var chunks: map<nat, ChunkRow>
    var registry: map<Space, string>
    var tables: map<string, map<nat, Vector>>
    var nextNoteId: nat
    var nextChunkId: nat

    ghost function View(): DB
      reads this
    {
      DB(notes, chunks, registry, tables, Below(nextChunkId))
    }

    ghost predicate Valid()
      reads this
    {
      (forall p | p in notes :: notes[p].id < nextNoteId) && (forall id | id in chunks :: id < nextChunkId)
    }

    constructor ()
      ensures Valid() && View() == EMPTY
    {
      notes, chunks, registry, tables := map[], map[], map[], map[];
      nextNoteId, nextChunkId := 0, 0;
    }

    /** Takes back what a transaction wrote; the identity columns stay. */
    method Rollback(notes0: map<string, NoteRow>, chunks0: map<nat, ChunkRow>, tables0: map<string, map<nat, Vector>>)
      modifies `notes, `chunks, `tables
      ensures notes == notes0 && chunks == chunks0 && tables == tables0
    {
      notes, chunks, tables := notes0, chunks0, tables0;
    }

    /** Deletes the chunks of a note, with their vectors, and inserts the new ones;
        the failing statement is counted from the delete. */
    method ReplaceChunks(id: nat, texts: seq<string>, fault: Option<nat>) returns (ok: bool, ghost ids: seq<nat>)
      modifies `chunks, `tables, `nextChunkId
      ensures |ids| <= |texts| && nextChunkId == old(nextChunkId) + |ids|
      ensures forall k | 0 <= k < |ids| :: ids[k] == old(nextChunkId) + k
      ensures ok <==> !Hits(fault, 1 + |texts|)
      ensures ok ==> |ids| == |texts|
      ensures ok ==> chunks == old(DropChunks(View(), Owned(chunks, id)).chunks) + NewRows(id, ids, texts)
      ensures ok ==> tables == old(DropChunks(View(), Owned(chunks, id)).tables)
    {
      ids := [];
      if fault == Some(0) {
        return false, ids;
      }
      var dead := Owned(chunks, id);
      chunks := chunks - dead;
      tables := map t | t in tables :: tables[t] - dead;
      ghost var cleared := chunks;
      assert cleared + map[] == cleared;
      for i := 0 to |texts|
        invariant nextChunkId == old(nextChunkId) + i && |ids| == i
        invariant forall k | 0 <= k < i :: ids[k] == old(nextChunkId) + k
        invariant chunks == cleared + NewRows(id, ids, texts[..i])
        invariant tables == old(DropChunks(View(), Owned(chunks, id)).tables)
        invariant !Hits(fault, 1 + i)
      {
        if fault == Some(1 + i) {
          return false, ids;
        }
        chunks := chunks[nextChunkId := ChunkRow(id, i, texts[i])];
        InsertedRow(id, ids, texts[..i], nextChunkId, texts[i], cleared);
        assert texts[..i + 1] == texts[..i] + [texts[i]];
        ids := ids + [nextChunkId];
        nextChunkId := nextChunkId + 1;
      }
      assert texts[..|texts|] == texts;
      return true, ids;
    }

    /** The statements after an upsert that wrote: delete the old chunks, insert the
        new ones, commit; or roll back. `nextId` is what the upsert took. */
    method ReplaceNote(ghost setup: Setup, info: Note, chunked: Result<seq<string>, Chunker.CutError>,
                       nextId: nat, fault: Option<nat>)
      returns (r: Result<(nat, bool), StoreError>, ghost ev: Event)
      requires Valid() && !Stored(View(), info) && nextId < nextNoteId
      requires forall p | p in notes :: notes[p].id != nextId
      requires chunked.Ok? ==> chunked.value == setup.cut(info.text)
      modifies this
      ensures Valid()
      ensures StoreEffect(setup, old(View()), info, r, ev, View()) && (r.Ok? ==> r.value.1)
      ensures r.Err? <==> chunked.Err? || Hits(fault, 2 + |setup.cut(info.text)|)
    {
      ghost var before := View();
      var notes0, chunks0, tables0 := notes, chunks, tables;
      var id := if info.path in notes then notes[info.path].id else nextId;
      notes := notes[info.path := NoteRow(id, info.name, info.text, info.hash)];
      if chunked.Err? {
        BurnNothing(before);
        Rollback(notes0, chunks0, tables0);
        return Err(ChunkingFailed), Fault({});
      }
      var texts := chunked.value;
      var ok, ids := ReplaceChunks(id, texts, fault);
      IssuedTo(before, ids, nextChunkId);
      if !ok || fault == Some(1 + |texts|) {
        Rollback(notes0, chunks0, tables0);
        return Err(StatementFailed), Fault(Elements(ids));
      }
      Replaced(setup, before, info, nextId, ids, nextChunkId, View());
      return Ok((id, true)), Commit(nextId, ids);
    }

    /** `chunked` is what the chunker callback returns; it is only looked at when
        the note is written. */
    method SaveNoteWithChunks(ghost setup: Setup, info: Note, chunked: Result<seq<string>, Chunker.CutError>,
                              fault: Option<nat>)
      returns (r: Result<(nat, bool), StoreError>, ghost ev: Event)
      requires Valid()
      requires chunked.Ok? ==> chunked.value == setup.cut(info.text)
      modifies this
      ensures Valid()
      ensures StoreEffect(setup, old(View()), info, r, ev, View())
      ensures r.Err? <==> Hits(fault, StoreStatements(setup, old(View()), info))
                          || (chunked.Err? && !Stored(old(View()), info))
    {
      ghost var before := View();
      if fault == Some(0) || fault == Some(1) {
        BurnNothing(before);
        return Err(StatementFailed), Fault({});
      }
      var nextId := nextNoteId;
      nextNoteId := nextNoteId + 1;
      if info.path in notes && notes[info.path].hash == info.hash {
        if fault == Some(2) {
          BurnNothing(before);
          return Err(StatementFailed), Fault({});
        }
        return Ok((notes[info.path].id, false)), Commit(nextId, []);
      }
      r, ev := ReplaceNote(setup, info, chunked, nextId, Later(fault, 2));
    }

    /** The single statement that deletes the notes missing from the vault. */
    method DeleteMissingNotes(keepPaths: seq<string>, fault: bool) returns (r: Result<nat, StoreError>)
      requires Valid()
      modifies this
      ensures Valid()
      ensures r.Ok? <==> keepPaths == [] || !fault
      ensures if r.Ok? then View() == Prune(old(View()), keepPaths) && r.value == PruneCount(old(View()), keepPaths)
              else View() == old(View())
    {
      if |keepPaths| == 0 {
        return Ok(0);
      }
      if fault {
        return Err(StatementFailed);
      }
      var kept := map p | p in notes && p in keepPaths :: notes[p];
      var dead := set id, p | p in notes && p !in keepPaths && id in chunks && chunks[id].noteId == notes[p].id :: id;
      var count := |notes.Keys - kept.Keys|;
      notes := kept;
      chunks := chunks - dead;
      tables := map t | t in tables :: tables[t] - dead;
      return Ok(count);
    }

    predicate Refers(ref: SpaceRef)
      reads this
    {
      ref.space in registry && registry[ref.space] == ref.table && ref.table in tables
    }

    /** Chunks with no vector in the space, oldest first, at most `limit`. */
    method PendingChunks(ref: SpaceRef, limit: int, fault: bool) returns (r: Result<seq<Claim>, StoreError>)
      requires Refers(ref)
      ensures r.Err? <==> fault
      ensures r.Ok? ==> r.value == ClaimPending(View(), ref.space, if limit < 1 then 1 else limit)
      ensures r.Ok? ==>
        && |r.value| == Least(if limit < 1 then 1 else limit, |Pending(View(), ref.space)|)
        && forall i | 0 <= i < |r.value| :: var id := Pending(View(), ref.space)[i];
             id in chunks && r.value[i] == Claim(id, chunks[id].text)
    {
      var n: nat := if limit < 1 then 1 else limit;
      if fault {
        return Err(StatementFailed);
      }
      var rows := Sorted(chunks.Keys - tables[ref.table].Keys);
      assert rows == Pending(View(), ref.space);
      PendingLive(View(), ref.space);
      var out: seq<Claim> := [];
      var i := 0;
      while i < |rows| && i < n
        invariant 0 <= i <= |rows| && i <= n
        invariant out == Claims(View(), rows[..i])
      {
        assert rows[i] in rows;
        out := out + [Claim(rows[i], chunks[rows[i]].text)];
        i := i + 1;
      }
      return Ok(out);
    }

    /** One multi-row INSERT: the statement is assembled, and its meaning executed. */
    method SaveEmbeddings(ref: SpaceRef, batch: seq<ChunkVector>, fault: bool) returns (r: Result<(), StoreError>)
      requires Valid() && Refers(ref)
      modifies `tables
      ensures Valid()
      ensures r.Ok? <==> batch == [] || (!fault && Insertable(old(View()), ref.space, batch))
      ensures r.Ok? <==> batch == [] ||
                         (&& !fault && (forall i | 0 <= i < |batch| :: |batch[i].vector| == ref.space.dim)
                          && (forall i, j | 0 <= i < j < |batch| :: batch[i].chunkId != batch[j].chunkId)
                          && (forall i | 0 <= i < |batch| :: batch[i].chunkId in chunks))
      ensures View() == if r.Ok? && batch != [] then SaveVectors(old(View()), ref.space, batch) else old(View())
    {
      if |batch| == 0 {
        return Ok(());
      }
      var built := Insert.BuildEmbeddingInsert(ref.table, ref.space, batch);
      if built.Err? {
        return Err(InsertRejected);
      }
      var (q, args) := built.value;
      if fault {
        return Err(StatementFailed);
      }
      Insert.InsertMeansBatch(ref.table, batch);
      var meant := Insert.Meaning(q, args).value;
      var rows, table := meant.rows, tables[meant.table];
      if !DistinctIds(rows) || exists i | 0 <= i < |rows| :: rows[i].chunkId !in chunks {
        return Err(InsertRejected);
      }
      if (exists i | 0 <= i < |rows| :: rows[i].chunkId in table) && !Insert.Overwrites(meant.conflict) {
        return Err(InsertRejected);
      }
      tables := tables[meant.table := table + BatchMap(rows)];
      return Ok(());
    }

    /** How much of the corpus a space covers: what is not embedded is pending. */
    method CountStats(ghost setup: Setup, ref: SpaceRef, fault: bool) returns (r: Result<Stats, StoreError>)
      requires Refers(ref) && Sound(setup, View())
      ensures r.Err? <==> fault
      ensures r.Ok? ==> r.value.notes == |notes| && r.value.chunks == |chunks|
      ensures r.Ok? ==> r.value.embedded + |Pending(View(), ref.space)| == r.value.chunks
    {
      if fault {
        return Err(StatementFailed);
      }
      Coverage(setup, View(), ref.space);
      return Ok(Stats(|notes|, |chunks|, |tables[ref.table]|));
    }

    /** Registers a space and creates its table, or finds it registered. */
    method EnsureSpace(digest: string -> Hex8, space: Space, fault: Option<nat>)
      returns (r: Result<SpaceRef, StoreError>)
      requires Valid()
      modifies `registry, `tables
      ensures Valid()
      ensures r.Ok? <==> Spaces.Valid(space) && CanRegister(old(View()), space, Slug(digest, space)) && !Hits(fault, 6)
      ensures r.Ok? ==> View() == Register(old(View()), space, Slug(digest, space))
      ensures r.Ok? ==> space in registry && r.value == SpaceRef(space, registry[space])
      ensures r.Err? ==> View() == old(View())
    {
      if !Spaces.Valid(space) {
        return Err(InvalidSpace);
      }
      if Hits(fault, 3) {
        return Err(StatementFailed);
      }
      var slug := Slug(digest, space);
      if space !in registry && slug in registry.Values {
        return Err(SlugTaken);
      }
      var registry0, tables0 := registry, tables;
      var table := if space in registry then registry[space] else slug;
      registry := registry[space := table];
      if fault != Some(3) && table !in tables {
        tables := tables[table := map[]];
      }
      if Hits(fault, 6) {
        registry, tables := registry0, tables0;
        return Err(StatementFailed);
      }
      return Ok(SpaceRef(space, table));
    }
  }

  /** The fault seen from the n-th statement on. */
  function Later(fault: Option<nat>, n: nat): Option<nat> {
    if fault.Some? && fault.value >= n then Some(fault.value - n) else None
  }

  lemma BurnNothing(db: DB)
    ensures Burn(db, {}) == db
  {
    assert db.issued + {} == db.issued;
  }

  /** What the identity column handed out: fresh, increasing ids. */
  lemma IssuedTo(before: DB, ids: seq<nat>, next: nat)
    requires |ids| <= next && before.issued == Below(next - |ids|)
    requires forall k | 0 <= k < |ids| :: ids[k] == next - |ids| + k
    ensures Increasing(ids) && (forall id | id in ids :: id !in before.issued && id < next)
    ensures Below(next) == before.issued + Elements(ids)
  {
    var first := next - |ids|;
    BelowAll(first);
    BelowAll(next);
    forall id: nat ensures id in Below(next) <==> id in before.issued + Elements(ids) {
      if first <= id < next {
        assert ids[id - first] == id;
      }
    }
  }

  /** The statements of a rewrite add up to RewriteNote. */
  lemma Replaced(setup: Setup, before: DB, info: Note, nextId: nat, ids: seq<nat>, next: nat, after: DB)
    requires |ids| == |setup.cut(info.text)| && Increasing(ids)
    requires after.registry == before.registry && after.issued == before.issued + Elements(ids)
    requires forall id | id in before.chunks :: id < next
    requires forall id | id in ids :: id < next
    requires var id := RowId(before, info, nextId); var cleared := DropChunks(before, Owned(before.chunks, id));
      && after.notes == before.notes[info.path := NoteRow(id, info.name, info.text, info.hash)]
      && after.chunks == cleared.chunks + NewRows(id, ids, setup.cut(info.text))
      && after.tables == cleared.tables
    ensures after == RewriteNote(setup, before, info, nextId, ids)
    ensures forall id | id in after.chunks :: id < next
  {
    RowsOwner(RowId(before, info, nextId), ids, setup.cut(info.text));
  }

  lemma InsertedRow(noteId: nat, ids: seq<nat>, texts: seq<string>, id: nat, text: string, base: map<nat, ChunkRow>)
    requires |ids| == |texts|
    ensures (base + NewRows(noteId, ids, texts))[id := ChunkRow(noteId, |ids|, text)]
         == base + NewRows(noteId, ids + [id], texts + [text])
  {
    assert (ids + [id])[..|ids|] == ids && (texts + [text])[..|texts|] == texts;
  }
}
