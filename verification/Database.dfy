/** The database as a value: the tables of internal/migrate/migrations and each
    transaction of internal/storage as one atomic step on them.

    Row ids come from identity columns. A sequence hands out an id once, is not
    rolled back with a failed transaction, and may skip or interleave ids between
    transactions, so a step takes the ids it is given and `issued` remembers
    every chunk id that was ever handed out. */
module Database {
  import opened Outcome
  import opened Frontmatter
  import opened Ordered
  import opened Spaces
  import opened Vault

  type Vector = seq<real>

  datatype Kind = Document | Query

  /** What is fixed for the life of a database: how a file is parsed, how a text
      is cut into chunks, and what each embedding model computes. The steps and
      what they keep do not depend on which functions these are. */
  datatype Setup = Setup(
    read: string -> Result<Parsed, ParseError>,
    cut: string -> seq<string>,
    model: (Space, Kind, string) -> Vector)

  /** What a model answers to a list of texts. */
  function Embeddings(model: (Space, Kind, string) -> Vector, s: Space, kind: Kind, texts: seq<string>): seq<Vector> {
    seq(|texts|, i requires 0 <= i < |texts| => model(s, kind, texts[i]))
  }

  datatype NoteRow = NoteRow(id: nat, name: string, text: string, hash: Digest)

  datatype ChunkRow = ChunkRow(noteId: nat, index: nat, text: string)

  datatype ChunkVector = ChunkVector(chunkId: nat, vector: Vector)

  datatype DB = DB(
    notes: map<string, NoteRow>,           // notes, by its unique path
    chunks: map<nat, ChunkRow>,            // chunks, by primary key
    registry: map<Space, string>,          // embedding_spaces: the table of a space
    tables: map<string, map<nat, Vector>>, // one table per space: chunk_id -> embedding
    issued: set<nat>)                      // every chunk id ever handed out

  const EMPTY := DB(map[], map[], map[], map[], {})

  predicate Registered(db: DB, s: Space) {
    s in db.registry && db.registry[s] in db.tables
  }

  function Table(db: DB, s: Space): map<nat, Vector>
    requires Registered(db, s)
  {
    db.tables[db.registry[s]]
  }

  // ----- the transactions -----

  /** The chunk ids of a note. */
  function Owned(chunks: map<nat, ChunkRow>, noteId: nat): set<nat> {
    set id | id in chunks && chunks[id].noteId == noteId
  }

  /** Deleting chunks cascades to the vectors of every space. */
  function DropChunks(db: DB, dead: set<nat>): DB {
    db.(chunks := db.chunks - dead, tables := map t | t in db.tables :: db.tables[t] - dead)
  }

  /** The upsert writes unless the stored hash is the same. */
  predicate Stored(db: DB, note: Note) {
    note.path in db.notes && db.notes[note.path].hash == note.hash
  }

  function NewRows(noteId: nat, ids: seq<nat>, texts: seq<string>): map<nat, ChunkRow>
    requires |ids| == |texts|
    decreases |ids|
  {
    if ids == [] then map[]
    else
      var k := |ids| - 1;
      NewRows(noteId, ids[..k], texts[..k])[ids[k] := ChunkRow(noteId, k, texts[k])]
  }

  function RowId(db: DB, note: Note, noteId: nat): nat {
    if note.path in db.notes then db.notes[note.path].id else noteId
  }

  /** Ids the identity columns can hand out to a rewrite of this note. */
  predicate CanIssue(setup: Setup, db: DB, note: Note, noteId: nat, ids: seq<nat>) {
    && |ids| == |setup.cut(note.text)| && Increasing(ids)
    && (forall id | id in ids :: id !in db.issued)
    && (forall p | p in db.notes :: db.notes[p].id != noteId)
  }

  /** SaveNoteWithChunks, when the note is new or its content changed. */
  function RewriteNote(setup: Setup, db: DB, note: Note, noteId: nat, ids: seq<nat>): DB
    requires |ids| == |setup.cut(note.text)|
  {
    var id := RowId(db, note, noteId);
    var cleared := DropChunks(db, Owned(db.chunks, id));
    cleared.(
      notes := db.notes[note.path := NoteRow(id, note.name, note.text, note.hash)],
      chunks := cleared.chunks + NewRows(id, ids, setup.cut(note.text)),
      issued := db.issued + Elements(ids))
  }

  function KeptNotes(db: DB, keep: seq<string>): map<string, NoteRow> {
    map p | p in db.notes && p in keep :: db.notes[p]
  }

  /** The chunks of the notes that are not kept. */
  function Orphans(db: DB, keep: seq<string>): set<nat> {
    set id, p | p in db.notes && p !in keep && id in db.chunks && db.chunks[id].noteId == db.notes[p].id :: id
  }

  /** DeleteMissingNotes: an empty list deletes nothing. */
  function Prune(db: DB, keep: seq<string>): DB {
    if keep == [] then db
    else DropChunks(db, Orphans(db, keep)).(notes := KeptNotes(db, keep))
  }

  function PruneCount(db: DB, keep: seq<string>): nat {
    if keep == [] then 0 else |db.notes.Keys - KeptNotes(db, keep).Keys|
  }

  /** PendingChunks, without its limit: the chunks that have no vector, by id. */
  function Pending(db: DB, s: Space): seq<nat>
    requires Registered(db, s)
  {
    Sorted(db.chunks.Keys - Table(db, s).Keys)
  }

  predicate DistinctIds(batch: seq<ChunkVector>) {
    forall i, j | 0 <= i < j < |batch| :: batch[i].chunkId != batch[j].chunkId
  }

  predicate RightDimension(s: Space, batch: seq<ChunkVector>) {
    forall i | 0 <= i < |batch| :: |batch[i].vector| == s.dim
  }

  /** The insert fails whole on a wrong dimension, on an id that is not a live
      chunk, and on a chunk named twice. */
  predicate Insertable(db: DB, s: Space, batch: seq<ChunkVector>) {
    && RightDimension(s, batch) && DistinctIds(batch)
    && (forall i | 0 <= i < |batch| :: batch[i].chunkId in db.chunks)
  }

  function BatchMap(batch: seq<ChunkVector>): map<nat, Vector> {
    if batch == [] then map[]
    else BatchMap(batch[..|batch| - 1])[batch[|batch| - 1].chunkId := batch[|batch| - 1].vector]
  }

  /** SaveEmbeddings: insert, or overwrite on a conflict. */
  function SaveVectors(db: DB, s: Space, batch: seq<ChunkVector>): DB
    requires Registered(db, s)
  {
    db.(tables := db.tables[db.registry[s] := Table(db, s) + BatchMap(batch)])
  }

  /** EnsureSpace: a known space keeps its table; a new one gets an empty table
      unless another space already took the name. */
  predicate CanRegister(db: DB, s: Space, table: string) {
    Valid(s) && (s in db.registry || table !in db.registry.Values)
  }

  function Register(db: DB, s: Space, table: string): DB {
    var t := if s in db.registry then db.registry[s] else table;
    db.(registry := db.registry[s := t],
        tables := if t in db.tables then db.tables else db.tables[t := map[]])
  }

  /** Ids burned by a transaction that was rolled back. */
  function Burn(db: DB, ids: set<nat>): DB {
    db.(issued := db.issued + ids)
  }

  // ----- what every step keeps -----

  /** The chunks of a note are the given texts, in id order and by index. */
  ghost predicate ChunksMatch(chunks: map<nat, ChunkRow>, noteId: nat, texts: seq<string>) {
    var ids := Sorted(Owned(chunks, noteId));
    && |ids| == |texts|
    && forall i | 0 <= i < |ids| :: ids[i] in chunks && chunks[ids[i]] == ChunkRow(noteId, i, texts[i])
  }

  ghost predicate NotesOk(setup: Setup, db: DB) {
    && (forall p, q | p in db.notes && q in db.notes && p != q :: db.notes[p].id != db.notes[q].id)
    && (forall p | p in db.notes ::
          setup.read(db.notes[p].hash.content) == Ok(Parsed(db.notes[p].name, db.notes[p].text)))
  }

  predicate HasNote(db: DB, noteId: nat) {
    exists p :: p in db.notes && db.notes[p].id == noteId
  }

  ghost predicate ChunksOk(setup: Setup, db: DB) {
    && db.chunks.Keys <= db.issued
    && (forall id | id in db.chunks :: HasNote(db, db.chunks[id].noteId))
    && (forall p | p in db.notes ::
          ChunksMatch(db.chunks, db.notes[p].id, setup.cut(db.notes[p].text)))
  }

  ghost predicate TablesOk(db: DB) {
    && (forall s, t | s in db.registry && t in db.registry && s != t :: db.registry[s] != db.registry[t])
    && (forall s | s in db.registry :: db.registry[s] in db.tables)
    && (forall t | t in db.tables :: t in db.registry.Values)
  }

  /** Every vector of the table of s belongs to a live chunk, has the dimension of
      s, and is the embedding in s of the text the chunk has now. */
  ghost predicate FreshTable(setup: Setup, chunks: map<nat, ChunkRow>, s: Space, table: map<nat, Vector>) {
    forall id | id in table ::
      id in chunks && table[id] == setup.model(s, Document, chunks[id].text) && |table[id]| == s.dim
  }

  /** No stale vector in any space. */
  ghost predicate VectorsOk(setup: Setup, db: DB) {
    forall s | Registered(db, s) :: FreshTable(setup, db.chunks, s, Table(db, s))
  }

  ghost predicate Sound(setup: Setup, db: DB) {
    NotesOk(setup, db) && ChunksOk(setup, db) && TablesOk(db) && VectorsOk(setup, db)
  }

  lemma EmptyOk(setup: Setup)
    ensures Sound(setup, EMPTY)
  {
  }

  // ----- rewriting a note -----

  lemma ElementsSnoc(q: seq<nat>, x: nat)
    ensures Elements(q + [x]) == Elements(q) + {x}
  {
  }

  /** Row i has id number i and text number i. */
  predicate RowsAre(rows: map<nat, ChunkRow>, noteId: nat, ids: seq<nat>, texts: seq<string>)
    requires |ids| == |texts|
  {
    && rows.Keys == Elements(ids)
    && forall i | 0 <= i < |ids| :: ids[i] in rows && rows[ids[i]] == ChunkRow(noteId, i, texts[i])
  }

  lemma RowsSnoc(rows: map<nat, ChunkRow>, noteId: nat, ids: seq<nat>, texts: seq<string>, id: nat, text: string)
    requires |ids| == |texts| && RowsAre(rows, noteId, ids, texts) && forall i | 0 <= i < |ids| :: ids[i] < id
    ensures RowsAre(rows[id := ChunkRow(noteId, |ids|, text)], noteId, ids + [id], texts + [text])
  {
    ElementsSnoc(ids, id);
  }

  lemma {:induction false} NewRowsAre(noteId: nat, ids: seq<nat>, texts: seq<string>)
    requires |ids| == |texts| && Increasing(ids)
    ensures RowsAre(NewRows(noteId, ids, texts), noteId, ids, texts)
    decreases |ids|
  {
    if ids != [] {
      var k := |ids| - 1;
      NewRowsAre(noteId, ids[..k], texts[..k]);
      RowsSnoc(NewRows(noteId, ids[..k], texts[..k]), noteId, ids[..k], texts[..k], ids[k], texts[k]);
      assert ids == ids[..k] + [ids[k]] && texts == texts[..k] + [texts[k]];
    }
  }

  lemma NewRowsShape(noteId: nat, ids: seq<nat>, texts: seq<string>)
    requires |ids| == |texts| && Increasing(ids)
    ensures var rows := NewRows(noteId, ids, texts);
      && rows.Keys == Elements(ids)
      && forall i | 0 <= i < |ids| :: ids[i] in rows && rows[ids[i]] == ChunkRow(noteId, i, texts[i])
  {
    NewRowsAre(noteId, ids, texts);
  }

  /** Chunks of other notes are out of reach of a change that keeps them. */
  lemma MatchFrame(a: map<nat, ChunkRow>, b: map<nat, ChunkRow>, noteId: nat, texts: seq<string>)
    requires ChunksMatch(a, noteId, texts)
    requires forall id | id in a && a[id].noteId == noteId :: id in b && b[id] == a[id]
    requires forall id | id in b && b[id].noteId == noteId :: id in a && a[id] == b[id]
    ensures ChunksMatch(b, noteId, texts)
  {
    assert Owned(a, noteId) == Owned(b, noteId);
    SortedShape(Owned(a, noteId));
    var ids := Sorted(Owned(a, noteId));
    forall i | 0 <= i < |ids| ensures ids[i] in b && b[ids[i]] == ChunkRow(noteId, i, texts[i]) {
      assert ids[i] in Elements(ids);
    }
  }

  lemma RewriteMatches(chunks: map<nat, ChunkRow>, noteId: nat, ids: seq<nat>, texts: seq<string>)
    requires |ids| == |texts| && Increasing(ids)
    requires forall id | id in chunks :: chunks[id].noteId != noteId
    ensures ChunksMatch(chunks + NewRows(noteId, ids, texts), noteId, texts)
  {
    NewRowsShape(noteId, ids, texts);
    var rows := NewRows(noteId, ids, texts);
    var all := chunks + rows;
    RowsOwner(noteId, ids, texts);
    assert Owned(all, noteId) == Elements(ids);
    SortedOf(ids);
  }

  lemma RowsOwner(noteId: nat, ids: seq<nat>, texts: seq<string>)
    requires |ids| == |texts| && Increasing(ids)
    ensures var rows := NewRows(noteId, ids, texts);
      rows.Keys == Elements(ids) && forall id | id in rows :: rows[id].noteId == noteId
  {
    NewRowsShape(noteId, ids, texts);
    var rows := NewRows(noteId, ids, texts);
    forall id | id in rows ensures rows[id].noteId == noteId {
      assert id in Elements(ids);
      var i :| 0 <= i < |ids| && ids[i] == id;
    }
  }

  /** A note is the parse of the content it hashes. */
  predicate ReadAs(setup: Setup, note: Note) {
    setup.read(note.hash.content) == Ok(Parsed(note.name, note.text))
  }

  ghost predicate Rewrites(setup: Setup, db: DB, note: Note, noteId: nat, ids: seq<nat>) {
    Sound(setup, db) && CanIssue(setup, db, note, noteId, ids) && ReadAs(setup, note)
  }

  /** What a rewrite does to the chunks: the rows of the note go, fresh rows come,
      every other row stays. */
  lemma RewriteRows(setup: Setup, db: DB, note: Note, noteId: nat, ids: seq<nat>)
    requires CanIssue(setup, db, note, noteId, ids) && db.chunks.Keys <= db.issued
    ensures var db' := RewriteNote(setup, db, note, noteId, ids);
      var id := RowId(db, note, noteId);
      && (forall c | c in db'.chunks && c in db.chunks :: db'.chunks[c] == db.chunks[c] && db.chunks[c].noteId != id)
      && (forall c | c in db'.chunks && c !in db.chunks :: c in ids && db'.chunks[c].noteId == id)
      && (forall c | c in db.chunks && db.chunks[c].noteId != id :: c in db'.chunks)
      && (forall c | c in ids :: c in db'.chunks && c !in db.chunks)
      && (forall t | t in db.tables :: t in db'.tables && db'.tables[t] == db.tables[t] - Owned(db.chunks, id))
      && db'.tables.Keys == db.tables.Keys
  {
    var id := RowId(db, note, noteId);
    RowsOwner(id, ids, setup.cut(note.text));
  }

  lemma RewriteNotesOk(setup: Setup, db: DB, note: Note, noteId: nat, ids: seq<nat>)
    requires Rewrites(setup, db, note, noteId, ids)
    ensures NotesOk(setup, RewriteNote(setup, db, note, noteId, ids))
  {
  }

  lemma RewriteChunksOk(setup: Setup, db: DB, note: Note, noteId: nat, ids: seq<nat>)
    requires Rewrites(setup, db, note, noteId, ids)
    ensures ChunksOk(setup, RewriteNote(setup, db, note, noteId, ids))
  {
    var db' := RewriteNote(setup, db, note, noteId, ids);
    var id := RowId(db, note, noteId);
    RewriteRows(setup, db, note, noteId, ids);
    forall c | c in db'.chunks ensures HasNote(db', db'.chunks[c].noteId) {
      if c in db.chunks {
        var p :| p in db.notes && db.notes[p].id == db.chunks[c].noteId;
        assert db'.notes[p].id == db.chunks[c].noteId;
      } else {
        assert db'.notes[note.path].id == id;
      }
    }
    forall p | p in db'.notes
      ensures ChunksMatch(db'.chunks, db'.notes[p].id, setup.cut(db'.notes[p].text))
    {
      if p == note.path {
        RewriteMatches(DropChunks(db, Owned(db.chunks, id)).chunks, id, ids, setup.cut(note.text));
      } else {
        MatchFrame(db.chunks, db'.chunks, db.notes[p].id, setup.cut(db.notes[p].text));
      }
    }
  }

  /** A table stays fresh when only rows of dropped chunks change. */
  lemma FreshFrame(setup: Setup, a: map<nat, ChunkRow>, b: map<nat, ChunkRow>, s: Space,
                   table: map<nat, Vector>, dead: set<nat>)
    requires FreshTable(setup, a, s, table)
    requires forall id | id in table && id in a && id !in dead :: id in b && b[id].text == a[id].text
    ensures FreshTable(setup, b, s, table - dead)
  {
  }

  lemma RewriteTablesOk(setup: Setup, db: DB, note: Note, noteId: nat, ids: seq<nat>)
    requires Rewrites(setup, db, note, noteId, ids)
    ensures var db' := RewriteNote(setup, db, note, noteId, ids); TablesOk(db') && VectorsOk(setup, db')
  {
    var db' := RewriteNote(setup, db, note, noteId, ids);
    var dead := Owned(db.chunks, RowId(db, note, noteId));
    RewriteRows(setup, db, note, noteId, ids);
    forall s | Registered(db', s) ensures FreshTable(setup, db'.chunks, s, Table(db', s)) {
      assert Registered(db, s);
      FreshFrame(setup, db.chunks, db'.chunks, s, Table(db, s), dead);
    }
  }

  lemma RewriteOk(setup: Setup, db: DB, note: Note, noteId: nat, ids: seq<nat>)
    requires Rewrites(setup, db, note, noteId, ids)
    ensures Sound(setup, RewriteNote(setup, db, note, noteId, ids))
  {
    RewriteNotesOk(setup, db, note, noteId, ids);
    RewriteChunksOk(setup, db, note, noteId, ids);
    RewriteTablesOk(setup, db, note, noteId, ids);
  }

  // ----- pruning -----

  lemma PruneRows(setup: Setup, db: DB, keep: seq<string>)
    requires Sound(setup, db) && keep != []
    ensures var db' := Prune(db, keep);
      && (forall c | c in db'.chunks :: c in db.chunks && db'.chunks[c] == db.chunks[c])
      && (forall c, p | c in db.chunks && p in db.notes && db.notes[p].id == db.chunks[c].noteId ::
            c in db'.chunks <==> p in keep)
  {
    var db' := Prune(db, keep);
    forall c, p | c in db.chunks && p in db.notes && db.notes[p].id == db.chunks[c].noteId
      ensures c in db'.chunks <==> p in keep
    {
      if c in Orphans(db, keep) {
        var q :| q in db.notes && q !in keep && db.chunks[c].noteId == db.notes[q].id;
        assert p == q;
      }
    }
  }

  lemma PruneOk(setup: Setup, db: DB, keep: seq<string>)
    requires Sound(setup, db)
    ensures Sound(setup, Prune(db, keep))
  {
    if keep != [] {
      var db' := Prune(db, keep);
      PruneRows(setup, db, keep);
      forall c | c in db'.chunks ensures HasNote(db', db'.chunks[c].noteId) {
        var p :| p in db.notes && db.notes[p].id == db.chunks[c].noteId;
        assert p in db'.notes;
      }
      forall p | p in db'.notes
        ensures ChunksMatch(db'.chunks, db'.notes[p].id, setup.cut(db'.notes[p].text))
      {
        MatchFrame(db.chunks, db'.chunks, db.notes[p].id, setup.cut(db.notes[p].text));
      }
      PruneTablesOk(setup, db, keep);
    }
  }

  /** A prune that has paths to keep leaves exactly the notes at those paths, as they
      were, and counts the others. */
  lemma PruneExactly(db: DB, keep: seq<string>)
    ensures var db' := Prune(db, keep);
      && (forall p :: p in db'.notes <==> p in db.notes && (keep == [] || p in keep))
      && (forall p | p in db'.notes :: db'.notes[p] == db.notes[p])
      && PruneCount(db, keep) == |db.notes| - |db'.notes|
  {
    var kept := Prune(db, keep).notes;
    var gone := db.notes.Keys - kept.Keys;
    assert db.notes.Keys == kept.Keys + gone;
    assert |db.notes.Keys| == |kept.Keys| + |gone|;
  }

  lemma PruneTablesOk(setup: Setup, db: DB, keep: seq<string>)
    requires Sound(setup, db) && keep != []
    ensures TablesOk(Prune(db, keep)) && VectorsOk(setup, Prune(db, keep))
  {
    var db' := Prune(db, keep);
    var dead := Orphans(db, keep);
    forall s | Registered(db', s) ensures FreshTable(setup, db'.chunks, s, Table(db', s)) {
      assert Registered(db, s);
      FreshFrame(setup, db.chunks, db'.chunks, s, Table(db, s), dead);
    }
  }

  // ----- saving vectors -----

  /** A looked-up vector is one of the batch. */
  lemma {:induction false} BatchLookup(batch: seq<ChunkVector>, id: nat) returns (i: nat)
    requires id in BatchMap(batch)
    ensures i < |batch| && batch[i].chunkId == id && batch[i].vector == BatchMap(batch)[id]
  {
    var k := |batch| - 1;
    if batch[k].chunkId == id {
      i := k;
    } else {
      i := BatchLookup(batch[..k], id);
    }
  }

  lemma {:induction false} BatchHas(batch: seq<ChunkVector>, i: nat)
    requires i < |batch|
    ensures batch[i].chunkId in BatchMap(batch)
  {
    var k := |batch| - 1;
    if i < k {
      BatchHas(batch[..k], i);
    }
  }

  /** Saving a batch without repeats stores each of its rows, and moves no other. */
  lemma SavedRows(db: DB, s: Space, batch: seq<ChunkVector>)
    requires Registered(db, s) && DistinctIds(batch)
    ensures Registered(SaveVectors(db, s, batch), s)
    ensures var t, t' := Table(db, s), Table(SaveVectors(db, s, batch), s);
      && (forall i | 0 <= i < |batch| :: batch[i].chunkId in t' && t'[batch[i].chunkId] == batch[i].vector)
      && (forall id | id in t :: id in t')
      && (forall id | id in t' && (forall i | 0 <= i < |batch| :: batch[i].chunkId != id) :: id in t && t'[id] == t[id])
  {
    forall i | 0 <= i < |batch|
      ensures batch[i].chunkId in BatchMap(batch) && BatchMap(batch)[batch[i].chunkId] == batch[i].vector
    {
      BatchHas(batch, i);
      var j := BatchLookup(batch, batch[i].chunkId);
    }
    forall id | id in BatchMap(batch) ensures exists i :: 0 <= i < |batch| && batch[i].chunkId == id {
      var i := BatchLookup(batch, id);
    }
  }

  /** Each vector of the batch is the embedding of the text its chunk has now. */
  predicate Truthful(setup: Setup, db: DB, s: Space, batch: seq<ChunkVector>) {
    forall i | 0 <= i < |batch| && batch[i].chunkId in db.chunks ::
      batch[i].vector == setup.model(s, Document, db.chunks[batch[i].chunkId].text)
  }

  lemma SaveVectorsOk(setup: Setup, db: DB, s: Space, batch: seq<ChunkVector>)
    requires Sound(setup, db) && Registered(db, s)
    requires Insertable(db, s, batch) && Truthful(setup, db, s, batch)
    ensures Sound(setup, SaveVectors(db, s, batch))
  {
    var db' := SaveVectors(db, s, batch);
    forall t | Registered(db', t) ensures FreshTable(setup, db'.chunks, t, Table(db', t)) {
      if t == s {
        SavedFresh(setup, db, s, batch);
      } else {
        assert Registered(db, t) && Table(db', t) == Table(db, t);
      }
    }
  }

  lemma SavedFresh(setup: Setup, db: DB, s: Space, batch: seq<ChunkVector>)
    requires Registered(db, s) && FreshTable(setup, db.chunks, s, Table(db, s))
    requires Insertable(db, s, batch) && Truthful(setup, db, s, batch)
    ensures FreshTable(setup, db.chunks, s, Table(db, s) + BatchMap(batch))
  {
    forall id | id in BatchMap(batch)
      ensures id in db.chunks && |BatchMap(batch)[id]| == s.dim
      ensures BatchMap(batch)[id] == setup.model(s, Document, db.chunks[id].text)
    {
      var i := BatchLookup(batch, id);
    }
  }

  // ----- registering a space -----

  lemma RegisterOk(setup: Setup, db: DB, s: Space, table: string)
    requires Sound(setup, db) && CanRegister(db, s, table)
    ensures Sound(setup, Register(db, s, table)) && Registered(Register(db, s, table), s)
  {
    if s in db.registry {
      RegisterKnown(db, s, table);
    } else {
      RegisterTables(db, s, table);
      var db' := Register(db, s, table);
      forall t | Registered(db', t) ensures FreshTable(setup, db'.chunks, t, Table(db', t)) {
        if t != s {
          assert Registered(db, t) && Table(db', t) == Table(db, t);
        }
      }
    }
  }

  /** A new space gets an empty table of this name, a known one keeps its own, and no
      other space changes. */
  lemma RegisteredAs(db: DB, s: Space, table: string)
    requires TablesOk(db) && CanRegister(db, s, table)
    ensures var db' := Register(db, s, table);
      && (s !in db.registry ==> db'.registry == db.registry[s := table] && db'.tables == db.tables[table := map[]])
      && (s in db.registry ==> db' == db) && CanRegister(db', s, table)
      && db'.notes == db.notes && db'.chunks == db.chunks
  {
    if s in db.registry {
      RegisterKnown(db, s, table);
    } else {
      RegisterTables(db, s, table);
    }
  }

  lemma RegisterKnown(db: DB, s: Space, table: string)
    requires Registered(db, s)
    ensures Register(db, s, table) == db
  {
    assert db.registry[s := db.registry[s]] == db.registry;
  }

  lemma RegisterTables(db: DB, s: Space, table: string)
    requires TablesOk(db) && s !in db.registry && table !in db.registry.Values
    ensures table !in db.tables
    ensures TablesOk(Register(db, s, table))
  {
    var db' := Register(db, s, table);
    assert db'.registry[s] == table;
    forall t | t in db'.tables ensures t in db'.registry.Values {
      if t != table {
        var o :| o in db.registry && db.registry[o] == t;
        assert db'.registry[o] == t;
      }
    }
    forall o | o in db.registry ensures db.registry[o] != table {
      assert db.registry[o] in db.registry.Values;
    }
  }

  /** Registering twice is registering once, and no two spaces share a table. */
  lemma RegisterIdempotent(setup: Setup, db: DB, s: Space, table: string, other: string)
    requires Sound(setup, db) && CanRegister(db, s, table)
    ensures var db' := Register(db, s, table);
      && CanRegister(db', s, other) && Register(db', s, other) == db'
      && (forall a, b | Registered(db', a) && Registered(db', b) && a != b :: db'.registry[a] != db'.registry[b])
  {
    RegisterOk(setup, db, s, table);
    RegisterKnown(Register(db, s, table), s, other);
  }

  /** A newly registered space has every chunk pending. */
  lemma NewSpacePending(setup: Setup, db: DB, s: Space, table: string)
    requires Sound(setup, db) && CanRegister(db, s, table) && s !in db.registry
    ensures Registered(Register(db, s, table), s)
    ensures Pending(Register(db, s, table), s) == Sorted(db.chunks.Keys)
  {
    RegisterTables(db, s, table);
    var db' := Register(db, s, table);
    assert Table(db', s) == map[];
    assert db'.chunks.Keys - Table(db', s).Keys == db.chunks.Keys;
  }

  // ----- the id-free view -----

  datatype ChunkView = ChunkView(index: nat, text: string, vector: Option<Vector>)

  datatype NoteView = NoteView(name: string, text: string, chunks: seq<ChunkView>)

  function ChunkViewOf(db: DB, s: Space, id: nat): ChunkView
    requires Registered(db, s) && id in db.chunks
  {
    ChunkView(db.chunks[id].index, db.chunks[id].text,
              if id in Table(db, s) then Some(Table(db, s)[id]) else None)
  }

  function NoteViewOf(db: DB, s: Space, row: NoteRow): NoteView
    requires Registered(db, s)
  {
    var ids := Sorted(Owned(db.chunks, row.id));
    NoteView(row.name, row.text,
             seq(|ids|, i requires 0 <= i < |ids| =>
                 SortedMember(Owned(db.chunks, row.id), ids[i]);
                 ChunkViewOf(db, s, ids[i])))
  }

  /** Everything about the notes and one space except ids. */
  function View(db: DB, s: Space): map<string, NoteView>
    requires Registered(db, s)
  {
    map p | p in db.notes :: NoteViewOf(db, s, db.notes[p])
  }

  /** What a note looks like after being indexed from scratch. */
  function FreshView(setup: Setup, s: Space, name: string, text: string): NoteView {
    var texts := setup.cut(text);
    NoteView(name, text,
             seq(|texts|, i requires 0 <= i < |texts| =>
                 ChunkView(i, texts[i], Some(setup.model(s, Document, texts[i])))))
  }

  lemma SettledChunk(setup: Setup, db: DB, s: Space, id: nat)
    requires Registered(db, s) && FreshTable(setup, db.chunks, s, Table(db, s))
    requires Pending(db, s) == [] && id in db.chunks
    ensures ChunkViewOf(db, s, id)
         == ChunkView(db.chunks[id].index, db.chunks[id].text, Some(setup.model(s, Document, db.chunks[id].text)))
  {
    SortedMember(db.chunks.Keys - Table(db, s).Keys, id);
  }

  /** When nothing is pending, a stored note looks as if indexed from scratch. */
  lemma SettledView(setup: Setup, db: DB, s: Space, path: string)
    requires Sound(setup, db) && Registered(db, s) && Pending(db, s) == []
    requires path in db.notes
    ensures NoteViewOf(db, s, db.notes[path]) == FreshView(setup, s, db.notes[path].name, db.notes[path].text)
  {
    var row := db.notes[path];
    var texts := setup.cut(row.text);
    assert ChunksMatch(db.chunks, row.id, texts);
    SettledNote(setup, db, s, row, texts);
  }

  lemma SettledNote(setup: Setup, db: DB, s: Space, row: NoteRow, texts: seq<string>)
    requires Registered(db, s) && FreshTable(setup, db.chunks, s, Table(db, s))
    requires Pending(db, s) == [] && texts == setup.cut(row.text)
    requires ChunksMatch(db.chunks, row.id, texts)
    ensures NoteViewOf(db, s, row) == FreshView(setup, s, row.name, row.text)
  {
    var got, want := NoteViewOf(db, s, row), FreshView(setup, s, row.name, row.text);
    var ids := Sorted(Owned(db.chunks, row.id));
    forall i | 0 <= i < |ids| ensures got.chunks[i] == want.chunks[i] {
      SettledChunk(setup, db, s, ids[i]);
      assert db.chunks[ids[i]] == ChunkRow(row.id, i, texts[i]);
    }
    assert got.chunks == want.chunks;
  }

  // ----- coverage -----

  datatype Stats = Stats(notes: nat, chunks: nat, embedded: nat)

  function StatsOf(db: DB, s: Space): Stats
    requires Registered(db, s)
  {
    Stats(|db.notes|, |db.chunks|, |Table(db, s)|)
  }

  /** Embedded never exceeds Chunks, with equality exactly when none is pending. */
  lemma Coverage(setup: Setup, db: DB, s: Space)
    requires Sound(setup, db) && Registered(db, s)
    ensures var st := StatsOf(db, s);
      st.embedded + |Pending(db, s)| == st.chunks && (st.embedded == st.chunks <==> Pending(db, s) == [])
  {
    var have, all := Table(db, s).Keys, db.chunks.Keys;
    assert FreshTable(setup, db.chunks, s, Table(db, s));
    SortedShape(all - have);
    Difference(all, have);
  }

  lemma Difference(all: set<nat>, have: set<nat>)
    requires have <= all
    ensures |have| + |all - have| == |all|
  {
    assert all == have + (all - have);
  }
}
