/** A pass gets through: alone in the database, with no step failing and vectors of
    the right dimension, it reaches its end, and it has then not failed. */
module Progress {
  import opened Ordered
  import opened Spaces
  import opened Vault
  import opened Database
  import opened Passes

  // ----- texts the space can hold -----

  /** The model gives the text a vector of the dimension of the space. */
  predicate Fits(setup: Setup, s: Space, text: string) {
    |setup.model(s, Document, text)| == s.dim
  }

  predicate CutFits(setup: Setup, s: Space, texts: seq<string>) {
    forall i | 0 <= i < |texts| :: Fits(setup, s, texts[i])
  }

  predicate NotesFit(setup: Setup, s: Space, notes: seq<Note>) {
    forall i | 0 <= i < |notes| :: CutFits(setup, s, setup.cut(notes[i].text))
  }

  predicate ChunksFit(setup: Setup, s: Space, chunks: map<nat, ChunkRow>) {
    forall id | id in chunks :: Fits(setup, s, chunks[id].text)
  }

  // ----- what a pass that is alone keeps -----

  /** The claimed chunks that are not saved yet are live and pending. */
  predicate ClaimsPending(db: DB, p: Pass)
    requires Registered(db, p.space)
  {
    p.phase.Calling? || p.phase.Saving?
    ==> forall i | p.start <= i < |p.pending| :: p.pending[i].id in db.chunks && p.pending[i].id !in Table(db, p.space)
  }

  predicate NotStuck(p: Pass) {
    p.phase.Done? ==> p.phase == Done(Nil(p))
  }

  ghost predicate Healthy(setup: Setup, db: DB, p: Pass) {
    && PassOk(setup, db, p) && NotStuck(p) && ClaimsPending(db, p)
    && NotesFit(setup, p.space, p.scan.notes) && ChunksFit(setup, p.space, db.chunks)
  }

  lemma RewriteFits(setup: Setup, db: DB, s: Space, note: Note, noteId: nat, ids: seq<nat>)
    requires CanIssue(setup, db, note, noteId, ids)
    requires ChunksFit(setup, s, db.chunks) && CutFits(setup, s, setup.cut(note.text))
    ensures ChunksFit(setup, s, RewriteNote(setup, db, note, noteId, ids).chunks)
  {
    var id, texts := RowId(db, note, noteId), setup.cut(note.text);
    NewRowsShape(id, ids, texts);
    var rows := NewRows(id, ids, texts);
    forall c | c in rows ensures Fits(setup, s, rows[c].text) {
      assert c in Elements(ids);
      var i :| 0 <= i < |ids| && ids[i] == c;
    }
  }

  lemma StoreFits(setup: Setup, db: DB, p: Pass, ev: Event)
    requires p.phase.Storing? && Shape(p) && ev.Commit?
    requires NotesFit(setup, p.space, p.scan.notes) && ChunksFit(setup, p.space, db.chunks)
    ensures var r := StoreStep(setup, db, p, ev);
      && ChunksFit(setup, p.space, r.0.chunks) && Nil(r.1) == Nil(p)
      && (r.1.phase.Storing? || r.1.phase.Pruning? || r.1.phase.Listing?)
  {
    var note := p.scan.notes[p.next];
    if CanIssue(setup, db, note, ev.noteId, ev.ids) {
      RewriteFits(setup, db, p.space, note, ev.noteId, ev.ids);
    }
  }

  lemma PruneFits(setup: Setup, db: DB, p: Pass, ev: Event)
    requires p.phase.Pruning? && ev.Commit? && ChunksFit(setup, p.space, db.chunks)
    ensures var r := PruneStep(db, p, ev);
      ChunksFit(setup, p.space, r.0.chunks) && Nil(r.1) == Nil(p) && r.1.phase.Listing?
  {
  }

  lemma ListPending(db: DB, p: Pass, ev: Event)
    requires p.phase.Listing? && ev.Commit? && Registered(db, p.space)
    ensures var r := ListStep(db, p, ev);
      r.0 == db && Nil(r.1) == Nil(p) && (r.1.phase.Calling? || r.1.phase == Done(Nil(p))) && ClaimsPending(db, r.1)
  {
    PendingLive(db, p.space);
  }

  /** The part about to be saved is insertable. */
  lemma PartInsertable(setup: Setup, db: DB, p: Pass)
    requires Sound(setup, db) && Healthy(setup, db, p) && p.phase.Saving?
    ensures Insertable(db, p.space, Batch(Part(p), p.phase.vectors))
  {
    var batch := Batch(Part(p), p.phase.vectors);
    PartShape(p);
    PartTruthful(setup, db, p);
    forall i | 0 <= i < |batch|
      ensures batch[i].chunkId in db.chunks && |batch[i].vector| == p.space.dim
    {
      var c := p.pending[p.start + i];
      assert Part(p)[i] == c && HonestClaim(db, c);
      assert Fits(setup, p.space, db.chunks[c.id].text);
    }
  }

  lemma SaveGoesThrough(setup: Setup, db: DB, p: Pass, ev: Event)
    requires Sound(setup, db) && Healthy(setup, db, p) && p.phase.Saving? && ev.Commit?
    ensures var r := SaveStep(db, p, ev);
      && r.0 == SaveVectors(db, p.space, Batch(Part(p), p.phase.vectors))
      && r.1 == p.(phase := if PartEnd(p) < |p.pending| then Calling else Listing, start := PartEnd(p),
                   res := p.res.(embedded := p.res.embedded + |Part(p)|))
  {
    PartInsertable(setup, db, p);
  }

  lemma SavePending(setup: Setup, db: DB, p: Pass, ev: Event)
    requires Sound(setup, db) && Healthy(setup, db, p) && p.phase.Saving? && ev.Commit?
    ensures var r := SaveStep(db, p, ev);
      && r.0 == SaveVectors(db, p.space, Batch(Part(p), p.phase.vectors)) && Registered(r.0, p.space)
      && r.1.space == p.space && ClaimsPending(r.0, r.1) && Nil(r.1) == Nil(p)
      && (r.1.phase.Calling? || r.1.phase.Listing?)
  {
    SaveGoesThrough(setup, db, p, ev);
    RestPending(db, p);
  }

  /** Saving a part leaves the claims after it pending. */
  lemma RestPending(db: DB, p: Pass)
    requires Registered(db, p.space) && p.phase.Saving? && Shape(p)
    requires ClaimsPending(db, p) && DistinctClaims(p.pending)
    ensures var db' := SaveVectors(db, p.space, Batch(Part(p), p.phase.vectors));
      Registered(db', p.space)
      && forall i | PartEnd(p) <= i < |p.pending| ::
           p.pending[i].id in db'.chunks && p.pending[i].id !in Table(db', p.space)
  {
    var batch := Batch(Part(p), p.phase.vectors);
    PartShape(p);
    SavedRows(db, p.space, batch);
    forall j | PartEnd(p) <= j < |p.pending|
      ensures p.pending[j].id !in Table(SaveVectors(db, p.space, batch), p.space)
    {
      assert forall i | 0 <= i < |batch| :: batch[i].chunkId == p.pending[p.start + i].id;
    }
  }

  /** A step that works keeps a pass that is alone healthy. */
  lemma HealthyStep(setup: Setup, db: DB, p: Pass, ev: Event)
    requires Sound(setup, db) && Healthy(setup, db, p) && ev.Commit?
    ensures var r := Step(setup, db, p, ev); Sound(setup, r.0) && Healthy(setup, r.0, r.1) && Nil(r.1) == Nil(p)
  {
    StepOk(setup, db, p, ev);
    StepSameScan(setup, db, p, ev);
    match p.phase {
      case Storing => StoreFits(setup, db, p, ev);
      case Pruning => PruneFits(setup, db, p, ev);
      case Listing => ListPending(db, p, ev);
      case Calling =>
      case Saving(_) => SavePending(setup, db, p, ev);
      case Done(_) =>
    }
  }

  predicate AllCommit(evs: seq<Event>) {
    forall i | 0 <= i < |evs| :: evs[i].Commit?
  }

  lemma BeginHealthy(setup: Setup, db: DB, s: Space, scan: Scanned, size: Positive)
    requires Registered(db, s) && ScanRead(setup, scan)
    requires NotesFit(setup, s, scan.notes) && ChunksFit(setup, s, db.chunks)
    ensures Healthy(setup, db, Begin(s, scan, size)) && Begin(s, scan, size).res.failed == 0
  {
  }

  // ----- and it ends -----

  lemma {:induction false} UpperBound(ids: set<nat>) returns (b: nat)
    ensures forall id | id in ids :: id < b
  {
    if ids == {} {
      b := 0;
    } else {
      var id :| id in ids;
      var rest := UpperBound(ids - {id});
      b := if id < rest then rest else id + 1;
      assert forall x | x in ids :: x == id || x in ids - {id};
    }
  }

  /** Row ids that were never handed out. */
  lemma NewIds(setup: Setup, db: DB, note: Note) returns (ev: Event)
    ensures ev.Commit? && CanIssue(setup, db, note, ev.noteId, ev.ids)
  {
    var first := UpperBound(db.issued);
    var used := set p | p in db.notes :: db.notes[p].id;
    var noteId := UpperBound(used);
    assert forall p | p in db.notes :: db.notes[p].id in used;
    ev := Commit(noteId, seq(|setup.cut(note.text)|, i requires 0 <= i < |setup.cut(note.text)| => first + i));
  }

  function Stage(p: Pass): nat
    requires Shape(p)
  {
    if p.phase.Storing? then |p.scan.notes| - p.next + 1 else if p.phase.Pruning? then 1 else 0
  }

  /** The chunks still to embed. */
  function Remaining(db: DB, s: Space): set<nat> {
    if Registered(db, s) then db.chunks.Keys - Table(db, s).Keys else {}
  }

  function Rank(p: Pass): nat {
    if p.phase.Listing? then 2 else if p.phase.Calling? then 1 else 0
  }

  lemma SaveShrinks(setup: Setup, db: DB, p: Pass, ev: Event)
    requires Sound(setup, db) && Healthy(setup, db, p) && p.phase.Saving? && ev.Commit?
    ensures |Remaining(SaveStep(db, p, ev).0, p.space)| < |Remaining(db, p.space)|
  {
    var batch, c := Batch(Part(p), p.phase.vectors), p.pending[p.start].id;
    SavePending(setup, db, p, ev);
    SavedRows(db, p.space, batch);
    PartShape(p);
    assert batch[0].chunkId == c;
    var before, after := Remaining(db, p.space), Remaining(SaveStep(db, p, ev).0, p.space);
    assert after <= before && c in before && c !in after;
    Smaller(after, before, c);
  }

  lemma Smaller(a: set<nat>, b: set<nat>, c: nat)
    requires a <= b && c in b && c !in a
    ensures |a| < |b|
  {
    assert b == a + (b - a) && c in b - a;
  }

  /** The event that makes this step do its work. */
  lemma NextEvent(setup: Setup, db: DB, p: Pass) returns (ev: Event)
    requires Shape(p)
    ensures ev.Commit?
    ensures p.phase.Storing? && !Stored(db, p.scan.notes[p.next])
            ==> CanIssue(setup, db, p.scan.notes[p.next], ev.noteId, ev.ids)
  {
    if p.phase.Storing? {
      ev := NewIds(setup, db, p.scan.notes[p.next]);
    } else {
      ev := Commit(0, []);
    }
  }

  lemma StoreMoves(setup: Setup, db: DB, p: Pass, ev: Event)
    requires p.phase.Storing? && Shape(p) && ev.Commit?
    requires Stored(db, p.scan.notes[p.next]) || CanIssue(setup, db, p.scan.notes[p.next], ev.noteId, ev.ids)
    ensures var q := StoreStep(setup, db, p, ev).1; Shape(q) && Stage(q) < Stage(p)
  {
  }

  predicate Lower(a: (nat, nat, nat), b: (nat, nat, nat)) {
    a.0 < b.0 || (a.0 == b.0 && (a.1 < b.1 || (a.1 == b.1 && a.2 < b.2)))
  }

  function Distance(db: DB, p: Pass): (nat, nat, nat)
    requires Shape(p)
  {
    (Stage(p), |Remaining(db, p.space)|, Rank(p))
  }

  lemma ListCloser(db: DB, p: Pass, ev: Event)
    requires p.phase.Listing? && ev.Commit? && Registered(db, p.space)
    ensures var r := ListStep(db, p, ev); Shape(r.1) && Lower(Distance(r.0, r.1), Distance(db, p))
  {
  }

  lemma CallCloser(setup: Setup, db: DB, p: Pass, ev: Event)
    requires p.phase.Calling? && Shape(p) && ev.Commit?
    ensures var r := CallStep(setup, db, p, ev); Shape(r.1) && Lower(Distance(r.0, r.1), Distance(db, p))
  {
  }

  lemma SaveCloser(setup: Setup, db: DB, p: Pass, ev: Event)
    requires Sound(setup, db) && Healthy(setup, db, p) && p.phase.Saving? && ev.Commit?
    ensures var r := SaveStep(db, p, ev); Shape(r.1) && Lower(Distance(r.0, r.1), Distance(db, p))
  {
    SavePending(setup, db, p, ev);
    SaveShrinks(setup, db, p, ev);
  }

  lemma StepCloser(setup: Setup, db: DB, p: Pass, ev: Event)
    requires Sound(setup, db) && Healthy(setup, db, p) && !p.phase.Done? && ev.Commit?
    requires p.phase.Storing? ==>
               var note := p.scan.notes[p.next]; Stored(db, note) || CanIssue(setup, db, note, ev.noteId, ev.ids)
    ensures var r := Step(setup, db, p, ev); Lower(Distance(r.0, r.1), Distance(db, p))
  {
    match p.phase {
      case Storing => StoreMoves(setup, db, p, ev);
      case Pruning =>
      case Listing => ListCloser(db, p, ev);
      case Calling => CallCloser(setup, db, p, ev);
      case Saving(_) => SaveCloser(setup, db, p, ev);
    }
  }

  lemma RunFirst(setup: Setup, db: DB, p: Pass, ev: Event, rest: seq<Event>)
    requires Shape(p)
    ensures var r := Step(setup, db, p, ev); Run(setup, db, p, [ev] + rest) == Run(setup, r.0, r.1, rest)
  {
    RunAppend(setup, db, p, [ev], rest);
    RunSnoc(setup, db, p, [], ev);
    assert [] + [ev] == [ev];
  }

  lemma CommitFirst(ev: Event, rest: seq<Event>)
    requires ev.Commit? && AllCommit(rest)
    ensures AllCommit([ev] + rest)
  {
  }

  /** One step that works, and what it leads to. */
  lemma StepDown(setup: Setup, db: DB, p: Pass) returns (ev: Event, db': DB, q: Pass)
    requires Sound(setup, db) && Healthy(setup, db, p) && !p.phase.Done?
    ensures ev.Commit? && Sound(setup, db') && Healthy(setup, db', q) && Nil(q) == Nil(p)
    ensures Lower(Distance(db', q), Distance(db, p))
    ensures forall rest :: Run(setup, db, p, [ev] + rest) == Run(setup, db', q, rest)
  {
    ev := NextEvent(setup, db, p);
    HealthyStep(setup, db, p, ev);
    StepCloser(setup, db, p, ev);
    db', q := Step(setup, db, p, ev).0, Step(setup, db, p, ev).1;
    forall rest ensures Run(setup, db, p, [ev] + rest) == Run(setup, db', q, rest) {
      RunFirst(setup, db, p, ev, rest);
    }
  }

  /** From any point at which it is healthy, a pass that is alone has a way to its
      end on which no step fails. */
  lemma {:induction false} Finishes(setup: Setup, db: DB, p: Pass) returns (evs: seq<Event>)
    requires Sound(setup, db) && Healthy(setup, db, p)
    ensures AllCommit(evs) && Run(setup, db, p, evs).1.phase == Done(Nil(p))
    decreases Distance(db, p).0, Distance(db, p).1, Distance(db, p).2
  {
    if p.phase.Done? {
      evs := [];
    } else {
      var ev, db', q := StepDown(setup, db, p);
      var rest := Finishes(setup, db', q);
      evs := [ev] + rest;
      CommitFirst(ev, rest);
    }
  }

  /** Progress: over any scan, from any sound database that has the space, a pass
      whose texts the space can hold has a run that returns nil. */
  lemma PassSucceeds(setup: Setup, db: DB, s: Space, scan: Scanned, size: Positive) returns (evs: seq<Event>)
    requires Sound(setup, db) && Registered(db, s) && ScanRead(setup, scan)
    requires NotesFit(setup, s, scan.notes) && ChunksFit(setup, s, db.chunks)
    ensures AllCommit(evs)
    ensures Run(setup, db, Begin(s, scan, size), evs).1.phase == Done(Success)
  {
    BeginHealthy(setup, db, s, scan, size);
    evs := Finishes(setup, db, Begin(s, scan, size));
  }

  /** While no step fails, a pass that is alone stays healthy; so if it is over, it
      returned nil, or the errors of the notes it had failed to store before. */
  lemma {:induction false} CommitsKeepHealthy(setup: Setup, db: DB, p: Pass, evs: seq<Event>)
    requires Sound(setup, db) && Healthy(setup, db, p) && AllCommit(evs)
    ensures var r := Run(setup, db, p, evs); Sound(setup, r.0) && Healthy(setup, r.0, r.1) && Nil(r.1) == Nil(p)
    decreases |evs|
  {
    if evs != [] {
      var k := |evs| - 1;
      CommitsKeepHealthy(setup, db, p, evs[..k]);
      var before := Run(setup, db, p, evs[..k]);
      HealthyStep(setup, before.0, before.1, evs[k]);
    }
  }
}
