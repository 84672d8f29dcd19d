/** Incremental indexing agrees with a rebuild, keeps what it could not read, and
    is idempotent (knowledge/knowledge.go, Index): whole passes running alone, from
    any database that any history of passes can have left. */
module Rebuild {
  import opened Outcome
  import opened Arithmetic
  import opened Ordered
  import opened Spaces
  import opened Vault
  import opened Database
  import opened Passes
  import opened Losses
  import opened Progress

  // ----- a note the pass does not touch -----

  /** The note, its chunks and their ids are the same, and no vector was lost. */
  ghost predicate Retains(db: DB, db': DB, path: string)
    requires path in db.notes
  {
    var noteId := db.notes[path].id;
    && path in db'.notes && db'.notes[path] == db.notes[path]
    && (forall id | id in db.chunks && db.chunks[id].noteId == noteId ::
          id in db'.chunks && db'.chunks[id] == db.chunks[id])
    && (forall id | id in db'.chunks && db'.chunks[id].noteId == noteId ::
          id in db.chunks && db.chunks[id] == db'.chunks[id])
    && (forall s | Registered(db, s) :: Registered(db', s) && KeepsVectors(db, db', s, noteId))
  }

  ghost predicate KeepsVectors(db: DB, db': DB, s: Space, noteId: nat)
    requires Registered(db, s) && Registered(db', s)
  {
    forall id | id in Table(db, s) && id in db.chunks && db.chunks[id].noteId == noteId :: id in Table(db', s)
  }

  lemma RetainsItself(db: DB, path: string)
    requires path in db.notes
    ensures Retains(db, db, path)
  {
  }

  lemma RetainsTransitive(a: DB, b: DB, c: DB, path: string)
    requires path in a.notes && Retains(a, b, path) && Retains(b, c, path)
    ensures Retains(a, c, path)
  {
    var noteId := a.notes[path].id;
    forall s | Registered(a, s) ensures Registered(c, s) && KeepsVectors(a, c, s, noteId) {
      assert Registered(b, s) && KeepsVectors(a, b, s, noteId);
      assert Registered(c, s) && KeepsVectors(b, c, s, noteId);
    }
  }

  lemma RewriteRetains(setup: Setup, db: DB, note: Note, noteId: nat, ids: seq<nat>, path: string)
    requires Rewrites(setup, db, note, noteId, ids) && path in db.notes && path != note.path
    ensures Retains(db, RewriteNote(setup, db, note, noteId, ids), path)
  {
    RewriteRows(setup, db, note, noteId, ids);
  }

  lemma PruneRetains(setup: Setup, db: DB, keep: seq<string>, path: string)
    requires Sound(setup, db) && path in db.notes && path in keep
    ensures Retains(db, Prune(db, keep), path)
  {
    if keep != [] {
      PruneRows(setup, db, keep);
    }
  }

  lemma SaveRetains(setup: Setup, db: DB, p: Pass, ev: Event, path: string)
    requires Sound(setup, db) && p.phase.Saving? && Shape(p) && path in db.notes
    ensures Retains(db, SaveStep(db, p, ev).0, path)
  {
    var db' := SaveStep(db, p, ev).0;
    forall s | Registered(db, s) ensures Registered(db', s) && KeepsVectors(db, db', s, db.notes[path].id) {
      SaveGains(db, p, ev, s);
    }
  }

  lemma StoreRetains(setup: Setup, db: DB, p: Pass, ev: Event, path: string)
    requires Sound(setup, db) && p.phase.Storing? && Shape(p) && ScanRead(setup, p.scan)
    requires path in db.notes && path in p.scan.skipped
    ensures Retains(db, StoreStep(setup, db, p, ev).0, path)
  {
    var note := p.scan.notes[p.next];
    assert note.path != path;
    if ev.Commit? && !Stored(db, note) && CanIssue(setup, db, note, ev.noteId, ev.ids) {
      RewriteRetains(setup, db, note, ev.noteId, ev.ids, path);
    }
  }

  lemma PruneStepRetains(setup: Setup, db: DB, p: Pass, ev: Event, path: string)
    requires Sound(setup, db) && path in db.notes && path in p.scan.skipped
    ensures Retains(db, PruneStep(db, p, ev).0, path)
  {
    PruneRetains(setup, db, Keep(p.scan), path);
    RetainsItself(db, path);
  }

  lemma StepRetains(setup: Setup, db: DB, p: Pass, ev: Event, path: string)
    requires Sound(setup, db) && PassOk(setup, db, p) && path in db.notes
    requires path in p.scan.skipped
    ensures Retains(db, Step(setup, db, p, ev).0, path)
  {
    match p.phase {
      case Storing => StoreRetains(setup, db, p, ev, path);
      case Pruning => PruneStepRetains(setup, db, p, ev, path);
      case Saving(_) => SaveRetains(setup, db, p, ev, path);
      case Listing => RetainsItself(db, path);
      case Calling => RetainsItself(db, path);
      case Done(_) => RetainsItself(db, path);
    }
  }

  lemma {:induction false} RunOk(setup: Setup, db: DB, p: Pass, evs: seq<Event>)
    requires Sound(setup, db) && PassOk(setup, db, p)
    ensures var r := Run(setup, db, p, evs);
      Sound(setup, r.0) && PassOk(setup, r.0, r.1) && r.1.scan == p.scan && r.1.space == p.space && r.1.size == p.size
    decreases |evs|
  {
    if evs != [] {
      var k := |evs| - 1;
      RunOk(setup, db, p, evs[..k]);
      var before := Run(setup, db, p, evs[..k]);
      StepOk(setup, before.0, before.1, evs[k]);
      StepSameScan(setup, before.0, before.1, evs[k]);
    }
  }

  lemma BeginOk(setup: Setup, db: DB, space: Space, scan: Scanned, size: Positive)
    requires Registered(db, space) && ScanRead(setup, scan)
    ensures PassOk(setup, db, Begin(space, scan, size))
  {
  }

  /** A skipped note keeps its row, its chunks with their ids, and every vector,
      through a whole pass, however the pass ends. */
  lemma {:induction false} SkippedNoteKept(setup: Setup, db: DB, p: Pass, evs: seq<Event>, path: string)
    requires Sound(setup, db) && PassOk(setup, db, p)
    requires path in db.notes && path in p.scan.skipped
    ensures Retains(db, Run(setup, db, p, evs).0, path)
    decreases |evs|
  {
    if evs != [] {
      var k := |evs| - 1;
      var before := Run(setup, db, p, evs[..k]);
      SkippedNoteKept(setup, db, p, evs[..k], path);
      RunOk(setup, db, p, evs[..k]);
      StepRetains(setup, before.0, before.1, evs[k], path);
      RetainsTransitive(db, before.0, Run(setup, db, p, evs).0, path);
    }
  }

  // ----- what a pass has established so far -----

  predicate PastPruning(p: Pass) {
    p.phase.Listing? || p.phase.Calling? || p.phase.Saving? || p.phase == Done(Success)
  }

  ghost predicate Established(db0: DB, db: DB, p: Pass) {
    && p.next <= |p.scan.notes|
    && (p.res.failed == 0 ==> forall j | 0 <= j < p.next :: Stored(db, p.scan.notes[j]))
    && (forall path | path in db.notes :: path in db0.notes || path in NotePaths(p.scan.notes))
    && (PastPruning(p) && p.res.failed == 0 && Keep(p.scan) != []
        ==> forall path | path in db.notes :: path in Keep(p.scan))
    && (p.phase == Done(Success) ==> Registered(db, p.space) && Pending(db, p.space) == [])
  }

  lemma NotePathIn(notes: seq<Note>, i: nat)
    requires i < |notes|
    ensures notes[i].path in NotePaths(notes)
  {
    assert NotePaths(notes)[i] == notes[i].path;
  }

  lemma KeepHasNote(scan: Scanned, i: nat)
    requires i < |scan.notes|
    ensures scan.notes[i].path in Keep(scan)
  {
    NotePathIn(scan.notes, i);
  }

  /** Storing a note adds at most its own path, and unstores no other one. */
  lemma StoreNotes(setup: Setup, db: DB, p: Pass, ev: Event)
    requires p.phase.Storing? && Shape(p)
    ensures var r, note := StoreStep(setup, db, p, ev), p.scan.notes[p.next];
      && (forall path | path in r.0.notes :: path in db.notes || path == note.path)
      && (forall n: Note | n.path != note.path && Stored(db, n) :: Stored(r.0, n))
      && (r.1.res.failed <= p.res.failed && r.1.next > p.next ==> Stored(r.0, note))
      && r.1.scan == p.scan && p.res.failed <= r.1.res.failed
      && (r.1.next == p.next || r.1.next == p.next + 1)
  {
  }

  lemma StoreEstablished(setup: Setup, db0: DB, db: DB, p: Pass, ev: Event)
    requires PassOk(setup, db, p) && Counted(p) && p.phase.Storing? && Established(db0, db, p)
    ensures var r := StoreStep(setup, db, p, ev); Established(db0, r.0, r.1)
  {
    var r := StoreStep(setup, db, p, ev);
    StoreNotes(setup, db, p, ev);
    NotePathIn(p.scan.notes, p.next);
    assert forall j | 0 <= j < p.next :: p.scan.notes[j].path != p.scan.notes[p.next].path;
    assert r.1.phase.Storing? || r.1.phase.Pruning? || r.1.phase == Done(Cancelled)
        || (r.1.phase.Listing? && r.1.res.failed > 0);
  }

  lemma PruneEstablished(setup: Setup, db0: DB, db: DB, p: Pass, ev: Event)
    requires PassOk(setup, db, p) && Counted(p) && p.phase.Pruning? && Established(db0, db, p)
    ensures var r := PruneStep(db, p, ev); Established(db0, r.0, r.1)
  {
    forall j | 0 <= j < p.next && Stored(db, p.scan.notes[j])
      ensures Stored(PruneStep(db, p, ev).0, p.scan.notes[j])
    {
      KeepHasNote(p.scan, j);
    }
  }

  lemma StepEstablished(setup: Setup, db0: DB, db: DB, p: Pass, ev: Event)
    requires PassOk(setup, db, p) && Counted(p) && Established(db0, db, p)
    ensures var r := Step(setup, db, p, ev); Established(db0, r.0, r.1)
  {
    match p.phase {
      case Storing => StoreEstablished(setup, db0, db, p, ev);
      case Pruning => PruneEstablished(setup, db0, db, p, ev);
      case Listing => ListEstablished(setup, db0, db, p, ev);
      case Saving(_) => SaveEstablished(setup, db0, db, p, ev);
      case _ =>
    }
  }

  lemma ListEstablished(setup: Setup, db0: DB, db: DB, p: Pass, ev: Event)
    requires PassOk(setup, db, p) && Counted(p) && p.phase.Listing? && Established(db0, db, p)
    ensures var r := ListStep(db, p, ev); Established(db0, r.0, r.1)
  {
    if ev.Commit? && ClaimPending(db, p.space, PENDING_BATCH) == [] {
      assert Least(PENDING_BATCH, |Pending(db, p.space)|) == 0;
    }
  }

  lemma SaveEstablished(setup: Setup, db0: DB, db: DB, p: Pass, ev: Event)
    requires PassOk(setup, db, p) && Counted(p) && p.phase.Saving? && Established(db0, db, p)
    ensures var r := SaveStep(db, p, ev); Established(db0, r.0, r.1)
  {
    assert SaveStep(db, p, ev).0.notes == db.notes;
  }

  lemma {:induction false} RunEstablished(setup: Setup, db: DB, p: Pass, evs: seq<Event>)
    requires Sound(setup, db) && PassOk(setup, db, p) && Counted(p) && Established(db, db, p)
    ensures var r := Run(setup, db, p, evs); Established(db, r.0, r.1)
    decreases |evs|
  {
    if evs != [] {
      var k := |evs| - 1;
      RunEstablished(setup, db, p, evs[..k]);
      RunOk(setup, db, p, evs[..k]);
      RunCounted(setup, db, p, evs[..k]);
      var before := Run(setup, db, p, evs[..k]);
      StepEstablished(setup, db, before.0, before.1, evs[k]);
    }
  }

  // ----- how many notes a pass deletes -----

  /** The notes that left the vault. */
  function Gone(db0: DB, keep: seq<string>): set<string> {
    set path | path in db0.notes && path !in keep
  }

  /** The notes of db0 are there, and every note that is not kept is one of them. */
  predicate HasAll(db0: DB, db: DB, keep: seq<string>) {
    db0.notes.Keys <= db.notes.Keys && forall path | path in db.notes && path !in keep :: path in db0.notes
  }

  /** The pass has pruned, and had paths to keep. */
  predicate DidPrune(p: Pass) {
    && !p.phase.Storing? && !p.phase.Pruning? && p.phase != Done(Cancelled) && p.phase != Done(PruneFailed)
    && p.res.failed == 0 && Keep(p.scan) != []
  }

  predicate Unpruned(db0: DB, db: DB, p: Pass) {
    p.res.deleted == 0 && HasAll(db0, db, Keep(p.scan))
  }

  predicate Deletes(db0: DB, db: DB, p: Pass) {
    if DidPrune(p) then p.res.deleted == |Gone(db0, Keep(p.scan))| else Unpruned(db0, db, p)
  }

  lemma StoreHasAll(setup: Setup, db0: DB, db: DB, p: Pass, ev: Event, keep: seq<string>)
    requires p.phase.Storing? && Shape(p) && HasAll(db0, db, keep) && p.scan.notes[p.next].path in keep
    ensures HasAll(db0, StoreStep(setup, db, p, ev).0, keep)
  {
  }

  lemma StoreUnpruned(setup: Setup, db0: DB, db: DB, p: Pass, ev: Event)
    requires p.phase.Storing? && Shape(p) && Unpruned(db0, db, p)
    ensures var r := StoreStep(setup, db, p, ev); Unpruned(db0, r.0, r.1) && !DidPrune(r.1)
  {
    KeepHasNote(p.scan, p.next);
    StoreHasAll(setup, db0, db, p, ev, Keep(p.scan));
  }

  lemma CountsGone(db0: DB, db: DB, keep: seq<string>)
    requires HasAll(db0, db, keep) && keep != []
    ensures PruneCount(db, keep) == |Gone(db0, keep)|
  {
    assert db.notes.Keys - KeptNotes(db, keep).Keys == Gone(db0, keep);
  }

  /** What a prune makes of the pass, and of the notes. */
  lemma PruneCases(db: DB, p: Pass, ev: Event)
    requires p.phase.Pruning?
    ensures var r, keep := PruneStep(db, p, ev), Keep(p.scan);
      if keep == [] then r == (db, p.(phase := Listing, res := p.res.(deleted := 0)))
      else if ev.Commit? then r.1 == p.(phase := Listing, res := p.res.(deleted := PruneCount(db, keep)))
      else r == (db, p.(phase := Done(PruneFailed)))
  {
  }

  lemma PruneDeletes(db0: DB, db: DB, p: Pass, ev: Event)
    requires p.phase.Pruning? && p.res.failed == 0 && Unpruned(db0, db, p)
    ensures var r := PruneStep(db, p, ev); Deletes(db0, r.0, r.1)
  {
    PruneCases(db, p, ev);
    if Keep(p.scan) != [] && ev.Commit? {
      CountsGone(db0, db, Keep(p.scan));
    }
  }

  lemma WalkStep(setup: Setup, db: DB, p: Pass, ev: Event, r: (DB, Pass))
    requires Shape(p) && !p.phase.Storing? && !p.phase.Pruning? && r == Step(setup, db, p, ev)
    ensures r.0.notes == db.notes && r.1.scan == p.scan
    ensures r.1.res.failed == p.res.failed && r.1.res.deleted == p.res.deleted && (DidPrune(r.1) <==> DidPrune(p))
  {
    match p.phase {
      case Saving(_) => assert SaveStep(db, p, ev).0.notes == db.notes;
      case _ =>
    }
  }

  lemma WalkDeletes(setup: Setup, db0: DB, db: DB, p: Pass, ev: Event)
    requires Shape(p) && !p.phase.Storing? && !p.phase.Pruning? && Deletes(db0, db, p)
    ensures Deletes(db0, Step(setup, db, p, ev).0, Step(setup, db, p, ev).1)
  {
    WalkStep(setup, db, p, ev, Step(setup, db, p, ev));
  }

  lemma StepDeletes(setup: Setup, db0: DB, db: DB, p: Pass, ev: Event)
    requires Shape(p) && Counted(p) && Deletes(db0, db, p)
    ensures Deletes(db0, Step(setup, db, p, ev).0, Step(setup, db, p, ev).1)
  {
    match p.phase {
      case Storing => StoreUnpruned(setup, db0, db, p, ev);
      case Pruning => PruneDeletes(db0, db, p, ev);
      case _ => WalkDeletes(setup, db0, db, p, ev);
    }
  }

  lemma {:induction false} RunDeletes(setup: Setup, db: DB, p: Pass, evs: seq<Event>)
    requires Shape(p) && Counted(p) && Deletes(db, db, p)
    ensures var r := Run(setup, db, p, evs); Deletes(db, r.0, r.1) && r.1.scan == p.scan
    decreases |evs|
  {
    if evs != [] {
      var k := |evs| - 1;
      var before := Run(setup, db, p, evs[..k]);
      RunDeletes(setup, db, p, evs[..k]);
      RunCounted(setup, db, p, evs[..k]);
      StepDeletes(setup, db, before.0, before.1, evs[k]);
      StepSameScan(setup, before.0, before.1, evs[k]);
    }
  }

  /** A pass that has pruned deleted exactly the notes that left the vault; any other, one
      that failed to store some note among them, deletes none. */
  lemma DeletesExactly(setup: Setup, db: DB, space: Space, scan: Scanned, size: Positive, evs: seq<Event>)
    ensures var r := Run(setup, db, Begin(space, scan, size), evs);
      && r.1.scan == scan
      && if DidPrune(r.1) then r.1.res.deleted == |Gone(db, Keep(scan))|
         else db.notes.Keys <= r.0.notes.Keys && r.1.res.deleted == 0
  {
    BeginCounted(space, scan, size);
    RunDeletes(setup, db, Begin(space, scan, size), evs);
  }

  /** The number of notes that left the vault; an empty scan is not taken for one. */
  function Leaving(db: DB, scan: Scanned): nat {
    if Keep(scan) == [] then 0 else |Gone(db, Keep(scan))|
  }

  lemma SuccessDeletes(setup: Setup, db: DB, space: Space, scan: Scanned, size: Positive, evs: seq<Event>)
    ensures var p := Run(setup, db, Begin(space, scan, size), evs).1;
      p.phase == Done(Success) ==> p.res.failed == 0 && p.res.deleted == Leaving(db, scan)
  {
    DeletesExactly(setup, db, space, scan, size, evs);
    CountsConserved(setup, db, space, scan, size, evs);
  }

  // ----- incremental equals rebuild -----

  /** A pass over this scan that returned nil. */
  ghost predicate Succeeds(setup: Setup, db: DB, space: Space, scan: Scanned, size: Positive, evs: seq<Event>) {
    && Sound(setup, db) && Registered(db, space) && ScanRead(setup, scan)
    && Run(setup, db, Begin(space, scan, size), evs).1.phase == Done(Success)
  }

  function After(setup: Setup, db: DB, space: Space, scan: Scanned, size: Positive, evs: seq<Event>): DB {
    Run(setup, db, Begin(space, scan, size), evs).0
  }

  /** The database has every scanned note, exactly the kept paths, nothing pending. */
  ghost predicate InLine(db: DB, db0: DB, space: Space, scan: Scanned) {
    && (forall i | 0 <= i < |scan.notes| :: Stored(db, scan.notes[i]))
    && (forall path | path in db.notes :: path in db0.notes || path in NotePaths(scan.notes))
    && (Keep(scan) != [] ==> forall path | path in db.notes :: path in Keep(scan))
    && Registered(db, space) && Pending(db, space) == []
  }

  lemma SuccessInLine(setup: Setup, db: DB, space: Space, scan: Scanned, size: Positive, evs: seq<Event>)
    requires Succeeds(setup, db, space, scan, size, evs)
    ensures var db' := After(setup, db, space, scan, size, evs); Sound(setup, db') && InLine(db', db, space, scan)
  {
    var p := Begin(space, scan, size);
    BeginOk(setup, db, space, scan, size);
    BeginCounted(space, scan, size);
    RunEstablished(setup, db, p, evs);
    RunCounted(setup, db, p, evs);
    RunOk(setup, db, p, evs);
  }

  /** The view with every chunk embedded. */
  function Embedded(setup: Setup, s: Space, v: NoteView): NoteView {
    v.(chunks := seq(|v.chunks|, i requires 0 <= i < |v.chunks| =>
         v.chunks[i].(vector := Some(setup.model(s, Document, v.chunks[i].text)))))
  }

  /** The old notes whose files were skipped, with every chunk embedded. */
  function SkippedView(setup: Setup, db: DB, s: Space, scan: Scanned): map<string, NoteView>
    requires Registered(db, s)
  {
    map p | p in db.notes && p in scan.skipped :: Embedded(setup, s, NoteViewOf(db, s, db.notes[p]))
  }

  lemma EmbeddedFresh(setup: Setup, db: DB, s: Space, path: string)
    requires Sound(setup, db) && Registered(db, s) && path in db.notes
    ensures Embedded(setup, s, NoteViewOf(db, s, db.notes[path]))
         == FreshView(setup, s, db.notes[path].name, db.notes[path].text)
  {
    var row := db.notes[path];
    var texts := setup.cut(row.text);
    assert ChunksMatch(db.chunks, row.id, texts);
    EmbeddedNote(setup, db, s, row, texts);
  }

  lemma EmbeddedNote(setup: Setup, db: DB, s: Space, row: NoteRow, texts: seq<string>)
    requires Registered(db, s) && texts == setup.cut(row.text) && ChunksMatch(db.chunks, row.id, texts)
    ensures Embedded(setup, s, NoteViewOf(db, s, row)) == FreshView(setup, s, row.name, row.text)
  {
    var got, want := Embedded(setup, s, NoteViewOf(db, s, row)), FreshView(setup, s, row.name, row.text);
    var ids := Sorted(Owned(db.chunks, row.id));
    forall i | 0 <= i < |ids| ensures got.chunks[i] == want.chunks[i] {
      assert db.chunks[ids[i]] == ChunkRow(row.id, i, texts[i]);
    }
    assert got.chunks == want.chunks;
  }

  /** A stored note is seen as if indexed from scratch. */
  lemma ScannedView(setup: Setup, db: DB, db0: DB, s: Space, scan: Scanned, i: nat)
    requires Sound(setup, db) && InLine(db, db0, s, scan) && ScanRead(setup, scan) && i < |scan.notes|
    ensures var n := scan.notes[i];
      n.path in db.notes && NoteViewOf(db, s, db.notes[n.path]) == FreshView(setup, s, n.name, n.text)
  {
    var n := scan.notes[i];
    assert Stored(db, n) && ReadAs(setup, n);
    SettledView(setup, db, s, n.path);
  }

  lemma PathOfNote(notes: seq<Note>, path: string) returns (i: nat)
    requires path in NotePaths(notes)
    ensures i < |notes| && notes[i].path == path
  {
    i :| 0 <= i < |notes| && NotePaths(notes)[i] == path;
  }

  ghost predicate AgreesWithRebuild(setup: Setup, db: DB, db': DB, e': DB, s: Space, scan: Scanned)
    requires Registered(db, s) && Registered(db', s) && Registered(e', s)
  {
    View(db', s) == View(e', s) + SkippedView(setup, db, s, scan)
  }

  lemma KeysAgree(setup: Setup, db: DB, db': DB, e': DB, e: DB, s: Space, scan: Scanned)
    requires InLine(db', db, s, scan) && InLine(e', e, s, scan) && e.notes == map[] && Keep(scan) != []
    requires Registered(db, s)
    requires forall path | path in db.notes && path in scan.skipped :: path in db'.notes
    ensures View(db', s).Keys == (View(e', s) + SkippedView(setup, db, s, scan)).Keys
  {
    forall path ensures path in db'.notes <==> path in e'.notes || (path in db.notes && path in scan.skipped) {
      if path in NotePaths(scan.notes) {
        var i := PathOfNote(scan.notes, path);
        assert Stored(db', scan.notes[i]) && Stored(e', scan.notes[i]);
      } else if path in db'.notes {
        assert path in Keep(scan);
      }
    }
  }

  lemma ValuesAgree(setup: Setup, db: DB, db': DB, e': DB, e: DB, s: Space, scan: Scanned, path: string)
    requires Sound(setup, db) && Registered(db, s) && ScanRead(setup, scan)
    requires Sound(setup, db') && InLine(db', db, s, scan)
    requires Sound(setup, e') && InLine(e', e, s, scan) && e.notes == map[]
    requires path in db'.notes
    requires path in e'.notes || (path in db.notes && path in scan.skipped)
    requires path in db.notes && path in scan.skipped ==> db'.notes[path] == db.notes[path]
    ensures NoteViewOf(db', s, db'.notes[path])
         == if path in db.notes && path in scan.skipped then Embedded(setup, s, NoteViewOf(db, s, db.notes[path]))
            else NoteViewOf(e', s, e'.notes[path])
  {
    if path in db.notes && path in scan.skipped {
      EmbeddedFresh(setup, db, s, path);
      SettledView(setup, db', s, path);
    } else {
      var i := PathOfNote(scan.notes, path);
      ScannedView(setup, db', db, s, scan, i);
      ScannedView(setup, e', e, s, scan, i);
    }
  }

  lemma SkippedRowsKept(setup: Setup, db: DB, s: Space, scan: Scanned, size: Positive, evs: seq<Event>)
    requires Succeeds(setup, db, s, scan, size, evs)
    ensures var db' := After(setup, db, s, scan, size, evs);
      forall path | path in db.notes && path in scan.skipped :: path in db'.notes && db'.notes[path] == db.notes[path]
  {
    BeginOk(setup, db, s, scan, size);
    forall path | path in db.notes && path in scan.skipped
      ensures Retains(db, After(setup, db, s, scan, size, evs), path)
    {
      SkippedNoteKept(setup, db, Begin(s, scan, size), evs, path);
    }
  }

  lemma SameMap<K, V>(a: map<K, V>, b: map<K, V>)
    requires a.Keys == b.Keys && forall k | k in a :: k in b && a[k] == b[k]
    ensures a == b
  {
  }

  lemma ViewAt(setup: Setup, db: DB, db': DB, e': DB, e: DB, s: Space, scan: Scanned, path: string)
    requires Sound(setup, db) && Registered(db, s) && ScanRead(setup, scan)
    requires Sound(setup, db') && InLine(db', db, s, scan)
    requires Sound(setup, e') && InLine(e', e, s, scan) && e.notes == map[]
    requires path in db'.notes
    requires path in e'.notes || (path in db.notes && path in scan.skipped)
    requires path in db.notes && path in scan.skipped ==> db'.notes[path] == db.notes[path]
    ensures var want := View(e', s) + SkippedView(setup, db, s, scan);
      path in want && View(db', s)[path] == want[path]
  {
    ValuesAgree(setup, db, db', e', e, s, scan, path);
    assert path in SkippedView(setup, db, s, scan) <==> path in db.notes && path in scan.skipped;
  }

  lemma ViewsAgree(setup: Setup, db: DB, db': DB, e': DB, e: DB, s: Space, scan: Scanned)
    requires Sound(setup, db) && Registered(db, s) && ScanRead(setup, scan) && Keep(scan) != []
    requires Sound(setup, db') && InLine(db', db, s, scan)
    requires Sound(setup, e') && InLine(e', e, s, scan) && e.notes == map[]
    requires forall path | path in db.notes && path in scan.skipped ::
               path in db'.notes && db'.notes[path] == db.notes[path]
    ensures AgreesWithRebuild(setup, db, db', e', s, scan)
  {
    KeysAgree(setup, db, db', e', e, s, scan);
    var got, want := View(db', s), View(e', s) + SkippedView(setup, db, s, scan);
    forall path | path in got ensures path in want && got[path] == want[path] {
      assert path in want.Keys;
      ViewAt(setup, db, db', e', e, s, scan, path);
    }
    SameMap(got, want);
  }

  // ----- the rebuild goes through -----

  /** A note that is embedded in full has only texts that the space can hold. */
  lemma EmbeddedFits(setup: Setup, db: DB, s: Space, path: string)
    requires Sound(setup, db) && Registered(db, s) && Pending(db, s) == [] && path in db.notes
    ensures CutFits(setup, s, setup.cut(db.notes[path].text))
  {
    var texts := setup.cut(db.notes[path].text);
    var ids := Sorted(Owned(db.chunks, db.notes[path].id));
    assert ChunksMatch(db.chunks, db.notes[path].id, texts);
    PendingLive(db, s);
    forall i | 0 <= i < |texts| ensures Fits(setup, s, texts[i]) {
      assert db.chunks[ids[i]] == ChunkRow(db.notes[path].id, i, texts[i]);
      assert ids[i] !in Pending(db, s);
      assert FreshTable(setup, db.chunks, s, Table(db, s));
    }
  }

  lemma InLineFits(setup: Setup, db: DB, db0: DB, s: Space, scan: Scanned)
    requires Sound(setup, db) && InLine(db, db0, s, scan) && ScanRead(setup, scan)
    ensures NotesFit(setup, s, scan.notes)
  {
    forall i | 0 <= i < |scan.notes| ensures CutFits(setup, s, setup.cut(scan.notes[i].text)) {
      var n := scan.notes[i];
      assert Stored(db, n) && ReadAs(setup, n);
      EmbeddedFits(setup, db, s, n.path);
    }
  }

  lemma NoNotesNoChunks(setup: Setup, db: DB)
    requires Sound(setup, db) && db.notes == map[]
    ensures db.chunks == map[]
  {
    assert forall noteId :: !HasNote(db, noteId);
    assert db.chunks.Keys == {};
  }

  /** A vault that is indexed in full can be indexed from scratch. */
  lemma RebuildSucceeds(setup: Setup, db: DB, db0: DB, e: DB, s: Space, scan: Scanned, size: Positive)
    returns (evs: seq<Event>)
    requires Sound(setup, db) && InLine(db, db0, s, scan) && ScanRead(setup, scan)
    requires Sound(setup, e) && Registered(e, s) && e.notes == map[]
    ensures Succeeds(setup, e, s, scan, size, evs)
  {
    InLineFits(setup, db, db0, s, scan);
    NoNotesNoChunks(setup, e);
    evs := PassSucceeds(setup, e, s, scan, size);
  }

  // ----- and the index agrees with it -----

  /** The index agrees with every rebuild from this empty database that returns nil,
      and there is one. */
  ghost predicate AgreesWithRebuilds(setup: Setup, db0: DB, db: DB, e: DB, s: Space, scan: Scanned, size: Positive)
    requires Registered(db0, s) && Registered(db, s)
  {
    && (exists evs :: Succeeds(setup, e, s, scan, size, evs))
    && (forall evs | Succeeds(setup, e, s, scan, size, evs) ::
          && Registered(After(setup, e, s, scan, size, evs), s)
          && AgreesWithRebuild(setup, db0, db, After(setup, e, s, scan, size, evs), s, scan))
  }

  /** Being in line with the vault, and having the skipped notes as they were, is
      agreeing with the rebuilds. */
  lemma InLineAgrees(setup: Setup, db0: DB, db: DB, e: DB, s: Space, scan: Scanned, size: Positive)
    requires Sound(setup, db0) && Registered(db0, s) && ScanRead(setup, scan) && Keep(scan) != []
    requires Sound(setup, db) && InLine(db, db0, s, scan)
    requires forall path | path in db0.notes && path in scan.skipped ::
               path in db.notes && db.notes[path] == db0.notes[path]
    requires Sound(setup, e) && Registered(e, s) && e.notes == map[]
    ensures AgreesWithRebuilds(setup, db0, db, e, s, scan, size)
  {
    var evs' := RebuildSucceeds(setup, db, db0, e, s, scan, size);
    forall evs | Succeeds(setup, e, s, scan, size, evs)
      ensures Registered(After(setup, e, s, scan, size, evs), s)
      ensures AgreesWithRebuild(setup, db0, db, After(setup, e, s, scan, size, evs), s, scan)
    {
      SuccessInLine(setup, e, s, scan, size, evs);
      ViewsAgree(setup, db0, db, After(setup, e, s, scan, size, evs), e, s, scan);
    }
  }

  /** Incremental indexing equals rebuild: after a pass that returns nil on a scan
      that listed something, every chunk is embedded, and the id-free view is that of
      a pass over the same scan on an empty database, plus the old notes whose files
      were skipped, embedded. */
  lemma IncrementalEqualsRebuild(setup: Setup, db: DB, e: DB, s: Space, scan: Scanned,
                                 size: Positive, evs: seq<Event>, size': Positive)
    requires Succeeds(setup, db, s, scan, size, evs) && Keep(scan) != []
    requires Sound(setup, e) && Registered(e, s) && e.notes == map[]
    ensures var db' := After(setup, db, s, scan, size, evs);
      && Registered(db', s) && Pending(db', s) == []
      && AgreesWithRebuilds(setup, db, db', e, s, scan, size')
  {
    SuccessInLine(setup, db, s, scan, size, evs);
    SkippedRowsKept(setup, db, s, scan, size, evs);
    InLineAgrees(setup, db, After(setup, db, s, scan, size, evs), e, s, scan, size');
  }

  /** The same from any reachable database, whatever passes ran, failed, were
      cancelled or are still running when this one starts. */
  lemma ReachableEqualsRebuild(setup: Setup, history: seq<Action>, e: DB, s: Space, scan: Scanned,
                               size: Positive, evs: seq<Event>, size': Positive)
    requires var db := Execute(setup, INITIAL, history).db;
      && Registered(db, s) && ScanRead(setup, scan) && Keep(scan) != []
      && Run(setup, db, Begin(s, scan, size), evs).1.phase == Done(Success)
    requires Sound(setup, e) && Registered(e, s) && e.notes == map[]
    ensures var db := Execute(setup, INITIAL, history).db;
      var db' := After(setup, db, s, scan, size, evs);
      && Registered(db', s) && Pending(db', s) == []
      && AgreesWithRebuilds(setup, db, db', e, s, scan, size')
  {
    EmptyOk(setup);
    ExecuteOk(setup, INITIAL, history);
    IncrementalEqualsRebuild(setup, Execute(setup, INITIAL, history).db, e, s, scan, size, evs, size');
  }

  // ----- idempotence -----

  /** Equal in everything but which ids were burned. */
  predicate SameContents(a: DB, b: DB) {
    a.notes == b.notes && a.chunks == b.chunks && a.registry == b.registry && a.tables == b.tables
  }

  predicate DidNothing(p: Pass) {
    p.res.written == 0 && p.res.deleted == 0 && p.res.embedded == 0 && p.sent == []
    && !p.phase.Calling? && !p.phase.Saving?
  }

  lemma DropNothing(db: DB)
    ensures SameContents(DropChunks(db, {}), db)
  {
    assert db.chunks - {} == db.chunks;
    forall t | t in db.tables ensures db.tables[t] - {} == db.tables[t] {
    }
  }

  lemma KeepAll(db: DB, keep: seq<string>)
    requires keep != [] && forall path | path in db.notes :: path in keep
    ensures KeptNotes(db, keep) == db.notes && Orphans(db, keep) == {} && PruneCount(db, keep) == 0
  {
    assert KeptNotes(db, keep) == db.notes;
  }

  lemma PruneNothing(setup: Setup, db: DB, scan: Scanned)
    requires Sound(setup, db)
    requires Keep(scan) != [] ==> forall path | path in db.notes :: path in Keep(scan)
    ensures SameContents(Prune(db, Keep(scan)), db) && PruneCount(db, Keep(scan)) == 0
  {
    var keep := Keep(scan);
    if keep != [] {
      KeepAll(db, keep);
      DropNothing(db);
    }
  }

  lemma SameInLine(a: DB, b: DB, db0: DB, s: Space, scan: Scanned)
    requires SameContents(a, b) && InLine(a, db0, s, scan)
    ensures InLine(b, db0, s, scan)
  {
    forall i | 0 <= i < |scan.notes| ensures Stored(b, scan.notes[i]) {
      assert Stored(a, scan.notes[i]);
    }
  }

  lemma StoreDoesNothing(setup: Setup, db: DB, p: Pass, ev: Event)
    requires p.phase.Storing? && Shape(p) && Stored(db, p.scan.notes[p.next]) && DidNothing(p)
    ensures var r := StoreStep(setup, db, p, ev); SameContents(r.0, db) && DidNothing(r.1)
  {
  }

  lemma StepDoesNothing(setup: Setup, db: DB, db0: DB, p: Pass, ev: Event)
    requires Sound(setup, db) && Shape(p) && InLine(db, db0, p.space, p.scan) && DidNothing(p)
    ensures var r := Step(setup, db, p, ev); SameContents(r.0, db) && DidNothing(r.1)
  {
    match p.phase {
      case Storing => StoreDoesNothing(setup, db, p, ev);
      case Pruning => PruneNothing(setup, db, p.scan);
      case Listing => assert ClaimPending(db, p.space, PENDING_BATCH) == [];
      case _ =>
    }
  }

  lemma {:induction false} RunDoesNothing(setup: Setup, db: DB, db0: DB, p: Pass, evs: seq<Event>)
    requires Sound(setup, db) && PassOk(setup, db, p) && InLine(db, db0, p.space, p.scan) && DidNothing(p)
    ensures var r := Run(setup, db, p, evs); SameContents(r.0, db) && DidNothing(r.1)
    decreases |evs|
  {
    if evs != [] {
      var k := |evs| - 1;
      var before := Run(setup, db, p, evs[..k]);
      RunDoesNothing(setup, db, db0, p, evs[..k]);
      RunOk(setup, db, p, evs[..k]);
      SameInLine(db, before.0, db0, p.space, p.scan);
      StepDoesNothing(setup, before.0, db0, before.1, evs[k]);
    }
  }

  /** Idempotence: after a pass that returned nil, any further pass over the same
      scan, even one that fails half way, changes nothing, ids included, writes,
      deletes and embeds nothing, and calls the provider not once. */
  lemma RepeatDoesNothing(setup: Setup, db: DB, s: Space, scan: Scanned,
                          size: Positive, evs: seq<Event>, size': Positive, evs': seq<Event>)
    requires Succeeds(setup, db, s, scan, size, evs)
    ensures var db1 := After(setup, db, s, scan, size, evs);
      var r := Run(setup, db1, Begin(s, scan, size'), evs');
      && SameContents(r.0, db1)
      && r.1.res.written == r.1.res.deleted == r.1.res.embedded == 0 && r.1.sent == []
      && (r.1.phase == Done(Success) ==> r.1.res.same == |scan.notes|)
  {
    var db1 := After(setup, db, s, scan, size, evs);
    var p := Begin(s, scan, size');
    SuccessInLine(setup, db, s, scan, size, evs);
    BeginOk(setup, db1, s, scan, size');
    RunDoesNothing(setup, db1, db, p, evs');
    RunOk(setup, db1, p, evs');
    CountsConserved(setup, db1, s, scan, size', evs');
  }
}
