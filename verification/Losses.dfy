/** What can leave the index, and when: safe pruning and the isolation of spaces,
    for single steps and over whole runs of any number of passes. */
module Losses {
  import opened Spaces
  import opened Vault
  import opened Database
  import opened Passes

  // ----- the counters of a pass -----

  predicate AllHandled(p: Pass) {
    p.next == |p.scan.notes|
  }

  /** Each scanned note handled so far was written, unchanged or failed; pruning
      starts only when all were handled and none failed. */
  predicate Counted(p: Pass) {
    && p.res.written + p.res.same + p.res.failed == p.next <= |p.scan.notes|
    && p.res.skipped == |p.scan.skipped|
    && (!p.phase.Storing? && p.phase != Done(Cancelled) ==> AllHandled(p))
    && (p.phase.Pruning? ==> p.res.failed == 0)
    && (p.phase == Done(Success) ==> p.res.failed == 0)
  }

  lemma BeginCounted(space: Space, scan: Scanned, size: Positive)
    ensures Counted(Begin(space, scan, size))
  {
  }

  lemma StepCounted(setup: Setup, db: DB, p: Pass, ev: Event)
    requires Shape(p) && Counted(p)
    ensures Counted(Step(setup, db, p, ev).1)
  {
    match p.phase {
      case Storing =>
        assert Counted(StoreStep(setup, db, p, ev).1);
      case _ =>
    }
  }

  lemma {:induction false} RunCounted(setup: Setup, db: DB, p: Pass, evs: seq<Event>)
    requires Shape(p) && Counted(p)
    ensures Counted(Run(setup, db, p, evs).1)
    decreases |evs|
  {
    if evs != [] {
      var k := |evs| - 1;
      RunCounted(setup, db, p, evs[..k]);
      var before := Run(setup, db, p, evs[..k]);
      StepCounted(setup, before.0, before.1, evs[k]);
    }
  }

  /** Conservation: a pass that got past storing accounts for every scanned note. */
  lemma CountsConserved(setup: Setup, db: DB, space: Space, scan: Scanned, size: Positive, evs: seq<Event>)
    ensures var p := Run(setup, db, Begin(space, scan, size), evs).1;
      && (!p.phase.Storing? && p.phase != Done(Cancelled)
          ==> p.res.written + p.res.same + p.res.failed == |p.scan.notes|)
      && (p.phase == Done(Success) ==> p.res.failed == 0)
  {
    BeginCounted(space, scan, size);
    RunCounted(setup, db, Begin(space, scan, size), evs);
  }

  // ----- one step -----

  /** The step of a prune that deletes this note: every note was stored, the scan
      listed something, and this path was in neither list of the scan. */
  predicate PrunesPath(p: Pass, path: string) {
    && p.phase.Pruning? && AllHandled(p) && p.res.failed == 0
    && Keep(p.scan) != [] && path !in Keep(p.scan)
  }

  /** The step that replaces the chunks of this note with those of a new content. */
  predicate RewritesRow(db: DB, p: Pass, noteId: nat) {
    && p.phase.Storing? && p.next < |p.scan.notes|
    && var note := p.scan.notes[p.next];
      note.path in db.notes && db.notes[note.path].id == noteId && db.notes[note.path].hash != note.hash
  }

  lemma StepLosesNote(setup: Setup, db: DB, p: Pass, ev: Event, path: string)
    requires Shape(p) && Counted(p)
    requires path in db.notes && path !in Step(setup, db, p, ev).0.notes
    ensures PrunesPath(p, path)
  {
  }

  lemma StepLosesChunk(setup: Setup, db: DB, p: Pass, ev: Event, id: nat)
    requires Sound(setup, db) && Shape(p) && Counted(p)
    requires id in db.chunks && id !in Step(setup, db, p, ev).0.chunks
    ensures (exists path :: PrunesPath(p, path) && path in db.notes && db.notes[path].id == db.chunks[id].noteId)
         || RewritesRow(db, p, db.chunks[id].noteId)
  {
    if p.phase.Pruning? {
      assert id in Orphans(db, Keep(p.scan));
    } else {
      assert p.phase.Storing?;
      assert id in Owned(db.chunks, RowId(db, p.scan.notes[p.next], ev.noteId));
      assert HasNote(db, db.chunks[id].noteId);
    }
  }

  /** No vector of s is gained, and each one lost goes with its chunk. */
  ghost predicate OnlyLosses(db: DB, db': DB, s: Space)
    requires Registered(db, s)
  {
    && Registered(db', s) && Table(db', s).Keys <= Table(db, s).Keys
    && (forall id | id in Table(db, s) && id !in Table(db', s) :: id !in db'.chunks)
  }

  lemma StoreVectors(setup: Setup, db: DB, p: Pass, ev: Event, s: Space)
    requires db.chunks.Keys <= db.issued && Registered(db, s) && p.next < |p.scan.notes|
    ensures OnlyLosses(db, StoreStep(setup, db, p, ev).0, s)
  {
    var note := p.scan.notes[p.next];
    if ev.Commit? && !Stored(db, note) && CanIssue(setup, db, note, ev.noteId, ev.ids) {
      var db' := RewriteNote(setup, db, note, ev.noteId, ev.ids);
      RewriteRows(setup, db, note, ev.noteId, ev.ids);
      assert Table(db', s) == Table(db, s) - Owned(db.chunks, RowId(db, note, ev.noteId));
    }
  }

  lemma PruneVectors(db: DB, keep: seq<string>, s: Space)
    requires Registered(db, s)
    ensures OnlyLosses(db, Prune(db, keep), s)
  {
  }

  lemma SaveGains(db: DB, p: Pass, ev: Event, s: Space)
    requires TablesOk(db) && Registered(db, s) && p.phase.Saving? && Shape(p)
    ensures var db' := SaveStep(db, p, ev).0;
      && Registered(db', s) && Table(db, s).Keys <= Table(db', s).Keys
      && (s != p.space ==> Table(db', s) == Table(db, s))
  {
  }

  lemma StepVectors(setup: Setup, db: DB, p: Pass, ev: Event, s: Space)
    requires db.chunks.Keys <= db.issued && TablesOk(db) && Shape(p) && Registered(db, s)
    ensures var db' := Step(setup, db, p, ev).0;
      OnlyLosses(db, db', s)
      || (p.phase.Saving? && p.space == s && Registered(db', s) && Table(db, s).Keys <= Table(db', s).Keys)
  {
    match p.phase {
      case Storing => StoreVectors(setup, db, p, ev, s);
      case Pruning => PruneVectors(db, Keep(p.scan), s);
      case Saving(_) => SaveGains(db, p, ev, s);
      case _ =>
    }
  }

  /** A vector leaves only together with its chunk. */
  lemma StepLosesVector(setup: Setup, db: DB, p: Pass, ev: Event, s: Space, id: nat)
    requires Sound(setup, db) && Shape(p) && Registered(db, s) && id in Table(db, s)
    ensures var db' := Step(setup, db, p, ev).0;
      Registered(db', s) && (id !in Table(db', s) ==> id !in db'.chunks)
  {
    StepVectors(setup, db, p, ev, s);
  }

  /** Only the saving step of a pass in the same space adds vectors to a table. */
  lemma StepGainsVector(setup: Setup, db: DB, p: Pass, ev: Event, s: Space, id: nat)
    requires Sound(setup, db) && Shape(p) && Registered(db, s)
    requires Registered(Step(setup, db, p, ev).0, s)
    requires id in Table(Step(setup, db, p, ev).0, s) && id !in Table(db, s)
    ensures p.phase.Saving? && p.space == s
  {
    StepVectors(setup, db, p, ev, s);
  }

  /** When a note is pruned, its chunks and their vectors in every space go in the
      same step. */
  lemma PruneTakesAll(setup: Setup, db: DB, p: Pass, ev: Event, path: string, id: nat, s: Space)
    requires Shape(p) && path in db.notes && path !in Step(setup, db, p, ev).0.notes
    requires id in Owned(db.chunks, db.notes[path].id) && Registered(db, s)
    ensures var db' := Step(setup, db, p, ev).0;
      id !in db'.chunks && Registered(db', s) && id !in Table(db', s)
  {
    assert p.phase.Pruning?;
    PruneRemoves(db, Keep(p.scan), path, id, s);
  }

  lemma PruneRemoves(db: DB, keep: seq<string>, path: string, id: nat, s: Space)
    requires path in db.notes && path !in Prune(db, keep).notes
    requires id in Owned(db.chunks, db.notes[path].id) && Registered(db, s)
    ensures var db' := Prune(db, keep); id !in db'.chunks && Registered(db', s) && id !in Table(db', s)
  {
    var db' := Prune(db, keep);
    assert id in Orphans(db, keep);
    assert Table(db', s) == Table(db, s) - Orphans(db, keep);
  }

  // ----- whole runs -----

  predicate AllCounted(sys: System) {
    Shapely(sys) && forall pid | pid in sys.passes :: Counted(sys.passes[pid])
  }

  lemma ActCounted(setup: Setup, sys: System, a: Action)
    requires AllCounted(sys)
    ensures AllCounted(Act(setup, sys, a))
  {
    if a.Move? && a.pid in sys.passes {
      StepCounted(setup, sys.db, sys.passes[a.pid], a.ev);
    } else if a.Start? {
      BeginCounted(a.space, a.scan, a.size);
    }
  }

  lemma {:induction false} ExecuteCounted(setup: Setup, sys: System, actions: seq<Action>)
    requires AllCounted(sys)
    ensures AllCounted(Execute(setup, sys, actions))
    decreases |actions|
  {
    if actions != [] {
      var k := |actions| - 1;
      ExecuteCounted(setup, sys, actions[..k]);
      ActCounted(setup, Execute(setup, sys, actions[..k]), actions[k]);
    }
  }

  /** The state before action number k. */
  function Before(setup: Setup, sys: System, actions: seq<Action>, k: nat): System
    requires Shapely(sys) && k <= |actions|
  {
    Execute(setup, sys, actions[..k])
  }

  ghost predicate PrunedAt(setup: Setup, sys: System, actions: seq<Action>, k: int, path: string)
    requires Shapely(sys)
  {
    && 0 <= k < |actions| && actions[k].Move?
    && var at := Before(setup, sys, actions, k);
      actions[k].pid in at.passes && PrunesPath(at.passes[actions[k].pid], path) && path in at.db.notes
  }

  /** Safe pruning over whole runs: a note that is there before a run and not
      after it was deleted by the prune of a pass that stored every scanned note,
      whose scan listed something and listed this path nowhere. */
  lemma {:induction false} LostNoteWasPruned(setup: Setup, sys: System, actions: seq<Action>, path: string)
    requires AllCounted(sys) && path in sys.db.notes
    requires path !in Execute(setup, sys, actions).db.notes
    ensures exists k :: PrunedAt(setup, sys, actions, k, path)
    decreases |actions|
  {
    var n := |actions| - 1;
    var front, a := actions[..n], actions[n];
    var at := Execute(setup, sys, front);
    if path in at.db.notes {
      ExecuteCounted(setup, sys, front);
      assert a.Move? && a.pid in at.passes;
      StepLosesNote(setup, at.db, at.passes[a.pid], a.ev, path);
      assert PrunedAt(setup, sys, actions, n, path);
    } else {
      LostNoteWasPruned(setup, sys, front, path);
      var k :| PrunedAt(setup, sys, front, k, path);
      assert front[..k] == actions[..k];
      assert PrunedAt(setup, sys, actions, k, path);
    }
  }

  // ----- whole runs: chunks and vectors -----

  /** At action k, this chunk goes with its pruned note, or its note is rewritten. */
  ghost predicate ChunkGoesAt(setup: Setup, sys: System, actions: seq<Action>, k: int, id: nat)
    requires Shapely(sys)
  {
    && 0 <= k < |actions| && actions[k].Move?
    && var at := Before(setup, sys, actions, k);
      && actions[k].pid in at.passes && id in at.db.chunks
      && var p, noteId := at.passes[actions[k].pid], at.db.chunks[id].noteId;
        || (exists path :: PrunesPath(p, path) && path in at.db.notes && at.db.notes[path].id == noteId)
        || RewritesRow(at.db, p, noteId)
  }

  lemma RegisterKeepsChunks(setup: Setup, sys: System, a: Action)
    requires Shapely(sys) && !(a.Move? && a.pid in sys.passes)
    ensures Act(setup, sys, a).db.chunks == sys.db.chunks
  {
  }

  /** Over whole runs, a chunk that is gone went with a safely pruned note, or when
      its note got new content. */
  lemma {:induction false} LostChunkWasReplaced(setup: Setup, sys: System, actions: seq<Action>, id: nat)
    requires SystemOk(setup, sys) && AllCounted(sys) && id in sys.db.chunks
    requires id !in Execute(setup, sys, actions).db.chunks
    ensures exists k :: ChunkGoesAt(setup, sys, actions, k, id)
    decreases |actions|
  {
    var n := |actions| - 1;
    var front, a := actions[..n], actions[n];
    var at := Execute(setup, sys, front);
    if id in at.db.chunks {
      ExecuteOk(setup, sys, front);
      ExecuteCounted(setup, sys, front);
      if !(a.Move? && a.pid in at.passes) {
        RegisterKeepsChunks(setup, at, a);
      }
      StepLosesChunk(setup, at.db, at.passes[a.pid], a.ev, id);
      assert ChunkGoesAt(setup, sys, actions, n, id);
    } else {
      LostChunkWasReplaced(setup, sys, front, id);
      var k :| ChunkGoesAt(setup, sys, front, k, id);
      assert front[..k] == actions[..k];
      assert ChunkGoesAt(setup, sys, actions, k, id);
    }
  }

  /** Over whole runs, a vector that is gone went with its chunk, for good. */
  lemma {:induction false} LostVectorLostChunk(setup: Setup, sys: System, actions: seq<Action>, s: Space, id: nat)
    requires SystemOk(setup, sys) && Registered(sys.db, s) && id in Table(sys.db, s)
    ensures var db' := Execute(setup, sys, actions).db;
      && Registered(db', s) && id in db'.issued
      && (id !in Table(db', s) ==> id !in db'.chunks)
    decreases |actions|
  {
    assert FreshTable(setup, sys.db.chunks, s, Table(sys.db, s));
    if actions != [] {
      var n := |actions| - 1;
      var at := Execute(setup, sys, actions[..n]);
      LostVectorLostChunk(setup, sys, actions[..n], s, id);
      ExecuteOk(setup, sys, actions[..n]);
      ActOk(setup, at, actions[n]);
      if id in Table(at.db, s) {
        ActLosesVector(setup, at, actions[n], s, id);
      }
    }
  }

  /** Action k is the saving step of a pass in this space. */
  predicate SavesIn(setup: Setup, sys: System, actions: seq<Action>, k: int, s: Space)
    requires Shapely(sys)
  {
    && 0 <= k < |actions| && actions[k].Move?
    && var at := Before(setup, sys, actions, k);
      && actions[k].pid in at.passes
      && at.passes[actions[k].pid].phase.Saving? && at.passes[actions[k].pid].space == s
  }

  lemma ActGainsVector(setup: Setup, sys: System, a: Action, s: Space, id: nat)
    requires SystemOk(setup, sys) && Registered(sys.db, s) && Registered(Act(setup, sys, a).db, s)
    requires id in Table(Act(setup, sys, a).db, s) && id !in Table(sys.db, s)
    ensures a.Move? && a.pid in sys.passes && sys.passes[a.pid].phase.Saving? && sys.passes[a.pid].space == s
  {
    if a.Move? && a.pid in sys.passes {
      assert Shape(sys.passes[a.pid]);
      StepGainsVector(setup, sys.db, sys.passes[a.pid], a.ev, s, id);
    } else if a.OpenSpace? && CanRegister(sys.db, a.space, a.table) {
      RegisterKeepsTable(sys.db, a.space, a.table, s);
    }
  }

  lemma SavesInFront(setup: Setup, sys: System, actions: seq<Action>, front: seq<Action>, s: Space)
    requires Shapely(sys) && actions != [] && front == actions[..|actions| - 1]
    requires exists k :: SavesIn(setup, sys, front, k, s)
    ensures exists k :: SavesIn(setup, sys, actions, k, s)
  {
    var k :| SavesIn(setup, sys, front, k, s);
    assert front[..k] == actions[..k];
    assert SavesIn(setup, sys, actions, k, s);
  }

  lemma GainedLast(setup: Setup, sys: System, actions: seq<Action>, at: System, after: System, s: Space, id: nat)
    requires Shapely(sys) && actions != []
    requires at == Before(setup, sys, actions, |actions| - 1) && SystemOk(setup, at)
    requires after == Act(setup, at, actions[|actions| - 1])
    requires Registered(at.db, s) && Registered(after.db, s) && id !in Table(at.db, s) && id in Table(after.db, s)
    ensures exists k :: SavesIn(setup, sys, actions, k, s)
  {
    ActGainsVector(setup, at, actions[|actions| - 1], s, id);
    assert SavesIn(setup, sys, actions, |actions| - 1, s);
  }

  lemma StaysRegistered(setup: Setup, at: System, a: Action, after: System, s: Space)
    requires SystemOk(setup, at) && Registered(at.db, s) && after == Act(setup, at, a)
    ensures Registered(after.db, s)
  {
    ActOk(setup, at, a);
  }

  /** Over whole runs, only saving steps of passes in a space add to its table. */
  lemma {:induction false} GainedVectorWasSaved(setup: Setup, sys: System, actions: seq<Action>, s: Space, id: nat)
    requires SystemOk(setup, sys) && Registered(sys.db, s) && id !in Table(sys.db, s)
    ensures Registered(Execute(setup, sys, actions).db, s)
    ensures id in Table(Execute(setup, sys, actions).db, s) ==> exists k :: SavesIn(setup, sys, actions, k, s)
    decreases |actions|
  {
    if actions != [] {
      var front, a := actions[..|actions| - 1], actions[|actions| - 1];
      var at, after := Execute(setup, sys, front), Execute(setup, sys, actions);
      GainedVectorWasSaved(setup, sys, front, s, id);
      ExecuteOk(setup, sys, front);
      StaysRegistered(setup, at, a, after, s);
      if id in Table(at.db, s) {
        SavesInFront(setup, sys, actions, front, s);
      } else if id in Table(after.db, s) {
        GainedLast(setup, sys, actions, at, after, s, id);
      }
    }
  }

  // ----- free rollback -----

  /** The action stores new content for some note. */
  predicate RewritesNote(sys: System, a: Action) {
    && a.Move? && a.pid in sys.passes && a.ev.Commit?
    && var p := sys.passes[a.pid];
      p.phase.Storing? && p.next < |p.scan.notes| && !Stored(sys.db, p.scan.notes[p.next])
  }

  lemma StoreNoNewChunks(setup: Setup, db: DB, p: Pass, ev: Event)
    requires p.phase.Storing? && Shape(p) && (ev.Commit? ==> Stored(db, p.scan.notes[p.next]))
    ensures StoreStep(setup, db, p, ev).0.chunks == db.chunks
  {
  }

  lemma PruneNoNewChunks(db: DB, keep: seq<string>)
    ensures Prune(db, keep).chunks.Keys <= db.chunks.Keys
  {
  }

  lemma SaveNoNewChunks(db: DB, p: Pass, ev: Event)
    requires p.phase.Saving? && Shape(p)
    ensures SaveStep(db, p, ev).0.chunks == db.chunks
  {
  }

  lemma StepNoNewChunks(setup: Setup, db: DB, p: Pass, ev: Event)
    requires Shape(p)
    requires p.phase.Storing? && ev.Commit? ==> Stored(db, p.scan.notes[p.next])
    ensures Step(setup, db, p, ev).0.chunks.Keys <= db.chunks.Keys
  {
    match p.phase {
      case Storing => StoreNoNewChunks(setup, db, p, ev);
      case Pruning => PruneNoNewChunks(db, Keep(p.scan));
      case Saving(_) => SaveNoNewChunks(db, p, ev);
      case _ =>
    }
  }

  lemma NoNewChunks(setup: Setup, sys: System, a: Action)
    requires Shapely(sys) && !RewritesNote(sys, a)
    ensures Act(setup, sys, a).db.chunks.Keys <= sys.db.chunks.Keys
  {
    if a.Move? && a.pid in sys.passes {
      assert Shape(sys.passes[a.pid]);
      StepNoNewChunks(setup, sys.db, sys.passes[a.pid], a.ev);
    } else {
      assert Act(setup, sys, a).db.chunks == sys.db.chunks;
    }
  }

  lemma RegisterKeepsTable(db: DB, o: Space, table: string, s: Space)
    requires Registered(db, s) && CanRegister(db, o, table)
    ensures Registered(Register(db, o, table), s) && Table(Register(db, o, table), s) == Table(db, s)
  {
  }

  lemma ActLosesVector(setup: Setup, sys: System, a: Action, s: Space, id: nat)
    requires SystemOk(setup, sys) && Registered(sys.db, s) && id in Table(sys.db, s)
    ensures var db' := Act(setup, sys, a).db;
      Registered(db', s) && (id !in Table(db', s) ==> id !in db'.chunks)
  {
    if a.Move? && a.pid in sys.passes {
      assert Shape(sys.passes[a.pid]);
      StepLosesVector(setup, sys.db, sys.passes[a.pid], a.ev, s, id);
    } else if a.OpenSpace? && CanRegister(sys.db, a.space, a.table) {
      RegisterKeepsTable(sys.db, a.space, a.table, s);
    }
  }

  lemma ActKeepsSettled(setup: Setup, sys: System, a: Action, s: Space)
    requires SystemOk(setup, sys) && Registered(sys.db, s) && Pending(sys.db, s) == []
    requires !RewritesNote(sys, a)
    ensures Registered(Act(setup, sys, a).db, s) && Pending(Act(setup, sys, a).db, s) == []
  {
    var db' := Act(setup, sys, a).db;
    ActOk(setup, sys, a);
    NoNewChunks(setup, sys, a);
    PendingLive(sys.db, s);
    PendingLive(db', s);
    if Pending(db', s) != [] {
      var id := Pending(db', s)[0];
      assert id in Pending(db', s);
      assert id !in Pending(sys.db, s);
      ActLosesVector(setup, sys, a, s, id);
    }
  }

  ghost predicate NoRewrites(setup: Setup, sys: System, actions: seq<Action>)
    requires Shapely(sys)
  {
    forall k | 0 <= k < |actions| :: !RewritesNote(Before(setup, sys, actions, k), actions[k])
  }

  /** Free rollback: once nothing is pending in a space, any run of passes in any
      spaces that rewrites no note leaves nothing pending there. */
  lemma {:induction false} RollbackIsFree(setup: Setup, sys: System, actions: seq<Action>, s: Space)
    requires SystemOk(setup, sys) && Registered(sys.db, s) && Pending(sys.db, s) == []
    requires NoRewrites(setup, sys, actions)
    ensures var db' := Execute(setup, sys, actions).db; Registered(db', s) && Pending(db', s) == []
    decreases |actions|
  {
    if actions != [] {
      var n := |actions| - 1;
      var front := actions[..n];
      assert NoRewrites(setup, sys, front) by {
        forall k | 0 <= k < n ensures !RewritesNote(Before(setup, sys, front, k), front[k]) {
          assert front[..k] == actions[..k];
          assert !RewritesNote(Before(setup, sys, actions, k), actions[k]);
        }
      }
      RollbackIsFree(setup, sys, front, s);
      ExecuteOk(setup, sys, front);
      assert !RewritesNote(Before(setup, sys, actions, n), actions[n]);
      ActKeepsSettled(setup, Execute(setup, sys, front), actions[n], s);
    }
  }
}
