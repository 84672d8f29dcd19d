/** Any number of passes over one vault at the same time, as when `ingest` and
    `server` index the same directory (knowledge/knowledge.go, Index): once one of
    them returns nil, the index agrees with a rebuild, and it stays so. */
module Shared {
  import opened Spaces
  import opened Vault
  import opened Database
  import opened Passes
  import opened Losses
  import opened Rebuild

  predicate OverScan(sys: System, scan: Scanned) {
    forall pid | pid in sys.passes :: sys.passes[pid].scan == scan
  }

  /** Every pass that these actions start is over this scan. */
  predicate StartsOver(actions: seq<Action>, scan: Scanned) {
    forall k | 0 <= k < |actions| :: actions[k].Start? ==> actions[k].scan == scan
  }

  predicate PathsKnown(db0: DB, db: DB, scan: Scanned) {
    forall path | path in db.notes :: path in db0.notes || path in NotePaths(scan.notes)
  }

  predicate SkippedKept(db0: DB, db: DB, scan: Scanned) {
    forall path | path in db0.notes && path in scan.skipped :: path in db.notes && db.notes[path] == db0.notes[path]
  }

  ghost predicate AllEstablished(db0: DB, sys: System) {
    forall pid | pid in sys.passes :: Established(db0, sys.db, sys.passes[pid])
  }

  /** What passes over one scan keep of the database db0 they began with. */
  ghost predicate OneScan(setup: Setup, db0: DB, sys: System, scan: Scanned) {
    && SystemOk(setup, sys) && AllCounted(sys) && OverScan(sys, scan) && ScanRead(setup, scan)
    && PathsKnown(db0, sys.db, scan) && SkippedKept(db0, sys.db, scan) && AllEstablished(db0, sys)
  }

  lemma NoPasses(setup: Setup, sys: System, scan: Scanned)
    requires SystemOk(setup, sys) && sys.passes == map[] && ScanRead(setup, scan)
    ensures OneScan(setup, sys.db, sys, scan)
  {
  }

  // ----- what one step leaves of the notes -----

  predicate StoredStays(db: DB, db': DB, scan: Scanned) {
    forall i | 0 <= i < |scan.notes| && Stored(db, scan.notes[i]) :: Stored(db', scan.notes[i])
  }

  /** Paths come only from the scan, and kept paths stay. */
  ghost predicate NotesMove(db: DB, db': DB, scan: Scanned) {
    && StoredStays(db, db', scan)
    && (forall path | path in db'.notes :: path in db.notes || path in NotePaths(scan.notes))
    && (forall path | path in db.notes && path in scan.skipped ::
          path in db'.notes && db'.notes[path] == db.notes[path])
  }

  lemma StoreNotesMove(setup: Setup, db: DB, p: Pass, ev: Event)
    requires p.phase.Storing? && Shape(p) && ScanRead(setup, p.scan)
    ensures NotesMove(db, StoreStep(setup, db, p, ev).0, p.scan)
  {
    var db', note := StoreStep(setup, db, p, ev).0, p.scan.notes[p.next];
    NotePathIn(p.scan.notes, p.next);
    forall i | 0 <= i < |p.scan.notes| && Stored(db, p.scan.notes[i]) ensures Stored(db', p.scan.notes[i]) {
      assert i != p.next ==> p.scan.notes[i].path != note.path;
    }
  }

  lemma PruneNotesMove(db: DB, scan: Scanned)
    ensures NotesMove(db, Prune(db, Keep(scan)), scan)
  {
    forall i | 0 <= i < |scan.notes| && Stored(db, scan.notes[i])
      ensures Stored(Prune(db, Keep(scan)), scan.notes[i])
    {
      KeepHasNote(scan, i);
    }
  }

  lemma SaveNotesMove(db: DB, p: Pass, ev: Event)
    requires p.phase.Saving? && Shape(p)
    ensures NotesMove(db, SaveStep(db, p, ev).0, p.scan)
  {
    assert SaveStep(db, p, ev).0.notes == db.notes;
  }

  lemma SameNotesMove(db: DB, db': DB, scan: Scanned)
    requires db'.notes == db.notes
    ensures NotesMove(db, db', scan)
  {
  }

  lemma StepNotesMove(setup: Setup, db: DB, p: Pass, ev: Event)
    requires Shape(p) && ScanRead(setup, p.scan)
    ensures NotesMove(db, Step(setup, db, p, ev).0, p.scan)
  {
    match p.phase {
      case Storing => StoreNotesMove(setup, db, p, ev);
      case Pruning =>
        PruneNotesMove(db, p.scan);
        SameNotesMove(db, db, p.scan);
      case Saving(_) => SaveNotesMove(db, p, ev);
      case Listing => SameNotesMove(db, db, p.scan);
      case Calling => SameNotesMove(db, db, p.scan);
      case Done(_) => SameNotesMove(db, db, p.scan);
    }
  }

  lemma ActNotesMove(setup: Setup, sys: System, a: Action, scan: Scanned)
    requires SystemOk(setup, sys) && OverScan(sys, scan)
    ensures NotesMove(sys.db, Act(setup, sys, a).db, scan)
  {
    if a.Move? && a.pid in sys.passes {
      StepNotesMove(setup, sys.db, sys.passes[a.pid], a.ev);
    } else {
      assert Act(setup, sys, a).db.notes == sys.db.notes;
      SameNotesMove(sys.db, Act(setup, sys, a).db, scan);
    }
  }

  // ----- being in line with the vault is stable -----

  lemma KeepHasPath(scan: Scanned, path: string)
    requires path in NotePaths(scan.notes)
    ensures path in Keep(scan)
  {
  }

  /** With every scanned note stored, no pass over the scan rewrites one. */
  lemma AllStoredNoRewrite(sys: System, a: Action, scan: Scanned)
    requires Shapely(sys) && OverScan(sys, scan)
    requires forall i | 0 <= i < |scan.notes| :: Stored(sys.db, scan.notes[i])
    ensures !RewritesNote(sys, a)
  {
  }

  lemma ActInLine(setup: Setup, db0: DB, sys: System, a: Action, s: Space, scan: Scanned)
    requires SystemOk(setup, sys) && OverScan(sys, scan) && InLine(sys.db, db0, s, scan)
    ensures InLine(Act(setup, sys, a).db, db0, s, scan)
  {
    ActNotesMove(setup, sys, a, scan);
    AllStoredNoRewrite(sys, a, scan);
    ActKeepsSettled(setup, sys, a, s);
    InLineMoves(sys.db, Act(setup, sys, a).db, db0, s, scan);
  }

  lemma InLineMoves(db: DB, db': DB, db0: DB, s: Space, scan: Scanned)
    requires InLine(db, db0, s, scan) && NotesMove(db, db', scan)
    requires Registered(db', s) && Pending(db', s) == []
    ensures InLine(db', db0, s, scan)
  {
    forall path | path in db'.notes && Keep(scan) != [] ensures path in Keep(scan) {
      if path in NotePaths(scan.notes) {
        KeepHasPath(scan, path);
      }
    }
  }

  // ----- what a pass has established is not undone by the others -----

  lemma SuccessIsInLine(db0: DB, db: DB, p: Pass, scan: Scanned)
    requires p.scan == scan && Shape(p) && Counted(p) && Established(db0, db, p) && p.phase == Done(Success)
    requires PathsKnown(db0, db, scan)
    ensures InLine(db, db0, p.space, scan)
  {
  }

  lemma EstablishedMoves(db0: DB, db: DB, db': DB, p: Pass)
    requires Established(db0, db, p) && NotesMove(db, db', p.scan)
    requires p.phase == Done(Success) ==> Registered(db', p.space) && Pending(db', p.space) == []
    ensures Established(db0, db', p)
  {
    forall path | path in db'.notes && path in NotePaths(p.scan.notes) ensures path in Keep(p.scan) {
      KeepHasPath(p.scan, path);
    }
  }

  lemma BystanderEstablished(setup: Setup, db0: DB, sys: System, a: Action, scan: Scanned, pid: nat)
    requires OneScan(setup, db0, sys, scan) && pid in sys.passes
    ensures Established(db0, Act(setup, sys, a).db, sys.passes[pid])
  {
    var p := sys.passes[pid];
    ActNotesMove(setup, sys, a, scan);
    if p.phase == Done(Success) {
      assert Established(db0, sys.db, p) && Counted(p) && Shape(p);
      SuccessIsInLine(db0, sys.db, p, scan);
      ActInLine(setup, db0, sys, a, p.space, scan);
    }
    EstablishedMoves(db0, sys.db, Act(setup, sys, a).db, p);
  }

  lemma MoverEstablished(setup: Setup, db0: DB, sys: System, pid: nat, ev: Event, scan: Scanned)
    requires OneScan(setup, db0, sys, scan) && pid in sys.passes
    ensures var after := Act(setup, sys, Move(pid, ev));
      pid in after.passes && Established(db0, after.db, after.passes[pid])
  {
    assert Counted(sys.passes[pid]) && Established(db0, sys.db, sys.passes[pid]);
    StepEstablished(setup, db0, sys.db, sys.passes[pid], ev);
  }

  lemma StarterEstablished(db0: DB, db: DB, space: Space, scan: Scanned, size: Positive)
    requires PathsKnown(db0, db, scan)
    ensures Established(db0, db, Begin(space, scan, size))
  {
  }

  lemma ActEstablished(setup: Setup, db0: DB, sys: System, a: Action, scan: Scanned, pid: nat)
    requires OneScan(setup, db0, sys, scan) && (a.Start? ==> a.scan == scan)
    requires pid in Act(setup, sys, a).passes
    ensures Established(db0, Act(setup, sys, a).db, Act(setup, sys, a).passes[pid])
  {
    if a.Move? && a.pid == pid && pid in sys.passes {
      MoverEstablished(setup, db0, sys, pid, a.ev, scan);
    } else if pid in sys.passes {
      BystanderEstablished(setup, db0, sys, a, scan, pid);
    } else {
      StarterEstablished(db0, sys.db, a.space, scan, a.size);
    }
  }

  lemma ActOverScan(setup: Setup, sys: System, a: Action, scan: Scanned)
    requires Shapely(sys) && OverScan(sys, scan) && (a.Start? ==> a.scan == scan)
    ensures OverScan(Act(setup, sys, a), scan)
  {
    if a.Move? && a.pid in sys.passes {
      StepSameScan(setup, sys.db, sys.passes[a.pid], a.ev);
    }
  }

  lemma ActOneScan(setup: Setup, db0: DB, sys: System, a: Action, scan: Scanned)
    requires OneScan(setup, db0, sys, scan) && (a.Start? ==> a.scan == scan)
    ensures OneScan(setup, db0, Act(setup, sys, a), scan)
  {
    ActOk(setup, sys, a);
    ActCounted(setup, sys, a);
    ActOverScan(setup, sys, a, scan);
    ActNotesMove(setup, sys, a, scan);
    forall pid | pid in Act(setup, sys, a).passes
      ensures Established(db0, Act(setup, sys, a).db, Act(setup, sys, a).passes[pid])
    {
      ActEstablished(setup, db0, sys, a, scan, pid);
    }
  }

  lemma {:induction false} ExecuteOneScan(setup: Setup, db0: DB, sys: System, actions: seq<Action>, scan: Scanned)
    requires OneScan(setup, db0, sys, scan) && StartsOver(actions, scan)
    ensures OneScan(setup, db0, Execute(setup, sys, actions), scan)
    decreases |actions|
  {
    if actions != [] {
      var k := |actions| - 1;
      ExecuteOneScan(setup, db0, sys, actions[..k], scan);
      ActOneScan(setup, db0, Execute(setup, sys, actions[..k]), actions[k], scan);
    }
  }

  // ----- the theorem -----

  /** After k actions, this pass has returned nil. */
  predicate Returned(setup: Setup, sys: System, actions: seq<Action>, k: nat, pid: nat)
    requires Shapely(sys) && k <= |actions|
  {
    var at := Before(setup, sys, actions, k);
    pid in at.passes && at.passes[pid].phase == Done(Success)
  }

  lemma {:induction false} StaysInLine(setup: Setup, db0: DB, sys: System, actions: seq<Action>, k: nat,
                                       s: Space, scan: Scanned)
    requires OneScan(setup, db0, sys, scan) && StartsOver(actions, scan) && k <= |actions|
    requires InLine(Before(setup, sys, actions, k).db, db0, s, scan)
    ensures InLine(Execute(setup, sys, actions).db, db0, s, scan)
    decreases |actions|
  {
    if k == |actions| {
      assert actions[..k] == actions;
    } else {
      var n := |actions| - 1;
      assert actions[..n][..k] == actions[..k];
      StaysInLine(setup, db0, sys, actions[..n], k, s, scan);
      ExecuteOneScan(setup, db0, sys, actions[..n], scan);
      ActInLine(setup, db0, Execute(setup, sys, actions[..n]), actions[n], s, scan);
    }
  }

  /** Concurrent indexing of one vault: whatever passes over the scan run, in whatever
      order their steps are taken and however the others end, once one of them has
      returned nil in a space, the index agrees there with a rebuild, with every chunk
      embedded, and no later step of any pass over the scan undoes it. */
  lemma SharedVaultAgrees(setup: Setup, sys: System, actions: seq<Action>, k: nat, pid: nat, s: Space,
                          scan: Scanned, e: DB, size: Positive)
    requires SystemOk(setup, sys) && sys.passes == map[] && ScanRead(setup, scan) && Keep(scan) != []
    requires StartsOver(actions, scan) && k <= |actions| && Returned(setup, sys, actions, k, pid)
    requires s == Before(setup, sys, actions, k).passes[pid].space && Registered(sys.db, s)
    requires Sound(setup, e) && Registered(e, s) && e.notes == map[]
    ensures var db := Execute(setup, sys, actions).db;
      && Registered(db, s) && Pending(db, s) == []
      && AgreesWithRebuilds(setup, sys.db, db, e, s, scan, size)
  {
    NoPasses(setup, sys, scan);
    ExecuteOneScan(setup, sys.db, sys, actions[..k], scan);
    var at := Before(setup, sys, actions, k);
    assert Established(sys.db, at.db, at.passes[pid]) && Counted(at.passes[pid]);
    SuccessIsInLine(sys.db, at.db, at.passes[pid], scan);
    StaysInLine(setup, sys.db, sys, actions, k, s, scan);
    ExecuteOneScan(setup, sys.db, sys, actions, scan);
    InLineAgrees(setup, sys.db, Execute(setup, sys, actions).db, e, s, scan, size);
  }
}
