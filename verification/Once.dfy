/** Passes that do not overlap in a space (knowledge/knowledge.go, Index, of which a
    server runs one at a time): whatever happens to the vault and to the passes, no
    chunk is embedded twice for a space. */
module Once {
  import opened Spaces
  import opened Vault
  import opened Database
  import opened Passes
  import opened Progress
  import opened Losses

  // ----- claims without a vector -----

  /** The claimed chunks that this pass has not saved yet have no vector. */
  predicate Unsaved(db: DB, p: Pass) {
    Registered(db, p.space) && (p.phase.Calling? || p.phase.Saving?)
    ==> forall i | p.start <= i < |p.pending| :: p.pending[i].id !in Table(db, p.space)
  }

  lemma ListUnsaved(db: DB, p: Pass, ev: Event)
    requires p.phase.Listing? && Registered(db, p.space)
    ensures Unsaved(ListStep(db, p, ev).0, ListStep(db, p, ev).1)
  {
    PendingLive(db, p.space);
  }

  lemma SaveUnsaved(db: DB, p: Pass, ev: Event)
    requires p.phase.Saving? && Shape(p) && Registered(db, p.space)
    requires Unsaved(db, p) && DistinctClaims(p.pending)
    ensures Unsaved(SaveStep(db, p, ev).0, SaveStep(db, p, ev).1)
  {
    var batch := Batch(Part(p), p.phase.vectors);
    var after := SaveVectors(db, p.space, batch);
    PartShape(p);
    SavedRows(db, p.space, batch);
    forall j | PartEnd(p) <= j < |p.pending| ensures p.pending[j].id !in Table(after, p.space) {
      assert forall i | 0 <= i < |batch| :: batch[i].chunkId == p.pending[p.start + i].id;
    }
  }

  lemma StepUnsaved(setup: Setup, db: DB, p: Pass, ev: Event)
    requires PassOk(setup, db, p) && Unsaved(db, p)
    ensures Unsaved(Step(setup, db, p, ev).0, Step(setup, db, p, ev).1)
  {
    match p.phase {
      case Storing => StoreNoClaims(setup, db, p, ev);
      case Listing => ListUnsaved(db, p, ev);
      case Saving(_) => SaveUnsaved(db, p, ev);
      case _ =>
    }
  }

  lemma StoreNoClaims(setup: Setup, db: DB, p: Pass, ev: Event)
    requires p.phase.Storing? && Shape(p)
    ensures var q := StoreStep(setup, db, p, ev).1; !q.phase.Calling? && !q.phase.Saving?
  {
  }

  /** A step of another pass, over or in another space, leaves the claims unsaved. */
  lemma BystanderUnsaved(setup: Setup, db: DB, p: Pass, ev: Event, q: Pass)
    requires Sound(setup, db) && PassOk(setup, db, p) && PassOk(setup, db, q) && Unsaved(db, q)
    requires p.phase.Saving? && p.space == q.space ==> q.phase.Done?
    ensures Unsaved(Step(setup, db, p, ev).0, q)
  {
    var db' := Step(setup, db, p, ev).0;
    if Registered(db', q.space) && (q.phase.Calling? || q.phase.Saving?) {
      forall i | q.start <= i < |q.pending| ensures q.pending[i].id !in Table(db', q.space) {
        if q.pending[i].id in Table(db', q.space) {
          StepGainsVector(setup, db, p, ev, q.space, q.pending[i].id);
          assert false;
        }
      }
    }
  }

  // ----- one pass at a time in a space -----

  /** No two passes that are not over share a space; a killed pass is over. */
  predicate OnePerSpace(sys: System) {
    forall a, b | a in sys.passes && b in sys.passes && a != b
                  && !sys.passes[a].phase.Done? && !sys.passes[b].phase.Done? ::
      sys.passes[a].space != sys.passes[b].space
  }

  predicate InTurn(setup: Setup, sys: System, actions: seq<Action>)
    requires Shapely(sys)
  {
    forall k | 0 <= k <= |actions| :: OnePerSpace(Before(setup, sys, actions, k))
  }

  predicate AllUnsaved(sys: System) {
    forall pid | pid in sys.passes :: Unsaved(sys.db, sys.passes[pid])
  }

  lemma OthersUnsaved(setup: Setup, sys: System, pid: nat, ev: Event, db': DB)
    requires SystemOk(setup, sys) && AllUnsaved(sys) && OnePerSpace(sys) && pid in sys.passes
    requires db' == Step(setup, sys.db, sys.passes[pid], ev).0
    ensures forall other | other in sys.passes && other != pid :: Unsaved(db', sys.passes[other])
  {
    forall other | other in sys.passes && other != pid ensures Unsaved(db', sys.passes[other]) {
      BystanderUnsaved(setup, sys.db, sys.passes[pid], ev, sys.passes[other]);
    }
  }

  lemma UnsavedWith(db: DB, passes: map<nat, Pass>, pid: nat, p: Pass)
    requires Unsaved(db, p)
    requires forall other | other in passes && other != pid :: Unsaved(db, passes[other])
    ensures AllUnsaved(System(db, passes[pid := p]))
  {
  }

  lemma MoveUnsaved(setup: Setup, sys: System, pid: nat, ev: Event)
    requires SystemOk(setup, sys) && AllUnsaved(sys) && OnePerSpace(sys) && pid in sys.passes
    ensures AllUnsaved(Act(setup, sys, Move(pid, ev)))
  {
    var r := Step(setup, sys.db, sys.passes[pid], ev);
    StepUnsaved(setup, sys.db, sys.passes[pid], ev);
    OthersUnsaved(setup, sys, pid, ev, r.0);
    UnsavedWith(r.0, sys.passes, pid, r.1);
  }

  lemma OpenUnsaved(setup: Setup, sys: System, s: Space, table: string)
    requires SystemOk(setup, sys) && AllUnsaved(sys) && CanRegister(sys.db, s, table)
    ensures AllUnsaved(sys.(db := Register(sys.db, s, table)))
  {
    forall pid | pid in sys.passes ensures Unsaved(Register(sys.db, s, table), sys.passes[pid]) {
      assert PassOk(setup, sys.db, sys.passes[pid]);
      RegisterKeepsTable(sys.db, s, table, sys.passes[pid].space);
    }
  }

  lemma StartUnsaved(setup: Setup, sys: System, a: Action)
    requires AllUnsaved(sys) && Shapely(sys) && a.Start?
    ensures AllUnsaved(Act(setup, sys, a))
  {
  }

  lemma ActUnsaved(setup: Setup, sys: System, a: Action)
    requires SystemOk(setup, sys) && AllUnsaved(sys) && OnePerSpace(sys)
    ensures AllUnsaved(Act(setup, sys, a))
  {
    match a {
      case OpenSpace(s, table) =>
        if CanRegister(sys.db, s, table) {
          OpenUnsaved(setup, sys, s, table);
        }
      case Move(pid, ev) =>
        if pid in sys.passes {
          MoveUnsaved(setup, sys, pid, ev);
        }
      case Start(_, _, _, _) => StartUnsaved(setup, sys, a);
      case Kill(_) =>
    }
  }

  lemma {:induction false} ExecuteUnsaved(setup: Setup, sys: System, actions: seq<Action>, k: nat)
    requires SystemOk(setup, sys) && AllUnsaved(sys) && InTurn(setup, sys, actions) && k <= |actions|
    ensures AllUnsaved(Before(setup, sys, actions, k))
    decreases k
  {
    if k > 0 {
      assert actions[..k][..k - 1] == actions[..k - 1];
      ExecuteUnsaved(setup, sys, actions, k - 1);
      ExecuteOk(setup, sys, actions[..k - 1]);
      assert OnePerSpace(Before(setup, sys, actions, k - 1));
      ActUnsaved(setup, Before(setup, sys, actions, k - 1), actions[k - 1]);
    }
  }

  // ----- the theorem -----

  /** This step saves the i-th vector of its batch, for this chunk. */
  predicate SavesRow(db: DB, p: Pass, ev: Event, i: nat, s: Space, id: nat) {
    && p.phase.Saving? && Shape(p) && p.space == s && ev.Commit? && Registered(db, s)
    && Insertable(db, s, Batch(Part(p), p.phase.vectors))
    && i < |Part(p)| && Part(p)[i].id == id
  }

  /** Action k does. */
  predicate SavedAt(setup: Setup, sys: System, actions: seq<Action>, k: nat, i: nat, s: Space, id: nat)
    requires Shapely(sys)
  {
    && k < |actions| && actions[k].Move?
    && var at := Before(setup, sys, actions, k);
      actions[k].pid in at.passes && SavesRow(at.db, at.passes[actions[k].pid], actions[k].ev, i, s, id)
  }

  lemma SavesUnsaved(db: DB, p: Pass, ev: Event, i: nat, s: Space, id: nat)
    requires SavesRow(db, p, ev, i, s, id) && Unsaved(db, p)
    ensures id in db.chunks && id !in Table(db, s)
  {
    PartShape(p);
    assert Batch(Part(p), p.phase.vectors)[i].chunkId == id;
  }

  lemma SavesIntoTable(setup: Setup, db: DB, p: Pass, ev: Event, i: nat, s: Space, id: nat)
    requires SavesRow(db, p, ev, i, s, id)
    ensures var db' := Step(setup, db, p, ev).0; Registered(db', s) && id in Table(db', s)
  {
    var batch := Batch(Part(p), p.phase.vectors);
    SavedRows(db, s, batch);
    assert batch[i].chunkId == id;
  }

  /** No saving step overwrites a vector. */
  lemma SavedIsNew(setup: Setup, sys: System, actions: seq<Action>, k: nat, i: nat, s: Space, id: nat)
    requires SystemOk(setup, sys) && AllUnsaved(sys) && InTurn(setup, sys, actions)
    requires SavedAt(setup, sys, actions, k, i, s, id)
    ensures var db := Before(setup, sys, actions, k).db;
      Registered(db, s) && id in db.chunks && id !in Table(db, s)
  {
    var at := Before(setup, sys, actions, k);
    ExecuteUnsaved(setup, sys, actions, k);
    SavesUnsaved(at.db, at.passes[actions[k].pid], actions[k].ev, i, s, id);
  }

  lemma AfterAction(setup: Setup, sys: System, actions: seq<Action>, j: nat)
    requires Shapely(sys) && j < |actions|
    ensures Before(setup, sys, actions, j + 1) == Act(setup, Before(setup, sys, actions, j), actions[j])
  {
    assert actions[..j + 1][..j] == actions[..j];
  }

  lemma BeforeSplit(setup: Setup, sys: System, actions: seq<Action>, j: nat, k: nat)
    requires Shapely(sys) && j <= k <= |actions|
    ensures Before(setup, sys, actions, k) == Execute(setup, Before(setup, sys, actions, j), actions[j..k])
  {
    ExecuteAppend(setup, sys, actions[..j], actions[j..k]);
    assert actions[..j] + actions[j..k] == actions[..k];
  }

  lemma SavedNext(setup: Setup, sys: System, actions: seq<Action>, j: nat, i: nat, s: Space, id: nat)
    requires Shapely(sys) && SavedAt(setup, sys, actions, j, i, s, id)
    ensures var db := Before(setup, sys, actions, j + 1).db; Registered(db, s) && id in Table(db, s)
  {
    var at := Before(setup, sys, actions, j);
    AfterAction(setup, sys, actions, j);
    SavesIntoTable(setup, at.db, at.passes[actions[j].pid], actions[j].ev, i, s, id);
  }

  /** A vector saved by action j is there, or its chunk is gone for good. */
  lemma SavedStays(setup: Setup, sys: System, actions: seq<Action>, j: nat, i: nat, s: Space, id: nat, k: nat)
    requires SystemOk(setup, sys) && SavedAt(setup, sys, actions, j, i, s, id) && j < k <= |actions|
    ensures var db := Before(setup, sys, actions, k).db;
      Registered(db, s) && (id !in Table(db, s) ==> id !in db.chunks)
  {
    SavedNext(setup, sys, actions, j, i, s, id);
    ExecuteOk(setup, sys, actions[..j + 1]);
    LostVectorLostChunk(setup, Before(setup, sys, actions, j + 1), actions[j + 1..k], s, id);
    BeforeSplit(setup, sys, actions, j + 1, k);
  }

  lemma SavedLater(setup: Setup, sys: System, actions: seq<Action>,
                   j: nat, i: nat, k: nat, i': nat, s: Space, id: nat)
    requires SystemOk(setup, sys) && AllUnsaved(sys) && InTurn(setup, sys, actions)
    requires SavedAt(setup, sys, actions, j, i, s, id) && SavedAt(setup, sys, actions, k, i', s, id)
    ensures k <= j
  {
    if j < k {
      SavedStays(setup, sys, actions, j, i, s, id, k);
      SavedIsNew(setup, sys, actions, k, i', s, id);
      assert false;
    }
  }

  /** Nothing is embedded twice: over any run in which no two passes are under way in
      one space at once, whatever the vaults they scan and however each of them ends,
      a chunk is saved at most once for a space. */
  lemma SavedOnce(setup: Setup, sys: System, actions: seq<Action>,
                  j: nat, i: nat, k: nat, i': nat, s: Space, id: nat)
    requires SystemOk(setup, sys) && sys.passes == map[] && InTurn(setup, sys, actions)
    requires SavedAt(setup, sys, actions, j, i, s, id) && SavedAt(setup, sys, actions, k, i', s, id)
    ensures j == k && i == i'
  {
    SavedLater(setup, sys, actions, j, i, k, i', s, id);
    SavedLater(setup, sys, actions, k, i', j, i, s, id);
    var p := Before(setup, sys, actions, k).passes[actions[k].pid];
    OnePlace(Before(setup, sys, actions, k).db, p, actions[k].ev, i, i', s, id);
  }

  lemma OnePlace(db: DB, p: Pass, ev: Event, i: nat, i': nat, s: Space, id: nat)
    requires SavesRow(db, p, ev, i, s, id) && SavesRow(db, p, ev, i', s, id)
    ensures i == i'
  {
    var batch := Batch(Part(p), p.phase.vectors);
    assert batch[i].chunkId == id && batch[i'].chunkId == id;
  }

  // ----- why the passes must take turns -----

  const WORKS := Commit(0, [])

  const NOTHING := Scanned([], [])

  /** A pass over an empty vault, which prunes nothing, before it claims chunks. */
  function AboutToList(s: Space, size: Positive): Pass {
    Begin(s, NOTHING, size).(phase := Listing)
  }

  function AboutToCall(db: DB, s: Space, size: Positive): Pass
    requires Registered(db, s)
  {
    AboutToList(s, size).(phase := Calling, pending := ClaimPending(db, s, PENDING_BATCH))
  }

  function AboutToSave(setup: Setup, db: DB, s: Space, size: Positive): Pass
    requires Registered(db, s)
  {
    var p := AboutToCall(db, s, size);
    var texts := Texts(Part(p));
    p.(phase := Saving(Embeddings(setup.model, s, Document, texts)), sent := p.sent + [texts])
  }

  lemma Prunes(setup: Setup, db: DB, s: Space, size: Positive)
    ensures Step(setup, db, Begin(s, NOTHING, size), WORKS) == (db, AboutToList(s, size))
  {
  }

  lemma Lists(setup: Setup, db: DB, s: Space, size: Positive)
    requires Registered(db, s) && Pending(db, s) != []
    ensures Shape(AboutToCall(db, s, size))
    ensures Step(setup, db, AboutToList(s, size), WORKS) == (db, AboutToCall(db, s, size))
  {
  }

  lemma Calls(setup: Setup, db: DB, s: Space, size: Positive)
    requires Registered(db, s) && Shape(AboutToCall(db, s, size))
    ensures Step(setup, db, AboutToCall(db, s, size), WORKS) == (db, AboutToSave(setup, db, s, size))
  {
    assert Step(setup, db, AboutToCall(db, s, size), WORKS) == CallStep(setup, db, AboutToCall(db, s, size), WORKS);
  }

  function Opening(pid: nat, s: Space, size: Positive): seq<Action> {
    [Start(pid, s, NOTHING, size), Move(pid, WORKS), Move(pid, WORKS), Move(pid, WORKS)]
  }

  lemma ExecuteSnoc(setup: Setup, sys: System, actions: seq<Action>, a: Action)
    requires Shapely(sys)
    ensures Execute(setup, sys, actions + [a]) == Act(setup, Execute(setup, sys, actions), a)
  {
    assert (actions + [a])[..|actions|] == actions;
  }

  function With(sys: System, pid: nat, p: Pass): System {
    sys.(passes := sys.passes[pid := p])
  }

  lemma MoveQuietly(setup: Setup, sys: System, pid: nat, p: Pass, q: Pass)
    requires Shapely(sys) && Shape(p) && Step(setup, sys.db, p, WORKS) == (sys.db, q)
    ensures Shapely(With(sys, pid, p)) && Act(setup, With(sys, pid, p), Move(pid, WORKS)) == With(sys, pid, q)
  {
    assert sys.passes[pid := p][pid := q] == sys.passes[pid := q];
  }

  lemma Opened(setup: Setup, sys: System, pid: nat, s: Space, size: Positive)
    requires Shapely(sys) && pid !in sys.passes && Registered(sys.db, s) && Pending(sys.db, s) != []
    ensures Execute(setup, sys, Opening(pid, s, size)) == With(sys, pid, AboutToSave(setup, sys.db, s, size))
  {
    var begin, move := Start(pid, s, NOTHING, size), Move(pid, WORKS);
    Prunes(setup, sys.db, s, size);
    Lists(setup, sys.db, s, size);
    Calls(setup, sys.db, s, size);
    MoveQuietly(setup, sys, pid, Begin(s, NOTHING, size), AboutToList(s, size));
    MoveQuietly(setup, sys, pid, AboutToList(s, size), AboutToCall(sys.db, s, size));
    MoveQuietly(setup, sys, pid, AboutToCall(sys.db, s, size), AboutToSave(setup, sys.db, s, size));
    ExecuteSnoc(setup, sys, [], begin);
    ExecuteSnoc(setup, sys, [begin], move);
    ExecuteSnoc(setup, sys, [begin, move], move);
    ExecuteSnoc(setup, sys, [begin, move, move], move);
    assert [] + [begin] == [begin] && [begin] + [move] == [begin, move];
    assert [begin, move] + [move] == [begin, move, move];
    assert [begin, move, move] + [move] == Opening(pid, s, size);
  }

  lemma AboutToSaveOk(setup: Setup, db: DB, s: Space, size: Positive)
    requires Sound(setup, db) && Registered(db, s) && Pending(db, s) != [] && ChunksFit(setup, s, db.chunks)
    ensures SavesRow(db, AboutToSave(setup, db, s, size), WORKS, 0, s, Pending(db, s)[0])
  {
    var p := AboutToSave(setup, db, s, size);
    PendingLive(db, s);
    ClaimsHonest(setup, db, s);
    PartInsertable(setup, db, p);
  }

  /** Saving again does not change what can be saved. */
  lemma SavesAgain(setup: Setup, db: DB, p: Pass, i: nat, s: Space, id: nat)
    requires SavesRow(db, p, WORKS, i, s, id)
    ensures SavesRow(Step(setup, db, p, WORKS).0, p, WORKS, i, s, id)
  {
    SavedRows(db, s, Batch(Part(p), p.phase.vectors));
  }

  function Overlap(s: Space, size: Positive): seq<Action> {
    Opening(0, s, size) + Opening(1, s, size) + [Move(0, WORKS), Move(1, WORKS)]
  }

  /** Two passes in the same space with the same claims, both about to save. */
  function Both(setup: Setup, db: DB, s: Space, size: Positive): System
    requires Registered(db, s)
  {
    System(db, map[0 := AboutToSave(setup, db, s, size), 1 := AboutToSave(setup, db, s, size)])
  }

  lemma BothOpened(setup: Setup, db: DB, s: Space, size: Positive)
    requires Registered(db, s) && Pending(db, s) != []
    ensures Before(setup, System(db, map[]), Overlap(s, size), 8) == Both(setup, db, s, size)
  {
    var sys, p := System(db, map[]), AboutToSave(setup, db, s, size);
    Opened(setup, sys, 0, s, size);
    Opened(setup, With(sys, 0, p), 1, s, size);
    ExecuteAppend(setup, sys, Opening(0, s, size), Opening(1, s, size));
    assert Overlap(s, size)[..8] == Opening(0, s, size) + Opening(1, s, size);
  }

  lemma FirstSaves(setup: Setup, sys: System, db: DB, p: Pass)
    requires Shape(p) && sys == System(db, map[0 := p, 1 := p])
    ensures var next := Act(setup, sys, Move(0, WORKS));
      next.db == Step(setup, db, p, WORKS).0 && 1 in next.passes && next.passes[1] == p
  {
  }

  /** Two passes in one space at once can both embed and save a chunk, from any
      database that has one to embed there. */
  lemma OverlapSavesTwice(setup: Setup, db: DB, s: Space, size: Positive)
    requires Sound(setup, db) && Registered(db, s) && Pending(db, s) != [] && ChunksFit(setup, s, db.chunks)
    ensures var sys, id := System(db, map[]), Pending(db, s)[0];
      SavedAt(setup, sys, Overlap(s, size), 8, 0, s, id) && SavedAt(setup, sys, Overlap(s, size), 9, 0, s, id)
  {
    var p := AboutToSave(setup, db, s, size);
    AboutToSaveOk(setup, db, s, size);
    SavesAgain(setup, db, p, 0, s, Pending(db, s)[0]);
    BothOpened(setup, db, s, size);
    AfterAction(setup, System(db, map[]), Overlap(s, size), 8);
    FirstSaves(setup, Both(setup, db, s, size), db, p);
  }
}
