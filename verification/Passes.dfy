/** An indexing pass (knowledge/knowledge.go, Index and embedPending) as a state
    machine over the database, one transaction or provider call a step, and any
    number of passes running at once. */
module Passes {
  import opened Arithmetic
  import opened Ordered
  import opened Spaces
  import opened Vault
  import opened Database

  const PENDING_BATCH := 128

  datatype IndexResult = IndexResult(
    written: nat, same: nat, deleted: nat, skipped: nat, failed: nat, embedded: nat)

  /** How Index returns: nil, the joined note errors, or the error that stopped it. */
  datatype Verdict = Success | NotesFailed | Cancelled | PruneFailed | ListFailed | EmbedFailed | SaveFailed

  /** A claimed chunk, as PendingChunks returned it. */
  datatype Claim = Claim(id: nat, text: string)

  datatype Phase =
    | Storing                       // about to store note number `next`
    | Pruning                       // about to delete missing notes
    | Listing                       // about to ask for pending chunks
    | Calling                       // about to embed the next part of the claimed chunks
    | Saving(vectors: seq<Vector>)  // about to save the vectors of that part
    | Done(verdict: Verdict)

  type Positive = n: nat | n > 0 witness 1

  datatype Pass = Pass(
    space: Space, scan: Scanned, size: Positive, phase: Phase, next: nat,
    pending: seq<Claim>, start: nat, res: IndexResult, sent: seq<seq<string>>)

  /** What the environment decides in a step: it works, with the row ids the
      database hands out; it fails, perhaps burning ids; or the context is found
      cancelled. */
  datatype Event = Commit(noteId: nat, ids: seq<nat>) | Fault(burned: set<nat>) | Cancel

  function NotePaths(notes: seq<Note>): seq<string> {
    seq(|notes|, i requires 0 <= i < |notes| => notes[i].path)
  }

  /** The paths a prune must keep: skipped files count as present. */
  function Keep(scan: Scanned): seq<string> {
    scan.skipped + NotePaths(scan.notes)
  }

  function AfterNote(p: Pass): Pass {
    if p.next < |p.scan.notes| then p.(phase := Storing)
    else if p.res.failed == 0 then p.(phase := Pruning)
    else p.(phase := Listing)
  }

  function Begin(space: Space, scan: Scanned, size: Positive): (p: Pass)
    ensures Shape(p)
  {
    AfterNote(Pass(space, scan, size, Storing, 0, [], 0, IndexResult(0, 0, 0, |scan.skipped|, 0, 0), []))
  }

  function PartEnd(p: Pass): nat {
    Least(p.start + p.size, |p.pending|)
  }

  /** The claimed chunks of the next provider call. */
  function Part(p: Pass): seq<Claim>
    requires p.start <= |p.pending|
  {
    p.pending[p.start..PartEnd(p)]
  }

  function Texts(claims: seq<Claim>): seq<string> {
    seq(|claims|, i requires 0 <= i < |claims| => claims[i].text)
  }

  function Batch(claims: seq<Claim>, vectors: seq<Vector>): seq<ChunkVector>
    requires |claims| == |vectors|
  {
    seq(|claims|, i requires 0 <= i < |claims| => ChunkVector(claims[i].id, vectors[i]))
  }

  function Claims(db: DB, ids: seq<nat>): seq<Claim>
    requires forall id | id in ids :: id in db.chunks
  {
    seq(|ids|, i requires 0 <= i < |ids| => Claim(ids[i], db.chunks[ids[i]].text))
  }

  /** PendingChunks with its limit. */
  function ClaimPending(db: DB, s: Space, limit: nat): seq<Claim>
    requires Registered(db, s)
  {
    PendingLive(db, s);
    Claims(db, Pending(db, s)[..Least(limit, |Pending(db, s)|)])
  }

  lemma PendingLive(db: DB, s: Space)
    requires Registered(db, s)
    ensures Increasing(Pending(db, s))
    ensures forall id :: id in Pending(db, s) <==> id in db.chunks && id !in Table(db, s)
  {
    var ids := db.chunks.Keys - Table(db, s).Keys;
    SortedShape(ids);
    forall id ensures id in Pending(db, s) <==> id in ids {
      SortedMember(ids, id);
    }
  }

  predicate Shape(p: Pass) {
    match p.phase
    case Storing => p.next < |p.scan.notes|
    case Calling => p.start < |p.pending|
    case Saving(vectors) => p.start < |p.pending| && |vectors| == |Part(p)|
    case _ => true
  }

  // ----- one step of a pass -----

  function StoreStep(setup: Setup, db: DB, p: Pass, ev: Event): (DB, Pass)
    requires p.next < |p.scan.notes|
  {
    var note := p.scan.notes[p.next];
    match ev
    case Cancel => (db, p.(phase := Done(Cancelled)))
    case Fault(burned) =>
      (Burn(db, burned), AfterNote(p.(next := p.next + 1, res := p.res.(failed := p.res.failed + 1))))
    case Commit(noteId, ids) =>
      if Stored(db, note) then
        (db, AfterNote(p.(next := p.next + 1, res := p.res.(same := p.res.same + 1))))
      else if CanIssue(setup, db, note, noteId, ids) then
        (RewriteNote(setup, db, note, noteId, ids),
         AfterNote(p.(next := p.next + 1, res := p.res.(written := p.res.written + 1))))
      else (db, p)
  }

  function PruneStep(db: DB, p: Pass, ev: Event): (DB, Pass) {
    var keep := Keep(p.scan);
    if keep == [] || ev.Commit? then
      (Prune(db, keep), p.(phase := Listing, res := p.res.(deleted := PruneCount(db, keep))))
    else (db, p.(phase := Done(PruneFailed)))
  }

  /** The verdict of a pass that went through: nil, unless notes failed. */
  function Nil(p: Pass): Verdict {
    if p.res.failed == 0 then Success else NotesFailed
  }

  function ListStep(db: DB, p: Pass, ev: Event): (DB, Pass) {
    if !ev.Commit? || !Registered(db, p.space) then (db, p.(phase := Done(ListFailed)))
    else
      var pending := ClaimPending(db, p.space, PENDING_BATCH);
      if pending == [] then
        (db, p.(phase := Done(Nil(p))))
      else (db, p.(phase := Calling, pending := pending, start := 0))
  }

  function CallStep(setup: Setup, db: DB, p: Pass, ev: Event): (DB, Pass)
    requires p.start < |p.pending|
  {
    var texts := Texts(Part(p));
    var asked := p.(sent := p.sent + [texts]);
    if ev.Commit? then (db, asked.(phase := Saving(Embeddings(setup.model, p.space, Document, texts))))
    else (db, asked.(phase := Done(EmbedFailed)))
  }

  function SaveStep(db: DB, p: Pass, ev: Event): (DB, Pass)
    requires p.phase.Saving? && Shape(p)
  {
    var batch := Batch(Part(p), p.phase.vectors);
    if ev.Commit? && Registered(db, p.space) && Insertable(db, p.space, batch) then
      (SaveVectors(db, p.space, batch),
       p.(phase := if PartEnd(p) < |p.pending| then Calling else Listing,
          start := PartEnd(p), res := p.res.(embedded := p.res.embedded + |batch|)))
    else (db, p.(phase := Done(SaveFailed)))
  }

  function Step(setup: Setup, db: DB, p: Pass, ev: Event): (r: (DB, Pass))
    requires Shape(p)
    ensures Shape(r.1)
  {
    match p.phase
    case Storing => StoreStep(setup, db, p, ev)
    case Pruning => PruneStep(db, p, ev)
    case Listing => ListStep(db, p, ev)
    case Calling => CallStep(setup, db, p, ev)
    case Saving(_) => SaveStep(db, p, ev)
    case Done(_) => (db, p)
  }

  /** A pass running alone, for as many steps as there are events. */
  function Run(setup: Setup, db: DB, p: Pass, evs: seq<Event>): (r: (DB, Pass))
    requires Shape(p)
    ensures Shape(r.1)
    decreases |evs|
  {
    if evs == [] then (db, p)
    else
      var k := |evs| - 1;
      var before := Run(setup, db, p, evs[..k]);
      Step(setup, before.0, before.1, evs[k])
  }

  lemma RunSnoc(setup: Setup, db: DB, p: Pass, evs: seq<Event>, ev: Event)
    requires Shape(p)
    ensures var before := Run(setup, db, p, evs);
      Run(setup, db, p, evs + [ev]) == Step(setup, before.0, before.1, ev)
  {
    assert (evs + [ev])[..|evs|] == evs;
  }

  lemma RunAppendOne(setup: Setup, db: DB, p: Pass, a: seq<Event>, front: seq<Event>, ev: Event, b: seq<Event>)
    requires Shape(p) && b == front + [ev]
    requires var mid := Run(setup, db, p, a); Run(setup, db, p, a + front) == Run(setup, mid.0, mid.1, front)
    ensures var mid := Run(setup, db, p, a); Run(setup, db, p, a + b) == Run(setup, mid.0, mid.1, b)
  {
    var mid := Run(setup, db, p, a);
    RunSnoc(setup, db, p, a + front, ev);
    RunSnoc(setup, mid.0, mid.1, front, ev);
    assert a + b == (a + front) + [ev];
  }

  lemma {:induction false} RunAppend(setup: Setup, db: DB, p: Pass, a: seq<Event>, b: seq<Event>)
    requires Shape(p)
    ensures var mid := Run(setup, db, p, a); Run(setup, db, p, a + b) == Run(setup, mid.0, mid.1, b)
    decreases |b|
  {
    if b == [] {
      assert a + b == a;
    } else {
      var front, last := b[..|b| - 1], b[|b| - 1];
      RunAppend(setup, db, p, a, front);
      RunAppendOne(setup, db, p, a, front, last, b);
    }
  }

  lemma RunSplit(setup: Setup, db: DB, p: Pass, evs: seq<Event>, k: nat)
    requires Shape(p) && k <= |evs|
    ensures var mid := Run(setup, db, p, evs[..k]); Run(setup, db, p, evs) == Run(setup, mid.0, mid.1, evs[k..])
  {
    assert evs == evs[..k] + evs[k..];
    RunAppend(setup, db, p, evs[..k], evs[k..]);
  }

  lemma StepSameScan(setup: Setup, db: DB, p: Pass, ev: Event)
    requires Shape(p)
    ensures var q := Step(setup, db, p, ev).1; q.scan == p.scan && q.space == p.space && q.size == p.size
  {
    match p.phase {
      case Storing => assert StoreStep(setup, db, p, ev).1.scan == p.scan;
      case _ =>
    }
  }

  // ----- what a pass may assume about the database -----

  /** A claimed chunk was live once; if it still is, its text is the claimed one. */
  predicate HonestClaim(db: DB, c: Claim) {
    c.id in db.issued && (c.id in db.chunks ==> db.chunks[c.id].text == c.text)
  }

  predicate DistinctClaims(claims: seq<Claim>) {
    forall i, j | 0 <= i < j < |claims| :: claims[i].id != claims[j].id
  }

  predicate HonestClaims(db: DB, claims: seq<Claim>) {
    forall i | 0 <= i < |claims| :: HonestClaim(db, claims[i])
  }

  predicate ScanRead(setup: Setup, scan: Scanned) {
    && (forall i | 0 <= i < |scan.notes| :: ReadAs(setup, scan.notes[i]))
    && (forall i, j | 0 <= i < j < |scan.notes| :: scan.notes[i].path != scan.notes[j].path)
    && (forall i | 0 <= i < |scan.notes| :: scan.notes[i].path !in scan.skipped)
  }

  ghost predicate PassOk(setup: Setup, db: DB, p: Pass) {
    && Shape(p) && Registered(db, p.space) && ScanRead(setup, p.scan)
    && HonestClaims(db, p.pending) && DistinctClaims(p.pending)
    && (p.phase.Saving? ==> p.phase.vectors == Embeddings(setup.model, p.space, Document, Texts(Part(p))))
  }

  // ----- ids are never reused, and chunk text never changes in place -----

  /** What any step, of any pass, leaves to the others. */
  ghost predicate Extends(db: DB, db': DB) {
    && db.issued <= db'.issued
    && (forall s | Registered(db, s) :: Registered(db', s))
    && (forall id | id in db'.chunks && id in db.issued :: id in db.chunks && db'.chunks[id] == db.chunks[id])
  }

  lemma ExtendsKeepsPass(setup: Setup, db: DB, db': DB, p: Pass)
    requires PassOk(setup, db, p) && Extends(db, db')
    ensures PassOk(setup, db', p)
  {
    forall i | 0 <= i < |p.pending| ensures HonestClaim(db', p.pending[i]) {
      assert HonestClaim(db, p.pending[i]);
    }
  }

  lemma PruneExtends(setup: Setup, db: DB, keep: seq<string>)
    ensures Extends(db, Prune(db, keep))
  {
  }

  lemma StoreExtends(setup: Setup, db: DB, p: Pass, ev: Event)
    requires Sound(setup, db) && p.phase.Storing? && PassOk(setup, db, p)
    ensures var r := StoreStep(setup, db, p, ev); Extends(db, r.0) && Sound(setup, r.0)
  {
    var note := p.scan.notes[p.next];
    if ev.Commit? && !Stored(db, note) && CanIssue(setup, db, note, ev.noteId, ev.ids) {
      RewriteOk(setup, db, note, ev.noteId, ev.ids);
      RewriteRows(setup, db, note, ev.noteId, ev.ids);
    } else if ev.Fault? {
      BurnOk(setup, db, ev.burned);
    }
  }

  lemma BurnOk(setup: Setup, db: DB, ids: set<nat>)
    requires Sound(setup, db)
    ensures Sound(setup, Burn(db, ids)) && Extends(db, Burn(db, ids))
  {
    var db' := Burn(db, ids);
    forall s | Registered(db', s) ensures FreshTable(setup, db'.chunks, s, Table(db', s)) {
      assert Registered(db, s);
    }
    forall id | id in db'.chunks ensures HasNote(db', db'.chunks[id].noteId) {
      assert HasNote(db, db.chunks[id].noteId);
    }
  }

  lemma PartShape(p: Pass)
    requires p.start < |p.pending|
    ensures 0 < |Part(p)| <= p.size && PartEnd(p) == p.start + |Part(p)|
    ensures forall i | 0 <= i < |Part(p)| :: Part(p)[i] == p.pending[p.start + i]
  {
  }

  lemma PartTruthful(setup: Setup, db: DB, p: Pass)
    requires PassOk(setup, db, p) && p.phase.Saving?
    ensures var batch := Batch(Part(p), p.phase.vectors);
      Truthful(setup, db, p.space, batch) && DistinctIds(batch)
  {
    PartShape(p);
    var batch := Batch(Part(p), p.phase.vectors);
    forall i | 0 <= i < |batch| && batch[i].chunkId in db.chunks
      ensures batch[i].vector == setup.model(p.space, Document, db.chunks[batch[i].chunkId].text)
    {
      assert HonestClaim(db, p.pending[p.start + i]);
    }
  }

  lemma SaveExtends(setup: Setup, db: DB, p: Pass, ev: Event)
    requires Sound(setup, db) && p.phase.Saving? && PassOk(setup, db, p)
    ensures var r := SaveStep(db, p, ev); Extends(db, r.0) && Sound(setup, r.0)
  {
    var batch := Batch(Part(p), p.phase.vectors);
    PartTruthful(setup, db, p);
    if Insertable(db, p.space, batch) {
      SaveVectorsOk(setup, db, p.space, batch);
    }
  }

  lemma ClaimsHonest(setup: Setup, db: DB, s: Space)
    requires Sound(setup, db) && Registered(db, s)
    ensures var claims := ClaimPending(db, s, PENDING_BATCH); HonestClaims(db, claims) && DistinctClaims(claims)
  {
    PendingLive(db, s);
  }

  ghost predicate Kept(setup: Setup, db: DB, r: (DB, Pass)) {
    Sound(setup, r.0) && Extends(db, r.0) && PassOk(setup, r.0, r.1)
  }

  predicate SameClaims(p: Pass, q: Pass) {
    q.space == p.space && q.scan == p.scan && q.pending == p.pending && !q.phase.Saving?
  }

  lemma MovedOk(setup: Setup, db: DB, p: Pass, q: Pass)
    requires PassOk(setup, db, p) && SameClaims(p, q) && Shape(q)
    ensures PassOk(setup, db, q)
  {
  }

  lemma StoreMoves(setup: Setup, db: DB, p: Pass, ev: Event)
    requires p.phase.Storing? && Shape(p)
    ensures SameClaims(p, StoreStep(setup, db, p, ev).1) && Shape(StoreStep(setup, db, p, ev).1)
  {
  }

  lemma StoreOk(setup: Setup, db: DB, p: Pass, ev: Event)
    requires Sound(setup, db) && PassOk(setup, db, p) && p.phase.Storing?
    ensures Kept(setup, db, StoreStep(setup, db, p, ev))
  {
    var r := StoreStep(setup, db, p, ev);
    StoreExtends(setup, db, p, ev);
    ExtendsKeepsPass(setup, db, r.0, p);
    StoreMoves(setup, db, p, ev);
    MovedOk(setup, r.0, p, r.1);
  }

  lemma PruneStepOk(setup: Setup, db: DB, p: Pass, ev: Event)
    requires Sound(setup, db) && PassOk(setup, db, p) && p.phase.Pruning?
    ensures Kept(setup, db, PruneStep(db, p, ev))
  {
    PruneOk(setup, db, Keep(p.scan));
    PruneExtends(setup, db, Keep(p.scan));
    ExtendsKeepsPass(setup, db, PruneStep(db, p, ev).0, p);
  }

  lemma SaveOk(setup: Setup, db: DB, p: Pass, ev: Event)
    requires Sound(setup, db) && PassOk(setup, db, p) && p.phase.Saving?
    ensures Kept(setup, db, SaveStep(db, p, ev))
  {
    SaveExtends(setup, db, p, ev);
    ExtendsKeepsPass(setup, db, SaveStep(db, p, ev).0, p);
  }

  lemma ListOk(setup: Setup, db: DB, p: Pass, ev: Event)
    requires Sound(setup, db) && PassOk(setup, db, p) && p.phase.Listing?
    ensures Kept(setup, db, ListStep(db, p, ev))
  {
    ClaimsHonest(setup, db, p.space);
  }

  lemma CallOk(setup: Setup, db: DB, p: Pass, ev: Event)
    requires Sound(setup, db) && PassOk(setup, db, p) && p.phase.Calling?
    ensures Kept(setup, db, CallStep(setup, db, p, ev))
  {
  }

  lemma DoneOk(setup: Setup, db: DB, p: Pass)
    requires Sound(setup, db) && PassOk(setup, db, p)
    ensures Kept(setup, db, (db, p))
  {
  }

  /** Every step keeps the database sound and every pass's assumptions true. */
  lemma StepOk(setup: Setup, db: DB, p: Pass, ev: Event)
    requires Sound(setup, db) && PassOk(setup, db, p)
    ensures Kept(setup, db, Step(setup, db, p, ev))
  {
    match p.phase {
      case Storing => StoreOk(setup, db, p, ev);
      case Pruning => PruneStepOk(setup, db, p, ev);
      case Listing => ListOk(setup, db, p, ev);
      case Calling => CallOk(setup, db, p, ev);
      case Saving(_) => SaveOk(setup, db, p, ev);
      case Done(_) => DoneOk(setup, db, p);
    }
  }

  // ----- any number of passes at once -----

  datatype System = System(db: DB, passes: map<nat, Pass>)

  datatype Action =
    | OpenSpace(space: Space, table: string)
    | Start(pid: nat, space: Space, scan: Scanned, size: Positive)
    | Move(pid: nat, ev: Event)
    | Kill(pid: nat)

  const INITIAL := System(EMPTY, map[])

  predicate CanStart(setup: Setup, sys: System, a: Action)
    requires a.Start?
  {
    a.pid !in sys.passes && Registered(sys.db, a.space) && ScanRead(setup, a.scan)
  }

  predicate Shapely(sys: System) {
    forall pid | pid in sys.passes :: Shape(sys.passes[pid])
  }

  /** One action of the system; an action that is not possible does nothing. */
  function Act(setup: Setup, sys: System, a: Action): (r: System)
    requires Shapely(sys)
    ensures Shapely(r)
  {
    match a
    case OpenSpace(s, table) =>
      if CanRegister(sys.db, s, table) then sys.(db := Register(sys.db, s, table)) else sys
    case Start(pid, space, scan, size) =>
      if CanStart(setup, sys, a) then sys.(passes := sys.passes[pid := Begin(space, scan, size)]) else sys
    case Move(pid, ev) =>
      if pid in sys.passes then
        var r := Step(setup, sys.db, sys.passes[pid], ev);
        System(r.0, sys.passes[pid := r.1])
      else sys
    case Kill(pid) => sys.(passes := sys.passes - {pid})
  }

  function Execute(setup: Setup, sys: System, actions: seq<Action>): (r: System)
    requires Shapely(sys)
    ensures Shapely(r)
    decreases |actions|
  {
    if actions == [] then sys
    else Act(setup, Execute(setup, sys, actions[..|actions| - 1]), actions[|actions| - 1])
  }

  ghost predicate SystemOk(setup: Setup, sys: System) {
    Sound(setup, sys.db) && forall pid | pid in sys.passes :: PassOk(setup, sys.db, sys.passes[pid])
  }

  lemma OpenOk(setup: Setup, sys: System, s: Space, table: string)
    requires SystemOk(setup, sys) && CanRegister(sys.db, s, table)
    ensures SystemOk(setup, sys.(db := Register(sys.db, s, table)))
    ensures Extends(sys.db, Register(sys.db, s, table))
  {
    RegisterOk(setup, sys.db, s, table);
    OthersKept(setup, sys, Register(sys.db, s, table));
  }

  lemma ActOk(setup: Setup, sys: System, a: Action)
    requires SystemOk(setup, sys)
    ensures SystemOk(setup, Act(setup, sys, a))
    ensures Extends(sys.db, Act(setup, sys, a).db)
  {
    match a {
      case OpenSpace(s, table) =>
        if CanRegister(sys.db, s, table) {
          OpenOk(setup, sys, s, table);
        }
      case Start(_, space, scan, size) =>
      case Move(pid, ev) =>
        if pid in sys.passes {
          MoveOk(setup, sys, pid, ev);
        }
      case Kill(_) =>
    }
  }

  lemma MoveOk(setup: Setup, sys: System, pid: nat, ev: Event)
    requires SystemOk(setup, sys) && pid in sys.passes
    ensures SystemOk(setup, Act(setup, sys, Move(pid, ev)))
    ensures Extends(sys.db, Act(setup, sys, Move(pid, ev)).db)
  {
    StepOk(setup, sys.db, sys.passes[pid], ev);
    OthersKept(setup, sys, Step(setup, sys.db, sys.passes[pid], ev).0);
  }

  lemma OthersKept(setup: Setup, sys: System, db': DB)
    requires SystemOk(setup, sys) && Extends(sys.db, db')
    ensures forall pid | pid in sys.passes :: PassOk(setup, db', sys.passes[pid])
  {
    forall pid | pid in sys.passes ensures PassOk(setup, db', sys.passes[pid]) {
      ExtendsKeepsPass(setup, sys.db, db', sys.passes[pid]);
    }
  }

  lemma {:induction false} ExecuteOk(setup: Setup, sys: System, actions: seq<Action>)
    requires SystemOk(setup, sys)
    ensures SystemOk(setup, Execute(setup, sys, actions))
    decreases |actions|
  {
    if actions != [] {
      var k := |actions| - 1;
      ExecuteOk(setup, sys, actions[..k]);
      ActOk(setup, Execute(setup, sys, actions[..k]), actions[k]);
    }
  }

  lemma {:induction false} ExecuteAppend(setup: Setup, sys: System, a: seq<Action>, b: seq<Action>)
    requires Shapely(sys)
    ensures Execute(setup, sys, a + b) == Execute(setup, Execute(setup, sys, a), b)
    decreases |b|
  {
    if b == [] {
      assert a + b == a;
    } else {
      var k := |b| - 1;
      ExecuteAppend(setup, sys, a, b[..k]);
      assert (a + b)[..|a| + k] == a + b[..k];
    }
  }

  /** No stale vector under any interleaving: whatever passes run, in whatever
      order their steps are taken and whichever of them fail or are killed, every
      stored vector belongs to a live chunk, has the dimension of its space and is
      the embedding of the text that chunk has now. */
  lemma NoStaleVector(setup: Setup, actions: seq<Action>, s: Space, id: nat)
    requires var db := Execute(setup, INITIAL, actions).db; Registered(db, s) && id in Table(db, s)
    ensures var db := Execute(setup, INITIAL, actions).db;
      && id in db.chunks
      && Table(db, s)[id] == setup.model(s, Document, db.chunks[id].text)
      && |Table(db, s)[id]| == s.dim
  {
    EmptyOk(setup);
    ExecuteOk(setup, INITIAL, actions);
    var db := Execute(setup, INITIAL, actions).db;
    assert FreshTable(setup, db.chunks, s, Table(db, s));
  }
}
