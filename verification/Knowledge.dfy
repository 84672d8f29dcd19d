/** The indexing pass as the program it is, knowledge/knowledge.go: Index and
    embedPending run against the store and the provider, and every run of them is a
    run of the pass machine whose events are those the environment decides. */
module Knowledge {
  import opened Outcome
  import opened Spaces
  import opened Vault
  import opened Database
  import opened Passes
  import opened Storage
  import Arithmetic
  import Calls
  import Chunker
  import Embedding
  import Frontmatter
  import Progress
  import Rebuild
  import Text
  import Walk

  const DEFAULT_CHUNK_SIZE := 800

  /** What can go wrong on the way, by the number of the step it goes wrong in: the
      context is found cancelled before a note, a statement of the transaction that
      stores it fails, or a prune, a listing or a save fails. */
  datatype Weather = Weather(cancelled: nat -> bool, statement: nat -> Option<nat>, fails: nat -> bool)

  /** The context is cancelled before none of the first n notes. */
  predicate Uncancelled(w: Weather, n: nat) {
    forall i | 0 <= i < n :: !w.cancelled(i)
  }

  predicate CancelledAt(w: Weather, k: nat) {
    w.cancelled(k)
  }

  predicate FailsAt(w: Weather, k: nat) {
    w.fails(k)
  }

  function StatementAt(w: Weather, k: nat): Option<nat> {
    w.statement(k)
  }

  lemma UncancelledNext(w: Weather, n: nat)
    requires Uncancelled(w, n) && !CancelledAt(w, n)
    ensures Uncancelled(w, n + 1)
  {
  }

  /** A cancelled step is found before any later one. */
  lemma CancelledEarlier(w: Weather, k: nat, n: nat)
    requires CancelledAt(w, k) && k < n
    ensures !Uncancelled(w, n)
  {
  }

  datatype IndexError = NoVaultPath | ScanFailed | Stopped(verdict: Verdict)

  function Fails(v: Verdict): Option<IndexError> {
    if v == Success then None else Some(Stopped(v))
  }

  const NOTHING := IndexResult(0, 0, 0, 0, 0, 0)

  /** A pass that has stored, or failed to store, the first `next` notes. */
  function Reached(space: Space, scan: Scanned, size: Positive, next: nat, res: IndexResult): Pass {
    AfterNote(Pass(space, scan, size, Storing, next, [], 0, res, []))
  }

  function Stores(res: IndexResult, r: Result<(nat, bool), StoreError>): IndexResult {
    match r
    case Err(_) => res.(failed := res.failed + 1)
    case Ok((_, written)) =>
      if written then res.(written := res.written + 1) else res.(same := res.same + 1)
  }

  const DONE := Commit(0, [])
  const FAILED := Fault({})

  function Works(ok: bool): Event {
    if ok then DONE else FAILED
  }

  // ----- runs that the environment decides -----

  /** Everything outside the program: the functions it computes with, the weather of
      this pass, and the remote end, which was asked `asked` times before, in `made` raw
      attempts. */
  datatype Env = Env(setup: Setup, weather: Weather, remote: Embedding.Remote, asked: nat, made: nat)

  /** A solo run so far: where it began, what happened, and the state after each step. */
  datatype History = History(db: DB, p: Pass, evs: seq<Event>, states: seq<(DB, Pass)>) {
    /** The state after k steps. */
    function State(k: nat): (DB, Pass)
      requires k <= |states|
    {
      if k == 0 then (db, p) else states[k - 1]
    }

    function Then(ev: Event, r: (DB, Pass)): History {
      History(db, p, evs + [ev], states + [r])
    }

    /** This run is the other one, or goes on from it. */
    predicate Continues(h: History) {
      db == h.db && p == h.p && h.evs <= evs && h.states <= states
    }

    predicate Starts(db0: DB, p0: Pass) {
      db == db0 && p == p0
    }
  }

  /** The provider answers the part that is due. */
  predicate PartReplied(env: Env, p: Pass)
    requires p.start <= |p.pending|
  {
    Embedding.Replies(env.remote, env.asked + |p.sent|, Texts(Part(p)))
  }

  /** Step k, taken in this state, has the event that the environment decides. */
  ghost predicate Decides(env: Env, k: nat, db: DB, p: Pass, ev: Event)
    requires Shape(p)
  {
    match p.phase
    case Storing =>
      if CancelledAt(env.weather, k) then ev == Cancel
      else
        var note := p.scan.notes[p.next];
        && !ev.Cancel? && (ev.Fault? <==> NoteFails(env, db, note, k))
        && (ev.Commit? ==> Stored(db, note) || CanIssue(env.setup, db, note, ev.noteId, ev.ids))
    case Calling => ev == Works(PartReplied(env, p))
    case Done(_) => false
    case _ => ev == Works(!FailsAt(env.weather, k))
  }

  /** Storing this note in step k fails. */
  ghost predicate NoteFails(env: Env, db: DB, note: Note, k: nat) {
    Hits(StatementAt(env.weather, k), StoreStatements(env.setup, db, note))
  }

  /** Step k is a step of the machine, with the event that the environment decides. */
  ghost predicate StepAt(env: Env, run: History, k: nat)
    requires k < |run.evs| == |run.states|
  {
    var at := run.State(k);
    && Shape(at.1) && Decides(env, k, at.0, at.1, run.evs[k])
    && run.State(k + 1) == Step(env.setup, at.0, at.1, run.evs[k])
  }

  /** The run follows the environment and has reached this database and this state. */
  ghost predicate At(env: Env, run: History, db: DB, p: Pass) {
    && |run.evs| == |run.states| && Shape(run.p) && Shape(p) && run.State(|run.evs|) == (db, p)
    && forall k: nat | k < |run.evs| :: StepAt(env, run, k)
  }

  /** One more step. */
  lemma Moved(env: Env, run: History, db: DB, p: Pass, ev: Event, r: (DB, Pass))
    requires At(env, run, db, p) && Decides(env, |run.evs|, db, p, ev) && r == Step(env.setup, db, p, ev)
    ensures At(env, run.Then(ev, r), r.0, r.1)
  {
    var longer := run.Then(ev, r);
    forall k: nat | k < |longer.evs| ensures StepAt(env, longer, k) {
      assert longer.State(k) == run.State(k);
      if k < |run.evs| {
        assert StepAt(env, run, k) && longer.State(k + 1) == run.State(k + 1);
      }
    }
  }

  /** The step of a pass that finds its context cancelled. */
  lemma CancelMoves(env: Env, run: History, db: DB, p: Pass)
    requires At(env, run, db, p) && p.phase.Storing? && CancelledAt(env.weather, |run.evs|)
    ensures var q := p.(phase := Done(Cancelled)); At(env, run.Then(Cancel, (db, q)), db, q)
  {
    Moved(env, run, db, p, Cancel, (db, p.(phase := Done(Cancelled))));
  }

  /** The state after the provider was asked for the part that is due. */
  function AfterCall(env: Env, p: Pass): Pass
    requires p.start < |p.pending|
  {
    var texts := Texts(Part(p));
    p.(phase := if PartReplied(env, p) then Saving(Embeddings(env.setup.model, p.space, Document, texts))
                else Done(EmbedFailed),
       sent := p.sent + [texts])
  }

  /** What one turn of the inner loop makes of the pass. */
  lemma TurnState(env: Env, p: Pass, pending: seq<Claim>, start: nat, stop: Option<Verdict>, q: Pass)
    requires p.phase.Calling? && Shape(p) && p.pending == pending && p.start == start
    requires q == if stop.Some? then AfterCall(env, p).(phase := Done(stop.value))
                  else Walk.AfterPart(AfterCall(env, p))
    ensures var count := |Part(p)|;
      && count > 0 && start + count == Arithmetic.Least(start + p.size, |pending|)
      && (stop.Some? ==> q == p.(phase := Done(stop.value), sent := q.sent))
      && (stop.None? ==> q == p.(phase := if start + count < |pending| then Calling else Listing,
                                 start := start + count, sent := q.sent,
                                 res := p.res.(embedded := p.res.embedded + count)))
  {
    PartShape(p);
  }

  /** A pass that has reached a note is about to store it. */
  lemma ReachedHere(space: Space, scan: Scanned, size: Positive, i: nat, res: IndexResult)
    requires i < |scan.notes|
    ensures var p := Reached(space, scan, size, i, res);
      p.phase.Storing? && p.next == i && p.scan == scan && p.res == res
  {
  }

  /** Storing one more note. */
  lemma ReachedNext(space: Space, scan: Scanned, size: Positive, i: nat, res: IndexResult,
                    r: Result<(nat, bool), StoreError>)
    requires i < |scan.notes|
    ensures AfterNote(Reached(space, scan, size, i, res).(next := i + 1, res := Stores(res, r)))
         == Reached(space, scan, size, i + 1, Stores(res, r))
  {
  }

  lemma CallMoves(env: Env, run: History, db: DB, p: Pass)
    requires At(env, run, db, p) && p.phase.Calling?
    ensures var q := AfterCall(env, p); At(env, run.Then(Works(PartReplied(env, p)), (db, q)), db, q)
  {
    Moved(env, run, db, p, Works(PartReplied(env, p)), (db, AfterCall(env, p)));
  }

  lemma SaveMoves(env: Env, run: History, db: DB, p: Pass, ok: bool, r: (DB, Pass))
    requires At(env, run, db, p) && p.phase.Saving? && ok == !FailsAt(env.weather, |run.evs|)
    requires r == SaveStep(db, p, Works(ok))
    ensures At(env, run.Then(Works(ok), r), r.0, r.1)
  {
    Moved(env, run, db, p, Works(ok), r);
  }

  function Front(run: History, n: nat): History
    requires n <= |run.evs| == |run.states|
  {
    History(run.db, run.p, run.evs[..n], run.states[..n])
  }

  lemma FrontAt(env: Env, run: History, db: DB, p: Pass, n: nat)
    requires At(env, run, db, p) && n < |run.evs|
    ensures At(env, Front(run, n), run.State(n).0, run.State(n).1)
  {
    var front := Front(run, n);
    assert StepAt(env, run, n);
    forall k: nat | k < n ensures StepAt(env, front, k) {
      assert StepAt(env, run, k) && front.State(k) == run.State(k) && front.State(k + 1) == run.State(k + 1);
    }
  }

  /** The states are those of the machine. */
  lemma {:induction false} AtIsRun(env: Env, run: History, db: DB, p: Pass)
    requires At(env, run, db, p)
    ensures (db, p) == Run(env.setup, run.db, run.p, run.evs)
    decreases |run.evs|
  {
    if run.evs != [] {
      var n := |run.evs| - 1;
      FrontAt(env, run, db, p, n);
      AtIsRun(env, Front(run, n), run.State(n).0, run.State(n).1);
      assert StepAt(env, run, n);
    }
  }

  /** Why a step ends the pass: each verdict exactly in its phase and for its cause. */
  lemma StopsExactly(env: Env, k: nat, db: DB, p: Pass, ev: Event, q: Pass)
    requires Shape(p) && Decides(env, k, db, p, ev) && q == Step(env.setup, db, p, ev).1
    ensures q.phase == Done(Cancelled) <==> p.phase.Storing? && CancelledAt(env.weather, k)
    ensures q.phase == Done(PruneFailed) <==> p.phase.Pruning? && FailsAt(env.weather, k) && Keep(p.scan) != []
    ensures q.phase == Done(ListFailed) <==> p.phase.Listing? && (FailsAt(env.weather, k) || !Registered(db, p.space))
    ensures q.phase == Done(EmbedFailed) <==> p.phase.Calling? && !PartReplied(env, p)
    ensures q.phase == Done(SaveFailed)
       <==> p.phase.Saving? && (FailsAt(env.weather, k) || !Registered(db, p.space)
                                || !Insertable(db, p.space, Batch(Part(p), p.phase.vectors)))
    ensures q.phase == Done(Success) || q.phase == Done(NotesFailed)
       <==> p.phase.Listing? && !FailsAt(env.weather, k) && Registered(db, p.space) && Pending(db, p.space) == []
  {
    match p.phase {
      case Storing => StoreStops(env, k, db, p, ev, q);
      case Pruning =>
      case Listing => ListStops(env, k, db, p, ev, q);
      case Calling =>
      case Saving(_) =>
    }
  }

  lemma StoreStops(env: Env, k: nat, db: DB, p: Pass, ev: Event, q: Pass)
    requires Shape(p) && p.phase.Storing? && Decides(env, k, db, p, ev) && q == StoreStep(env.setup, db, p, ev).1
    ensures q.phase == Done(Cancelled) <==> CancelledAt(env.weather, k)
    ensures q.phase.Done? ==> q.phase == Done(Cancelled)
  {
  }

  lemma ListStops(env: Env, k: nat, db: DB, p: Pass, ev: Event, q: Pass)
    requires Shape(p) && p.phase.Listing? && Decides(env, k, db, p, ev) && q == ListStep(db, p, ev).1
    ensures q.phase == Done(ListFailed) <==> FailsAt(env.weather, k) || !Registered(db, p.space)
    ensures q.phase == Done(Success) || q.phase == Done(NotesFailed)
       <==> !FailsAt(env.weather, k) && Registered(db, p.space) && Pending(db, p.space) == []
    ensures q.phase.Done? ==> q.phase == Done(ListFailed) || q.phase == Done(Nil(p))
  {
    if Registered(db, p.space) {
      assert |ClaimPending(db, p.space, PENDING_BATCH)| == Arithmetic.Least(PENDING_BATCH, |Pending(db, p.space)|);
    }
  }

  // ----- nothing goes wrong -----

  /** In this pass: no cancellation, no failing statement, a remote end that answers
      every call, if need be after retries, and vectors of the right dimension. */
  ghost predicate Calm(env: Env, space: Space) {
    && (forall k: nat ::
          !CancelledAt(env.weather, k) && StatementAt(env.weather, k).None? && !FailsAt(env.weather, k))
    && Embedding.AnswersFrom(env.remote, env.asked)
    && (forall text :: Progress.Fits(env.setup, space, text))
  }

  lemma CalmDecides(env: Env, k: nat, db: DB, p: Pass, ev: Event)
    requires Shape(p) && Decides(env, k, db, p, ev) && Calm(env, p.space)
    ensures ev.Commit?
  {
    if p.phase.Calling? {
      assert Embedding.Replies(env.remote, env.asked + |p.sent|, Texts(Part(p)));
    }
  }

  lemma {:induction false} CalmCommits(env: Env, run: History, db: DB, p: Pass)
    requires At(env, run, db, p) && Calm(env, run.p.space)
    ensures Progress.AllCommit(run.evs) && p.space == run.p.space
    decreases |run.evs|
  {
    if run.evs != [] {
      var n := |run.evs| - 1;
      var at := run.State(n);
      FrontAt(env, run, db, p, n);
      CalmCommits(env, Front(run, n), at.0, at.1);
      assert StepAt(env, run, n);
      CalmDecides(env, n, at.0, at.1, run.evs[n]);
      StepSameScan(env.setup, at.0, at.1, run.evs[n]);
      CommitLast(run.evs, n);
    }
  }

  lemma CommitLast(evs: seq<Event>, n: nat)
    requires |evs| == n + 1 && Progress.AllCommit(evs[..n]) && evs[n].Commit?
    ensures Progress.AllCommit(evs)
  {
    forall i | 0 <= i < |evs| ensures evs[i].Commit? {
      assert i < n ==> evs[..n][i] == evs[i];
    }
  }

  /** A pass in which nothing goes wrong, and which is over, returned nil. */
  lemma CalmSucceeds(env: Env, run: History, db: DB, p: Pass)
    requires At(env, run, db, p) && Calm(env, run.p.space) && p.phase.Done?
    requires Sound(env.setup, run.db) && Registered(run.db, run.p.space) && ScanRead(env.setup, run.p.scan)
    requires run.p == Begin(run.p.space, run.p.scan, run.p.size)
    ensures p.phase == Done(Success)
  {
    AtIsRun(env, run, db, p);
    CalmCommits(env, run, db, p);
    Progress.BeginHealthy(env.setup, run.db, run.p.space, run.p.scan, run.p.size);
    Progress.CommitsKeepHealthy(env.setup, run.db, run.p, run.evs);
  }

  // ----- the notes that were stored -----

  /** What storing a note comes to: an error, new content, or the content it had. */
  datatype Fate = Failing | Written | Unchanged

  ghost function FateOf(env: Env, db: DB, note: Note, k: nat): Fate {
    if NoteFails(env, db, note, k) then Failing else if Stored(db, note) then Unchanged else Written
  }

  /** How many of the first n notes come to this; step i stores note i. */
  ghost function HowMany(env: Env, db: DB, notes: seq<Note>, n: nat, fate: Fate): nat
    requires n <= |notes|
  {
    if n == 0 then 0
    else HowMany(env, db, notes, n - 1, fate) + if FateOf(env, db, notes[n - 1], n - 1) == fate then 1 else 0
  }

  /** The counters say what the first n notes came to. */
  ghost predicate Tallied(env: Env, db: DB, notes: seq<Note>, n: nat, res: IndexResult)
    requires n <= |notes|
  {
    && res.written == HowMany(env, db, notes, n, Written)
    && res.same == HowMany(env, db, notes, n, Unchanged)
    && res.failed == HowMany(env, db, notes, n, Failing)
  }

  /** Every note of the first n is stored, unless storing it failed. */
  ghost predicate OthersStored(env: Env, db0: DB, db: DB, notes: seq<Note>, n: nat)
    requires n <= |notes|
  {
    forall i | 0 <= i < n :: NoteFails(env, db0, notes[i], i) || Stored(db, notes[i])
  }

  /** Only notes with this path may have become stored, or not stored. */
  ghost predicate OnlyPath(db: DB, db': DB, path: string) {
    forall n: Note | n.path != path :: Stored(db', n) <==> Stored(db, n)
  }

  ghost predicate StoredSoFar(env: Env, db0: DB, db: DB, notes: seq<Note>, n: nat, res: IndexResult)
    requires n <= |notes|
  {
    && OthersStored(env, db0, db, notes, n) && Tallied(env, db0, notes, n, res)
    && (forall i | n <= i < |notes| :: Stored(db, notes[i]) <==> Stored(db0, notes[i]))
  }

  /** A storing step counts what it came to. */
  lemma StepCounts(env: Env, db: DB, p: Pass, n: nat, ev: Event)
    requires p.phase.Storing? && Shape(p) && Decides(env, n, db, p, ev) && !CancelledAt(env.weather, n)
    ensures var q := StoreStep(env.setup, db, p, ev).1;
      && q.scan == p.scan && q.next == p.next + 1 && (q.next < |p.scan.notes| ==> q.phase.Storing?)
      && q.res == match FateOf(env, db, p.scan.notes[p.next], n)
                  case Failing => p.res.(failed := p.res.failed + 1)
                  case Written => p.res.(written := p.res.written + 1)
                  case Unchanged => p.res.(same := p.res.same + 1)
  {
  }

  lemma TallyNext(env: Env, db: DB, notes: seq<Note>, n: nat, res: IndexResult, res': IndexResult)
    requires n < |notes| && Tallied(env, db, notes, n, res)
    requires res' == match FateOf(env, db, notes[n], n)
                     case Failing => res.(failed := res.failed + 1)
                     case Written => res.(written := res.written + 1)
                     case Unchanged => res.(same := res.same + 1)
    ensures Tallied(env, db, notes, n + 1, res')
  {
  }

  lemma StoredNext(env: Env, db0: DB, db: DB, p: Pass, n: nat, ev: Event)
    requires p.phase.Storing? && Shape(p) && p.next == n && DistinctPaths(p.scan.notes)
    requires Decides(env, n, db, p, ev) && !CancelledAt(env.weather, n)
    requires StoredSoFar(env, db0, db, p.scan.notes, n, p.res)
    ensures var r := StoreStep(env.setup, db, p, ev); var q := r.1;
      && q.scan == p.scan && q.next == n + 1 && (n + 1 < |p.scan.notes| ==> q.phase.Storing?)
      && StoredSoFar(env, db0, r.0, p.scan.notes, n + 1, q.res)
  {
    var notes, r := p.scan.notes, StoreStep(env.setup, db, p, ev);
    assert FateOf(env, db, notes[n], n) == FateOf(env, db0, notes[n], n);
    StepCounts(env, db, p, n, ev);
    TallyNext(env, db0, notes, n, p.res, r.1.res);
    StoredMore(env, db0, db, p, n, ev);
  }

  lemma StoredMore(env: Env, db0: DB, db: DB, p: Pass, n: nat, ev: Event)
    requires p.phase.Storing? && Shape(p) && p.next == n && DistinctPaths(p.scan.notes)
    requires Decides(env, n, db, p, ev) && !CancelledAt(env.weather, n)
    requires StoredSoFar(env, db0, db, p.scan.notes, n, p.res)
    ensures var notes, db' := p.scan.notes, StoreStep(env.setup, db, p, ev).0;
      && OthersStored(env, db0, db', notes, n + 1)
      && (forall i | n + 1 <= i < |notes| :: Stored(db', notes[i]) <==> Stored(db0, notes[i]))
  {
    var notes, r := p.scan.notes, StoreStep(env.setup, db, p, ev);
    assert NoteFails(env, db, notes[n], n) <==> NoteFails(env, db0, notes[n], n);
    StoreTouchesOne(env.setup, db, p, ev);
    forall i | 0 <= i < |notes| && i != n ensures notes[i].path != notes[n].path {
    }
  }

  lemma StoreTouchesOne(setup: Setup, db: DB, p: Pass, ev: Event)
    requires p.phase.Storing? && Shape(p)
    requires ev.Commit? ==> var note := p.scan.notes[p.next];
               Stored(db, note) || CanIssue(setup, db, note, ev.noteId, ev.ids)
    ensures var r, note := StoreStep(setup, db, p, ev), p.scan.notes[p.next];
      OnlyPath(db, r.0, note.path) && (ev.Commit? ==> Stored(r.0, note))
  {
  }

  /** A run that stores notes and is not cancelled stores note i in step i, unless a
      statement of that transaction fails. */
  lemma {:induction false} RunStores(env: Env, run: History, db: DB, p: Pass)
    requires At(env, run, db, p) && |run.evs| <= |run.p.scan.notes| && DistinctPaths(run.p.scan.notes)
    requires run.p == Begin(run.p.space, run.p.scan, run.p.size)
    requires Uncancelled(env.weather, |run.evs|)
    ensures p.res.skipped == |run.p.scan.skipped|
    ensures p.scan == run.p.scan && p.next == |run.evs| && (|run.evs| < |p.scan.notes| ==> p.phase.Storing?)
    ensures StoredSoFar(env, run.db, db, p.scan.notes, |run.evs|, p.res)
    decreases |run.evs|
  {
    if run.evs != [] {
      var n := |run.evs| - 1;
      var at := run.State(n);
      FrontAt(env, run, db, p, n);
      RunStores(env, Front(run, n), at.0, at.1);
      assert StepAt(env, run, n);
      StoredNext(env, run.db, at.0, at.1, n, run.evs[n]);
    }
  }

  /** The notes before the first one at which the context is cancelled are stored and
      counted, those that fail only counted, and the skipped files are counted. */
  ghost predicate Handled(env: Env, db0: DB, db: DB, scan: Scanned, p: Pass) {
    && p.next <= |scan.notes| && Uncancelled(env.weather, p.next)
    && (p.next < |scan.notes| ==> CancelledAt(env.weather, p.next))
    && OthersStored(env, db0, db, scan.notes, p.next) && Tallied(env, db0, scan.notes, p.next, p.res)
    && p.res.skipped == |scan.skipped|
  }

  lemma RunHandled(env: Env, run: History, db: DB, p: Pass, scan: Scanned, q: Pass)
    requires At(env, run, db, p) && |run.evs| <= |scan.notes| && DistinctPaths(scan.notes)
    requires run.p == Begin(run.p.space, scan, run.p.size) && Uncancelled(env.weather, |run.evs|)
    requires |run.evs| < |scan.notes| ==> CancelledAt(env.weather, |run.evs|)
    requires q == p.(phase := q.phase)
    ensures Handled(env, run.db, db, scan, q)
  {
    RunStores(env, run, db, p);
  }

  /** A cancelled pass has handled the notes before. */
  lemma CancelHandled(env: Env, run: History, db: DB, p: Pass, scan: Scanned)
    requires At(env, run, db, p) && |run.evs| < |scan.notes| && DistinctPaths(scan.notes)
    requires run.p == Begin(run.p.space, scan, run.p.size) && Uncancelled(env.weather, |run.evs|)
    requires CancelledAt(env.weather, |run.evs|)
    ensures var q := p.(phase := Done(Cancelled));
      At(env, run.Then(Cancel, (db, q)), db, q) && Handled(env, run.db, db, scan, q)
  {
    RunStores(env, run, db, p);
    CancelMoves(env, run, db, p);
    RunHandled(env, run, db, p, scan, p.(phase := Done(Cancelled)));
  }

  /** Notes at these paths that were stored still are. */
  ghost predicate KeepsStored(db: DB, db': DB, paths: seq<string>) {
    forall n: Note | n.path in paths && Stored(db, n) :: Stored(db', n)
  }

  /** The rest of the pass keeps it so. */
  lemma HandledStill(env: Env, db0: DB, db: DB, db': DB, scan: Scanned, p: Pass, q: Pass)
    requires Handled(env, db0, db, scan, p) && KeepsStored(db, db', Keep(scan)) && q.next == p.next
    requires q.res == p.res.(deleted := q.res.deleted, embedded := q.res.embedded)
    ensures Handled(env, db0, db', scan, q)
  {
    forall i | 0 <= i < |scan.notes| ensures scan.notes[i].path in Keep(scan) {
      Rebuild.KeepHasNote(scan, i);
    }
  }

  /** What SaveNoteWithChunks did is what the pass machine does. */
  lemma EffectIsStep(setup: Setup, before: DB, p: Pass, r: Result<(nat, bool), StoreError>, ev: Event, after: DB)
    requires p.phase.Storing? && p.next < |p.scan.notes|
    requires StoreEffect(setup, before, p.scan.notes[p.next], r, ev, after)
    ensures ev.Commit? ==> var note := p.scan.notes[p.next];
              Stored(before, note) || CanIssue(setup, before, note, ev.noteId, ev.ids)
    ensures StoreStep(setup, before, p, ev)
         == (after, AfterNote(p.(next := p.next + 1, res := Stores(p.res, r))))
    ensures after.registry == before.registry && after.tables.Keys == before.tables.Keys
  {
  }

  lemma NextPath(skipped: seq<string>, notes: seq<Note>, i: nat)
    requires i < |notes|
    ensures (skipped + NotePaths(notes[..i])) + [notes[i].path] == skipped + NotePaths(notes[..i + 1])
  {
    assert NotePaths(notes[..i + 1]) == NotePaths(notes[..i]) + [notes[i].path];
  }

  // ----- the walk over the pending chunks -----

  /** Nothing but the walk over the pending chunks moved, and it embedded `done`. */
  predicate Embeds(p0: Pass, p: Pass, done: nat) {
    p == p0.(phase := p.phase, pending := p.pending, start := p.start, sent := p.sent,
             res := p0.res.(embedded := done))
  }

  /** The save of this part fails, or the database refuses it. */
  predicate Refused(setup: Setup, s: Space, db: DB, part: seq<Claim>, fault: bool) {
    fault || !Insertable(db, s, Walk.BatchFor(setup, s, part))
  }

  predicate FailsEmbedding(v: Verdict) {
    v.ListFailed? || v.EmbedFailed? || v.SaveFailed?
  }

  ghost function Total(db: DB, s: Space): nat {
    if Registered(db, s) then |Walk.PendingClaims(db, s)| else 0
  }

  /** A run that has gone on from its first listing has embedded no more than was
      pending there. */
  lemma DoneBounded(env: Env, run0: History, db0: DB, p0: Pass, run: History, db: DB, p: Pass)
    requires At(env, run0, db0, p0) && At(env, run, db, p) && run.Continues(run0)
    requires Walk.AtFirstListing(p0) && Registered(db0, p0.space)
    ensures p.res.embedded <= Total(db0, p0.space)
  {
    var k := |run0.evs|;
    assert run.evs[..k] == run0.evs;
    AtIsRun(env, run0, db0, p0);
    AtIsRun(env, run, db, p);
    RunSplit(env.setup, run.db, run.p, run.evs, k);
    Walk.WalkGains(env.setup, db0, p0, run.evs[k..]);
  }

  lemma DueWithin(n: nat, maxBatch: int, sent: seq<seq<string>>)
    requires Calls.CallsDue(n, if maxBatch < 1 then 1 else maxBatch, sent)
    ensures Embedding.WithinLimit(maxBatch, sent)
  {
  }

  /** The calls of a walk keep the limit of the provider, wherever it gets. */
  lemma WalkCalls(env: Env, run0: History, db0: DB, p0: Pass, run: History, db: DB, p: Pass)
    requires At(env, run0, db0, p0) && At(env, run, db, p) && run.Continues(run0)
    requires Walk.AtFirstListing(p0) && Registered(db0, p0.space)
    requires p0.size == Embedding.BatchSize(env.remote)
    ensures Embedding.WithinLimit(env.remote.maxBatch, p.sent)
    ensures Calls.CallsDue(Total(db0, p0.space), if env.remote.maxBatch < 1 then 1 else env.remote.maxBatch, p.sent)
  {
    var k := |run0.evs|;
    assert run.evs[..k] == run0.evs;
    AtIsRun(env, run0, db0, p0);
    AtIsRun(env, run, db, p);
    RunSplit(env.setup, run.db, run.p, run.evs, k);
    var n := |Walk.PendingClaims(db0, p0.space)|;
    Calls.RunRounds(env.setup, db0, p0, run.evs[k..], n);
    DueWithin(n, env.remote.maxBatch, p.sent);
  }

  /** The exact provider calls of a pass, n being what was pending when it first asked
      and m the most texts the provider takes, or one: each has m texts, or what is left
      of its 128 or of all n; and a pass that got through its last listing made
      (n / 128) * ceil(128 / m) + ceil((n % 128) / m) of them. */
  lemma PassCost(env: Env, run: History, db: DB, p: Pass) returns (k: nat)
    requires At(env, run, db, p) && !Walk.BeforeListing(p) && run.p.size == Embedding.BatchSize(env.remote)
    requires Sound(env.setup, run.db) && PassOk(env.setup, run.db, run.p) && Walk.BeforeListing(run.p)
    ensures k <= |run.evs|
    ensures var mid := Run(env.setup, run.db, run.p, run.evs[..k]);
      && Walk.AtFirstListing(mid.1) && Registered(mid.0, p.space)
      && var n, m := |Pending(mid.0, p.space)|, if env.remote.maxBatch < 1 then 1 else env.remote.maxBatch;
        && Calls.CallsDue(n, m, p.sent)
        && (Walk.Finished(p)
            ==> |p.sent| == (n / 128) * Arithmetic.CeilDiv(128, m) + Arithmetic.CeilDiv(n % 128, m))
  {
    AtIsRun(env, run, db, p);
    k := Walk.PassReachesWalk(env.setup, run.db, run.p, run.evs);
    Rebuild.RunOk(env.setup, run.db, run.p, run.evs[..k]);
    Rebuild.RunOk(env.setup, run.db, run.p, run.evs);
    var mid := Run(env.setup, run.db, run.p, run.evs[..k]);
    Calls.RunRounds(env.setup, mid.0, mid.1, run.evs[k..], |Pending(mid.0, p.space)|);
    if Walk.Finished(p) {
      Walk.ExactCost(env.setup, mid.0, mid.1, run.evs[k..]);
    }
  }

  /** What the provider was asked, and the raw attempts that took. */
  ghost predicate SpentSo(env: Env, calls0: seq<seq<string>>, sent: seq<seq<string>>, calls: seq<seq<string>>,
                          made: nat)
  {
    && |calls0| == env.asked && calls == calls0 + sent
    && made == env.made + Embedding.RawAttempts(env.remote, env.asked, sent)
  }

  lemma SpentNext(env: Env, calls0: seq<seq<string>>, sent: seq<seq<string>>, calls: seq<seq<string>>, made: nat,
                  texts: seq<string>)
    requires SpentSo(env, calls0, sent, calls, made)
    ensures |calls| == env.asked + |sent|
    ensures SpentSo(env, calls0, sent + [texts], calls + [texts],
                    made + Embedding.Call(env.remote, env.asked + |sent|, texts, Document).runs)
  {
    Text.Assoc(calls0, sent, [texts]);
    Embedding.AttemptsNext(env.remote, env.asked, sent, texts);
  }

  // ----- the whole of a pass -----

  function ScanOf(entries: seq<Entry>): Scanned {
    Scanned(Notes(entries), Skipped(entries))
  }

  ghost function Unstarted(db: DB, space: Space): (History, Pass) {
    var p := Begin(space, Scanned([], []), 1);
    (History(db, p, [], []), p)
  }

  /** The scan of real files with the real parser is what the pass relies on. */
  lemma ScanIsRead(setup: Setup, entries: seq<Entry>)
    requires DistinctFiles(entries)
    requires forall content :: setup.read(content) == Frontmatter.Parse(content)
    ensures ScanRead(setup, ScanOf(entries))
  {
    ScanWellFormed(entries);
    var notes := Notes(entries);
    forall i | 0 <= i < |notes| ensures ReadAs(setup, notes[i]) && notes[i].path !in Skipped(entries) {
      assert notes[i] in notes && IsParse(notes[i]);
    }
  }

  /** A pass that got through, failed notes or not, left nothing pending. */
  lemma FinishedSettled(env: Env, run: History, db: DB, p: Pass)
    requires At(env, run, db, p) && Walk.Finished(p)
    requires Sound(env.setup, run.db) && PassOk(env.setup, run.db, run.p) && Walk.BeforeListing(run.p)
    ensures Registered(db, run.p.space) && Pending(db, run.p.space) == []
  {
    AtIsRun(env, run, db, p);
    var k := Walk.PassReachesWalk(env.setup, run.db, run.p, run.evs);
    Rebuild.RunOk(env.setup, run.db, run.p, run.evs[..k]);
    var mid := Run(env.setup, run.db, run.p, run.evs[..k]);
    Walk.EmbedPendingRefinesWalk(env.setup, mid.0, mid.1, run.evs[k..]);
  }

  /** The run of a pass keeps the database sound; if it got through, nothing is
      pending, and if it succeeded, the database is in line with the vault; if notes
      failed, it deleted none. */
  lemma IndexedInLine(env: Env, run: History, db: DB, p: Pass, scan: Scanned)
    requires At(env, run, db, p) && run.p == Begin(run.p.space, scan, run.p.size) && ScanRead(env.setup, scan)
    requires Sound(env.setup, run.db) && Registered(run.db, run.p.space)
    ensures Sound(env.setup, db)
    ensures Walk.Finished(p) ==> Registered(db, run.p.space) && Pending(db, run.p.space) == []
    ensures p.res.failed > 0 ==> run.db.notes.Keys <= db.notes.Keys && p.res.deleted == 0
    ensures p.phase == Done(Success) ==> Rebuild.InLine(db, run.db, run.p.space, scan)
    ensures p.phase == Done(Success) ==> p.res.failed == 0 && p.res.deleted == Rebuild.Leaving(run.db, scan)
  {
    AtIsRun(env, run, db, p);
    Rebuild.BeginOk(env.setup, run.db, run.p.space, scan, run.p.size);
    Rebuild.RunOk(env.setup, run.db, run.p, run.evs);
    Rebuild.DeletesExactly(env.setup, run.db, run.p.space, scan, run.p.size, run.evs);
    if Walk.Finished(p) {
      FinishedSettled(env, run, db, p);
    }
    Rebuild.SuccessDeletes(env.setup, run.db, run.p.space, scan, run.p.size, run.evs);
    if p.phase == Done(Success) {
      Rebuild.SuccessInLine(env.setup, run.db, run.p.space, scan, run.p.size, run.evs);
    }
  }

  class KnowledgeBase {
    const store: Store
    const provider: Embedding.Provider
    const ref: SpaceRef
    const chunkSize: Positive
    const vaultPath: string

    /** Open: a chunk size that is not positive means the default one. */
    constructor (store: Store, provider: Embedding.Provider, ref: SpaceRef, chunkSize: int, vaultPath: string)
      requires store.Refers(ref)
      ensures this.store == store && this.provider == provider && this.ref == ref && this.vaultPath == vaultPath
      ensures this.chunkSize == if chunkSize <= 0 then 800 else chunkSize
    {
      this.store, this.provider, this.ref, this.vaultPath := store, provider, ref, vaultPath;
      this.chunkSize := if chunkSize <= 0 then DEFAULT_CHUNK_SIZE else chunkSize;
    }

    /** The provider answers with the embeddings of the model in this space. */
    ghost predicate Faithful(env: Env) {
      env.remote == provider.remote && env.remote.space == ref.space
      && Embedding.Pointwise(env.remote, env.setup.model)
    }

    ghost predicate Ready(env: Env)
      reads store
    {
      store.Valid() && store.Refers(ref) && Faithful(env)
    }

    /** The environment starts where the provider is. */
    ghost predicate Asked(env: Env)
      reads provider
    {
      env.asked == |provider.calls| && env.made == provider.made
    }

    /** Since then, the provider was asked exactly this. */
    ghost predicate Spent(env: Env, calls0: seq<seq<string>>, sent: seq<seq<string>>)
      reads provider
    {
      provider.remote == env.remote && SpentSo(env, calls0, sent, provider.calls, provider.made)
    }

    /** The parser and the chunker are the real ones, with this chunk size. */
    ghost predicate Real(setup: Setup) {
      && (forall content :: setup.read(content) == Frontmatter.Parse(content))
      && (forall text :: setup.cut(text) == Chunker.Chunks(text, chunkSize))
    }

    lemma SpentNothing(env: Env)
      requires Asked(env) && Faithful(env)
      ensures Spent(env, provider.calls, [])
    {
      assert provider.calls + [] == provider.calls;
    }

    /** Brings the database in line with the vault. A call that gets past the scan
        is the run of the pass machine that the environment decides, to its end:
        notes that cannot be stored are counted and the others are stored, unless
        the context is cancelled in between. When notes failed, none is deleted, and
        unless something stopped the call later nothing is pending. It returns nil only
        when every scanned note is stored, nothing that left the vault is kept and
        nothing is pending, and it does return nil when nothing goes wrong. */
    method Index(ghost env: Env, entries: seq<Entry>, w: Weather)
      returns (res: IndexResult, err: Option<IndexError>, ghost run: History, ghost p: Pass)
      requires Ready(env) && Real(env.setup) && env.weather == w && Asked(env)
      requires DistinctFiles(entries) && Sound(env.setup, store.View())
      modifies store, provider
      ensures Ready(env) && Sound(env.setup, store.View())
      ensures err == Some(NoVaultPath) <==> vaultPath == ""
      ensures err == Some(ScanFailed) <==> vaultPath != "" && exists i :: 0 <= i < |entries| && StopsWalk(entries[i])
      ensures err == Some(NoVaultPath) || err == Some(ScanFailed)
              ==> res == NOTHING && store.View() == old(store.View()) && provider.calls == old(provider.calls)
      ensures err != Some(NoVaultPath) && err != Some(ScanFailed)
              ==> IndexedAs(env, old(store.View()), store.View(), ScanOf(entries), run, p)
                  && res == p.res && err == Fails(p.phase.verdict)
                  && Spent(env, old(provider.calls), p.sent)
      ensures err.None? ==> Rebuild.InLine(store.View(), old(store.View()), ref.space, ScanOf(entries))
      ensures err.None? ==> res.failed == 0 && res.deleted == Rebuild.Leaving(old(store.View()), ScanOf(entries))
      ensures err == Some(Stopped(NotesFailed)) ==> Pending(store.View(), ref.space) == []
      ensures res.failed > 0 ==> old(store.View()).notes.Keys <= store.View().notes.Keys && res.deleted == 0
      ensures err.Some? && err.value.Stopped? ==> !Calm(env, ref.space)
    {
      ghost var db0 := store.View();
      run, p := Unstarted(db0, ref.space).0, Unstarted(db0, ref.space).1;
      if vaultPath == "" {
        return NOTHING, Some(NoVaultPath), run, p;
      }
      var scanned := Scan(entries);
      if scanned.Err? {
        return NOTHING, Some(ScanFailed), run, p;
      }
      ScanIsRead(env.setup, entries);
      var verdict;
      res, verdict, run, p := IndexScan(env, scanned.value, w);
      IndexedMeans(env, db0, store.View(), ScanOf(entries), run, p);
      return res, Fails(verdict), run, p;
    }

    /** What a pass over this scan amounts to. */
    ghost predicate IndexedAs(env: Env, db0: DB, db: DB, scan: Scanned, run: History, p: Pass) {
      && run.Starts(db0, Begin(ref.space, scan, Embedding.BatchSize(provider.remote)))
      && At(env, run, db, p) && p.phase.Done?
      && (p.phase == Done(Cancelled) <==> !Uncancelled(env.weather, |scan.notes|))
      && Handled(env, db0, db, scan, p)
      && Embedding.WithinLimit(provider.remote.maxBatch, p.sent)
    }

    lemma IndexedMeans(env: Env, db0: DB, db: DB, scan: Scanned, run: History, p: Pass)
      requires IndexedAs(env, db0, db, scan, run, p)
      requires ScanRead(env.setup, scan) && Sound(env.setup, db0) && Registered(db0, ref.space)
      ensures Sound(env.setup, db)
      ensures p.phase == Done(Success)
              ==> && Rebuild.InLine(db, db0, ref.space, scan) && p.res.failed == 0
                  && p.res.deleted == Rebuild.Leaving(db0, scan)
      ensures p.phase == Done(NotesFailed) ==> Registered(db, ref.space) && Pending(db, ref.space) == []
      ensures p.res.failed > 0 ==> db0.notes.Keys <= db.notes.Keys && p.res.deleted == 0
      ensures Calm(env, ref.space) ==> p.phase == Done(Success)
    {
      IndexedInLine(env, run, db, p, scan);
      if Calm(env, ref.space) {
        CalmSucceeds(env, run, db, p);
      }
    }

    /** The pass proper, once the vault has been scanned. */
    method IndexScan(ghost env: Env, scan: Scanned, w: Weather)
      returns (res: IndexResult, verdict: Verdict, ghost run: History, ghost p: Pass)
      requires Ready(env) && Real(env.setup) && env.weather == w && Asked(env)
      requires DistinctPaths(scan.notes)
      modifies store, provider
      ensures Ready(env)
      ensures IndexedAs(env, old(store.View()), store.View(), scan, run, p)
      ensures p.phase == Done(verdict) && res == p.res
      ensures Spent(env, old(provider.calls), p.sent)
    {
      ghost var db0 := store.View();
      var size: Positive := Embedding.BatchSize(provider.remote);
      var paths, noteErrs, stop;
      res, paths, noteErrs, stop, run, p := StoreNotes(env, scan, size, w);
      SpentNothing(env);
      if stop.Some? {
        return res, stop.value, run, p;
      }
      var deleted, step;
      deleted, step, run, p := PruneUnlessFailed(env, run, p, db0, scan, paths, |noteErrs|, w);
      if deleted.Err? {
        return res, PruneFailed, run, p;
      }
      res := res.(deleted := deleted.value);
      var embedded;
      ghost var db2, p2 := store.View(), p;
      embedded, stop, run, p := EmbedPending(env, run, p, w, step);
      HandledStill(env, db0, db2, store.View(), scan, p2, p);
      res := res.(embedded := embedded);
      if stop.Some? {
        return res, stop.value, run, p;
      }
      return res, if |noteErrs| == 0 then Success else NotesFailed, run, p;
    }

    /** Prunes, unless some note failed; `step` is the number of the next step. */
    method PruneUnlessFailed(ghost env: Env, ghost run: History, ghost p: Pass, ghost db0: DB, scan: Scanned,
                             paths: seq<string>, failed: nat, w: Weather)
      returns (deleted: Result<nat, StoreError>, step: nat, ghost run': History, ghost q: Pass)
      requires Ready(env) && env.weather == w && At(env, run, store.View(), p) && |run.evs| == |scan.notes|
      requires p == Reached(p.space, scan, p.size, |scan.notes|, p.res) && paths == Keep(scan)
      requires failed == p.res.failed && p.res.deleted == 0 && p.res.embedded == 0
      requires Handled(env, db0, store.View(), scan, p)
      modifies store
      ensures Ready(env)
      ensures At(env, run', store.View(), q) && run'.Continues(run) && step == |run'.evs|
      ensures q == if deleted.Err? then p.(phase := Done(PruneFailed))
                   else p.(phase := Listing, res := p.res.(deleted := deleted.value))
      ensures Handled(env, db0, store.View(), scan, q)
    {
      deleted, step, run', q := Ok(0), |scan.notes|, run, p;
      if failed == 0 {
        ghost var db := store.View();
        deleted, run', q := PruneNext(env, run, p, paths, FailsAt(w, step));
        HandledStill(env, db0, db, store.View(), scan, p, q);
        step := step + 1;
      }
    }

    /** Stores every scanned note, unless the pass is cancelled in between. */
    method StoreNotes(ghost env: Env, scan: Scanned, size: Positive, w: Weather)
      returns (res: IndexResult, paths: seq<string>, noteErrs: seq<StoreError>, stop: Option<Verdict>,
               ghost run: History, ghost p: Pass)
      requires Ready(env) && Real(env.setup) && env.weather == w && DistinctPaths(scan.notes)
      modifies store
      ensures Ready(env)
      ensures run.Starts(old(store.View()), Begin(ref.space, scan, size)) && At(env, run, store.View(), p)
      ensures |noteErrs| == res.failed && res.deleted == 0 && res.embedded == 0
      ensures Handled(env, old(store.View()), store.View(), scan, p)
      ensures stop == if Uncancelled(w, |scan.notes|) then None else Some(Cancelled)
      ensures stop.Some? ==> p.phase == Done(Cancelled) && p.res == res && p.sent == []
      ensures stop.None?
              ==> && p == Reached(ref.space, scan, size, |scan.notes|, res) && |run.evs| == |scan.notes|
                  && paths == Keep(scan)
    {
      ghost var db0 := store.View();
      res := NOTHING.(skipped := |scan.skipped|);
      noteErrs, stop, paths := [], None, scan.skipped;
      p := Begin(ref.space, scan, size);
      run := History(store.View(), p, [], []);
      assert scan.skipped + [] == scan.skipped;
      for i := 0 to |scan.notes|
        invariant Ready(env)
        invariant run.Starts(db0, Begin(ref.space, scan, size)) && At(env, run, store.View(), p) && |run.evs| == i
        invariant |noteErrs| == res.failed && res.deleted == 0 && res.embedded == 0 && stop.None?
        invariant p == Reached(ref.space, scan, size, i, res) && paths == scan.skipped + NotePaths(scan.notes[..i])
        invariant Uncancelled(w, i)
      {
        var file := scan.notes[i];
        if CancelledAt(w, i) {
          CancelledEarlier(w, i, |scan.notes|);
          CancelHandled(env, run, store.View(), p, scan);
          p := p.(phase := Done(Cancelled));
          run := run.Then(Cancel, (store.View(), p));
          stop := Some(Cancelled);
          return;
        }
        UncancelledNext(w, i);
        NextPath(scan.skipped, scan.notes, i);
        paths := paths + [file.path];
        var noteErr;
        noteErr, res, run, p := StoreTurn(env, run, p, scan, size, i, res, StatementAt(w, i));
        if noteErr.Some? {
          noteErrs := noteErrs + [noteErr.value];
        }
      }
      assert scan.notes[..|scan.notes|] == scan.notes;
      RunHandled(env, run, store.View(), p, scan, p);
    }

    /** One turn of the loop over the notes: stores note i and counts what that came to. */
    method StoreTurn(ghost env: Env, ghost run: History, ghost p: Pass, scan: Scanned, ghost size: Positive, i: nat,
                     res0: IndexResult, fault: Option<nat>)
      returns (noteErr: Option<StoreError>, res: IndexResult, ghost run': History, ghost q: Pass)
      requires Ready(env) && Real(env.setup) && At(env, run, store.View(), p) && |run.evs| == i < |scan.notes|
      requires p == Reached(ref.space, scan, size, i, res0)
      requires fault == StatementAt(env.weather, i) && !CancelledAt(env.weather, i)
      modifies store
      ensures Ready(env)
      ensures At(env, run', store.View(), q) && run'.Continues(run) && |run'.evs| == i + 1
      ensures q == Reached(ref.space, scan, size, i + 1, res)
      ensures res.failed == res0.failed + if noteErr.Some? then 1 else 0
      ensures res.deleted == res0.deleted && res.embedded == res0.embedded
    {
      var r;
      ReachedHere(ref.space, scan, size, i, res0);
      r, run', q := StoreNext(env, run, p, scan.notes[i], fault);
      ReachedNext(ref.space, scan, size, i, res0, r);
      res := Stores(res0, r);
      noteErr := if r.Err? then Some(r.error) else None;
    }

    /** Stores one note: one storing step, which fails exactly when a statement does. */
    method StoreNext(ghost env: Env, ghost run: History, ghost p: Pass, file: Note, fault: Option<nat>)
      returns (r: Result<(nat, bool), StoreError>, ghost run': History, ghost q: Pass)
      requires Ready(env) && Real(env.setup) && At(env, run, store.View(), p)
      requires p.phase.Storing? && p.next < |p.scan.notes| && file == p.scan.notes[p.next]
      requires fault == StatementAt(env.weather, |run.evs|) && !CancelledAt(env.weather, |run.evs|)
      modifies store
      ensures Ready(env)
      ensures At(env, run', store.View(), q) && run'.Continues(run) && |run'.evs| == |run.evs| + 1
      ensures q == AfterNote(p.(next := p.next + 1, res := Stores(p.res, r)))
      ensures r.Err? <==> Hits(fault, StoreStatements(env.setup, old(store.View()), file))
    {
      ghost var before, ev := store.View(), DONE;
      var chunked := Chunker.Cut(file.text, chunkSize);
      r, ev := store.SaveNoteWithChunks(env.setup, file, chunked, fault);
      EffectIsStep(env.setup, before, p, r, ev, store.View());
      q := StoreStep(env.setup, before, p, ev).1;
      Moved(env, run, before, p, ev, (store.View(), q));
      run' := run.Then(ev, (store.View(), q));
    }

    /** Deletes the notes that are gone from the vault: one pruning step. */
    method PruneNext(ghost env: Env, ghost run: History, ghost p: Pass, paths: seq<string>, fault: bool)
      returns (r: Result<nat, StoreError>, ghost run': History, ghost q: Pass)
      requires Ready(env) && At(env, run, store.View(), p) && p.phase.Pruning? && paths == Keep(p.scan)
      requires fault == FailsAt(env.weather, |run.evs|)
      modifies store
      ensures Ready(env)
      ensures At(env, run', store.View(), q) && run' == run.Then(Works(!fault), (store.View(), q))
      ensures r.Err? <==> fault && paths != []
      ensures q == if r.Err? then p.(phase := Done(PruneFailed))
                   else p.(phase := Listing, res := p.res.(deleted := r.value))
      ensures KeepsStored(old(store.View()), store.View(), paths)
    {
      ghost var before := store.View();
      r := store.DeleteMissingNotes(paths, fault);
      assert store.View().registry == before.registry && store.View().tables.Keys == before.tables.Keys;
      q := PruneStep(before, p, Works(!fault)).1;
      Moved(env, run, before, p, Works(!fault), (store.View(), q));
      run' := run.Then(Works(!fault), (store.View(), q));
    }

    static method TextsOf(part: seq<Claim>) returns (texts: seq<string>)
      ensures texts == Texts(part)
    {
      texts := [];
      for i := 0 to |part|
        invariant texts == Texts(part[..i])
      {
        texts := texts + [part[i].text];
      }
    }

    static method BatchOf(part: seq<Claim>, vectors: seq<Vector>) returns (batch: seq<ChunkVector>)
      requires |part| == |vectors|
      ensures batch == Batch(part, vectors)
    {
      batch := [];
      for i := 0 to |part|
        invariant batch == Batch(part[..i], vectors[..i])
      {
        batch := batch + [ChunkVector(part[i].id, vectors[i])];
      }
    }

    /** One provider call for a part that fits it. */
    method EmbedPart(ghost env: Env, texts: seq<string>) returns (r: Result<seq<Vector>, Embedding.EmbedError>)
      requires Faithful(env) && 1 <= |texts| <= Embedding.BatchSize(provider.remote)
      modifies provider
      ensures provider.calls == old(provider.calls) + [texts]
      ensures provider.made == old(provider.made)
                               + Embedding.Call(provider.remote, |old(provider.calls)|, texts, Document).runs
      ensures r.Ok? <==> Embedding.Replies(provider.remote, |old(provider.calls)|, texts)
      ensures r.Ok? ==> r.value == Embeddings(env.setup.model, ref.space, Document, texts)
    {
      ghost var call := |provider.calls|;
      r := Embedding.Batched(provider, texts, Document);
      Embedding.BatchedIsMap(provider.remote, call, texts, Document, env.setup.model);
      Embedding.SmallBatchIsOneCall(provider.remote, call, texts, Document);
      Embedding.CallAnswer(provider.remote, call, texts, Document);
    }

    /** Asks for the next pending chunks: one listing step. */
    method ListNext(ghost env: Env, ghost run: History, ghost p: Pass, fault: bool)
      returns (r: Result<seq<Claim>, StoreError>, ghost run': History, ghost q: Pass)
      requires store.Refers(ref) && At(env, run, store.View(), p) && p.phase.Listing? && p.space == ref.space
      requires fault == FailsAt(env.weather, |run.evs|)
      ensures At(env, run', store.View(), q) && run' == run.Then(Works(!fault), (store.View(), q))
      ensures r.Err? <==> fault
      ensures r.Ok? ==> r.value == ClaimPending(store.View(), ref.space, PENDING_BATCH)
      ensures r.Err? ==> q == p.(phase := Done(ListFailed))
      ensures r.Ok? && r.value == [] ==> q == p.(phase := Done(Nil(p)))
      ensures r.Ok? && r.value != [] ==> q == p.(phase := Calling, pending := r.value, start := 0)
    {
      r := store.PendingChunks(ref, PENDING_BATCH, fault);
      q := ListStep(store.View(), p, Works(!fault)).1;
      Moved(env, run, store.View(), p, Works(!fault), (store.View(), q));
      run' := run.Then(Works(!fault), (store.View(), q));
    }

    /** Embeds the next part of the claimed chunks: one calling step. */
    method CallPart(ghost env: Env, ghost run: History, ghost p: Pass, part: seq<Claim>,
                    ghost calls0: seq<seq<string>>)
      returns (r: Result<seq<Vector>, Embedding.EmbedError>, ghost run': History, ghost q: Pass)
      requires Faithful(env) && At(env, run, store.View(), p) && p.phase.Calling? && p.space == ref.space
      requires part == Part(p) && p.size == Embedding.BatchSize(provider.remote)
      requires Spent(env, calls0, p.sent)
      modifies provider
      ensures At(env, run', store.View(), q) && run' == run.Then(Works(r.Ok?), (store.View(), q))
      ensures Spent(env, calls0, p.sent + [Texts(part)])
      ensures r.Ok? <==> PartReplied(env, p)
      ensures q == AfterCall(env, p)
      ensures r.Ok? ==> r.value == Embeddings(env.setup.model, ref.space, Document, Texts(part))
    {
      PartShape(p);
      var texts := TextsOf(part);
      SpentNext(env, calls0, p.sent, provider.calls, provider.made, texts);
      r := EmbedPart(env, texts);
      q := AfterCall(env, p);
      CallMoves(env, run, store.View(), p);
      run' := run.Then(Works(r.Ok?), (store.View(), q));
    }

    /** Saves the vectors of that part: one saving step. */
    method SavePart(ghost env: Env, ghost run: History, ghost p: Pass, part: seq<Claim>, vectors: seq<Vector>,
                    fault: bool)
      returns (r: Result<(), StoreError>, ghost run': History, ghost q: Pass)
      requires store.Valid() && store.Refers(ref) && At(env, run, store.View(), p) && p.space == ref.space
      requires p.phase == Saving(vectors) && part == Part(p)
      requires vectors == Embeddings(env.setup.model, ref.space, Document, Texts(part))
      requires fault == FailsAt(env.weather, |run.evs|)
      modifies store`tables
      ensures store.Valid() && store.Refers(ref)
      ensures At(env, run', store.View(), q) && run' == run.Then(Works(!fault), (store.View(), q))
      ensures r.Err? <==> Refused(env.setup, ref.space, old(store.View()), part, fault)
      ensures q == if r.Err? then p.(phase := Done(SaveFailed)) else Walk.AfterPart(p)
    {
      var batch := BatchOf(part, vectors);
      PartShape(p);
      ghost var before := store.View();
      r := store.SaveEmbeddings(ref, batch, fault);
      q := SaveStep(before, p, Works(!fault)).1;
      SaveMoves(env, run, before, p, !fault, (store.View(), q));
      run' := run.Then(Works(!fault), (store.View(), q));
    }

    /** Embeds every pending chunk of the space, 128 claimed at a time: the run goes
        on, by the steps the environment decides, until no chunk is pending or one
        of them fails. `step` is the number of the first of them. */
    method EmbedPending(ghost env: Env, ghost run0: History, ghost p0: Pass, w: Weather, step: nat)
      returns (done: nat, stop: Option<Verdict>, ghost run: History, ghost p: Pass)
      requires Ready(env) && At(env, run0, store.View(), p0) && Walk.AtFirstListing(p0)
      requires env.weather == w && step == |run0.evs| && Asked(env)
      requires p0.space == ref.space && p0.size == Embedding.BatchSize(provider.remote)
      modifies store`tables, provider
      ensures Ready(env)
      ensures run.Continues(run0) && At(env, run, store.View(), p)
      ensures Embeds(p0, p, done) && p.phase == Done(if stop.None? then Nil(p0) else stop.value)
      ensures stop.Some? ==> FailsEmbedding(stop.value)
      ensures Spent(env, old(provider.calls), p.sent)
      ensures Embedding.WithinLimit(provider.remote.maxBatch, p.sent)
      ensures Calls.CallsDue(Total(old(store.View()), ref.space),
                             if provider.remote.maxBatch < 1 then 1 else provider.remote.maxBatch, p.sent)
    {
      var size := if provider.remote.maxBatch < 1 then 1 else provider.remote.maxBatch;
      ghost var db0, calls0 := store.View(), provider.calls;
      ghost var total := Total(db0, ref.space);
      SpentNothing(env);
      done, stop, run, p := 0, None, run0, p0;
      var steps, more := step, true;
      while more
        invariant Ready(env) && run.Continues(run0) && At(env, run, store.View(), p)
        invariant steps == |run.evs| && Embeds(p0, p, done) && Spent(env, calls0, p.sent)
        invariant more ==> p.phase == Listing && done <= total
        invariant !more ==> p.phase == Done(if stop.None? then Nil(p0) else stop.value)
        invariant !more && stop.Some? ==> FailsEmbedding(stop.value)
        decreases more, total - done
      {
        done, steps, stop, more, run, p := Round(env, run, p, size, done, w, steps, calls0);
        if more {
          DoneBounded(env, run0, db0, p0, run, store.View(), p);
        }
      }
      WalkCalls(env, run0, db0, p0, run, store.View(), p);
    }

    /** One round of the outer loop. */
    method Round(ghost env: Env, ghost run: History, ghost p0: Pass, size: nat, done0: nat, w: Weather, steps0: nat,
                 ghost calls0: seq<seq<string>>)
      returns (done: nat, steps: nat, stop: Option<Verdict>, more: bool, ghost run': History, ghost p: Pass)
      requires Ready(env) && At(env, run, store.View(), p0) && p0.space == ref.space
      requires env.weather == w && steps0 == |run.evs| && size == p0.size == Embedding.BatchSize(provider.remote)
      requires p0.phase.Listing? && p0.res.embedded == done0 && Spent(env, calls0, p0.sent)
      modifies store`tables, provider
      ensures Ready(env)
      ensures At(env, run', store.View(), p) && run'.Continues(run) && steps == |run'.evs|
      ensures Embeds(p0, p, done) && (more ==> done0 < done)
      ensures p.phase == if more then Listing else Done(if stop.None? then Nil(p0) else stop.value)
      ensures stop.Some? ==> !more && FailsEmbedding(stop.value)
      ensures FailsAt(w, steps0) <==> stop == Some(ListFailed)
      ensures Spent(env, calls0, p.sent)
    {
      done, steps, stop, more := done0, steps0 + 1, None, false;
      var claimed;
      claimed, run', p := ListNext(env, run, p0, FailsAt(w, steps0));
      if claimed.Err? {
        stop := Some(ListFailed);
        return;
      }
      var pending := claimed.value;
      if |pending| == 0 {
        return;
      }
      done, steps, stop, run', p := EmbedRound(env, run', p, pending, size, done, w, steps, calls0);
      more := stop.None?;
    }

    /** One part: embed it, then save it. It stops exactly when the provider does not
        answer, or when the save fails or is refused. */
    method EmbedNext(ghost env: Env, ghost run: History, ghost p: Pass, part: seq<Claim>, fault: bool,
                     ghost calls0: seq<seq<string>>)
      returns (stop: Option<Verdict>, ghost run': History, ghost q: Pass)
      requires Ready(env) && At(env, run, store.View(), p) && p.phase.Calling? && p.space == ref.space
      requires part == Part(p) && p.size == Embedding.BatchSize(provider.remote)
      requires fault == FailsAt(env.weather, |run.evs| + 1) && Spent(env, calls0, p.sent)
      modifies store`tables, provider
      ensures Ready(env)
      ensures At(env, run', store.View(), q) && run'.Continues(run)
      ensures |run'.evs| == |run.evs| + if stop == Some(EmbedFailed) then 1 else 2
      ensures Spent(env, calls0, q.sent)
      ensures stop == if !PartReplied(env, p) then Some(EmbedFailed)
                      else if Refused(env.setup, ref.space, old(store.View()), part, fault) then Some(SaveFailed)
                      else None
      ensures q == if stop.Some? then AfterCall(env, p).(phase := Done(stop.value))
                   else Walk.AfterPart(AfterCall(env, p))
    {
      var vectors, saved;
      vectors, run', q := CallPart(env, run, p, part, calls0);
      if vectors.Err? {
        return Some(EmbedFailed), run', q;
      }
      saved, run', q := SavePart(env, run', q, part, vectors.value, fault);
      return if saved.Err? then Some(SaveFailed) else None, run', q;
    }

    /** One turn of the inner loop: the part from `start` on, embedded and saved. */
    method EmbedTurn(ghost env: Env, ghost run: History, ghost p: Pass, pending: seq<Claim>, start: nat, size: nat,
                     fault: bool, ghost calls0: seq<seq<string>>)
      returns (stop: Option<Verdict>, count: nat, ghost run': History, ghost q: Pass)
      requires Ready(env) && At(env, run, store.View(), p) && p.space == ref.space
      requires p.phase.Calling? && p.pending == pending && p.start == start
      requires size == p.size == Embedding.BatchSize(provider.remote)
      requires fault == FailsAt(env.weather, |run.evs| + 1) && Spent(env, calls0, p.sent)
      modifies store`tables, provider
      ensures Ready(env)
      ensures At(env, run', store.View(), q) && run'.Continues(run)
      ensures |run'.evs| == |run.evs| + if stop == Some(EmbedFailed) then 1 else 2
      ensures Spent(env, calls0, q.sent)
      ensures count > 0 && start + count == Arithmetic.Least(start + size, |pending|)
      ensures stop.Some? ==> stop.value.EmbedFailed? || stop.value.SaveFailed?
      ensures stop.Some? ==> q == p.(phase := Done(stop.value), sent := q.sent)
      ensures stop.None? ==> q == p.(phase := if start + count < |pending| then Calling else Listing,
                                     start := start + count, sent := q.sent,
                                     res := p.res.(embedded := p.res.embedded + count))
    {
      var part := pending[start..if start + size < |pending| then start + size else |pending|];
      assert part == Part(p);
      count := |part|;
      stop, run', q := EmbedNext(env, run, p, part, fault, calls0);
      TurnState(env, p, pending, start, stop, q);
    }

    /** The inner loop: one provider call and one save per part of a round. */
    method EmbedRound(ghost env: Env, ghost run: History, ghost p0: Pass, pending: seq<Claim>, size: nat,
                      done0: nat, w: Weather, steps0: nat, ghost calls0: seq<seq<string>>)
      returns (done: nat, steps: nat, stop: Option<Verdict>, ghost run': History, ghost p: Pass)
      requires Ready(env) && At(env, run, store.View(), p0) && p0.space == ref.space
      requires env.weather == w && steps0 == |run.evs| && size == p0.size == Embedding.BatchSize(provider.remote)
      requires p0.phase.Calling? && p0.pending == pending && p0.start == 0 && p0.res.embedded == done0
      requires Spent(env, calls0, p0.sent)
      modifies store`tables, provider
      ensures Ready(env)
      ensures At(env, run', store.View(), p) && run'.Continues(run) && steps == |run'.evs|
      ensures done0 <= done && (stop.None? ==> done == done0 + |pending|)
      ensures stop.Some? ==> stop.value.EmbedFailed? || stop.value.SaveFailed?
      ensures p == p0.(phase := if stop.None? then Listing else Done(stop.value),
                       start := p.start, sent := p.sent, res := p0.res.(embedded := done))
      ensures Spent(env, calls0, p.sent)
    {
      done, steps, stop, run', p := done0, steps0, None, run, p0;
      var start := 0;
      while start < |pending|
        invariant 0 <= start && stop.None?
        invariant Ready(env) && At(env, run', store.View(), p) && run'.Continues(run) && steps == |run'.evs|
        invariant p == p0.(phase := if start < |pending| then Calling else Listing,
                           start := Arithmetic.Least(start, |pending|), sent := p.sent,
                           res := p0.res.(embedded := done))
        invariant Spent(env, calls0, p.sent)
        invariant done == done0 + Arithmetic.Least(start, |pending|)
        decreases |pending| - start
      {
        var count;
        stop, count, run', p := EmbedTurn(env, run', p, pending, start, size, FailsAt(w, steps + 1), calls0);
        if stop.Some? {
          steps := steps + if stop == Some(EmbedFailed) then 1 else 2;
          return;
        }
        steps := steps + 2;
        done := done + count;
        start := start + size;
      }
    }
  }
}
