/** Interrupted passes over one vault, one after the other (knowledge/knowledge.go,
    Index): once the notes are stored, each carries on where the last one stopped. */
module Resume {
  import opened Spaces
  import opened Vault
  import opened Database
  import opened Passes
  import opened Rebuild
  import opened Walk

  // ----- databases that differ in burned ids only -----

  lemma SamePending(a: DB, b: DB, s: Space)
    requires SameContents(a, b) && Registered(a, s)
    ensures Registered(b, s) && PendingClaims(b, s) == PendingClaims(a, s)
  {
  }

  lemma SameGain(setup: Setup, a: DB, b: DB, s: Space, k: nat)
    requires SameContents(a, b) && Registered(a, s) && k <= |PendingClaims(a, s)|
    ensures Registered(b, s) && k <= |PendingClaims(b, s)|
    ensures SameContents(Gain(setup, a, s, k), Gain(setup, b, s, k))
  {
    SamePending(a, b, s);
  }

  // ----- up to its first listing, such a pass changes nothing -----

  /** The notes of the scan are stored, and nothing else is left. */
  predicate NotesSettled(db: DB, scan: Scanned) {
    && (forall i | 0 <= i < |scan.notes| :: Stored(db, scan.notes[i]))
    && (Keep(scan) != [] ==> forall path | path in db.notes :: path in Keep(scan))
  }

  lemma StoreQuiet(setup: Setup, db: DB, p: Pass, ev: Event)
    requires p.phase.Storing? && Shape(p) && Stored(db, p.scan.notes[p.next])
    ensures SameContents(StoreStep(setup, db, p, ev).0, db)
  {
  }

  lemma EarlyQuiet(setup: Setup, db: DB, p: Pass, ev: Event)
    requires Sound(setup, db) && Shape(p) && BeforeListing(p) && NotesSettled(db, p.scan)
    ensures SameContents(Step(setup, db, p, ev).0, db)
  {
    match p.phase {
      case Storing => StoreQuiet(setup, db, p, ev);
      case Pruning => PruneNothing(setup, db, p.scan);
      case Done(_) =>
    }
  }

  /** The pass has asked for pending chunks. */
  predicate Late(p: Pass) {
    p.phase.Listing? || p.phase.Calling? || p.phase.Saving?
    || (p.phase.Done? && p.phase != Done(Cancelled) && p.phase != Done(PruneFailed))
  }

  lemma LateStays(setup: Setup, db: DB, p: Pass, ev: Event, r: (DB, Pass))
    requires Shape(p) && Late(p) && r == Step(setup, db, p, ev)
    ensures Late(r.1)
  {
  }

  lemma EarlyNext(setup: Setup, db0: DB, db: DB, p: Pass, ev: Event, r: (DB, Pass))
    requires Sound(setup, db) && Shape(p) && BeforeListing(p) && NotesSettled(db0, p.scan)
    requires SameContents(db, db0) && r == Step(setup, db, p, ev)
    ensures SameContents(r.0, db0)
    ensures if Late(r.1) then AtFirstListing(r.1) else BeforeListing(r.1)
  {
    NotesStaySettled(db0, db, p.scan);
    EarlyQuiet(setup, db, p, ev);
    EarlyStep(setup, db, p, ev);
  }

  lemma NotesStaySettled(db: DB, db': DB, scan: Scanned)
    requires NotesSettled(db, scan) && db'.notes == db.notes
    ensures NotesSettled(db', scan)
  {
    forall i | 0 <= i < |scan.notes| ensures Stored(db', scan.notes[i]) {
      assert Stored(db, scan.notes[i]);
    }
  }

  /** Where a run stands: before its first listing, or past it, which was after k
      steps. The database was the same till then. */
  ghost predicate Quiet(setup: Setup, db: DB, p: Pass, evs: seq<Event>, k: nat)
    requires Shape(p)
  {
    && k <= |evs| && SameContents(Run(setup, db, p, evs[..k]).0, db)
    && if Late(Run(setup, db, p, evs).1) then AtFirstListing(Run(setup, db, p, evs[..k]).1)
       else k == |evs| && BeforeListing(Run(setup, db, p, evs).1)
  }

  lemma QuietLate(setup: Setup, db: DB, p: Pass, evs: seq<Event>, front: seq<Event>, k: nat)
    requires Shape(p) && evs != [] && front == evs[..|evs| - 1] && Quiet(setup, db, p, front, k)
    requires Late(Run(setup, db, p, front).1)
    ensures Quiet(setup, db, p, evs, k)
  {
    var before := Run(setup, db, p, front);
    LateStays(setup, before.0, before.1, evs[|evs| - 1], Run(setup, db, p, evs));
    assert front[..k] == evs[..k];
  }

  lemma QuietEarly(setup: Setup, db: DB, p: Pass, evs: seq<Event>, front: seq<Event>, k: nat)
    requires Sound(setup, db) && PassOk(setup, db, p) && NotesSettled(db, p.scan)
    requires evs != [] && front == evs[..|evs| - 1] && Quiet(setup, db, p, front, k)
    requires !Late(Run(setup, db, p, front).1)
    ensures Quiet(setup, db, p, evs, |evs|)
  {
    var before := Run(setup, db, p, front);
    assert front[..k] == front && evs[..|evs|] == evs;
    RunOk(setup, db, p, front);
    EarlyNext(setup, db, before.0, before.1, evs[|evs| - 1], Run(setup, db, p, evs));
  }

  lemma {:induction false} QuietStart(setup: Setup, db: DB, p: Pass, evs: seq<Event>) returns (k: nat)
    requires Sound(setup, db) && PassOk(setup, db, p) && BeforeListing(p) && NotesSettled(db, p.scan)
    ensures Quiet(setup, db, p, evs, k)
    decreases |evs|
  {
    k := 0;
    if evs != [] {
      var front := evs[..|evs| - 1];
      k := QuietStart(setup, db, p, front);
      if Late(Run(setup, db, p, front).1) {
        QuietLate(setup, db, p, evs, front, k);
      } else {
        QuietEarly(setup, db, p, evs, front, k);
        k := |evs|;
      }
    }
  }

  // ----- one pass -----

  /** The pass embedded the first `embedded` chunks that were pending, changed
      nothing else, and sent the texts of those and at most one batch more. */
  ghost predicate Continued(setup: Setup, db: DB, s: Space, r: (DB, Pass)) {
    && Registered(db, s) && r.1.res.embedded <= |PendingClaims(db, s)|
    && SameContents(r.0, Gain(setup, db, s, r.1.res.embedded))
    && exists extra: nat :: SentUpTo(PendingClaims(db, s), r.1, extra)
  }

  lemma EarlyContinued(setup: Setup, db: DB, s: Space, r: (DB, Pass))
    requires Registered(db, s) && SameContents(r.0, db) && BeforeListing(r.1)
    ensures Continued(setup, db, s, r)
  {
    GainNothing(setup, db, s);
    assert SentUpTo(PendingClaims(db, s), r.1, 0);
  }

  lemma WalkedContinued(setup: Setup, db: DB, s: Space, mid: DB, r: (DB, Pass))
    requires Registered(db, s) && SameContents(mid, db) && Walked(setup, mid, s, r)
    ensures Continued(setup, db, s, r)
  {
    SamePending(mid, db, s);
    SameGain(setup, mid, db, s, r.1.res.embedded);
  }

  /** A pass over a vault whose notes are stored, however it ends. */
  lemma PassContinues(setup: Setup, db: DB, s: Space, scan: Scanned, size: Positive, evs: seq<Event>)
    requires Sound(setup, db) && Registered(db, s) && ScanRead(setup, scan) && NotesSettled(db, scan)
    ensures Continued(setup, db, s, Run(setup, db, Begin(s, scan, size), evs))
  {
    var p := Begin(s, scan, size);
    BeginOk(setup, db, s, scan, size);
    var k := QuietStart(setup, db, p, evs);
    if Late(Run(setup, db, p, evs).1) {
      RunOk(setup, db, p, evs[..k]);
      RunSplit(setup, db, p, evs, k);
      var mid := Run(setup, db, p, evs[..k]);
      SamePending(db, mid.0, s);
      RunWalked(setup, mid.0, mid.1, evs[k..]);
      WalkedContinued(setup, db, s, mid.0, Run(setup, db, p, evs));
    } else {
      assert evs[..k] == evs;
      EarlyContinued(setup, db, s, Run(setup, db, p, evs));
    }
  }

  // ----- one pass after the other -----

  /** A pass and what happens to it; a pass that is cut short has no more events. */
  datatype Attempt = Attempt(size: Positive, evs: seq<Event>)

  /** What an attempt makes of a database. */
  type Goes = (DB, Attempt) -> (DB, Pass)

  function Passing(setup: Setup, s: Space, scan: Scanned): Goes {
    (db, a: Attempt) => Run(setup, db, Begin(s, scan, a.size), a.evs)
  }

  /** The database after the attempts, and the number of chunks they embedded in all. */
  function Chain(go: Goes, db: DB, attempts: seq<Attempt>): (DB, nat)
    decreases |attempts|
  {
    if attempts == [] then (db, 0)
    else
      var before := Chain(go, db, attempts[..|attempts| - 1]);
      var r := go(before.0, attempts[|attempts| - 1]);
      (r.0, before.1 + r.1.res.embedded)
  }

  /** The database has the first `done` chunks embedded that were pending in db0. */
  ghost predicate Onward(setup: Setup, db0: DB, s: Space, scan: Scanned, db: DB, done: nat) {
    && Sound(setup, db) && NotesSettled(db, scan)
    && Registered(db0, s) && done <= |PendingClaims(db0, s)| && SameContents(db, Gain(setup, db0, s, done))
  }

  /** The texts of the next chunks were sent, and at most one batch more. */
  ghost predicate SendsOnward(db0: DB, s: Space, done: nat, q: Pass) {
    && Registered(db0, s) && done <= |PendingClaims(db0, s)|
    && exists extra: nat :: SentUpTo(PendingClaims(db0, s)[done..], q, extra)
  }

  lemma OnwardPending(setup: Setup, db0: DB, s: Space, scan: Scanned, db: DB, done: nat)
    requires Onward(setup, db0, s, scan, db, done)
    ensures Registered(db, s) && PendingClaims(db, s) == PendingClaims(db0, s)[done..]
  {
    GainRegistered(setup, db0, s, done, Gain(setup, db0, s, done));
    SamePending(Gain(setup, db0, s, done), db, s);
  }

  lemma GainOnward(setup: Setup, db0: DB, s: Space, done: nat, db: DB, m: nat, last: DB)
    requires Registered(db0, s) && done <= |PendingClaims(db0, s)| && SameContents(db, Gain(setup, db0, s, done))
    requires Registered(db, s) && m <= |PendingClaims(db, s)| && SameContents(last, Gain(setup, db, s, m))
    requires PendingClaims(db, s) == PendingClaims(db0, s)[done..]
    ensures SameContents(last, Gain(setup, db0, s, done + m))
  {
    SameGain(setup, db, Gain(setup, db0, s, done), s, m);
    GainTwice(setup, db0, s, done, m);
  }

  lemma GainNotes(setup: Setup, db: DB, s: Space, k: nat, db': DB)
    requires Registered(db, s) && k <= |PendingClaims(db, s)| && SameContents(db', Gain(setup, db, s, k))
    ensures db'.notes == db.notes
  {
  }

  lemma OnwardMore(setup: Setup, db0: DB, s: Space, scan: Scanned, db: DB, done: nat, r: (DB, Pass), m: nat)
    requires Onward(setup, db0, s, scan, db, done) && Sound(setup, r.0)
    requires Continued(setup, db, s, r) && m == r.1.res.embedded
    ensures Onward(setup, db0, s, scan, r.0, done + m)
  {
    OnwardPending(setup, db0, s, scan, db, done);
    GainOnward(setup, db0, s, done, db, m, r.0);
    GainNotes(setup, db, s, m, r.0);
    NotesStaySettled(db, r.0, scan);
  }

  lemma SendsMore(setup: Setup, db0: DB, s: Space, scan: Scanned, db: DB, done: nat, r: (DB, Pass))
    requires Onward(setup, db0, s, scan, db, done) && Continued(setup, db, s, r)
    ensures SendsOnward(db0, s, done, r.1)
  {
    OnwardPending(setup, db0, s, scan, db, done);
  }

  ghost predicate KeepsOn(setup: Setup, db: DB, s: Space, r: (DB, Pass)) {
    Continued(setup, db, s, r) && Sound(setup, r.0)
  }

  lemma PassKeepsOn(setup: Setup, db0: DB, s: Space, scan: Scanned, db: DB, done: nat, a: Attempt)
    requires Onward(setup, db0, s, scan, db, done) && ScanRead(setup, scan)
    ensures KeepsOn(setup, db, s, Passing(setup, s, scan)(db, a))
  {
    OnwardPending(setup, db0, s, scan, db, done);
    PassContinues(setup, db, s, scan, a.size, a.evs);
    BeginOk(setup, db, s, scan, a.size);
    RunOk(setup, db, Begin(s, scan, a.size), a.evs);
  }

  lemma ChainNext(setup: Setup, db0: DB, s: Space, scan: Scanned, db: DB, done: nat, r: (DB, Pass))
    requires Onward(setup, db0, s, scan, db, done) && KeepsOn(setup, db, s, r)
    ensures Onward(setup, db0, s, scan, r.0, done + r.1.res.embedded)
    ensures SendsOnward(db0, s, done, r.1)
  {
    OnwardMore(setup, db0, s, scan, db, done, r, r.1.res.embedded);
    SendsMore(setup, db0, s, scan, db, done, r);
  }

  /** The last attempt sent the texts that came next, and at most one batch more. */
  ghost predicate LastSends(go: Goes, db: DB, s: Space, attempts: seq<Attempt>) {
    attempts != [] ==>
      var before := Chain(go, db, attempts[..|attempts| - 1]);
      SendsOnward(db, s, before.1, go(before.0, attempts[|attempts| - 1]).1)
  }

  /** An attempt keeps an invariant of the database and the number embedded. */
  predicate Keeps(go: Goes, inv: (DB, nat) -> bool, sends: (nat, Pass) -> bool, db: DB, done: nat, a: Attempt) {
    inv(db, done) ==> inv(go(db, a).0, done + go(db, a).1.res.embedded) && sends(done, go(db, a).1)
  }

  /** What every attempt keeps holds after all of them. */
  lemma {:induction false} ChainKeeps(go: Goes, inv: (DB, nat) -> bool, sends: (nat, Pass) -> bool,
                                      db: DB, attempts: seq<Attempt>)
    requires inv(db, 0)
    requires forall at, done: nat, a :: Keeps(go, inv, sends, at, done, a)
    ensures var c := Chain(go, db, attempts); inv(c.0, c.1)
    ensures attempts != [] ==>
      var before := Chain(go, db, attempts[..|attempts| - 1]);
      sends(before.1, go(before.0, attempts[|attempts| - 1]).1)
    decreases |attempts|
  {
    if attempts != [] {
      var front, last := attempts[..|attempts| - 1], attempts[|attempts| - 1];
      ChainKeeps(go, inv, sends, db, front);
      assert Keeps(go, inv, sends, Chain(go, db, front).0, Chain(go, db, front).1, last);
    }
  }

  ghost function OnwardOf(setup: Setup, db: DB, s: Space, scan: Scanned): (DB, nat) -> bool {
    (at: DB, done: nat) => Onward(setup, db, s, scan, at, done)
  }

  ghost function SendsOf(db: DB, s: Space): (nat, Pass) -> bool {
    (done: nat, q: Pass) => SendsOnward(db, s, done, q)
  }

  lemma KeepsBoth(go: Goes, setup: Setup, db: DB, s: Space, scan: Scanned, at: DB, done: nat, a: Attempt)
    requires var r := go(at, a); Onward(setup, db, s, scan, r.0, done + r.1.res.embedded)
    requires SendsOnward(db, s, done, go(at, a).1)
    ensures Keeps(go, OnwardOf(setup, db, s, scan), SendsOf(db, s), at, done, a)
  {
  }

  lemma AttemptKeeps(go: Goes, setup: Setup, db: DB, s: Space, scan: Scanned, at: DB, done: nat, a: Attempt)
    requires Onward(setup, db, s, scan, at, done) && KeepsOn(setup, at, s, go(at, a))
    ensures Keeps(go, OnwardOf(setup, db, s, scan), SendsOf(db, s), at, done, a)
  {
    ChainNext(setup, db, s, scan, at, done, go(at, a));
    KeepsBoth(go, setup, db, s, scan, at, done, a);
  }

  lemma PassKeeps(setup: Setup, db: DB, s: Space, scan: Scanned, at: DB, done: nat, a: Attempt)
    requires ScanRead(setup, scan)
    ensures Keeps(Passing(setup, s, scan), OnwardOf(setup, db, s, scan), SendsOf(db, s), at, done, a)
  {
    if OnwardOf(setup, db, s, scan)(at, done) {
      PassKeepsOn(setup, db, s, scan, at, done, a);
      AttemptKeeps(Passing(setup, s, scan), setup, db, s, scan, at, done, a);
    }
  }

  /** Resuming: over a vault whose notes are stored, any number of passes, each of
      them cut short or failing anywhere, embed consecutive pieces of one walk and
      change nothing else. No chunk is saved twice, and each pass sends at most one
      batch that it does not save. */
  lemma ResumedPasses(setup: Setup, db: DB, s: Space, scan: Scanned, attempts: seq<Attempt>)
    requires Sound(setup, db) && Registered(db, s) && ScanRead(setup, scan) && NotesSettled(db, scan)
    ensures var c := Chain(Passing(setup, s, scan), db, attempts);
      && c.1 <= |PendingClaims(db, s)| && SameContents(c.0, Gain(setup, db, s, c.1))
      && Sound(setup, c.0) && NotesSettled(c.0, scan)
    ensures LastSends(Passing(setup, s, scan), db, s, attempts)
  {
    GainNothing(setup, db, s);
    forall at, done: nat, a
      ensures Keeps(Passing(setup, s, scan), OnwardOf(setup, db, s, scan), SendsOf(db, s), at, done, a)
    {
      PassKeeps(setup, db, s, scan, at, done, a);
    }
    ChainKeeps(Passing(setup, s, scan), OnwardOf(setup, db, s, scan), SendsOf(db, s), db, attempts);
    var c := Chain(Passing(setup, s, scan), db, attempts);
    assert Onward(setup, db, s, scan, c.0, c.1);
  }
}
