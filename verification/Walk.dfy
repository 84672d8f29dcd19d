/** embedPending (knowledge/knowledge.go) as one walk over the pending chunks in id
    order, although it asks again every 128 chunks and splits each round by the
    provider's batch limit; what it costs, and what an interruption loses. */
module Walk {
  import opened Arithmetic
  import opened Ordered
  import opened Spaces
  import opened Database
  import opened Passes
  import opened Text

  // ----- the database with some pending chunks embedded -----

  /** Every pending chunk, in id order. */
  function PendingClaims(db: DB, s: Space): seq<Claim>
    requires Registered(db, s)
  {
    PendingLive(db, s);
    Claims(db, Pending(db, s))
  }

  function BatchFor(setup: Setup, s: Space, claims: seq<Claim>): seq<ChunkVector> {
    Batch(claims, Embeddings(setup.model, s, Document, Texts(claims)))
  }

  /** The database after embedding exactly the first k pending chunks. */
  function Gain(setup: Setup, db: DB, s: Space, k: nat): DB
    requires Registered(db, s) && k <= |PendingClaims(db, s)|
  {
    SaveVectors(db, s, BatchFor(setup, s, PendingClaims(db, s)[..k]))
  }

  lemma {:induction false} BatchMapAppend(a: seq<ChunkVector>, b: seq<ChunkVector>)
    ensures BatchMap(a + b) == BatchMap(a) + BatchMap(b)
  {
    if b == [] {
      assert a + b == a;
    } else {
      var k := |b| - 1;
      BatchMapAppend(a, b[..k]);
      assert (a + b)[..|a + b| - 1] == a + b[..k];
    }
  }

  lemma SaveTwice(db: DB, s: Space, a: seq<ChunkVector>, b: seq<ChunkVector>)
    requires Registered(db, s)
    ensures Registered(SaveVectors(db, s, a), s)
    ensures SaveVectors(SaveVectors(db, s, a), s, b) == SaveVectors(db, s, a + b)
  {
    BatchMapAppend(a, b);
    assert (Table(db, s) + BatchMap(a)) + BatchMap(b) == Table(db, s) + BatchMap(a + b);
  }

  lemma BatchForAppend(setup: Setup, s: Space, a: seq<Claim>, b: seq<Claim>)
    ensures BatchFor(setup, s, a + b) == BatchFor(setup, s, a) + BatchFor(setup, s, b)
  {
  }

  lemma GainMore(setup: Setup, db: DB, s: Space, k: nat, m: nat)
    requires Registered(db, s) && k + m <= |PendingClaims(db, s)|
    ensures Registered(Gain(setup, db, s, k), s)
    ensures SaveVectors(Gain(setup, db, s, k), s, BatchFor(setup, s, PendingClaims(db, s)[k..k + m]))
         == Gain(setup, db, s, k + m)
  {
    var all := PendingClaims(db, s);
    assert all[..k + m] == all[..k] + all[k..k + m];
    BatchForAppend(setup, s, all[..k], all[k..k + m]);
    SaveTwice(db, s, BatchFor(setup, s, all[..k]), BatchFor(setup, s, all[k..k + m]));
  }

  lemma GainNothing(setup: Setup, db: DB, s: Space)
    requires Registered(db, s)
    ensures Gain(setup, db, s, 0) == db
  {
    assert BatchFor(setup, s, PendingClaims(db, s)[..0]) == [];
    assert Table(db, s) + map[] == Table(db, s);
    assert db.tables[db.registry[s] := Table(db, s)] == db.tables;
  }

  lemma BatchForKeys(setup: Setup, s: Space, claims: seq<Claim>, ids: seq<nat>)
    requires |claims| == |ids| && forall i | 0 <= i < |ids| :: claims[i].id == ids[i]
    ensures BatchMap(BatchFor(setup, s, claims)).Keys == Elements(ids)
  {
    var batch := BatchFor(setup, s, claims);
    forall id ensures id in BatchMap(batch) <==> id in Elements(ids) {
      if id in BatchMap(batch) {
        var i := BatchLookup(batch, id);
        assert ids[i] == id;
      }
      if id in Elements(ids) {
        var i :| 0 <= i < |ids| && ids[i] == id;
        BatchHas(batch, i);
      }
    }
  }

  /** The first k pending chunks embedded leave the rest pending. */
  lemma GainPending(setup: Setup, db: DB, s: Space, k: nat)
    requires Registered(db, s) && k <= |PendingClaims(db, s)|
    ensures Registered(Gain(setup, db, s, k), s)
    ensures Pending(Gain(setup, db, s, k), s) == Pending(db, s)[k..]
    ensures PendingClaims(Gain(setup, db, s, k), s) == PendingClaims(db, s)[k..]
  {
    var ids := Pending(db, s);
    var db' := Gain(setup, db, s, k);
    BatchForKeys(setup, s, PendingClaims(db, s)[..k], ids[..k]);
    assert Table(db', s).Keys == Table(db, s).Keys + Elements(ids[..k]);
    var all := db.chunks.Keys - Table(db, s).Keys;
    assert db'.chunks.Keys - Table(db', s).Keys == all - Elements(ids[..k]);
    SortedDrop(all, k);
  }

  // ----- provider calls -----

  /** The number of parts of at most s elements that n elements make. */
  function Parts(n: nat, s: Positive): nat {
    if n == 0 then 0 else 1 + Parts(n - Least(n, s), s)
  }

  /** The calls for n pending chunks: rounds of 128, each split into parts. */
  function Cost(n: nat, s: Positive): nat {
    if n == 0 then 0 else Parts(Least(PENDING_BATCH, n), s) + Cost(n - Least(PENDING_BATCH, n), s)
  }

  /** Calls still to be made when `left` of the n unsaved chunks are claimed. */
  function CallsLeft(n: nat, left: nat, s: Positive): nat
    requires left <= n
  {
    Parts(left, s) + Cost(n - left, s)
  }

  // ----- the invariant of the walk -----

  predicate WalkPhase(p: Pass) {
    !p.phase.Storing? && !p.phase.Pruning?
  }

  /** Chunks handed to the provider but not saved. */
  function InFlight(p: Pass): nat
    requires Shape(p)
  {
    if p.phase.Saving? then |Part(p)| else 0
  }

  predicate Stopped(p: Pass) {
    p.phase == Done(EmbedFailed) || p.phase == Done(SaveFailed)
  }

  function Unclaimed(p: Pass): int {
    p.res.embedded + |p.pending| - p.start
  }

  /** The claimed chunks are the next ones of the walk, from `embedded - start`. */
  predicate Claimed(all: seq<Claim>, p: Pass) {
    var done := p.res.embedded;
    && p.start <= done <= |all| && p.start <= |p.pending| && Unclaimed(p) <= |all|
    && p.pending == all[done - p.start..Unclaimed(p)]
  }

  predicate CallsCounted(n: nat, p: Pass)
    requires p.res.embedded <= n
  {
    var left, claimed := n - p.res.embedded, |p.pending| - p.start;
    match p.phase
    case Listing => |p.sent| + Cost(left, p.size) == Cost(n, p.size)
    case Calling => 0 <= claimed <= left && |p.sent| + CallsLeft(left, claimed, p.size) == Cost(n, p.size)
    case Saving(_) => 0 <= claimed <= left && |p.sent| + CallsLeft(left, claimed, p.size) == Cost(n, p.size) + 1
    case Done(v) => v == Success || v == NotesFailed ==> left == 0 && |p.sent| == Cost(n, p.size)
    case _ => true
  }

  predicate CallSizes(p: Pass) {
    forall i | 0 <= i < |p.sent| :: 1 <= |p.sent[i]| <= p.size
  }

  /** The texts sent are those of the first embedded + extra chunks, in order. */
  predicate SentUpTo(all: seq<Claim>, p: Pass, extra: nat) {
    && extra <= p.size && p.res.embedded + extra <= |all|
    && Flatten(p.sent) == Texts(all[..p.res.embedded + extra])
  }

  /** At most one batch was sent and not saved, and only by a pass that stopped. */
  ghost predicate SentInOrder(all: seq<Claim>, p: Pass)
    requires Shape(p)
  {
    if Stopped(p) then exists extra: nat :: SentUpTo(all, p, extra) else SentUpTo(all, p, InFlight(p))
  }

  /** Where the pass is in the walk over `all`. */
  ghost predicate WalkState(all: seq<Claim>, p: Pass) {
    && Shape(p) && WalkPhase(p) && p.res.embedded <= |all|
    && (p.phase.Calling? || p.phase.Saving? ==> Claimed(all, p))
    && CallsCounted(|all|, p) && CallSizes(p) && SentInOrder(all, p)
  }

  /** The database is the initial one with what was walked so far embedded. */
  ghost predicate Walking(setup: Setup, db0: DB, db: DB, p: Pass) {
    && Registered(db0, p.space)
    && WalkState(PendingClaims(db0, p.space), p)
    && db == Gain(setup, db0, p.space, p.res.embedded)
    && (p.phase.Saving? ==> p.phase.vectors == Embeddings(setup.model, p.space, Document, Texts(Part(p))))
  }

  // ----- the invariant holds from the first listing on -----

  predicate AtFirstListing(p: Pass) {
    p.phase.Listing? && p.res.embedded == 0 && p.sent == []
  }

  lemma WalkStarts(setup: Setup, db: DB, p: Pass)
    requires Registered(db, p.space) && AtFirstListing(p)
    ensures Walking(setup, db, db, p)
  {
    GainNothing(setup, db, p.space);
    assert Texts(PendingClaims(db, p.space)[..0]) == [];
  }

  /** Asking again claims the next chunks of the walk. */
  lemma ClaimsNext(setup: Setup, db0: DB, s: Space, done: nat)
    requires Registered(db0, s) && done <= |PendingClaims(db0, s)|
    ensures Registered(Gain(setup, db0, s, done), s)
    ensures var all := PendingClaims(db0, s);
      ClaimPending(Gain(setup, db0, s, done), s, PENDING_BATCH)
      == all[done..done + Least(PENDING_BATCH, |all| - done)]
  {
    GainPending(setup, db0, s, done);
    var rest := PendingClaims(Gain(setup, db0, s, done), s);
    var n := Least(PENDING_BATCH, |rest|);
    assert ClaimPending(Gain(setup, db0, s, done), s, PENDING_BATCH) == rest[..n];
    var all := PendingClaims(db0, s);
    assert |rest| == |all| - done && all[done..][..n] == all[done..done + n];
  }

  lemma ListAdvances(all: seq<Claim>, p: Pass, q: Pass)
    requires p.phase.Listing? && p.res.embedded <= |all|
    requires CallsCounted(|all|, p) && SentInOrder(all, p)
    requires q == p.(phase := Calling, start := 0,
                     pending := all[p.res.embedded..p.res.embedded + Least(PENDING_BATCH, |all| - p.res.embedded)])
    requires q.pending != []
    ensures Claimed(all, q) && CallsCounted(|all|, q) && SentInOrder(all, q)
  {
    assert SentUpTo(all, q, 0);
  }

  lemma ListState(all: seq<Claim>, db: DB, p: Pass, ev: Event)
    requires WalkState(all, p) && p.phase.Listing?
    requires Registered(db, p.space)
    requires ClaimPending(db, p.space, PENDING_BATCH)
          == all[p.res.embedded..p.res.embedded + Least(PENDING_BATCH, |all| - p.res.embedded)]
    ensures WalkState(all, ListStep(db, p, ev).1)
  {
    var q := ListStep(db, p, ev).1;
    if q.phase.Calling? {
      ListAdvances(all, p, q);
    } else {
      assert SentUpTo(all, q, 0);
    }
  }

  lemma ListWalks(setup: Setup, db0: DB, db: DB, p: Pass, ev: Event)
    requires Walking(setup, db0, db, p) && p.phase.Listing?
    ensures var r := ListStep(db, p, ev); Walking(setup, db0, r.0, r.1)
  {
    ClaimsNext(setup, db0, p.space, p.res.embedded);
    ListState(PendingClaims(db0, p.space), db, p, ev);
  }

  /** The part asked for next is the next piece of the walk. */
  lemma PartOfWalk(all: seq<Claim>, p: Pass)
    requires Claimed(all, p) && p.start < |p.pending|
    ensures var done, m := p.res.embedded, |Part(p)|;
      1 <= m <= p.size && done + m <= |all| && Part(p) == all[done..done + m]
  {
    PartShape(p);
  }

  lemma CallState(all: seq<Claim>, setup: Setup, db: DB, p: Pass, ev: Event)
    requires WalkState(all, p) && p.phase.Calling?
    ensures WalkState(all, CallStep(setup, db, p, ev).1)
  {
    PartOfWalk(all, p);
    SentNext(all, p);
    var q := CallStep(setup, db, p, ev).1;
    assert SentUpTo(all, q, |Part(p)|);
    assert CallSizes(q);
  }

  lemma CallWalks(setup: Setup, db0: DB, db: DB, p: Pass, ev: Event)
    requires Walking(setup, db0, db, p) && p.phase.Calling?
    ensures var r := CallStep(setup, db, p, ev); Walking(setup, db0, r.0, r.1)
  {
    CallState(PendingClaims(db0, p.space), setup, db, p, ev);
  }

  lemma SentNext(all: seq<Claim>, p: Pass)
    requires Shape(p) && p.phase.Calling? && Claimed(all, p) && SentInOrder(all, p)
    ensures p.res.embedded + |Part(p)| <= |all|
    ensures Flatten(p.sent + [Texts(Part(p))]) == Texts(all[..p.res.embedded + |Part(p)|])
  {
    var done, part := p.res.embedded, Part(p);
    PartOfWalk(all, p);
    FlattenAppend(p.sent, [Texts(part)]);
    FlattenOne(Texts(part));
    TextsAppend(all[..done], part);
    assert all[..done] + part == all[..done + |part|];
  }

  lemma TextsAppend(a: seq<Claim>, b: seq<Claim>)
    ensures Texts(a + b) == Texts(a) + Texts(b)
  {
  }

  /** The state of a pass whose part was saved. */
  function AfterPart(p: Pass): Pass
    requires p.start < |p.pending|
  {
    p.(phase := if PartEnd(p) < |p.pending| then Calling else Listing,
       start := PartEnd(p), res := p.res.(embedded := p.res.embedded + |Part(p)|))
  }

  lemma SaveStepCases(db: DB, p: Pass, ev: Event)
    requires p.phase.Saving? && Shape(p)
    ensures var r := SaveStep(db, p, ev);
      r == (db, p.(phase := Done(SaveFailed))) || (!Stopped(r.1) && r.1 == AfterPart(p))
  {
  }

  lemma SaveStops(all: seq<Claim>, p: Pass)
    requires WalkState(all, p) && p.phase.Saving?
    ensures WalkState(all, p.(phase := Done(SaveFailed)))
  {
    PartOfWalk(all, p);
    assert SentUpTo(all, p.(phase := Done(SaveFailed)), |Part(p)|);
  }

  lemma SaveGoesOn(all: seq<Claim>, p: Pass)
    requires WalkState(all, p) && p.phase.Saving?
    ensures WalkState(all, AfterPart(p))
  {
    PartOfWalk(all, p);
    PartShape(p);
    SaveCounts(|all|, p, AfterPart(p));
    assert SentUpTo(all, AfterPart(p), 0);
  }

  lemma SaveState(all: seq<Claim>, db: DB, p: Pass, ev: Event)
    requires WalkState(all, p) && p.phase.Saving?
    ensures var q := SaveStep(db, p, ev).1;
      WalkState(all, q) && !q.phase.Saving? && q.space == p.space
  {
    SaveStepCases(db, p, ev);
    SaveStops(all, p);
    SaveGoesOn(all, p);
  }

  lemma SaveMoves(setup: Setup, db0: DB, db: DB, p: Pass, ev: Event, all: seq<Claim>)
    requires p.phase.Saving? && Shape(p) && Claimed(all, p)
    requires Registered(db0, p.space) && all == PendingClaims(db0, p.space)
    requires db == Gain(setup, db0, p.space, p.res.embedded)
    requires p.phase.vectors == Embeddings(setup.model, p.space, Document, Texts(Part(p)))
    ensures var r := SaveStep(db, p, ev);
      r.1.res.embedded <= |all| && r.0 == Gain(setup, db0, p.space, r.1.res.embedded)
  {
    SaveStepCases(db, p, ev);
    var r := SaveStep(db, p, ev);
    if !Stopped(r.1) {
      PartOfWalk(all, p);
      SavedPart(setup, db, p, ev);
      SaveGainsPart(setup, db0, db, p.space, p.res.embedded, Part(p), r.0, r.1.res.embedded);
    }
  }

  lemma SaveWalks(setup: Setup, db0: DB, db: DB, p: Pass, ev: Event)
    requires Walking(setup, db0, db, p) && p.phase.Saving?
    ensures var r := SaveStep(db, p, ev); Walking(setup, db0, r.0, r.1)
  {
    var all := PendingClaims(db0, p.space);
    SaveState(all, db, p, ev);
    SaveMoves(setup, db0, db, p, ev, all);
  }

  lemma SavedPart(setup: Setup, db: DB, p: Pass, ev: Event)
    requires p.phase.Saving? && Shape(p) && !Stopped(SaveStep(db, p, ev).1)
    requires p.phase.vectors == Embeddings(setup.model, p.space, Document, Texts(Part(p)))
    ensures Registered(db, p.space)
    ensures SaveStep(db, p, ev).0 == SaveVectors(db, p.space, BatchFor(setup, p.space, Part(p)))
    ensures SaveStep(db, p, ev).1.res.embedded == p.res.embedded + |Part(p)|
  {
  }

  lemma SaveGainsPart(setup: Setup, db0: DB, db: DB, s: Space, done: nat, part: seq<Claim>, saved: DB, k: nat)
    requires Registered(db0, s) && Registered(db, s) && k == done + |part| <= |PendingClaims(db0, s)|
    requires db == Gain(setup, db0, s, done) && part == PendingClaims(db0, s)[done..k]
    requires saved == SaveVectors(db, s, BatchFor(setup, s, part))
    ensures saved == Gain(setup, db0, s, k)
  {
    GainMore(setup, db0, s, done, |part|);
  }

  lemma SaveCounts(n: nat, p: Pass, q: Pass)
    requires p.phase.Saving? && p.start < |p.pending| && p.res.embedded <= n && CallsCounted(n, p)
    requires q.sent == p.sent && q.size == p.size && q.pending == p.pending
    requires q.start == PartEnd(p) && q.res.embedded == p.res.embedded + (PartEnd(p) - p.start)
    requires q.phase == if PartEnd(p) < |p.pending| then Calling else Listing
    requires q.res.embedded <= n
    ensures CallsCounted(n, q)
  {
    var claimed := |p.pending| - p.start;
    assert Parts(claimed, p.size) == 1 + Parts(claimed - Least(claimed, p.size), p.size);
  }

  lemma StepWalks(setup: Setup, db0: DB, db: DB, p: Pass, ev: Event)
    requires Walking(setup, db0, db, p)
    ensures var r := Step(setup, db, p, ev); Walking(setup, db0, r.0, r.1)
  {
    match p.phase {
      case Listing => ListWalks(setup, db0, db, p, ev);
      case Calling => CallWalks(setup, db0, db, p, ev);
      case Saving(_) => SaveWalks(setup, db0, db, p, ev);
      case Done(_) =>
    }
  }

  lemma StepSamePass(setup: Setup, db: DB, p: Pass, ev: Event)
    requires Shape(p) && WalkPhase(p)
    ensures var q := Step(setup, db, p, ev).1; q.space == p.space && q.size == p.size
  {
  }

  /** However far an uninterrupted or interrupted walk gets, its state is the
      initial database with the first `embedded` pending chunks embedded. */
  lemma {:induction false} RunWalks(setup: Setup, db: DB, p: Pass, evs: seq<Event>)
    requires Registered(db, p.space) && AtFirstListing(p)
    ensures var r := Run(setup, db, p, evs); Walking(setup, db, r.0, r.1) && r.1.space == p.space && r.1.size == p.size
    decreases |evs|
  {
    if evs == [] {
      WalkStarts(setup, db, p);
    } else {
      var k := |evs| - 1;
      RunWalks(setup, db, p, evs[..k]);
      var before := Run(setup, db, p, evs[..k]);
      StepWalks(setup, db, before.0, before.1, evs[k]);
      StepSamePass(setup, before.0, before.1, evs[k]);
    }
  }

  // ----- what the walk amounts to -----

  predicate Finished(p: Pass) {
    p.phase == Done(Success) || p.phase == Done(NotesFailed)
  }

  /** embedPending refines one left-to-right walk: wherever it stops, the database
      is the initial one with exactly the first `embedded` pending chunks embedded
      and the rest pending; it finishes only when none is; and the texts sent are
      those of the same chunks in order, plus at most one batch. */
  lemma EmbedPendingRefinesWalk(setup: Setup, db: DB, p: Pass, evs: seq<Event>)
    requires Registered(db, p.space) && AtFirstListing(p)
    ensures var (db', q) := Run(setup, db, p, evs);
      var all, done := PendingClaims(db, p.space), q.res.embedded;
      && done <= |all| && db' == Gain(setup, db, p.space, done)
      && Registered(db', p.space) && PendingClaims(db', p.space) == all[done..]
      && (Finished(q) ==> done == |all| && Pending(db', p.space) == [])
      && (exists extra: nat :: SentUpTo(all, q, extra))
  {
    RunWalks(setup, db, p, evs);
    WalkSends(setup, db, p, evs);
    GainPending(setup, db, p.space, Run(setup, db, p, evs).1.res.embedded);
  }

  lemma InFlightWithin(p: Pass)
    requires Shape(p)
    ensures InFlight(p) <= p.size
  {
  }

  lemma GainRegistered(setup: Setup, db: DB, s: Space, k: nat, mid: DB)
    requires Registered(db, s) && k <= |PendingClaims(db, s)| && mid == Gain(setup, db, s, k)
    ensures Registered(mid, s) && PendingClaims(mid, s) == PendingClaims(db, s)[k..]
  {
    GainPending(setup, db, s, k);
  }

  /** Where a run from the first listing on got to. */
  ghost predicate Walked(setup: Setup, db: DB, s: Space, r: (DB, Pass)) {
    && Registered(db, s)
    && r.1.res.embedded <= |PendingClaims(db, s)| && r.0 == Gain(setup, db, s, r.1.res.embedded)
    && exists extra: nat :: SentUpTo(PendingClaims(db, s), r.1, extra)
  }

  lemma RunWalked(setup: Setup, db: DB, p: Pass, evs: seq<Event>)
    requires Registered(db, p.space) && AtFirstListing(p)
    ensures Walked(setup, db, p.space, Run(setup, db, p, evs))
  {
    WalkGains(setup, db, p, evs);
    WalkSends(setup, db, p, evs);
  }

  lemma WalkGains(setup: Setup, db: DB, p: Pass, evs: seq<Event>)
    requires Registered(db, p.space) && AtFirstListing(p)
    ensures var r := Run(setup, db, p, evs);
      r.1.res.embedded <= |PendingClaims(db, p.space)| && r.0 == Gain(setup, db, p.space, r.1.res.embedded)
  {
    RunWalks(setup, db, p, evs);
  }

  lemma WalkSends(setup: Setup, db: DB, p: Pass, evs: seq<Event>)
    requires Registered(db, p.space) && AtFirstListing(p)
    ensures exists extra: nat :: SentUpTo(PendingClaims(db, p.space), Run(setup, db, p, evs).1, extra)
  {
    RunWalks(setup, db, p, evs);
    var q := Run(setup, db, p, evs).1;
    if !Stopped(q) {
      InFlightWithin(q);
      assert SentUpTo(PendingClaims(db, p.space), q, InFlight(q));
    }
  }

  lemma GainTwice(setup: Setup, db: DB, s: Space, k: nat, m: nat)
    requires Registered(db, s) && k + m <= |PendingClaims(db, s)|
    ensures Registered(Gain(setup, db, s, k), s)
    ensures m <= |PendingClaims(Gain(setup, db, s, k), s)|
    ensures Gain(setup, Gain(setup, db, s, k), s, m) == Gain(setup, db, s, k + m)
  {
    var all := PendingClaims(db, s);
    GainPending(setup, db, s, k);
    GainMore(setup, db, s, k, m);
    assert all[k..][..m] == all[k..k + m];
  }

  // ----- the exact cost -----

  lemma {:induction false} PartsCeil(n: nat, s: Positive)
    ensures Parts(n, s) == CeilDiv(n, s)
  {
    if n == 0 {
      QuotientUnique(s - 1, s, 0, s - 1);
    } else if n <= s {
      assert Parts(n, s) == 1 + Parts(0, s);
      CeilDivStep(s, s);
      QuotientUnique(n + s - 1, s, 1, n - 1);
    } else {
      PartsCeil(n - s, s);
      CeilDivStep(n, s);
    }
  }

  lemma {:induction false} CostClosed(n: nat, s: Positive)
    ensures Cost(n, s)
         == (n / PENDING_BATCH) * CeilDiv(PENDING_BATCH, s) + CeilDiv(n % PENDING_BATCH, s)
  {
    var c := CeilDiv(PENDING_BATCH, s);
    PartsCeil(0, s);
    if n == 0 {
    } else if n < PENDING_BATCH {
      PartsCeil(n, s);
      assert Cost(n, s) == Parts(n, s) + Cost(0, s);
      assert n / PENDING_BATCH == 0 && n % PENDING_BATCH == n;
    } else {
      CostClosed(n - PENDING_BATCH, s);
      PartsCeil(PENDING_BATCH, s);
      var q := (n - PENDING_BATCH) / PENDING_BATCH;
      assert n / PENDING_BATCH == q + 1 && n % PENDING_BATCH == (n - PENDING_BATCH) % PENDING_BATCH;
      OneMore(q, c);
    }
  }

  /** Exact provider cost: embedding n pending chunks in batches of s takes
      (n / 128) * ceil(128 / s) + ceil((n % 128) / s) calls of 1 to s texts each. */
  lemma ExactCost(setup: Setup, db: DB, p: Pass, evs: seq<Event>)
    requires Registered(db, p.space) && AtFirstListing(p)
    requires Finished(Run(setup, db, p, evs).1)
    ensures var q, n := Run(setup, db, p, evs).1, |Pending(db, p.space)|;
      && |q.sent| == (n / PENDING_BATCH) * CeilDiv(PENDING_BATCH, p.size)
                     + CeilDiv(n % PENDING_BATCH, p.size)
      && (forall i | 0 <= i < |q.sent| :: 1 <= |q.sent[i]| <= p.size)
  {
    RunWalks(setup, db, p, evs);
    CostClosed(|Pending(db, p.space)|, p.size);
  }

  // ----- the walk inside a whole pass -----

  predicate BeforeListing(p: Pass) {
    && p.res.embedded == 0 && p.sent == []
    && (p.phase.Storing? || p.phase.Pruning? || p.phase == Done(Cancelled) || p.phase == Done(PruneFailed))
  }

  lemma EarlyStep(setup: Setup, db: DB, p: Pass, ev: Event)
    requires Shape(p) && BeforeListing(p)
    ensures var q := Step(setup, db, p, ev).1; BeforeListing(q) || AtFirstListing(q)
  {
    if p.phase.Storing? {
      assert BeforeListing(AfterNote(p)) || AtFirstListing(AfterNote(p));
    }
  }

  /** A pass that got as far as asking for pending chunks did so, the first time,
      with nothing embedded and nothing sent: from there on it is a walk. */
  lemma {:induction false} PassReachesWalk(setup: Setup, db: DB, p: Pass, evs: seq<Event>) returns (k: nat)
    requires Shape(p) && (BeforeListing(p) || AtFirstListing(p))
    requires !BeforeListing(Run(setup, db, p, evs).1)
    ensures k <= |evs| && AtFirstListing(Run(setup, db, p, evs[..k]).1)
    ensures var mid := Run(setup, db, p, evs[..k]); Run(setup, db, p, evs) == Run(setup, mid.0, mid.1, evs[k..])
    decreases |evs|
  {
    assert evs[..0] == [] && evs[0..] == evs;
    if AtFirstListing(p) {
      k := 0;
    } else {
      var n := |evs| - 1;
      var before := Run(setup, db, p, evs[..n]);
      if BeforeListing(before.1) {
        EarlyStep(setup, before.0, before.1, evs[n]);
        k := |evs|;
        assert evs[..k] == evs;
      } else {
        k := PassReachesWalk(setup, db, p, evs[..n]);
        assert evs[..n][..k] == evs[..k];
        RunSplit(setup, db, p, evs, k);
      }
    }
  }
}
