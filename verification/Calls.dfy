/** The size of every provider call of a pass (knowledge/knowledge.go, embedPending):
    the chunks are claimed 128 at a time, and each claim is split by the limit of the
    provider. */
module Calls {
  import opened Arithmetic
  import opened Database
  import opened Passes
  import opened Text
  import opened Walk

  /** How many of n texts go into the call after the first `start` of them: as many as
      the provider takes, or what is left of this 128, or of all. */
  function Due(n: nat, start: nat, limit: int): int {
    Least(limit, Least(128 - start % 128, n - start))
  }

  /** Every call has its due. */
  predicate CallsDue(n: nat, limit: int, sent: seq<seq<string>>) {
    forall i | 0 <= i < |sent| :: 1 <= |sent[i]| == Due(n, |Flatten(sent[..i])|, limit)
  }

  lemma DueNext(n: nat, limit: int, sent: seq<seq<string>>, texts: seq<string>)
    requires CallsDue(n, limit, sent) && 1 <= |texts| == Due(n, |Flatten(sent)|, limit)
    ensures CallsDue(n, limit, sent + [texts])
  {
    var more := sent + [texts];
    forall i | 0 <= i < |more| ensures 1 <= |more[i]| == Due(n, |Flatten(more[..i])|, limit) {
      assert more[..i] == if i < |sent| then sent[..i] else sent;
    }
  }

  /** A claim begins at a multiple of 128, and is full or has all there is. */
  predicate InRounds(n: nat, p: Pass) {
    var done := p.res.embedded;
    match p.phase
    case Listing => done % 128 == 0 || done == n
    case Calling =>
      p.start <= done && (done - p.start) % 128 == 0 && |p.pending| == Least(128, n - (done - p.start))
    case Saving(_) =>
      p.start <= done && (done - p.start) % 128 == 0 && |p.pending| == Least(128, n - (done - p.start))
    case _ => true
  }

  lemma RoundEnd(a: int, b: int)
    requires a % 128 == 0 && b == 128
    ensures (a + b) % 128 == 0
  {
  }

  /** What is left of a claim is what is left of its round. */
  lemma LeftOfRound(n: int, first: int, start: int, claimed: int)
    requires first % 128 == 0 && 0 <= start < claimed == Least(128, n - first)
    ensures claimed - start == Least(128 - (first + start) % 128, n - (first + start))
  {
    assert (first + start) % 128 == start;
  }

  lemma ListRounds(n: nat, db: DB, p: Pass, ev: Event)
    requires p.phase.Listing? && InRounds(n, p) && p.res.embedded <= n && Registered(db, p.space)
    requires |ClaimPending(db, p.space, PENDING_BATCH)| == Least(128, n - p.res.embedded)
    ensures InRounds(n, ListStep(db, p, ev).1) && ListStep(db, p, ev).1.sent == p.sent
  {
  }

  lemma CallRounds(n: nat, setup: Setup, db: DB, p: Pass, ev: Event)
    requires p.phase.Calling? && Shape(p) && InRounds(n, p) && CallsDue(n, p.size, p.sent)
    requires |Flatten(p.sent)| == p.res.embedded
    ensures var q := CallStep(setup, db, p, ev).1; InRounds(n, q) && CallsDue(n, p.size, q.sent)
  {
    PartShape(p);
    LeftOfRound(n, p.res.embedded - p.start, p.start, |p.pending|);
    DueNext(n, p.size, p.sent, Texts(Part(p)));
  }

  lemma SaveRounds(n: nat, db: DB, p: Pass, ev: Event)
    requires p.phase.Saving? && Shape(p) && InRounds(n, p)
    ensures InRounds(n, SaveStep(db, p, ev).1) && SaveStep(db, p, ev).1.sent == p.sent
  {
    SaveStepCases(db, p, ev);
    PartShape(p);
    if |p.pending| == 128 {
      RoundEnd(p.res.embedded - p.start, 128);
    }
  }

  /** The length of what was sent before the call that is due. */
  lemma SentBefore(setup: Setup, db0: DB, db: DB, p: Pass)
    requires Walking(setup, db0, db, p) && p.phase.Calling?
    ensures |Flatten(p.sent)| == p.res.embedded
  {
    assert SentUpTo(PendingClaims(db0, p.space), p, 0);
  }

  lemma ClaimLength(setup: Setup, db0: DB, db: DB, p: Pass)
    requires Walking(setup, db0, db, p) && p.phase.Listing?
    ensures Registered(db, p.space)
    ensures |ClaimPending(db, p.space, PENDING_BATCH)|
         == Least(128, |PendingClaims(db0, p.space)| - p.res.embedded)
  {
    ClaimsNext(setup, db0, p.space, p.res.embedded);
  }

  lemma StepRounds(setup: Setup, db0: DB, db: DB, p: Pass, ev: Event, n: nat)
    requires Walking(setup, db0, db, p) && n == |PendingClaims(db0, p.space)|
    requires InRounds(n, p) && CallsDue(n, p.size, p.sent)
    ensures var q := Step(setup, db, p, ev).1; InRounds(n, q) && CallsDue(n, p.size, q.sent)
  {
    match p.phase {
      case Listing =>
        ClaimLength(setup, db0, db, p);
        ListRounds(n, db, p, ev);
      case Calling =>
        SentBefore(setup, db0, db, p);
        CallRounds(n, setup, db, p, ev);
      case Saving(_) => SaveRounds(n, db, p, ev);
      case Done(_) =>
    }
  }

  /** From its first listing on, every call of a pass has its due, wherever it gets. */
  lemma {:induction false} RunRounds(setup: Setup, db: DB, p: Pass, evs: seq<Event>, n: nat)
    requires Registered(db, p.space) && AtFirstListing(p) && n == |PendingClaims(db, p.space)|
    ensures var q := Run(setup, db, p, evs).1; InRounds(n, q) && CallsDue(n, p.size, q.sent)
    decreases |evs|
  {
    if evs != [] {
      var k := |evs| - 1;
      var before := Run(setup, db, p, evs[..k]);
      RunRounds(setup, db, p, evs[..k], n);
      RunWalks(setup, db, p, evs[..k]);
      StepRounds(setup, db, before.0, before.1, evs[k], n);
    }
  }
}
