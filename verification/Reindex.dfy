/** The background indexer, internal/httpapi/reindex.go: each critical section, and
    each point where the pass itself runs, is one step of an interleaving. */
module Reindex {
  import opened Outcome
  import opened Database
  import opened Passes
  import opened Knowledge
  import opened Vault

  datatype RunState = Idle | Running | Finished | Failed

  datatype Status = Status(state: RunState, result: Option<IndexResult>, error: Option<IndexError>)

  /** What a pass returned. */
  datatype Answer = Answer(res: IndexResult, err: Option<IndexError>)

  /** Where an accepted pass is: its goroutine is not running yet, it is inside
      Index, or Index has returned and the status is not updated yet. */
  datatype Job = Launching | Indexing | Reporting(res: IndexResult, err: Option<IndexError>)

  /** What happens next: a caller reaches the critical section of start, a goroutine
      gets going, Index returns, or a goroutine reaches its own critical section. */
  datatype Event =
    | Asks
    | Launches(job: nat)
    | Returns(job: nat, res: IndexResult, err: Option<IndexError>)
    | Reports(job: nat)

  /** `accepted` counts the starts that reported true, `invoked` the calls of Index,
      and `outcomes` lists what the finished passes returned. */
  datatype World = World(
    status: Status, jobs: seq<Job>, accepted: nat, invoked: nat, outcomes: seq<Answer>)

  const QUIET := World(Status(Idle, None, None), [], 0, 0, [])

  function StatusOf(res: IndexResult, err: Option<IndexError>): Status {
    Status(if err.Some? then Failed else Finished, Some(res), err)
  }

  function Advance(w: World, e: Event): World {
    match e
    case Asks =>
      if w.status.state == Running then w
      else w.(status := Status(Running, None, None), jobs := w.jobs + [Launching], accepted := w.accepted + 1)
    case Launches(j) =>
      if j < |w.jobs| && w.jobs[j].Launching? then w.(jobs := w.jobs[j := Indexing], invoked := w.invoked + 1) else w
    case Returns(j, res, err) =>
      if j < |w.jobs| && w.jobs[j].Indexing? then w.(jobs := w.jobs[j := Reporting(res, err)]) else w
    case Reports(j) =>
      if j < |w.jobs| && w.jobs[j].Reporting? then
        w.(status := StatusOf(w.jobs[j].res, w.jobs[j].err), jobs := w.jobs[..j] + w.jobs[j + 1..],
           outcomes := w.outcomes + [Answer(w.jobs[j].res, w.jobs[j].err)])
      else w
  }

  function Steps(w: World, events: seq<Event>): World
    decreases |events|
  {
    if events == [] then w else Advance(Steps(w, events[..|events| - 1]), events[|events| - 1])
  }

  function LastStatus(outcomes: seq<Answer>): Status {
    if outcomes == [] then Status(Idle, None, None)
    else StatusOf(outcomes[|outcomes| - 1].res, outcomes[|outcomes| - 1].err)
  }

  /** At most one pass is in flight, "running" says whether one is, no accepted
      start is lost or run twice, and otherwise the status is the last outcome. */
  predicate Consistent(w: World) {
    && |w.jobs| <= 1 && (w.status.state == Running <==> |w.jobs| == 1)
    && (if w.jobs == [Launching] then w.invoked + 1 == w.accepted else w.invoked == w.accepted)
    && |w.outcomes| + |w.jobs| == w.accepted
    && w.status == if |w.jobs| == 1 then Status(Running, None, None) else LastStatus(w.outcomes)
  }

  /** Single flight, whatever the interleaving of callers and goroutines. */
  lemma {:induction false} SingleFlight(events: seq<Event>)
    ensures Consistent(Steps(QUIET, events))
    decreases |events|
  {
    if events != [] {
      SingleFlight(events[..|events| - 1]);
    }
  }

  /** What a caller sees over every interleaving: running exactly while a pass is in
      flight, failed exactly when the last pass returned an error, done exactly when it
      returned none, idle exactly before the first; and its result and its error. */
  lemma StatusTells(events: seq<Event>)
    ensures var w := Steps(QUIET, events);
      && (w.status.state.Running? <==> w.jobs != [])
      && (w.status.state.Idle? <==> w.accepted == 0)
      && (w.jobs == [] && w.accepted > 0 ==>
            && w.outcomes != []
            && var last := w.outcomes[|w.outcomes| - 1];
              && (w.status.state.Failed? <==> last.err.Some?) && (w.status.state.Finished? <==> last.err.None?)
              && w.status.result == Some(last.res) && w.status.error == last.err)
  {
    SingleFlight(events);
  }

  class Indexer {
    var status: Status
    ghost var world: World

    ghost predicate Valid()
      reads this
    {
      Consistent(world) && world.status == status
    }

    constructor ()
      ensures Valid() && world == QUIET
    {
      status := Status(Idle, None, None);
      world := QUIET;
    }

    /** The critical section of start; the caller launches the pass on true. */
    method Start() returns (accepted: bool)
      requires Valid()
      modifies this
      ensures Valid() && world == Advance(old(world), Asks)
      ensures accepted <==> old(world.jobs) == []
      ensures world.accepted == old(world.accepted) + if accepted then 1 else 0
    {
      world := Advance(world, Asks);
      if status.state == Running {
        return false;
      }
      status := Status(Running, None, None);
      return true;
    }

    /** The goroutine gets going. */
    method Launch()
      requires Valid() && world.jobs == [Launching]
      modifies this
      ensures Valid() && world == Advance(old(world), Launches(0)) && world.jobs == [Indexing]
    {
      world := Advance(world, Launches(0));
    }

    /** The goroutine calls Index, outside the lock. */
    method Invoke(kb: KnowledgeBase, ghost env: Env, entries: seq<Entry>, w: Weather)
      returns (res: IndexResult, err: Option<IndexError>)
      requires Valid() && world.jobs == [Indexing]
      requires kb.Ready(env) && kb.Real(env.setup) && env.weather == w && kb.Asked(env)
      requires DistinctFiles(entries) && Sound(env.setup, kb.store.View())
      modifies this, kb.store, kb.provider
      ensures Valid() && world == Advance(old(world), Returns(0, res, err)) && world.jobs == [Reporting(res, err)]
      ensures kb.Ready(env) && Sound(env.setup, kb.store.View())
    {
      ghost var run, p;
      res, err, run, p := kb.Index(env, entries, w);
      world := Advance(world, Returns(0, res, err));
    }

    /** The critical section at the end of run. */
    method Report(res: IndexResult, err: Option<IndexError>)
      requires Valid() && world.jobs == [Reporting(res, err)]
      modifies this
      ensures Valid() && world == Advance(old(world), Reports(0))
      ensures world.jobs == [] && status == StatusOf(res, err)
      ensures status == if err.Some? then Status(Failed, Some(res), err) else Status(Finished, Some(res), None)
    {
      world := Advance(world, Reports(0));
      status := status.(result := Some(res));
      if err.Some? {
        status := status.(state := Failed, error := err);
        return;
      }
      status := status.(state := Finished);
    }

    /** run, when nothing comes between its steps: afterwards the status is what Index
        returned, and the indexer accepts the next start. */
    method Run(kb: KnowledgeBase, ghost env: Env, entries: seq<Entry>, w: Weather)
      returns (res: IndexResult, err: Option<IndexError>)
      requires Valid() && world.jobs == [Launching]
      requires kb.Ready(env) && kb.Real(env.setup) && env.weather == w && kb.Asked(env)
      requires DistinctFiles(entries) && Sound(env.setup, kb.store.View())
      modifies this, kb.store, kb.provider
      ensures Valid() && world.jobs == [] && status == StatusOf(res, err)
      ensures world.invoked == old(world.invoked) + 1 && world.outcomes == old(world.outcomes) + [Answer(res, err)]
      ensures kb.Ready(env) && Sound(env.setup, kb.store.View())
    {
      Launch();
      res, err := Invoke(kb, env, entries, w);
      Report(res, err);
    }

    /** A copy of the status. */
    method Snapshot() returns (s: Status)
      requires Valid()
      ensures s == world.status && (s.state == Running <==> |world.jobs| == 1)
    {
      return status;
    }
  }
}
