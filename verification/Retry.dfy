/** The retry policy, backoff/backoff.go. The world a retry loop runs in (what each
    attempt returns, when the context is cancelled, the random draws) is a
    parameter; durations are whole nanoseconds. */
module Retry {
  import opened Arithmetic
  import opened Outcome

  /** An error of the operation; `mark` is the hint of a Retryable, zero for none. */
  datatype OpError = OpError(message: string, mark: Option<int>)

  datatype Reply<+T> = Succeeded(value: T) | Refused(error: OpError)

  predicate MarkedRefusal<T>(r: Reply<T>) {
    r.Refused? && r.error.mark.Some?
  }

  datatype Policy = Policy(maxAttempts: int, base: int, max: int)

  const DEFAULT := Policy(4, 500_000_000, 60_000_000_000)

  function Normalized(p: Policy): Policy {
    Policy(if p.maxAttempts < 1 then 1 else p.maxAttempts,
           if p.base <= 0 then DEFAULT.base else p.base,
           if p.max <= 0 then DEFAULT.max else p.max)
  }

  predicate Normal(p: Policy) {
    p.maxAttempts >= 1 && p.base > 0 && p.max > 0
  }

  /** Attempts are numbered from 1: whether the context is cancelled before attempt
      k, its reply, whether the wait after it runs to its end, how long it took if it
      does not, and its draw. */
  datatype World<!T> = World(
    cancelled: nat -> bool, reply: nat -> Reply<T>, wakes: nat -> bool, slept: nat -> int, draw: nat -> real)

  ghost predicate DrawsInUnit<T>(w: World<T>) {
    forall k: nat :: 0.0 <= w.draw(k) < 1.0
  }

  datatype Verdict<+T> =
    | Returned(value: T)                // nil
    | NotRetryable(error: OpError)      // surfaced as it is
    | GaveUp(error: OpError)            // attempts exhausted
    | StoppedBefore                     // cancelled before the first attempt
    | StoppedAfter(error: OpError)      // cancelled between a wait and the next attempt
    | StoppedWaiting(error: OpError)    // cancelled during a wait

  datatype Report<+T> = Report(verdict: Verdict<T>, runs: nat, waits: seq<int>)

  function Pow2(n: nat): nat {
    if n == 0 then 1 else 2 * Pow2(n - 1)
  }

  function Window(p: Policy, attempt: nat): int
    requires attempt >= 1
  {
    Least(p.base * Pow2(attempt - 1), p.max)
  }

  function Drawn(draw: real, window: int): int {
    (draw * window as real).Floor
  }

  /** A server hint, capped; or a uniform draw from a window that doubles, capped. */
  function Delay(p: Policy, attempt: nat, hint: int, draw: real): int
    requires attempt >= 1
  {
    if hint > 0 then Least(hint, p.max) else Drawn(draw, Window(p, attempt))
  }

  /** The time slept of a wait of d that the context cuts short: less than d. */
  function CutShort(d: int, slept: int): int
    requires d > 0
  {
    if slept < 0 then 0 else Least(slept, d - 1)
  }

  /** What the loop does from a given attempt on, after the given last error. */
  function Attempts<T>(p: Policy, w: World<T>, attempt: nat, last: Option<OpError>): Report<T>
    requires attempt >= 1
    decreases p.maxAttempts - attempt
  {
    if w.cancelled(attempt) then
      Report(if last.Some? then StoppedAfter(last.value) else StoppedBefore, attempt - 1, [])
    else
      match w.reply(attempt)
      case Succeeded(v) => Report(Returned(v), attempt, [])
      case Refused(e) =>
        if e.mark.None? then Report(NotRetryable(e), attempt, [])
        else if attempt >= p.maxAttempts then Report(GaveUp(e), attempt, [])
        else
          var d := Delay(p, attempt, e.mark.value, w.draw(attempt));
          if d > 0 && !w.wakes(attempt) then Report(StoppedWaiting(e), attempt, [CutShort(d, w.slept(attempt))])
          else
            var rest := Attempts(p, w, attempt + 1, Some(e));
            rest.(waits := [d] + rest.waits)
  }

  function Trace<T>(p: Policy, w: World<T>): Report<T> {
    Attempts(Normalized(p), w, 1, None)
  }

  /** The report of a loop that already waited for these times. */
  function Prefixed<T>(waits: seq<int>, r: Report<T>): Report<T> {
    Report(r.verdict, r.runs, waits + r.waits)
  }

  method Do<T>(policy: Policy, w: World<T>) returns (r: Report<T>)
    ensures r == Trace(policy, w)
  {
    var p := Normalized(policy);
    var lastErr: Option<OpError> := None;
    var attempt := 1;
    var waits: seq<int> := [];
    while true
      invariant 1 <= attempt
      invariant Prefixed(waits, Attempts(p, w, attempt, lastErr)) == Trace(policy, w)
      decreases p.maxAttempts - attempt
    {
      assert waits + [] == waits;
      if w.cancelled(attempt) {
        return Report(if lastErr.Some? then StoppedAfter(lastErr.value) else StoppedBefore, attempt - 1, waits);
      }
      var reply := w.reply(attempt);
      if reply.Succeeded? {
        return Report(Returned(reply.value), attempt, waits);
      }
      var err := reply.error;
      ghost var before := lastErr;
      lastErr := Some(err);
      if err.mark.None? {
        return Report(NotRetryable(err), attempt, waits);
      }
      if attempt >= p.maxAttempts {
        return Report(GaveUp(err), attempt, waits);
      }
      var d := Delay(p, attempt, err.mark.value, w.draw(attempt));
      if d > 0 && !w.wakes(attempt) {
        return Report(StoppedWaiting(err), attempt, waits + [CutShort(d, w.slept(attempt))]);
      }
      WaitThenGoOn(p, w, attempt, before, waits);
      waits := waits + [d];
      attempt := attempt + 1;
    }
  }

  lemma WaitThenGoOn<T>(p: Policy, w: World<T>, attempt: nat, last: Option<OpError>, waits: seq<int>)
    requires attempt >= 1 && !w.cancelled(attempt) && attempt < p.maxAttempts && MarkedRefusal(w.reply(attempt))
    requires var e := w.reply(attempt).error;
      Delay(p, attempt, e.mark.value, w.draw(attempt)) <= 0 || w.wakes(attempt)
    ensures var e := w.reply(attempt).error; var d := Delay(p, attempt, e.mark.value, w.draw(attempt));
      Prefixed(waits, Attempts(p, w, attempt, last))
      == Prefixed(waits + [d], Attempts(p, w, attempt + 1, Some(e)))
  {
    var e := w.reply(attempt).error;
    var d := Delay(p, attempt, e.mark.value, w.draw(attempt));
    var rest := Attempts(p, w, attempt + 1, Some(e));
    assert waits + ([d] + rest.waits) == (waits + [d]) + rest.waits;
  }

  // ----- what a trace looks like -----

  function LastError<T>(v: Verdict<T>): Option<OpError> {
    match v
    case Returned(_) => None
    case StoppedBefore => None
    case NotRetryable(e) => Some(e)
    case GaveUp(e) => Some(e)
    case StoppedAfter(e) => Some(e)
    case StoppedWaiting(e) => Some(e)
  }

  /** The context ended the loop after an error that would have been retried. */
  predicate Interrupted<T>(v: Verdict<T>) {
    v.StoppedAfter? || v.StoppedWaiting?
  }

  /** How the verdict of a trace follows from its last invocation. */
  ghost predicate ExplainsVerdict<T>(p: Policy, w: World<T>, r: Report<T>)
    requires r.runs >= 1
  {
    match w.reply(r.runs)
    case Succeeded(v) => r.verdict == Returned(v)
    case Refused(e) =>
      && LastError(r.verdict) == Some(e)
      && (r.verdict.NotRetryable? <==> e.mark.None?)
      && (r.verdict.GaveUp? <==> e.mark.Some? && r.runs == p.maxAttempts)
  }

  /** Attempt j was refused in a way that is retried, and the wait after it, if it
      is positive, runs to its end. */
  predicate GoesOn<T>(p: Policy, w: World<T>, j: nat)
    requires j >= 1
  {
    MarkedRefusal(w.reply(j)) && (WaitAt(p, w, j) <= 0 || w.wakes(j))
  }

  /** The wait that is due after attempt j. */
  function WaitAt<T>(p: Policy, w: World<T>, j: nat): int
    requires j >= 1
  {
    if MarkedRefusal(w.reply(j)) then Delay(p, j, w.reply(j).error.mark.value, w.draw(j)) else 0
  }

  /** The world lets the loop get to attempt k. */
  ghost predicate Reached<T>(p: Policy, w: World<T>, k: nat) {
    && 1 <= k <= p.maxAttempts
    && (forall j | 1 <= j <= k :: !w.cancelled(j))
    && (forall j | 1 <= j < k :: GoesOn(p, w, j))
  }

  /** After attempt k another one is due, and the context ends first. */
  ghost predicate ContextEnds<T>(p: Policy, w: World<T>, k: nat) {
    && k < p.maxAttempts && Reached(p, w, k) && MarkedRefusal(w.reply(k))
    && (w.cancelled(k + 1) || !GoesOn(p, w, k))
  }

  /** What the loop makes of the world from this attempt on. */
  ghost predicate Follows<T>(p: Policy, w: World<T>, attempt: nat, r: Report<T>) {
    && r.runs >= attempt - 1
    && (forall k: nat | k >= attempt :: k <= r.runs <==> Reached(p, w, k))
    && (Interrupted(r.verdict) <==> ContextEnds(p, w, r.runs))
  }

  lemma FollowsMore<T>(p: Policy, w: World<T>, attempt: nat, rest: Report<T>, r: Report<T>)
    requires Follows(p, w, attempt + 1, rest) && Reached(p, w, attempt)
    requires r.runs == rest.runs && r.verdict == rest.verdict
    ensures Follows(p, w, attempt, r)
  {
    forall k: nat | k >= attempt ensures k <= r.runs <==> Reached(p, w, k) {
      assert k > attempt ==> (k <= rest.runs <==> Reached(p, w, k));
    }
  }

  lemma FollowsLast<T>(p: Policy, w: World<T>, attempt: nat, r: Report<T>)
    requires Reached(p, w, attempt) && !(GoesOn(p, w, attempt) && attempt < p.maxAttempts) && r.runs == attempt
    requires Interrupted(r.verdict) <==> ContextEnds(p, w, attempt)
    ensures Follows(p, w, attempt, r)
  {
    var goesOn := GoesOn(p, w, attempt);
    forall k: nat | k > attempt ensures !Reached(p, w, k) {
      assert Reached(p, w, k) ==> goesOn;
    }
  }

  lemma {:induction false} AttemptsFollow<T>(p: Policy, w: World<T>, attempt: nat, last: Option<OpError>)
    requires 1 <= attempt <= p.maxAttempts && (last.Some? <==> attempt > 1)
    requires forall j | 1 <= j < attempt :: !w.cancelled(j) && GoesOn(p, w, j)
    ensures Follows(p, w, attempt, Attempts(p, w, attempt, last))
    decreases p.maxAttempts - attempt
  {
    var r := Attempts(p, w, attempt, last);
    if w.cancelled(attempt) {
      assert attempt > 1 ==> Reached(p, w, attempt - 1) && GoesOn(p, w, attempt - 1);
    } else {
      assert Reached(p, w, attempt);
      if GoesOn(p, w, attempt) && attempt < p.maxAttempts {
        var e := w.reply(attempt).error;
        AttemptsFollow(p, w, attempt + 1, Some(e));
        FollowsMore(p, w, attempt, Attempts(p, w, attempt + 1, Some(e)), r);
      } else {
        FollowsLast(p, w, attempt, r);
      }
    }
  }

  /** The context ends a loop after its last attempt only. */
  lemma EndsAtLast<T>(p: Policy, w: World<T>, r: Report<T>, k: nat)
    requires Follows(p, w, 1, r)
    ensures ContextEnds(p, w, k) <==> k == r.runs && Interrupted(r.verdict)
  {
    assert k + 1 <= r.runs <==> Reached(p, w, k + 1);
    assert Reached(p, w, k + 1) && k >= 1 ==> GoesOn(p, w, k) && !w.cancelled(k + 1);
    assert k >= 1 ==> (k <= r.runs <==> Reached(p, w, k));
  }

  lemma {:induction false} AttemptsTrace<T>(p: Policy, w: World<T>, attempt: nat, last: Option<OpError>)
    requires Normal(p) && 1 <= attempt <= p.maxAttempts
    requires attempt > 1 ==> MarkedRefusal(w.reply(attempt - 1)) && last == Some(w.reply(attempt - 1).error)
    requires attempt == 1 ==> last == None
    ensures var r := Attempts(p, w, attempt, last);
      && attempt - 1 <= r.runs <= p.maxAttempts
      && (forall k | attempt <= k < r.runs :: MarkedRefusal(w.reply(k)))
      && (if r.runs == 0 then r.verdict == StoppedBefore else ExplainsVerdict(p, w, r))
      && |r.waits| + attempt == if Interrupted(r.verdict) then r.runs + 1 else if r.runs == 0 then 1 else r.runs
    decreases p.maxAttempts - attempt
  {
    if !w.cancelled(attempt) && MarkedRefusal(w.reply(attempt)) && attempt < p.maxAttempts {
      AttemptsTrace(p, w, attempt + 1, Some(w.reply(attempt).error));
    }
  }

  /** Retry trace specification. Attempt k is made exactly when the world lets the
      loop get there: no attempt up to it is cancelled, every earlier one was
      refused with a mark and its wait ran out, and attempts are left. The result is
      nil exactly when the last attempt succeeded, and otherwise keeps its error.
      One wait separates successive attempts, and there is one more exactly when the
      context ends the loop while another attempt is due. */
  lemma RetryTrace<T>(p: Policy, w: World<T>)
    ensures var r, q := Trace(p, w), Normalized(p);
      && r.runs <= (if p.maxAttempts < 1 then 1 else p.maxAttempts)
      && (forall k: nat | k >= 1 :: k <= r.runs <==> Reached(q, w, k))
      && (r.verdict.Returned? <==> r.runs >= 1 && w.reply(r.runs).Succeeded?)
      && (if r.runs == 0 then r.verdict == StoppedBefore else ExplainsVerdict(q, w, r))
      && (Interrupted(r.verdict) <==> exists k: nat :: ContextEnds(q, w, k))
      && |r.waits| == if Interrupted(r.verdict) then r.runs else if r.runs == 0 then 0 else r.runs - 1
  {
    var r, q := Trace(p, w), Normalized(p);
    AttemptsTrace(q, w, 1, None);
    AttemptsFollow(q, w, 1, None);
    forall k: nat ensures ContextEnds(q, w, k) <==> k == r.runs && Interrupted(r.verdict) {
      EndsAtLast(q, w, r, k);
    }
  }

  // ----- how long it waits -----

  function Sum(xs: seq<int>): int {
    if xs == [] then 0 else xs[0] + Sum(xs[1..])
  }

  lemma DrawBounds(draw: real, window: int)
    requires 0.0 <= draw < 1.0 && window > 0
    ensures 0 <= Drawn(draw, window) < window
  {
    assert 0.0 <= draw * window as real < window as real;
  }

  lemma {:induction false} Pow2Positive(n: nat)
    ensures Pow2(n) >= 1
  {
    if n > 0 { Pow2Positive(n - 1); }
  }

  lemma PositiveProduct(a: int, b: int)
    requires a > 0 && b >= 1
    ensures a * b > 0
  {
  }

  lemma DelayBounds(p: Policy, attempt: nat, hint: int, draw: real)
    requires Normal(p) && attempt >= 1 && 0.0 <= draw < 1.0
    ensures 0 <= Delay(p, attempt, hint, draw) <= p.max
    ensures hint <= 0 ==> Delay(p, attempt, hint, draw) <= p.base * Pow2(attempt - 1)
  {
    Pow2Positive(attempt - 1);
    PositiveProduct(p.base, Pow2(attempt - 1));
    DrawBounds(draw, Window(p, attempt));
  }

  /** The window is the base first, and doubles up to the ceiling. */
  lemma WindowDoubles(p: Policy, attempt: nat)
    requires attempt >= 1
    ensures var base := if p.base <= 0 then 500_000_000 else p.base;
      var max := if p.max <= 0 then 60_000_000_000 else p.max;
      && Window(Normalized(p), 1) == Least(base, max)
      && Window(Normalized(p), attempt + 1) == Least(2 * Window(Normalized(p), attempt), max)
      && Window(Normalized(p), attempt) > 0
  {
    var q := Normalized(p);
    assert Pow2(0) == 1 && Pow2(attempt) == 2 * Pow2(attempt - 1);
    Pow2Positive(attempt - 1);
    PositiveProduct(q.base, Pow2(attempt - 1));
    WaitStep(0, 0, q.base, Pow2(attempt - 1), 0);
  }

  lemma DrawFills(v: int, window: int)
    requires 0 <= v < window
    ensures var draw := v as real / window as real; 0.0 <= draw < 1.0 && Drawn(draw, window) == v
  {
    var draw := v as real / window as real;
    assert draw * window as real == v as real;
  }

  /** Every whole number below the window is drawn, each by an equal share of the draws,
      and no other. */
  lemma DrawsShare(window: int, v: int)
    requires window > 0
    ensures forall draw: real :: Drawn(draw, window) == v <==> v as real <= draw * window as real < v as real + 1.0
    ensures (exists draw: real :: 0.0 <= draw < 1.0 && Drawn(draw, window) == v) <==> 0 <= v < window
  {
    forall draw: real | 0.0 <= draw < 1.0 ensures 0 <= Drawn(draw, window) < window {
      DrawBounds(draw, window);
    }
    if 0 <= v < window {
      DrawFills(v, window);
    }
  }

  /** A hint is waited for, up to the ceiling; without one the wait is drawn from the
      window of the attempt. */
  lemma DelayExactly(p: Policy, attempt: nat, hint: int, draw: real)
    requires attempt >= 1
    ensures var max := if p.max <= 0 then 60_000_000_000 else p.max;
      Delay(Normalized(p), attempt, hint, draw)
      == if hint > max then max else if hint > 0 then hint else Drawn(draw, Window(Normalized(p), attempt))
  {
  }

  /** No refusal carries a server hint. */
  ghost predicate NoHints<T>(w: World<T>) {
    forall k: nat :: MarkedRefusal(w.reply(k)) ==> w.reply(k).error.mark.value <= 0
  }

  lemma WaitStep(n: int, max: int, base: int, low: int, high: int)
    ensures (n + 1) * max == n * max + max
    ensures base * (2 * low) == base * low + base * low
    ensures base * (high - low) == base * high - base * low
  {
  }

  /** The bounds on n waits from this attempt on. */
  ghost predicate WithinBounds(p: Policy, attempt: nat, sum: int, n: nat, hintless: bool)
    requires attempt >= 1
  {
    0 <= sum <= n * p.max && (hintless ==> sum <= p.base * (Pow2(attempt - 1 + n) - Pow2(attempt - 1)))
  }

  lemma NoWait(p: Policy, attempt: nat, hintless: bool)
    requires attempt >= 1
    ensures WithinBounds(p, attempt, 0, 0, hintless)
  {
    WaitStep(0, p.max, p.base, 0, 0);
  }

  lemma OneWaitMore(p: Policy, attempt: nat, d: int, sum: int, n: nat, hintless: bool)
    requires attempt >= 1 && WithinBounds(p, attempt + 1, sum, n, hintless)
    requires 0 <= d <= p.max && (hintless ==> d <= p.base * Pow2(attempt - 1))
    ensures WithinBounds(p, attempt, d + sum, n + 1, hintless)
  {
    var low := Pow2(attempt - 1);
    assert Pow2(attempt) == 2 * low;
    WaitStep(n, p.max, p.base, low, Pow2(attempt + n));
    WaitStep(0, p.max, p.base, 2 * low, Pow2(attempt + n));
  }

  lemma SumCons(d: int, waits: seq<int>)
    ensures Sum([d] + waits) == d + Sum(waits)
  {
    assert ([d] + waits)[1..] == waits;
  }

  lemma {:induction false} AttemptsWait<T>(p: Policy, w: World<T>, attempt: nat, last: Option<OpError>)
    requires Normal(p) && attempt >= 1 && DrawsInUnit(w)
    ensures var waits := Attempts(p, w, attempt, last).waits;
      WithinBounds(p, attempt, Sum(waits), |waits|, NoHints(w))
    decreases p.maxAttempts - attempt
  {
    NoWait(p, attempt, NoHints(w));
    if !w.cancelled(attempt) && MarkedRefusal(w.reply(attempt)) && attempt < p.maxAttempts {
      var e := w.reply(attempt).error;
      DelayBounds(p, attempt, e.mark.value, w.draw(attempt));
      var d := Delay(p, attempt, e.mark.value, w.draw(attempt));
      if d > 0 && !w.wakes(attempt) {
        NoWait(p, attempt + 1, NoHints(w));
        OneWaitMore(p, attempt, CutShort(d, w.slept(attempt)), 0, 0, NoHints(w));
        SumCons(CutShort(d, w.slept(attempt)), []);
      } else {
        var rest := Attempts(p, w, attempt + 1, Some(e));
        AttemptsWait(p, w, attempt + 1, Some(e));
        OneWaitMore(p, attempt, d, Sum(rest.waits), |rest.waits|, NoHints(w));
        SumCons(d, rest.waits);
      }
    }
  }

  /** A wait that is cut short takes what was slept of it, which is less than all. */
  lemma CutShortWithin(d: int, slept: int)
    requires d > 0
    ensures 0 <= CutShort(d, slept) < d
    ensures 0 <= slept < d ==> CutShort(d, slept) == slept
  {
  }

  /** The time the wait after attempt j takes: cut short unless it runs to its end. */
  function Slept<T>(p: Policy, w: World<T>, j: nat): int
    requires j >= 1
  {
    var d := WaitAt(p, w, j);
    if d > 0 && !w.wakes(j) then CutShort(d, w.slept(j)) else d
  }

  /** The time the waits after attempts 1 to k take. */
  function TotalDelay<T>(p: Policy, w: World<T>, k: nat): int {
    if k == 0 then 0 else TotalDelay(p, w, k - 1) + Slept(p, w, k)
  }

  lemma {:induction false} WaitsAdd<T>(p: Policy, w: World<T>, attempt: nat, last: Option<OpError>)
    requires attempt >= 1
    ensures var waits := Attempts(p, w, attempt, last).waits;
      Sum(waits) == TotalDelay(p, w, attempt - 1 + |waits|) - TotalDelay(p, w, attempt - 1)
    decreases p.maxAttempts - attempt
  {
    var r := Attempts(p, w, attempt, last);
    if !w.cancelled(attempt) && MarkedRefusal(w.reply(attempt)) && attempt < p.maxAttempts {
      var e, d := w.reply(attempt).error, WaitAt(p, w, attempt);
      if GoesOn(p, w, attempt) {
        WaitsAdd(p, w, attempt + 1, Some(e));
        var rest := Attempts(p, w, attempt + 1, Some(e));
        assert r.waits == [d] + rest.waits && r.waits[1..] == rest.waits;
      } else {
        assert r.waits == [Slept(p, w, attempt)] && Sum(r.waits) == r.waits[0] + Sum([]);
      }
    }
  }

  /** The waits of a loop take what the world makes of them, full waits in full and one
      that the context cuts short as long as was slept; each takes at most Max, and k
      of them at most Base * (2^k - 1) without hints. */
  lemma TotalWait<T>(p: Policy, w: World<T>)
    requires DrawsInUnit(w)
    ensures var r, q := Trace(p, w), Normalized(p); var k := |r.waits|;
      && Sum(r.waits) == TotalDelay(q, w, k)
      && 0 <= Sum(r.waits) <= k * q.max
      && (NoHints(w) ==> Sum(r.waits) <= q.base * (Pow2(k) - 1))
  {
    AttemptsWait(Normalized(p), w, 1, None);
    WaitsAdd(Normalized(p), w, 1, None);
  }

  /** The context ends the loop after k attempts, and the k waits took longer. */
  ghost predicate EndsBeyond<T>(q: Policy, w: World<T>, k: nat, bound: nat -> int) {
    ContextEnds(q, w, k) && TotalDelay(q, w, k) > bound(k)
  }

  /** A bound that the waits between n attempts keep is exceeded exactly when the
      context ends the loop after some attempt k and the first k waits exceed it. */
  lemma ExceededAtEnd<T>(p: Policy, w: World<T>, bound: nat -> int)
    requires DrawsInUnit(w) && Trace(p, w).runs >= 1
    requires !Interrupted(Trace(p, w).verdict) ==> Sum(Trace(p, w).waits) <= bound(Trace(p, w).runs)
    ensures Sum(Trace(p, w).waits) > bound(Trace(p, w).runs)
        <==> exists k: nat :: EndsBeyond(Normalized(p), w, k, bound)
  {
    var r, q := Trace(p, w), Normalized(p);
    TotalWait(p, w);
    RetryTrace(p, w);
    AttemptsFollow(q, w, 1, None);
    EndsAtLast(q, w, r, r.runs);
    if Sum(r.waits) > bound(r.runs) {
      assert EndsBeyond(q, w, r.runs, bound);
    }
    forall k: nat | EndsBeyond(q, w, k, bound) ensures Sum(r.waits) > bound(r.runs) {
      EndsAtLast(q, w, r, k);
    }
  }

  /** The bounds for n attempts, (n - 1) * Max and, without hints,
      Base * (2^(n-1) - 1), are exceeded exactly in the worlds where the context ends
      the loop after some attempt k and the first k waits, the last of them perhaps cut
      short, took longer. */
  lemma BoundExceeded<T>(p: Policy, w: World<T>)
    requires DrawsInUnit(w) && Trace(p, w).runs >= 1
    ensures var r, q := Trace(p, w), Normalized(p); var bound := (n: nat) => (n - 1) * q.max;
      Sum(r.waits) > bound(r.runs) <==> exists k: nat :: EndsBeyond(q, w, k, bound)
    ensures NoHints(w) ==>
      var r, q := Trace(p, w), Normalized(p);
      var bound := (n: nat) => if n == 0 then 0 else q.base * (Pow2(n - 1) - 1);
      Sum(r.waits) > bound(r.runs) <==> exists k: nat :: EndsBeyond(q, w, k, bound)
  {
    var q := Normalized(p);
    TotalWait(p, w);
    RetryTrace(p, w);
    ExceededAtEnd(p, w, (n: nat) => (n - 1) * q.max);
    if NoHints(w) {
      ExceededAtEnd(p, w, (n: nat) => if n == 0 then 0 else q.base * (Pow2(n - 1) - 1));
    }
  }

  /** Every attempt is refused with this hint, and the context ends after n waits. */
  function Hinted(n: nat, hint: int): World<nat> {
    World((k: nat) => k == n + 1, (k: nat) => Refused(OpError("429", Some(hint))), (k: nat) => true,
          (k: nat) => 0, (k: nat) => 0.0)
  }

  lemma {:induction false} HintedAttempts(p: Policy, n: nat, attempt: nat, last: Option<OpError>)
    requires Normal(p) && 1 <= attempt <= n + 1 <= p.maxAttempts
    requires attempt == n + 1 ==> last.Some?
    ensures var r := Attempts(p, Hinted(n, p.max), attempt, last);
      r.runs == n && r.verdict.StoppedAfter? && Sum(r.waits) == (n + 1 - attempt) * p.max
    decreases n + 1 - attempt
  {
    var w := Hinted(n, p.max);
    var e := OpError("429", Some(p.max));
    if attempt <= n {
      HintedAttempts(p, n, attempt + 1, Some(e));
      var rest := Attempts(p, w, attempt + 1, Some(e));
      var r := Attempts(p, w, attempt, last);
      assert w.reply(attempt) == Refused(e) && !w.cancelled(attempt);
      assert r.waits == [p.max] + rest.waits && r.waits[1..] == rest.waits;
      WaitStep(n - attempt, p.max, 0, 0, 0);
    }
  }

  /** Such worlds exist for every policy and every n short of its attempts: some loop
      that the context ends after n attempts waits n * Max. */
  lemma InterruptedWaitsLonger(p: Policy, n: nat)
    requires 1 <= n < Normalized(p).maxAttempts
    ensures var w, q := Hinted(n, Normalized(p).max), Normalized(p);
      var r := Trace(p, w);
      && DrawsInUnit(w) && r.runs == n && Interrupted(r.verdict)
      && Sum(r.waits) == n * q.max > (n - 1) * q.max
  {
    var q := Normalized(p);
    HintedAttempts(q, n, 1, None);
    WaitStep(n - 1, q.max, 0, 0, 0);
  }
}
