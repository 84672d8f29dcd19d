/** The embedding provider with its retries, its rate limit and its batching,
    embed/middleware.go. */
module Embedding {
  import opened Arithmetic
  import opened Outcome
  import opened Text
  import opened Database
  import opened Retry
  import opened Spaces

  /** A provider and the world it runs in: what the remote end answers to the k-th
      attempt of a logical call, and what the retry loop of that call meets. Calls
      are counted from 0 over the life of the provider, attempts from 1; each call has
      a context of its own. */
  datatype Remote = Remote(
    space: Space, maxBatch: int, policy: Policy,
    answer: (nat, nat, seq<string>, Kind) -> Reply<seq<Vector>>,
    cancelled: (nat, nat) -> bool, wakes: (nat, nat) -> bool, slept: (nat, nat) -> int, draw: (nat, nat) -> real)

  datatype EmbedError = CallFailed | WrongCount(got: nat, want: nat)

  // ----- one call with retries -----

  /** The world of the retry loop of one call. */
  function WorldAt(r: Remote, call: nat, texts: seq<string>, kind: Kind): World<seq<Vector>> {
    World((k: nat) => r.cancelled(call, k), (k: nat) => r.answer(call, k, texts, kind),
          (k: nat) => r.wakes(call, k), (k: nat) => r.slept(call, k), (k: nat) => r.draw(call, k))
  }

  function Call(r: Remote, call: nat, texts: seq<string>, kind: Kind): Report<seq<Vector>> {
    Trace(r.policy, WorldAt(r, call, texts, kind))
  }

  /** What the provider is asked and answers over time. */
  class Provider {
    const remote: Remote
    var made: nat                   // raw attempts
    var calls: seq<seq<string>>     // the texts of each logical call

    constructor (remote: Remote)
      ensures this.remote == remote && made == 0 && calls == []
    {
      this.remote := remote;
      made, calls := 0, [];
    }

    /** retryProvider.Embed */
    method Embed(texts: seq<string>, kind: Kind) returns (r: Result<seq<Vector>, EmbedError>)
      modifies this
      ensures var report := Call(remote, |old(calls)|, texts, kind);
        && made == old(made) + report.runs && calls == old(calls) + [texts]
        && r == if report.verdict.Returned? then Ok(report.verdict.value) else Err(CallFailed)
    {
      var report := Do(remote.policy, WorldAt(remote, |calls|, texts, kind));
      made := made + report.runs;
      calls := calls + [texts];
      if report.verdict.Returned? {
        return Ok(report.verdict.value);
      }
      return Err(CallFailed);
    }
  }

  /** A call makes its k-th attempt exactly when the retry policy lets it get there,
      and a successful one returns what the remote end answered to its last. */
  lemma CallAnswer(r: Remote, call: nat, texts: seq<string>, kind: Kind)
    ensures var report, w, q := Call(r, call, texts, kind), WorldAt(r, call, texts, kind), Normalized(r.policy);
      && report.runs <= q.maxAttempts
      && (forall k: nat | k >= 1 :: k <= report.runs <==> Reached(q, w, k))
      && (report.verdict.Returned? <==> report.runs >= 1 && r.answer(call, report.runs, texts, kind).Succeeded?)
      && (report.verdict.Returned?
          ==> r.answer(call, report.runs, texts, kind) == Succeeded(report.verdict.value))
  {
    RetryTrace(r.policy, WorldAt(r, call, texts, kind));
  }

  /** The retry loop of this call ends with an answer. */
  predicate Replies(r: Remote, call: nat, texts: seq<string>) {
    Call(r, call, texts, Document).verdict.Returned?
  }

  /** The raw attempts of these calls, the first of them being call number `first`. */
  function RawAttempts(r: Remote, first: nat, sent: seq<seq<string>>): nat {
    if sent == [] then 0
    else
      var k := |sent| - 1;
      RawAttempts(r, first, sent[..k]) + Call(r, first + k, sent[k], Document).runs
  }

  lemma AttemptsNext(r: Remote, first: nat, sent: seq<seq<string>>, texts: seq<string>)
    ensures RawAttempts(r, first, sent + [texts])
         == RawAttempts(r, first, sent) + Call(r, first + |sent|, texts, Document).runs
  {
    assert (sent + [texts])[..|sent|] == sent;
  }

  /** Each call makes at most MaxAttempts raw attempts. */
  lemma {:induction false} AttemptsBound(r: Remote, first: nat, sent: seq<seq<string>>)
    ensures RawAttempts(r, first, sent) <= |sent| * Normalized(r.policy).maxAttempts
  {
    if sent != [] {
      var k := |sent| - 1;
      AttemptsBound(r, first, sent[..k]);
      CallAnswer(r, first + k, sent[k], Document);
      OneMore(k, Normalized(r.policy).maxAttempts);
    }
  }

  /** From this call on, every call ends with an answer. */
  ghost predicate AnswersFrom(r: Remote, first: nat) {
    forall call: nat, texts | call >= first :: Replies(r, call, texts)
  }

  // ----- the rate limiter -----

  /** The limiter around the retries. `grants` says of each wait for a token whether
      it ends with one. */
  class Limited {
    const next: Provider
    const grants: nat -> bool
    var asked: nat
    var tokens: nat

    /** One token was taken for each logical call. */
    ghost predicate TokenACall()
      reads this, next
    {
      tokens == |next.calls|
    }

    constructor (next: Provider, grants: nat -> bool)
      requires next.calls == []
      ensures this.next == next && this.grants == grants && TokenACall()
    {
      this.next, this.grants := next, grants;
      asked, tokens := 0, 0;
    }

    /** limitedProvider.Embed: attempts inside the call take no further token. */
    method Embed(texts: seq<string>, kind: Kind) returns (r: Result<seq<Vector>, EmbedError>)
      requires TokenACall()
      modifies this, next
      ensures TokenACall()
      ensures var granted := texts != [] && grants(old(asked));
        var report := Call(next.remote, |old(next.calls)|, texts, kind);
        && tokens == old(tokens) + (if granted then 1 else 0)
        && next.calls == old(next.calls) + (if granted then [texts] else [])
        && next.made == old(next.made) + (if granted then report.runs else 0)
        && r == if texts == [] then Ok([])
                else if granted && report.verdict.Returned? then Ok(report.verdict.value) else Err(CallFailed)
    {
      assert next.calls + [] == next.calls;
      if |texts| == 0 {
        return Ok([]);
      }
      var granted := grants(asked);
      asked := asked + 1;
      if !granted {
        return Err(CallFailed);
      }
      tokens := tokens + 1;
      r := next.Embed(texts, kind);
    }
  }

  /** A call makes more attempts than the one token it took exactly when its first
      attempt was refused with a mark, its wait ran out, and attempts were left. */
  lemma AttemptsBeyondToken(r: Remote, call: nat, texts: seq<string>, kind: Kind)
    ensures var w, q := WorldAt(r, call, texts, kind), Normalized(r.policy);
      Call(r, call, texts, kind).runs > 1
      <==> q.maxAttempts >= 2 && !w.cancelled(1) && GoesOn(q, w, 1) && !w.cancelled(2)
  {
    CallAnswer(r, call, texts, kind);
    assert 2 <= Call(r, call, texts, kind).runs
      <==> Reached(Normalized(r.policy), WorldAt(r, call, texts, kind), 2);
  }

  // ----- batching -----

  function BatchSize(r: Remote): nat {
    if r.maxBatch < 1 then 1 else r.maxBatch
  }

  /** The texts, cut into pieces of at most `size`. */
  function Pieces(texts: seq<string>, size: nat): seq<seq<string>>
    requires size > 0
  {
    if texts == [] then []
    else
      var k := Least(size, |texts|);
      [texts[..k]] + Pieces(texts[k..], size)
  }

  datatype Batch = Batch(result: Result<seq<Vector>, EmbedError>, attempts: nat, calls: seq<seq<string>>)

  /** One call per piece, from call number `call` on, until one fails or returns the
      wrong number of vectors. */
  function CallPieces(r: Remote, call: nat, pieces: seq<seq<string>>, kind: Kind): Batch
    decreases |pieces|
  {
    if pieces == [] then Batch(Ok([]), 0, [])
    else
      var report := Call(r, call, pieces[0], kind);
      if !report.verdict.Returned? then Batch(Err(CallFailed), report.runs, [pieces[0]])
      else if |report.verdict.value| != |pieces[0]| then
        Batch(Err(WrongCount(|report.verdict.value|, |pieces[0]|)), report.runs, [pieces[0]])
      else
        var rest := CallPieces(r, call + 1, pieces[1..], kind);
        Batch(if rest.result.Ok? then Ok(report.verdict.value + rest.result.value) else rest.result,
              report.runs + rest.attempts, [pieces[0]] + rest.calls)
  }

  /** No call is empty or has more texts than the provider takes. */
  predicate WithinLimit(maxBatch: int, calls: seq<seq<string>>) {
    forall i | 0 <= i < |calls| ::
      |calls[i]| >= 1 && (maxBatch >= 1 ==> |calls[i]| <= maxBatch) && (maxBatch < 1 ==> |calls[i]| == 1)
  }

  /** Every call before the last has as many texts as the provider takes. */
  predicate FullBeforeLast(maxBatch: int, calls: seq<seq<string>>) {
    forall i | 0 <= i < |calls| - 1 :: maxBatch >= 1 ==> |calls[i]| == maxBatch
  }

  method Batched(p: Provider, texts: seq<string>, kind: Kind) returns (r: Result<seq<Vector>, EmbedError>)
    modifies p
    ensures var b := CallPieces(p.remote, |old(p.calls)|, Pieces(texts, BatchSize(p.remote)), kind);
      && r == b.result && p.made == old(p.made) + b.attempts && p.calls == old(p.calls) + b.calls
      && WithinLimit(p.remote.maxBatch, b.calls) && FullBeforeLast(p.remote.maxBatch, b.calls)
  {
    PiecesWithin(p.remote, |p.calls|, texts, kind);
    ghost var made0, calls0 := p.made, p.calls;
    if |texts| == 0 {
      assert p.calls + [] == p.calls;
      return Ok([]);
    }
    var size := p.remote.maxBatch;
    if size < 1 {
      size := 1;
    }
    var out: seq<Vector> := [];
    var start := 0;
    ghost var goal := Onward(p.remote, Pieces(texts, size), kind, [], made0, calls0);
    OnwardStart(p.remote, Pieces(texts, size), kind, made0, calls0);
    assert texts[0..] == texts;
    while start < |texts|
      invariant 0 <= start <= |texts|
      invariant Onward(p.remote, Pieces(texts[start..], size), kind, out, p.made, p.calls) == goal
      decreases |texts| - start
    {
      var end := if start + size < |texts| then start + size else |texts|;
      OnwardPart(p.remote, texts, start, end, size, kind, out, p.made, p.calls);
      var part := p.Embed(texts[start..end], kind);
      if part.Err? {
        return Err(CallFailed);
      }
      if |part.value| != end - start {
        return Err(WrongCount(|part.value|, end - start));
      }
      out := out + part.value;
      start := end;
    }
    OnwardEnd(p.remote, kind, out, p.made, p.calls);
    return Ok(out);
  }

  lemma PieceAt(texts: seq<string>, start: nat, end: nat, size: nat)
    requires size > 0 && start < |texts| && end == Least(start + size, |texts|)
    ensures var pieces := Pieces(texts[start..], size);
      pieces != [] && pieces[0] == texts[start..end] && pieces[1..] == Pieces(texts[end..], size)
  {
    assert texts[start..][..end - start] == texts[start..end];
    assert texts[start..][end - start..] == texts[end..];
  }

  /** The outcome of the remaining pieces, after some were answered and `made` attempts
      and the calls `sent` were made in all. */
  function Onward(r: Remote, pieces: seq<seq<string>>, kind: Kind,
                  out: seq<Vector>, made: nat, sent: seq<seq<string>>): Batch
  {
    var b := CallPieces(r, |sent|, pieces, kind);
    Batch(if b.result.Ok? then Ok(out + b.result.value) else b.result, made + b.attempts, sent + b.calls)
  }

  lemma OnwardStart(r: Remote, pieces: seq<seq<string>>, kind: Kind, made: nat, sent: seq<seq<string>>)
    ensures var b := CallPieces(r, |sent|, pieces, kind);
      Onward(r, pieces, kind, [], made, sent) == Batch(b.result, made + b.attempts, sent + b.calls)
  {
    var b := CallPieces(r, |sent|, pieces, kind);
    if b.result.Ok? {
      assert [] + b.result.value == b.result.value;
    }
  }

  lemma OnwardEnd(r: Remote, kind: Kind, out: seq<Vector>, made: nat, sent: seq<seq<string>>)
    ensures Onward(r, [], kind, out, made, sent) == Batch(Ok(out), made, sent)
  {
    assert out + [] == out && sent + [] == sent;
  }

  lemma OnwardStep(r: Remote, pieces: seq<seq<string>>, kind: Kind,
                   out: seq<Vector>, made: nat, sent: seq<seq<string>>)
    requires pieces != []
    ensures var report := Call(r, |sent|, pieces[0], kind);
      Onward(r, pieces, kind, out, made, sent)
      == if !report.verdict.Returned? then Batch(Err(CallFailed), made + report.runs, sent + [pieces[0]])
         else if |report.verdict.value| != |pieces[0]| then
           Batch(Err(WrongCount(|report.verdict.value|, |pieces[0]|)), made + report.runs, sent + [pieces[0]])
         else Onward(r, pieces[1..], kind, out + report.verdict.value, made + report.runs, sent + [pieces[0]])
  {
    var report := Call(r, |sent|, pieces[0], kind);
    if report.verdict.Returned? && |report.verdict.value| == |pieces[0]| {
      var rest := CallPieces(r, |sent| + 1, pieces[1..], kind);
      Assoc(sent, [pieces[0]], rest.calls);
      if rest.result.Ok? {
        Assoc(out, report.verdict.value, rest.result.value);
      }
    }
  }

  /** One turn of the loop over the texts. */
  lemma OnwardPart(r: Remote, texts: seq<string>, start: nat, end: nat, size: nat, kind: Kind,
                   out: seq<Vector>, made: nat, sent: seq<seq<string>>)
    requires size > 0 && start < |texts| && end == Least(start + size, |texts|)
    ensures var part := texts[start..end]; var report := Call(r, |sent|, part, kind);
      Onward(r, Pieces(texts[start..], size), kind, out, made, sent)
      == if !report.verdict.Returned? then Batch(Err(CallFailed), made + report.runs, sent + [part])
         else if |report.verdict.value| != end - start then
           Batch(Err(WrongCount(|report.verdict.value|, end - start)), made + report.runs, sent + [part])
         else Onward(r, Pieces(texts[end..], size), kind, out + report.verdict.value, made + report.runs, sent + [part])
  {
    PieceAt(texts, start, end, size);
    OnwardStep(r, Pieces(texts[start..], size), kind, out, made, sent);
  }

  // ----- batching refines the unbatched map -----

  /** Whenever the remote end answers, it embeds each text by the model. */
  ghost predicate Pointwise(r: Remote, model: (Space, Kind, string) -> Vector) {
    forall call: nat, k: nat, texts, kind :: r.answer(call, k, texts, kind).Succeeded?
      ==> r.answer(call, k, texts, kind).value == Embeddings(model, r.space, kind, texts)
  }

  lemma {:induction false} PiecesShape(texts: seq<string>, size: nat)
    requires size > 0
    ensures Flatten(Pieces(texts, size)) == texts
    ensures forall i | 0 <= i < |Pieces(texts, size)| :: 1 <= |Pieces(texts, size)[i]| <= size
    ensures 1 <= |texts| <= size ==> Pieces(texts, size) == [texts]
  {
    if texts != [] {
      var k := Least(size, |texts|);
      PiecesShape(texts[k..], size);
      assert texts == texts[..k] + texts[k..];
      if |texts| <= size {
        assert texts[k..] == [] && texts[..k] == texts;
      }
    }
  }

  lemma EmbeddingsAppend(model: (Space, Kind, string) -> Vector, s: Space, kind: Kind, a: seq<string>, b: seq<string>)
    ensures Embeddings(model, s, kind, a + b) == Embeddings(model, s, kind, a) + Embeddings(model, s, kind, b)
  {
  }

  lemma {:induction false} PiecesMapped(r: Remote, call: nat, pieces: seq<seq<string>>, kind: Kind,
                                        model: (Space, Kind, string) -> Vector)
    requires Pointwise(r, model) && CallPieces(r, call, pieces, kind).result.Ok?
    ensures CallPieces(r, call, pieces, kind).result.value == Embeddings(model, r.space, kind, Flatten(pieces))
    ensures CallPieces(r, call, pieces, kind).calls == pieces
    decreases |pieces|
  {
    if pieces != [] {
      CallAnswer(r, call, pieces[0], kind);
      PiecesMapped(r, call + 1, pieces[1..], kind, model);
      assert pieces == [pieces[0]] + pieces[1..];
      EmbeddingsAppend(model, r.space, kind, pieces[0], Flatten(pieces[1..]));
    }
  }

  lemma {:induction false} CallsPrefix(r: Remote, call: nat, pieces: seq<seq<string>>, kind: Kind)
    ensures CallPieces(r, call, pieces, kind).calls <= pieces
    decreases |pieces|
  {
    if pieces != [] {
      CallsPrefix(r, call + 1, pieces[1..], kind);
      assert pieces == [pieces[0]] + pieces[1..];
    }
  }

  predicate AllFull(pieces: seq<seq<string>>, size: nat) {
    forall i | 0 <= i < |pieces| - 1 :: |pieces[i]| == size
  }

  lemma {:induction false} PiecesFull(texts: seq<string>, size: nat)
    requires size > 0
    ensures AllFull(Pieces(texts, size), size)
  {
    if |texts| > size {
      var rest := Pieces(texts[size..], size);
      PiecesFull(texts[size..], size);
      assert forall i | 0 < i <= |rest| :: ([texts[..size]] + rest)[i] == rest[i - 1];
    }
  }

  /** The calls for a list of texts keep the limit of the provider, and use it up. */
  lemma PiecesWithin(r: Remote, call: nat, texts: seq<string>, kind: Kind)
    ensures var calls := CallPieces(r, call, Pieces(texts, BatchSize(r)), kind).calls;
      WithinLimit(r.maxBatch, calls) && FullBeforeLast(r.maxBatch, calls)
  {
    var pieces := Pieces(texts, BatchSize(r));
    PiecesShape(texts, BatchSize(r));
    PiecesFull(texts, BatchSize(r));
    CallsPrefix(r, call, pieces, kind);
    var calls := CallPieces(r, call, pieces, kind).calls;
    assert forall i | 0 <= i < |calls| :: calls[i] == pieces[i];
  }

  /** The call returns a vector for each of its texts. */
  predicate Answered(r: Remote, call: nat, texts: seq<string>, kind: Kind) {
    var v := Call(r, call, texts, kind).verdict;
    v.Returned? && |v.value| == |texts|
  }

  function Complaint(r: Remote, call: nat, texts: seq<string>, kind: Kind): EmbedError {
    var v := Call(r, call, texts, kind).verdict;
    if v.Returned? then WrongCount(|v.value|, |texts|) else CallFailed
  }

  /** Every call was answered, or every one but the last, which says why. */
  predicate EndsAs(r: Remote, call: nat, kind: Kind, b: Batch) {
    var n := |b.calls|;
    && (forall i | 0 <= i < n - 1 :: Answered(r, call + i, b.calls[i], kind))
    && (b.result.Ok? && n > 0 ==> Answered(r, call + n - 1, b.calls[n - 1], kind))
    && (b.result.Err? ==> n > 0 && !Answered(r, call + n - 1, b.calls[n - 1], kind)
                          && b.result.error == Complaint(r, call + n - 1, b.calls[n - 1], kind))
  }

  lemma EndsCons(r: Remote, call: nat, kind: Kind, piece: seq<string>, rest: Batch, b: Batch)
    requires EndsAs(r, call + 1, kind, rest) && Answered(r, call, piece, kind)
    requires b.calls == [piece] + rest.calls && (b.result.Ok? <==> rest.result.Ok?)
    requires b.result.Err? ==> b.result == rest.result
    ensures EndsAs(r, call, kind, b)
  {
    forall i | 0 <= i < |b.calls| - 1 ensures Answered(r, call + i, b.calls[i], kind) {
      if i > 0 {
        assert b.calls[i] == rest.calls[i - 1] && call + i == call + 1 + (i - 1);
      }
    }
  }

  /** Batched succeeds when every call returned a vector for each of its texts, and
      otherwise ends with the first call that did not, and its complaint. */
  lemma {:induction false} PiecesEnd(r: Remote, call: nat, pieces: seq<seq<string>>, kind: Kind)
    ensures EndsAs(r, call, kind, CallPieces(r, call, pieces, kind))
    decreases |pieces|
  {
    if pieces != [] && Answered(r, call, pieces[0], kind) {
      PiecesEnd(r, call + 1, pieces[1..], kind);
      EndsCons(r, call, kind, pieces[0], CallPieces(r, call + 1, pieces[1..], kind), CallPieces(r, call, pieces, kind));
    }
  }

  lemma {:induction false} CallsBound(r: Remote, call: nat, pieces: seq<seq<string>>, kind: Kind)
    ensures var b := CallPieces(r, call, pieces, kind); b.attempts <= |b.calls| * Normalized(r.policy).maxAttempts
    decreases |pieces|
  {
    if pieces != [] {
      var n := Normalized(r.policy).maxAttempts;
      CallAnswer(r, call, pieces[0], kind);
      CallsBound(r, call + 1, pieces[1..], kind);
      OneMore(|CallPieces(r, call + 1, pieces[1..], kind).calls|, n);
      OneMore(0, n);
    }
  }

  /** Batched refines the unbatched map, for any MaxBatch: a success returns each
      text's embedding in order, from calls whose texts concatenate to the input. */
  lemma BatchedIsMap(r: Remote, call: nat, texts: seq<string>, kind: Kind, model: (Space, Kind, string) -> Vector)
    requires Pointwise(r, model)
    ensures var b := CallPieces(r, call, Pieces(texts, BatchSize(r)), kind);
      && (b.result.Ok? ==> b.result.value == Embeddings(model, r.space, kind, texts) && Flatten(b.calls) == texts)
      && b.calls <= Pieces(texts, BatchSize(r))
      && (forall i | 0 <= i < |b.calls| :: 1 <= |b.calls[i]| <= BatchSize(r))
      && b.attempts <= |b.calls| * Normalized(r.policy).maxAttempts
  {
    var pieces := Pieces(texts, BatchSize(r));
    PiecesShape(texts, BatchSize(r));
    CallsPrefix(r, call, pieces, kind);
    CallsBound(r, call, pieces, kind);
    var b := CallPieces(r, call, pieces, kind);
    assert forall i | 0 <= i < |b.calls| :: b.calls[i] == pieces[i];
    if b.result.Ok? {
      PiecesMapped(r, call, pieces, kind, model);
    }
  }

  /** A batch that fits is a single logical call. */
  lemma SmallBatchIsOneCall(r: Remote, call: nat, texts: seq<string>, kind: Kind)
    requires 1 <= |texts| <= BatchSize(r)
    ensures var b, report := CallPieces(r, call, Pieces(texts, BatchSize(r)), kind), Call(r, call, texts, kind);
      && b.calls == [texts] && b.attempts == report.runs
      && (b.result.Ok? <==> report.verdict.Returned? && |report.verdict.value| == |texts|)
  {
    PiecesShape(texts, BatchSize(r));
    assert [texts][1..] == [] && [texts] + [] == [texts];
  }
}
