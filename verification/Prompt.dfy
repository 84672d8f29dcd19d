/** The prompt budget and the source list, rag/prompt.go, and how hits flow into
    them in Knowledge.Ask. */
module Prompt {
  import opened Text

  datatype Passage = Passage(source: string, title: string, index: nat, text: string)

  const DEFAULT_MAX_CONTEXT_RUNES := 12000

  const INTRO := "Фрагменты из базы знаний:\n\n"
  const NOTHING := "(ничего не найдено)\n\n"
  const QUESTION := "Вопрос: "

  function Ref(p: Passage): string {
    p.source + " #" + Decimal(p.index)
  }

  function Heading(p: Passage): string {
    if p.title == "" then Ref(p) else p.title + " — " + Ref(p)
  }

  /** Passage number i of the prompt, counting from 0. */
  function Block(p: Passage, i: nat): string {
    "[" + Decimal(i + 1) + "] " + Heading(p) + "\n" + TrimSpace(p.text) + "\n\n"
  }

  function BlocksBy(block: (Passage, nat) -> string, passages: seq<Passage>): string {
    if passages == [] then ""
    else BlocksBy(block, passages[..|passages| - 1]) + block(passages[|passages| - 1], |passages| - 1)
  }

  function Blocks(passages: seq<Passage>): string {
    BlocksBy(Block, passages)
  }

  /** The prompt that shows exactly these passages. */
  function Shows(question: string, passages: seq<Passage>): string {
    INTRO + Blocks(passages) + (if passages == [] then NOTHING else "") + QUESTION + TrimSpace(question)
  }

  function Price(p: Passage): nat {
    |TrimSpace(p.text)|
  }

  function Total(passages: seq<Passage>): nat {
    if passages == [] then 0 else Total(passages[..|passages| - 1]) + Price(passages[|passages| - 1])
  }

  function Budget(max: int): nat {
    if max <= 0 then DEFAULT_MAX_CONTEXT_RUNES else max
  }

  /** A prefix may be shown when it fits the budget or is a single passage. */
  predicate Affordable(passages: seq<Passage>, k: nat, max: int)
    requires k <= |passages|
  {
    k <= 1 || Total(passages[..k]) <= Budget(max)
  }

  /** How many passages go in, when the first k already did. */
  function ShownFrom(passages: seq<Passage>, k: nat, max: int): nat
    requires k <= |passages|
    decreases |passages| - k
  {
    if k < |passages| && Affordable(passages, k + 1, max) then ShownFrom(passages, k + 1, max) else k
  }

  lemma {:induction false} ShownBound(passages: seq<Passage>, k: nat, max: int)
    requires k <= |passages|
    ensures k <= ShownFrom(passages, k, max) <= |passages|
    decreases |passages| - k
  {
    if k < |passages| && Affordable(passages, k + 1, max) {
      ShownBound(passages, k + 1, max);
    }
  }

  function ShownCount(passages: seq<Passage>, max: int): (n: nat)
    ensures n <= |passages|
  {
    ShownBound(passages, 0, max);
    ShownFrom(passages, 0, max)
  }

  function Shown(passages: seq<Passage>, max: int): seq<Passage> {
    passages[..ShownCount(passages, max)]
  }

  method BuildUserPrompt(question: string, passages: seq<Passage>, maxContextRunes: int) returns (prompt: string)
    ensures prompt == Shows(question, Shown(passages, maxContextRunes))
  {
    var max := maxContextRunes;
    if max <= 0 {
      max := DEFAULT_MAX_CONTEXT_RUNES;
    }
    var b := INTRO;
    var used := 0;
    var included := 0;
    var i := 0;
    while i < |passages|
      invariant 0 <= i <= |passages| && included == i
      invariant used == Total(passages[..i]) && b == INTRO + Blocks(passages[..i])
      invariant ShownFrom(passages, i, maxContextRunes) == ShownFrom(passages, 0, maxContextRunes)
    {
      var p := passages[i];
      var text := TrimSpace(p.text);
      var cost := |text|;
      assert passages[..i + 1][..i] == passages[..i];
      assert Total(passages[..i + 1]) == used + cost;
      if included > 0 && used + cost > max {
        break;
      }
      var header := Ref(p);
      if p.title != "" {
        header := p.title + " — " + Ref(p);
      }
      Assoc(INTRO, Blocks(passages[..i]), Block(p, i));
      b := b + ("[" + Decimal(i + 1) + "] " + header + "\n" + text + "\n\n");
      used := used + cost;
      included := included + 1;
      i := i + 1;
    }
    if included == 0 {
      b := b + NOTHING;
    }
    assert included > 0 ==> b + "" == b;
    prompt := b + QUESTION + TrimSpace(question);
  }

  lemma {:induction false} ShownStops(passages: seq<Passage>, k: nat, max: int)
    requires k <= |passages|
    ensures var n := ShownFrom(passages, k, max);
      && n <= |passages| && (n < |passages| ==> !Affordable(passages, n + 1, max))
      && (n == k || Affordable(passages, n, max))
    decreases |passages| - k
  {
    if k < |passages| {
      var go := Affordable(passages, k + 1, max);
      if go {
        ShownStops(passages, k + 1, max);
      }
    }
  }

  /** The prompt shows exactly the longest affordable prefix: the first passage
      always, and more as long as the total is within the budget. */
  lemma ShownLongest(passages: seq<Passage>, max: int)
    ensures var n := ShownCount(passages, max);
      && (passages != [] ==> n >= 1) && Affordable(passages, n, max)
      && forall k | n < k <= |passages| :: !Affordable(passages, k, max)
  {
    ShownStops(passages, 0, max);
    LongestPrefix(passages, ShownCount(passages, max), max);
  }

  function TrimmedTexts(passages: seq<Passage>): seq<string> {
    seq(|passages|, i requires 0 <= i < |passages| => TrimSpace(passages[i].text))
  }

  lemma {:induction false} TotalIsLength(passages: seq<Passage>)
    ensures Total(passages) == |Concat(TrimmedTexts(passages))|
  {
    if passages != [] {
      var n := |passages| - 1;
      TotalIsLength(passages[..n]);
      ConcatAppend(TrimmedTexts(passages[..n]), [TrimSpace(passages[n].text)]);
      FlattenOne(TrimSpace(passages[n].text));
      assert TrimmedTexts(passages) == TrimmedTexts(passages[..n]) + [TrimSpace(passages[n].text)];
    }
  }

  /** The trimmed texts shown are at most the budget long, unless only one is, and with
      the next one they would be longer. */
  lemma ShownWithinBudget(passages: seq<Passage>, max: int)
    ensures var n, budget := |Shown(passages, max)|, if max <= 0 then 12000 else max;
      && (n > 1 ==> |Concat(TrimmedTexts(passages[..n]))| <= budget)
      && (n < |passages| ==> n >= 1 && |Concat(TrimmedTexts(passages[..n + 1]))| > budget)
  {
    var n := ShownCount(passages, max);
    ShownLongest(passages, max);
    AffordableLength(passages, n, max);
    if n < |passages| {
      AffordableLength(passages, n + 1, max);
    }
  }

  lemma AffordableLength(passages: seq<Passage>, k: nat, max: int)
    requires k <= |passages|
    ensures Affordable(passages, k, max)
       <==> k <= 1 || |Concat(TrimmedTexts(passages[..k]))| <= if max <= 0 then 12000 else max
  {
    TotalIsLength(passages[..k]);
  }

  // ----- the prompt as it reads -----

  /** Number, title if there is one, reference, and trimmed text. */
  predicate Presents(block: string, number: nat, p: Passage) {
    block == "[" + Decimal(number) + "] " + (if p.title == "" then "" else p.title + " — ")
             + p.source + " #" + Decimal(p.index) + "\n" + TrimSpace(p.text) + "\n\n"
  }

  /** The introduction, a block for each passage, numbered from 1, and the question. */
  predicate LaidOut(prompt: string, question: string, shown: seq<Passage>, blocks: seq<string>) {
    && |blocks| == |shown| && (forall i | 0 <= i < |shown| :: Presents(blocks[i], i + 1, shown[i]))
    && prompt == "Фрагменты из базы знаний:\n\n" + Concat(blocks)
                 + (if shown == [] then "(ничего не найдено)\n\n" else "") + "Вопрос: " + TrimSpace(question)
  }

  lemma BlockPresents(p: Passage, i: nat)
    ensures Presents(Block(p, i), i + 1, p)
  {
  }

  /** Each passage with its number, printed. */
  function Printed(block: (Passage, nat) -> string, shown: seq<Passage>): seq<string> {
    seq(|shown|, i requires 0 <= i < |shown| => block(shown[i], i))
  }

  lemma PrintedSnoc(block: (Passage, nat) -> string, front: seq<Passage>, p: Passage)
    ensures Printed(block, front + [p]) == Printed(block, front) + [block(p, |front|)]
  {
  }

  lemma ConcatSnoc(blocks: seq<string>, block: string)
    ensures Concat(blocks + [block]) == Concat(blocks) + block
  {
    ConcatAppend(blocks, [block]);
    FlattenOne(block);
  }

  lemma {:induction false} BlocksAre(block: (Passage, nat) -> string, shown: seq<Passage>)
    ensures BlocksBy(block, shown) == Concat(Printed(block, shown))
    decreases |shown|
  {
    if shown != [] {
      var n := |shown| - 1;
      var front, p := shown[..n], shown[n];
      BlocksAre(block, front);
      assert shown == front + [p];
      PrintedSnoc(block, front, p);
      ConcatSnoc(Printed(block, front), block(p, n));
    }
  }

  /** The prompt shows number, title, reference and trimmed text of each passage that is
      shown, in order, and nothing else. */
  lemma PromptLaidOut(question: string, passages: seq<Passage>, max: int)
    ensures var shown := Shown(passages, max); exists blocks :: LaidOut(Shows(question, shown), question, shown, blocks)
  {
    var shown := Shown(passages, max);
    var blocks := Printed(Block, shown);
    BlocksAre(Block, shown);
    forall i | 0 <= i < |shown| ensures Presents(blocks[i], i + 1, shown[i]) {
      BlockPresents(shown[i], i);
    }
    assert LaidOut(Shows(question, shown), question, shown, blocks);
  }

  lemma {:induction false} TotalGrows(passages: seq<Passage>, j: nat, k: nat)
    requires j <= k <= |passages|
    ensures Total(passages[..j]) <= Total(passages[..k])
    decreases k - j
  {
    if j < k {
      TotalGrows(passages, j, k - 1);
      assert passages[..k][..k - 1] == passages[..k - 1];
    }
  }

  /** Nothing longer is affordable once the next passage is not. */
  lemma LongestPrefix(passages: seq<Passage>, i: nat, max: int)
    requires i <= |passages|
    requires i < |passages| ==> !Affordable(passages, i + 1, max)
    ensures forall k | i < k <= |passages| :: !Affordable(passages, k, max)
  {
    forall k | i < k <= |passages| ensures !Affordable(passages, k, max) {
      TotalGrows(passages, i + 1, k);
    }
  }

  // ----- sources -----

  /** The notes of the passages, each once, in first-seen order. */
  function SourceList(passages: seq<Passage>): seq<string> {
    if passages == [] then []
    else
      var front, s := SourceList(passages[..|passages| - 1]), passages[|passages| - 1].source;
      if s in front then front else front + [s]
  }

  method Sources(passages: seq<Passage>) returns (out: seq<string>)
    ensures out == SourceList(passages)
  {
    var seen: set<string> := {};
    out := [];
    for i := 0 to |passages|
      invariant out == SourceList(passages[..i])
      invariant forall s :: s in seen <==> s in out
    {
      var p := passages[i];
      assert passages[..i + 1][..i] == passages[..i];
      if p.source in seen {
        continue;
      }
      seen := seen + {p.source};
      out := out + [p.source];
    }
    assert passages[..|passages|] == passages;
  }

  predicate Mentions(passages: seq<Passage>, s: string) {
    exists i :: 0 <= i < |passages| && passages[i].source == s
  }

  /** The first passage from this note. */
  predicate FirstSeenAt(passages: seq<Passage>, s: string, i: int) {
    0 <= i < |passages| && passages[i].source == s && forall j | 0 <= j < i :: passages[j].source != s
  }

  lemma {:induction false} SourcesMention(passages: seq<Passage>, s: string)
    ensures s in SourceList(passages) <==> Mentions(passages, s)
  {
    if passages != [] {
      var n := |passages| - 1;
      var front := passages[..n];
      SourcesMention(front, s);
      if Mentions(front, s) {
        var i :| 0 <= i < |front| && front[i].source == s;
        assert passages[i].source == s;
      }
      if Mentions(passages, s) && s != passages[n].source {
        var i :| 0 <= i < |passages| && passages[i].source == s;
        assert front[i].source == s;
      }
      if s == passages[n].source {
        assert passages[n].source == s;
      }
    }
  }

  predicate Distinct(out: seq<string>) {
    forall i, j | 0 <= i < j < |out| :: out[i] != out[j]
  }

  lemma {:induction false} SourcesDistinct(passages: seq<Passage>)
    ensures Distinct(SourceList(passages))
  {
    if passages != [] {
      var n := |passages| - 1;
      SourcesDistinct(passages[..n]);
      var front, s := SourceList(passages[..n]), passages[n].source;
      if s !in front {
        assert forall i | 0 <= i < |front| :: front[i] in front;
      }
    }
  }

  lemma FirstSeenInFront(passages: seq<Passage>, s: string, a: int)
    requires passages != [] && FirstSeenAt(passages, s, a)
    requires Mentions(passages[..|passages| - 1], s)
    ensures FirstSeenAt(passages[..|passages| - 1], s, a)
  {
    var front := passages[..|passages| - 1];
    var c :| 0 <= c < |front| && front[c].source == s;
    assert passages[c].source == s;
  }

  /** Listed earlier means first seen earlier. */
  lemma {:induction false} SourcesOrdered(passages: seq<Passage>, i: nat, j: nat, a: int, b: int)
    requires i < j < |SourceList(passages)|
    requires FirstSeenAt(passages, SourceList(passages)[i], a)
    requires FirstSeenAt(passages, SourceList(passages)[j], b)
    ensures a < b
  {
    var n := |passages| - 1;
    var front := passages[..n];
    var before, out := SourceList(front), SourceList(passages);
    assert out[i] == before[i] && before[i] in before;
    SourcesMention(front, out[i]);
    FirstSeenInFront(passages, out[i], a);
    if j < |before| {
      assert out[j] == before[j] && before[j] in before;
      SourcesMention(front, out[j]);
      FirstSeenInFront(passages, out[j], b);
      SourcesOrdered(front, i, j, a, b);
    } else {
      SourcesMention(front, passages[n].source);
      assert forall k | 0 <= k < n :: front[k] == passages[k];
    }
  }

  /** No note twice, exactly the notes of the passages, in first-seen order. */
  lemma SourcesExact(passages: seq<Passage>)
    ensures var out := SourceList(passages);
      && Distinct(out) && (forall s :: s in out <==> Mentions(passages, s))
      && (forall i, j, a, b |
            0 <= i < j < |out| && FirstSeenAt(passages, out[i], a) && FirstSeenAt(passages, out[j], b) :: a < b)
  {
    SourcesDistinct(passages);
    var out := SourceList(passages);
    forall s ensures s in out <==> Mentions(passages, s) {
      SourcesMention(passages, s);
    }
    forall i, j, a, b | 0 <= i < j < |out| && FirstSeenAt(passages, out[i], a) && FirstSeenAt(passages, out[j], b)
      ensures a < b
    {
      SourcesOrdered(passages, i, j, a, b);
    }
  }

  /** The sources of a prefix are a prefix of the sources of the whole. */
  lemma {:induction false} SourcesOfPrefix(passages: seq<Passage>, k: nat)
    requires k <= |passages|
    ensures SourceList(passages[..k]) <= SourceList(passages)
    decreases |passages| - k
  {
    if k == |passages| {
      assert passages[..k] == passages;
    } else {
      SourcesOfPrefix(passages, k + 1);
      assert passages[..k + 1][..k] == passages[..k];
    }
  }

  // ----- small chunks are never dropped -----

  lemma {:induction false} TotalBound(passages: seq<Passage>, chunkSize: nat)
    requires forall i | 0 <= i < |passages| :: |passages[i].text| <= chunkSize
    ensures Total(passages) <= |passages| * chunkSize
  {
    if passages != [] {
      var n := |passages| - 1;
      TotalBound(passages[..n], chunkSize);
      TrimSpaceTrimmed(passages[n].text);
      assert (n + 1) * chunkSize == n * chunkSize + chunkSize;
    }
  }

  lemma ProductMonotone(a: nat, b: nat, c: nat)
    requires a <= b
    ensures a * c <= b * c
  {
  }

  /** When topK texts of at most chunkSize runes fit the default budget, none is
      dropped. */
  lemma SmallHitsShown(passages: seq<Passage>, topK: nat, chunkSize: nat)
    requires |passages| <= topK && topK * chunkSize <= DEFAULT_MAX_CONTEXT_RUNES
    requires forall i | 0 <= i < |passages| :: |passages[i].text| <= chunkSize
    ensures Shown(passages, DEFAULT_MAX_CONTEXT_RUNES) == passages
    ensures SourceList(Shown(passages, DEFAULT_MAX_CONTEXT_RUNES)) == SourceList(passages)
  {
    assert passages[..|passages|] == passages;
    TotalBound(passages, chunkSize);
    ProductMonotone(|passages|, topK, chunkSize);
    assert Affordable(passages, |passages|, DEFAULT_MAX_CONTEXT_RUNES);
    ShownLongest(passages, DEFAULT_MAX_CONTEXT_RUNES);
  }

  /** No hit is dropped exactly when all together are affordable. */
  lemma DroppedIffOverBudget(passages: seq<Passage>, max: int)
    ensures Shown(passages, max) == passages <==> Affordable(passages, |passages|, max)
  {
    ShownLongest(passages, max);
    assert passages[..|passages|] == passages;
  }

  /** A hit is shown exactly when the hits up to it are affordable. */
  lemma ShownIffAffordable(passages: seq<Passage>, max: int, j: nat)
    requires j < |passages|
    ensures j < ShownCount(passages, max) <==> Affordable(passages, j + 1, max)
  {
    ShownLongest(passages, max);
    if j < ShownCount(passages, max) {
      TotalGrows(passages, j + 1, ShownCount(passages, max));
    }
  }

  /** Some affordable hit is from the same note. */
  predicate NoteAffordable(passages: seq<Passage>, max: int, s: string) {
    exists j :: 0 <= j < |passages| && Affordable(passages, j + 1, max) && passages[j].source == s
  }

  lemma ShownMentions(passages: seq<Passage>, max: int, s: string)
    ensures Mentions(Shown(passages, max), s) <==> NoteAffordable(passages, max, s)
  {
    var shown := Shown(passages, max);
    if Mentions(shown, s) {
      var j :| 0 <= j < |shown| && shown[j].source == s;
      ShownIffAffordable(passages, max, j);
      assert passages[j].source == s;
    }
    if NoteAffordable(passages, max, s) {
      var j :| 0 <= j < |passages| && Affordable(passages, j + 1, max) && passages[j].source == s;
      ShownIffAffordable(passages, max, j);
      assert shown[j].source == s;
    }
  }

  lemma NextIsNew(a: seq<string>, b: seq<string>)
    requires a <= b && Distinct(b)
    ensures |a| < |b| ==> b[|a|] in b && b[|a|] !in a
  {
    forall i | 0 <= i < |a| < |b| ensures a[i] != b[|a|] {
      assert a[i] == b[i];
    }
  }

  lemma PrefixOfDistinct(a: seq<string>, b: seq<string>)
    requires a <= b && Distinct(b) && forall s | s in b :: s in a
    ensures a == b
  {
    NextIsNew(a, b);
  }

  /** The sources are exactly the notes that were shown if and only if every hit has
      an affordable hit from its note. */
  lemma SourcesShownExactly(hits: seq<Passage>, max: int)
    ensures SourceList(Shown(hits, max)) == SourceList(hits)
       <==> forall i | 0 <= i < |hits| :: NoteAffordable(hits, max, hits[i].source)
  {
    var shown, all := SourceList(Shown(hits, max)), SourceList(hits);
    SourcesOfPrefix(hits, ShownCount(hits, max));
    SourcesDistinct(hits);
    forall s ensures s in all <==> Mentions(hits, s) {
      SourcesMention(hits, s);
    }
    forall s ensures s in shown <==> NoteAffordable(hits, max, s) {
      SourcesMention(Shown(hits, max), s);
      ShownMentions(hits, max, s);
    }
    if shown == all {
      forall i | 0 <= i < |hits| ensures NoteAffordable(hits, max, hits[i].source) {
        assert Mentions(hits, hits[i].source);
      }
    }
    if forall i | 0 <= i < |hits| :: NoteAffordable(hits, max, hits[i].source) {
      PrefixOfDistinct(shown, all);
    }
  }

  /** A hit the budget dropped is still listed among the sources. */
  lemma DroppedHitIsListed(a: Passage, b: Passage)
    requires a.source != b.source && Price(a) + Price(b) > DEFAULT_MAX_CONTEXT_RUNES
    ensures Shown([a, b], DEFAULT_MAX_CONTEXT_RUNES) == [a]
    ensures b.source in SourceList([a, b]) && b.source !in SourceList([a])
  {
    var both := [a, b];
    assert both[..2] == both && both[..1] == [a] && [a][..0] == [];
    assert Total([a]) == Total([]) + Price(a);
    assert SourceList([a]) == SourceList([]) + [a.source];
    ShownLongest(both, DEFAULT_MAX_CONTEXT_RUNES);
  }
}
