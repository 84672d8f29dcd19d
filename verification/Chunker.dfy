/** The chunker, internal/chunk/cut.go: paragraphs are packed greedily into
    chunks of at most `size` runes; a paragraph too long for one chunk is cut.

    The methods are the repository's loops; the functions are what they compute,
    and the properties the repository relies on are proved about the functions. */
module Chunker {
  import opened Arithmetic
  import opened Outcome
  import opened Text

  datatype CutError = InvalidChunkSize

  // ----- what the loops compute -----

  /** `cur` holds the lines of the paragraph being read. */
  function ParagraphsFrom(lines: seq<string>, cur: string): seq<string> {
    if lines == [] then FlushParagraph(cur)
    else if TrimSpace(lines[0]) == "" then FlushParagraph(cur) + ParagraphsFrom(lines[1..], "")
    else ParagraphsFrom(lines[1..], AddLine(cur, lines[0]))
  }

  function FlushParagraph(cur: string): seq<string> {
    if cur == "" then [] else [TrimSpace(cur)]
  }

  function AddLine(cur: string, line: string): string {
    if cur == "" then line else cur + "\n" + line
  }

  function Paragraphs(text: string): seq<string> {
    ParagraphsFrom(Lines(text), "")
  }

  function SplitByRunes(s: string, limit: nat): seq<string>
    requires limit > 0
  {
    if |s| > limit then [s[..limit]] + SplitByRunes(s[limit..], limit)
    else if s != "" then [s] else []
  }

  const SEPARATOR := "\n\n"

  function AddParagraph(cur: string, p: string): string {
    if cur == "" then p else cur + SEPARATOR + p
  }

  function FlushChunk(cur: string): seq<string> {
    if cur == "" then [] else [cur]
  }

  /** `cur` is the chunk being filled. */
  function Pack(paragraphs: seq<string>, cur: string, size: nat): seq<string>
    requires size > 0
    decreases |paragraphs|
  {
    if paragraphs == [] then FlushChunk(cur)
    else
      var p, rest := paragraphs[0], paragraphs[1..];
      if |p| > size then FlushChunk(cur) + SplitByRunes(p, size) + Pack(rest, "", size)
      else if |AddParagraph(cur, p)| <= size then Pack(rest, AddParagraph(cur, p), size)
      else [cur] + Pack(rest, p, size)
  }

  function Chunks(text: string, size: nat): seq<string>
    requires size > 0
  {
    Pack(Paragraphs(TrimSpace(text)), "", size)
  }

  // ----- the loops -----

  method Cut(text: string, chunkSize: int) returns (r: Result<seq<string>, CutError>)
    ensures r.Err? <==> chunkSize <= 0
    ensures r.Ok? ==> r.value == Chunks(text, chunkSize)
  {
    if chunkSize <= 0 {
      return Err(InvalidChunkSize);
    }
    var trimmed := TrimSpace(text);
    if trimmed == "" {
      return Ok([]);
    }
    var paragraphs := ExtractParagraphs(trimmed);
    if |paragraphs| == 0 {
      return Ok([]);
    }

    var chunks: seq<string> := [];
    var currentChunk := "";
    var currentRunes := 0;
    for i := 0 to |paragraphs|
      invariant currentRunes == |currentChunk|
      invariant PackedSoFar(paragraphs, i, chunks, currentChunk, chunkSize)
    {
      var p := paragraphs[i];
      ghost var before := currentChunk;
      PackStep(paragraphs, i, chunks, currentChunk, chunkSize);
      var pRunes := |p|;
      if pRunes > chunkSize {
        ghost var chunks0 := chunks;
        if currentRunes > 0 {
          chunks := chunks + [currentChunk];
          currentChunk := "";
          currentRunes := 0;
        }
        assert chunks == chunks0 + FlushChunk(before);
        var parts := CutByRunes(p, chunkSize);
        chunks := chunks + parts;
        continue;
      }
      var neededRunes := pRunes;
      if currentRunes > 0 {
        neededRunes := neededRunes + 2;
      }
      if currentRunes + neededRunes <= chunkSize {
        if currentRunes > 0 {
          currentChunk := currentChunk + "\n\n";
        }
        currentChunk := currentChunk + p;
        assert currentChunk == AddParagraph(before, p);
        currentRunes := currentRunes + neededRunes;
      } else {
        chunks := chunks + [currentChunk];
        currentChunk := p;
        currentRunes := pRunes;
      }
    }
    if currentRunes > 0 {
      chunks := chunks + [currentChunk];
    }
    return Ok(chunks);
  }

  ghost predicate PackedSoFar(ps: seq<string>, i: nat, chunks: seq<string>, cur: string, size: nat)
    requires size > 0 && i <= |ps|
  {
    chunks + Pack(ps[i..], cur, size) == Pack(ps, "", size)
  }

  lemma PackStep(ps: seq<string>, i: nat, chunks: seq<string>, cur: string, size: nat)
    requires size > 0 && i < |ps| && PackedSoFar(ps, i, chunks, cur, size)
    ensures var p := ps[i];
      if |p| > size then PackedSoFar(ps, i + 1, chunks + FlushChunk(cur) + SplitByRunes(p, size), "", size)
      else if |AddParagraph(cur, p)| <= size then PackedSoFar(ps, i + 1, chunks, AddParagraph(cur, p), size)
      else PackedSoFar(ps, i + 1, chunks + [cur], p, size)
  {
    var p, rest := ps[i], ps[i + 1..];
    assert ps[i..][0] == p && ps[i..][1..] == rest;
    Assoc(chunks, FlushChunk(cur) + SplitByRunes(p, size), Pack(rest, "", size));
    Assoc(chunks, FlushChunk(cur), SplitByRunes(p, size));
    Assoc(chunks, [cur], Pack(rest, p, size));
  }

  method ExtractParagraphs(text: string) returns (paragraphs: seq<string>)
    ensures paragraphs == Paragraphs(text)
  {
    paragraphs := [];
    var curPara := "";
    var lines := Lines(text);
    for i := 0 to |lines|
      invariant ReadSoFar(lines, i, paragraphs, curPara)
    {
      var line := lines[i];
      ghost var done, cur := paragraphs, curPara;
      ReadStep(lines, i, done, cur);
      if TrimSpace(line) == "" {
        if |curPara| > 0 {
          paragraphs := paragraphs + [TrimSpace(curPara)];
          curPara := "";
        }
        assert paragraphs == done + FlushParagraph(cur);
      } else {
        if |curPara| > 0 {
          curPara := curPara + "\n";
        }
        curPara := curPara + line;
        assert curPara == AddLine(cur, line);
      }
    }
    assert lines[|lines|..] == [];
    assert paragraphs + FlushParagraph(curPara) == Paragraphs(text);
    if |curPara| > 0 {
      paragraphs := paragraphs + [TrimSpace(curPara)];
    }
  }

  ghost predicate ReadSoFar(lines: seq<string>, i: nat, done: seq<string>, cur: string)
    requires i <= |lines|
  {
    done + ParagraphsFrom(lines[i..], cur) == ParagraphsFrom(lines, "")
  }

  lemma ReadStep(lines: seq<string>, i: nat, done: seq<string>, cur: string)
    requires i < |lines| && ReadSoFar(lines, i, done, cur)
    ensures if TrimSpace(lines[i]) == "" then ReadSoFar(lines, i + 1, done + FlushParagraph(cur), "")
            else ReadSoFar(lines, i + 1, done, AddLine(cur, lines[i]))
  {
    var rest := lines[i + 1..];
    assert lines[i..][0] == lines[i] && lines[i..][1..] == rest;
    Assoc(done, FlushParagraph(cur), ParagraphsFrom(rest, ""));
  }

  method CutByRunes(s: string, limit: nat) returns (parts: seq<string>)
    requires limit > 0
    ensures parts == SplitByRunes(s, limit)
  {
    var runes := s;
    parts := [];
    while |runes| > limit
      invariant parts + SplitByRunes(runes, limit) == SplitByRunes(s, limit)
    {
      parts := parts + [runes[..limit]];
      runes := runes[limit..];
    }
    if |runes| > 0 {
      parts := parts + [runes];
    }
  }

  // ----- sizes -----

  predicate AllNonEmpty(ps: seq<string>) {
    forall i | 0 <= i < |ps| :: ps[i] != ""
  }

  lemma {:induction false} ParagraphsNonEmpty(lines: seq<string>, cur: string)
    requires cur == "" || !Blank(cur)
    ensures AllNonEmpty(ParagraphsFrom(lines, cur))
  {
    TrimSpaceEmpty(cur);
    if lines != [] {
      TrimSpaceEmpty(lines[0]);
      if Blank(lines[0]) {
        ParagraphsNonEmpty(lines[1..], "");
      } else {
        AddLineVisible(cur, lines[0]);
        ParagraphsNonEmpty(lines[1..], AddLine(cur, lines[0]));
      }
    }
  }

  lemma AddLineVisible(cur: string, line: string)
    requires !Blank(line)
    ensures !Blank(AddLine(cur, line))
  {
    var k :| 0 <= k < |line| && !IsSpace(line[k]);
    var out := AddLine(cur, line);
    assert out[|out| - |line| + k] == line[k];
  }

  predicate SizesWithin(chunks: seq<string>, size: nat) {
    forall i | 0 <= i < |chunks| :: 1 <= |chunks[i]| <= size
  }

  lemma {:induction false} SplitByRunesShape(s: string, limit: nat)
    requires limit > 0
    ensures SizesWithin(SplitByRunes(s, limit), limit)
    ensures |SplitByRunes(s, limit)| == CeilDiv(|s|, limit)
    ensures Concat(SplitByRunes(s, limit)) == s
  {
    if |s| > limit {
      SplitByRunesShape(s[limit..], limit);
      CeilDivStep(|s|, limit);
    } else {
      CeilDivFirst(|s|, limit);
      if s != "" {
        FlattenOne(s);
      }
    }
  }

  predicate FullBeforeLast(parts: seq<string>, limit: nat) {
    forall i | 0 <= i < |parts| - 1 :: |parts[i]| == limit
  }

  /** Every piece but the last is full. */
  lemma {:induction false} SplitFull(s: string, limit: nat)
    requires limit > 0
    ensures FullBeforeLast(SplitByRunes(s, limit), limit)
  {
    if |s| > limit {
      var rest := SplitByRunes(s[limit..], limit);
      SplitFull(s[limit..], limit);
      assert forall i | 0 < i < |rest| :: ([s[..limit]] + rest)[i] == rest[i - 1];
    }
  }

  lemma {:induction false} PackSizes(ps: seq<string>, cur: string, size: nat)
    requires size > 0 && |cur| <= size && AllNonEmpty(ps)
    ensures SizesWithin(Pack(ps, cur, size), size)
    decreases |ps|
  {
    if ps != [] {
      var p, rest := ps[0], ps[1..];
      if |p| > size {
        SplitByRunesShape(p, size);
        PackSizes(rest, "", size);
      } else if |AddParagraph(cur, p)| <= size {
        PackSizes(rest, AddParagraph(cur, p), size);
      } else {
        PackSizes(rest, p, size);
      }
    }
  }

  /** Every chunk has between 1 and `size` runes. */
  lemma ChunkSizes(text: string, size: nat)
    requires size > 0
    ensures SizesWithin(Chunks(text, size), size)
  {
    ParagraphsNonEmpty(Lines(TrimSpace(text)), "");
    PackSizes(Paragraphs(TrimSpace(text)), "", size);
  }

  // ----- content is conserved -----

  lemma {:induction false} ParagraphsKeepContent(lines: seq<string>, cur: string)
    ensures Visible(ParagraphsFrom(lines, cur)) == NonSpace(cur) + Visible(lines)
  {
    FlushParagraphContent(cur);
    if lines != [] {
      var line, rest := lines[0], lines[1..];
      VisibleCons(line, rest);
      if TrimSpace(line) == "" {
        ParagraphsKeepContent(rest, "");
        TrimSpaceEmpty(line);
        NonSpaceBlank(line);
        VisibleAppend(FlushParagraph(cur), ParagraphsFrom(rest, ""));
      } else {
        ParagraphsKeepContent(rest, AddLine(cur, line));
        AddLineContent(cur, line);
        Assoc(NonSpace(cur), NonSpace(line), Visible(rest));
      }
    }
  }

  lemma VisibleCons(part: string, rest: seq<string>)
    ensures Visible([part] + rest) == NonSpace(part) + Visible(rest)
  {
    VisibleAppend([part], rest);
    VisibleOne(part);
  }

  lemma FlushParagraphContent(cur: string)
    ensures Visible(FlushParagraph(cur)) == NonSpace(cur)
  {
    VisibleOne(TrimSpace(cur));
    NonSpaceTrim(cur);
  }

  lemma AddLineContent(cur: string, line: string)
    ensures NonSpace(AddLine(cur, line)) == NonSpace(cur) + NonSpace(line)
  {
    NonSpaceConcat(cur + "\n", line);
    NonSpaceConcat(cur, "\n");
    NonSpaceBlank("\n");
  }

  lemma AddParagraphContent(cur: string, p: string)
    ensures NonSpace(AddParagraph(cur, p)) == NonSpace(cur) + NonSpace(p)
  {
    NonSpaceConcat(cur + SEPARATOR, p);
    NonSpaceConcat(cur, SEPARATOR);
    NonSpaceBlank(SEPARATOR);
  }

  ghost predicate PackKeeps(ps: seq<string>, cur: string, size: nat)
    requires size > 0
  {
    Visible(Pack(ps, cur, size)) == NonSpace(cur) + Visible(ps)
  }

  lemma {:induction false} PackKeepsContent(ps: seq<string>, cur: string, size: nat)
    requires size > 0
    ensures PackKeeps(ps, cur, size)
    decreases |ps|
  {
    VisibleOne(cur);
    if ps != [] {
      var p, rest := ps[0], ps[1..];
      assert ps == [p] + rest;
      VisibleCons(p, rest);
      if |p| > size {
        PackKeepsContent(rest, "", size);
        OversizeContent(ps, cur, size);
      } else if |AddParagraph(cur, p)| <= size {
        PackKeepsContent(rest, AddParagraph(cur, p), size);
        AddParagraphContent(cur, p);
        Assoc(NonSpace(cur), NonSpace(p), Visible(rest));
      } else {
        PackKeepsContent(rest, p, size);
        VisibleAppend([cur], Pack(rest, p, size));
      }
    }
  }

  lemma OversizeContent(ps: seq<string>, cur: string, size: nat)
    requires size > 0 && ps != [] && |ps[0]| > size && PackKeeps(ps[1..], "", size)
    ensures PackKeeps(ps, cur, size)
  {
    var p, rest := ps[0], ps[1..];
    assert ps == [p] + rest;
    VisibleCons(p, rest);
    VisibleOne(cur);
    SplitByRunesShape(p, size);
    VisibleAppend(FlushChunk(cur) + SplitByRunes(p, size), Pack(rest, "", size));
    VisibleAppend(FlushChunk(cur), SplitByRunes(p, size));
    Assoc(NonSpace(cur), NonSpace(p), Visible(rest));
  }

  /** The visible runes of the chunks are those of the text, in order. */
  lemma ContentConserved(text: string, size: nat)
    requires size > 0
    ensures NonSpace(Concat(Chunks(text, size))) == NonSpace(text)
  {
    var trimmed := TrimSpace(text);
    NonSpaceTrim(text);
    NonSpaceLines(trimmed);
    ParagraphsKeepContent(Lines(trimmed), "");
    PackKeepsContent(Paragraphs(trimmed), "", size);
  }

  // ----- greedy packing is optimal -----

  /** A run of paragraphs that fits one chunk, or a single oversize paragraph. */
  predicate ValidGroup(g: seq<string>, size: nat) {
    g != [] && (|Join(g, SEPARATOR)| <= size || |g| == 1)
  }

  predicate ValidGrouping(groups: seq<seq<string>>, size: nat) {
    forall i | 0 <= i < |groups| :: ValidGroup(groups[i], size)
  }

  function GroupChunks(g: seq<string>, size: nat): seq<string>
    requires size > 0
  {
    SplitByRunes(Join(g, SEPARATOR), size)
  }

  function ChunkLists(groups: seq<seq<string>>, size: nat): (lists: seq<seq<string>>)
    requires size > 0
  {
    seq(|groups|, i requires 0 <= i < |groups| => GroupChunks(groups[i], size))
  }

  /** The chunks a grouping stands for. */
  function Render(groups: seq<seq<string>>, size: nat): seq<string>
    requires size > 0
  {
    Flatten(ChunkLists(groups, size))
  }

  /** The grouping the greedy packer chooses. */
  function Groups(ps: seq<string>, cur: seq<string>, size: nat): seq<seq<string>>
    requires size > 0
    decreases |ps|
  {
    if ps == [] then FlushGroup(cur)
    else
      var p, rest := ps[0], ps[1..];
      if |p| > size then FlushGroup(cur) + [[p]] + Groups(rest, [], size)
      else if |AddParagraph(Join(cur, SEPARATOR), p)| <= size then Groups(rest, cur + [p], size)
      else FlushGroup(cur) + Groups(rest, [p], size)
  }

  function FlushGroup(cur: seq<string>): seq<seq<string>> {
    if cur == [] then [] else [cur]
  }

  lemma RenderAppend(a: seq<seq<string>>, b: seq<seq<string>>, size: nat)
    requires size > 0
    ensures Render(a + b, size) == Render(a, size) + Render(b, size)
  {
    FlattenAppend(ChunkLists(a, size), ChunkLists(b, size));
    assert ChunkLists(a + b, size) == ChunkLists(a, size) + ChunkLists(b, size);
  }

  lemma RenderOne(g: seq<string>, size: nat)
    requires size > 0
    ensures Render([g], size) == GroupChunks(g, size)
  {
    assert ChunkLists([g], size) == [GroupChunks(g, size)];
    FlattenOne(GroupChunks(g, size));
  }

  /** A group being filled: non-empty paragraphs that fit one chunk together. */
  predicate Open(cur: seq<string>, size: nat) {
    AllNonEmpty(cur) && |Join(cur, SEPARATOR)| <= size
  }

  lemma OpenJoin(cur: seq<string>, p: string)
    requires AllNonEmpty(cur) && p != ""
    ensures Join(cur, SEPARATOR) == "" <==> cur == []
    ensures Join(cur + [p], SEPARATOR) == AddParagraph(Join(cur, SEPARATOR), p)
  {
    if cur != [] {
      assert cur[0] != "";
      assert |Join(cur, SEPARATOR)| >= |cur[0]|;
      JoinSnoc(cur, p, SEPARATOR);
    } else {
      assert cur + [p] == [p];
    }
  }

  lemma FlushRender(cur: seq<string>, size: nat)
    requires size > 0 && Open(cur, size)
    ensures Render(FlushGroup(cur), size) == FlushChunk(Join(cur, SEPARATOR))
    ensures Flatten(FlushGroup(cur)) == cur
    ensures ValidGrouping(FlushGroup(cur), size)
  {
    OpenJoin(cur, "x");
    if cur != [] {
      RenderOne(cur, size);
      FlattenOne(cur);
    }
  }

  /** What the packer emits is the rendering of a valid grouping of its input. */
  ghost predicate PacksGrouping(ps: seq<string>, cur: seq<string>, size: nat)
    requires size > 0
  {
    var groups := Groups(ps, cur, size);
    && Pack(ps, Join(cur, SEPARATOR), size) == Render(groups, size)
    && Flatten(groups) == cur + ps
    && ValidGrouping(groups, size)
  }

  lemma {:induction false} PackIsGrouping(ps: seq<string>, cur: seq<string>, size: nat)
    requires size > 0 && AllNonEmpty(ps) && Open(cur, size)
    ensures PacksGrouping(ps, cur, size)
    decreases |ps|
  {
    if ps == [] {
      FlushRender(cur, size);
    } else {
      var p, rest := ps[0], ps[1..];
      OpenJoin(cur, p);
      if |p| > size {
        PackIsGrouping(rest, [], size);
        OversizeStep(ps, cur, size);
      } else if |AddParagraph(Join(cur, SEPARATOR), p)| <= size {
        PackIsGrouping(rest, cur + [p], size);
        assert cur + ps == (cur + [p]) + rest;
      } else {
        assert Join([p], SEPARATOR) == p;
        PackIsGrouping(rest, [p], size);
        CloseStep(ps, cur, size);
      }
    }
  }

  lemma OversizeStep(ps: seq<string>, cur: seq<string>, size: nat)
    requires size > 0 && ps != [] && Open(cur, size)
    requires |ps[0]| > size && PacksGrouping(ps[1..], [], size)
    ensures PacksGrouping(ps, cur, size)
  {
    var p, rest := ps[0], ps[1..];
    var front, tail := FlushGroup(cur), Groups(rest, [], size);
    FlushRender(cur, size);
    OversizeRender(front, p, tail, size);
    assert cur + ps == cur + [p] + ([] + rest);
    ValidAppend(front, [[p]], size);
    ValidAppend(front + [[p]], tail, size);
  }

  lemma ValidAppend(a: seq<seq<string>>, b: seq<seq<string>>, size: nat)
    requires ValidGrouping(a, size) && ValidGrouping(b, size)
    ensures ValidGrouping(a + b, size)
  {
  }

  lemma OversizeRender(front: seq<seq<string>>, p: string, tail: seq<seq<string>>, size: nat)
    requires size > 0
    ensures Render(front + [[p]] + tail, size) == Render(front, size) + SplitByRunes(p, size) + Render(tail, size)
    ensures Flatten(front + [[p]] + tail) == Flatten(front) + [p] + Flatten(tail)
  {
    RenderOne([p], size);
    FlattenOne([p]);
    RenderAppend(front + [[p]], tail, size);
    RenderAppend(front, [[p]], size);
    FlattenAppend(front + [[p]], tail);
    FlattenAppend(front, [[p]]);
  }

  /** When a paragraph does not fit any more, the open chunk is closed. */
  lemma Closes(ps: seq<string>, cur: seq<string>, size: nat)
    requires size > 0 && ps != []
    requires |ps[0]| <= size < |AddParagraph(Join(cur, SEPARATOR), ps[0])|
    ensures Groups(ps, cur, size) == FlushGroup(cur) + Groups(ps[1..], [ps[0]], size)
    ensures Pack(ps, Join(cur, SEPARATOR), size)
         == FlushChunk(Join(cur, SEPARATOR)) + Pack(ps[1..], Join([ps[0]], SEPARATOR), size)
  {
    assert Join([ps[0]], SEPARATOR) == ps[0];
  }

  lemma CloseStep(ps: seq<string>, cur: seq<string>, size: nat)
    requires size > 0 && ps != [] && Open(cur, size)
    requires |ps[0]| <= size < |AddParagraph(Join(cur, SEPARATOR), ps[0])|
    requires PacksGrouping(ps[1..], [ps[0]], size)
    ensures PacksGrouping(ps, cur, size)
  {
    var front, tail := FlushGroup(cur), Groups(ps[1..], [ps[0]], size);
    Closes(ps, cur, size);
    FlushRender(cur, size);
    CloseRender(front, tail, size);
    assert [ps[0]] + ps[1..] == ps;
    ValidAppend(front, tail, size);
  }

  lemma CloseRender(front: seq<seq<string>>, tail: seq<seq<string>>, size: nat)
    requires size > 0
    ensures Render(front + tail, size) == Render(front, size) + Render(tail, size)
    ensures Flatten(front + tail) == Flatten(front) + Flatten(tail)
  {
    RenderAppend(front, tail, size);
    FlattenAppend(front, tail);
  }

  /** A fuller open chunk never makes fewer chunks, and what is in the open chunk makes
      a difference of at most one. */
  lemma {:induction false} PackMonotone(ps: seq<string>, a: string, b: string, size: nat)
    requires size > 0 && AllNonEmpty(ps)
    ensures |a| <= |b| ==> |Pack(ps, a, size)| <= |Pack(ps, b, size)|
    ensures |Pack(ps, a, size)| <= 1 + |Pack(ps, b, size)|
    decreases |ps|
  {
    if ps != [] {
      var p, rest := ps[0], ps[1..];
      var a1 := if |AddParagraph(a, p)| <= size then AddParagraph(a, p) else p;
      var b1 := if |AddParagraph(b, p)| <= size then AddParagraph(b, p) else p;
      PackMonotone(rest, a1, b1, size);
    }
  }

  /** Paragraphs that fit one chunk together are packed without a break. */
  lemma {:induction false} PackFits(g: seq<string>, rest: seq<string>, cur: seq<string>, size: nat)
    requires size > 0 && AllNonEmpty(g) && AllNonEmpty(cur)
    requires |Join(cur + g, SEPARATOR)| <= size
    ensures Pack(g + rest, Join(cur, SEPARATOR), size) == Pack(rest, Join(cur + g, SEPARATOR), size)
    decreases |g|
  {
    if g == [] {
      assert g + rest == rest && cur + g == cur;
    } else {
      var p := g[0];
      assert cur + g == (cur + [p]) + g[1..];
      OpenJoin(cur, p);
      if g[1..] == [] {
        assert (cur + [p]) + g[1..] == cur + [p];
      } else {
        JoinAppend(cur + [p], g[1..], SEPARATOR);
      }
      assert (g + rest)[1..] == g[1..] + rest;
      PackFits(g[1..], rest, cur + [p], size);
    }
  }

  lemma GroupNonEmpty(g: seq<string>, rest: seq<string>)
    requires AllNonEmpty(g + rest)
    ensures AllNonEmpty(g) && AllNonEmpty(rest)
  {
    var all := g + rest;
    assert forall i | 0 <= i < |g| :: all[i] == g[i];
    assert forall i | 0 <= i < |rest| :: all[|g| + i] == rest[i];
  }

  /** Packing a valid group first costs no more than the group alone and the rest. */
  lemma GroupNotWorse(g: seq<string>, rest: seq<string>, size: nat)
    requires size > 0 && ValidGroup(g, size) && AllNonEmpty(g) && AllNonEmpty(rest)
    ensures |Pack(g + rest, "", size)| <= |GroupChunks(g, size)| + |Pack(rest, "", size)|
  {
    var joined := Join(g, SEPARATOR);
    SplitByRunesShape(joined, size);
    if |joined| <= size {
      assert [] + g == g && Join([], SEPARATOR) == "";
      PackFits(g, rest, [], size);
      OpenJoin(g, "x");
      PackMonotone(rest, joined, "", size);
    } else {
      assert g == [g[0]] && joined == g[0];
      assert (g + rest)[1..] == rest;
    }
  }

  lemma {:induction false} GreedyNotWorse(groups: seq<seq<string>>, size: nat)
    requires size > 0 && ValidGrouping(groups, size) && AllNonEmpty(Flatten(groups))
    ensures |Pack(Flatten(groups), "", size)| <= |Render(groups, size)|
  {
    if groups != [] {
      var g, rest := groups[0], Flatten(groups[1..]);
      GroupNonEmpty(g, rest);
      assert ValidGrouping(groups[1..], size);
      GreedyNotWorse(groups[1..], size);
      GroupNotWorse(g, rest, size);
      RenderOne(g, size);
      assert groups == [g] + groups[1..];
      RenderAppend([g], groups[1..], size);
    }
  }

  /** The first paragraph of b does not fit behind a, unless one of them is oversize. */
  predicate Snug(a: seq<string>, b: seq<string>, size: nat) {
    b != [] && (|Join(a, "\n\n")| <= size && |b[0]| <= size ==> |Join(a, "\n\n")| + 2 + |b[0]| > size)
  }

  predicate Greedy(groups: seq<seq<string>>, size: nat) {
    forall i | 0 <= i < |groups| - 1 :: Snug(groups[i], groups[i + 1], size)
  }

  /** The groups of the packer start with the open one, if there is one. */
  lemma {:induction false} GroupsStart(ps: seq<string>, cur: seq<string>, size: nat)
    requires size > 0
    ensures var groups := Groups(ps, cur, size);
      (cur != [] ==> groups != [] && groups[0] != [] && groups[0][0] == cur[0])
      && (groups != [] && cur == [] ==> ps != [] && groups[0] != [] && groups[0][0] == ps[0])
    decreases |ps|
  {
    if ps != [] && |ps[0]| <= size {
      var fits := |AddParagraph(Join(cur, SEPARATOR), ps[0])| <= size;
      GroupsStart(ps[1..], if fits then cur + [ps[0]] else [ps[0]], size);
    }
  }

  lemma GreedyCons(g: seq<string>, groups: seq<seq<string>>, size: nat)
    requires Greedy(groups, size) && (groups != [] ==> Snug(g, groups[0], size))
    ensures Greedy([g] + groups, size)
  {
    var all := [g] + groups;
    forall i | 0 <= i < |all| - 1 ensures Snug(all[i], all[i + 1], size) {
      assert all[i + 1] == groups[i] && (i > 0 ==> all[i] == groups[i - 1]);
    }
  }

  lemma {:induction false} GroupsGreedy(ps: seq<string>, cur: seq<string>, size: nat)
    requires size > 0 && AllNonEmpty(ps) && Open(cur, size)
    ensures Greedy(Groups(ps, cur, size), size)
    decreases |ps|
  {
    if ps != [] {
      var p, rest := ps[0], ps[1..];
      OpenJoin(cur, p);
      if |p| > size {
        GroupsGreedy(rest, [], size);
        OversizeGreedy(p, rest, cur, size);
      } else if |AddParagraph(Join(cur, SEPARATOR), p)| <= size {
        GroupsGreedy(rest, cur + [p], size);
      } else {
        assert Join([p], SEPARATOR) == p;
        GroupsGreedy(rest, [p], size);
        GroupsStart(rest, [p], size);
        GreedyCons(cur, Groups(rest, [p], size), size);
      }
    }
  }

  lemma OversizeGreedy(p: string, rest: seq<string>, cur: seq<string>, size: nat)
    requires size > 0 && |p| > size && Greedy(Groups(rest, [], size), size)
    ensures Greedy(FlushGroup(cur) + [[p]] + Groups(rest, [], size), size)
  {
    var tail := Groups(rest, [], size);
    GroupsStart(rest, [], size);
    assert Join([p], "\n\n") == p;
    GreedyCons([p], tail, size);
    GreedyCons(cur, [[p]] + tail, size);
    assert FlushGroup(cur) + [[p]] + tail == if cur == [] then [[p]] + tail else [cur] + ([[p]] + tail);
  }

  predicate GroupingOf(gs: seq<seq<string>>, ps: seq<string>, size: nat) {
    ValidGrouping(gs, size) && Flatten(gs) == ps
  }

  /** Greedy packing is optimal: the chunks of a text are the rendering of one
      valid grouping of its paragraphs, the one that fills each chunk as far as it goes,
      and no valid grouping has fewer. */
  lemma PackingOptimal(text: string, size: nat)
    requires size > 0
    ensures var ps := Paragraphs(TrimSpace(text));
      && (exists gs :: GroupingOf(gs, ps, size) && Greedy(gs, size) && Render(gs, size) == Chunks(text, size))
      && (forall gs :: GroupingOf(gs, ps, size) ==> |Chunks(text, size)| <= |Render(gs, size)|)
  {
    var ps := Paragraphs(TrimSpace(text));
    ParagraphsNonEmpty(Lines(TrimSpace(text)), "");
    GreedyIsGrouping(ps, size);
    GroupsGreedy(ps, [], size);
    assert Render(Groups(ps, [], size), size) == Chunks(text, size);
    forall gs | GroupingOf(gs, ps, size)
      ensures |Chunks(text, size)| <= |Render(gs, size)|
    {
      GreedyNotWorse(gs, size);
    }
  }

  lemma GreedyIsGrouping(ps: seq<string>, size: nat)
    requires size > 0 && AllNonEmpty(ps)
    ensures GroupingOf(Groups(ps, [], size), ps, size)
    ensures Render(Groups(ps, [], size), size) == Pack(ps, "", size)
  {
    assert Join([], SEPARATOR) == "";
    PackIsGrouping(ps, [], size);
    assert [] + ps == ps;
  }

  /** The price of a group: one chunk, or ceil(n / size) for an oversize
      paragraph of n runes. */
  lemma GroupPrice(g: seq<string>, size: nat)
    requires size > 0 && ValidGroup(g, size) && AllNonEmpty(g)
    ensures |GroupChunks(g, size)|
         == if |Join(g, SEPARATOR)| <= size then 1 else CeilDiv(|g[0]|, size)
  {
    SplitByRunesShape(Join(g, SEPARATOR), size);
    OpenJoin(g, "x");
  }
}
