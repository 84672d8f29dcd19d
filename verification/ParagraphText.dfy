/** Paragraphs as text: printing a list of paragraphs with blank lines between
    them and reading it back (internal/chunk/cut.go, extractParagraphs), and what
    that means for chunking the output of the chunker again. */
module ParagraphText {
  import opened Text
  import opened Chunker

  /** A line that reading neither drops nor changes. */
  predicate PlainLine(l: string) {
    OneLine(l) && !Blank(l) && DropCR(l) == l
  }

  predicate PlainLines(ls: seq<string>) {
    forall i | 0 <= i < |ls| :: PlainLine(ls[i])
  }

  /** Trimmed, without a blank line inside and without a carriage return at the
      end of a line. */
  predicate IsParagraph(p: string) {
    p != "" && Trimmed(p) && PlainLines(Split(p))
  }

  predicate AllParagraphs(ps: seq<string>) {
    forall i | 0 <= i < |ps| :: IsParagraph(ps[i])
  }

  // ----- print, then read -----

  function PrintedLines(ps: seq<string>): seq<string>
    requires ps != []
  {
    if |ps| == 1 then Split(ps[0]) else Split(ps[0]) + [""] + PrintedLines(ps[1..])
  }

  lemma {:induction false} SplitPrinted(ps: seq<string>)
    requires ps != []
    ensures Split(Join(ps, SEPARATOR)) == PrintedLines(ps)
  {
    if |ps| > 1 {
      var rest := Join(ps[1..], SEPARATOR);
      SplitPrinted(ps[1..]);
      SplitAtNewline(ps[0], "\n" + rest);
      assert Join(ps, SEPARATOR) == ps[0] + "\n" + ("\n" + rest);
      assert ("\n" + rest)[1..] == rest;
      Assoc(Split(ps[0]), [""], Split(rest));
    }
  }

  lemma {:induction false} PrintedPieces(ps: seq<string>)
    requires ps != [] && AllParagraphs(ps)
    ensures var pieces := PrintedLines(ps);
      && pieces != [] && pieces[|pieces| - 1] != ""
      && forall i | 0 <= i < |pieces| :: DropCR(pieces[i]) == pieces[i]
  {
    var first := Split(ps[0]);
    assert IsParagraph(ps[0]);
    if |ps| == 1 {
      assert PlainLine(first[|first| - 1]);
      assert forall i | 0 <= i < |first| :: PlainLine(first[i]);
    } else {
      PrintedPieces(ps[1..]);
      assert forall i | 0 <= i < |first| :: PlainLine(first[i]);
      assert DropCR("") == "";
    }
  }

  lemma LinesPrinted(ps: seq<string>)
    requires ps != [] && AllParagraphs(ps)
    ensures Lines(Join(ps, SEPARATOR)) == PrintedLines(ps)
  {
    SplitPrinted(ps);
    PrintedPieces(ps);
    DropCRsIdentity(PrintedLines(ps));
  }

  lemma AddLineAssoc(cur: string, l: string, tail: string)
    requires l != ""
    ensures AddLine(AddLine(cur, l), tail) == AddLine(cur, l + "\n" + tail)
  {
    if cur != "" {
      Assoc(cur + "\n", l, "\n" + tail);
      Assoc(l, "\n", tail);
      Assoc(cur + "\n" + l, "\n", tail);
    }
  }

  lemma {:induction false} ReadPlainLines(ls: seq<string>, more: seq<string>, cur: string)
    requires ls != [] && PlainLines(ls)
    ensures ParagraphsFrom(ls + more, cur) == ParagraphsFrom(more, AddLine(cur, Join(ls, "\n")))
  {
    var l, rest := ls[0], ls[1..];
    assert PlainLine(l) && l != "";
    TrimSpaceEmpty(l);
    assert (ls + more)[0] == l && (ls + more)[1..] == rest + more;
    assert ParagraphsFrom(ls + more, cur) == ParagraphsFrom(rest + more, AddLine(cur, l));
    if |ls| == 1 {
      assert rest + more == more;
    } else {
      ReadPlainLines(rest, more, AddLine(cur, l));
      AddLineAssoc(cur, l, Join(rest, "\n"));
    }
  }

  lemma ReadParagraph(p: string, more: seq<string>)
    requires IsParagraph(p)
    ensures ParagraphsFrom(Split(p) + more, "") == ParagraphsFrom(more, p)
  {
    ReadPlainLines(Split(p), more, "");
    JoinSplit(p);
  }

  lemma FlushTrimmed(p: string)
    requires IsParagraph(p)
    ensures FlushParagraph(p) == [p]
  {
    TrimSpaceTrimmed(p);
  }

  lemma ReadBlankLine(cur: string, rest: seq<string>)
    ensures ParagraphsFrom([""] + rest, cur) == FlushParagraph(cur) + ParagraphsFrom(rest, "")
  {
    TrimSpaceEmpty("");
    assert ([""] + rest)[1..] == rest;
  }

  lemma ReadNext(p: string, lines: seq<string>)
    requires IsParagraph(p)
    ensures ParagraphsFrom(Split(p) + [""] + lines, "") == [p] + ParagraphsFrom(lines, "")
  {
    FlushTrimmed(p);
    ReadParagraph(p, [""] + lines);
    Assoc(Split(p), [""], lines);
    ReadBlankLine(p, lines);
  }

  lemma ReadLast(p: string)
    requires IsParagraph(p)
    ensures ParagraphsFrom(Split(p), "") == [p]
  {
    FlushTrimmed(p);
    ReadParagraph(p, []);
    assert Split(p) + [] == Split(p);
  }

  lemma {:induction false} ReadPrinted(ps: seq<string>)
    requires ps != [] && AllParagraphs(ps)
    ensures ParagraphsFrom(PrintedLines(ps), "") == ps
  {
    assert IsParagraph(ps[0]);
    if |ps| == 1 {
      ReadLast(ps[0]);
    } else {
      assert AllParagraphs(ps[1..]) by {
        assert forall i | 0 <= i < |ps[1..]| :: ps[1..][i] == ps[i + 1];
      }
      ReadPrinted(ps[1..]);
      ReadNext(ps[0], PrintedLines(ps[1..]));
      assert ps == [ps[0]] + ps[1..];
    }
  }

  /** Printing paragraphs and reading them back gives the same paragraphs. */
  lemma ParagraphRoundTrip(ps: seq<string>)
    requires AllParagraphs(ps)
    ensures Paragraphs(Join(ps, SEPARATOR)) == ps
  {
    if ps != [] {
      LinesPrinted(ps);
      ReadPrinted(ps);
    }
  }

  // ----- what is read can be printed -----

  lemma {:induction false} TrimLeftFirst(cutset: char -> bool, l: string, x: string)
    requires exists i :: 0 <= i < |l| && !cutset(l[i])
    ensures TrimLeft(cutset, l + x) == TrimLeft(cutset, l) + x
  {
    assert (l + x)[0] == l[0];
    if cutset(l[0]) {
      var k :| 0 <= k < |l| && !cutset(l[k]);
      assert l[1..][k - 1] == l[k];
      assert (l + x)[1..] == l[1..] + x;
      TrimLeftFirst(cutset, l[1..], x);
    }
  }

  lemma {:induction false} TrimRightLast(cutset: char -> bool, x: string, l: string)
    requires exists i :: 0 <= i < |l| && !cutset(l[i])
    ensures TrimRight(cutset, x + l) == x + TrimRight(cutset, l)
  {
    var n := |l| - 1;
    assert (x + l)[|x| + n] == l[n];
    if cutset(l[n]) {
      var k :| 0 <= k < |l| && !cutset(l[k]);
      assert l[..n][k] == l[k];
      assert (x + l)[..|x| + n] == x + l[..n];
      TrimRightLast(cutset, x, l[..n]);
    }
  }

  predicate NoBreaks(l: string) {
    '\n' !in l && '\r' !in l
  }

  /** A visible line without any line break rune. */
  predicate CleanLine(l: string) {
    NoBreaks(l) && exists i :: 0 <= i < |l| && !IsSpace(l[i])
  }

  predicate CleanLines(ls: seq<string>) {
    forall i | 0 <= i < |ls| :: CleanLine(ls[i])
  }

  lemma CleanIsPlain(l: string)
    requires CleanLine(l)
    ensures PlainLine(l)
  {
    var i :| 0 <= i < |l| && !IsSpace(l[i]);
    assert !Blank(l);
  }

  lemma TrimLeftClean(l: string)
    requires CleanLine(l)
    ensures CleanLine(TrimLeft(IsSpace, l))
  {
    var t := TrimLeft(IsSpace, l);
    TrimLeftShape(IsSpace, l);
    assert forall i | 0 <= i < |t| :: t[i] in l;
    TrimLeftEmpty(IsSpace, l);
    assert !IsSpace(t[0]);
  }

  lemma TrimRightClean(l: string)
    requires CleanLine(l)
    ensures CleanLine(TrimRight(IsSpace, l))
  {
    var t := TrimRight(IsSpace, l);
    TrimRightShape(IsSpace, l);
    assert forall i | 0 <= i < |t| :: t[i] in l;
    TrimRightEmpty(IsSpace, l);
    assert !IsSpace(t[|t| - 1]);
  }

  /** Trimming clean lines trims the first and the last of them. */
  lemma TrimJoined(ls: seq<string>) returns (out: seq<string>)
    requires ls != [] && CleanLines(ls)
    ensures out != [] && CleanLines(out) && TrimSpace(Join(ls, "\n")) == Join(out, "\n")
  {
    var left := TrimJoinedLeft(ls);
    out := TrimJoinedRight(left);
  }

  lemma TrimJoinedLeft(ls: seq<string>) returns (out: seq<string>)
    requires ls != [] && CleanLines(ls)
    ensures out != [] && CleanLines(out) && TrimLeft(IsSpace, Join(ls, "\n")) == Join(out, "\n")
  {
    assert CleanLine(ls[0]);
    out := [TrimLeft(IsSpace, ls[0])] + ls[1..];
    TrimLeftClean(ls[0]);
    forall i | 0 <= i < |out| ensures CleanLine(out[i]) {
      if i > 0 { assert out[i] == ls[i] && CleanLine(ls[i]); }
    }
    JoinHead(ls, "\n");
    JoinHead(out, "\n");
    assert out[1..] == ls[1..];
    assert JoinTail(out, "\n") == JoinTail(ls, "\n");
    TrimLeftFirst(IsSpace, ls[0], JoinTail(ls, "\n"));
  }

  lemma TrimJoinedRight(ls: seq<string>) returns (out: seq<string>)
    requires ls != [] && CleanLines(ls)
    ensures out != [] && CleanLines(out) && TrimRight(IsSpace, Join(ls, "\n")) == Join(out, "\n")
  {
    var init, last := ls[..|ls| - 1], ls[|ls| - 1];
    assert CleanLine(last);
    out := init + [TrimRight(IsSpace, last)];
    TrimRightClean(last);
    forall i | 0 <= i < |out| ensures CleanLine(out[i]) {
      if i < |init| { assert out[i] == ls[i] && CleanLine(ls[i]); }
    }
    assert ls == init + [last];
    JoinLast(init, last, "\n");
    JoinLast(init, TrimRight(IsSpace, last), "\n");
    TrimRightLast(IsSpace, JoinInit(init, "\n"), last);
  }

  function JoinTail(parts: seq<string>, sep: string): string
    requires parts != []
  {
    if |parts| == 1 then "" else sep + Join(parts[1..], sep)
  }

  lemma JoinHead(parts: seq<string>, sep: string)
    requires parts != []
    ensures Join(parts, sep) == parts[0] + JoinTail(parts, sep)
  {
  }

  function JoinInit(parts: seq<string>, sep: string): string {
    if parts == [] then "" else Join(parts, sep) + sep
  }

  lemma JoinLast(parts: seq<string>, last: string, sep: string)
    ensures Join(parts + [last], sep) == JoinInit(parts, sep) + last
  {
    if parts == [] {
      assert parts + [last] == [last];
    } else {
      JoinSnoc(parts, last, sep);
    }
  }

  lemma TrimmedBlockIsParagraph(ls: seq<string>)
    requires ls != [] && CleanLines(ls)
    ensures IsParagraph(TrimSpace(Join(ls, "\n")))
  {
    var out := TrimJoined(ls);
    var p := Join(out, "\n");
    TrimSpaceTrimmed(Join(ls, "\n"));
    forall i | 0 <= i < |out| ensures PlainLine(out[i]) {
      assert CleanLine(out[i]);
      CleanIsPlain(out[i]);
    }
    SplitJoin(out);
    assert p != "" by {
      JoinHead(out, "\n");
      assert CleanLine(out[0]);
    }
  }

  predicate NoBreaksIn(lines: seq<string>) {
    forall i | 0 <= i < |lines| :: NoBreaks(lines[i])
  }

  lemma {:induction false} ReadIsParagraphs(lines: seq<string>, block: seq<string>)
    requires NoBreaksIn(lines) && CleanLines(block)
    ensures AllParagraphs(ParagraphsFrom(lines, Join(block, "\n")))
    decreases |lines|
  {
    var cur := Join(block, "\n");
    if block != [] {
      TrimmedBlockIsParagraph(block);
    }
    assert AllParagraphs(FlushParagraph(cur));
    if lines != [] {
      var line := lines[0];
      assert NoBreaks(line);
      TrimSpaceEmpty(line);
      if TrimSpace(line) == "" {
        assert Join([], "\n") == "";
        ReadIsParagraphs(lines[1..], []);
        AllParagraphsAppend(FlushParagraph(cur), ParagraphsFrom(lines[1..], ""));
      } else {
        BlockGrows(block, line);
        ReadIsParagraphs(lines[1..], block + [line]);
      }
    }
  }

  lemma AllParagraphsAppend(a: seq<string>, b: seq<string>)
    requires AllParagraphs(a) && AllParagraphs(b)
    ensures AllParagraphs(a + b)
  {
    forall i | 0 <= i < |a + b| ensures IsParagraph((a + b)[i]) {
      assert (a + b)[i] == if i < |a| then a[i] else b[i - |a|];
    }
  }

  lemma BlockGrows(block: seq<string>, line: string)
    requires CleanLines(block) && NoBreaks(line) && !Blank(line)
    ensures CleanLines(block + [line])
    ensures Join(block + [line], "\n") == AddLine(Join(block, "\n"), line)
  {
    assert CleanLine(line);
    if block == [] {
      assert block + [line] == [line];
    } else {
      JoinSnoc(block, line, "\n");
      JoinHead(block, "\n");
      assert CleanLine(block[0]);
    }
  }

  /** The paragraphs of a text without carriage returns can be printed and read. */
  lemma ParagraphsArePrintable(text: string)
    requires '\r' !in text
    ensures AllParagraphs(Paragraphs(text))
  {
    SplitPieces(text);
    var pieces := Split(text);
    forall i | 0 <= i < |Lines(text)| ensures NoBreaks(Lines(text)[i]) {
      assert OneLine(pieces[i]) && '\r' !in pieces[i];
    }
    assert Join([], "\n") == "";
    ReadIsParagraphs(Lines(text), []);
  }

  // ----- chunking the chunks -----

  predicate Fit(ps: seq<string>, size: nat) {
    forall i | 0 <= i < |ps| :: |ps[i]| <= size
  }

  predicate FitGroups(gs: seq<seq<string>>, size: nat) {
    forall i | 0 <= i < |gs| :: gs[i] != [] && AllNonEmpty(gs[i]) && |Join(gs[i], SEPARATOR)| <= size
  }

  /** Joining the chunks of groups that fit gives back the joined paragraphs. */
  lemma {:induction false} JoinRendered(gs: seq<seq<string>>, size: nat)
    requires size > 0 && FitGroups(gs, size)
    ensures |Render(gs, size)| == |gs|
    ensures Join(Render(gs, size), SEPARATOR) == Join(Flatten(gs), SEPARATOR)
  {
    if gs != [] {
      var g, rest := gs[0], gs[1..];
      assert gs == [g] + rest;
      RenderAppend([g], rest, size);
      RenderOne(g, size);
      OpenJoin(g, "x");
      assert GroupChunks(g, size) == [Join(g, SEPARATOR)];
      JoinRendered(rest, size);
      if rest == [] {
        assert Render(rest, size) == [];
        assert Flatten(gs) == g;
      } else {
        assert rest[0] != [];
        assert Flatten(rest) == rest[0] + Flatten(rest[1..]);
        JoinAppend([Join(g, SEPARATOR)], Render(rest, size), SEPARATOR);
        JoinAppend(g, Flatten(rest), SEPARATOR);
      }
    }
  }

  lemma {:induction false} GroupsFit(gs: seq<seq<string>>, size: nat)
    requires ValidGrouping(gs, size) && AllNonEmpty(Flatten(gs)) && Fit(Flatten(gs), size)
    ensures FitGroups(gs, size)
  {
    if gs != [] {
      var g, rest := gs[0], Flatten(gs[1..]);
      var all := g + rest;
      assert ValidGroup(g, size);
      assert forall i | 0 <= i < |g| :: all[i] == g[i];
      assert forall i | 0 <= i < |rest| :: all[|g| + i] == rest[i];
      GroupsFit(gs[1..], size);
      assert |g| == 1 ==> Join(g, SEPARATOR) == g[0];
      forall i | 0 <= i < |gs|
        ensures gs[i] != [] && AllNonEmpty(gs[i]) && |Join(gs[i], SEPARATOR)| <= size
      {
        if i > 0 { assert gs[i] == gs[1..][i - 1]; }
      }
    }
  }

  predicate Edged(cutset: char -> bool, p: string) {
    p != "" && TrimmedOf(cutset, p)
  }

  lemma JoinedTrimmed(cutset: char -> bool, ps: seq<string>, sep: string)
    requires forall i | 0 <= i < |ps| :: Edged(cutset, ps[i])
    ensures TrimmedOf(cutset, Join(ps, sep))
  {
    if ps != [] {
      var n := |ps| - 1;
      var init, last := ps[..n], ps[n];
      assert ps == init + [last];
      JoinLast(init, last, sep);
      JoinHead(ps, sep);
      EdgesTrimmed(cutset, ps[0], JoinTail(ps, sep), JoinInit(init, sep), last);
    }
  }

  lemma EdgesTrimmed(cutset: char -> bool, first: string, tail: string, init: string, last: string)
    requires Edged(cutset, first) && Edged(cutset, last)
    requires first + tail == init + last
    ensures TrimmedOf(cutset, first + tail)
  {
    var s := first + tail;
    assert s[0] == first[0];
    assert s[|s| - 1] == last[|last| - 1];
  }

  /** Chunking is a fixpoint: a text without carriage returns whose paragraphs
      all fit a chunk has the same chunks as its printed chunks. */
  lemma ChunkingFixpoint(text: string, size: nat)
    requires size > 0 && '\r' !in text
    requires Fit(Paragraphs(TrimSpace(text)), size)
    ensures Chunks(Join(Chunks(text, size), SEPARATOR), size) == Chunks(text, size)
  {
    var trimmed := TrimSpace(text);
    var ps := Paragraphs(trimmed);
    TrimSpaceTrimmed(text);
    ParagraphsArePrintable(trimmed);
    assert AllNonEmpty(ps) by {
      assert forall i | 0 <= i < |ps| :: IsParagraph(ps[i]);
    }
    var gs := Groups(ps, [], size);
    assert Join([], SEPARATOR) == "" && [] + ps == ps;
    PackIsGrouping(ps, [], size);
    GroupsFit(gs, size);
    JoinRendered(gs, size);
    assert forall i | 0 <= i < |ps| :: Edged(IsSpace, ps[i]) by {
      assert forall i | 0 <= i < |ps| :: IsParagraph(ps[i]);
    }
    JoinedTrimmed(IsSpace, ps, SEPARATOR);
    TrimSpaceTrimmed(Join(ps, SEPARATOR));
    ParagraphRoundTrip(ps);
  }
}
