/** The two ways to end a line (bufio.ScanLines, on which internal/vault/parser.go and
    internal/chunk/cut.go rest): a note indexes the same in both. */
module LineEnds {
  import opened Outcome
  import opened Text
  import opened Frontmatter
  import opened Chunker

  predicate IsEnd(end: string) {
    end == "\n" || end == "\r\n"
  }

  lemma EndBlank(end: string)
    requires IsEnd(end)
    ensures Blank(end)
  {
    SpaceRunes();
  }

  // ----- trimming a text trims its first and last lines -----

  /** The lines left of a text that is trimmed on the left. */
  function LeftLines(lines: seq<string>): seq<string>
    requires lines != []
  {
    if |lines| > 1 && Blank(lines[0]) then LeftLines(lines[1..])
    else [TrimLeft(IsSpace, lines[0])] + lines[1..]
  }

  function RightLines(lines: seq<string>): seq<string>
    requires lines != []
  {
    var k := |lines| - 1;
    if k > 0 && Blank(lines[k]) then RightLines(lines[..k])
    else lines[..k] + [TrimRight(IsSpace, lines[k])]
  }

  lemma JoinCons(line: string, lines: seq<string>, end: string)
    requires lines != []
    ensures Join([line] + lines, end) == line + (end + Join(lines, end))
  {
    assert ([line] + lines)[1..] == lines;
    Assoc(line, end, Join(lines, end));
  }

  lemma {:induction false} LeftJoin(lines: seq<string>, end: string)
    requires lines != [] && IsEnd(end)
    ensures TrimLeft(IsSpace, Join(lines, end)) == Join(LeftLines(lines), end) && LeftLines(lines) != []
  {
    var line, rest := lines[0], lines[1..];
    assert lines == [line] + rest;
    if rest != [] {
      JoinCons(line, rest, end);
      JoinCons(TrimLeft(IsSpace, line), rest, end);
      if Blank(line) {
        EndBlank(end);
        TrimLeftBlank(IsSpace, line, end + Join(rest, end));
        TrimLeftBlank(IsSpace, end, Join(rest, end));
        LeftJoin(rest, end);
      } else {
        TrimLeftVisible(IsSpace, line, end + Join(rest, end));
      }
    }
  }

  lemma {:induction false} RightJoin(lines: seq<string>, end: string)
    requires lines != [] && IsEnd(end)
    ensures TrimRight(IsSpace, Join(lines, end)) == Join(RightLines(lines), end) && RightLines(lines) != []
  {
    var k := |lines| - 1;
    var rest, line := lines[..k], lines[k];
    assert lines == rest + [line];
    if rest != [] {
      JoinSnoc(rest, line, end);
      JoinSnoc(rest, TrimRight(IsSpace, line), end);
      if Blank(line) {
        EndBlank(end);
        TrimRightBlank(IsSpace, Join(rest, end) + end, line);
        TrimRightBlank(IsSpace, Join(rest, end), end);
        RightJoin(rest, end);
      } else {
        TrimRightVisible(IsSpace, Join(rest, end) + end, line);
      }
    }
  }

  lemma PlainPart(a: string, b: string)
    requires '\n' !in b && '\r' !in b && forall c | c in a :: c in b
    ensures '\n' !in a && '\r' !in a
  {
  }

  lemma {:induction false} LeftPlain(lines: seq<string>)
    requires lines != [] && PlainLines(lines)
    ensures PlainLines(LeftLines(lines))
  {
    if |lines| > 1 && Blank(lines[0]) {
      LeftPlain(lines[1..]);
    } else {
      TrimLeftShape(IsSpace, lines[0]);
      PlainPart(TrimLeft(IsSpace, lines[0]), lines[0]);
    }
  }

  lemma {:induction false} RightPlain(lines: seq<string>)
    requires lines != [] && PlainLines(lines)
    ensures PlainLines(RightLines(lines))
  {
    var k := |lines| - 1;
    if k > 0 && Blank(lines[k]) {
      RightPlain(lines[..k]);
    } else {
      TrimRightShape(IsSpace, lines[k]);
      PlainPart(TrimRight(IsSpace, lines[k]), lines[k]);
    }
  }

  /** The trimmed text of some lines is that of other lines, whichever way they end. */
  lemma TrimmedLines(lines: seq<string>) returns (inner: seq<string>)
    requires lines != [] && PlainLines(lines)
    ensures inner != [] && PlainLines(inner)
    ensures forall end | IsEnd(end) :: TrimSpace(Join(lines, end)) == Join(inner, end)
  {
    var left := LeftLines(lines);
    LeftJoin(lines, "\n");
    LeftPlain(lines);
    inner := RightLines(left);
    RightJoin(left, "\n");
    RightPlain(left);
    forall end | IsEnd(end) ensures TrimSpace(Join(lines, end)) == Join(inner, end) {
      LeftJoin(lines, end);
      RightJoin(left, end);
    }
  }

  // ----- chunks -----

  /** A text has the same lines, the same paragraphs and the same chunks in both
      spellings. */
  lemma ChunksEitherWay(lines: seq<string>, size: nat)
    requires lines != [] && PlainLines(lines) && size > 0
    ensures Lines(Join(lines, "\r\n")) == Lines(Join(lines, "\n"))
    ensures Paragraphs(Join(lines, "\r\n")) == Paragraphs(Join(lines, "\n"))
    ensures Chunks(Join(lines, "\r\n"), size) == Chunks(Join(lines, "\n"), size)
  {
    LinesOfJoin(lines, "\n");
    LinesOfJoin(lines, "\r\n");
    var inner := TrimmedLines(lines);
    assert IsEnd("\n") && IsEnd("\r\n");
    LinesOfJoin(inner, "\n");
    LinesOfJoin(inner, "\r\n");
  }

  // ----- notes -----

  function MarkedLines(lines: seq<string>): seq<string>
    requires lines != []
  {
    [TrimBOM(lines[0])] + lines[1..]
  }

  lemma MarkOfJoin(lines: seq<string>, end: string)
    requires lines != [] && IsEnd(end)
    ensures TrimBOM(Join(lines, end)) == Join(MarkedLines(lines), end)
  {
    var line, rest := lines[0], lines[1..];
    if rest == [] {
      assert Join(lines, end) == line;
    } else {
      var more := end + Join(rest, end);
      assert lines == [line] + rest;
      JoinCons(line, rest, end);
      JoinCons(TrimBOM(line), rest, end);
      assert (line + more)[0] == if line == "" then end[0] else line[0];
      if line != "" {
        assert (line + more)[1..] == line[1..] + more;
      }
    }
  }

  lemma ParsesAlike(a: string, b: string)
    requires Lines(TrimBOM(a)) == Lines(TrimBOM(b))
    ensures var lines := Lines(TrimBOM(a));
      if lines != [] && IsFence(lines[0]) then Parse(a) == Parse(b)
      else Parse(a) == Ok(Parsed("", TrimSpace(TrimBOM(a)))) && Parse(b) == Ok(Parsed("", TrimSpace(TrimBOM(b))))
  {
  }

  lemma FirstLine(lines: seq<string>)
    requires lines != []
    ensures IsFence(lines[0]) <==> Kept(lines) != [] && IsFence(Kept(lines)[0])
  {
    TrimSpaceTrimmed("");
    if IsFence(lines[0]) {
      assert lines[0] != "";
    }
  }

  lemma TrimmedChunks(text: string, size: nat)
    requires size > 0
    ensures Chunks(TrimSpace(text), size) == Chunks(text, size)
  {
    TrimSpaceTrimmed(text);
    TrimSpaceTrimmed(TrimSpace(text));
  }

  /** A file with a fence on its first line parses to the same note or the same error in
      both spellings; any other is its own body, which has the same chunks. */
  lemma NoteEitherWay(lines: seq<string>, size: nat)
    requires lines != [] && PlainLines(lines) && size > 0
    ensures var a, b := Parse(Join(lines, "\r\n")), Parse(Join(lines, "\n"));
      && (IsFence(TrimBOM(lines[0])) ==> a == b)
      && (a.Ok? <==> b.Ok?)
      && (a.Ok? ==> a.value.title == b.value.title && Chunks(a.value.body, size) == Chunks(b.value.body, size))
  {
    var marked := MarkedLines(lines);
    MarkOfJoin(lines, "\n");
    MarkOfJoin(lines, "\r\n");
    assert PlainLines(marked);
    ChunksEitherWay(marked, size);
    LinesOfJoin(marked, "\n");
    FirstLine(marked);
    ParsesAlike(Join(lines, "\r\n"), Join(lines, "\n"));
    TrimmedChunks(Join(marked, "\n"), size);
    TrimmedChunks(Join(marked, "\r\n"), size);
  }
}
