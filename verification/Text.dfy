/** Runes, white space, lines and decimal numerals: the parts of Go's `strings`,
    `unicode`, `bufio` and `strconv` packages that the repository leans on.
    Text is a sequence of runes, that is, valid UTF-8. */
module Text {

  // ----- white space (unicode.IsSpace) and trimming -----

  /** The runes of unicode.IsSpace, as ranges. */
  const SPACES: seq<(int, int)> := [
    (0x09, 0x0D), (0x20, 0x20), (0x85, 0x85), (0xA0, 0xA0), (0x1680, 0x1680),
    (0x2000, 0x200A), (0x2028, 0x2029), (0x202F, 0x202F), (0x205F, 0x205F), (0x3000, 0x3000)]

  predicate InRanges(r: int, ranges: seq<(int, int)>, k: nat)
    decreases |ranges| - k
  {
    k < |ranges| && (ranges[k].0 <= r <= ranges[k].1 || InRanges(r, ranges, k + 1))
  }

  predicate IsSpace(c: char) {
    InRanges(c as int, SPACES, 0)
  }

  lemma {:induction false} InRangesMeaning(r: int, ranges: seq<(int, int)>, k: nat)
    ensures InRanges(r, ranges, k) <==> exists i :: k <= i < |ranges| && ranges[i].0 <= r <= ranges[i].1
    decreases |ranges| - k
  {
    if k < |ranges| {
      InRangesMeaning(r, ranges, k + 1);
    }
  }

  /** Tab to carriage return, space, and the other ten runs of white space. */
  lemma SpacesExactly(c: char)
    ensures IsSpace(c)
       <==> '\t' <= c <= '\r' || c in {' ', '\U{0085}', '\U{00A0}', '\U{1680}'} || '\U{2000}' <= c <= '\U{200A}'
            || c in {'\U{2028}', '\U{2029}', '\U{202F}', '\U{205F}', '\U{3000}'}
  {
  }

  lemma SpaceRunes()
    ensures IsSpace('\n') && IsSpace('\r') && IsSpace(' ')
    ensures !IsSpace('-') && !IsSpace(':') && !IsSpace('t') && !IsSpace('e')
  {
    InRangesMeaning('\n' as int, SPACES, 0);
    InRangesMeaning('\r' as int, SPACES, 0);
    InRangesMeaning(' ' as int, SPACES, 0);
    InRangesMeaning('-' as int, SPACES, 0);
    InRangesMeaning(':' as int, SPACES, 0);
    InRangesMeaning('t' as int, SPACES, 0);
    InRangesMeaning('e' as int, SPACES, 0);
    var r := ' ' as int;
    assert SPACES[1].0 <= r <= SPACES[1].1;
    assert SPACES[0].0 <= '\n' as int <= SPACES[0].1;
    assert SPACES[0].0 <= '\r' as int <= SPACES[0].1;
  }

  predicate Blank(s: string) {
    forall i | 0 <= i < |s| :: IsSpace(s[i])
  }

  /** Drops the longest prefix whose runes are all in the cut set. */
  function TrimLeft(cutset: char -> bool, s: string): string {
    if s != "" && cutset(s[0]) then TrimLeft(cutset, s[1..]) else s
  }

  /** Drops the longest suffix whose runes are all in the cut set. */
  function TrimRight(cutset: char -> bool, s: string): string {
    if s != "" && cutset(s[|s| - 1]) then TrimRight(cutset, s[..|s| - 1]) else s
  }

  lemma {:induction false} TrimLeftShape(cutset: char -> bool, s: string)
    ensures var t := TrimLeft(cutset, s);
      && |t| <= |s| && t == s[|s| - |t|..]
      && (forall i | 0 <= i < |s| - |t| :: cutset(s[i]))
      && (t == "" || !cutset(t[0]))
  {
    if s != "" && cutset(s[0]) {
      TrimLeftShape(cutset, s[1..]);
      assert forall i | 1 <= i < |s| :: s[i] == s[1..][i - 1];
    }
  }

  lemma {:induction false} TrimRightShape(cutset: char -> bool, s: string)
    ensures var t := TrimRight(cutset, s);
      && |t| <= |s| && t == s[..|t|]
      && (forall i | |t| <= i < |s| :: cutset(s[i]))
      && (t == "" || !cutset(t[|t| - 1]))
  {
    if s != "" && cutset(s[|s| - 1]) {
      TrimRightShape(cutset, s[..|s| - 1]);
    }
  }

  /** No rune of the cut set at either edge. */
  predicate TrimmedOf(cutset: char -> bool, s: string) {
    s == "" || (!cutset(s[0]) && !cutset(s[|s| - 1]))
  }

  function Trim(cutset: char -> bool, s: string): string {
    TrimRight(cutset, TrimLeft(cutset, s))
  }

  lemma TrimIdempotent(cutset: char -> bool, s: string)
    ensures TrimmedOf(cutset, Trim(cutset, s))
    ensures TrimmedOf(cutset, s) ==> Trim(cutset, s) == s
    ensures |Trim(cutset, s)| <= |s|
    ensures forall c :: c in Trim(cutset, s) ==> c in s
  {
    TrimLeftShape(cutset, s);
    TrimRightShape(cutset, TrimLeft(cutset, s));
  }

  function TrimSpace(s: string): string {
    Trim(IsSpace, s)
  }

  predicate Trimmed(s: string) {
    TrimmedOf(IsSpace, s)
  }

  /** Trimming leaves no white space at the edges, and changes nothing else. */
  lemma TrimSpaceTrimmed(s: string)
    ensures Trimmed(TrimSpace(s))
    ensures Trimmed(s) ==> TrimSpace(s) == s
    ensures |TrimSpace(s)| <= |s|
    ensures forall c :: c in TrimSpace(s) ==> c in s
  {
    TrimIdempotent(IsSpace, s);
  }

  lemma TrimLeftEmpty(cutset: char -> bool, s: string)
    ensures TrimLeft(cutset, s) == "" <==> forall i | 0 <= i < |s| :: cutset(s[i])
  {
    TrimLeftShape(cutset, s);
    var l := TrimLeft(cutset, s);
    if l != "" {
      assert l[0] == s[|s| - |l|];
    }
  }

  lemma TrimRightEmpty(cutset: char -> bool, s: string)
    ensures TrimRight(cutset, s) == "" <==> forall i | 0 <= i < |s| :: cutset(s[i])
  {
    TrimRightShape(cutset, s);
  }

  lemma TrimEmpty(cutset: char -> bool, s: string)
    ensures Trim(cutset, s) == "" <==> forall i | 0 <= i < |s| :: cutset(s[i])
  {
    TrimLeftShape(cutset, s);
    TrimLeftEmpty(cutset, s);
    TrimRightEmpty(cutset, TrimLeft(cutset, s));
    var l := TrimLeft(cutset, s);
    if l != "" {
      assert !cutset(l[0]);
    }
  }

  lemma TrimSpaceEmpty(s: string)
    ensures TrimSpace(s) == "" <==> Blank(s)
  {
    TrimEmpty(IsSpace, s);
  }

  // ----- trimming a concatenation -----

  predicate AllIn(cutset: char -> bool, s: string) {
    forall i | 0 <= i < |s| :: cutset(s[i])
  }

  lemma {:induction false} TrimLeftBlank(cutset: char -> bool, a: string, b: string)
    requires AllIn(cutset, a)
    ensures TrimLeft(cutset, a + b) == TrimLeft(cutset, b)
  {
    if a == "" {
      assert a + b == b;
    } else {
      TrimLeftBlank(cutset, a[1..], b);
      assert (a + b)[1..] == a[1..] + b;
    }
  }

  lemma {:induction false} TrimLeftVisible(cutset: char -> bool, a: string, b: string)
    requires !AllIn(cutset, a)
    ensures TrimLeft(cutset, a + b) == TrimLeft(cutset, a) + b
  {
    assert (a + b)[0] == a[0];
    if cutset(a[0]) {
      assert !AllIn(cutset, a[1..]) by {
        var i :| 0 <= i < |a| && !cutset(a[i]);
        assert a[1..][i - 1] == a[i];
      }
      TrimLeftVisible(cutset, a[1..], b);
      assert (a + b)[1..] == a[1..] + b;
    }
  }

  lemma {:induction false} TrimRightBlank(cutset: char -> bool, a: string, b: string)
    requires AllIn(cutset, b)
    ensures TrimRight(cutset, a + b) == TrimRight(cutset, a)
  {
    if b == "" {
      assert a + b == a;
    } else {
      var k := |b| - 1;
      TrimRightBlank(cutset, a, b[..k]);
      assert (a + b)[..|a| + k] == a + b[..k];
    }
  }

  lemma {:induction false} TrimRightVisible(cutset: char -> bool, a: string, b: string)
    requires !AllIn(cutset, b)
    ensures TrimRight(cutset, a + b) == a + TrimRight(cutset, b)
  {
    var k := |b| - 1;
    assert (a + b)[|a| + k] == b[k];
    if cutset(b[k]) {
      assert !AllIn(cutset, b[..k]) by {
        var i :| 0 <= i < |b| && !cutset(b[i]);
        assert b[..k][i] == b[i];
      }
      TrimRightVisible(cutset, a, b[..k]);
      assert (a + b)[..|a| + k] == a + b[..k];
    }
  }

  // ----- the runes outside a cut set; for white space, the visible text -----

  function Without(cutset: char -> bool, s: string): string {
    if s == "" then ""
    else (if cutset(s[0]) then "" else [s[0]]) + Without(cutset, s[1..])
  }

  lemma {:induction false} WithoutConcat(cutset: char -> bool, a: string, b: string)
    ensures Without(cutset, a + b) == Without(cutset, a) + Without(cutset, b)
  {
    if a == "" {
      assert a + b == b;
    } else {
      WithoutConcat(cutset, a[1..], b);
      assert (a + b)[0] == a[0] && (a + b)[1..] == a[1..] + b;
      Assoc(if cutset(a[0]) then "" else [a[0]], Without(cutset, a[1..]), Without(cutset, b));
    }
  }

  lemma {:induction false} WithoutAll(cutset: char -> bool, s: string)
    requires forall i | 0 <= i < |s| :: cutset(s[i])
    ensures Without(cutset, s) == ""
  {
    if s != "" {
      WithoutAll(cutset, s[1..]);
    }
  }

  lemma {:induction false} WithoutTrimLeft(cutset: char -> bool, s: string)
    ensures Without(cutset, TrimLeft(cutset, s)) == Without(cutset, s)
  {
    if s != "" && cutset(s[0]) {
      WithoutTrimLeft(cutset, s[1..]);
    }
  }

  lemma {:induction false} WithoutTrimRight(cutset: char -> bool, s: string)
    ensures Without(cutset, TrimRight(cutset, s)) == Without(cutset, s)
  {
    if s != "" && cutset(s[|s| - 1]) {
      var front, last := s[..|s| - 1], [s[|s| - 1]];
      WithoutTrimRight(cutset, front);
      WithoutAll(cutset, last);
      WithoutConcat(cutset, front, last);
      assert s == front + last;
    }
  }

  lemma WithoutTrim(cutset: char -> bool, s: string)
    ensures Without(cutset, Trim(cutset, s)) == Without(cutset, s)
  {
    WithoutTrimLeft(cutset, s);
    WithoutTrimRight(cutset, TrimLeft(cutset, s));
  }

  function NonSpace(s: string): string {
    Without(IsSpace, s)
  }

  lemma NonSpaceConcat(a: string, b: string)
    ensures NonSpace(a + b) == NonSpace(a) + NonSpace(b)
  {
    WithoutConcat(IsSpace, a, b);
  }

  lemma NonSpaceBlank(s: string)
    requires Blank(s)
    ensures NonSpace(s) == ""
  {
    WithoutAll(IsSpace, s);
  }

  lemma NonSpaceTrim(s: string)
    ensures NonSpace(TrimSpace(s)) == NonSpace(s)
  {
    WithoutTrim(IsSpace, s);
  }

  // ----- joining and concatenating -----

  function Flatten<T>(parts: seq<seq<T>>): seq<T> {
    if parts == [] then [] else parts[0] + Flatten(parts[1..])
  }

  lemma {:induction false} FlattenAppend<T>(a: seq<seq<T>>, b: seq<seq<T>>)
    ensures Flatten(a + b) == Flatten(a) + Flatten(b)
  {
    if a == [] {
      assert a + b == b;
    } else {
      FlattenAppend(a[1..], b);
      assert (a + b)[0] == a[0] && (a + b)[1..] == a[1..] + b;
      Assoc(a[0], Flatten(a[1..]), Flatten(b));
    }
  }

  lemma FlattenOne<T>(part: seq<T>)
    ensures Flatten([part]) == part
  {
    assert Flatten([part]) == part + Flatten([]);
  }

  function Concat(parts: seq<string>): string {
    Flatten(parts)
  }

  lemma ConcatAppend(a: seq<string>, b: seq<string>)
    ensures Concat(a + b) == Concat(a) + Concat(b)
  {
    FlattenAppend(a, b);
  }

  /** The visible runes of a list of texts. */
  function Visible(parts: seq<string>): string {
    NonSpace(Concat(parts))
  }

  lemma VisibleAppend(a: seq<string>, b: seq<string>)
    ensures Visible(a + b) == Visible(a) + Visible(b)
  {
    ConcatAppend(a, b);
    NonSpaceConcat(Concat(a), Concat(b));
  }

  lemma VisibleOne(part: string)
    ensures Visible([part]) == NonSpace(part)
  {
    FlattenOne(part);
  }

  lemma Assoc<T>(a: seq<T>, b: seq<T>, c: seq<T>)
    ensures a + (b + c) == (a + b) + c
  {
  }

  function Join(parts: seq<string>, sep: string): string {
    if parts == [] then ""
    else if |parts| == 1 then parts[0]
    else parts[0] + sep + Join(parts[1..], sep)
  }

  lemma {:induction false} JoinAppend(a: seq<string>, b: seq<string>, sep: string)
    requires a != [] && b != []
    ensures Join(a + b, sep) == Join(a, sep) + sep + Join(b, sep)
  {
    assert (a + b)[1..] == a[1..] + b;
    if |a| == 1 {
      assert a[1..] + b == b;
    } else {
      JoinAppend(a[1..], b, sep);
      assert Join(a + b, sep) == a[0] + sep + (Join(a[1..], sep) + sep + Join(b, sep));
    }
  }

  lemma JoinSnoc(a: seq<string>, p: string, sep: string)
    requires a != []
    ensures Join(a + [p], sep) == Join(a, sep) + sep + p
  {
    JoinAppend(a, [p], sep);
  }

  lemma {:induction false} NonSpaceJoin(parts: seq<string>, sep: string)
    requires Blank(sep)
    ensures NonSpace(Join(parts, sep)) == NonSpace(Concat(parts))
  {
    if |parts| == 1 {
      assert Concat(parts) == parts[0] + Concat([]);
      assert parts[1..] == [];
      assert parts[0] + "" == parts[0];
    } else if |parts| > 1 {
      NonSpaceJoin(parts[1..], sep);
      NonSpaceConcat(parts[0] + sep, Join(parts[1..], sep));
      NonSpaceConcat(parts[0], sep);
      NonSpaceBlank(sep);
      NonSpaceConcat(parts[0], Concat(parts[1..]));
    }
  }

  // ----- lines (bufio.ScanLines) -----

  /** The pieces between newlines: n newlines make n + 1 pieces. */
  function Split(s: string): (pieces: seq<string>)
    ensures |pieces| > 0
  {
    if s == "" then [""]
    else if s[0] == '\n' then [""] + Split(s[1..])
    else
      var rest := Split(s[1..]);
      [[s[0]] + rest[0]] + rest[1..]
  }

  function DropCR(line: string): string {
    if line != "" && line[|line| - 1] == '\r' then line[..|line| - 1] else line
  }

  function DropCRs(pieces: seq<string>): (lines: seq<string>)
    ensures |lines| == |pieces|
    ensures forall i | 0 <= i < |lines| :: lines[i] == DropCR(pieces[i])
  {
    if pieces == [] then [] else [DropCR(pieces[0])] + DropCRs(pieces[1..])
  }

  /** A text that ends in a newline, or is empty, has no last line after it. */
  function Kept(pieces: seq<string>): seq<string>
    requires pieces != []
  {
    if pieces[|pieces| - 1] == "" then pieces[..|pieces| - 1] else pieces
  }

  /** What the scanner returns: each line loses one trailing carriage return. */
  function Lines(s: string): seq<string> {
    DropCRs(Kept(Split(s)))
  }

  predicate OneLine(s: string) {
    '\n' !in s
  }

  lemma {:induction false} SplitPieces(s: string)
    ensures forall i | 0 <= i < |Split(s)| :: OneLine(Split(s)[i])
    ensures '\r' !in s ==> forall i | 0 <= i < |Split(s)| :: '\r' !in Split(s)[i]
  {
    if s != "" {
      SplitPieces(s[1..]);
      if s[0] != '\n' {
        var rest := Split(s[1..]);
        assert forall c :: c in [s[0]] + rest[0] ==> c == s[0] || c in rest[0];
      }
    }
  }

  lemma {:induction false} SplitOneLine(s: string)
    requires OneLine(s)
    ensures Split(s) == [s]
  {
    if s != "" {
      SplitOneLine(s[1..]);
      assert s == [s[0]] + s[1..];
    }
  }

  lemma {:induction false} SplitAtNewline(a: string, b: string)
    ensures Split(a + "\n" + b) == Split(a) + Split(b)
  {
    var whole := a + "\n" + b;
    if a == "" {
      assert whole[0] == '\n' && whole[1..] == b;
    } else {
      SplitAtNewline(a[1..], b);
      assert whole[0] == a[0] && whole[1..] == a[1..] + "\n" + b;
      var rest := Split(a[1..]);
      if a[0] == '\n' {
        Assoc([""], rest, Split(b));
      } else {
        assert (rest + Split(b))[1..] == rest[1..] + Split(b);
        Assoc([[a[0]] + rest[0]], rest[1..], Split(b));
      }
    }
  }

  lemma {:induction false} SplitJoin(pieces: seq<string>)
    requires pieces != [] && forall i | 0 <= i < |pieces| :: OneLine(pieces[i])
    ensures Split(Join(pieces, "\n")) == pieces
  {
    SplitOneLine(pieces[0]);
    if |pieces| > 1 {
      SplitJoin(pieces[1..]);
      SplitAtNewline(pieces[0], Join(pieces[1..], "\n"));
      assert pieces == [pieces[0]] + pieces[1..];
    }
  }

  lemma {:induction false} JoinSplit(s: string)
    ensures Join(Split(s), "\n") == s
  {
    if s != "" {
      JoinSplit(s[1..]);
      var rest := Split(s[1..]);
      if s[0] == '\n' {
        assert Split(s)[1..] == rest;
      } else {
        var whole := Split(s);
        assert whole[1..] == rest[1..];
        if |rest| > 1 {
          assert whole[0] + "\n" + Join(rest[1..], "\n")
              == [s[0]] + (rest[0] + "\n" + Join(rest[1..], "\n"));
        }
      }
      assert s == [s[0]] + s[1..];
    }
  }

  lemma NonSpaceDropCR(line: string)
    ensures NonSpace(DropCR(line)) == NonSpace(line)
  {
    if line != "" && line[|line| - 1] == '\r' {
      var front := line[..|line| - 1];
      assert line == front + "\r";
      NonSpaceConcat(front, "\r");
      NonSpaceBlank("\r");
    }
  }

  lemma {:induction false} NonSpaceDropCRs(pieces: seq<string>)
    ensures NonSpace(Concat(DropCRs(pieces))) == NonSpace(Concat(pieces))
  {
    if pieces != [] {
      NonSpaceDropCRs(pieces[1..]);
      NonSpaceDropCR(pieces[0]);
      var lines := DropCRs(pieces);
      assert lines[1..] == DropCRs(pieces[1..]);
      NonSpaceConcat(lines[0], Concat(lines[1..]));
      NonSpaceConcat(pieces[0], Concat(pieces[1..]));
    }
  }

  /** Scanning into lines loses nothing but white space. */
  lemma NonSpaceLines(s: string)
    ensures NonSpace(Concat(Lines(s))) == NonSpace(s)
  {
    var pieces := Split(s);
    var front, last := pieces[..|pieces| - 1], pieces[|pieces| - 1];
    assert pieces == front + [last];
    ConcatAppend(front, [last]);
    FlattenOne(last);
    JoinSplit(s);
    NonSpaceJoin(pieces, "\n");
    NonSpaceDropCRs(if last == "" then front else pieces);
    assert Concat(front) + "" == Concat(front);
  }

  lemma DropCRsCons(piece: string, pieces: seq<string>)
    ensures DropCRs([piece] + pieces) == [DropCR(piece)] + DropCRs(pieces)
  {
    assert ([piece] + pieces)[1..] == pieces;
  }

  lemma PieceRead(piece: string, rest: string)
    requires OneLine(piece)
    ensures Lines(piece + "\n" + rest) == [DropCR(piece)] + Lines(rest)
  {
    var pieces := Split(rest);
    SplitOneLine(piece);
    SplitAtNewline(piece, rest);
    assert ([piece] + pieces)[|pieces|] == pieces[|pieces| - 1];
    assert Kept([piece] + pieces) == [piece] + Kept(pieces);
    DropCRsCons(piece, Kept(pieces));
  }

  lemma DropCREnd(line: string)
    ensures DropCR(line + "\r") == line
    ensures line == "" || line[|line| - 1] != '\r' ==> DropCR(line) == line
  {
    assert (line + "\r")[..|line|] == line;
  }

  lemma EndApart(line: string, rest: string)
    ensures line + "\r\n" + rest == (line + "\r") + "\n" + rest
  {
    Assoc(line, "\r", "\n");
    assert "\r" + "\n" == "\r\n";
  }

  /** A line ends at a newline, and a carriage return right before that, or at the very
      end, is no part of it. */
  lemma LineRead(line: string, rest: string)
    requires OneLine(line)
    ensures Lines(line + "\r\n" + rest) == [line] + Lines(rest)
    ensures line == "" || line[|line| - 1] != '\r' ==> Lines(line + "\n" + rest) == [line] + Lines(rest)
  {
    DropCREnd(line);
    EndApart(line, rest);
    PieceRead(line, rest);
    PieceRead(line + "\r", rest);
  }

  lemma LastLineRead(line: string)
    requires OneLine(line)
    ensures Lines(line + "\r") == [line]
    ensures line != "" && line[|line| - 1] != '\r' ==> Lines(line) == [line]
    ensures Lines("") == []
  {
    SplitOneLine(line);
    SplitOneLine(line + "\r");
    DropCRsCons(line, []);
    DropCRsCons(line + "\r", []);
    assert [line] + [] == [line] && [line + "\r"] + [] == [line + "\r"];
  }

  /** Lines as an editor shows them: no line end inside. */
  predicate PlainLines(lines: seq<string>) {
    forall i | 0 <= i < |lines| :: '\n' !in lines[i] && '\r' !in lines[i]
  }

  lemma KeptCons(lines: seq<string>)
    requires |lines| > 1
    ensures Kept(lines) == [lines[0]] + Kept(lines[1..])
  {
    assert lines == [lines[0]] + lines[1..];
    assert lines[..|lines| - 1] == [lines[0]] + lines[1..][..|lines| - 2];
  }

  /** Both ways to end a line read back the lines; an empty one at the end is no line. */
  lemma {:induction false} LinesOfJoin(lines: seq<string>, end: string)
    requires lines != [] && PlainLines(lines) && (end == "\n" || end == "\r\n")
    ensures Lines(Join(lines, end)) == Kept(lines)
  {
    if |lines| == 1 {
      LastLineRead(lines[0]);
      assert lines == [lines[0]];
    } else {
      LinesOfJoin(lines[1..], end);
      LineRead(lines[0], Join(lines[1..], end));
      KeptCons(lines);
    }
  }

  lemma DropCRsIdentity(pieces: seq<string>)
    requires forall i | 0 <= i < |pieces| :: DropCR(pieces[i]) == pieces[i]
    ensures DropCRs(pieces) == pieces
  {
  }

  // ----- lower case and first occurrence -----

  /** strings.ToLower, as far as ASCII results go: besides A to Z only the dotted
      capital I and the Kelvin sign have an ASCII lower case. */
  function LowerRune(c: char): char {
    if 'A' <= c <= 'Z' then (c - 'A') + 'a'
    else if c == '\U{0130}' then 'i'
    else if c == '\U{212A}' then 'k'
    else c
  }

  /** The runes whose lower case is this letter. */
  lemma LowerExactly(c: char, letter: char)
    requires 'a' <= letter <= 'z'
    ensures LowerRune(c) == letter
       <==> c == letter || c as int + 32 == letter as int || (letter == 'i' && c == '\U{0130}')
            || (letter == 'k' && c == '\U{212A}')
    ensures !('A' <= c <= 'Z') && c != '\U{0130}' && c != '\U{212A}' ==> LowerRune(c) == c
  {
  }

  function ToLower(s: string): string {
    seq(|s|, i requires 0 <= i < |s| => LowerRune(s[i]))
  }

  /** The index of the first occurrence, or |s|. */
  function IndexOf(s: string, c: char): (k: nat)
    ensures k <= |s|
  {
    if s == "" || s[0] == c then 0 else 1 + IndexOf(s[1..], c)
  }

  lemma {:induction false} FirstIndex(a: string, c: char, b: string)
    requires c !in a
    ensures IndexOf(a + [c] + b, c) == |a|
  {
    var s := a + [c] + b;
    if a != "" {
      FirstIndex(a[1..], c, b);
      assert s[0] == a[0] && s[1..] == a[1..] + [c] + b;
    }
  }

  lemma {:induction false} IndexOfFirst(s: string, c: char)
    ensures var k := IndexOf(s, c); c !in s[..k] && (k < |s| ==> s[k] == c)
  {
    if s != "" && s[0] != c {
      IndexOfFirst(s[1..], c);
      var k := IndexOf(s, c);
      assert s[..k] == [s[0]] + s[1..][..k - 1];
    }
  }

  // ----- decimal numerals (strconv, %d) -----

  predicate IsDigit(c: char) {
    '0' <= c <= '9'
  }

  function Digit(d: nat): (c: char)
    requires d < 10
    ensures IsDigit(c)
  {
    '0' + (d as char)
  }

  predicate AllDigits(s: string) {
    forall i | 0 <= i < |s| :: IsDigit(s[i])
  }

  function Decimal(n: nat): string {
    if n < 10 then [Digit(n)] else Decimal(n / 10) + [Digit(n % 10)]
  }

  const NUMERALS := "0123456789"

  lemma DigitIs(d: nat)
    requires d < 10
    ensures Digit(d) == NUMERALS[d]
  {
  }

  /** The last digit is that of n % 10, behind the numeral of n / 10. */
  lemma DecimalIs(n: nat)
    ensures Decimal(n) == (if n < 10 then "" else Decimal(n / 10)) + [NUMERALS[n % 10]]
  {
    DigitIs(n % 10);
  }

  lemma {:induction false} DecimalDigits(n: nat)
    ensures Decimal(n) != "" && AllDigits(Decimal(n))
  {
    if n >= 10 {
      DecimalDigits(n / 10);
    }
  }

  function DigitValue(c: char): nat
    requires IsDigit(c)
  {
    (c - '0') as int
  }

  function Value(s: string): nat
    requires AllDigits(s)
  {
    if s == "" then 0 else 10 * Value(s[..|s| - 1]) + DigitValue(s[|s| - 1])
  }

  lemma {:induction false} DecimalValue(n: nat)
    ensures AllDigits(Decimal(n)) && Value(Decimal(n)) == n
  {
    DecimalDigits(n);
    if n < 10 {
      assert Decimal(n)[..0] == "";
      assert Value("") == 0;
    } else {
      DecimalValue(n / 10);
      DecimalDigits(n / 10);
      assert Decimal(n)[..|Decimal(n)| - 1] == Decimal(n / 10);
    }
  }
}
