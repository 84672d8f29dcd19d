/** The frontmatter parser, internal/vault/parser.go: a line scanner that finds
    the title between two `---` lines and takes the rest of the file as body. */
module Frontmatter {
  import opened Outcome
  import opened Text

  datatype Parsed = Parsed(title: string, body: string)

  datatype ParseError = UnclosedFrontmatter

  const FENCE := "---"
  const TITLE := "title"
  const BOM: char := '\U{FEFF}'

  function TrimBOM(s: string): string {
    if s != "" && s[0] == BOM then s[1..] else s
  }

  predicate IsQuote(c: char) {
    c == '"' || c == '\''
  }

  // ----- what the parser computes -----

  predicate IsFence(line: string) {
    TrimSpace(line) == FENCE
  }

  /** The title after reading one frontmatter line; the last one wins. */
  function NextTitle(title: string, line: string): string {
    var l := TrimSpace(line);
    var k := IndexOf(l, ':');
    if k == |l| then title
    else if ToLower(TrimSpace(l[..k])) == TITLE then Trim(IsQuote, TrimSpace(l[k + 1..]))
    else title
  }

  function Unlines(lines: seq<string>): string {
    if lines == [] then "" else lines[0] + "\n" + Unlines(lines[1..])
  }

  function InsideFrontmatter(lines: seq<string>, title: string): Result<Parsed, ParseError> {
    if lines == [] then Err(UnclosedFrontmatter)
    else if IsFence(lines[0]) then Ok(Parsed(title, TrimSpace(Unlines(lines[1..]))))
    else InsideFrontmatter(lines[1..], NextTitle(title, lines[0]))
  }

  function Parse(content: string): Result<Parsed, ParseError> {
    var text := TrimBOM(content);
    var lines := Lines(text);
    if lines == [] || !IsFence(lines[0]) then Ok(Parsed("", TrimSpace(text)))
    else InsideFrontmatter(lines[1..], "")
  }

  method YamlParser(content: string) returns (r: Result<Parsed, ParseError>)
    ensures r == Parse(content)
  {
    var text := TrimBOM(content);
    var lines := Lines(text);
    var title, body := "", "";
    var foundStart, inFrontmatter, bodyStarted := false, false, false;
    for i := 0 to |lines|
      invariant foundStart <==> i > 0
      invariant !foundStart ==> !inFrontmatter && !bodyStarted && title == ""
      invariant foundStart ==> inFrontmatter != bodyStarted
      invariant !bodyStarted ==> body == ""
      invariant inFrontmatter ==> InsideFrontmatter(lines[i..], title) == Parse(content)
      invariant bodyStarted ==> InBody(lines, i, title, body, Parse(content))
    {
      var rawLine := lines[i];
      var trimmedLine := TrimSpace(rawLine);
      assert lines[i..][0] == rawLine && lines[i..][1..] == lines[i + 1..];
      if bodyStarted {
        BodyStep(lines, i, title, body, Parse(content));
        body := body + rawLine;
        body := body + "\n";
        continue;
      }
      if !foundStart {
        if trimmedLine == "---" {
          foundStart := true;
          inFrontmatter := true;
          continue;
        }
        return Ok(Parsed("", TrimSpace(text)));
      }
      if inFrontmatter && trimmedLine == "---" {
        inFrontmatter := false;
        bodyStarted := true;
        assert "" + Unlines(lines[i + 1..]) == Unlines(lines[i + 1..]);
        continue;
      }
      if inFrontmatter {
        ghost var before := title;
        var k := IndexOf(trimmedLine, ':');
        if k == |trimmedLine| {
          assert NextTitle(before, rawLine) == title;
          continue;
        }
        var key := ToLower(TrimSpace(trimmedLine[..k]));
        var val := TrimSpace(trimmedLine[k + 1..]);
        val := Trim(IsQuote, val);
        if key == "title" {
          title := val;
        }
        assert NextTitle(before, rawLine) == title;
      }
    }
    assert lines[|lines|..] == [];
    if inFrontmatter {
      return Err(UnclosedFrontmatter);
    }
    assert body + "" == body;
    if lines == [] {
      LinesEmpty(text);
    }
    return Ok(Parsed(title, TrimSpace(body)));
  }

  ghost predicate InBody(lines: seq<string>, i: nat, title: string, body: string, r: Result<Parsed, ParseError>)
    requires i <= |lines|
  {
    r == Ok(Parsed(title, TrimSpace(body + Unlines(lines[i..]))))
  }

  lemma BodyStep(lines: seq<string>, i: nat, title: string, body: string, r: Result<Parsed, ParseError>)
    requires i < |lines| && InBody(lines, i, title, body, r)
    ensures InBody(lines, i + 1, title, body + lines[i] + "\n", r)
  {
    var rest := Unlines(lines[i + 1..]);
    assert lines[i..][1..] == lines[i + 1..];
    assert body + (lines[i] + "\n" + rest) == body + lines[i] + "\n" + rest;
  }

  lemma LinesEmpty(text: string)
    ensures Lines(text) == [] <==> text == ""
  {
    JoinSplit(text);
  }

  // ----- classification -----

  predicate SomeFence(lines: seq<string>) {
    exists i :: 0 <= i < |lines| && IsFence(lines[i])
  }

  lemma SomeFenceCons(line: string, rest: seq<string>)
    ensures SomeFence([line] + rest) <==> IsFence(line) || SomeFence(rest)
  {
    var lines := [line] + rest;
    if IsFence(line) {
      assert IsFence(lines[0]);
    }
    if SomeFence(rest) {
      var i :| 0 <= i < |rest| && IsFence(rest[i]);
      assert IsFence(lines[i + 1]);
    }
    if SomeFence(lines) {
      var i :| 0 <= i < |lines| && IsFence(lines[i]);
      assert i > 0 ==> lines[i] == rest[i - 1];
    }
  }

  lemma {:induction false} UnclosedIffNoFence(lines: seq<string>, title: string)
    ensures InsideFrontmatter(lines, title).Err? <==> !SomeFence(lines)
  {
    if lines != [] {
      var line, rest := lines[0], lines[1..];
      assert lines == [line] + rest;
      SomeFenceCons(line, rest);
      if !IsFence(line) {
        UnclosedIffNoFence(rest, NextTitle(title, line));
      }
    }
  }

  /** A file is rejected exactly when its first line is a fence and no later one
      is; without an opening fence the whole trimmed text is the body. */
  lemma Classification(content: string)
    ensures var lines := Lines(TrimBOM(content));
      && (Parse(content).Err? <==> lines != [] && IsFence(lines[0]) && !SomeFence(lines[1..]))
      && ((lines == [] || !IsFence(lines[0]))
          ==> Parse(content) == Ok(Parsed("", TrimSpace(TrimBOM(content)))))
  {
    var lines := Lines(TrimBOM(content));
    if lines != [] {
      UnclosedIffNoFence(lines[1..], "");
    }
  }

  // ----- the title, by line positions -----

  /** The line is a key, the first colon, and a value, in white space. */
  predicate KeyValue(line: string, key: string, value: string) {
    TrimSpace(line) == key + ":" + value && ':' !in key
  }

  predicate IsTitleKey(key: string) {
    ToLower(TrimSpace(key)) == "title"
  }

  ghost predicate IsTitleLine(line: string) {
    exists key, value :: KeyValue(line, key, value) && IsTitleKey(key)
  }

  predicate AllQuotes(s: string) {
    forall i | 0 <= i < |s| :: s[i] == '"' || s[i] == '\''
  }

  /** The text is the title between quotes, which the title has none of at its edges. */
  predicate Quotes(text: string, left: string, title: string, right: string) {
    && text == left + title + right && AllQuotes(left) && AllQuotes(right)
    && (title == "" || (title[0] !in {'"', '\''} && title[|title| - 1] !in {'"', '\''}))
  }

  ghost predicate GivesTitle(line: string, title: string) {
    exists key, value, left, right ::
      KeyValue(line, key, value) && IsTitleKey(key) && Quotes(TrimSpace(value), left, title, right)
  }

  /** The title is that of the last of the first c lines that gives one, and the first
      title when none does. */
  ghost predicate LastTitle(lines: seq<string>, c: nat, first: string, title: string)
    requires c <= |lines|
  {
    || (title == first && forall i | 0 <= i < c :: !IsTitleLine(lines[i]))
    || (exists j :: 0 <= j < c && GivesTitle(lines[j], title)
                    && forall i | j < i < c :: !IsTitleLine(lines[i]))
  }

  lemma KeyValueUnique(line: string, key: string, value: string)
    requires KeyValue(line, key, value)
    ensures var l := TrimSpace(line); var k := IndexOf(l, ':');
      k < |l| && key == l[..k] && value == l[k + 1..]
  {
    FirstIndex(key, ':', value);
  }

  lemma Unquoted(text: string)
    ensures exists left, right :: Quotes(text, left, Trim(IsQuote, text), right)
  {
    TrimLeftShape(IsQuote, text);
    var l := TrimLeft(IsQuote, text);
    TrimRightShape(IsQuote, l);
    var t := TrimRight(IsQuote, l);
    assert t == Trim(IsQuote, text) && Quotes(text, text[..|text| - |l|], t, l[|t|..]);
  }

  /** A line either is no title line, and leaves the title alone, or gives the next. */
  lemma NextTitleIs(title: string, line: string)
    ensures if IsTitleLine(line) then GivesTitle(line, NextTitle(title, line)) else NextTitle(title, line) == title
  {
    var l := TrimSpace(line);
    var k := IndexOf(l, ':');
    IndexOfFirst(l, ':');
    if k < |l| {
      assert l == l[..k] + ":" + l[k + 1..];
      assert KeyValue(line, l[..k], l[k + 1..]);
      Unquoted(TrimSpace(l[k + 1..]));
    }
    forall key, value | KeyValue(line, key, value) ensures k < |l| && key == l[..k] {
      KeyValueUnique(line, key, value);
    }
  }

  /** What is between the quotes is determined. */
  lemma QuotesUnique(text: string, left: string, title: string, right: string)
    requires Quotes(text, left, title, right)
    ensures title == Trim(IsQuote, text)
  {
    TrimIdempotent(IsQuote, title);
    if title == "" {
      TrimEmpty(IsQuote, text);
    } else {
      TrimLeftBlank(IsQuote, left, title + right);
      assert text == left + (title + right) && (title + right)[0] == title[0];
      TrimRightBlank(IsQuote, title, right);
    }
  }

  /** No line gives two titles. */
  lemma TitleUnique(line: string, a: string, b: string)
    requires GivesTitle(line, a) && GivesTitle(line, b)
    ensures a == b
  {
    var keyA, valueA := GivenTitle(line, a);
    var keyB, valueB := GivenTitle(line, b);
    KeyValueUnique(line, keyA, valueA);
    KeyValueUnique(line, keyB, valueB);
  }

  lemma GivenTitle(line: string, title: string) returns (key: string, value: string)
    requires GivesTitle(line, title)
    ensures KeyValue(line, key, value) && title == Trim(IsQuote, TrimSpace(value))
  {
    var left, right;
    key, value, left, right :|
      KeyValue(line, key, value) && IsTitleKey(key) && Quotes(TrimSpace(value), left, title, right);
    QuotesUnique(TrimSpace(value), left, title, right);
  }

  lemma LastTitleCons(lines: seq<string>, c: nat, first: string, title: string)
    requires 0 < c <= |lines| && LastTitle(lines[1..], c - 1, NextTitle(first, lines[0]), title)
    ensures LastTitle(lines, c, first, title)
  {
    var rest := lines[1..];
    NextTitleIs(first, lines[0]);
    assert forall i | 1 <= i < c :: lines[i] == rest[i - 1];
    if j :| 0 <= j < c - 1 && GivesTitle(rest[j], title) && forall i | j < i < c - 1 :: !IsTitleLine(rest[i]) {
      assert GivesTitle(lines[j + 1], title);
    }
  }

  predicate FirstFence(lines: seq<string>, c: nat) {
    c < |lines| && IsFence(lines[c]) && forall i | 0 <= i < c :: !IsFence(lines[i])
  }

  lemma FirstFenceRest(lines: seq<string>, c: nat)
    requires 0 < c && FirstFence(lines, c)
    ensures !IsFence(lines[0]) && FirstFence(lines[1..], c - 1) && lines[1..][c..] == lines[c + 1..]
  {
    assert forall i | 0 <= i < |lines| - 1 :: lines[1..][i] == lines[i + 1];
  }

  ghost predicate ReadTo(lines: seq<string>, c: nat, first: string, r: Result<Parsed, ParseError>)
    requires c < |lines|
  {
    r.Ok? && r.value.body == TrimSpace(Unlines(lines[c + 1..])) && LastTitle(lines, c, first, r.value.title)
  }

  lemma {:induction false} InsideReads(lines: seq<string>, c: nat, first: string)
    requires FirstFence(lines, c)
    ensures ReadTo(lines, c, first, InsideFrontmatter(lines, first))
    decreases c
  {
    if c > 0 {
      FirstFenceRest(lines, c);
      InsideReads(lines[1..], c - 1, NextTitle(first, lines[0]));
      LastTitleCons(lines, c, first, InsideFrontmatter(lines, first).value.title);
    }
  }

  lemma FirstFenceAfter(lines: seq<string>, c: nat)
    requires 1 <= c < |lines| && IsFence(lines[c]) && forall i | 1 <= i < c :: !IsFence(lines[i])
    ensures FirstFence(lines[1..], c - 1) && lines[1..][c..] == lines[c + 1..]
  {
    assert forall i | 0 <= i < |lines| - 1 :: lines[1..][i] == lines[i + 1];
  }

  /** Line 0 is a fence and line c is the next one. */
  predicate Fenced(lines: seq<string>, c: nat) {
    && 1 <= c < |lines| && TrimSpace(lines[0]) == "---" && TrimSpace(lines[c]) == "---"
    && forall i | 1 <= i < c :: TrimSpace(lines[i]) != "---"
  }

  lemma FencedReads(lines: seq<string>, c: nat)
    requires Fenced(lines, c)
    ensures var r := InsideFrontmatter(lines[1..], "");
      r.Ok? && r.value.body == TrimSpace(Unlines(lines[c + 1..])) && LastTitle(lines[1..], c - 1, "", r.value.title)
  {
    FirstFenceAfter(lines, c);
    InsideReads(lines[1..], c - 1, "");
  }

  lemma ParseFenced(content: string)
    ensures var lines := Lines(TrimBOM(content));
      lines != [] && TrimSpace(lines[0]) == "---" ==> Parse(content) == InsideFrontmatter(lines[1..], "")
  {
  }

  /** The title is that of the last line between the fences that gives one, if any, and
      the body is what follows them. */
  lemma TitleBetweenFences(content: string, c: nat)
    requires Fenced(Lines(TrimBOM(content)), c)
    ensures var lines, r := Lines(TrimBOM(content)), Parse(content);
      && r.Ok? && r.value.body == TrimSpace(Unlines(lines[c + 1..]))
      && LastTitle(lines[1..], c - 1, "", r.value.title)
  {
    FencedReads(Lines(TrimBOM(content)), c);
    ParseFenced(content);
  }

  /** One byte order mark before the text changes nothing. */
  lemma MarkIgnored(content: string)
    requires content == "" || content[0] != '\U{FEFF}'
    ensures Parse("\U{FEFF}" + content) == Parse(content)
  {
    assert ("\U{FEFF}" + content)[1..] == content;
  }

  // ----- round trip -----

  function TitleLine(title: string): string {
    TITLE + ": " + title
  }

  /** A file with a title among other lines of frontmatter. */
  function Print(before: seq<string>, title: string, after: seq<string>, body: string): string {
    FENCE + "\n" + (Unlines(before + [TitleLine(title)] + after) + (FENCE + "\n" + body))
  }

  lemma FencePlain()
    ensures IsFence(FENCE)
  {
    SpaceRunes();
    TrimSpaceTrimmed(FENCE);
  }

  predicate PlainTitle(title: string) {
    OneLine(title) && Trimmed(title) && TrimmedOf(IsQuote, title)
  }

  predicate PlainBody(body: string) {
    Trimmed(body) && '\r' !in body
  }

  /** The lines of a trimmed body, printed back, trim to the body. */
  lemma BodyLines(body: string)
    requires PlainBody(body)
    ensures TrimSpace(Unlines(Lines(body))) == body
  {
    TrimSpaceTrimmed("");
    if body != "" {
      SpaceRunes();
      assert body[|body| - 1] != '\n';
      UnlinesLines(body);
      TrimOneMore(IsSpace, body, '\n');
    }
  }

  lemma UnlinesLines(body: string)
    requires '\r' !in body && body != "" && body[|body| - 1] != '\n'
    ensures Unlines(Lines(body)) == body + "\n"
  {
    var pieces := Split(body);
    LastPieceVisible(body);
    SplitPieces(body);
    forall i | 0 <= i < |pieces| ensures DropCR(pieces[i]) == pieces[i] {
      assert '\r' !in pieces[i];
    }
    DropCRsIdentity(pieces);
    JoinSplit(body);
    UnlinesJoin(pieces);
  }

  lemma {:induction false} UnlinesJoin(pieces: seq<string>)
    requires pieces != []
    ensures Unlines(pieces) == Join(pieces, "\n") + "\n"
  {
    if |pieces| == 1 {
      assert Unlines(pieces[1..]) == "";
    } else {
      UnlinesJoin(pieces[1..]);
      Assoc(pieces[0] + "\n", Join(pieces[1..], "\n"), "\n");
    }
  }

  lemma TrimOneMore(cutset: char -> bool, s: string, c: char)
    requires TrimmedOf(cutset, s) && s != "" && cutset(c)
    ensures Trim(cutset, s + [c]) == s
  {
    var long := s + [c];
    assert long[0] == s[0] && long[|s|] == c && long[..|s|] == s;
    assert TrimLeft(cutset, long) == long;
    assert TrimRight(cutset, long) == TrimRight(cutset, s) == s;
  }

  lemma {:induction false} LastPieceVisible(s: string)
    requires s != "" && s[|s| - 1] != '\n'
    ensures var pieces := Split(s); pieces[|pieces| - 1] != ""
  {
    if |s| > 1 {
      LastPieceVisible(s[1..]);
    }
  }

  /** A line that trims to `key: value` with a key that lowers to "title". */
  lemma KeyedLine(line: string, key: string, value: string, before: string)
    requires TrimSpace(line) == key + ":" + value
    requires ':' !in key && Trimmed(key) && ToLower(key) == TITLE
    ensures NextTitle(before, line) == Trim(IsQuote, TrimSpace(value))
  {
    var l := key + ":" + value;
    FirstIndex(key, ':', value);
    assert l[..|key|] == key;
    assert l[|key| + 1..] == value;
    TrimSpaceTrimmed(key);
  }

  lemma TitleKey()
    ensures TITLE != "" && TITLE[0] == 't' && Trimmed(TITLE) && ':' !in TITLE && OneLine(TITLE)
    ensures ToLower(TITLE) == TITLE
  {
    SpaceRunes();
    assert TITLE[4] == 'e';
    assert forall i | 0 <= i < |TITLE| :: LowerRune(TITLE[i]) == TITLE[i];
  }

  lemma TrimmedTitleLine(title: string)
    requires PlainTitle(title)
    ensures TrimSpace(TitleLine(title)) == TITLE + ":" + if title == "" then "" else " " + title
  {
    TitleKey();
    SpaceRunes();
    var line := TitleLine(title);
    if title == "" {
      var s := TITLE + ":";
      assert s[0] == 't' && s[|s| - 1] == ':';
      TrimOneMore(IsSpace, s, ' ');
      assert line == s + " ";
    } else {
      assert line[0] == 't' && line[|line| - 1] == title[|title| - 1];
      TrimSpaceTrimmed(line);
      assert line == TITLE + ":" + (" " + title);
    }
  }

  lemma TitleLineReads(title: string)
    requires PlainTitle(title)
    ensures !IsFence(TitleLine(title)) && NextTitle("", TitleLine(title)) == title
  {
    var value := if title == "" then "" else " " + title;
    TitleKey();
    TrimmedTitleLine(title);
    assert (TITLE + ":" + value)[0] == 't' && FENCE[0] == '-';
    KeyedLine(TitleLine(title), TITLE, value, "");
    TrimValue(title, value);
    TrimIdempotent(IsQuote, title);
  }

  lemma TrimValue(title: string, value: string)
    requires Trimmed(title) && value == if title == "" then "" else " " + title
    ensures TrimSpace(value) == title
  {
    SpaceRunes();
    if title == "" {
      TrimSpaceTrimmed("");
    } else {
      assert value[0] == ' ' && value[1..] == title;
      TrimLeftOne(IsSpace, value);
      TrimSpaceTrimmed(title);
    }
  }

  lemma TrimLeftOne(cutset: char -> bool, s: string)
    requires s != "" && cutset(s[0])
    ensures Trim(cutset, s) == Trim(cutset, s[1..])
  {
  }

  lemma TitleLinePlain(title: string)
    requires PlainTitle(title)
    ensures OneLine(TitleLine(title)) && DropCR(TitleLine(title)) == TitleLine(title)
  {
    SpaceRunes();
    TitleKey();
    var line := TitleLine(title);
    assert line[|line| - 1] == if title == "" then ' ' else title[|title| - 1];
  }

  predicate EndsPlain(line: string) {
    OneLine(line) && (line == "" || line[|line| - 1] != '\r')
  }

  predicate AllEndPlain(lines: seq<string>) {
    forall i | 0 <= i < |lines| :: EndsPlain(lines[i])
  }

  lemma UnlinesCons(line: string, lines: seq<string>, rest: string)
    ensures Unlines([line] + lines) + rest == line + "\n" + (Unlines(lines) + rest)
  {
    assert ([line] + lines)[1..] == lines;
    Assoc(line + "\n", Unlines(lines), rest);
  }

  lemma {:induction false} UnlinesRead(lines: seq<string>, rest: string)
    requires AllEndPlain(lines)
    ensures Lines(Unlines(lines) + rest) == lines + Lines(rest)
  {
    if lines == [] {
      assert Unlines(lines) + rest == rest;
    } else {
      var line, more := lines[0], lines[1..];
      assert lines == [line] + more;
      UnlinesRead(more, rest);
      UnlinesCons(line, more, rest);
      LineRead(line, Unlines(more) + rest);
      Assoc([line], more, Lines(rest));
    }
  }

  lemma FenceRead(rest: string)
    ensures Lines(FENCE + "\n" + rest) == [FENCE] + Lines(rest)
  {
    LineRead(FENCE, rest);
  }

  lemma PrintedLines(before: seq<string>, title: string, after: seq<string>, body: string)
    requires PlainTitle(title) && AllEndPlain(before) && AllEndPlain(after)
    ensures Lines(Print(before, title, after, body))
         == [FENCE] + ((before + [TitleLine(title)] + after) + ([FENCE] + Lines(body)))
  {
    var lines := before + [TitleLine(title)] + after;
    TitleLinePlain(title);
    UnlinesRead(lines, FENCE + "\n" + body);
    FenceRead(Unlines(lines) + (FENCE + "\n" + body));
    FenceRead(body);
  }

  /** Another line of frontmatter: another key, or no key at all. */
  ghost predicate OtherLine(line: string) {
    EndsPlain(line) && TrimSpace(line) != "---" && !IsTitleLine(line)
  }

  ghost predicate OtherLines(lines: seq<string>) {
    forall i | 0 <= i < |lines| :: OtherLine(lines[i])
  }

  lemma InsideOther(line: string, rest: seq<string>, title: string)
    requires OtherLine(line)
    ensures InsideFrontmatter([line] + rest, title) == InsideFrontmatter(rest, title)
  {
    NextTitleIs(title, line);
    InsideStep(line, rest, title);
  }

  lemma {:induction false} InsideOthers(lines: seq<string>, rest: seq<string>, title: string)
    requires OtherLines(lines)
    ensures InsideFrontmatter(lines + rest, title) == InsideFrontmatter(rest, title)
  {
    if lines == [] {
      assert lines + rest == rest;
    } else {
      var line, more := lines[0], lines[1..];
      assert lines == [line] + more;
      InsideOthers(more, rest, title);
      InsideOther(line, more + rest, title);
      Assoc([line], more, rest);
    }
  }

  /** Printing a title among other lines of frontmatter, and a body, parses back to
      both. */
  lemma FrontmatterRoundTrip(before: seq<string>, title: string, after: seq<string>, body: string)
    requires PlainTitle(title) && PlainBody(body) && OtherLines(before) && OtherLines(after)
    ensures Parse(Print(before, title, after, body)) == Ok(Parsed(title, body))
  {
    var content := Print(before, title, after, body);
    assert content[0] == FENCE[0];
    PrintedLines(before, title, after, body);
    FencePlain();
    BodyLines(body);
    ReadFrontmatter(before, title, after, Lines(body));
  }

  lemma ReadFrontmatter(before: seq<string>, title: string, after: seq<string>, rest: seq<string>)
    requires PlainTitle(title) && OtherLines(before) && OtherLines(after)
    ensures InsideFrontmatter((before + [TitleLine(title)] + after) + ([FENCE] + rest), "")
         == Ok(Parsed(title, TrimSpace(Unlines(rest))))
  {
    var line, tail := TitleLine(title), [FENCE] + rest;
    assert (before + [line] + after) + tail == before + ([line] + (after + tail));
    InsideOthers(before, [line] + (after + tail), "");
    TitleLineReads(title);
    InsideStep(line, after + tail, "");
    InsideOthers(after, tail, title);
    FencePlain();
    InsideEnd(rest, title);
  }

  lemma InsideStep(line: string, rest: seq<string>, title: string)
    requires !IsFence(line)
    ensures InsideFrontmatter([line] + rest, title) == InsideFrontmatter(rest, NextTitle(title, line))
  {
    assert ([line] + rest)[1..] == rest;
  }

  lemma InsideEnd(rest: seq<string>, title: string)
    requires IsFence(FENCE)
    ensures InsideFrontmatter([FENCE] + rest, title) == Ok(Parsed(title, TrimSpace(Unlines(rest))))
  {
    assert ([FENCE] + rest)[1..] == rest;
  }
}
