/** The vault scan, internal/vault/vault.go: every markdown file is parsed into a
    note, listed as skipped when its frontmatter is unclosed, or stops the scan. */
module Vault {
  import opened Outcome
  import opened Text
  import opened Frontmatter

  /** The SHA-256 of a file, taken to be injective on content. */
  datatype Digest = Digest(content: string)

  /** internal/model/note.go */
  datatype Note = Note(path: string, name: string, text: string, hash: Digest)

  /** What the directory walk hands to the callback, with paths relative to the
      root; a file that cannot be read has no content. */
  datatype Entry =
    | WalkFailure
    | Directory(path: string)
    | File(path: string, content: Option<string>)

  datatype Scanned = Scanned(notes: seq<Note>, skipped: seq<string>)

  datatype ScanError = WalkStopped

  /** filepath.Ext: the suffix from the last dot of the last path element. */
  function Ext(path: string): string {
    if path == "" || path[|path| - 1] == '/' then ""
    else if path[|path| - 1] == '.' then "."
    else
      var e := Ext(path[..|path| - 1]);
      if e == "" then "" else e + [path[|path| - 1]]
  }

  predicate IsMarkdown(e: Entry) {
    e.File? && ToLower(Ext(e.path)) == ".md"
  }

  /** The path ends in ".md", in any case. */
  predicate EndsInMd(path: string) {
    |path| >= 3 && path[|path| - 3..] in {".md", ".mD", ".Md", ".MD"}
  }

  lemma {:induction false} ExtIsSuffix(path: string)
    ensures |Ext(path)| <= |path| && Ext(path) == path[|path| - |Ext(path)|..]
  {
    if path != "" && path[|path| - 1] != '/' && path[|path| - 1] != '.' {
      ExtIsSuffix(path[..|path| - 1]);
    }
  }

  lemma LowerMd(e: string)
    ensures ToLower(e) == ".md" <==> e in {".md", ".mD", ".Md", ".MD"}
  {
    if |e| == 3 {
      assert ToLower(e) == [LowerRune(e[0]), LowerRune(e[1]), LowerRune(e[2])];
      assert e == [e[0], e[1], e[2]];
    }
  }

  lemma ExtSnoc(s: string, c: char)
    requires c != '/'
    ensures Ext(s + [c]) == if c == '.' then "." else if Ext(s) == "" then "" else Ext(s) + [c]
  {
    assert (s + [c])[..|s|] == s;
  }

  lemma ExtOfDot(front: string, m: char, d: char)
    requires m != '.' && m != '/' && d != '.' && d != '/'
    ensures Ext(front + "." + [m] + [d]) == "." + [m] + [d]
  {
    ExtSnoc(front, '.');
    ExtSnoc(front + ".", m);
    ExtSnoc(front + "." + [m], d);
  }

  lemma SuffixApart(path: string, end: string)
    requires |path| >= 3 && end == path[|path| - 3..]
    ensures path == path[..|path| - 3] + [end[0]] + [end[1]] + [end[2]] && end == [end[0]] + [end[1]] + [end[2]]
  {
  }

  lemma ExtOfMd(path: string)
    requires EndsInMd(path)
    ensures Ext(path) == path[|path| - 3..]
  {
    var end := path[|path| - 3..];
    SuffixApart(path, end);
    ExtOfDot(path[..|path| - 3], end[1], end[2]);
  }

  /** The files that are indexed are those whose path ends in ".md", in any case. */
  lemma MarkdownFiles(e: Entry)
    ensures IsMarkdown(e) <==> e.File? && EndsInMd(e.path)
  {
    if e.File? {
      ExtIsSuffix(e.path);
      LowerMd(Ext(e.path));
      if EndsInMd(e.path) {
        ExtOfMd(e.path);
      }
    }
  }

  predicate StopsWalk(e: Entry) {
    e.WalkFailure? || (IsMarkdown(e) && e.content.None?)
  }

  /** A markdown file that was read. */
  predicate Readable(e: Entry) {
    IsMarkdown(e) && e.content.Some?
  }

  predicate ParsesTo(e: Entry, note: Note) {
    && Readable(e)
    && Parse(e.content.value) == Ok(Parsed(note.name, note.text))
    && note.path == e.path && note.hash == Digest(e.content.value)
  }

  predicate IsSkipped(e: Entry) {
    Readable(e) && Parse(e.content.value).Err?
  }

  function NoteOf(e: Entry): seq<Note> {
    if Readable(e) && Parse(e.content.value).Ok? then
      var p := Parse(e.content.value).value;
      [Note(e.path, p.title, p.body, Digest(e.content.value))]
    else []
  }

  function SkippedOf(e: Entry): seq<string> {
    if IsSkipped(e) then [e.path] else []
  }

  function Notes(entries: seq<Entry>): seq<Note> {
    if entries == [] then [] else NoteOf(entries[0]) + Notes(entries[1..])
  }

  function Skipped(entries: seq<Entry>): seq<string> {
    if entries == [] then [] else SkippedOf(entries[0]) + Skipped(entries[1..])
  }

  method Scan(entries: seq<Entry>) returns (r: Result<Scanned, ScanError>)
    ensures r.Err? <==> exists i :: 0 <= i < |entries| && StopsWalk(entries[i])
    ensures r.Ok? ==> r.value == Scanned(Notes(entries), Skipped(entries))
  {
    var notes: seq<Note>, skipped: seq<string> := [], [];
    for i := 0 to |entries|
      invariant forall j | 0 <= j < i :: !StopsWalk(entries[j])
      invariant ScannedSoFar(entries, i, notes, skipped)
    {
      var e := entries[i];
      ScanStep(entries, i, notes, skipped);
      assert notes + [] == notes && skipped + [] == skipped;
      if e.WalkFailure? {
        return Err(WalkStopped);
      }
      if e.File? && ToLower(Ext(e.path)) == ".md" {
        if e.content.None? {
          return Err(WalkStopped);
        }
        var content := e.content.value;
        var yaml := YamlParser(content);
        if yaml.Err? {
          skipped := skipped + [e.path];
          continue;
        }
        var fileInfo := Note(e.path, yaml.value.title, yaml.value.body, Digest(content));
        notes := notes + [fileInfo];
      }
    }
    assert entries[|entries|..] == [];
    return Ok(Scanned(notes, skipped));
  }

  ghost predicate ScannedSoFar(entries: seq<Entry>, i: nat, notes: seq<Note>, skipped: seq<string>)
    requires i <= |entries|
  {
    && notes + Notes(entries[i..]) == Notes(entries)
    && skipped + Skipped(entries[i..]) == Skipped(entries)
  }

  lemma ScanStep(entries: seq<Entry>, i: nat, notes: seq<Note>, skipped: seq<string>)
    requires i < |entries| && ScannedSoFar(entries, i, notes, skipped)
    ensures ScannedSoFar(entries, i + 1, notes + NoteOf(entries[i]), skipped + SkippedOf(entries[i]))
  {
    assert entries[i..][0] == entries[i] && entries[i..][1..] == entries[i + 1..];
    Assoc(notes, NoteOf(entries[i]), Notes(entries[i + 1..]));
    Assoc(skipped, SkippedOf(entries[i]), Skipped(entries[i + 1..]));
  }

  lemma ScanCons(e: Entry, rest: seq<Entry>)
    ensures Notes([e] + rest) == NoteOf(e) + Notes(rest) && Skipped([e] + rest) == SkippedOf(e) + Skipped(rest)
  {
    assert ([e] + rest)[1..] == rest;
  }

  /** The lists are in the order of the walk. */
  lemma {:induction false} ScanInOrder(a: seq<Entry>, b: seq<Entry>)
    ensures Notes(a + b) == Notes(a) + Notes(b) && Skipped(a + b) == Skipped(a) + Skipped(b)
  {
    if a == [] {
      assert a + b == b;
    } else {
      var e, rest := a[0], a[1..];
      ScanInOrder(rest, b);
      assert a == [e] + rest;
      Assoc([e], rest, b);
      ScanCons(e, rest);
      ScanCons(e, rest + b);
      Assoc(NoteOf(e), Notes(rest), Notes(b));
      Assoc(SkippedOf(e), Skipped(rest), Skipped(b));
    }
  }

  // ----- every markdown file is accounted for, once -----

  /** A directory walk visits no path twice. */
  predicate DistinctFiles(entries: seq<Entry>) {
    forall i, j | 0 <= i < j < |entries| && entries[i].File? && entries[j].File? ::
      entries[i].path != entries[j].path
  }

  lemma {:induction false} NotesAre(entries: seq<Entry>, note: Note)
    ensures note in Notes(entries) <==> exists i :: 0 <= i < |entries| && ParsesTo(entries[i], note)
  {
    if entries != [] {
      NotesAre(entries[1..], note);
      assert forall i | 1 <= i < |entries| :: entries[i] == entries[1..][i - 1];
      assert note in NoteOf(entries[0]) <==> ParsesTo(entries[0], note);
    }
  }

  lemma {:induction false} SkippedAre(entries: seq<Entry>, path: string)
    ensures path in Skipped(entries)
       <==> exists i :: 0 <= i < |entries| && IsSkipped(entries[i]) && entries[i].path == path
  {
    if entries != [] {
      SkippedAre(entries[1..], path);
      assert forall i | 1 <= i < |entries| :: entries[i] == entries[1..][i - 1];
    }
  }

  predicate DistinctPaths(notes: seq<Note>) {
    forall i, j | 0 <= i < j < |notes| :: notes[i].path != notes[j].path
  }

  /** The facts the indexing pass relies on: distinct note paths, no path both
      parsed and skipped, and each note the parse of the content it hashes. */
  predicate WellFormed(scan: Scanned) {
    && DistinctPaths(scan.notes)
    && (forall n | n in scan.notes :: n.path !in scan.skipped)
    && (forall n | n in scan.notes :: IsParse(n))
  }

  predicate IsParse(n: Note) {
    Parse(n.hash.content) == Ok(Parsed(n.name, n.text))
  }

  lemma {:induction false} NotesDistinct(entries: seq<Entry>)
    requires DistinctFiles(entries)
    ensures DistinctPaths(Notes(entries))
  {
    if entries != [] {
      NotesDistinct(entries[1..]);
      var head, rest := NoteOf(entries[0]), Notes(entries[1..]);
      if head != [] {
        forall k | 0 <= k < |rest| ensures head[0].path != rest[k].path {
          NotesAre(entries[1..], rest[k]);
        }
      }
    }
  }

  /** A scan that is not stopped accounts for every markdown file exactly once:
      as a note carrying its parse, or as skipped. */
  lemma ScanWellFormed(entries: seq<Entry>)
    requires DistinctFiles(entries)
    ensures WellFormed(Scanned(Notes(entries), Skipped(entries)))
  {
    NotesDistinct(entries);
    forall n | n in Notes(entries) ensures n.path !in Skipped(entries) && IsParse(n) {
      NotesAre(entries, n);
      SkippedAre(entries, n.path);
    }
  }

  predicate Accounted(path: string, notes: seq<Note>, skipped: seq<string>) {
    path in skipped || exists n :: n in notes && n.path == path
  }

  lemma MarkdownAccounted(entries: seq<Entry>, path: string)
    requires forall i | 0 <= i < |entries| :: !StopsWalk(entries[i])
    ensures (exists i :: 0 <= i < |entries| && IsMarkdown(entries[i]) && entries[i].path == path)
       <==> Accounted(path, Notes(entries), Skipped(entries))
  {
    SkippedAre(entries, path);
    if i :| 0 <= i < |entries| && IsMarkdown(entries[i]) && entries[i].path == path {
      assert !StopsWalk(entries[i]);
      if Parse(entries[i].content.value).Ok? {
        var n := NoteOf(entries[i])[0];
        assert ParsesTo(entries[i], n);
        NotesAre(entries, n);
      } else {
        assert IsSkipped(entries[i]);
      }
    }
    if n :| n in Notes(entries) && n.path == path {
      NotesAre(entries, n);
    }
  }

  /** Every file whose path ends in ".md" is accounted for, as a note or as skipped, and
      nothing else is. */
  lemma ScanComplete(entries: seq<Entry>, path: string)
    requires forall i | 0 <= i < |entries| :: !StopsWalk(entries[i])
    ensures (exists i :: 0 <= i < |entries| && entries[i].File? && EndsInMd(entries[i].path) && entries[i].path == path)
       <==> Accounted(path, Notes(entries), Skipped(entries))
  {
    MarkdownAccounted(entries, path);
    forall e ensures IsMarkdown(e) <==> e.File? && EndsInMd(e.path) {
      MarkdownFiles(e);
    }
  }
}
