/** The multi-row INSERT of internal/storage/embeddings.go: the statement is text
    with numbered placeholders, and what the database reads out of it is the batch. */
module Insert {
  import opened Outcome
  import opened Text
  import opened Spaces
  import opened Database

  datatype Arg = IdArg(id: nat) | VectorArg(vector: Vector)

  datatype InsertError = WrongDimension(chunkId: nat)

  // ----- the text -----

  /** A quoted identifier; quotes inside are doubled. */
  function Quoted(name: string): string {
    "\"" + (Doubled(name) + "\"")
  }

  function Doubled(name: string): string {
    if name == "" then "" else (if name[0] == '"' then "\"\"" else [name[0]]) + Doubled(name[1..])
  }

  function Head(table: string): string {
    "INSERT INTO " + (Quoted(table) + (" (" + ("chunk_id" + (", " + ("embedding" + ") VALUES ")))))
  }

  const OVERWRITE := "embedding" + (" = " + "EXCLUDED.embedding")
  const STAMP := "created_at" + (" = " + "now()")
  const TAIL := " ON CONFLICT (" + ("chunk_id" + (") DO UPDATE SET " + (OVERWRITE + (", " + STAMP))))

  const OPEN := "($"
  const MIDDLE := ", $"
  const CLOSE := ")"
  const COMMA := ", "

  /** "($a, $b)" */
  function RowText(a: nat, b: nat): string {
    OPEN + (Decimal(a) + (MIDDLE + (Decimal(b) + CLOSE)))
  }

  /** A list of n rows printed by `row`, from the placeholder after `used`. */
  function ListText(row: (nat, nat) -> string, used: nat, n: nat): string
    decreases n
  {
    if n == 0 then ""
    else if n == 1 then row(used + 1, used + 2)
    else row(used + 1, used + 2) + (COMMA + ListText(row, used + 2, n - 1))
  }

  /** The VALUES list of n rows. */
  function ValuesText(n: nat): string {
    ListText(RowText, 0, n)
  }

  function BatchArgs(batch: seq<ChunkVector>): seq<Arg> {
    if batch == [] then []
    else BatchArgs(batch[..|batch| - 1])
         + [IdArg(batch[|batch| - 1].chunkId), VectorArg(batch[|batch| - 1].vector)]
  }

  lemma {:induction false} ListSnoc(row: (nat, nat) -> string, used: nat, n: nat)
    requires n > 0
    ensures ListText(row, used, n + 1)
         == ListText(row, used, n) + (COMMA + row(used + 2 * n + 1, used + 2 * n + 2))
    decreases n
  {
    if n > 1 {
      ListSnoc(row, used + 2, n - 1);
      var more := COMMA + row(used + 2 * n + 1, used + 2 * n + 2);
      Assoc(COMMA, ListText(row, used + 2, n - 1), more);
      Assoc(row(used + 1, used + 2), COMMA + ListText(row, used + 2, n - 1), more);
    }
  }

  lemma ArgsLength(batch: seq<ChunkVector>)
    ensures |BatchArgs(batch)| == 2 * |batch|
  {
  }

  /** A vector of wrong dimension gives an error and no statement; otherwise the
      statement has one row a chunk, and each argument is used exactly once. */
  method BuildEmbeddingInsert(table: string, space: Space, batch: seq<ChunkVector>)
    returns (r: Result<(string, seq<Arg>), InsertError>)
    ensures r.Ok? <==> RightDimension(space, batch)
    ensures r.Ok? ==> r.value == (Head(table) + ValuesText(|batch|) + TAIL, BatchArgs(batch))
    ensures r.Err? ==> exists i :: 0 <= i < |batch| && |batch[i].vector| != space.dim
                                   && r.error == WrongDimension(batch[i].chunkId)
  {
    var sb := Head(table);
    var args: seq<Arg> := [];
    for i := 0 to |batch|
      invariant forall j | 0 <= j < i :: |batch[j].vector| == space.dim
      invariant args == BatchArgs(batch[..i]) && |args| == 2 * i
      invariant sb == Head(table) + ValuesText(i)
    {
      var cv := batch[i];
      if |cv.vector| != space.dim {
        return Err(WrongDimension(cv.chunkId));
      }
      assert batch[..i + 1][..i] == batch[..i];
      ghost var before := sb;
      if i > 0 {
        sb := sb + ", ";
      }
      var row := RowText(|args| + 1, |args| + 2);
      assert row == RowText(2 * i + 1, 2 * i + 2);
      sb := sb + row;
      args := args + [IdArg(cv.chunkId), VectorArg(cv.vector)];
      RowWritten(Head(table), i, before, row);
    }
    assert batch[..|batch|] == batch;
    sb := sb + TAIL;
    return Ok((sb, args));
  }

  lemma RowWritten(head: string, i: nat, before: string, row: string)
    requires before == head + ValuesText(i) && row == RowText(2 * i + 1, 2 * i + 2)
    ensures (if i > 0 then before + COMMA else before) + row == head + ValuesText(i + 1)
  {
    if i > 0 {
      ListSnoc(RowText, 0, i);
      Assoc(before, COMMA, row);
      Assoc(head, ValuesText(i), COMMA + row);
    } else {
      assert head + "" == head;
    }
  }

  // ----- reading the text back -----

  /** The leading digits and the rest. */
  function TakeDigits(s: string): (string, string) {
    if s == "" || !IsDigit(s[0]) then ("", s)
    else
      var r := TakeDigits(s[1..]);
      ([s[0]] + r.0, r.1)
  }

  lemma {:induction false} TakeAllDigits(d: string, rest: string)
    requires AllDigits(d) && (rest == "" || !IsDigit(rest[0]))
    ensures TakeDigits(d + rest) == (d, rest)
  {
    if d == "" {
      assert d + rest == rest;
    } else {
      TakeAllDigits(d[1..], rest);
      assert (d + rest)[0] == d[0] && (d + rest)[1..] == d[1..] + rest;
      assert [d[0]] + d[1..] == d;
    }
  }

  function ParseNumber(s: string): Option<(nat, string)> {
    var r := TakeDigits(s);
    TakenDigits(s);
    if r.0 == "" then None else Some((Value(r.0), r.1))
  }

  lemma {:induction false} TakenDigits(s: string)
    ensures AllDigits(TakeDigits(s).0) && |TakeDigits(s).1| <= |s|
  {
    if s != "" && IsDigit(s[0]) {
      TakenDigits(s[1..]);
    }
  }

  function StripPrefix(prefix: string, s: string): Option<string> {
    if prefix <= s then Some(s[|prefix|..]) else None
  }

  /** Reads "($a, $b)" and gives the rest. */
  function ParseRow(s: string): Option<(nat, nat, string)> {
    match StripPrefix("($", s)
    case None => None
    case Some(s1) =>
      match ParseNumber(s1)
      case None => None
      case Some((a, s2)) =>
        match StripPrefix(", $", s2)
        case None => None
        case Some(s3) =>
          match ParseNumber(s3)
          case None => None
          case Some((b, s4)) =>
            match StripPrefix(")", s4)
            case None => None
            case Some(s5) => Some((a, b, s5))
  }

  /** Reads at most `fuel` rows with commas between them, and gives the rest. */
  function ReadRows(parse: string -> Option<(nat, nat, string)>, s: string, fuel: nat)
    : Option<(seq<(nat, nat)>, string)>
    decreases fuel
  {
    if fuel == 0 then None
    else
      match parse(s)
      case None => None
      case Some((a, b, rest)) =>
        match StripPrefix(", ", rest)
        case None => Some(([(a, b)], rest))
        case Some(more) =>
          match ReadRows(parse, more, fuel - 1)
          case None => None
          case Some((rows, end)) => Some(([(a, b)] + rows, end))
  }

  predicate IsNameRune(c: char) {
    'a' <= c <= 'z' || c == '_'
  }

  predicate IsName(s: string) {
    forall i | 0 <= i < |s| :: IsNameRune(s[i])
  }

  /** The leading name, and the rest. */
  function TakeName(s: string): (string, string) {
    if s == "" || !IsNameRune(s[0]) then ("", s)
    else
      var r := TakeName(s[1..]);
      ([s[0]] + r.0, r.1)
  }

  /** Reads a quoted identifier behind its opening quote, and gives the rest. */
  function ReadQuoted(s: string): Option<(string, string)> {
    if s == "" then None
    else if s[0] == '"' && (|s| == 1 || s[1] != '"') then Some(("", s[1..]))
    else
      match ReadQuoted(if s[0] == '"' then s[2..] else s[1..])
      case None => None
      case Some((name, rest)) => Some(([s[0]] + name, rest))
  }

  /** Reads "(a, b)" with two names. */
  function ReadColumns(s: string): Option<(string, string, string)> {
    match StripPrefix(" (", s)
    case None => None
    case Some(s1) =>
      var (first, s2) := TakeName(s1);
      match StripPrefix(", ", s2)
      case None => None
      case Some(s3) =>
        var (second, s4) := TakeName(s3);
        match StripPrefix(") VALUES ", s4)
        case None => None
        case Some(s5) => Some((first, second, s5))
  }

  /** Reads "column = expression". */
  function ReadSet(s: string): Option<(string, string)> {
    var (column, rest) := TakeName(s);
    match StripPrefix(" = ", rest)
    case None => None
    case Some(expr) => Some((column, expr))
  }

  function ReadSets(s: string): Option<seq<(string, string)>>
    decreases |s|
  {
    var k := IndexOf(s, ',');
    match ReadSet(s[..k])
    case None => None
    case Some(one) =>
      if k == |s| then Some([one])
      else
        match StripPrefix(", ", s[k..])
        case None => None
        case Some(more) =>
          match ReadSets(more)
          case None => None
          case Some(sets) => Some([one] + sets)
  }

  /** What happens to a row that is already there: the statement fails, or, if the
      target column is what it collides on, some columns are set. */
  datatype Conflict = Fails | Sets(target: string, sets: seq<(string, string)>)

  function ReadConflict(s: string): Option<Conflict> {
    if s == "" then Some(Fails)
    else
      match StripPrefix(" ON CONFLICT (", s)
      case None => None
      case Some(s1) =>
        var (target, s2) := TakeName(s1);
        match StripPrefix(") DO UPDATE SET ", s2)
        case None => None
        case Some(s3) =>
          match ReadSets(s3)
          case None => None
          case Some(sets) => Some(Sets(target, sets))
  }

  /** An INSERT as it is written: its table, its columns, its rows of placeholders. */
  datatype Insertion = Insertion(
    table: string, first: string, second: string, rows: seq<(nat, nat)>, conflict: Conflict)

  function ReadInsert(s: string): Option<Insertion> {
    match StripPrefix("INSERT INTO \"", s)
    case None => None
    case Some(s1) =>
      match ReadQuoted(s1)
      case None => None
      case Some((table, s2)) =>
        match ReadColumns(s2)
        case None => None
        case Some((first, second, s3)) =>
          match ReadRows(ParseRow, s3, |s|)
          case None => None
          case Some((rows, s4)) =>
            match ReadConflict(s4)
            case None => None
            case Some(conflict) => Some(Insertion(table, first, second, rows, conflict))
  }

  lemma NumberReads(n: nat, rest: string)
    requires rest == "" || !IsDigit(rest[0])
    ensures ParseNumber(Decimal(n) + rest) == Some((n, rest))
  {
    DecimalDigits(n);
    DecimalValue(n);
    TakeAllDigits(Decimal(n), rest);
  }

  lemma PrefixReads(prefix: string, rest: string)
    ensures StripPrefix(prefix, prefix + rest) == Some(rest)
  {
    assert prefix <= prefix + rest && (prefix + rest)[|prefix|..] == rest;
  }

  lemma RowReads(a: nat, b: nat, rest: string)
    ensures ParseRow(RowText(a, b) + rest) == Some((a, b, rest))
  {
    var s4 := CLOSE + rest;
    var s3 := Decimal(b) + s4;
    var s2 := MIDDLE + s3;
    var s1 := Decimal(a) + s2;
    assert RowText(a, b) + rest == OPEN + s1 by {
      Assoc(OPEN, Decimal(a) + (MIDDLE + (Decimal(b) + CLOSE)), rest);
      Assoc(Decimal(a), MIDDLE + (Decimal(b) + CLOSE), rest);
      Assoc(MIDDLE, Decimal(b) + CLOSE, rest);
      Assoc(Decimal(b), CLOSE, rest);
    }
    PrefixReads(OPEN, s1);
    NumberReads(a, s2);
    PrefixReads(MIDDLE, s3);
    NumberReads(b, s4);
    PrefixReads(CLOSE, rest);
  }

  /** The placeholders of n rows, after `used`. */
  function Placeholders(used: nat, n: nat): seq<(nat, nat)> {
    seq(n, i requires 0 <= i < n => (used + 2 * i + 1, used + 2 * i + 2))
  }

  lemma RowsMore(parse: string -> Option<(nat, nat, string)>, row: string, a: nat, b: nat, more: string,
                 rows: seq<(nat, nat)>, end: string, fuel: nat)
    requires fuel > 0 && parse(row + (COMMA + more)) == Some((a, b, COMMA + more))
    requires ReadRows(parse, more, fuel - 1) == Some((rows, end))
    ensures ReadRows(parse, row + (COMMA + more), fuel) == Some(([(a, b)] + rows, end))
  {
    PrefixReads(COMMA, more);
  }

  lemma RowsLast(parse: string -> Option<(nat, nat, string)>, row: string, a: nat, b: nat, end: string, fuel: nat)
    requires fuel > 0 && !(COMMA <= end) && parse(row + end) == Some((a, b, end))
    ensures ReadRows(parse, row + end, fuel) == Some(([(a, b)], end))
  {
  }

  ghost predicate ReadsRow(parse: string -> Option<(nat, nat, string)>, row: (nat, nat) -> string,
                           a: nat, b: nat, rest: string)
  {
    row(a, b) != "" && parse(row(a, b) + rest) == Some((a, b, rest))
  }

  /** A parser that reads each printed row reads the list of them. */
  lemma {:induction false} RowsRead(parse: string -> Option<(nat, nat, string)>, row: (nat, nat) -> string,
                                    used: nat, n: nat, end: string, fuel: nat)
    requires 1 <= n <= fuel && !(COMMA <= end)
    requires forall a: nat, b: nat, rest: string :: ReadsRow(parse, row, a, b, rest)
    ensures ReadRows(parse, ListText(row, used, n) + end, fuel) == Some((Placeholders(used, n), end))
    decreases n
  {
    var first := row(used + 1, used + 2);
    if n == 1 {
      assert ReadsRow(parse, row, used + 1, used + 2, end);
      RowsLast(parse, first, used + 1, used + 2, end, fuel);
      assert Placeholders(used, 1) == [(used + 1, used + 2)];
    } else {
      var list := ListText(row, used + 2, n - 1);
      RowsRead(parse, row, used + 2, n - 1, end, fuel - 1);
      assert ReadsRow(parse, row, used + 1, used + 2, COMMA + (list + end));
      RowsMore(parse, first, used + 1, used + 2, list + end, Placeholders(used + 2, n - 1), end, fuel);
      Assoc(COMMA, list, end);
      Assoc(first, COMMA + list, end);
      PlaceholdersCons(used, n);
    }
  }

  lemma PlaceholdersCons(used: nat, n: nat)
    requires n > 1
    ensures Placeholders(used, n) == [(used + 1, used + 2)] + Placeholders(used + 2, n - 1)
  {
  }

  lemma ValuesRead(n: nat, end: string, fuel: nat)
    requires 1 <= n <= fuel && !(COMMA <= end)
    ensures ReadRows(ParseRow, ValuesText(n) + end, fuel) == Some((Placeholders(0, n), end))
  {
    forall a: nat, b: nat, rest: string ensures ReadsRow(ParseRow, RowText, a, b, rest) {
      RowReads(a, b, rest);
      assert |RowText(a, b)| >= |OPEN| > 0;
    }
    RowsRead(ParseRow, RowText, 0, n, end, fuel);
  }

  lemma {:induction false} NameReads(name: string, rest: string)
    requires IsName(name) && (rest == "" || !IsNameRune(rest[0]))
    ensures TakeName(name + rest) == (name, rest)
  {
    if name == "" {
      assert name + rest == rest;
    } else {
      NameReads(name[1..], rest);
      assert (name + rest)[0] == name[0] && (name + rest)[1..] == name[1..] + rest;
      assert [name[0]] + name[1..] == name;
    }
  }

  lemma QuoteStep(more: string)
    ensures ReadQuoted("\"\"" + more)
         == match ReadQuoted(more) case None => None case Some((name, rest)) => Some((['"'] + name, rest))
  {
    assert ("\"\"" + more)[2..] == more;
  }

  lemma RuneStep(c: char, more: string)
    requires c != '"'
    ensures ReadQuoted([c] + more)
         == match ReadQuoted(more) case None => None case Some((name, rest)) => Some(([c] + name, rest))
  {
    assert ([c] + more)[1..] == more;
  }

  lemma QuoteEnds(rest: string)
    requires rest == "" || rest[0] != '"'
    ensures ReadQuoted("\"" + rest) == Some(("", rest))
  {
    assert ("\"" + rest)[1..] == rest;
  }

  /** Doubled quotes are read back, and the single one ends the name. */
  lemma {:induction false} QuotedReads(name: string, rest: string)
    requires rest == "" || rest[0] != '"'
    ensures ReadQuoted(Doubled(name) + ("\"" + rest)) == Some((name, rest))
  {
    var end := "\"" + rest;
    if name == "" {
      QuoteEnds(rest);
      assert Doubled(name) + end == end;
    } else {
      var c, more := name[0], name[1..];
      QuotedReads(more, rest);
      assert [c] + more == name;
      Assoc(if c == '"' then "\"\"" else [c], Doubled(more), end);
      if c == '"' {
        QuoteStep(Doubled(more) + end);
      } else {
        RuneStep(c, Doubled(more) + end);
      }
    }
  }

  lemma ColumnsRead(first: string, second: string, rest: string)
    requires IsName(first) && IsName(second)
    ensures ReadColumns(" (" + (first + (", " + (second + (") VALUES " + rest))))) == Some((first, second, rest))
  {
    var s4 := ") VALUES " + rest;
    var s2 := ", " + (second + s4);
    PrefixReads(" (", first + s2);
    NameReads(first, s2);
    PrefixReads(", ", second + s4);
    NameReads(second, s4);
    PrefixReads(") VALUES ", rest);
  }

  lemma SetReads(column: string, expr: string)
    requires IsName(column)
    ensures ReadSet(column + (" = " + expr)) == Some((column, expr))
  {
    NameReads(column, " = " + expr);
    PrefixReads(" = ", expr);
  }

  lemma SetsRead(a: string, b: string, one: (string, string), two: (string, string))
    requires ReadSet(a) == Some(one) && ReadSet(b) == Some(two) && ',' !in a && ',' !in b
    ensures ReadSets(a + (", " + b)) == Some([one, two])
  {
    var s := a + (", " + b);
    FirstIndex(a, ',', " " + b);
    assert s == a + [','] + (" " + b);
    assert s[..|a|] == a && s[|a|..] == ", " + b;
    PrefixReads(", ", b);
    IndexOfFirst(b, ',');
    assert IndexOf(b, ',') == |b| && b[..|b|] == b;
    assert ReadSets(b) == Some([two]) && [one] + [two] == [one, two];
  }

  lemma ConflictReads(target: string, sets: string, read: seq<(string, string)>)
    requires IsName(target) && ReadSets(sets) == Some(read)
    ensures ReadConflict(" ON CONFLICT (" + (target + (") DO UPDATE SET " + sets))) == Some(Sets(target, read))
  {
    var s2 := ") DO UPDATE SET " + sets;
    PrefixReads(" ON CONFLICT (", target + s2);
    NameReads(target, s2);
    PrefixReads(") DO UPDATE SET ", sets);
  }

  // ----- what the statement means -----

  /** The row two placeholders stand for; arguments are numbered from 1. */
  function ResolveRow(args: seq<Arg>, row: (nat, nat)): Option<ChunkVector> {
    if 1 <= row.0 <= |args| && 1 <= row.1 <= |args| && args[row.0 - 1].IdArg? && args[row.1 - 1].VectorArg?
    then Some(ChunkVector(args[row.0 - 1].id, args[row.1 - 1].vector))
    else None
  }

  function ResolveRows(args: seq<Arg>, rows: seq<(nat, nat)>): Option<seq<ChunkVector>> {
    if rows == [] then Some([])
    else
      var front, last := ResolveRows(args, rows[..|rows| - 1]), ResolveRow(args, rows[|rows| - 1]);
      if front.Some? && last.Some? then Some(front.value + [last.value]) else None
  }

  /** What an INSERT does: rows for a table, and what happens on a conflict. */
  datatype Upsert = Upsert(table: string, rows: seq<ChunkVector>, conflict: Conflict)

  /** The placeholders of each row with the one for chunk_id first. */
  function ById(i: Insertion): Option<seq<(nat, nat)>> {
    if i.first == "chunk_id" && i.second == "embedding" then Some(i.rows)
    else if i.first == "embedding" && i.second == "chunk_id" then
      Some(seq(|i.rows|, k requires 0 <= k < |i.rows| => (i.rows[k].1, i.rows[k].0)))
    else None
  }

  /** A statement is read, and each placeholder resolved for the column it is under. */
  function Meaning(statement: string, args: seq<Arg>): Option<Upsert> {
    match ReadInsert(statement)
    case None => None
    case Some(i) =>
      match ById(i)
      case None => None
      case Some(rows) =>
        match ResolveRows(args, rows)
        case None => None
        case Some(batch) => Some(Upsert(i.table, batch, i.conflict))
  }

  /** A row for a chunk that has one takes its place. */
  predicate Overwrites(c: Conflict) {
    c.Sets? && c.target == "chunk_id" && ("embedding", "EXCLUDED.embedding") in c.sets
  }

  lemma {:induction false} ArgsAt(batch: seq<ChunkVector>, i: nat)
    requires i < |batch|
    ensures |BatchArgs(batch)| == 2 * |batch|
    ensures BatchArgs(batch)[2 * i] == IdArg(batch[i].chunkId)
    ensures BatchArgs(batch)[2 * i + 1] == VectorArg(batch[i].vector)
  {
    ArgsLength(batch);
    var k := |batch| - 1;
    ArgsLength(batch[..k]);
    if i < k {
      ArgsAt(batch[..k], i);
    }
  }

  lemma {:induction false} RowsResolve(batch: seq<ChunkVector>, n: nat)
    requires n <= |batch|
    ensures ResolveRows(BatchArgs(batch), Placeholders(0, n)) == Some(batch[..n])
  {
    if n > 0 {
      RowsResolve(batch, n - 1);
      ArgsAt(batch, n - 1);
      assert Placeholders(0, n)[..n - 1] == Placeholders(0, n - 1);
      assert batch[..n] == batch[..n - 1] + [batch[n - 1]];
    }
  }

  lemma {:induction false} ListLong(row: (nat, nat) -> string, used: nat, n: nat)
    requires forall a: nat, b: nat :: row(a, b) != ""
    ensures |ListText(row, used, n)| >= n
    decreases n
  {
    if n > 1 {
      ListLong(row, used + 2, n - 1);
    }
  }

  lemma ClausesRead()
    ensures ReadSets(OVERWRITE + (", " + STAMP)) == Some([("embedding", "EXCLUDED.embedding"), ("created_at", "now()")])
  {
    SetReads("embedding", "EXCLUDED.embedding");
    SetReads("created_at", "now()");
    SetsRead(OVERWRITE, STAMP, ("embedding", "EXCLUDED.embedding"), ("created_at", "now()"));
  }

  lemma TailReads()
    ensures ReadConflict(TAIL)
         == Some(Sets("chunk_id", [("embedding", "EXCLUDED.embedding"), ("created_at", "now()")]))
  {
    var sets := OVERWRITE + (", " + STAMP);
    ClausesRead();
    ConflictReads("chunk_id", sets, ReadSets(sets).value);
  }

  lemma NoCommaTail()
    ensures !(COMMA <= TAIL)
  {
    assert TAIL[0] == ' ' && COMMA[0] == ',';
  }

  lemma HeadReads(table: string, rest: string)
    ensures var s1 := Doubled(table) + ("\"" + (" (" + ("chunk_id" + (", " + ("embedding" + (") VALUES " + rest))))));
      StripPrefix("INSERT INTO \"", Head(table) + rest) == Some(s1)
  {
    var c5 := "embedding" + ") VALUES ";
    var c4 := ", " + c5;
    var c3 := "chunk_id" + c4;
    var c2 := " (" + c3;
    var q := Doubled(table) + "\"";
    Assoc("INSERT INTO ", "\"" + q + c2, rest);
    Assoc("\"" + q, c2, rest);
    Assoc("\"", q, c2 + rest);
    Assoc(Doubled(table), "\"", c2 + rest);
    Assoc(" (", c3, rest);
    Assoc("chunk_id", c4, rest);
    Assoc(", ", c5, rest);
    Assoc("embedding", ") VALUES ", rest);
    var s1 := Doubled(table) + ("\"" + (c2 + rest));
    Assoc("INSERT INTO ", "\"", s1);
    assert "INSERT INTO " + "\"" == "INSERT INTO \"";
    PrefixReads("INSERT INTO \"", s1);
  }

  /** The parts of a statement, read one after the other. */
  lemma InsertionReads(s: string, s1: string, s2: string, s3: string, s4: string, i: Insertion)
    requires StripPrefix("INSERT INTO \"", s) == Some(s1) && ReadQuoted(s1) == Some((i.table, s2))
    requires ReadColumns(s2) == Some((i.first, i.second, s3)) && ReadRows(ParseRow, s3, |s|) == Some((i.rows, s4))
    requires ReadConflict(s4) == Some(i.conflict)
    ensures ReadInsert(s) == Some(i)
  {
  }

  lemma ListLongText(n: nat)
    ensures |ValuesText(n)| >= n
  {
    forall a: nat, b: nat ensures RowText(a, b) != "" {
      assert |RowText(a, b)| >= |OPEN| > 0;
    }
    ListLong(RowText, 0, n);
  }

  /** The statement built for n rows is read as it was meant. */
  lemma StatementReads(table: string, n: nat)
    requires n > 0
    ensures ReadInsert(Head(table) + ValuesText(n) + TAIL)
         == Some(Insertion(table, "chunk_id", "embedding", Placeholders(0, n),
                           Sets("chunk_id", [("embedding", "EXCLUDED.embedding"), ("created_at", "now()")])))
  {
    var rest := ValuesText(n) + TAIL;
    var s := Head(table) + rest;
    Assoc(Head(table), ValuesText(n), TAIL);
    HeadReads(table, rest);
    var s2 := " (" + ("chunk_id" + (", " + ("embedding" + (") VALUES " + rest))));
    QuotedReads(table, s2);
    ColumnsRead("chunk_id", "embedding", rest);
    ListLongText(n);
    TailReads();
    NoCommaTail();
    ValuesRead(n, TAIL, |s|);
    InsertionReads(s, Doubled(table) + ("\"" + s2), s2, rest, TAIL,
                   Insertion(table, "chunk_id", "embedding", Placeholders(0, n), ReadConflict(TAIL).value));
  }

  /** The assembled INSERT means the batch: what is read out of it, without knowing how
      it was assembled, are rows for this table that are the batch, in order, each id
      under chunk_id and each vector under embedding, and that on a conflict the new
      vector takes the place of the old. */
  lemma InsertMeansBatch(table: string, batch: seq<ChunkVector>)
    requires batch != []
    ensures var m := Meaning(Head(table) + ValuesText(|batch|) + TAIL, BatchArgs(batch));
      m.Some? && m.value.table == table && m.value.rows == batch && Overwrites(m.value.conflict)
    ensures |BatchArgs(batch)| == 2 * |Placeholders(0, |batch|)|
  {
    StatementReads(table, |batch|);
    RowsResolve(batch, |batch|);
    assert batch[..|batch|] == batch;
    ArgsLength(batch);
  }

  predicate Names(row: (nat, nat), k: nat) {
    row.0 == k || row.1 == k
  }

  /** The placeholder is in one row of the list, in one place of it. */
  ghost predicate UsedOnce(rows: seq<(nat, nat)>, k: nat) {
    exists i :: 0 <= i < |rows| && Names(rows[i], k) && rows[i].0 != rows[i].1
                && forall j | 0 <= j < |rows| && j != i :: !Names(rows[j], k)
  }

  lemma PlaceholderOnce(n: nat, k: nat)
    requires 1 <= k <= 2 * n
    ensures UsedOnce(Placeholders(0, n), k)
  {
    var rows := Placeholders(0, n);
    var i := (k - 1) / 2;
    assert Names(rows[i], k);
    forall j | 0 <= j < n && j != i ensures !Names(rows[j], k) {
    }
  }

  /** Each argument is used exactly once by the statement as it is read. */
  lemma ArgumentsUsedOnce(table: string, batch: seq<ChunkVector>, k: nat)
    requires 1 <= k <= |BatchArgs(batch)|
    ensures var read := ReadInsert(Head(table) + ValuesText(|batch|) + TAIL);
      read.Some? && UsedOnce(read.value.rows, k)
  {
    ArgsLength(batch);
    StatementReads(table, |batch|);
    PlaceholderOnce(|batch|, k);
  }
}
