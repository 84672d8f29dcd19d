/** Vector spaces and their names, embed/embed.go. */
module Spaces {
  import opened Text

  /** One (provider, model, dimension) triple. */
  datatype Space = Space(provider: string, model: string, dim: int)

  predicate Valid(s: Space) {
    TrimSpace(s.provider) != "" && TrimSpace(s.model) != "" && 1 <= s.dim <= 16000
  }

  // ----- the one-line identity -----

  /** "provider/model@dim" */
  function Name(s: Space): string
    requires s.dim >= 0
  {
    s.provider + "/" + (s.model + "@" + Decimal(s.dim))
  }

  /** The last '@' bounds the digits after it. */
  lemma MarkBound(a: string, dx: string, b: string, dy: string)
    requires AllDigits(dy) && a + "@" + dx == b + "@" + dy
    ensures |dy| <= |dx|
  {
    var s := a + "@" + dx;
    var t := b + "@" + dy;
    assert s[|a|] == '@';
    forall k | |b| + 1 <= k < |t| ensures IsDigit(t[k]) {
      assert t[k] == dy[k - |b| - 1];
    }
  }

  lemma LastMark(a: string, b: string, x: nat, y: nat)
    requires a + "@" + Decimal(x) == b + "@" + Decimal(y)
    ensures a == b && x == y
  {
    var dx, dy := Decimal(x), Decimal(y);
    DecimalValue(x);
    DecimalValue(y);
    MarkBound(a, dx, b, dy);
    MarkBound(b, dy, a, dx);
    Assoc(a, "@", dx);
    Assoc(b, "@", dy);
    SameSplit(a, "@" + dx, b, "@" + dy);
    assert ("@" + dx)[1..] == dx && ("@" + dy)[1..] == dy;
  }

  lemma SameSplit(a: string, x: string, b: string, y: string)
    requires a + x == b + y && |a| == |b|
    ensures a == b && x == y
  {
    assert (a + x)[..|a|] == a && (b + y)[..|a|] == b;
    assert (a + x)[|a|..] == x && (b + y)[|a|..] == y;
  }

  /** The identity is provider, slash, model, at sign and the dimension in decimal,
      behind the last at sign. */
  lemma NameLayout(s: Space)
    requires s.dim >= 0
    ensures var front, n := s.provider + "/" + s.model, Name(s);
      && front < n && n[|front|] == '@' && AllDigits(n[|front| + 1..]) && Value(n[|front| + 1..]) == s.dim
      && '@' !in n[|front| + 1..]
  {
    var front := s.provider + "/" + s.model;
    DecimalValue(s.dim);
    Assoc(s.provider + "/", s.model, "@" + Decimal(s.dim));
    assert Name(s) == front + ("@" + Decimal(s.dim));
    assert Name(s)[|front| + 1..] == Decimal(s.dim);
  }

  /** Two identities coincide exactly when the dimensions do and the slashes fall
      together: "a/b" with "c" and "a" with "b/c" have one identity. */
  lemma NamesCoincide(a: Space, b: Space)
    requires a.dim >= 0 && b.dim >= 0
    ensures Name(a) == Name(b) <==> a.dim == b.dim && a.provider + "/" + a.model == b.provider + "/" + b.model
  {
    var x, y := a.provider + "/" + a.model, b.provider + "/" + b.model;
    assert Name(a) == x + "@" + Decimal(a.dim) && Name(b) == y + "@" + Decimal(b.dim);
    if Name(a) == Name(b) {
      LastMark(x, y, a.dim, b.dim);
    }
  }

  /** The identity determines the space when the provider has no slash; the model
      may contain both '/' and '@'. */
  lemma NameInjective(a: Space, b: Space)
    requires a.dim >= 0 && b.dim >= 0
    requires '/' !in a.provider && '/' !in b.provider
    requires Name(a) == Name(b)
    ensures a == b
  {
    NamesCoincide(a, b);
    FirstIndex(a.provider, '/', a.model);
    FirstIndex(b.provider, '/', b.model);
    Assoc(a.provider, "/", a.model);
    Assoc(b.provider, "/", b.model);
    SameSplit(a.provider, "/" + a.model, b.provider, "/" + b.model);
    assert ("/" + a.model)[1..] == a.model && ("/" + b.model)[1..] == b.model;
  }

  // ----- sanitising -----

  predicate IsWord(c: char) {
    'a' <= c <= 'z' || '0' <= c <= '9'
  }

  predicate IsUnderscore(c: char) {
    c == '_'
  }

  predicate IsSlugRune(c: char) {
    IsWord(c) || IsUnderscore(c)
  }

  /** Each run of other runes becomes one underscore; `last` says that one was
      just written. */
  function Fold(s: string, last: bool): string {
    if s == "" then ""
    else if IsWord(s[0]) then [s[0]] + Fold(s[1..], false)
    else if last then Fold(s[1..], true)
    else "_" + Fold(s[1..], true)
  }

  function Sanitized(s: string): string {
    Trim(IsUnderscore, Fold(ToLower(s), false))
  }

  method Sanitize(s: string) returns (r: string)
    ensures r == Sanitized(s)
  {
    var b := "";
    var lastUnderscore := false;
    var lower := ToLower(s);
    for i := 0 to |lower|
      invariant b + Fold(lower[i..], lastUnderscore) == Fold(lower, false)
    {
      var r := lower[i];
      assert lower[i..][0] == r && lower[i..][1..] == lower[i + 1..];
      Assoc(b, [r], Fold(lower[i + 1..], false));
      Assoc(b, "_", Fold(lower[i + 1..], true));
      if ('a' <= r <= 'z') || ('0' <= r <= '9') {
        b := b + [r];
        lastUnderscore := false;
      } else if !lastUnderscore {
        b := b + "_";
        lastUnderscore := true;
      }
    }
    assert lower[|lower|..] == "" && b + "" == b;
    return Trim(IsUnderscore, b);
  }

  predicate AllSlug(s: string) {
    forall i | 0 <= i < |s| :: IsSlugRune(s[i])
  }

  predicate NoDouble(s: string) {
    forall i | 0 <= i < |s| - 1 :: !(s[i] == '_' && s[i + 1] == '_')
  }

  lemma {:induction false} FoldShape(s: string, last: bool)
    ensures AllSlug(Fold(s, last)) && NoDouble(Fold(s, last))
    ensures last && Fold(s, last) != "" ==> Fold(s, last)[0] != '_'
  {
    if s != "" {
      FoldShape(s[1..], !IsWord(s[0]));
    }
  }

  /** A sanitised name: slug runes, no doubled underscore, none at the edges. */
  lemma SanitizedShape(s: string)
    ensures AllSlug(Sanitized(s)) && NoDouble(Sanitized(s)) && TrimmedOf(IsUnderscore, Sanitized(s))
  {
    var f := Fold(ToLower(s), false);
    FoldShape(ToLower(s), false);
    TrimIdempotent(IsUnderscore, f);
    TrimLeftShape(IsUnderscore, f);
    var l := TrimLeft(IsUnderscore, f);
    TrimRightShape(IsUnderscore, l);
    var t := TrimRight(IsUnderscore, l);
    assert forall i | 0 <= i < |t| :: t[i] == f[|f| - |l| + i];
  }

  lemma {:induction false} FoldIdentity(s: string, last: bool)
    requires AllSlug(s) && NoDouble(s) && (last && s != "" ==> s[0] != '_')
    ensures Fold(s, last) == s
  {
    if s != "" {
      FoldIdentity(s[1..], !IsWord(s[0]));
    }
  }

  lemma LowerSlug(s: string)
    requires AllSlug(s)
    ensures ToLower(s) == s
  {
    assert forall i | 0 <= i < |s| :: IsSlugRune(s[i]) && LowerRune(s[i]) == s[i];
  }

  /** Sanitising is idempotent, and leaves exactly the sanitised names alone. */
  lemma SanitizeIdempotent(s: string)
    ensures Sanitized(Sanitized(s)) == Sanitized(s)
    ensures Sanitized(s) == s <==> AllSlug(s) && NoDouble(s) && TrimmedOf(IsUnderscore, s)
  {
    SanitizedShape(s);
    SanitizeFixed(Sanitized(s));
    if AllSlug(s) && NoDouble(s) && TrimmedOf(IsUnderscore, s) {
      SanitizeFixed(s);
    }
  }

  lemma SanitizeFixed(s: string)
    requires AllSlug(s) && NoDouble(s) && TrimmedOf(IsUnderscore, s)
    ensures Sanitized(s) == s
  {
    LowerSlug(s);
    FoldIdentity(s, false);
    TrimIdempotent(IsUnderscore, s);
  }

  // ----- the words of a name -----

  function Flush(word: string): seq<string> {
    if word == "" then [] else [word]
  }

  /** The runs of [a-z0-9] in s, in order; `word` is the one being read. */
  function Words(s: string, word: string): seq<string>
    decreases |s|
  {
    if s == "" then Flush(word)
    else if 'a' <= s[0] <= 'z' || '0' <= s[0] <= '9' then Words(s[1..], word + [s[0]])
    else Flush(word) + Words(s[1..], "")
  }

  lemma WordTrimmed(word: string)
    requires word != "" && IsWord(word[|word| - 1])
    ensures TrimRight(IsUnderscore, word) == word && TrimRight(IsUnderscore, word + "_") == word
  {
    assert (word + "_")[..|word|] == word;
  }

  /** What is left of a folded name after a word. */
  lemma {:induction false} WordsAfter(s: string, word: string)
    requires word != "" && IsWord(word[|word| - 1])
    ensures TrimRight(IsUnderscore, word + Fold(s, false)) == Join(Words(s, word), "_") && Words(s, word) != []
    decreases |s|
  {
    WordTrimmed(word);
    if s == "" {
      assert word + "" == word;
    } else if IsWord(s[0]) {
      WordsAfter(s[1..], word + [s[0]]);
      Assoc(word, [s[0]], Fold(s[1..], false));
    } else {
      var more := Fold(s[1..], true);
      WordsFrom(s[1..]);
      Assoc(word, "_", more);
      if more == "" {
        assert word + ("_" + more) == word + "_";
        assert [word] + [] == [word];
      } else {
        assert !IsUnderscore(more[0]);
        TrimRightVisible(IsUnderscore, word + "_", more);
        assert ([word] + Words(s[1..], ""))[1..] == Words(s[1..], "");
      }
    }
  }

  lemma {:induction false} WordsFrom(s: string)
    ensures TrimRight(IsUnderscore, Fold(s, true)) == Join(Words(s, ""), "_")
    ensures Words(s, "") == [] <==> Fold(s, true) == ""
    ensures Fold(s, true) != "" ==> !IsUnderscore(Fold(s, true)[0])
    decreases |s|
  {
    if s != "" {
      if IsWord(s[0]) {
        WordsAfter(s[1..], [s[0]]);
        assert "" + [s[0]] == [s[0]];
      } else {
        WordsFrom(s[1..]);
        assert [] + Words(s[1..], "") == Words(s[1..], "");
      }
    }
  }

  lemma FoldTrimmed(s: string)
    ensures TrimLeft(IsUnderscore, Fold(s, false)) == Fold(s, true)
  {
    FoldShape(s, true);
    if s != "" && !IsWord(s[0]) {
      assert ("_" + Fold(s[1..], true))[1..] == Fold(s[1..], true);
    }
  }

  /** A sanitised name is the lower-cased runs of [a-z0-9], joined by underscores. */
  lemma SanitizedWords(s: string)
    ensures Sanitized(s) == Join(Words(ToLower(s), ""), "_")
  {
    FoldTrimmed(ToLower(s));
    WordsFrom(ToLower(s));
  }

  // ----- the table name -----

  const MAX_SLUG_LEN := 54

  /** The first eight hexadecimal digits of a digest. */
  type Hex8 = d: string | |d| == 8 && forall i | 0 <= i < |d| :: '0' <= d[i] <= '9' || 'a' <= d[i] <= 'f'
    witness "00000000"

  /** The slug of a space; `digest` maps an identity to its SHA-256 prefix. */
  function Slug(digest: string -> Hex8, s: Space): string
    requires s.dim >= 0
  {
    var suffix := "_" + digest(Name(s));
    var full := "emb_" + (Sanitized(s.provider) + "__" + Sanitized(s.model) + "__" + Decimal(s.dim));
    if |full| + |suffix| > MAX_SLUG_LEN then full[..MAX_SLUG_LEN - |suffix|] + suffix else full + suffix
  }

  lemma SlugAppend(a: string, b: string)
    requires AllSlug(a) && AllSlug(b)
    ensures AllSlug(a + b)
  {
  }

  /** Every slug starts with "emb_", has at most 54 runes, all in [a-z0-9_], and
      ends in the digest of the exact identity. */
  lemma SlugShape(digest: string -> Hex8, s: Space)
    requires s.dim >= 0
    ensures var g := Slug(digest, s);
      && 13 <= |g| <= MAX_SLUG_LEN && AllSlug(g)
      && g[..4] == "emb_" && g[|g| - 8..] == digest(Name(s))
  {
    var g := Slug(digest, s);
    var d := digest(Name(s));
    var suffix := "_" + d;
    var name := Sanitized(s.provider) + "__" + Sanitized(s.model) + "__" + Decimal(s.dim);
    var full := "emb_" + name;
    SanitizedShape(s.provider);
    SanitizedShape(s.model);
    DecimalDigits(s.dim);
    SlugAppend(Sanitized(s.provider), "__");
    SlugAppend(Sanitized(s.provider) + "__", Sanitized(s.model));
    SlugAppend(Sanitized(s.provider) + "__" + Sanitized(s.model), "__");
    SlugAppend(Sanitized(s.provider) + "__" + Sanitized(s.model) + "__", Decimal(s.dim));
    SlugAppend("emb_", name);
    var front := g[..|g| - 9];
    assert g == front + suffix && front <= full && |front| >= 4;
    assert AllSlug(front) by {
      assert forall i | 0 <= i < |front| :: front[i] == full[i];
    }
    SlugAppend(front, suffix);
    assert front[..4] == full[..4] == "emb_";
    assert g[..4] == front[..4];
    assert g[|g| - 8..] == d;
  }

  /** Spaces whose identities have different digests have different slugs. */
  lemma SlugsDiffer(digest: string -> Hex8, a: Space, b: Space)
    requires a.dim >= 0 && b.dim >= 0 && digest(Name(a)) != digest(Name(b))
    ensures Slug(digest, a) != Slug(digest, b)
  {
    SlugShape(digest, a);
    SlugShape(digest, b);
  }

  /** The slug without its digest is readable: the words of provider and model and the
      dimension, cut off after 45 runes. */
  lemma SlugReadable(digest: string -> Hex8, s: Space)
    requires s.dim >= 0
    ensures var g := Slug(digest, s);
      var words := "emb_" + (Join(Words(ToLower(s.provider), ""), "_")
                   + "__" + Join(Words(ToLower(s.model), ""), "_") + "__" + Decimal(s.dim));
      && |g| >= 9 && g[|g| - 9..] == "_" + digest(Name(s))
      && g[..|g| - 9] == if |words| <= 45 then words else words[..45]
  {
    SanitizedWords(s.provider);
    SanitizedWords(s.model);
    SlugParts(digest, s);
  }

  lemma SlugParts(digest: string -> Hex8, s: Space)
    requires s.dim >= 0
    ensures var g := Slug(digest, s);
      var full := "emb_" + (Sanitized(s.provider) + "__" + Sanitized(s.model) + "__" + Decimal(s.dim));
      g == (if |full| <= 45 then full else full[..45]) + ("_" + digest(Name(s)))
  {
  }

  /** A space is valid when neither name is blank and the dimension is in range. */
  lemma ValidExactly(s: Space)
    ensures Valid(s) <==> !Blank(s.provider) && !Blank(s.model) && 0 < s.dim && s.dim <= 16000
  {
    TrimSpaceEmpty(s.provider);
    TrimSpaceEmpty(s.model);
  }
}
