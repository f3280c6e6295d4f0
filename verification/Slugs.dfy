// Normalising a task into a name: the worktree slug and the branch slug.
module Slugs {
  import opened Options
  import Text

  const MAX_WORKTREE_SLUG_CHARS := 48
  const WORKTREE_SLUG_HASH_CHARS := 12
  const MAX_BRANCH_SLUG := 40

  predicate IsLowerAlphanumeric(c: char) {
    'a' <= c <= 'z' || '0' <= c <= '9'
  }

  predicate IsAsciiAlphanumeric(c: char) {
    'A' <= c <= 'Z' || IsLowerAlphanumeric(c)
  }

  function AsciiLower(c: char): char {
    if 'A' <= c <= 'Z' then 'a' + (c - 'A') else c
  }

  // The language of slugs: words of lowercase letters and digits with single dashes
  // between them. A tidy string may also end in a dash.

  predicate TidyAt(s: string, i: nat)
    requires i < |s|
  {
    if s[i] == '-' then i > 0 && s[i - 1] != '-' else IsLowerAlphanumeric(s[i])
  }

  ghost predicate Tidy(s: string) {
    forall i: nat | i < |s| :: TidyAt(s, i)
  }

  predicate EndsInDash(s: string) {
    s != "" && s[|s| - 1] == '-'
  }

  ghost predicate IsSlug(s: string) {
    s != "" && !EndsInDash(s) && Tidy(s)
  }

  // Lowercase letters, digits and dashes only.
  predicate Plain(s: string) {
    forall c | c in s :: c == '-' || IsLowerAlphanumeric(c)
  }

  // str::split('-'), read from the left.
  function Split(s: string): (parts: seq<string>)
    ensures parts != []
  {
    if s == "" then [""]
    else
      var parts, c := Split(s[..|s| - 1]), s[|s| - 1];
      if c == '-' then parts + [""]
      else parts[..|parts| - 1] + [parts[|parts| - 1] + [c]]
  }

  function NonEmpty(parts: seq<string>): seq<string> {
    if parts == [] then []
    else NonEmpty(parts[..|parts| - 1]) + if parts[|parts| - 1] == "" then [] else [parts[|parts| - 1]]
  }

  function Join(words: seq<string>): string {
    if words == [] then ""
    else if |words| == 1 then words[0]
    else Join(words[..|words| - 1]) + "-" + words[|words| - 1]
  }

  function Words(s: string): seq<string> {
    NonEmpty(Split(s))
  }

  // s with runs of dashes made one and leading dashes dropped.
  function Collapsed(s: string): string {
    if s == "" then ""
    else
      var before, c := Collapsed(s[..|s| - 1]), s[|s| - 1];
      if c == '-' && (before == "" || EndsInDash(before)) then before else before + [c]
  }

  lemma NonEmptySnoc(parts: seq<string>, p: string)
    ensures NonEmpty(parts + [p]) == NonEmpty(parts) + if p == "" then [] else [p]
  {
    assert (parts + [p])[..|parts|] == parts;
  }

  // The words of s, when the last part of its split is looked at apart.
  lemma WordsByLast(s: string)
    ensures var parts := Split(s);
            Words(s) == NonEmpty(parts[..|parts| - 1])
                      + if parts[|parts| - 1] == "" then [] else [parts[|parts| - 1]]
  {
  }

  lemma WordsSnoc(s: string, c: char)
    ensures var parts := Split(s);
            var first, last := NonEmpty(parts[..|parts| - 1]), parts[|parts| - 1];
            Words(s + [c]) == if c == '-' then Words(s) else first + [last + [c]]
  {
    var parts := Split(s);
    var first, last := parts[..|parts| - 1], parts[|parts| - 1];
    assert (s + [c])[..|s|] == s;
    if c == '-' {
      NonEmptySnoc(parts, "");
      assert NonEmpty(parts) + [] == NonEmpty(parts);
    } else {
      NonEmptySnoc(first, last + [c]);
    }
  }

  // A string ends in a dash, or is empty, exactly when the last part of its split is empty.
  lemma LastPart(s: string)
    ensures Split(s)[|Split(s)| - 1] == "" <==> s == "" || EndsInDash(s)
  {
  }

  lemma JoinSnoc(words: seq<string>, w: string)
    ensures Join(words + [w]) == if words == [] then w else Join(words) + "-" + w
  {
    if words != [] {
      assert (words + [w])[..|words|] == words;
    } else {
      assert words + [w] == [w];
    }
  }

  // Joining after the last word has grown.
  lemma JoinGrown(words: seq<string>, w: string, c: char)
    ensures Join(words + [w + [c]]) == Join(words + [w]) + [c]
  {
    JoinSnoc(words, w);
    JoinSnoc(words, w + [c]);
    if words != [] {
      assert Join(words) + "-" + (w + [c]) == Join(words) + "-" + w + [c];
    }
  }

  function DashIf(b: bool): string {
    if b then "-" else ""
  }

  // Collapsing dashes, as the loop does, and joining the words, as the iterators do,
  // give the same but for a dash at the end.
  lemma {:induction false} CollapsedIsJoinedWords(s: string)
    ensures CollapsesToWords(s)
  {
    if s == "" {
      assert Words(s) == [];
    } else {
      var init, c := s[..|s| - 1], s[|s| - 1];
      CollapsedIsJoinedWords(init);
      assert s == init + [c];
      CollapsedStep(init, c);
    }
  }

  ghost predicate CollapsesToWords(s: string) {
    && Collapsed(s) == Join(Words(s)) + DashIf(EndsInDash(s) && Words(s) != [])
    && (Words(s) == [] <==> Collapsed(s) == "")
    && (Collapsed(s) != "" ==> (EndsInDash(Collapsed(s)) <==> EndsInDash(s)))
  }

  lemma CollapsedDash(init: string)
    requires CollapsesToWords(init) && Words(init + "-") == Words(init)
    ensures CollapsesToWords(init + "-")
  {
    CollapsedSnoc(init, '-');
    assert Join(Words(init)) + "" == Join(Words(init));
  }

  lemma CollapsedSnoc(s: string, c: char)
    ensures Collapsed(s + [c])
         == if c == '-' && (Collapsed(s) == "" || EndsInDash(Collapsed(s))) then Collapsed(s) else Collapsed(s) + [c]
  {
    assert (s + [c])[..|s|] == s;
  }

  lemma CollapsedWord(init: string, c: char, first: seq<string>, last: string)
    requires c != '-' && (last == "" <==> init == "" || EndsInDash(init))
    requires Words(init) == first + if last == "" then [] else [last]
    requires CollapsesToWords(init) && Words(init + [c]) == first + [last + [c]]
    ensures CollapsesToWords(init + [c])
  {
    CollapsedSnoc(init, c);
    if last == "" {
      assert first + [] == first && "" + [c] == [c];
      WordBegins(init, c, first);
    } else {
      WordGrows(init, c, first, last);
    }
    NoDashAtEnd(init + [c], Collapsed(init) + [c]);
  }

  lemma NoDashAtEnd(s: string, collapsed: string)
    requires Collapsed(s) == collapsed == Join(Words(s)) && Words(s) != []
    requires collapsed != "" && !EndsInDash(s) && !EndsInDash(collapsed)
    ensures CollapsesToWords(s)
  {
    assert collapsed + "" == collapsed;
  }

  lemma WordBegins(init: string, c: char, first: seq<string>)
    requires init == "" || EndsInDash(init)
    requires Words(init) == first && CollapsesToWords(init)
    ensures Collapsed(init) + [c] == Join(first + [[c]])
  {
    JoinSnoc(first, [c]);
    if first == [] {
      assert Collapsed(init) == "" && "" + [c] == [c];
    }
  }

  lemma WordGrows(init: string, c: char, first: seq<string>, last: string)
    requires init != "" && !EndsInDash(init)
    requires Words(init) == first + [last] && CollapsesToWords(init)
    ensures Collapsed(init) + [c] == Join(first + [last + [c]])
  {
    JoinGrown(first, last, c);
    assert Join(Words(init)) + "" == Join(Words(init));
  }

  lemma CollapsedStep(init: string, c: char)
    requires CollapsesToWords(init)
    ensures CollapsesToWords(init + [c])
  {
    WordsSnoc(init, c);
    if c == '-' {
      CollapsedDash(init);
    } else {
      WordsByLast(init);
      LastPart(init);
      var parts := Split(init);
      CollapsedWord(init, c, NonEmpty(parts[..|parts| - 1]), parts[|parts| - 1]);
    }
  }

  lemma {:induction false} CollapsedIsTidy(s: string)
    requires Plain(s)
    ensures Tidy(Collapsed(s))
  {
    if s != "" {
      var init := s[..|s| - 1];
      assert s[|s| - 1] in s && forall c | c in init :: c in s;
      CollapsedIsTidy(init);
      var before := Collapsed(init);
      forall i: nat | i < |Collapsed(s)| ensures TidyAt(Collapsed(s), i) {
        if i < |before| { assert TidyAt(before, i); }
      }
    }
  }

  lemma {:induction false} TidyStays(s: string)
    requires Tidy(s)
    ensures Collapsed(s) == s
  {
    if s != "" {
      var init := s[..|s| - 1];
      forall i: nat | i < |init| ensures TidyAt(init, i) { assert TidyAt(s, i); }
      TidyStays(init);
      assert TidyAt(s, |init|) && s == init + [s[|init|]];
    }
  }

  lemma TidyPrefix(s: string, n: nat)
    requires Tidy(s) && n <= |s|
    ensures Tidy(s[..n])
  {
    forall i: nat | i < n ensures TidyAt(s[..n], i) { assert TidyAt(s, i); }
  }

  function WithoutLastDash(s: string): string {
    if EndsInDash(s) then s[..|s| - 1] else s
  }

  // Trimming a tidy string drops at most the one dash at its end.
  lemma TrimTidy(s: string)
    requires Tidy(s)
    ensures Text.TrimChar(s, '-') == WithoutLastDash(s)
    ensures s != "" ==> IsSlug(WithoutLastDash(s))
  {
    if s != "" {
      assert TidyAt(s, 0) && TidyAt(s, |s| - 1);
      TidyPrefix(s, |s| - 1);
      assert Text.TrimStartChar(s, '-') == s;
      if EndsInDash(s) {
        var init := s[..|s| - 1];
        assert init[|init| - 1] != '-' && Text.TrimEndChar(init, '-') == init;
      }
    }
  }

  lemma WordsJoinedIsSlug(s: string)
    requires Plain(s)
    ensures Join(Words(s)) == WithoutLastDash(Collapsed(s))
    ensures Join(Words(s)) == "" || IsSlug(Join(Words(s)))
  {
    CollapsedIsJoinedWords(s);
    CollapsedIsTidy(s);
    TrimTidy(Collapsed(s));
    if !(EndsInDash(s) && Words(s) != []) {
      assert Join(Words(s)) + "" == Join(Words(s));
    }
  }

  lemma SlugStays(s: string)
    requires IsSlug(s)
    ensures Join(Words(s)) == s
  {
    TidyStays(s);
    CollapsedIsJoinedWords(s);
    assert Join(Words(s)) + "" == Join(Words(s));
  }

  // The worktree slug.

  function SlugChar(c: char): string {
    if IsAsciiAlphanumeric(c) then [AsciiLower(c)]
    else if c == '-' || c == '_' || Text.IsWhitespace(c) then "-"
    else ""
  }

  function Mapped(value: string): string {
    if value == "" then "" else SlugChar(value[0]) + Mapped(value[1..])
  }

  // None is the error of an empty id. The hash of the value is left open.
  function Slug(value: string, hash: string -> string): Option<string> {
    var raw := Join(Words(Mapped(value)));
    if raw == "" then None
    else if |raw| > MAX_WORKTREE_SLUG_CHARS then
      Some(Text.TrimChar(raw[..MAX_WORKTREE_SLUG_CHARS - (WORKTREE_SLUG_HASH_CHARS + 1)], '-') + "-" + hash(value))
    else Some(raw)
  }

  predicate IsHexDigit(c: char) {
    'a' <= c <= 'f' || '0' <= c <= '9'
  }

  ghost predicate TwelveHexDigits(hash: string -> string) {
    forall v :: |hash(v)| == WORKTREE_SLUG_HASH_CHARS && forall c | c in hash(v) :: IsHexDigit(c)
  }

  predicate DashesOnly(s: string) {
    forall c | c in s :: c == '-'
  }

  predicate NoAlphanumeric(value: string) {
    forall c | c in value :: !IsAsciiAlphanumeric(c)
  }

  lemma {:induction false} MappedIsPlain(value: string)
    ensures Plain(Mapped(value))
  {
    if value != "" {
      MappedIsPlain(value[1..]);
    }
  }

  lemma {:induction false} MappedDashes(value: string)
    ensures DashesOnly(Mapped(value)) <==> NoAlphanumeric(value)
  {
    if value != "" {
      var first, rest := SlugChar(value[0]), Mapped(value[1..]);
      MappedDashes(value[1..]);
      assert DashesOnly(first + rest) <==> DashesOnly(first) && DashesOnly(rest) by {
        assert forall c | c in first + rest :: c in first || c in rest;
        assert forall c | c in first || c in rest :: c in first + rest;
      }
      assert forall c | c in value :: c == value[0] || c in value[1..];
      if IsAsciiAlphanumeric(value[0]) {
        assert first[0] in first;
      }
    }
  }

  lemma {:induction false} PlainIsMapped(s: string)
    requires Plain(s)
    ensures Mapped(s) == s
  {
    if s != "" {
      assert s[0] in s && forall c | c in s[1..] :: c in s;
      PlainIsMapped(s[1..]);
    }
  }

  lemma {:induction false} CollapsedEmpty(s: string)
    ensures Collapsed(s) == "" <==> DashesOnly(s)
  {
    if s != "" {
      var init, c := s[..|s| - 1], s[|s| - 1];
      CollapsedEmpty(init);
      assert forall d | d in s :: d == c || d in init;
      assert forall d | d in init :: d in s;
      assert c in s;
    }
  }

  lemma SlugIsPlain(s: string)
    requires Tidy(s)
    ensures Plain(s)
  {
    forall c | c in s ensures c == '-' || IsLowerAlphanumeric(c) {
      var i: nat :| i < |s| && s[i] == c;
      assert TidyAt(s, i);
    }
  }

  lemma SlugWithHash(prefix: string, hash: string)
    requires IsSlug(prefix) && |hash| > 0 && forall c | c in hash :: IsHexDigit(c)
    ensures IsSlug(prefix + "-" + hash)
  {
    var s := prefix + "-" + hash;
    forall i: nat | i < |s| ensures TidyAt(s, i) {
      if i < |prefix| {
        assert TidyAt(prefix, i);
      } else if i > |prefix| {
        assert s[i] == hash[i - |prefix| - 1] && s[i] in hash;
      }
    }
    assert s[|s| - 1] == hash[|hash| - 1] && hash[|hash| - 1] in hash;
  }

  // Every id with a letter or digit gets a slug, in the language and within the limit.
  lemma SlugLands(value: string, hash: string -> string)
    requires TwelveHexDigits(hash)
    ensures Slug(value, hash).Some? <==> !NoAlphanumeric(value)
    ensures Slug(value, hash).Some? ==>
              IsSlug(Slug(value, hash).value) && |Slug(value, hash).value| <= 48
  {
    var mapped := Mapped(value);
    var raw := Join(Words(mapped));
    MappedIsPlain(value);
    MappedDashes(value);
    WordsJoinedIsSlug(mapped);
    CollapsedEmpty(mapped);
    assert raw == "" <==> Collapsed(mapped) == "" by {
      CollapsedIsTidy(mapped);
      TrimTidy(Collapsed(mapped));
    }
    if |raw| > MAX_WORKTREE_SLUG_CHARS {
      TidyPrefix(raw, 35);
      TrimTidy(raw[..35]);
      SlugWithHash(WithoutLastDash(raw[..35]), hash(value));
    }
  }

  // A slug within the limit is its own slug; so the normaliser is idempotent.
  lemma SlugOfSlug(s: string, hash: string -> string)
    requires IsSlug(s) && |s| <= MAX_WORKTREE_SLUG_CHARS
    ensures Slug(s, hash) == Some(s)
  {
    SlugIsPlain(s);
    PlainIsMapped(s);
    SlugStays(s);
  }

  lemma SlugTwice(value: string, hash: string -> string)
    requires TwelveHexDigits(hash) && Slug(value, hash).Some?
    ensures Slug(Slug(value, hash).value, hash) == Slug(value, hash)
  {
    SlugLands(value, hash);
    SlugOfSlug(Slug(value, hash).value, hash);
  }

  lemma {:induction false} SplitAfterDash(a: string, w: string)
    requires '-' !in w
    ensures Split(a + "-" + w) == Split(a) + [w]
  {
    var s := a + "-" + w;
    if w == "" {
      assert s == a + "-" && s[..|s| - 1] == a;
    } else {
      var init := w[..|w| - 1];
      SplitAfterDash(a, init);
      assert s[..|s| - 1] == a + "-" + init && w == init + [w[|w| - 1]];
      assert w[|w| - 1] in w;
      assert (Split(a) + [init])[..|Split(a)|] == Split(a);
    }
  }

  lemma {:induction false} SplitWord(w: string)
    requires '-' !in w
    ensures Split(w) == [w]
  {
    if w != "" {
      assert w[|w| - 1] in w && w == w[..|w| - 1] + [w[|w| - 1]];
      SplitWord(w[..|w| - 1]);
    }
  }

  predicate AreWords(words: seq<string>) {
    forall w | w in words :: w != "" && '-' !in w
  }

  // Splitting undoes joining.
  lemma {:induction false} WordsOfJoin(words: seq<string>)
    requires AreWords(words)
    ensures Words(Join(words)) == words
  {
    if |words| == 1 {
      SplitWord(words[0]);
      NonEmptySnoc([], words[0]);
      assert [] + [words[0]] == words;
    } else if words != [] {
      var init, w := words[..|words| - 1], words[|words| - 1];
      assert w in words && words == init + [w];
      assert forall x | x in init :: x in words;
      WordsOfJoin(init);
      SplitAfterDash(Join(init), w);
      NonEmptySnoc(Split(Join(init)), w);
    } else {
      assert Split("") == [""] && NonEmpty([""][..0]) == [];
    }
  }

  lemma {:induction false} PartsHaveNoDash(s: string)
    ensures forall p | p in Split(s) :: '-' !in p
  {
    if s != "" {
      PartsHaveNoDash(s[..|s| - 1]);
    }
  }

  lemma {:induction false} NonEmptyAreWords(parts: seq<string>)
    requires forall p | p in parts :: '-' !in p
    ensures AreWords(NonEmpty(parts))
  {
    if parts != [] {
      assert parts[|parts| - 1] in parts;
      NonEmptyAreWords(parts[..|parts| - 1]);
    }
  }

  // The slug of the id needs no hash.
  predicate Unhashed(value: string) {
    |Join(Words(Mapped(value)))| <= MAX_WORKTREE_SLUG_CHARS
  }

  // Two ids get the same short slug, or both none, exactly when their words are the same.
  lemma SameSlugSameWords(a: string, b: string, hash: string -> string)
    ensures Unhashed(a) && Unhashed(b) ==> (Slug(a, hash) == Slug(b, hash) <==> Words(Mapped(a)) == Words(Mapped(b)))
  {
    PartsHaveNoDash(Mapped(a));
    PartsHaveNoDash(Mapped(b));
    NonEmptyAreWords(Split(Mapped(a)));
    NonEmptyAreWords(Split(Mapped(b)));
    WordsOfJoin(Words(Mapped(a)));
    WordsOfJoin(Words(Mapped(b)));
  }

  // What each character of an id does to its words.

  lemma {:induction false} MappedConcat(a: string, b: string)
    ensures Mapped(a + b) == Mapped(a) + Mapped(b)
  {
    if a == "" {
      assert a + b == b;
    } else {
      assert (a + b)[1..] == a[1..] + b;
      MappedConcat(a[1..], b);
    }
  }

  lemma MappedAround(a: string, c: char, b: string)
    ensures Mapped(a + [c] + b) == Mapped(a) + SlugChar(c) + Mapped(b)
  {
    MappedConcat(a + [c], b);
    MappedConcat(a, [c]);
    assert [c][1..] == "" && SlugChar(c) + "" == SlugChar(c);
  }

  // One more character: a dash opens a part, another goes to the last part.
  function Grown(parts: seq<string>, c: char): seq<string>
    requires parts != []
  {
    if c == '-' then parts + [""] else parts[..|parts| - 1] + [parts[|parts| - 1] + [c]]
  }

  lemma SplitSnoc(s: string, c: char)
    ensures Split(s + [c]) == Grown(Split(s), c)
  {
    assert (s + [c])[..|s|] == s;
  }

  lemma {:induction false} SplitAtDash(x: string, y: string)
    ensures Split(x + "-" + y) == Split(x) + Split(y)
    decreases |y|
  {
    if y == "" {
      assert x + "-" + y == x + "-";
      SplitSnoc(x, '-');
    } else {
      var init, c := y[..|y| - 1], y[|y| - 1];
      SplitAtDash(x, init);
      SplitAtDashStep(x, init, c);
      assert y == init + [c];
    }
  }

  lemma SplitAtDashStep(x: string, y: string, c: char)
    requires Split(x + "-" + y) == Split(x) + Split(y)
    ensures Split(x + "-" + (y + [c])) == Split(x) + Split(y + [c])
  {
    var before, parts := Split(x), Split(y);
    assert x + "-" + (y + [c]) == (x + "-" + y) + [c];
    SplitSnoc(x + "-" + y, c);
    SplitSnoc(y, c);
    SplitLast(before, parts, c);
  }

  lemma SplitLast(before: seq<string>, parts: seq<string>, c: char)
    requires parts != []
    ensures Grown(before + parts, c) == before + Grown(parts, c)
  {
  }

  lemma {:induction false} NonEmptyConcat(a: seq<string>, b: seq<string>)
    ensures NonEmpty(a + b) == NonEmpty(a) + NonEmpty(b)
    decreases |b|
  {
    if b == [] {
      assert a + b == a;
    } else {
      assert (a + b)[..|a + b| - 1] == a + b[..|b| - 1];
      NonEmptyConcat(a, b[..|b| - 1]);
    }
  }

  // Letters and digits are kept, capitals made small; dashes, underscores and whitespace
  // part words; other characters are as if they were not there.
  lemma SlugCharMeans(a: string, c: char, b: string)
    ensures 'a' <= c <= 'z' || '0' <= c <= '9' ==> Mapped(a + [c] + b) == Mapped(a) + [c] + Mapped(b)
    ensures 'A' <= c <= 'Z' ==> Mapped(a + [c] + b) == Mapped(a) + [(c as int + 32) as char] + Mapped(b)
    ensures c == '-' || c == '_' || Text.IsWhitespace(c) ==>
      Words(Mapped(a + [c] + b)) == Words(Mapped(a)) + Words(Mapped(b))
    ensures !IsAsciiAlphanumeric(c) && c != '-' && c != '_' && !Text.IsWhitespace(c) ==>
      Mapped(a + [c] + b) == Mapped(a + b)
  {
    MappedAround(a, c, b);
    if !IsAsciiAlphanumeric(c) {
      if c == '-' || c == '_' || Text.IsWhitespace(c) {
        WordsAtDash(Mapped(a), Mapped(b));
      } else {
        MappedConcat(a, b);
        assert Mapped(a) + "" + Mapped(b) == Mapped(a) + Mapped(b);
      }
    } else {
      LettersAreNoSpace(c);
    }
  }

  lemma LettersAreNoSpace(c: char)
    requires IsAsciiAlphanumeric(c)
    ensures c != '-' && c != '_' && !Text.IsWhitespace(c)
    ensures SlugChar(c) == if 'A' <= c <= 'Z' then [(c as int + 32) as char] else [c]
  {
  }

  lemma WordsAtDash(x: string, y: string)
    ensures Words(x + "-" + y) == Words(x) + Words(y)
  {
    SplitAtDash(x, y);
    NonEmptyConcat(Split(x), Split(y));
  }

  // Of an id whose words are too long for a slug, the first 35 characters stay, but for a
  // dash at their end, followed by a dash and the hash of the id.
  lemma LongSlugMeans(value: string, hash: string -> string)
    ensures !Unhashed(value) ==>
      var joined := Join(Words(Mapped(value)));
      |joined| > 48 && Slug(value, hash) == Some(WithoutLastDash(joined[..35]) + "-" + hash(value))
    ensures Unhashed(value) && Words(Mapped(value)) != [] ==> Slug(value, hash) == Some(Join(Words(Mapped(value))))
  {
    var mapped := Mapped(value);
    MappedIsPlain(value);
    WordsJoinedIsSlug(mapped);
    if !Unhashed(value) {
      TidyPrefix(Join(Words(mapped)), 35);
      TrimTidy(Join(Words(mapped))[..35]);
    } else {
      CollapsedIsJoinedWords(mapped);
      assert Join(Words(mapped)) == WithoutLastDash(Collapsed(mapped));
      CollapsedIsTidy(mapped);
      TrimTidy(Collapsed(mapped));
    }
  }

  // The branch slug.

  // Unicode lowercasing, left open but for what it does to ASCII.
  ghost predicate Lowercases(lower: char -> string) {
    && (forall c | c == '-' || IsLowerAlphanumeric(c) :: lower(c) == [c])
    && (forall c, d | d in lower(c) :: !('A' <= d <= 'Z'))
  }

  function Lowered(task: string, lower: char -> string): string {
    if task == "" then "" else lower(task[0]) + Lowered(task[1..], lower)
  }

  function Dashed(s: string): (r: string)
    ensures |r| == |s|
  {
    seq(|s|, i requires 0 <= i < |s| => if IsAsciiAlphanumeric(s[i]) then s[i] else '-')
  }

  // What becomes of a character of the lowered task: letters and digits stay, and every
  // other character parts words.
  lemma BranchCharMeans(a: string, c: char, b: string)
    ensures IsAsciiAlphanumeric(c) ==> Dashed(a + [c] + b) == Dashed(a) + [c] + Dashed(b)
    ensures !IsAsciiAlphanumeric(c) ==> Words(Dashed(a + [c] + b)) == Words(Dashed(a)) + Words(Dashed(b))
  {
    if IsAsciiAlphanumeric(c) {
      assert Dashed(a + [c] + b) == Dashed(a) + [c] + Dashed(b);
    } else {
      assert Dashed(a + [c] + b) == Dashed(a) + "-" + Dashed(b);
      WordsAtDash(Dashed(a), Dashed(b));
    }
  }

  function Capped(s: string): string {
    if |s| > MAX_BRANCH_SLUG then s[..MAX_BRANCH_SLUG] else s
  }

  function BranchSlug(task: string, lower: char -> string): string {
    var slug := Text.TrimChar(Capped(Collapsed(Dashed(Lowered(task, lower)))), '-');
    if slug == "" then "task" else slug
  }

  lemma DashedPrefix(s: string, i: nat)
    requires i < |s|
    ensures Dashed(s[..i + 1]) == Dashed(s[..i]) + [if IsAsciiAlphanumeric(s[i]) then s[i] else '-']
  {
  }

  lemma {:induction false} CollapsedGrows(s: string, k: nat)
    requires k <= |s|
    ensures Collapsed(s[..k]) <= Collapsed(s)
  {
    if k == |s| {
      assert s[..k] == s;
    } else {
      CollapsedGrows(s[..|s| - 1], k);
      assert s[..|s| - 1][..k] == s[..k];
    }
  }

  // What the loop has built after i characters, but for the cap.
  function Built(chars: string, i: nat): string
    requires i <= |chars|
  {
    Collapsed(Dashed(chars[..i]))
  }

  lemma BuiltStep(chars: string, i: nat)
    requires i < |chars|
    ensures Built(chars, i + 1)
         == if IsAsciiAlphanumeric(chars[i]) then Built(chars, i) + [chars[i]]
            else if Built(chars, i) == "" || EndsInDash(Built(chars, i)) then Built(chars, i)
            else Built(chars, i) + "-"
  {
    DashedPrefix(chars, i);
    CollapsedSnoc(Dashed(chars[..i]), if IsAsciiAlphanumeric(chars[i]) then chars[i] else '-');
  }

  // The loop may stop once the cap is reached.
  lemma BuiltCapped(chars: string, i: nat)
    requires i <= |chars| && (i == |chars| || |Built(chars, i)| == MAX_BRANCH_SLUG)
    requires |Built(chars, i)| <= MAX_BRANCH_SLUG
    ensures Capped(Collapsed(Dashed(chars))) == Built(chars, i)
  {
    var dashed := Dashed(chars);
    assert dashed[..i] == Dashed(chars[..i]);
    CollapsedGrows(dashed, i);
    if i == |chars| {
      assert chars[..i] == chars;
    }
  }

  method SlugifyForBranch(task: string, lower: char -> string) returns (r: string)
    ensures r == BranchSlug(task, lower)
  {
    var chars := Lowered(task, lower);
    var slug := "";
    var lastDash := false;
    var i: nat := 0;
    while i < |chars|
      invariant i <= |chars| && |slug| < MAX_BRANCH_SLUG
      invariant lastDash <==> EndsInDash(slug)
      invariant slug == Built(chars, i)
    {
      var ch := chars[i];
      BuiltStep(chars, i);
      if IsAsciiAlphanumeric(ch) {
        slug := slug + [ch];
        lastDash := false;
      } else if !lastDash && slug != "" {
        slug := slug + "-";
        lastDash := true;
      }
      i := i + 1;
      if |slug| >= MAX_BRANCH_SLUG {
        break;
      }
    }
    BuiltCapped(chars, i);
    slug := Text.TrimChar(slug, '-');
    r := if slug == "" then "task" else slug;
  }

  lemma {:induction false} LoweredHasNoUpper(task: string, lower: char -> string)
    requires Lowercases(lower)
    ensures forall c | c in Lowered(task, lower) :: !('A' <= c <= 'Z')
  {
    if task != "" {
      LoweredHasNoUpper(task[1..], lower);
    }
  }

  lemma DashedIsPlain(s: string)
    requires forall c | c in s :: !('A' <= c <= 'Z')
    ensures Plain(Dashed(s))
  {
    forall c | c in Dashed(s) ensures c == '-' || IsLowerAlphanumeric(c) {
      var i: nat :| i < |s| && Dashed(s)[i] == c;
      assert s[i] in s;
    }
  }

  lemma TaskIsSlug()
    ensures IsSlug("task")
  {
    var s := "task";
    forall i: nat | i < 4 ensures TidyAt(s, i) {
      assert i == 0 || i == 1 || i == 2 || i == 3;
    }
  }

  // The branch slug is the words of the lowercased task, joined and cut to the limit; it
  // is in the language whatever the task.
  lemma BranchSlugLands(task: string, lower: char -> string)
    requires Lowercases(lower)
    ensures IsSlug(BranchSlug(task, lower)) && |BranchSlug(task, lower)| <= 40
    ensures var joined := Join(Words(Dashed(Lowered(task, lower))));
            BranchSlug(task, lower)
            == if joined == "" then "task" else WithoutLastDash(if |joined| > 40 then joined[..40] else joined)
  {
    var dashed := Dashed(Lowered(task, lower));
    LoweredHasNoUpper(task, lower);
    DashedIsPlain(Lowered(task, lower));
    CollapsedIsTidy(dashed);
    WordsJoinedIsSlug(dashed);
    CapThenTrim(Collapsed(dashed));
    TaskIsSlug();
  }

  // Cutting a tidy string to the limit, and the dash at the end dropped before or after.
  lemma CapThenTrim(s: string)
    requires Tidy(s)
    ensures Text.TrimChar(Capped(s), '-') == WithoutLastDash(Capped(s)) == WithoutLastDash(Capped(WithoutLastDash(s)))
    ensures s != "" ==> IsSlug(WithoutLastDash(Capped(s)))
    ensures s == "" <==> WithoutLastDash(s) == ""
  {
    TidyPrefix(s, |Capped(s)|);
    TrimTidy(Capped(s));
    TrimTidy(s);
    if |s| > MAX_BRANCH_SLUG {
      assert WithoutLastDash(s)[..MAX_BRANCH_SLUG] == s[..MAX_BRANCH_SLUG];
    }
  }

  lemma {:induction false} LowerStays(s: string, lower: char -> string)
    requires Plain(s) && Lowercases(lower)
    ensures Lowered(s, lower) == s && Dashed(s) == s
  {
    forall i | 0 <= i < |s| ensures Dashed(s)[i] == s[i] { assert s[i] in s; }
    if s != "" {
      assert s[0] in s && forall c | c in s[1..] :: c in s;
      LowerStays(s[1..], lower);
    }
  }

  lemma BranchSlugOfSlug(s: string, lower: char -> string)
    requires IsSlug(s) && |s| <= MAX_BRANCH_SLUG && Lowercases(lower)
    ensures BranchSlug(s, lower) == s
  {
    SlugIsPlain(s);
    LowerStays(s, lower);
    TidyStays(s);
    TrimTidy(s);
  }

  lemma BranchSlugTwice(task: string, lower: char -> string)
    requires Lowercases(lower)
    ensures BranchSlug(BranchSlug(task, lower), lower) == BranchSlug(task, lower)
  {
    BranchSlugLands(task, lower);
    BranchSlugOfSlug(BranchSlug(task, lower), lower);
  }

  // A branch slug is also its own worktree slug.
  lemma SlugOfBranchSlug(task: string, lower: char -> string, hash: string -> string)
    requires Lowercases(lower)
    ensures Slug(BranchSlug(task, lower), hash) == Some(BranchSlug(task, lower))
  {
    BranchSlugLands(task, lower);
    SlugOfSlug(BranchSlug(task, lower), hash);
  }
}
