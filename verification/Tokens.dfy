// The token estimator that drives compaction.
module Tokens {
  import Text

  // The length of the longest prefix without whitespace.
  function WordEnd(s: string): (n: nat)
    ensures n <= |s|
    ensures s != "" && !Text.IsWhitespace(s[0]) ==> n > 0
  {
    if s == "" || Text.IsWhitespace(s[0]) then 0 else 1 + WordEnd(s[1..])
  }

  // str::split_whitespace
  function Words(s: string): seq<string>
    decreases |s|
  {
    if s == "" then []
    else if Text.IsWhitespace(s[0]) then Words(s[1..])
    else [s[..WordEnd(s)]] + Words(s[WordEnd(s)..])
  }

  function WhitespaceCount(s: string): nat {
    if s == "" then 0 else (if Text.IsWhitespace(s[0]) then 1 else 0) + WhitespaceCount(s[1..])
  }

  predicate IsCjk(c: char) {
    var cp := c as int;
    || 0x1100 <= cp <= 0x11FF || 0x2E80 <= cp <= 0x2EFF || 0x2F00 <= cp <= 0x2FDF
    || 0x3000 <= cp <= 0x303F || 0x3040 <= cp <= 0x309F || 0x30A0 <= cp <= 0x30FF
    || 0x3130 <= cp <= 0x318F || 0x31F0 <= cp <= 0x31FF || 0x3400 <= cp <= 0x4DBF
    || 0x4E00 <= cp <= 0x9FFF || 0xA960 <= cp <= 0xA97F || 0xAC00 <= cp <= 0xD7AF
    || 0xF900 <= cp <= 0xFAFF || 0xFF00 <= cp <= 0xFFEF || 0x20000 <= cp <= 0x2A6DF
    || 0x2A700 <= cp <= 0x2B73F
  }

  predicate IsAsciiPunctuation(c: char) {
    var cp := c as int;
    33 <= cp <= 47 || 58 <= cp <= 64 || 91 <= cp <= 96 || 123 <= cp <= 126
  }

  function CountCjk(word: string): nat {
    if word == "" then 0
    else CountCjk(word[..|word| - 1]) + if IsCjk(word[|word| - 1]) then 1 else 0
  }

  function CountPunctuation(word: string): nat {
    if word == "" then 0
    else
      var c := word[|word| - 1];
      CountPunctuation(word[..|word| - 1]) + if !IsCjk(c) && IsAsciiPunctuation(c) then 1 else 0
  }

  predicate LooksCompound(word: string) {
    Text.Utf8Len(word) >= 12
    && exists i | 0 <= i < |word| :: word[i] == '_' || word[i] == '-' || 'A' <= word[i] <= 'Z'
  }

  lemma {:induction false} CountsFit(word: string)
    ensures CountCjk(word) + CountPunctuation(word) <= |word|
  {
    if word != "" {
      CountsFit(word[..|word| - 1]);
    }
  }

  // What one word costs; never less than one token.
  function WordCost(word: string): (cost: nat)
    ensures cost >= 1
  {
    CountsFit(word);
    var latin := |word| - CountCjk(word) - CountPunctuation(word);
    var total := CountCjk(word)
               + (if CountPunctuation(word) > 0 then 1 else 0)
               + (if latin > 0 then Text.DivCeil(latin, 4) + (if LooksCompound(word) then 1 else 0) else 0);
    if total >= 1 then total else 1
  }

  function Cost(words: seq<string>): nat {
    if words == [] then 0 else Cost(words[..|words| - 1]) + WordCost(words[|words| - 1])
  }

  function Estimate(text: string): nat {
    Cost(Words(text)) + WhitespaceCount(text) / 16
  }

  method EstimateWordTokens(word: string) returns (total: nat)
    ensures total == WordCost(word)
  {
    var cjk, latin, punct := 0, 0, 0;
    for i := 0 to |word|
      invariant cjk == CountCjk(word[..i]) && punct == CountPunctuation(word[..i])
      invariant cjk >= 0 && punct >= 0 && latin == i - cjk - punct >= 0
    {
      assert word[..i + 1][..i] == word[..i];
      if IsCjk(word[i]) {
        cjk := cjk + 1;
      } else if IsAsciiPunctuation(word[i]) {
        punct := punct + 1;
      } else {
        latin := latin + 1;
      }
    }
    assert word[..|word|] == word;
    total := cjk;
    if punct > 0 {
      total := total + 1;
    }
    if latin > 0 {
      var latinTokens := Text.DivCeil(latin, 4);
      if LooksCompound(word) {
        latinTokens := latinTokens + 1;
      }
      total := total + latinTokens;
    }
    if total < 1 {
      total := 1;
    }
  }

  method EstimateTokensForText(text: string) returns (total: nat)
    ensures total == Estimate(text)
  {
    total := 0;
    var words := Words(text);
    for i := 0 to |words|
      invariant total == Cost(words[..i])
    {
      assert words[..i + 1][..i] == words[..i];
      var tokens := EstimateWordTokens(words[i]);
      total := total + tokens;
    }
    assert words[..|words|] == words;
    total := total + WhitespaceCount(text) / 16;
  }

  // Joining two texts with whitespace.

  lemma {:induction false} WordEndStops(a: string, c: char, b: string)
    requires Text.IsWhitespace(c)
    ensures WordEnd(a + [c] + b) == WordEnd(a)
  {
    if a != "" && !Text.IsWhitespace(a[0]) {
      assert (a + [c] + b)[1..] == a[1..] + [c] + b;
      WordEndStops(a[1..], c, b);
    }
  }

  lemma {:induction false} WordsJoin(a: string, c: char, b: string)
    requires Text.IsWhitespace(c)
    ensures Words(a + [c] + b) == Words(a) + Words(b)
    decreases |a|
  {
    var all := a + [c] + b;
    if a == "" {
      assert all[1..] == b;
    } else if Text.IsWhitespace(a[0]) {
      assert all[1..] == a[1..] + [c] + b;
      WordsJoin(a[1..], c, b);
    } else {
      WordEndStops(a, c, b);
      var n := WordEnd(a);
      assert all[..n] == a[..n] && all[n..] == a[n..] + [c] + b;
      WordsJoin(a[n..], c, b);
    }
  }

  lemma {:induction false} WhitespaceJoin(a: string, b: string)
    ensures WhitespaceCount(a + b) == WhitespaceCount(a) + WhitespaceCount(b)
  {
    if a == "" {
      assert a + b == b;
    } else {
      assert (a + b)[1..] == a[1..] + b;
      WhitespaceJoin(a[1..], b);
    }
  }

  lemma {:induction false} CostConcat(a: seq<string>, b: seq<string>)
    ensures Cost(a + b) == Cost(a) + Cost(b)
    ensures Cost(b) >= |b|
  {
    if b == [] {
      assert a + b == a;
    } else {
      assert (a + b)[..|a + b| - 1] == a + b[..|b| - 1];
      CostConcat(a, b[..|b| - 1]);
    }
  }

  lemma JoinParts(a: string, c: char, b: string)
    requires Text.IsWhitespace(c)
    ensures Cost(Words(a + [c] + b)) == Cost(Words(a)) + Cost(Words(b))
    ensures WhitespaceCount(a + [c] + b) == WhitespaceCount(a) + 1 + WhitespaceCount(b)
  {
    WordsJoin(a, c, b);
    CostConcat(Words(a), Words(b));
    WhitespaceJoin(a + [c], b);
    WhitespaceJoin(a, [c]);
    assert WhitespaceCount([c]) == 1 by { assert [c][1..] == ""; }
  }

  function Spare(a: string, b: string): nat {
    WhitespaceCount(a) % 16 + WhitespaceCount(b) % 16
  }

  // The estimate is additive but for the spare whitespace of both texts: joining with
  // one whitespace character adds one token exactly when that fills a block of 16.
  lemma EstimateJoin(a: string, c: char, b: string)
    requires Text.IsWhitespace(c)
    ensures Estimate(a + [c] + b) == Estimate(a) + Estimate(b) + if Spare(a, b) >= 15 then 1 else 0
  {
    JoinParts(a, c, b);
  }

  // With the separator of merged messages it adds at most two, and two only when
  // both texts are one character short of a block.
  lemma EstimateMergeJoin(a: string, b: string)
    ensures Estimate(a + "\n\n" + b) == Estimate(a) + Estimate(b)
        + if Spare(a, b) == 30 then 2 else if Spare(a, b) >= 14 then 1 else 0
  {
    var rest := "" + ['\n'] + b;
    assert a + "\n\n" + b == a + ['\n'] + rest;
    JoinParts("", '\n', b);
    JoinParts(a, '\n', rest);
  }

  // What a word costs, by the kinds of its characters.

  // Where the characters of a kind stand.
  function Places(word: string, kind: char -> bool): set<nat> {
    set i | 0 <= i < |word| && kind(word[i])
  }

  predicate IsMark(c: char) {
    !IsCjk(c) && IsAsciiPunctuation(c)
  }

  lemma PlacesSnoc(word: string, c: char, kind: char -> bool)
    ensures |Places(word + [c], kind)| == |Places(word, kind)| + if kind(c) then 1 else 0
  {
    var more := word + [c];
    assert Places(more, kind) == Places(word, kind) + (if kind(c) then {|word|} else {}) by {
      forall i | 0 <= i < |word| ensures more[i] == word[i] {
      }
    }
  }

  lemma {:induction false} CjkCounted(word: string)
    ensures |Places(word, IsCjk)| == CountCjk(word)
  {
    if word != "" {
      var n := |word| - 1;
      CjkCounted(word[..n]);
      assert word == word[..n] + [word[n]];
      PlacesSnoc(word[..n], word[n], IsCjk);
    }
  }

  lemma {:induction false} MarksCounted(word: string)
    ensures |Places(word, IsMark)| == CountPunctuation(word)
  {
    if word != "" {
      var n := |word| - 1;
      MarksCounted(word[..n]);
      assert word == word[..n] + [word[n]];
      PlacesSnoc(word[..n], word[n], IsMark);
    }
  }

  // A word of at least twelve bytes with a capital, a dash or an underscore.
  predicate LongIdentifier(word: string) {
    Text.Utf8Len(word) > 11 && ('_' in word || '-' in word || exists c | c in word :: 'A' <= c <= 'Z')
  }

  lemma LongIdentifierIsCompound(word: string)
    ensures LongIdentifier(word) <==> LooksCompound(word)
  {
    if LongIdentifier(word) {
      var c :| c in word && (c == '_' || c == '-' || 'A' <= c <= 'Z');
      var i :| 0 <= i < |word| && word[i] == c;
    }
    if LooksCompound(word) {
      var i :| 0 <= i < |word| && (word[i] == '_' || word[i] == '-' || 'A' <= word[i] <= 'Z');
      assert word[i] in word;
    }
  }

  // One token for each CJK character, one for all punctuation, one for every four of the
  // other characters or part of four, one more for a long identifier that has any of these,
  // and one for a word that would otherwise cost none.
  lemma WordCostMeans(word: string) returns (quarters: nat)
    ensures var cjk, marks := |Places(word, IsCjk)|, |Places(word, IsMark)|;
            var others := |word| - cjk - marks;
            others >= 0 && 4 * quarters - 4 < others <= 4 * quarters
            && var sum := cjk + quarters
                 + (if marks > 0 then 1 else 0)
                 + (if others > 0 && LongIdentifier(word) then 1 else 0);
            WordCost(word) == if sum == 0 then 1 else sum
  {
    CjkCounted(word);
    MarksCounted(word);
    CountsFit(word);
    LongIdentifierIsCompound(word);
    quarters := Text.DivCeil(|word| - CountCjk(word) - CountPunctuation(word), 4);
  }

  // With the cost of a join, these two say what every text costs: a word what the word
  // costs, and whitespace one token for every 16 characters.

  lemma {:induction false} NoWhitespaceIn(word: string)
    requires forall c | c in word :: !Text.IsWhitespace(c)
    ensures WordEnd(word) == |word| && WhitespaceCount(word) == 0
  {
    if word != "" {
      assert word[0] in word;
      NoWhitespaceIn(word[1..]);
    }
  }

  lemma EstimateWord(word: string)
    requires |word| > 0 && forall c | c in word :: !Text.IsWhitespace(c)
    ensures Estimate(word) == WordCost(word)
  {
    NoWhitespaceIn(word);
    assert word[0] in word && word[..|word|] == word && word[|word|..] == "";
    var ws := [word];
    assert Words(word) == ws by { assert Words("") == []; }
    assert ws[..|ws| - 1] == [] && Cost([]) == 0;
    assert WhitespaceCount(word) / 16 == 0;
  }

  lemma {:induction false} OnlyWhitespaceIn(blank: string)
    requires Text.AllWhitespace(blank)
    ensures Words(blank) == [] && WhitespaceCount(blank) == |blank|
  {
    if blank != "" {
      assert blank[0] in blank;
      OnlyWhitespaceIn(blank[1..]);
    }
  }

  lemma EstimateBlank(blank: string)
    requires Text.AllWhitespace(blank)
    ensures Estimate(blank) == |blank| / 16
  {
    OnlyWhitespaceIn(blank);
  }

  lemma EstimateCoversWords(text: string)
    ensures Estimate(text) >= |Words(text)|
  {
    CostConcat([], Words(text));
    assert [] + Words(text) == Words(text);
  }
}
