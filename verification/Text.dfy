// Characters and strings, as far as the modelled code looks into them.
module Text {

  // Rust's char::is_whitespace: the Unicode White_Space property.
  predicate IsWhitespace(c: char) {
    var cp := c as int;
    || 0x09 <= cp <= 0x0D || cp == 0x20 || cp == 0x85 || cp == 0xA0 || cp == 0x1680
    || 0x2000 <= cp <= 0x200A || cp == 0x2028 || cp == 0x2029 || cp == 0x202F
    || cp == 0x205F || cp == 0x3000
  }

  function TrimStart(s: string): string {
    if s != "" && IsWhitespace(s[0]) then TrimStart(s[1..]) else s
  }

  function TrimEnd(s: string): string {
    if s != "" && IsWhitespace(s[|s| - 1]) then TrimEnd(s[..|s| - 1]) else s
  }

  // str::trim
  function Trim(s: string): string {
    TrimEnd(TrimStart(s))
  }

  predicate AllWhitespace(s: string) {
    forall c | c in s :: IsWhitespace(c)
  }

  lemma {:induction false} TrimStartMeans(s: string) returns (before: string)
    ensures s == before + TrimStart(s) && AllWhitespace(before)
    ensures TrimStart(s) != "" ==> !IsWhitespace(TrimStart(s)[0])
  {
    if s != "" && IsWhitespace(s[0]) {
      var rest := TrimStartMeans(s[1..]);
      before := [s[0]] + rest;
      assert s == [s[0]] + s[1..];
    } else {
      before := "";
    }
  }

  lemma {:induction false} TrimEndMeans(s: string) returns (after: string)
    ensures s == TrimEnd(s) + after && AllWhitespace(after)
    ensures TrimEnd(s) != "" ==> !IsWhitespace(TrimEnd(s)[|TrimEnd(s)| - 1])
  {
    if s != "" && IsWhitespace(s[|s| - 1]) {
      var rest := TrimEndMeans(s[..|s| - 1]);
      after := rest + [s[|s| - 1]];
    } else {
      after := "";
    }
  }

  // Only whitespace goes, from both ends, and all of it.
  lemma TrimMeans(s: string) returns (before: string, after: string)
    ensures s == before + Trim(s) + after && AllWhitespace(before) && AllWhitespace(after)
    ensures Trim(s) != "" ==> !IsWhitespace(Trim(s)[0]) && !IsWhitespace(Trim(s)[|Trim(s)| - 1])
  {
    before := TrimStartMeans(s);
    after := TrimEndMeans(TrimStart(s));
    assert s == before + (Trim(s) + after);
    if Trim(s) != "" {
      assert TrimStart(s)[0] == Trim(s)[0];
    }
  }

  // A text is blank exactly when it is all whitespace.
  lemma BlankMeans(s: string)
    ensures Trim(s) == "" <==> AllWhitespace(s)
  {
    var before, after := TrimMeans(s);
    if Trim(s) != "" {
      assert s[|before|] == Trim(s)[0] && s[|before|] in s;
    }
  }

  function TrimStartChar(s: string, c: char): string {
    if s != "" && s[0] == c then TrimStartChar(s[1..], c) else s
  }

  function TrimEndChar(s: string, c: char): string {
    if s != "" && s[|s| - 1] == c then TrimEndChar(s[..|s| - 1], c) else s
  }

  // str::trim_matches with a single character
  function TrimChar(s: string, c: char): string {
    TrimEndChar(TrimStartChar(s, c), c)
  }

  predicate AllOf(s: string, c: char) {
    forall x | x in s :: x == c
  }

  lemma {:induction false} TrimStartCharMeans(s: string, c: char) returns (before: string)
    ensures s == before + TrimStartChar(s, c) && AllOf(before, c)
    ensures TrimStartChar(s, c) != "" ==> TrimStartChar(s, c)[0] != c
  {
    if s != "" && s[0] == c {
      var rest := TrimStartCharMeans(s[1..], c);
      before := [c] + rest;
      assert s == [c] + s[1..];
    } else {
      before := "";
    }
  }

  lemma {:induction false} TrimEndCharMeans(s: string, c: char) returns (after: string)
    ensures s == TrimEndChar(s, c) + after && AllOf(after, c)
    ensures TrimEndChar(s, c) != "" ==> TrimEndChar(s, c)[|TrimEndChar(s, c)| - 1] != c
  {
    if s != "" && s[|s| - 1] == c {
      var rest := TrimEndCharMeans(s[..|s| - 1], c);
      after := rest + [c];
    } else {
      after := "";
    }
  }

  // Only the character goes, from both ends, and all of it.
  lemma TrimCharMeans(s: string, c: char) returns (before: string, after: string)
    ensures s == before + TrimChar(s, c) + after && AllOf(before, c) && AllOf(after, c)
    ensures TrimChar(s, c) != "" ==> TrimChar(s, c)[0] != c && TrimChar(s, c)[|TrimChar(s, c)| - 1] != c
  {
    before := TrimStartCharMeans(s, c);
    after := TrimEndCharMeans(TrimStartChar(s, c), c);
    assert s == before + (TrimChar(s, c) + after);
    if TrimChar(s, c) != "" {
      assert TrimStartChar(s, c)[0] == TrimChar(s, c)[0];
    }
  }

  lemma {:induction false} TrimStartPast(gap: string, s: string)
    requires AllWhitespace(gap) && (s != "" ==> !IsWhitespace(s[0]))
    ensures TrimStart(gap + s) == s
  {
    if gap == "" {
      assert gap + s == s;
    } else {
      TrimStartPast(gap[1..], s);
      assert (gap + s)[1..] == gap[1..] + s && (gap + s)[0] == gap[0] && gap[0] in gap;
    }
  }

  // The number of bytes of a character in UTF-8.
  function Utf8Width(c: char): (n: nat)
    ensures 1 <= n <= 4
  {
    var cp := c as int;
    if cp < 0x80 then 1 else if cp < 0x800 then 2 else if cp < 0x10000 then 3 else 4
  }

  // str::len, which counts bytes.
  function Utf8Len(s: string): nat {
    if s == "" then 0 else Utf8Width(s[0]) + Utf8Len(s[1..])
  }

  // usize::div_ceil
  function DivCeil(n: nat, d: nat): nat
    requires d > 0
  {
    (n + d - 1) / d
  }

  function Digit(d: nat): char
    requires d < 10
  {
    '0' + d as char
  }

  // A number in decimal, without leading zeros.
  function Decimal(n: nat): string {
    if n < 10 then [Digit(n)] else Decimal(n / 10) + [Digit(n % 10)]
  }
}
