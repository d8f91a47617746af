/** The JavaScript string primitives both scorers are built on, over
    strings of Unicode scalar values: `toLowerCase`, the `/[^\w\s]/g`
    replacement, `split(/\s+/)`, `split('\n')`, `includes`, `Math.round`,
    the decimal rendering of a whole number and the `/(\d+)%/` capture that
    reads it back, `join`, and filtering a keyword list by `includes`. */
module Text {
  import opened Common

  predicate IsAsciiUpper(c: char) {
    'A' <= c <= 'Z'
  }

  predicate IsDigit(c: char) {
    '0' <= c <= '9'
  }

  /** `\w` of a regular expression without the `u` flag. */
  predicate IsWordChar(c: char) {
    'a' <= c <= 'z' || 'A' <= c <= 'Z' || IsDigit(c) || c == '_'
  }

  /** `\s`: the white space and line terminators of ECMAScript, which is
      also exactly what `String.prototype.trim` strips. */
  predicate IsSpace(c: char) {
    c == '\t' || c == '\n' || c == '\U{000B}' || c == '\U{000C}' || c == '\r' || c == ' '
    || c == '\U{00A0}' || c == '\U{1680}' || ('\U{2000}' <= c <= '\U{200A}')
    || c == '\U{2028}' || c == '\U{2029}' || c == '\U{202F}' || c == '\U{205F}'
    || c == '\U{3000}' || c == '\U{FEFF}'
  }

  predicate IsNotSpace(c: char) {
    !IsSpace(c)
  }

  predicate NonEmpty(s: string) {
    |s| > 0
  }

  /** The lower-case form of one character. ASCII letters map to their lower
      case; the two characters whose lower case contains an ASCII letter,
      U+0130 (to "i" and a combining dot) and the Kelvin sign U+212A (to "k"),
      are mapped as `toLowerCase` maps them; any other character is kept. */
  function LowerChar(c: char): (r: string)
    ensures |r| >= 1
    ensures forall i :: 0 <= i < |r| ==> !IsAsciiUpper(r[i])
    ensures IsAsciiUpper(c) ==> r == [(c as int + 32) as char]
  {
    if IsAsciiUpper(c) then [(c as int + 32) as char]
    else if c == '\U{0130}' then ['i', '\U{0307}']
    else if c == '\U{212A}' then ['k']
    else [c]
  }

  /** `s.toLowerCase()`. */
  function ToLower(s: string): (r: string)
    ensures |r| >= |s|
    ensures forall i :: 0 <= i < |r| ==> !IsAsciiUpper(r[i])
  {
    if s == [] then [] else LowerChar(s[0]) + ToLower(s[1..])
  }

  lemma {:induction false} ToLowerConcat(a: string, b: string)
    ensures ToLower(a + b) == ToLower(a) + ToLower(b)
  {
    if a == [] {
      assert a + b == b;
    } else {
      assert (a + b)[1..] == a[1..] + b;
      ToLowerConcat(a[1..], b);
    }
  }

  /** Lower-casing twice is lower-casing once. */
  lemma {:induction false} ToLowerIdempotent(s: string)
    ensures ToLower(ToLower(s)) == ToLower(s)
  {
    if s != [] {
      var head := LowerChar(s[0]);
      ToLowerConcat(head, ToLower(s[1..]));
      ToLowerIdempotent(s[1..]);
      if |head| == 1 {
        assert head[1..] == [];
      } else {
        assert head == ['i', '\U{0307}'];
        assert head[1..] == ['\U{0307}'];
      }
    }
  }

  /** A character survives the `/[^\w\s]/g` replacement only when it is a
      word character or white space; every other becomes a space. */
  function Blank(c: char): char {
    if IsWordChar(c) || IsSpace(c) then c else ' '
  }

  /** `s.toLowerCase().replace(/[^\w\s]/g, ' ')`. */
  function Normalize(s: string): (r: string)
    ensures |r| == |ToLower(s)|
    ensures forall i :: 0 <= i < |r| ==> IsWordChar(r[i]) || IsSpace(r[i])
    ensures forall i :: 0 <= i < |r| ==> !IsAsciiUpper(r[i])
    ensures forall i :: 0 <= i < |r| ==>
              (IsWordChar(ToLower(s)[i]) || IsSpace(ToLower(s)[i]) ==> r[i] == ToLower(s)[i])
    ensures forall i :: 0 <= i < |r| ==>
              (!IsWordChar(ToLower(s)[i]) && !IsSpace(ToLower(s)[i]) ==> r[i] == ' ')
  {
    var t := ToLower(s);
    seq(|t|, i requires 0 <= i < |t| => Blank(t[i]))
  }

  /** `s.split(/\s+/)`: the pieces between maximal runs of white space. A
      leading or trailing run yields an empty first or last piece, and the
      empty string yields one empty piece. */
  function Split(s: string): (r: seq<string>)
    ensures |r| >= 1
    ensures forall i, j :: 0 <= i < |r| && 0 <= j < |r[i]| ==> !IsSpace(r[i][j])
    ensures forall i, j :: 0 <= i < |r| && 0 <= j < |r[i]| ==> r[i][j] in s
    decreases |s|
  {
    if s == [] then [""]
    else
      var rest := Split(s[1..]);
      if !IsSpace(s[0]) then [[s[0]] + rest[0]] + rest[1..]
      else if |s| > 1 && IsSpace(s[1]) then rest
      else [""] + rest
  }

  /** The number of maximal runs of white space in `s`, counted at the last
      character of each run. */
  function SpaceRuns(s: string): nat {
    if s == [] then 0
    else (if IsSpace(s[0]) && (|s| == 1 || !IsSpace(s[1])) then 1 else 0) + SpaceRuns(s[1..])
  }

  /** The number of maximal runs of other characters in `s`, counted at the
      last character of each run. */
  function WordRuns(s: string): nat {
    if s == [] then 0
    else (if !IsSpace(s[0]) && (|s| == 1 || IsSpace(s[1])) then 1 else 0) + WordRuns(s[1..])
  }

  function Concat(ss: seq<string>): string {
    if ss == [] then [] else ss[0] + Concat(ss[1..])
  }

  /** The first piece of a split is empty exactly when the text is empty or
      starts with white space. */
  lemma {:induction false} SplitHead(s: string)
    ensures Split(s)[0] == "" <==> s == [] || IsSpace(s[0])
  {
    if s != [] && IsSpace(s[0]) && |s| > 1 && IsSpace(s[1]) {
      SplitHead(s[1..]);
    }
  }

  /** `split(/\s+/)` loses exactly the white space: the pieces, laid end to
      end, are the text without its white space, and there is one piece more
      than there are runs of white space. */
  lemma {:induction false} SplitMeaning(s: string)
    ensures Concat(Split(s)) == Filter(s, IsNotSpace)
    ensures |Split(s)| == 1 + SpaceRuns(s)
    decreases |s|
  {
    if s != [] {
      SplitMeaning(s[1..]);
      var rest := Split(s[1..]);
      if !IsSpace(s[0]) {
        var r := [[s[0]] + rest[0]] + rest[1..];
        assert r[1..] == rest[1..];
        assert Concat(rest) == rest[0] + Concat(rest[1..]);
        assert Concat(r) == [s[0]] + rest[0] + Concat(rest[1..]);
        if |s| > 1 {
          SplitHead(s[1..]);
        }
      } else if !(|s| > 1 && IsSpace(s[1])) {
        assert ([""] + rest)[1..] == rest;
      }
    }
  }

  /** The tokens of `split(/\s+/).filter(w => w.length > 0)`. */
  function Words(s: string): seq<string> {
    Filter(Split(s), NonEmpty)
  }

  /** The tokens are the maximal runs of non-white-space characters: each
      is non-empty and holds no white space, laid end to end they are the
      text without its white space, and there are as many as there are
      such runs. */
  lemma {:induction false} WordsMeaning(s: string)
    ensures forall i :: 0 <= i < |Words(s)| ==> Words(s)[i] != ""
    ensures forall i, j :: 0 <= i < |Words(s)| && 0 <= j < |Words(s)[i]| ==> !IsSpace(Words(s)[i][j])
    ensures Concat(Words(s)) == Filter(s, IsNotSpace)
    ensures |Words(s)| == WordRuns(s)
  {
    WordsNoSpace(s);
    WordsConcat(Split(s));
    SplitMeaning(s);
    WordsCount(s);
  }

  lemma WordsNoSpace(s: string)
    ensures forall i, j :: 0 <= i < |Words(s)| && 0 <= j < |Words(s)[i]| ==> !IsSpace(Words(s)[i][j])
    ensures forall i, j :: 0 <= i < |Words(s)| && 0 <= j < |Words(s)[i]| ==> Words(s)[i][j] in s
  {
    var w := Words(s);
    forall i, j | 0 <= i < |w| && 0 <= j < |w[i]| ensures !IsSpace(w[i][j]) && w[i][j] in s {
      FilterMembership(Split(s), NonEmpty, w[i]);
      var k :| 0 <= k < |Split(s)| && Split(s)[k] == w[i];
    }
  }

  /** The tokens of a normalised text are made of lower-case letters,
      digits and `_` only. */
  lemma NormalizedWords(s: string)
    ensures forall i, j :: 0 <= i < |Words(Normalize(s))| && 0 <= j < |Words(Normalize(s))[i]| ==>
              IsWordChar(Words(Normalize(s))[i][j]) && !IsAsciiUpper(Words(Normalize(s))[i][j])
  {
    var n := Normalize(s);
    WordsNoSpace(n);
    forall i, j | 0 <= i < |Words(n)| && 0 <= j < |Words(n)[i]|
      ensures IsWordChar(Words(n)[i][j]) && !IsAsciiUpper(Words(n)[i][j])
    {
      var k :| 0 <= k < |n| && n[k] == Words(n)[i][j];
    }
  }

  /** Dropping empty pieces does not change their concatenation. */
  lemma {:induction false} WordsConcat(ss: seq<string>)
    ensures Concat(Filter(ss, NonEmpty)) == Concat(ss)
  {
    if ss != [] {
      WordsConcat(ss[1..]);
      if ss[0] == "" {
        assert Concat(ss) == ss[0] + Concat(ss[1..]) == Concat(ss[1..]);
      }
    }
  }

  lemma {:induction false} WordsCount(s: string)
    ensures |Words(s)| == WordRuns(s)
    decreases |s|
  {
    if s != [] {
      WordsCount(s[1..]);
      var rest := Split(s[1..]);
      if !IsSpace(s[0]) {
        var r := [[s[0]] + rest[0]] + rest[1..];
        assert r[1..] == rest[1..];
        assert Filter(rest, NonEmpty) == (if rest[0] != "" then [rest[0]] else []) + Filter(rest[1..], NonEmpty);
        if |s| > 1 {
          SplitHead(s[1..]);
        }
      } else if !(|s| > 1 && IsSpace(s[1])) {
        assert ([""] + rest)[1..] == rest;
      }
    }
  }

  /** `s.split(sep)` for a one-character separator. */
  function SplitOn(s: string, sep: char): (r: seq<string>)
    ensures |r| >= 1
    ensures forall i, j :: 0 <= i < |r| && 0 <= j < |r[i]| ==> r[i][j] != sep
    decreases |s|
  {
    if s == [] then [""]
    else
      var rest := SplitOn(s[1..], sep);
      if s[0] == sep then [""] + rest else [[s[0]] + rest[0]] + rest[1..]
  }

  /** `line.trim().length > 0`: the line holds a character that is not
      white space. */
  predicate HasText(line: string) {
    exists j :: 0 <= j < |line| && !IsSpace(line[j])
  }

  /** `s.split('\n').filter(line => line.trim().length > 0)`. */
  function Lines(s: string): (r: seq<string>)
    ensures forall i, j :: 0 <= i < |r| && 0 <= j < |r[i]| ==> r[i][j] != '\n'
    ensures forall i :: 0 <= i < |r| ==> HasText(r[i])
  {
    var pieces := SplitOn(s, '\n');
    var r := Filter(pieces, HasText);
    assert forall i, j :: 0 <= i < |r| && 0 <= j < |r[i]| ==> r[i][j] != '\n' by {
      forall i, j | 0 <= i < |r| && 0 <= j < |r[i]| ensures r[i][j] != '\n' {
        FilterMembership(pieces, HasText, r[i]);
      }
    }
    r
  }

  /** `s.includes(sub)`. */
  predicate Contains(s: string, sub: string)
    decreases |s|
  {
    sub <= s || (s != [] && Contains(s[1..], sub))
  }

  /** A text none of whose characters is `sub[j]` does not include `sub`. */
  lemma {:induction false} MissingCharNotContained(s: string, sub: string, j: nat)
    requires j < |sub|
    requires forall i :: 0 <= i < |s| ==> s[i] != sub[j]
    ensures !Contains(s, sub)
    decreases |s|
  {
    if |sub| <= |s| {
      assert s[..|sub|][j] != sub[j];
    }
    if s != [] {
      MissingCharNotContained(s[1..], sub, j);
    }
  }

  /** A keyword holding a character that is neither a word character nor
      white space can never be included in a normalised text. */
  lemma NormalizedNeverContains(s: string, keyword: string, j: nat)
    requires j < |keyword| && !IsWordChar(keyword[j]) && !IsSpace(keyword[j])
    ensures !Contains(Normalize(s), keyword)
  {
    MissingCharNotContained(Normalize(s), keyword, j);
  }

  /** `Math.round(x)`: the nearest integer, halves rounded up. */
  function Round(x: real): (r: int)
    ensures x - 0.5 < r as real <= x + 0.5
  {
    (x + 0.5).Floor
  }

  function DigitChar(d: nat): (c: char)
    requires d < 10
    ensures IsDigit(c)
  {
    ('0' as int + d) as char
  }

  /** The decimal rendering of a whole number in a template literal. */
  function NatToString(n: nat): (r: string)
    ensures |r| > 0
    ensures forall i :: 0 <= i < |r| ==> IsDigit(r[i])
  {
    if n < 10 then [DigitChar(n)] else NatToString(n / 10) + [DigitChar(n % 10)]
  }

  /** `parseInt` of a string of decimal digits. */
  function ParseDigits(s: string): nat
    requires forall i :: 0 <= i < |s| ==> IsDigit(s[i])
  {
    if s == [] then 0
    else
      assert IsDigit(s[|s| - 1]);
      ParseDigits(s[..|s| - 1]) * 10 + (s[|s| - 1] as int - '0' as int)
  }

  /** Reading a rendered number back gives the number. */
  lemma {:induction false} ParseNatToString(n: nat)
    ensures ParseDigits(NatToString(n)) == n
  {
    var r := NatToString(n);
    if n >= 10 {
      ParseNatToString(n / 10);
      assert r[..|r| - 1] == NatToString(n / 10);
    }
  }

  /** The longest prefix of `s` made of digits. */
  function LeadingDigits(s: string): (r: string)
    ensures r <= s
    ensures forall i :: 0 <= i < |r| ==> IsDigit(r[i])
    ensures |r| < |s| ==> !IsDigit(s[|r|])
  {
    if s != [] && IsDigit(s[0]) then [s[0]] + LeadingDigits(s[1..]) else []
  }

  /** `s.match(/(\d+)%/)?.[1]`, read as a number: the leftmost run of digits
      directly followed by `%`. */
  function FirstPercent(s: string): Option<nat>
    decreases |s|
  {
    if s == [] then None
    else if IsDigit(s[0]) then
      var d := LeadingDigits(s);
      if |d| < |s| && s[|d|] == '%' then Some(ParseDigits(d)) else FirstPercent(s[1..])
    else FirstPercent(s[1..])
  }

  lemma {:induction false} LeadingDigitsOf(d: string, t: string)
    requires forall i :: 0 <= i < |d| ==> IsDigit(d[i])
    requires t == [] || !IsDigit(t[0])
    ensures LeadingDigits(d + t) == d
  {
    if d != [] {
      assert (d + t)[1..] == d[1..] + t;
      LeadingDigitsOf(d[1..], t);
    } else {
      assert d + t == t;
    }
  }

  /** A text that starts with a rendered number and `%` yields that number
      back from the `/(\d+)%/` capture, whatever follows. */
  lemma PercentRoundTrip(n: nat, rest: string)
    ensures FirstPercent(NatToString(n) + "%" + rest) == Some(n)
  {
    var d := NatToString(n);
    var s := d + "%" + rest;
    assert s == d + ("%" + rest);
    LeadingDigitsOf(d, "%" + rest);
    assert s[|d|] == '%';
    ParseNatToString(n);
  }

  /** `parts.join(sep)`. */
  function Join(parts: seq<string>, sep: string): string {
    if parts == [] then ""
    else if |parts| == 1 then parts[0]
    else parts[0] + sep + Join(parts[1..], sep)
  }

  /** `keyword => text.includes(keyword)`. */
  function InText(text: string): string -> bool {
    (keyword: string) => Contains(text, keyword)
  }

  /** `keywords.filter(keyword => text.includes(keyword))`. */
  function Found(text: string, keywords: seq<string>): (r: seq<string>)
    ensures |r| <= |keywords|
    ensures forall i :: 0 <= i < |r| ==> Contains(text, r[i])
  {
    Filter(keywords, InText(text))
  }

  /** The keywords found are exactly the listed keywords the text includes. */
  lemma FoundMembership(text: string, keywords: seq<string>, k: string)
    ensures k in Found(text, keywords) <==> k in keywords && Contains(text, k)
  {
    FilterMembership(keywords, InText(text), k);
  }
}
