/** The pieces of JavaScript's string library that the chat client relies on:
    `String.prototype.trim`, `startsWith`, and the decimal rendering of a
    non-negative integer (as in a template literal `${Date.now()}`). */
module JsText {

  /** ECMAScript WhiteSpace and LineTerminator code points: the characters
      `trim` strips. */
  const WhitespaceChars: seq<char> :=
    ['\t', '\U{000B}', '\U{000C}', ' ', '\U{00A0}', '\U{FEFF}', '\U{1680}',
     '\U{2000}', '\U{2001}', '\U{2002}', '\U{2003}', '\U{2004}', '\U{2005}',
     '\U{2006}', '\U{2007}', '\U{2008}', '\U{2009}', '\U{200A}',
     '\U{202F}', '\U{205F}', '\U{3000}', '\n', '\r', '\U{2028}', '\U{2029}']

  /** `c` occurs in `cs` (searched front to back). */
  predicate Occurs(c: char, cs: seq<char>) {
    cs != [] && (cs[0] == c || Occurs(c, cs[1..]))
  }

  predicate IsWhitespace(c: char) {
    Occurs(c, WhitespaceChars)
  }

  /** Every character is whitespace (this includes the empty string). */
  predicate IsBlank(s: string) {
    forall k :: 0 <= k < |s| ==> IsWhitespace(s[k])
  }

  /** The first position at or after `from` that does not hold whitespace
      (`|s|` when there is none). */
  function SkipBlankForward(s: string, from: nat): (k: nat)
    requires from <= |s|
    ensures from <= k <= |s|
    ensures forall j :: from <= j < k ==> IsWhitespace(s[j])
    ensures k < |s| ==> !IsWhitespace(s[k])
    decreases |s| - from
  {
    if from == |s| || !IsWhitespace(s[from]) then from else SkipBlankForward(s, from + 1)
  }

  /** The end of the text before the whitespace that runs back from `limit`,
      going no further back than `floor`. */
  function SkipBlankBackward(s: string, limit: nat, floor: nat): (k: nat)
    requires floor <= limit <= |s|
    ensures floor <= k <= limit
    ensures forall j :: k <= j < limit ==> IsWhitespace(s[j])
    ensures k > floor ==> !IsWhitespace(s[k - 1])
    decreases limit
  {
    if limit == floor || !IsWhitespace(s[limit - 1]) then limit else SkipBlankBackward(s, limit - 1, floor)
  }

  /** Where `s.trim()` starts: the leading whitespace ends here. */
  function TrimStartIndex(s: string): nat {
    SkipBlankForward(s, 0)
  }

  /** Where `s.trim()` ends: only whitespace follows. */
  function TrimEndIndex(s: string): (b: nat)
    ensures TrimStartIndex(s) <= b <= |s|
  {
    SkipBlankBackward(s, |s|, TrimStartIndex(s))
  }

  /** `s.trim()`: `s` without its leading and trailing whitespace. What is
      dropped is all whitespace, what is kept neither starts nor ends with
      whitespace, and nothing is kept exactly when `s` is blank. */
  function Trim(s: string): (r: string)
    ensures r == s[TrimStartIndex(s)..TrimEndIndex(s)]
    ensures IsBlank(s[..TrimStartIndex(s)]) && IsBlank(s[TrimEndIndex(s)..])
    ensures r == [] || (!IsWhitespace(r[0]) && !IsWhitespace(r[|r| - 1]))
    ensures r == [] <==> IsBlank(s)
  {
    var a := TrimStartIndex(s);
    var b := TrimEndIndex(s);
    assert IsBlank(s[..a]) by {
      forall k | 0 <= k < a ensures IsWhitespace(s[..a][k]) {
        assert s[..a][k] == s[k];
      }
    }
    assert IsBlank(s[b..]) by {
      forall k | 0 <= k < |s| - b ensures IsWhitespace(s[b..][k]) {
        assert s[b..][k] == s[b + k];
      }
    }
    assert a < |s| ==> a < b;
    s[a..b]
  }

  /** `Occurs` is membership. */
  lemma {:induction false} OccursIsMembership(c: char, cs: seq<char>)
    ensures Occurs(c, cs) <==> c in cs
  {
    if cs != [] {
      OccursIsMembership(c, cs[1..]);
      assert cs == [cs[0]] + cs[1..];
    }
  }

  /** A text that neither starts nor ends with whitespace is its own trim. */
  lemma TrimKeepsSolidEnds(s: string)
    requires s != []
    requires s[0] !in WhitespaceChars && s[|s| - 1] !in WhitespaceChars
    ensures Trim(s) == s
  {
    OccursIsMembership(s[0], WhitespaceChars);
    OccursIsMembership(s[|s| - 1], WhitespaceChars);
    assert TrimStartIndex(s) == 0;
    assert TrimEndIndex(s) == |s|;
  }

  /** `s.startsWith(p)`. */
  predicate StartsWith(s: string, p: string) {
    |p| <= |s| && s[..|p|] == p
  }

  predicate IsDigit(c: char) {
    '0' <= c <= '9'
  }

  /** The number a run of decimal digits spells, most significant first. */
  function DigitsValue(s: string): nat
    requires forall k :: 0 <= k < |s| ==> IsDigit(s[k])
  {
    if s == [] then 0
    else
      assert IsDigit(s[|s| - 1]);
      DigitsValue(s[..|s| - 1]) * 10 + ((s[|s| - 1] as int) - ('0' as int))
  }

  /** The decimal text of `n`, without sign or leading zeros: digits that
      spell exactly `n`. */
  function Decimal(n: nat): (r: string)
    ensures |r| >= 1
    ensures forall k :: 0 <= k < |r| ==> IsDigit(r[k])
    ensures n > 0 ==> r[0] != '0'
    ensures DigitsValue(r) == n
  {
    var d := ['0' + (n % 10) as char];
    if n < 10 then d
    else
      var r := Decimal(n / 10) + d;
      assert r[..|r| - 1] == Decimal(n / 10);
      r
  }

  /** Different numbers are rendered differently. */
  lemma DecimalInjective(a: nat, b: nat)
    ensures Decimal(a) == Decimal(b) ==> a == b
  {
  }
}
