/**
 * The JavaScript string operations the components rely on, over `string` (a
 * sequence of Unicode scalar values): `trim`, `toLowerCase`, `startsWith`,
 * `includes`, `replace` of a literal, `split` on a character class, `parseInt`
 * of a digit run, and decimal rendering of a non-negative number.
 */
module JsText {

  /** The characters `trim()` strips and `\s` matches: ECMAScript WhiteSpace and LineTerminator. */
  predicate IsSpace(c: char)
  {
    c == '\t' || c == '\n' || c == '\U{000B}' || c == '\U{000C}' || c == '\r' || c == ' ' ||
    c == '\U{00A0}' || c == '\U{1680}' || '\U{2000}' <= c <= '\U{200A}' ||
    c == '\U{2028}' || c == '\U{2029}' || c == '\U{202F}' || c == '\U{205F}' ||
    c == '\U{3000}' || c == '\U{FEFF}'
  }

  predicate IsNewline(c: char) { c == '\n' }

  predicate IsColon(c: char) { c == ':' }

  function TrimStart(s: string): string
  {
    if s != [] && IsSpace(s[0]) then TrimStart(s[1..]) else s
  }

  function TrimEnd(s: string): string
  {
    if s != [] && IsSpace(s[|s| - 1]) then TrimEnd(s[..|s| - 1]) else s
  }

  /** `s.trim()`. */
  function Trim(s: string): string
  {
    TrimEnd(TrimStart(s))
  }

  /** Trimming the start drops exactly the leading white space. */
  lemma {:induction false} TrimStartSpec(s: string)
    ensures var r := TrimStart(s);
      && |r| <= |s| && r == s[|s| - |r|..]
      && (r == [] || !IsSpace(r[0]))
      && (forall i :: 0 <= i < |s| - |r| ==> IsSpace(s[i]))
  {
    if s != [] && IsSpace(s[0]) {
      TrimStartSpec(s[1..]);
    }
  }

  /** Trimming the end drops exactly the trailing white space. */
  lemma {:induction false} TrimEndSpec(s: string)
    ensures var r := TrimEnd(s);
      && |r| <= |s| && r == s[..|r|]
      && (r == [] || !IsSpace(r[|r| - 1]))
      && (forall i :: |r| <= i < |s| ==> IsSpace(s[i]))
  {
    if s != [] && IsSpace(s[|s| - 1]) {
      TrimEndSpec(s[..|s| - 1]);
    }
  }

  /**
   * A trimmed text is empty exactly when the original is all white space,
   * and otherwise neither starts nor ends with white space.
   */
  lemma TrimSpec(s: string)
    ensures var r := Trim(s);
      && (r == [] <==> forall i :: 0 <= i < |s| ==> IsSpace(s[i]))
      && (r != [] ==> !IsSpace(r[0]) && !IsSpace(r[|r| - 1]))
  {
    var t := TrimStart(s);
    TrimStartSpec(s);
    TrimEndSpec(t);
    assert forall i :: |s| - |t| <= i < |s| ==> s[i] == t[i - (|s| - |t|)];
  }

  /** `!s.trim()`: the string is empty or white space only. */
  predicate IsBlank(s: string) { Trim(s) == [] }

  function LowerChar(c: char): char
  {
    if 'A' <= c <= 'Z' then (c as int + 32) as char else c
  }

  /** `s.toLowerCase()` on ASCII letters; every other character is kept. */
  function ToLower(s: string): (r: string)
    ensures |r| == |s| && forall i :: 0 <= i < |s| ==> r[i] == LowerChar(s[i])
    ensures forall i :: 0 <= i < |r| ==> !('A' <= r[i] <= 'Z')
  {
    seq(|s|, i requires 0 <= i < |s| => LowerChar(s[i]))
  }

  predicate StartsWith(s: string, prefix: string)
  {
    |prefix| <= |s| && s[..|prefix|] == prefix
  }

  predicate EndsWith(s: string, suffix: string)
  {
    |suffix| <= |s| && s[|s| - |suffix|..] == suffix
  }

  /** `t` occurs in `s` starting at index `i`. */
  predicate MatchAt(s: string, t: string, i: int)
  {
    0 <= i && i + |t| <= |s| && s[i..i + |t|] == t
  }

  function IndexFrom(s: string, t: string, i: nat): (r: int)
    requires i <= |s|
    ensures r == -1 || (i <= r && MatchAt(s, t, r))
    ensures r == -1 ==> forall j :: i <= j <= |s| ==> !MatchAt(s, t, j)
    ensures r >= 0 ==> forall j :: i <= j < r ==> !MatchAt(s, t, j)
    decreases |s| - i
  {
    if MatchAt(s, t, i) then i
    else if i == |s| then -1
    else IndexFrom(s, t, i + 1)
  }

  /** `s.indexOf(t)`: the first index where `t` occurs, or -1. */
  function IndexOf(s: string, t: string): (r: int)
    ensures r == -1 || MatchAt(s, t, r)
    ensures r == -1 <==> forall j :: 0 <= j <= |s| ==> !MatchAt(s, t, j)
    ensures r >= 0 ==> forall j :: 0 <= j < r ==> !MatchAt(s, t, j)
  {
    IndexFrom(s, t, 0)
  }

  /** `s.includes(t)`. */
  predicate Contains(s: string, t: string)
  {
    IndexOf(s, t) != -1
  }

  /** `s.replace(t, u)` with a string pattern: only the first occurrence is replaced. */
  function ReplaceFirst(s: string, t: string, u: string): (r: string)
    ensures !Contains(s, t) ==> r == s
    ensures Contains(s, t) ==> exists k :: MatchAt(s, t, k) && r == s[..k] + u + s[k + |t|..]
  {
    var k := IndexOf(s, t);
    if k == -1 then s else s[..k] + u + s[k + |t|..]
  }

  /**
   * `s.split(sep)` where `sep` is a one-character class: the pieces between
   * separators, so there is always at least one piece.
   */
  function Split(s: string, sep: char -> bool): (parts: seq<string>)
    ensures |parts| >= 1
    ensures |parts| == 1 ==> parts[0] == s
  {
    if s == [] then [""]
    else
      var rest := Split(s[1..], sep);
      if sep(s[0]) then [""] + rest
      else [[s[0]] + rest[0]] + rest[1..]
  }

  /**
   * The last piece of a split is the text after the last separator: a suffix
   * of `s` with no separator in it, preceded by a separator unless it is all of `s`.
   */
  lemma {:induction false} SplitLastPiece(s: string, sep: char -> bool)
    ensures var w := Split(s, sep)[|Split(s, sep)| - 1];
      && |w| <= |s| && w == s[|s| - |w|..]
      && (forall i :: 0 <= i < |w| ==> !sep(w[i]))
      && (|w| < |s| ==> sep(s[|s| - |w| - 1]))
      && (|Split(s, sep)| > 1 ==> |w| < |s|)
  {
    if s != [] {
      SplitLastPiece(s[1..], sep);
      var rest := Split(s[1..], sep);
      if !sep(s[0]) && |rest| == 1 {
        assert Split(s, sep) == [[s[0]] + rest[0]];
        assert [s[0]] + s[1..] == s;
      }
    }
  }

  /** A text with no separator is a single piece. */
  lemma {:induction false} SplitWithoutSeparator(s: string, sep: char -> bool)
    requires forall i :: 0 <= i < |s| ==> !sep(s[i])
    ensures Split(s, sep) == [s]
  {
    if s != [] {
      SplitWithoutSeparator(s[1..], sep);
    }
  }

  /** Splitting `a + [c] + b` at separator `c`, where `a` has none, gives `a` and then the pieces of `b`. */
  lemma {:induction false} SplitAtFirstSeparator(a: string, c: char, b: string, sep: char -> bool)
    requires sep(c)
    requires forall i :: 0 <= i < |a| ==> !sep(a[i])
    ensures Split(a + [c] + b, sep) == [a] + Split(b, sep)
  {
    if a == [] {
      assert a + [c] + b == [c] + b;
      assert ([c] + b)[1..] == b;
    } else {
      var s := a + [c] + b;
      assert s[0] == a[0] && s[1..] == a[1..] + [c] + b;
      SplitAtFirstSeparator(a[1..], c, b, sep);
      assert [a[0]] + a[1..] == a;
    }
  }

  predicate IsDigit(c: char) { '0' <= c <= '9' }

  predicate AllDigits(s: string) { forall i :: 0 <= i < |s| ==> IsDigit(s[i]) }

  /** The test `/^\d+$/`. */
  predicate IsDigits(s: string) { |s| > 0 && AllDigits(s) }

  function DigitValue(c: char): nat
    requires IsDigit(c)
  {
    c as int - '0' as int
  }

  /** `parseInt` of a run of decimal digits (leading zeros allowed). */
  function DigitsValue(s: string): nat
    requires AllDigits(s)
  {
    if s == [] then 0 else DigitsValue(s[..|s| - 1]) * 10 + DigitValue(s[|s| - 1])
  }

  function DigitChar(d: nat): (c: char)
    requires d < 10
    ensures IsDigit(c) && DigitValue(c) == d
  {
    ('0' as int + d) as char
  }

  /** Decimal rendering of a non-negative number, as template literals print it. */
  function NatToString(n: nat): (s: string)
    ensures IsDigits(s)
  {
    if n < 10 then [DigitChar(n)] else NatToString(n / 10) + [DigitChar(n % 10)]
  }

  /** Reading back a rendered number gives the number. */
  lemma {:induction false} NatToStringRoundTrip(n: nat)
    ensures DigitsValue(NatToString(n)) == n
  {
    if n >= 10 {
      var s := NatToString(n);
      assert s[..|s| - 1] == NatToString(n / 10);
      NatToStringRoundTrip(n / 10);
    }
  }
}
