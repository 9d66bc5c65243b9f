/**
 The text handling behind the counter file: decimal rendering, checked decimal parsing, trimming,
 and splitting into lines and key/value pairs. These mirror the string functions of the original's
 standard library that its parser calls.
*/
module Text {
  import opened Prelude

  function DigitChar(d: nat): char
    requires d < 10
  {
    "0123456789"[d]
  }

  predicate IsDigit(c: char) {
    '0' <= c <= '9'
  }

  function DigitValue(c: char): (d: nat)
    requires IsDigit(c)
    ensures d < 10
  {
    (c as int) - ('0' as int)
  }

  /** Decimal rendering without leading zeros. */
  function Show(n: nat): (s: string)
    ensures s != ""
  {
    if n < 10 then [DigitChar(n)] else Show(n / 10) + [DigitChar(n % 10)]
  }

  /** Parse the digits of s after the value acc, failing on a non-digit and on overflow. */
  function ParseDigits(acc: U64, s: string): Option<U64>
    decreases |s|
  {
    if s == "" then Some(acc)
    else if !IsDigit(s[0]) then None
    else
      var next := acc * 10 + DigitValue(s[0]);
      if next > U64_MAX then None else ParseDigits(next, s[1..])
  }

  /** One optional leading plus sign, then at least one digit. */
  function ParseU64(s: string): Option<U64> {
    if s == "" || s == "+" then None
    else if s[0] == '+' then ParseDigits(0, s[1..])
    else ParseDigits(0, s)
  }

  /** The Unicode White_Space property. */
  predicate IsWhitespace(c: char) {
    || '\U{0009}' <= c <= '\U{000D}' || c == ' ' || c == '\U{0085}' || c == '\U{00A0}'
    || c == '\U{1680}' || '\U{2000}' <= c <= '\U{200A}' || c == '\U{2028}' || c == '\U{2029}'
    || c == '\U{202F}' || c == '\U{205F}' || c == '\U{3000}'
  }

  function TrimStart(s: string): string {
    if s != "" && IsWhitespace(s[0]) then TrimStart(s[1..]) else s
  }

  function TrimEnd(s: string): string {
    if s != "" && IsWhitespace(s[|s| - 1]) then TrimEnd(s[..|s| - 1]) else s
  }

  function Trim(s: string): string {
    TrimEnd(TrimStart(s))
  }

  /** The index of the first c in s, or |s| if there is none. */
  function IndexOf(s: string, c: char): (i: nat)
    ensures i <= |s|
    ensures c !in s[..i]
    ensures i < |s| ==> s[i] == c
  {
    if s == "" || s[0] == c then 0
    else
      var rest := IndexOf(s[1..], c);
      assert s[..1 + rest] == [s[0]] + s[1..][..rest];
      1 + rest
  }

  function StripCarriageReturn(line: string): string {
    if line != "" && line[|line| - 1] == '\r' then line[..|line| - 1] else line
  }

  /** The lines of s: each ends at a newline, or at the end of a non-empty rest. */
  function Lines(s: string): seq<string> {
    if s == "" then []
    else
      var i := IndexOf(s, '\n');
      if i == |s| then [s] else [StripCarriageReturn(s[..i])] + Lines(s[i + 1..])
  }

  function SplitOnce(s: string, c: char): Option<(string, string)> {
    var i := IndexOf(s, c);
    if i == |s| then None else Some((s[..i], s[i + 1..]))
  }

  // ---- Facts ---------------------------------------------------------------------------------

  ghost predicate AllDigits(s: string) {
    forall i :: 0 <= i < |s| ==> IsDigit(s[i])
  }

  lemma {:induction false} ShowIsDigits(n: nat)
    ensures AllDigits(Show(n))
  {
    if n < 10 {
    } else {
      ShowIsDigits(n / 10);
    }
  }

  /** Parsing a longer numeral continues from the value of the shorter one. */
  lemma {:induction false} ParseDigitsAppend(acc: U64, s: string, c: char)
    ensures ParseDigits(acc, s + [c])
         == if ParseDigits(acc, s).None? then None else ParseDigits(ParseDigits(acc, s).value, [c])
    decreases |s|
  {
    if s == "" {
    } else {
      assert (s + [c])[1..] == s[1..] + [c];
      if IsDigit(s[0]) && acc * 10 + DigitValue(s[0]) <= U64_MAX {
        ParseDigitsAppend(acc * 10 + DigitValue(s[0]), s[1..], c);
      }
    }
  }

  /** The positional value of a numeral. */
  ghost function NumeralValue(s: string): nat
    requires AllDigits(s)
  {
    if s == "" then 0 else 10 * NumeralValue(s[..|s| - 1]) + DigitValue(s[|s| - 1])
  }

  /** A text of digits whose value fits 64 bits; there may be none of them. */
  ghost predicate FitsU64(s: string) {
    AllDigits(s) && NumeralValue(s) <= U64_MAX
  }

  lemma {:induction false} ParseDigitsIsValue(s: string)
    ensures ParseDigits(0, s) == if FitsU64(s) then Some(NumeralValue(s)) else None
  {
    if s == "" {
    } else {
      var front, last := s[..|s| - 1], s[|s| - 1];
      ParseDigitsIsValue(front);
      assert s == front + [last];
      ParseDigitsAppend(0, front, last);
      assert [last][1..] == "";
      assert AllDigits(s) <==> AllDigits(front) && IsDigit(last);
    }
  }

  /** The text behind one optional plus sign. */
  function Unsigned(s: string): string {
    if s != "" && s[0] == '+' then s[1..] else s
  }

  /** Parsing accepts exactly the numerals of 64-bit values, with one plus sign at most, at their value. */
  lemma ParseU64IsValue(s: string)
    ensures ParseU64(s)
         == if Unsigned(s) != "" && FitsU64(Unsigned(s)) then Some(NumeralValue(Unsigned(s))) else None
  {
    ParseDigitsIsValue(Unsigned(s));
  }

  /** The rendering of a number is its one numeral without leading zeros. */
  lemma {:induction false} ShowIsNumeral(n: nat)
    ensures AllDigits(Show(n)) && NumeralValue(Show(n)) == n
    ensures n > 0 ==> Show(n)[0] != '0'
    ensures n == 0 ==> Show(n) == "0"
  {
    ShowIsDigits(n);
    if n < 10 {
      assert Show(n)[..0] == "";
    } else {
      ShowIsNumeral(n / 10);
      assert Show(n)[..|Show(n)| - 1] == Show(n / 10);
    }
  }

  lemma LastDigit(value: U64, d: nat)
    requires d < 10 && value * 10 + d <= U64_MAX
    ensures ParseDigits(value, [DigitChar(d)]) == Some(value * 10 + d)
  {
    assert [DigitChar(d)][1..] == "";
  }

  lemma {:induction false} ShowParsesDigits(n: U64)
    ensures ParseDigits(0, Show(n)) == Some(n)
  {
    if n >= 10 {
      ShowParsesDigits(n / 10);
      ParseDigitsAppend(0, Show(n / 10), DigitChar(n % 10));
      LastDigit(n / 10, n % 10);
    } else {
      LastDigit(0, n);
    }
  }

  /** Every 64-bit number is read back from its decimal rendering. */
  lemma ShowParses(n: U64)
    ensures ParseU64(Show(n)) == Some(n)
  {
    ShowIsDigits(n);
    ShowParsesDigits(n);
  }

  lemma {:induction false} LargeDigitsRefused(n: nat)
    requires n > U64_MAX
    ensures ParseDigits(0, Show(n)) == None
  {
    ParseDigitsAppend(0, Show(n / 10), DigitChar(n % 10));
    if n / 10 > U64_MAX {
      LargeDigitsRefused(n / 10);
    } else {
      ShowParsesDigits(n / 10);
    }
  }

  /** A numeral above the 64-bit range is refused rather than wrapped. */
  lemma LargeNumbersRefused(n: nat)
    requires n > U64_MAX
    ensures ParseU64(Show(n)) == None
  {
    LargeDigitsRefused(n);
    ShowIsDigits(n);
  }

  /** Text without white space at its ends is its own trimming. */
  lemma TrimSolid(s: string)
    requires s != "" ==> !IsWhitespace(s[0]) && !IsWhitespace(s[|s| - 1])
    ensures Trim(s) == s
  {
  }

  /** Blanks, tabs and line-end characters. */
  ghost predicate Blank(s: string) {
    forall i :: 0 <= i < |s| ==> s[i] == ' ' || s[i] == '\t' || s[i] == '\r' || s[i] == '\n'
  }

  lemma {:induction false} TrimStartStrips(a: string, s: string)
    requires Blank(a)
    ensures TrimStart(a + s) == TrimStart(s)
  {
    if a == "" {
      assert a + s == s;
    } else {
      assert (a + s)[1..] == a[1..] + s;
      TrimStartStrips(a[1..], s);
    }
  }

  lemma {:induction false} TrimEndStrips(s: string, b: string)
    requires Blank(b)
    ensures TrimEnd(s + b) == TrimEnd(s)
  {
    if b == "" {
      assert s + b == s;
    } else {
      assert (s + b)[..|s + b| - 1] == s + b[..|b| - 1];
      TrimEndStrips(s, b[..|b| - 1]);
    }
  }

  /** Trimming removes white space around a text and nothing else. */
  lemma TrimStrips(a: string, s: string, b: string)
    requires Blank(a) && Blank(b) && s != ""
    requires !IsWhitespace(s[0]) && !IsWhitespace(s[|s| - 1])
    ensures Trim(a + s + b) == s
  {
    assert a + s + b == a + (s + b);
    TrimStartStrips(a, s + b);
    assert TrimStart(s + b) == s + b;
    TrimEndStrips(s, b);
  }

  /** Splitting at a separator that the first part does not contain. */
  lemma IndexOfBoundary(a: string, c: char, b: string)
    requires c !in a
    ensures IndexOf(a + [c] + b, c) == |a|
  {
    var s := a + [c] + b;
    assert s[|a|] == c;
    assert forall k :: 0 <= k < |a| ==> s[k] == a[k];
  }
}
