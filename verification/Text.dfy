/**
 Strings as the report compiler sees them: white space, trimming, splitting, joining, decimal
 numerals. Everything here works on `seq<char>`; a character is a Unicode scalar value.
 */
module Text {
  /** The two facts about Unicode that the compiler takes from its library: `fold` is NFKD
      normalisation cut down to lower-case ASCII, `isDecimal` is the class `\d`. */
  datatype Unicode = Unicode(fold: string -> string, isDecimal: char -> bool)

  /** White space as both `str.strip` and the class `\s` define it. */
  predicate IsSpace(c: char) {
    || '\t' <= c <= '\r'
    || '\U{1C}' <= c <= ' '
    || c == '\U{85}' || c == '\U{A0}' || c == '\U{1680}'
    || '\U{2000}' <= c <= '\U{200A}'
    || c == '\U{2028}' || c == '\U{2029}' || c == '\U{202F}' || c == '\U{205F}' || c == '\U{3000}'
  }

  /** The characters at which `str.splitlines` ends a line. */
  predicate IsLineBreak(c: char) {
    || '\n' <= c <= '\r'
    || '\U{1C}' <= c <= '\U{1E}'
    || c == '\U{85}' || c == '\U{2028}' || c == '\U{2029}'
  }

  lemma Assoc(a: string, b: string, c: string)
    ensures a + (b + c) == (a + b) + c
  {}

  /** Index of the first `c` in `s`, or the length of `s` when there is none. */
  function Until(s: string, c: char): (n: nat)
    ensures n <= |s|
    ensures c !in s[..n]
    ensures n < |s| ==> s[n] == c
  {
    if s == "" || s[0] == c then 0 else 1 + Until(s[1..], c)
  }

  /** The first occurrence is where it is, whatever follows it. */
  lemma {:induction false} UntilIs(s: string, c: char, n: nat)
    requires n <= |s| && c !in s[..n] && (n < |s| ==> s[n] == c)
    ensures Until(s, c) == n
  {
    if n > 0 {
      assert s[..n][0] == s[0];
      assert s[1..][..n - 1] == s[..n][1..];
      UntilIs(s[1..], c, n - 1);
    }
  }

  /** The search passes over a prefix without the character. */
  lemma UntilPast(g: string, x: string, c: char)
    requires c !in g
    ensures Until(g + x, c) == |g| + Until(x, c)
    ensures var k := Until(x, c);
      (g + x)[..|g| + k] == g + x[..k] && (g + x)[|g| + k..] == x[k..]
  {
    var k := Until(x, c);
    assert (g + x)[..|g| + k] == g + x[..k];
    UntilIs(g + x, c, |g| + k);
  }

  // ---------------------------------------------------------------- trimming

  function TrimLeft(s: string, p: char -> bool): (r: string)
    ensures |r| <= |s| && r == s[|s| - |r|..]
    ensures r != "" ==> !p(r[0])
  {
    if s != "" && p(s[0]) then TrimLeft(s[1..], p) else s
  }

  function TrimRight(s: string, p: char -> bool): (r: string)
    ensures |r| <= |s| && r == s[..|r|]
    ensures r != "" ==> !p(r[|r| - 1])
  {
    if s != "" && p(s[|s| - 1]) then TrimRight(s[..|s| - 1], p) else s
  }

  /** `str.strip` with a set of characters given by `p`. */
  function Trim(s: string, p: char -> bool): (r: string)
    ensures |r| <= |s|
    ensures r != "" ==> !p(r[0]) && !p(r[|r| - 1])
    ensures forall c :: c in r ==> c in s
  {
    var t := TrimLeft(s, p);
    var r := TrimRight(t, p);
    r
  }

  function Strip(s: string): (r: string)
    ensures r != "" ==> !IsSpace(r[0]) && !IsSpace(r[|r| - 1])
  {
    Trim(s, IsSpace)
  }

  // ------------------------------------------------------- splitting, joining

  function Join(parts: seq<string>, sep: string): string {
    if parts == [] then "" else if |parts| == 1 then parts[0]
    else parts[0] + sep + Join(parts[1..], sep)
  }

  /** `str.split` on a single character. */
  function Split(s: string, c: char): (parts: seq<string>)
    ensures parts != []
    ensures forall p :: p in parts ==> c !in p
    ensures Join(parts, [c]) == s
    decreases |s|
  {
    var n := Until(s, c);
    if n == |s| then assert s[..n] == s; [s]
    else
      var rest := Split(s[n + 1..], c);
      assert s == s[..n] + [c] + s[n + 1..];
      [s[..n]] + rest
  }

  function LineLength(s: string): (n: nat)
    ensures n <= |s|
    ensures forall c :: c in s[..n] ==> !IsLineBreak(c)
    ensures n < |s| ==> IsLineBreak(s[n])
  {
    if s == "" || IsLineBreak(s[0]) then 0 else 1 + LineLength(s[1..])
  }

  /** `str.splitlines`: a carriage return followed by a line feed is one break, and a break at
      the very end opens no further line. */
  function SplitLines(s: string): (lines: seq<string>)
    ensures forall l, c :: l in lines && c in l ==> !IsLineBreak(c)
    decreases |s|
  {
    if s == "" then [] else
      var n := LineLength(s);
      if n == |s| then [s] else
        var next := if s[n] == '\r' && n + 1 < |s| && s[n + 1] == '\n' then n + 2 else n + 1;
        [s[..n]] + SplitLines(s[next..])
  }

  // ----------------------------------------------------------------- numerals

  predicate IsDigit(c: char) { '0' <= c <= '9' }

  function DigitValue(c: char): nat
    requires IsDigit(c)
  {
    c as int - '0' as int
  }

  function Digit(d: nat): (c: char)
    requires d < 10
    ensures IsDigit(c) && DigitValue(c) == d
  {
    ['0', '1', '2', '3', '4', '5', '6', '7', '8', '9'][d]
  }

  /** Decimal numeral of a number, as a formatted string prints it. */
  function Decimal(n: nat): (s: string)
    ensures s != "" && forall c :: c in s ==> IsDigit(c)
  {
    if n < 10 then [Digit(n)] else Decimal(n / 10) + [Digit(n % 10)]
  }

  function DecimalValue(s: string): nat
    requires forall c :: c in s ==> IsDigit(c)
  {
    if s == "" then 0 else DecimalValue(s[..|s| - 1]) * 10 + DigitValue(s[|s| - 1])
  }

  lemma {:induction false} DecimalRoundTrip(n: nat)
    ensures DecimalValue(Decimal(n)) == n
  {
    if n >= 10 {
      DecimalRoundTrip(n / 10);
      assert Decimal(n)[..|Decimal(n)| - 1] == Decimal(n / 10);
    }
  }

  lemma DecimalInjective(m: nat, n: nat)
    requires Decimal(m) == Decimal(n)
    ensures m == n
  {
    DecimalRoundTrip(m);
    DecimalRoundTrip(n);
  }
}
