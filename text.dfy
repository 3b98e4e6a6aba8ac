/**
 * The string operations the application leans on: Python's `str.strip()`,
 * `str.lower()`, `str.capitalize()`, the `in` substring test,
 * `s.split(sep)[-1]`, `', '.join(...)`, `str(int)` and the code-point order
 * that `sorted` and `list.sort` use on strings.
 */
module Text {
  import opened Wrappers

  /** Python's `str.isspace()` on one character. */
  predicate IsSpace(c: char) {
    || c == ' '
    || ('\t' <= c <= '\r')
    || ('\U{1C}' <= c <= '\U{1F}')
    || c == '\U{85}' || c == '\U{A0}' || c == '\U{1680}'
    || ('\U{2000}' <= c <= '\U{200A}')
    || c == '\U{2028}' || c == '\U{2029}' || c == '\U{202F}' || c == '\U{205F}' || c == '\U{3000}'
  }

  /** Every character is whitespace (Python: `not s.strip()`). */
  predicate IsBlank(s: string) {
    forall i | 0 <= i < |s| :: IsSpace(s[i])
  }

  function TrimLeft(s: string): (r: string)
    ensures |r| <= |s| && r == s[|s| - |r|..]
    ensures r == [] || !IsSpace(r[0])
  {
    if s != [] && IsSpace(s[0]) then TrimLeft(s[1..]) else s
  }

  function TrimRight(s: string): (r: string)
    ensures |r| <= |s| && r == s[..|r|]
    ensures r == [] || !IsSpace(r[|r| - 1])
  {
    if s != [] && IsSpace(s[|s| - 1]) then TrimRight(s[..|s| - 1]) else s
  }

  /** TrimLeft drops only whitespace. */
  lemma {:induction false} TrimLeftDropsSpace(s: string)
    ensures IsBlank(s[..|s| - |TrimLeft(s)|])
  {
    if s != [] && IsSpace(s[0]) {
      TrimLeftDropsSpace(s[1..]);
      var k := |s| - |TrimLeft(s)|;
      assert forall i | 1 <= i < k :: s[..k][i] == s[1..][..k - 1][i - 1];
    }
  }

  /** TrimRight drops only whitespace. */
  lemma {:induction false} TrimRightDropsSpace(s: string)
    ensures IsBlank(s[|TrimRight(s)|..])
  {
    if s != [] && IsSpace(s[|s| - 1]) {
      TrimRightDropsSpace(s[..|s| - 1]);
      var k := |TrimRight(s)|;
      assert forall i | 0 <= i < |s| - 1 - k :: s[k..][i] == s[..|s| - 1][k..][i];
    }
  }

  lemma {:induction false} TrimLeftBlank(s: string)
    ensures TrimLeft(s) == [] <==> IsBlank(s)
  {
    if s != [] && IsSpace(s[0]) {
      TrimLeftBlank(s[1..]);
      assert IsBlank(s) <==> IsBlank(s[1..]);
    }
  }

  lemma {:induction false} TrimRightBlank(s: string)
    ensures TrimRight(s) == [] <==> IsBlank(s)
  {
    if s != [] && IsSpace(s[|s| - 1]) {
      TrimRightBlank(s[..|s| - 1]);
      assert IsBlank(s) <==> IsBlank(s[..|s| - 1]);
    }
  }

  /** Trimming both sides leaves no whitespace at either end. */
  lemma TrimmedEnds(s: string)
    ensures var r := TrimRight(TrimLeft(s)); r == [] || (!IsSpace(r[0]) && !IsSpace(r[|r| - 1]))
  {
    var l := TrimLeft(s);
    var r := TrimRight(l);
    assert r != [] ==> r[0] == l[0];
  }

  /** Trimming both sides leaves nothing exactly when the string is blank. */
  lemma TrimmedBlank(s: string)
    ensures TrimRight(TrimLeft(s)) == [] <==> IsBlank(s)
  {
    var l := TrimLeft(s);
    TrimLeftBlank(s);
    TrimRightBlank(l);
    assert l != [] ==> !IsBlank(l) by {
      if l != [] {
        assert !IsSpace(l[0]);
      }
    }
  }

  /** Python's `str.strip()`: no whitespace is left at either end, and only a blank string strips to "". */
  function Strip(s: string): (r: string)
    ensures |r| <= |s|
    ensures r == [] || (!IsSpace(r[0]) && !IsSpace(r[|r| - 1]))
    ensures r == [] <==> IsBlank(s)
  {
    TrimmedEnds(s);
    TrimmedBlank(s);
    TrimRight(TrimLeft(s))
  }

  /** What Strip removes is whitespace at the two ends and nothing else. */
  lemma StripIsSlice(s: string) returns (a: nat, b: nat)
    ensures a <= b <= |s| && Strip(s) == s[a..b]
    ensures IsBlank(s[..a]) && IsBlank(s[b..])
  {
    var l := TrimLeft(s);
    var r := TrimRight(l);
    TrimLeftDropsSpace(s);
    TrimRightDropsSpace(l);
    a := |s| - |l|;
    b := a + |r|;
    assert l == s[a..];
    assert r == s[a..b];
    assert s[b..] == l[|r|..];
  }

  /** A string with no whitespace at either end strips to itself. */
  lemma StripUnpadded(s: string)
    requires s == [] || (!IsSpace(s[0]) && !IsSpace(s[|s| - 1]))
    ensures Strip(s) == s
  {
    if s != [] {
      assert TrimLeft(s) == s;
      assert TrimRight(s) == s;
    }
  }

  /** Stripping twice is stripping once. */
  lemma StripIdempotent(s: string)
    ensures Strip(Strip(s)) == Strip(s)
  {
    StripUnpadded(Strip(s));
  }
  /** Python's `s.strip() or None`. */
  function StripOrNone(s: string): (r: Option<string>)
    ensures r.None? <==> IsBlank(s)
    ensures r.Some? ==> r.value == Strip(s) && r.value != []
  {
    if Strip(s) == [] then None else Some(Strip(s))
  }


  function LowerChar(c: char): char {
    if 'A' <= c <= 'Z' then (c as int + 32) as char else c
  }

  function UpperChar(c: char): char {
    if 'a' <= c <= 'z' then (c as int - 32) as char else c
  }

  /** Python's `str.lower()` on the ASCII letters: same length, no capital letter left, other characters kept. */
  function Lower(s: string): (r: string)
    ensures |r| == |s|
    ensures forall i | 0 <= i < |s| :: !('A' <= r[i] <= 'Z')
    ensures forall i | 0 <= i < |s| :: ('A' <= s[i] <= 'Z') || r[i] == s[i]
  {
    seq(|s|, i requires 0 <= i < |s| => LowerChar(s[i]))
  }

  /** Python's `str.capitalize()` on ASCII letters: first character upper case, the rest lower case. */
  function Capitalize(s: string): (r: string)
    ensures |r| == |s|
    ensures s != [] ==> !('a' <= r[0] <= 'z') && r[1..] == Lower(s[1..])
  {
    if s == [] then [] else [UpperChar(s[0])] + Lower(s[1..])
  }

  /** Python's `needle in hay` on strings. */
  predicate Contains(needle: string, hay: string) {
    exists i | 0 <= i <= |hay| - |needle| :: OccursAt(needle, hay, i)
  }

  predicate OccursAt(needle: string, hay: string, i: nat) {
    i + |needle| <= |hay| && hay[i..i + |needle|] == needle
  }

  /** Python's `s.split(sep)[-1]`: what follows the last `sep`, or all of `s` when there is none. */
  function AfterLast(s: string, sep: char): (r: string)
    ensures |r| <= |s| && r == s[|s| - |r|..]
    ensures sep !in r
    ensures |r| < |s| ==> s[|s| - |r| - 1] == sep
  {
    if s == [] then []
    else if s[|s| - 1] == sep then []
    else AfterLast(s[..|s| - 1], sep) + [s[|s| - 1]]
  }

  /** Python's `', '.join(parts)`. */
  function JoinComma(parts: seq<string>): (r: string)
    ensures parts == [] ==> r == []
    ensures parts != [] && parts[0] != [] ==> r != []
  {
    if |parts| == 0 then ""
    else if |parts| == 1 then parts[0]
    else parts[0] + ", " + JoinComma(parts[1..])
  }

  predicate IsDigit(c: char) {
    '0' <= c <= '9'
  }

  function DigitValue(c: char): (d: nat)
    requires IsDigit(c)
    ensures d < 10
  {
    c as int - '0' as int
  }

  function DigitChar(d: nat): (c: char)
    requires d < 10
    ensures IsDigit(c) && DigitValue(c) == d
  {
    "0123456789"[d]
  }

  /** Decimal digits of a natural number, without leading zeros. */
  function NatToString(n: nat): (r: string)
    ensures r != [] && forall i | 0 <= i < |r| :: IsDigit(r[i])
  {
    if n < 10 then [DigitChar(n)] else NatToString(n / 10) + [DigitChar(n % 10)]
  }

  /** Python's `str(n)` for an `int`. */
  function IntToString(n: int): string {
    if n < 0 then "-" + NatToString(-n) else NatToString(n)
  }

  /** Python's `int(s)` on an optional minus sign followed by decimal digits; None otherwise. */
  function ParseInt(s: string): Option<int> {
    if s != [] && s[0] == '-' then
      if DigitsOnly(s[1..]) then Some(0 - ParseNat(s[1..]) as int) else None
    else if DigitsOnly(s) then Some(ParseNat(s)) else None
  }

  predicate DigitsOnly(s: string) {
    s != [] && forall i | 0 <= i < |s| :: IsDigit(s[i])
  }

  function ParseNat(s: string): nat
    requires forall i | 0 <= i < |s| :: IsDigit(s[i])
  {
    if s == [] then 0 else ParseNat(s[..|s| - 1]) * 10 + DigitValue(s[|s| - 1])
  }

  lemma {:induction false} ParseNatToString(n: nat)
    ensures ParseNat(NatToString(n)) == n
  {
    if n >= 10 {
      var s := NatToString(n);
      assert s[..|s| - 1] == NatToString(n / 10);
      ParseNatToString(n / 10);
    }
  }

  /** The digits of a natural number are a digit string that reads back as it. */
  lemma NatToStringDigits(n: nat)
    ensures DigitsOnly(NatToString(n)) && ParseNat(NatToString(n)) == n
  {
    ParseNatToString(n);
  }

  /** A digit string reads back as its value, and with a minus sign in front as the negation. */
  lemma ParseDigits(d: string)
    requires DigitsOnly(d)
    ensures ParseInt(d) == Some(ParseNat(d) as int)
    ensures ParseInt("-" + d) == Some(0 - ParseNat(d))
  {
    assert IsDigit(d[0]);
    assert ("-" + d)[0] == '-' && ("-" + d)[1..] == d;
  }

  /** The text of a non-negative integer is its digits, which read back as it. */
  lemma NonNegativeRoundTrip(n: int)
    requires n >= 0
    ensures ParseInt(IntToString(n)) == Some(n)
  {
    NatToStringDigits(n);
    ParseDigits(NatToString(n));
  }

  /** The text of a negative integer is a minus sign and the digits of its magnitude, which read back as it. */
  lemma NegativeRoundTrip(n: int)
    requires n < 0
    ensures ParseInt(IntToString(n)) == Some(n)
  {
    NatToStringDigits(-n);
    ParseDigits(NatToString(-n));
  }

  /** `int(str(n)) == n`: the decimal text of an integer reads back as that integer. */
  lemma IntToStringRoundTrip(n: int)
    ensures ParseInt(IntToString(n)) == Some(n)
  {
    if n < 0 {
      NegativeRoundTrip(n);
    } else {
      NonNegativeRoundTrip(n);
    }
  }

  /** The decimal text of an integer is not empty and has no whitespace at either end. */
  lemma IntToStringUnpadded(n: int)
    ensures IntToString(n) != [] && !IsSpace(IntToString(n)[0]) && !IsSpace(IntToString(n)[|IntToString(n)| - 1])
  {
    var d := NatToString(if n < 0 then -n else n);
    assert IsDigit(d[0]) && IsDigit(d[|d| - 1]);
  }

  /** Two integers with the same decimal text are equal, and the text is already stripped. */
  lemma IntToStringInjective(a: int, b: int)
    ensures IntToString(a) == IntToString(b) <==> a == b
    ensures Strip(IntToString(a)) == IntToString(a)
  {
    IntToStringRoundTrip(a);
    IntToStringRoundTrip(b);
    IntToStringUnpadded(a);
    StripUnpadded(IntToString(a));
  }

  /** Code-point lexicographic order on strings (Python's `<=` on `str`). */
  predicate LexLe(a: string, b: string)
    decreases |a|
  {
    a == [] || (b != [] && (a[0] < b[0] || (a[0] == b[0] && LexLe(a[1..], b[1..]))))
  }

  lemma {:induction false} LexLeTotal(a: string, b: string)
    ensures LexLe(a, b) || LexLe(b, a)
    decreases |a|
  {
    if a != [] && b != [] && a[0] == b[0] {
      LexLeTotal(a[1..], b[1..]);
    }
  }

  lemma {:induction false} LexLeTransitive(a: string, b: string, c: string)
    requires LexLe(a, b) && LexLe(b, c)
    ensures LexLe(a, c)
    decreases |a|
  {
    if a != [] && b != [] && c != [] && a[0] == b[0] && b[0] == c[0] {
      LexLeTransitive(a[1..], b[1..], c[1..]);
    }
  }

  lemma {:induction false} LexLeAntisymmetric(a: string, b: string)
    requires LexLe(a, b) && LexLe(b, a)
    ensures a == b
    decreases |a|
  {
    if a != [] && b != [] {
      LexLeAntisymmetric(a[1..], b[1..]);
    }
  }
}
