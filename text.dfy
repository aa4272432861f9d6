/**
 * String helpers with the meaning of the PHP built-ins the client relies on:
 * decimal digits, `strpos` for one character, `trim`, `strtolower`.
 */
module Text {
  import opened Wrappers

  predicate IsDigit(c: char) { '0' <= c <= '9' }

  predicate AllDigits(s: string) { forall i :: 0 <= i < |s| ==> IsDigit(s[i]) }

  function DigitChar(d: nat): (c: char)
    requires d < 10
    ensures IsDigit(c) && c as int - '0' as int == d
  {
    ('0' as int + d) as char
  }

  function DigitValue(c: char): nat
    requires IsDigit(c)
  {
    c as int - '0' as int
  }

  /** The number a string of decimal digits denotes (most significant first). */
  function DigitsValue(s: string): nat
    requires AllDigits(s)
  {
    if s == [] then 0 else DigitsValue(s[..|s| - 1]) * 10 + DigitValue(s[|s| - 1])
  }

  /** Decimal form of a natural number, as PHP's `(string)` prints an int. */
  function NatToString(n: nat): (s: string)
    ensures |s| > 0 && AllDigits(s)
    ensures DigitsValue(s) == n
    ensures s[0] == '0' ==> n == 0
    decreases n
  {
    if n < 10 then [DigitChar(n)]
    else
      var prefix := NatToString(n / 10);
      var s := prefix + [DigitChar(n % 10)];
      assert s[..|s| - 1] == prefix;
      s
  }

  function IntToString(n: int): string
  {
    if n < 0 then "-" + NatToString(-n) else NatToString(n)
  }

  function Pow10(n: nat): (p: nat)
    ensures p > 0
  {
    if n == 0 then 1 else 10 * Pow10(n - 1)
  }

  /** `s` padded on the left with '0' up to `width` characters. */
  function PadZeros(s: string, width: nat): (r: string)
    ensures |r| == if |s| < width then width else |s|
    decreases width - |s|
  {
    if |s| < width then PadZeros("0" + s, width) else s
  }

  /** Position of the first occurrence of `c` in `s`. */
  function IndexOf(s: string, c: char): (r: Option<nat>)
    ensures r.None? <==> c !in s
    ensures r.Some? ==> r.value < |s| && s[r.value] == c && c !in s[..r.value]
  {
    if s == [] then None
    else if s[0] == c then Some(0)
    else
      match IndexOf(s[1..], c)
      case None => None
      case Some(i) =>
        assert s[..i + 1] == [s[0]] + s[1..][..i];
        Some(i + 1)
  }

  lemma {:induction false} IndexOfAfter(a: string, b: string, c: char)
    requires c !in a && b != [] && b[0] == c
    ensures IndexOf(a + b, c) == Some(|a|)
  {
    if a == [] {
      assert a + b == b;
    } else {
      assert (a + b)[1..] == a[1..] + b;
      IndexOfAfter(a[1..], b, c);
    }
  }

  /** Whether `t` occurs in `s` as a contiguous piece. */
  predicate Contains(s: string, t: string)
  {
    t <= s || (s != [] && Contains(s[1..], t))
  }

  lemma {:induction false} ContainsMiddle(a: string, t: string, b: string)
    ensures Contains(a + t + b, t)
  {
    if a == [] {
      assert a + t + b == t + b;
    } else {
      assert (a + t + b)[1..] == a[1..] + t + b;
      ContainsMiddle(a[1..], t, b);
    }
  }

  /** A piece of `s` is a piece of anything that ends with `s`. */
  lemma {:induction false} ContainsAfter(a: string, s: string, t: string)
    requires Contains(s, t)
    ensures Contains(a + s, t)
  {
    if a != [] {
      assert (a + s)[1..] == a[1..] + s;
      ContainsAfter(a[1..], s, t);
    } else {
      assert a + s == s;
    }
  }

  /**
   * The second and the last of six joined pieces occur in the joined string: the
   * shape of the message `request` builds for an API error, used by StatusFailureNamesCode.
   */
  lemma ContainsInSix(a: string, b: string, c: string, d: string, e: string, f: string)
    ensures Contains(a + b + c + d + e + f, b) && Contains(a + b + c + d + e + f, f)
  {
    assert a + b + c + d + e + f == a + b + (c + d + e + f);
    ContainsMiddle(a, b, c + d + e + f);
    assert a + b + c + d + e + f == (a + b + c + d + e) + f + [];
    ContainsMiddle(a + b + c + d + e, f, []);
  }

  /** The characters PHP's `trim` strips by default. */
  const TrimChars: set<char> := {' ', '\t', '\n', '\r', '\0', '\U{000B}'}

  /** How many characters of `ws` open `s`. */
  function LeadingCount(s: string, ws: set<char>): (n: nat)
    ensures n <= |s|
  {
    if s != [] && s[0] in ws then 1 + LeadingCount(s[1..], ws) else 0
  }

  /** How many characters of `ws` close `s`. */
  function TrailingCount(s: string, ws: set<char>): (n: nat)
    ensures n <= |s|
  {
    if s != [] && s[|s| - 1] in ws then 1 + TrailingCount(s[..|s| - 1], ws) else 0
  }

  /** `trim($s, $ws)`: `s` without the characters of `ws` at either end. */
  function TrimOf(s: string, ws: set<char>): string
  {
    var l := s[LeadingCount(s, ws)..];
    l[..|l| - TrailingCount(l, ws)]
  }

  /** PHP `trim` with its default character list. */
  function Trim(s: string): string
  {
    TrimOf(s, TrimChars)
  }

  predicate IsTrimmed(s: string)
  {
    s == [] || (s[0] !in TrimChars && s[|s| - 1] !in TrimChars)
  }

  lemma {:induction false} LeadingCountStops(s: string, ws: set<char>)
    ensures forall i :: 0 <= i < LeadingCount(s, ws) ==> s[i] in ws
    ensures LeadingCount(s, ws) == |s| || s[LeadingCount(s, ws)] !in ws
  {
    if s != [] && s[0] in ws {
      LeadingCountStops(s[1..], ws);
    }
  }

  lemma {:induction false} TrailingCountStops(s: string, ws: set<char>)
    ensures TrailingCount(s, ws) == |s| || s[|s| - 1 - TrailingCount(s, ws)] !in ws
    ensures s != [] && s[0] !in ws ==> TrailingCount(s, ws) < |s|
  {
    if s != [] && s[|s| - 1] in ws {
      TrailingCountStops(s[..|s| - 1], ws);
    }
  }

  /** Every character a trailing count covers is one of `ws`. */
  lemma {:induction false} TrailingCountAll(s: string, ws: set<char>)
    ensures forall i :: |s| - TrailingCount(s, ws) <= i < |s| ==> s[i] in ws
  {
    if s != [] && s[|s| - 1] in ws {
      var init := s[..|s| - 1];
      TrailingCountAll(init, ws);
      forall i | |s| - TrailingCount(s, ws) <= i < |s|
        ensures s[i] in ws
      {
        if i < |s| - 1 {
          assert s[i] == init[i];
        }
      }
    }
  }

  /** What trimming leaves: neither end in `ws`, and only characters of `s`. */
  lemma TrimOfShape(s: string, ws: set<char>)
    ensures var r := TrimOf(s, ws); r == [] || (r[0] !in ws && r[|r| - 1] !in ws)
    ensures forall c :: c in TrimOf(s, ws) ==> c in s
  {
    var l := s[LeadingCount(s, ws)..];
    LeadingCountStops(s, ws);
    TrailingCountStops(l, ws);
    var r := l[..|l| - TrailingCount(l, ws)];
    assert r != [] ==> r[0] == l[0] && r[|r| - 1] == l[|l| - 1 - TrailingCount(l, ws)];
    assert forall i | 0 <= i < |r| :: r[i] == s[LeadingCount(s, ws) + i];
  }

  /** A string that neither opens nor closes with a character of `ws` is left alone. */
  lemma TrimOfUntouched(s: string, ws: set<char>)
    requires s == [] || (s[0] !in ws && s[|s| - 1] !in ws)
    ensures TrimOf(s, ws) == s
  {
    assert s[0..] == s;
  }

  lemma TrimOfTrimmed(s: string)
    requires IsTrimmed(s)
    ensures Trim(s) == s
  {
    TrimOfUntouched(s, TrimChars);
  }

  lemma TrimIsTrimmed(s: string)
    ensures IsTrimmed(Trim(s))
    ensures forall c :: c in Trim(s) ==> c in s
  {
    TrimOfShape(s, TrimChars);
  }

  /** A string made only of TrimChars trims to nothing. */
  lemma TrimBlank(s: string)
    requires forall i :: 0 <= i < |s| ==> s[i] in TrimChars
    ensures Trim(s) == ""
  {
    LeadingCountStops(s, TrimChars);
  }

  function LowerChar(c: char): char
  {
    if 'A' <= c <= 'Z' then (c as int + 32) as char else c
  }

  /** PHP 8 `strtolower`: ASCII letters only. */
  function ToLower(s: string): (r: string)
    ensures |r| == |s|
  {
    seq(|s|, i requires 0 <= i < |s| => LowerChar(s[i]))
  }
}
