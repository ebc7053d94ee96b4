/**
 * The pieces of java.lang.String and Spring's StringUtils that the services
 * rely on: blank tests, prefix and suffix tests, the decimal rendering of a
 * long (String.valueOf), String.format("%06d", n) and String.split(":").
 */
module Text {
  import opened Wrappers

  // ---------------------------------------------------------------------
  // Blank text

  /** Character.isWhitespace: the Unicode space separators other than the
      non-breaking ones, and the ASCII and information-separator controls. */
  predicate IsJavaWhitespace(c: char) {
    || c == ' ' || c == '\t' || c == '\n' || c == '\U{B}' || c == '\U{C}' || c == '\r'
    || ('\U{1C}' <= c <= '\U{1F}')
    || c == '\U{1680}'
    || ('\U{2000}' <= c <= '\U{2006}') || ('\U{2008}' <= c <= '\U{200A}')
    || c == '\U{2028}' || c == '\U{2029}' || c == '\U{205F}' || c == '\U{3000}'
  }

  /** StringUtils.hasText: not null and holding some non-whitespace character. */
  predicate HasText(s: Option<string>) {
    s.Some? && exists i :: 0 <= i < |s.value| && !IsJavaWhitespace(s.value[i])
  }

  /** HasText on a string that cannot be null. */
  predicate HasChars(s: string) {
    HasText(Some(s))
  }

  // ---------------------------------------------------------------------
  // Prefixes and suffixes

  predicate StartsWith(s: string, prefix: string) {
    |prefix| <= |s| && s[..|prefix|] == prefix
  }

  predicate EndsWith(s: string, suffix: string) {
    |suffix| <= |s| && s[|s| - |suffix|..] == suffix
  }

  /** Two strings with mismatching prefixes cannot be equal. */
  lemma DistinctPrefixes(s: string, t: string, p: string, q: string)
    requires StartsWith(s, p) && StartsWith(t, q)
    requires !StartsWith(p, q) && !StartsWith(q, p)
    ensures s != t
  {
  }

  // ---------------------------------------------------------------------
  // Decimal text of integers

  function DigitChar(d: nat): char
    requires d < 10
  {
    "0123456789"[d]
  }

  predicate IsDigit(c: char) {
    '0' <= c <= '9'
  }

  function DigitValue(c: char): nat
    requires IsDigit(c)
  {
    (c as int - '0' as int) as nat
  }

  predicate AllDigits(s: string) {
    forall i :: 0 <= i < |s| ==> IsDigit(s[i])
  }

  /** The decimal digits of n, most significant first, without leading zeros. */
  function NatToString(n: nat): (r: string)
    ensures |r| >= 1 && AllDigits(r)
  {
    if n < 10 then [DigitChar(n)] else NatToString(n / 10) + [DigitChar(n % 10)]
  }

  /** String.valueOf(long). */
  function IntToString(n: int): (r: string)
  {
    if n < 0 then "-" + NatToString(-n) else NatToString(n)
  }

  /** The number a string of decimal digits denotes. */
  function DigitsValue(s: string): nat
    requires AllDigits(s)
  {
    if s == [] then 0 else 10 * DigitsValue(s[..|s| - 1]) + DigitValue(s[|s| - 1])
  }

  /** Reading back the decimal text of n gives n. */
  lemma {:induction false} NatToStringRoundTrip(n: nat)
    ensures DigitsValue(NatToString(n)) == n
  {
    var s := NatToString(n);
    if n >= 10 {
      NatToStringRoundTrip(n / 10);
      assert s[..|s| - 1] == NatToString(n / 10);
    }
  }

  /** Distinct naturals have distinct decimal texts. */
  lemma NatToStringInjective(a: nat, b: nat)
    requires NatToString(a) == NatToString(b)
    ensures a == b
  {
    NatToStringRoundTrip(a);
    NatToStringRoundTrip(b);
  }

  /** Distinct integers have distinct decimal texts. */
  lemma IntToStringInjective(a: int, b: int)
    requires IntToString(a) == IntToString(b)
    ensures a == b
  {
    var s := IntToString(a);
    assert s[0] == '-' <==> a < 0;
    assert IntToString(b)[0] == '-' <==> b < 0;
    if a < 0 && b < 0 {
      assert NatToString(-a) == s[1..];
      assert NatToString(-b) == s[1..];
      NatToStringInjective(-a, -b);
    } else if a >= 0 && b >= 0 {
      NatToStringInjective(a, b);
    }
  }

  /** The decimal text of an integer holds no colon, brace, '$' or backslash. */
  lemma IntToStringChars(n: int)
    ensures |IntToString(n)| >= 1
    ensures forall i :: 0 <= i < |IntToString(n)| ==>
      IntToString(n)[i] == '-' || IsDigit(IntToString(n)[i])
  {
  }

  /** The decimal text of n left-padded with zeros to at least width
      characters, as String.format("%0<width>d") and a DateTimeFormatter
      field of that width print it. */
  function ZeroPadded(n: nat, width: nat): (r: string)
    ensures AllDigits(r)
    ensures |r| == if |NatToString(n)| < width then width else |NatToString(n)|
  {
    var d := NatToString(n);
    if |d| < width then Zeros(width - |d|) + d else d
  }

  /** String.format("%06d", n) for 0 <= n < 1000000: zero-padded to six digits. */
  function Pad6(n: nat): (r: string)
    requires n < 1000000
    ensures |r| == 6 && AllDigits(r)
  {
    NatToStringLength(n);
    ZeroPadded(n, 6)
  }

  function Zeros(k: nat): (r: string)
    ensures |r| == k && AllDigits(r)
  {
    if k == 0 then "" else Zeros(k - 1) + "0"
  }

  /** NatToString(n) has at most six digits when n < 10^6. */
  lemma {:induction false} NatToStringLength(n: nat)
    ensures n < 1000000 ==> |NatToString(n)| <= 6
    ensures n < 100000 ==> |NatToString(n)| <= 5
    ensures n < 10000 ==> |NatToString(n)| <= 4
    ensures n < 1000 ==> |NatToString(n)| <= 3
    ensures n < 100 ==> |NatToString(n)| <= 2
    ensures n < 10 ==> |NatToString(n)| <= 1
  {
    if n >= 10 {
      NatToStringLength(n / 10);
    }
  }

  /** Leading zeros do not change the value of a digit string. */
  lemma {:induction false} LeadingZeros(k: nat, d: string)
    requires AllDigits(d)
    ensures AllDigits(Zeros(k) + d)
    ensures DigitsValue(Zeros(k) + d) == DigitsValue(d)
  {
    if d == [] {
      assert Zeros(k) + d == Zeros(k);
      ZerosValue(k);
    } else {
      var s := Zeros(k) + d;
      assert s[..|s| - 1] == Zeros(k) + d[..|d| - 1];
      LeadingZeros(k, d[..|d| - 1]);
    }
  }

  lemma {:induction false} ZerosValue(k: nat)
    ensures DigitsValue(Zeros(k)) == 0
  {
    if k > 0 {
      assert Zeros(k)[..k - 1] == Zeros(k - 1);
      ZerosValue(k - 1);
    }
  }

  /** A zero-padded text reads back as the number it was made from. */
  lemma ZeroPaddedRoundTrip(n: nat, width: nat)
    ensures DigitsValue(ZeroPadded(n, width)) == n
  {
    var d := NatToString(n);
    if |d| < width {
      LeadingZeros(width - |d|, d);
    }
    NatToStringRoundTrip(n);
  }

  /** The six-digit code reads back as the number it was made from. */
  lemma Pad6RoundTrip(n: nat)
    requires n < 1000000
    ensures DigitsValue(Pad6(n)) == n
  {
    ZeroPaddedRoundTrip(n, 6);
  }

  // ---------------------------------------------------------------------
  // String.lastIndexOf with one character

  /** The index of the last c in s, or -1 when s holds none. */
  function LastIndexOf(s: string, c: char): (r: int)
    ensures -1 <= r < |s|
    ensures r == -1 <==> c !in s
    ensures r >= 0 ==> s[r] == c && c !in s[r + 1..]
  {
    if s == [] then -1
    else if s[|s| - 1] == c then |s| - 1
    else
      var r := LastIndexOf(s[..|s| - 1], c);
      assert s[..|s| - 1] + [s[|s| - 1]] == s;
      if r >= 0 then assert s[r + 1..] == s[..|s| - 1][r + 1..] + [s[|s| - 1]]; r else r
  }

  // ---------------------------------------------------------------------
  // String.split with a one-character separator and no limit

  /** Every field between separators, empty ones included. */
  function Fields(s: string, c: char): (r: seq<string>)
    ensures |r| >= 1
    ensures forall k :: 0 <= k < |r| ==> c !in r[k]
    ensures forall k, i :: 0 <= k < |r| && 0 <= i < |r[k]| ==> r[k][i] in s
    ensures c !in s ==> r == [s]
  {
    if s == [] then [""]
    else if s[0] == c then
      var rest := Fields(s[1..], c);
      assert forall k, i :: 0 <= k < |rest| && 0 <= i < |rest[k]| ==> rest[k][i] in s[1..] && s[1..][..] == s[1..];
      [""] + rest
    else
      var rest := Fields(s[1..], c);
      assert c !in s ==> c !in s[1..] && rest == [s[1..]] && [s[0]] + s[1..] == s;
      var head := [s[0]] + rest[0];
      assert forall i :: 0 <= i < |head| ==> head[i] in s by {
        forall i | 0 <= i < |head|
          ensures head[i] in s
        {
          if i > 0 {
            assert head[i] == rest[0][i - 1];
            assert rest[0][i - 1] in s[1..];
          }
        }
      }
      [head] + rest[1..]
  }

  /** Drop empty strings from the end, as split(regex) with limit 0 does. */
  function StripTrailingEmpty(parts: seq<string>): (r: seq<string>)
    ensures |r| <= |parts| && r == parts[..|r|]
    ensures r != [] ==> r[|r| - 1] != ""
    ensures forall k :: |r| <= k < |parts| ==> parts[k] == ""
  {
    if parts != [] && parts[|parts| - 1] == "" then StripTrailingEmpty(parts[..|parts| - 1])
    else parts
  }

  /** String.split(String.valueOf(c)): the whole string when the separator
      does not occur, else the fields without the trailing empty ones. */
  function JavaSplit(s: string, c: char): seq<string>
  {
    if c !in s then [s] else StripTrailingEmpty(Fields(s, c))
  }

  lemma {:induction false} FieldsAfterPrefix(u: string, a: string, c: char)
    requires c !in u
    ensures Fields(u + [c] + a, c) == [u] + Fields(a, c)
  {
    if u == [] {
      assert u + [c] + a == [c] + a;
      assert ([c] + a)[1..] == a;
    } else {
      assert (u + [c] + a)[1..] == u[1..] + [c] + a;
      FieldsAfterPrefix(u[1..], a, c);
      assert [u[0]] + u[1..] == u;
    }
  }

  /** Splitting "u:a" on ':' gives back exactly [u, a] if and only if a is
      non-empty and holds no ':' (u being a non-empty, colon-free text). */
  lemma SplitPair(u: string, a: string)
    requires u != "" && ':' !in u
    ensures JavaSplit(u + ":" + a, ':') == [u, a] <==> (a != "" && ':' !in a)
  {
    var s := u + ":" + a;
    assert s[|u|] == ':';
    FieldsAfterPrefix(u, a, ':');
    var f := Fields(s, ':');
    assert f == [u] + Fields(a, ':');
    if ':' !in a {
      assert f == [u, a];
      if a == "" {
        assert StripTrailingEmpty(f) == StripTrailingEmpty([u]);
      }
    }
  }
}
