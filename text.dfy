/**
 * Decimal rendering and parsing of integers, in the forms the benchmark uses:
 * `String.valueOf(int)` (string concatenation), `String.format("%0Nd", i)` and
 * `Integer.parseInt`.
 */
module Text {
  import opened Wrappers

  const IntMin: int := -0x8000_0000
  const IntMax: int := 0x7fff_ffff

  predicate IsDigit(c: char) { '0' <= c <= '9' }

  predicate AllDigits(s: string) {
    forall k :: 0 <= k < |s| ==> IsDigit(s[k])
  }

  function DigitChar(d: nat): (c: char)
    requires d < 10
    ensures IsDigit(c) && DigitValue(c) == d
  {
    ['0', '1', '2', '3', '4', '5', '6', '7', '8', '9'][d]
  }

  function DigitValue(c: char): (d: nat)
    requires IsDigit(c)
    ensures d < 10
  {
    (c as int) - ('0' as int)
  }

  /** The decimal digits of `s`, read most significant first. */
  function DigitsValue(s: string): nat
    requires AllDigits(s)
  {
    if s == [] then 0 else DigitsValue(s[..|s| - 1]) * 10 + DigitValue(s[|s| - 1])
  }

  /** Shortest decimal rendering of a natural number, as Java prints it. */
  function NatToString(n: nat): (s: string)
    ensures |s| >= 1 && AllDigits(s)
    ensures |s| > 1 ==> s[0] != '0'
  {
    if n < 10 then [DigitChar(n)] else NatToString(n / 10) + [DigitChar(n % 10)]
  }

  /** Java's rendering of an integer: a minus sign for negative values, then the digits. */
  function IntToString(i: int): string {
    if i < 0 then "-" + NatToString(-i) else NatToString(i)
  }

  /** `k` zero characters. */
  function Zeros(k: nat): (s: string)
    ensures |s| == k && forall i :: 0 <= i < k ==> s[i] == '0'
  {
    seq(k, _ => '0')
  }

  /** `String.format("%0<width>d", n)` for n >= 0: the digits, left-padded with zeros. */
  function ZeroPadded(n: nat, width: nat): (s: string)
    ensures AllDigits(s)
    ensures |s| == if |NatToString(n)| < width then width else |NatToString(n)|
    ensures s[|s| - |NatToString(n)|..] == NatToString(n)
  {
    var d := NatToString(n);
    if |d| < width then Zeros(width - |d|) + d else d
  }

  /**
   * `Integer.parseInt(s)`: an optional leading '+' or '-', then at least one decimal
   * digit, and a value that fits a 32-bit int; None where Java throws
   * NumberFormatException.
   */
  function ParseInt(s: string): (r: Option<int>)
    ensures r.Some? ==> IntMin <= r.value <= IntMax
    ensures r.Some? ==> |s| > 0
  {
    if |s| == 0 then None
    else
      var signed := s[0] == '-' || s[0] == '+';
      var digits := if signed then s[1..] else s;
      if |digits| == 0 || !AllDigits(digits) then None
      else
        var v: int := if s[0] == '-' then -(DigitsValue(digits) as int) else DigitsValue(digits);
        if IntMin <= v <= IntMax then Some(v) else None
  }

  /** Reading a digit character and writing its value back gives the same character. */
  lemma DigitCharOfValue(c: char)
    requires IsDigit(c)
    ensures DigitChar(DigitValue(c)) == c
  {
    var d := DigitValue(c);
    assert DigitValue(DigitChar(d)) == d;
  }

  lemma {:induction false} DigitsOfNatToString(n: nat)
    ensures DigitsValue(NatToString(n)) == n
  {
    var s := NatToString(n);
    if n >= 10 {
      DigitsOfNatToString(n / 10);
      assert s[..|s| - 1] == NatToString(n / 10);
    }
  }

  /** Leading zeros do not change the value of a digit string. */
  lemma {:induction false} DigitsIgnoreLeadingZeros(z: nat, s: string)
    requires AllDigits(s)
    ensures AllDigits(Zeros(z) + s)
    ensures DigitsValue(Zeros(z) + s) == DigitsValue(s)
  {
    var t := Zeros(z) + s;
    assert AllDigits(t) by {
      forall k | 0 <= k < |t| ensures IsDigit(t[k]) {
        if k < z { assert t[k] == '0'; } else { assert t[k] == s[k - z]; }
      }
    }
    if s == [] {
      if z > 0 {
        assert t[..|t| - 1] == Zeros(z - 1) + [];
        DigitsIgnoreLeadingZeros(z - 1, []);
      }
    } else {
      assert t[..|t| - 1] == Zeros(z) + s[..|s| - 1];
      DigitsIgnoreLeadingZeros(z, s[..|s| - 1]);
    }
  }

  /** A zero-padded rendering still denotes the number it renders. */
  lemma ZeroPaddedDenotes(n: nat, width: nat)
    ensures DigitsValue(ZeroPadded(n, width)) == n
  {
    var d := NatToString(n);
    var s := ZeroPadded(n, width);
    DigitsOfNatToString(n);
    if |d| < width {
      var z := Zeros(width - |d|);
      assert s == z + d;
      DigitsIgnoreLeadingZeros(width - |d|, d);
      assert DigitsValue(z + d) == n;
    } else {
      assert s == d;
    }
  }

  /** A number below 10^4 renders in at most four digits, so "%04d" yields exactly four. */
  lemma {:induction false} SmallNatToString(n: nat, k: nat)
    requires k >= 1
    requires n < Pow10(k)
    ensures |NatToString(n)| <= k
  {
    if n >= 10 {
      assert Pow10(1) == 10;
      assert n / 10 < Pow10(k - 1);
      SmallNatToString(n / 10, k - 1);
    }
  }

  function Pow10(k: nat): (p: nat)
    ensures p >= 1
  {
    if k == 0 then 1 else 10 * Pow10(k - 1)
  }

  /** `Integer.parseInt(String.valueOf(i)) == i` for every 32-bit int. */
  lemma ParseIntToString(i: int)
    requires IntMin <= i <= IntMax
    ensures ParseInt(IntToString(i)) == Some(i)
  {
    var s := IntToString(i);
    if i < 0 {
      assert s[1..] == NatToString(-i);
      DigitsOfNatToString(-i);
    } else {
      DigitsOfNatToString(i);
    }
  }

  /** The number of leading zeros `Integer.parseInt` skips: all but the last digit may be one. */
  function LeadingZeros(d: string): (z: nat)
    requires |d| > 0
    ensures z < |d|
    ensures forall k :: 0 <= k < z ==> d[k] == '0'
    ensures z == |d| - 1 || d[z] != '0'
  {
    if |d| > 1 && d[0] == '0' then 1 + LeadingZeros(d[1..]) else 0
  }

  /** A digit string without a leading zero denotes a positive number unless it is "0". */
  lemma {:induction false} NoLeadingZeroPositive(d: string)
    requires |d| > 0 && AllDigits(d) && d[0] != '0'
    ensures DigitsValue(d) >= 1
  {
    if |d| > 1 {
      assert d[..|d| - 1][0] == d[0];
      NoLeadingZeroPositive(d[..|d| - 1]);
    }
  }

  /** A digit string without a leading zero is the rendering of the number it denotes. */
  lemma {:induction false} NatToStringOfDigits(d: string)
    requires |d| > 0 && AllDigits(d)
    requires |d| == 1 || d[0] != '0'
    ensures NatToString(DigitsValue(d)) == d
  {
    var last := d[|d| - 1];
    DigitCharOfValue(last);
    if |d| > 1 {
      var front := d[..|d| - 1];
      assert front[0] == d[0];
      NoLeadingZeroPositive(front);
      NatToStringOfDigits(front);
      var n := DigitsValue(d);
      assert n / 10 == DigitsValue(front) && n % 10 == DigitValue(last);
      assert d == front + [last];
    }
  }

  /** Every digit string is some leading zeros followed by the rendering of its value. */
  lemma DigitsSplit(d: string)
    requires |d| > 0 && AllDigits(d)
    ensures d == Zeros(LeadingZeros(d)) + NatToString(DigitsValue(d))
  {
    var z := LeadingZeros(d);
    var rest := d[z..];
    assert d == Zeros(z) + rest;
    DigitsIgnoreLeadingZeros(z, rest);
    NatToStringOfDigits(rest);
  }

  /** The sign prefixes `Integer.parseInt` accepts in front of the digits of `v`. */
  predicate AllowedSign(p: string, v: int) {
    (p == "" && v >= 0) || (p == "+" && v >= 0) || (p == "-" && v <= 0)
  }

  function Magnitude(v: int): nat {
    if v < 0 then -v else v
  }

  /** The sign prefix of `s`: its first character when that is '+' or '-'. */
  function SignPart(s: string): (p: string)
    ensures p == "" || p == "+" || p == "-"
    ensures p <= s
  {
    if |s| > 0 && (s[0] == '+' || s[0] == '-') then s[..1] else ""
  }

  /** `ParseInt` read as a sign prefix followed by the digits. */
  lemma ParseIntBySign(s: string)
    ensures var p := SignPart(s);
            var d := s[|p|..];
            ParseInt(s) ==
              if |d| == 0 || !AllDigits(d) then None
              else
                var v: int := if p == "-" then -(DigitsValue(d) as int) else DigitsValue(d);
                if IntMin <= v <= IntMax then Some(v) else None
  {
    if |s| > 0 && !(s[0] == '+' || s[0] == '-') {
      assert s[0..] == s;
    }
  }

  /** A sign followed by digits splits back into that sign and those digits. */
  lemma SignPartOfSigned(p: string, d: string)
    requires p == "" || p == "+" || p == "-"
    requires |d| > 0 && IsDigit(d[0])
    ensures SignPart(p + d) == p && (p + d)[|p|..] == d
  {
    var s := p + d;
    if p == "" {
      assert s[0] == d[0];
    } else {
      assert s[..1] == p;
    }
  }

  /** Every 32-bit value is accepted after any allowed sign and any number of leading zeros. */
  lemma ParseIntAccepts(p: string, z: nat, v: int)
    requires IntMin <= v <= IntMax
    requires AllowedSign(p, v)
    ensures ParseInt(p + Zeros(z) + NatToString(Magnitude(v))) == Some(v)
  {
    var m := Magnitude(v);
    var d := Zeros(z) + NatToString(m);
    assert AllDigits(d) && |d| > 0 && DigitsValue(d) == m by {
      DigitsIgnoreLeadingZeros(z, NatToString(m));
      DigitsOfNatToString(m);
    }
    ParseIntOfSigned(p, d, v);
    assert p + Zeros(z) + NatToString(m) == p + d;
  }

  /** With the sign and the digits split apart, `ParseInt` yields the signed value of the digits. */
  lemma ParseIntOfSigned(p: string, d: string, v: int)
    requires IntMin <= v <= IntMax
    requires AllowedSign(p, v)
    requires |d| > 0 && AllDigits(d) && DigitsValue(d) == Magnitude(v)
    ensures ParseInt(p + d) == Some(v)
  {
    SignPartOfSigned(p, d);
    ParseIntBySign(p + d);
  }

  /**
   * Conversely, text that parses to `v` is an allowed sign of `v`, then leading zeros,
   * then the rendering of `v`'s magnitude: nothing else is accepted.
   */
  lemma ParseIntForm(s: string, v: int)
    requires ParseInt(s) == Some(v)
    ensures var p := SignPart(s);
            var d := s[|p|..];
            && AllowedSign(p, v)
            && |d| > 0
            && d == Zeros(LeadingZeros(d)) + NatToString(Magnitude(v))
  {
    var p := SignPart(s);
    var d := s[|p|..];
    ParseIntBySign(s);
    DigitsSplit(d);
    assert Magnitude(v) == DigitsValue(d);
  }

  /** Text in Java's own rendering: no '+', no leading zero, not "-0". */
  predicate Canonical(s: string) {
    var p := SignPart(s);
    var d := s[|p|..];
    && p != "+"
    && |d| > 0
    && (|d| == 1 || d[0] != '0')
    && !(p == "-" && d == "0")
  }

  /** Text in Java's own rendering that parses to `v` is exactly `String.valueOf(v)`. */
  lemma ParseCanonicalToString(s: string, v: int)
    requires ParseInt(s) == Some(v)
    requires Canonical(s)
    ensures IntToString(v) == s
  {
    var p := SignPart(s);
    var d := s[|p|..];
    ParseIntForm(s, v);
    assert LeadingZeros(d) == 0;
    assert d == NatToString(Magnitude(v));
    assert s == p + d;
  }
}
