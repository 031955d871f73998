/** The two number/string conversions the components use: the global
    `parseInt(string)` with no radix argument, and the decimal rendering of a
    non-negative integer (`${n}`). */
module JsNumber {
  import opened Text
  import opened Wrappers

  /** What `parseInt` can return: `NaN` or an integral number. `-0` is read
      as 0, which `===` does not distinguish from `+0`. */
  datatype Number = NaN | Int(value: int)

  /** The value of `c` as a digit in base `radix`, or -1 when it is not one. */
  function DigitValue(c: char, radix: nat): (d: int)
    requires radix == 10 || radix == 16
    ensures -1 <= d < radix
    ensures d >= 0 && radix == 10 ==> '0' <= c <= '9'
  {
    var v :=
      if '0' <= c <= '9' then c as int - '0' as int
      else if 'a' <= c <= 'z' then c as int - 'a' as int + 10
      else if 'A' <= c <= 'Z' then c as int - 'A' as int + 10
      else -1;
    if v < radix then v else -1
  }

  /** The length of the longest prefix of `s` made of base-`radix` digits. */
  function DigitRun(s: string, radix: nat): (n: nat)
    requires radix == 10 || radix == 16
    ensures n <= |s|
    ensures forall k :: 0 <= k < n ==> DigitValue(s[k], radix) >= 0
    ensures n < |s| ==> DigitValue(s[n], radix) < 0
  {
    if |s| > 0 && DigitValue(s[0], radix) >= 0 then 1 + DigitRun(s[1..], radix) else 0
  }

  /** The integer a string of base-`radix` digits denotes, most significant first. */
  function DigitsValue(s: string, radix: nat): nat
    requires radix == 10 || radix == 16
    requires forall k :: 0 <= k < |s| ==> DigitValue(s[k], radix) >= 0
  {
    if |s| == 0 then 0
    else DigitsValue(s[..|s| - 1], radix) * radix + DigitValue(s[|s| - 1], radix)
  }

  /** The magnitude `parseInt` reads after the sign: an optional `0x`/`0X`
      prefix selecting base 16 (base 10 otherwise), then the longest run of
      digits; `None` when that run is empty. */
  function Magnitude(u: string): Option<nat> {
    var hex := |u| >= 2 && u[0] == '0' && (u[1] == 'x' || u[1] == 'X');
    var radix := if hex then 16 else 10;
    var v := if hex then u[2..] else u;
    var end := DigitRun(v, radix);
    if end == 0 then None else Some(DigitsValue(v[..end], radix))
  }

  /** `parseInt(s)`: skip leading white space, take an optional sign, then
      the magnitude; no digits at all gives `NaN`. */
  function ParseInt(s: string): Number {
    var t := TrimStart(s);
    var negative := |t| > 0 && t[0] == '-';
    var u := if |t| > 0 && (t[0] == '-' || t[0] == '+') then t[1..] else t;
    match Magnitude(u)
    case None => NaN
    case Some(m) => Int(if negative then -(m as int) else m)
  }

  function DigitChar(d: nat): char
    requires d < 10
  {
    ('0' as int + d) as char
  }

  /** The decimal rendering of `n`, without leading zeros. */
  function Decimal(n: nat): (r: string)
    ensures |r| > 0
    ensures forall k :: 0 <= k < |r| ==> '0' <= r[k] <= '9'
    ensures n > 0 ==> r[0] != '0'
  {
    if n < 10 then [DigitChar(n)] else Decimal(n / 10) + [DigitChar(n % 10)]
  }

  /** Reading the decimal rendering back as digits gives the number. */
  lemma {:induction false} DecimalDigitsValue(n: nat)
    ensures DigitsValue(Decimal(n), 10) == n
    decreases n
  {
    if n >= 10 {
      var r := Decimal(n);
      DecimalDigitsValue(n / 10);
      assert r[..|r| - 1] == Decimal(n / 10);
    }
  }

  /** A leading run of digits extends the digit run by its length. */
  lemma {:induction false} DigitRunAppend(a: string, b: string, radix: nat)
    requires radix == 10 || radix == 16
    requires forall k :: 0 <= k < |a| ==> DigitValue(a[k], radix) >= 0
    ensures DigitRun(a + b, radix) == |a| + DigitRun(b, radix)
    decreases |a|
  {
    if |a| > 0 {
      assert (a + b)[1..] == a[1..] + b;
      DigitRunAppend(a[1..], b, radix);
    } else {
      assert a + b == b;
    }
  }

  /** The magnitude of a decimal rendering followed by a non-digit is the number. */
  lemma MagnitudeDecimal(n: nat, rest: string)
    requires rest == [] || (!('0' <= rest[0] <= '9') && (n > 0 || (rest[0] != 'x' && rest[0] != 'X')))
    ensures Magnitude(Decimal(n) + rest) == Some(n)
  {
    var d := Decimal(n);
    var s := d + rest;
    var hex := |s| >= 2 && s[0] == '0' && (s[1] == 'x' || s[1] == 'X');
    assert !hex by {
      if |s| >= 2 && s[0] == '0' {
        assert d[0] == '0';
        assert |d| == 1;
        assert s[1] == rest[0];
      }
    }
    DigitRunAppend(d, rest, 10);
    assert DigitRun(rest, 10) == 0;
    assert DigitRun(s, 10) == |d|;
    assert s[..|d|] == d;
    DecimalDigitsValue(n);
  }

  /** `parseInt` inverts the decimal rendering, and ignores whatever follows
      the digits: `parseInt("42abc")` is 42 (but `parseInt("0x1")` is 1). */
  lemma ParseIntDecimal(n: nat, rest: string)
    requires rest == [] || (!('0' <= rest[0] <= '9') && (n > 0 || (rest[0] != 'x' && rest[0] != 'X')))
    ensures ParseInt(Decimal(n) + rest) == Int(n)
  {
    var s := Decimal(n) + rest;
    assert s[0] == Decimal(n)[0];
    assert TrimStart(s) == s;
    MagnitudeDecimal(n, rest);
  }

  /** A single decimal digit parses to its value. */
  lemma ParseIntDigit(c: char)
    requires '0' <= c <= '9'
    ensures ParseInt([c]) == Int(c as int - '0' as int)
  {
    var s := [c];
    assert !IsSpace(c);
    assert TrimStart(s) == s;
    assert s[1..] == [];
    assert DigitRun(s, 10) == 1;
    assert s[..1] == s;
    assert s[..0] == [];
    assert DigitsValue(s, 10) == c as int - '0' as int;
    assert Magnitude(s) == Some(c as int - '0' as int);
  }

  /** A string with no decimal digit at all parses to `NaN`. */
  lemma ParseIntNoDigits(s: string)
    requires forall k :: 0 <= k < |s| ==> !('0' <= s[k] <= '9')
    ensures ParseInt(s) == NaN
  {
    var t := TrimStart(s);
    var u := if |t| > 0 && (t[0] == '-' || t[0] == '+') then t[1..] else t;
    assert forall k :: 0 <= k < |u| ==> !('0' <= u[k] <= '9');
  }

  /** Leading white space does not change the result. */
  lemma ParseIntSkipsSpace(c: char, s: string)
    requires IsSpace(c)
    ensures ParseInt([c] + s) == ParseInt(s)
  {
    assert ([c] + s)[1..] == s;
  }

  /** A minus sign negates the digits that follow it. */
  lemma ParseIntNegative(n: nat)
    ensures ParseInt("-" + Decimal(n)) == Int(-(n as int))
  {
    var d := Decimal(n);
    var s := "-" + d;
    assert s[0] == '-';
    assert TrimStart(s) == s;
    assert s[1..] == d + [];
    MagnitudeDecimal(n, []);
    assert Magnitude(s[1..]) == Some(n);
  }
}
