/** Integer <-> string conversions as ECMAScript performs them on the integral
    timestamps the application stores as text: `Number.prototype.toString()`
    (section 6.1.6.1.20 of ECMA-262, for magnitudes below 10^21) and the global
    `parseInt` with no radix (section 19.2.5 of ECMA-262). */
module Numbers {
  import opened Util

  predicate IsDecDigit(c: char) {
    '0' <= c <= '9'
  }

  predicate AllDecDigits(s: string) {
    forall k :: 0 <= k < |s| ==> IsDecDigit(s[k])
  }

  function DigitChar(d: nat): (c: char)
    requires d < 10
    ensures IsDecDigit(c) && c as int - '0' as int == d
  {
    ('0' as int + d) as char
  }

  /** The value of `c` as a digit in base `radix` (10 or 16), or -1. */
  function DigitValue(c: char, radix: nat): (v: int)
    requires radix == 10 || radix == 16
    ensures -1 <= v < radix
    ensures radix == 10 ==> (v >= 0 <==> IsDecDigit(c))
    ensures IsDecDigit(c) ==> v == c as int - '0' as int
  {
    if IsDecDigit(c) then c as int - '0' as int
    else if radix == 16 && 'a' <= c <= 'f' then c as int - 'a' as int + 10
    else if radix == 16 && 'A' <= c <= 'F' then c as int - 'A' as int + 10
    else -1
  }

  /** Decimal digits of `n`, without leading zeros. */
  function NatToString(n: nat): (r: string)
    ensures |r| > 0 && AllDecDigits(r)
    ensures r[0] == '0' ==> r == "0"
  {
    if n < 10 then [DigitChar(n)] else NatToString(n / 10) + [DigitChar(n % 10)]
  }

  /** `String(i)` for an integral number. */
  function IntToString(i: int): (r: string)
    ensures |r| > 0
    ensures i >= 0 ==> AllDecDigits(r)
    ensures i < 0 ==> r[0] == '-' && AllDecDigits(r[1..])
  {
    if i < 0 then "-" + NatToString(-i) else NatToString(i)
  }

  /** Number of leading characters of `s` that are digits in base `radix`. */
  function DigitRun(s: string, radix: nat): (n: nat)
    requires radix == 10 || radix == 16
    ensures n <= |s|
    ensures forall k :: 0 <= k < n ==> DigitValue(s[k], radix) >= 0
    ensures n < |s| ==> DigitValue(s[n], radix) == -1
  {
    if s != [] && DigitValue(s[0], radix) >= 0 then 1 + DigitRun(s[1..], radix) else 0
  }

  /** The number written by a run of digits, most significant first. */
  function RadixValue(s: string, radix: nat): nat
    requires radix == 10 || radix == 16
    requires forall k :: 0 <= k < |s| ==> DigitValue(s[k], radix) >= 0
  {
    if s == [] then 0
    else RadixValue(s[..|s| - 1], radix) * radix + DigitValue(s[|s| - 1], radix)
  }

  /** The digits after the sign: base 16 after a `0x`/`0X` prefix, else base
      10; the longest run of digits is read, and an empty run gives `None`. */
  function ReadUnsigned(u: string): Option<nat> {
    var hex := |u| >= 2 && u[0] == '0' && (u[1] == 'x' || u[1] == 'X');
    var radix := if hex then 16 else 10;
    var v := if hex then u[2..] else u;
    var n := DigitRun(v, radix);
    if n == 0 then None else Some(RadixValue(v[..n], radix))
  }

  /** An optional sign, then the digits. */
  function ReadSigned(t: string): Option<int> {
    if |t| > 0 && t[0] == '-' then
      match ReadUnsigned(t[1..])
      case None => None
      case Some(m) => Some(-(m as int))
    else if |t| > 0 && t[0] == '+' then
      match ReadUnsigned(t[1..])
      case None => None
      case Some(m) => Some(m)
    else
      match ReadUnsigned(t)
      case None => None
      case Some(m) => Some(m)
  }

  /** The global `parseInt(s)` with no radix: leading white space is skipped.
      `None` stands for NaN. */
  function ParseInt(s: string): Option<int> {
    ReadSigned(TrimStart(s))
  }

  lemma {:induction false} RadixValueOfNatToString(n: nat)
    ensures RadixValue(NatToString(n), 10) == n
  {
    var r := NatToString(n);
    if n >= 10 {
      RadixValueOfNatToString(n / 10);
      assert r[..|r| - 1] == NatToString(n / 10);
    }
  }

  /** A digit string followed by nothing is read in full. */
  lemma DigitRunAll(s: string)
    requires AllDecDigits(s)
    ensures DigitRun(s, 10) == |s|
  {
    if s != [] {
      DigitRunAll(s[1..]);
    }
  }

  lemma ReadUnsignedOfNatToString(n: nat)
    ensures ReadUnsigned(NatToString(n)) == Some(n)
  {
    var r := NatToString(n);
    RadixValueOfNatToString(n);
    DigitRunAll(r);
    assert r[..|r|] == r;
  }

  /** Reading back a stored integer gives the integer: `parseInt(String(i)) == i`. */
  lemma ParseIntOfIntToString(i: int)
    ensures ParseInt(IntToString(i)) == Some(i)
  {
    var r := IntToString(i);
    assert !IsSpace(r[0]);
    assert TrimStart(r) == r;
    if i < 0 {
      ReadSignedNegative(-i);
    } else {
      ReadUnsignedOfNatToString(i);
      assert r[0] != '-' && r[0] != '+';
      assert ReadSigned(r) == ReadUnsigned(r);
    }
  }

  lemma ReadSignedNegative(n: nat)
    ensures ReadSigned("-" + NatToString(n)) == Some(-(n as int))
  {
    var r := "-" + NatToString(n);
    ReadUnsignedOfNatToString(n);
    assert r[1..] == NatToString(n);
  }

  /** A run of digits stops at the first character that is not one. */
  lemma {:induction false} DigitRunStops(d: string, rest: string)
    requires AllDecDigits(d) && (rest == [] || !IsDecDigit(rest[0]))
    ensures DigitRun(d + rest, 10) == |d|
  {
    if d != [] {
      assert (d + rest)[1..] == d[1..] + rest;
      DigitRunStops(d[1..], rest);
    } else {
      assert d + rest == rest;
    }
  }

  /** `parseInt` reads a written number back from the front of a text when
      the number is followed by something that cannot continue it. */
  lemma ParseIntOfPrefix(n: nat, rest: string)
    requires rest == [] || (!IsDecDigit(rest[0]) && rest[0] != 'x' && rest[0] != 'X')
    ensures ParseInt(NatToString(n) + rest) == Some(n)
  {
    var d := NatToString(n);
    var u := d + rest;
    assert u[0] == d[0];
    assert !IsSpace(u[0]);
    assert TrimStart(u) == u;
    assert u[0] != '-' && u[0] != '+';
    assert !(|u| >= 2 && u[0] == '0' && (u[1] == 'x' || u[1] == 'X')) by {
      if |u| >= 2 && u[0] == '0' {
        assert d == "0";
        assert u[1] == rest[0];
      }
    }
    DigitRunStops(d, rest);
    assert u[..|d|] == d;
    RadixValueOfNatToString(n);
  }

  /** Leading white space does not change what `parseInt` reads. */
  lemma ParseIntSkipsSpace(w: string, s: string)
    requires AllSpace(w)
    ensures ParseInt(w + s) == ParseInt(s)
  {
    TrimStartSkipsSpace(w, s);
  }
}
