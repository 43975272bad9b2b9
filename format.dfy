/** The host's number and string formatting that the receipt uses: `${n}` for an
    integer, `String.prototype.padEnd` and `Number.prototype.toFixed(2)`. Amounts
    are whole cents, so `toFixed(2)` is exact here. */
module Format {
  import opened Wrappers

  predicate IsDigit(c: char)
  {
    '0' <= c <= '9'
  }

  predicate AllDigits(s: string)
  {
    forall i :: 0 <= i < |s| ==> IsDigit(s[i])
  }

  function DigitChar(d: nat): (c: char)
    requires d < 10
    ensures IsDigit(c) && (c as int) - ('0' as int) == d
  {
    ('0' as int + d) as char
  }

  /** Decimal notation of a non-negative integer, without leading zeros. */
  function NatToString(n: nat): (r: string)
    ensures |r| >= 1 && AllDigits(r)
    ensures r[0] == '0' ==> n == 0
  {
    if n < 10 then [DigitChar(n)] else NatToString(n / 10) + [DigitChar(n % 10)]
  }

  /** `${i}` for an integer-valued number. */
  function IntToString(i: int): (r: string)
  {
    if i < 0 then "-" + NatToString(-i) else NatToString(i)
  }

  /** The value of a string of decimal digits. */
  function ParseNat(s: string): nat
    requires AllDigits(s)
  {
    if s == [] then 0 else 10 * ParseNat(s[..|s| - 1]) + ((s[|s| - 1] as int) - ('0' as int))
  }

  lemma {:induction false} ParseNatToString(n: nat)
    ensures ParseNat(NatToString(n)) == n
  {
    if n >= 10 {
      var s := NatToString(n);
      assert s[..|s| - 1] == NatToString(n / 10);
      ParseNatToString(n / 10);
    }
  }

  /** Reads back an integer written by `IntToString`: an optional minus sign, then digits. */
  function ParseInt(s: string): Option<int>
  {
    if |s| > 1 && s[0] == '-' && AllDigits(s[1..]) then Some(-(ParseNat(s[1..]) as int))
    else if |s| > 0 && AllDigits(s) then Some(ParseNat(s))
    else None
  }

  /** `${i}` loses nothing: negative integers carry a minus sign, the rest read back as digits. */
  lemma ParseIntToString(i: int)
    ensures ParseInt(IntToString(i)) == Some(i)
  {
    if i < 0 {
      var digits := NatToString(-i);
      ParseNatToString(-i);
      assert IntToString(i) == "-" + digits;
      assert ("-" + digits)[1..] == digits;
    } else {
      var digits := NatToString(i);
      ParseNatToString(i);
      assert IntToString(i) == digits && IsDigit(digits[0]);
    }
  }

  /** `s.padEnd(width)`: `s` followed by spaces up to `width` characters; a longer
      `s` is returned whole. */
  function PadEnd(s: string, width: nat): (r: string)
    ensures |r| == if |s| < width then width else |s|
    ensures r[..|s|] == s
    ensures forall i :: |s| <= i < |r| ==> r[i] == ' '
    decreases width - |s|
  {
    if |s| >= width then s else PadEnd(s + " ", width)
  }

  /** Two digits for a number of cents below 100. */
  function TwoDigits(c: nat): (r: string)
    requires c < 100
  {
    [DigitChar(c / 10), DigitChar(c % 10)]
  }

  /** `toFixed(2)` of a non-negative amount of `m` cents: units, a point, two digits. */
  function UnsignedFixed(m: nat): string
  {
    NatToString(m / 100) + "." + TwoDigits(m % 100)
  }

  /** `(cents / 100).toFixed(2)`: a minus sign for a negative amount, then its magnitude. */
  function FixedCents(cents: int): (r: string)
  {
    if cents < 0 then "-" + UnsignedFixed(-cents) else UnsignedFixed(cents)
  }

  /** Digits, a point and exactly two decimal digits. */
  predicate FixedShape(u: string)
  {
    && |u| >= 4 && u[|u| - 3] == '.'
    && IsDigit(u[|u| - 2]) && IsDigit(u[|u| - 1])
    && AllDigits(u[..|u| - 3])
  }

  lemma UnsignedFixedShape(m: nat)
    ensures var u := UnsignedFixed(m);
      && FixedShape(u) && IsDigit(u[0])
      && u[..|u| - 3] == NatToString(m / 100)
      && u[|u| - 2..] == TwoDigits(m % 100)
  {
    var units := NatToString(m / 100);
    var u := UnsignedFixed(m);
    assert u[..|u| - 3] == units;
    assert u[|u| - 2..] == TwoDigits(m % 100);
    assert u[0] == units[0];
  }

  /** A minus sign in front keeps the shape of the digits behind it. */
  lemma SignedShape(u: string)
    requires FixedShape(u)
    ensures var r := "-" + u;
      && |r| >= 4 && r[|r| - 3] == '.' && IsDigit(r[|r| - 2]) && IsDigit(r[|r| - 1])
      && r[0] == '-' && AllDigits(r[1..|r| - 3])
  {
    var r := "-" + u;
    assert r[1..|r| - 3] == u[..|u| - 3];
  }

  /** Every amount reads as digits, a point and exactly two decimal digits,
      behind a minus sign exactly when it is negative. */
  lemma FixedCentsShape(cents: int)
    ensures var r := FixedCents(cents);
      && |r| >= 4
      && r[|r| - 3] == '.' && IsDigit(r[|r| - 2]) && IsDigit(r[|r| - 1])
      && (r[0] == '-' <==> cents < 0)
      && AllDigits(if cents < 0 then r[1..|r| - 3] else r[..|r| - 3])
  {
    if cents < 0 {
      UnsignedFixedShape(-cents);
      SignedShape(UnsignedFixed(-cents));
    } else {
      UnsignedFixedShape(cents);
    }
  }

  /** Reads back an amount written by `FixedCents`. */
  function ParseFixedCents(s: string): Option<int>
  {
    var neg := |s| > 0 && s[0] == '-';
    var body := if neg then s[1..] else s;
    if |body| >= 4 && body[|body| - 3] == '.' && AllDigits(body[..|body| - 3]) && AllDigits(body[|body| - 2..])
    then
      var m := 100 * ParseNat(body[..|body| - 3]) + ParseNat(body[|body| - 2..]);
      Some(if neg then -m else m)
    else None
  }

  lemma ParseTwoDigits(c: nat)
    requires c < 100
    ensures AllDigits(TwoDigits(c)) && ParseNat(TwoDigits(c)) == c
  {
    var t := TwoDigits(c);
    assert t[..1] == [t[0]] && [t[0]][..0] == [];
    assert ParseNat([t[0]]) == c / 10;
  }

  /** Reading back `units.dd`, with or without a leading minus sign. */
  lemma ParseUnsignedFixed(m: nat, neg: bool)
    ensures ParseFixedCents(if neg then "-" + UnsignedFixed(m) else UnsignedFixed(m))
         == Some(if neg then -(m as int) else m as int)
  {
    var u := UnsignedFixed(m);
    UnsignedFixedShape(m);
    ParseNatToString(m / 100);
    ParseTwoDigits(m % 100);
    assert 100 * ParseNat(u[..|u| - 3]) + ParseNat(u[|u| - 2..]) == m;
    if neg {
      assert ("-" + u)[1..] == u;
    }
  }

  /** `toFixed(2)` loses nothing on whole cents. */
  lemma FixedCentsRoundTrip(cents: int)
    ensures ParseFixedCents(FixedCents(cents)) == Some(cents)
  {
    if cents < 0 {
      ParseUnsignedFixed(-cents, true);
    } else {
      ParseUnsignedFixed(cents, false);
    }
  }
}
