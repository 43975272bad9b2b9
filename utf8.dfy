/** `TextEncoder.encode`: UTF-8, the only encoding a `TextEncoder` produces. A Dafny
    `char` is a Unicode scalar value, so every string here is well formed. */
module Utf8 {
  import opened Wrappers
  import opened Bytes

  /** The one to four bytes that encode one scalar value. */
  function EncodeChar(c: char): (r: seq<byte>)
    ensures 1 <= |r| <= 4 && |r| == SequenceLength(r[0])
    ensures |r| == 1 <==> (c as int) < 0x80
  {
    var n := c as int;
    if n < 0x80 then [n as byte]
    else if n < 0x800 then [(0xC0 + n / 0x40) as byte, (0x80 + n % 0x40) as byte]
    else if n < 0x10000 then
      [(0xE0 + n / 0x1000) as byte, (0x80 + n / 0x40 % 0x40) as byte, (0x80 + n % 0x40) as byte]
    else
      [(0xF0 + n / 0x40000) as byte, (0x80 + n / 0x1000 % 0x40) as byte,
       (0x80 + n / 0x40 % 0x40) as byte, (0x80 + n % 0x40) as byte]
  }

  function Encode(s: string): seq<byte>
  {
    if s == [] then [] else EncodeChar(s[0]) + Encode(s[1..])
  }

  /** How many bytes a sequence starting with lead byte `b` has; 0 for a byte that cannot lead. */
  function SequenceLength(b: byte): nat
  {
    if b < 0x80 then 1
    else if 0xC0 <= b < 0xE0 then 2
    else if 0xE0 <= b < 0xF0 then 3
    else if 0xF0 <= b < 0xF8 then 4
    else 0
  }

  predicate IsContinuation(b: byte)
  {
    0x80 <= b < 0xC0
  }

  /** The least scalar value that needs `k` bytes: a smaller one in `k` bytes is an
      overlong form, which UTF-8 forbids. */
  function MinimumValue(k: nat): nat
  {
    if k <= 1 then 0 else if k == 2 then 0x80 else if k == 3 then 0x800 else 0x10000
  }

  /** The scalar value a sequence of `SequenceLength(b[0])` bytes stands for, if any;
      overlong forms and surrogates stand for none. */
  function DecodeChar(b: seq<byte>): Option<char>
    requires 1 <= |b| <= 4
  {
    var n :=
      if |b| == 1 then b[0] as int
      else if |b| == 2 then (b[0] as int - 0xC0) * 0x40 + (b[1] as int - 0x80)
      else if |b| == 3 then
        (b[0] as int - 0xE0) * 0x1000 + (b[1] as int - 0x80) * 0x40 + (b[2] as int - 0x80)
      else
        (b[0] as int - 0xF0) * 0x40000 + (b[1] as int - 0x80) * 0x1000
        + (b[2] as int - 0x80) * 0x40 + (b[3] as int - 0x80);
    if SequenceLength(b[0]) == |b| && (forall i :: 1 <= i < |b| ==> IsContinuation(b[i]))
       && MinimumValue(|b|) <= n < 0x110000 && !(0xD800 <= n < 0xE000)
    then Some(n as char)
    else None
  }

  /** A UTF-8 decoder, the partner of `Encode`: it refuses overlong forms, surrogates
      and values beyond U+10FFFF. */
  function Decode(b: seq<byte>): Option<string>
    decreases |b|
  {
    if b == [] then Some([])
    else
      var k := SequenceLength(b[0]);
      if k == 0 || |b| < k then None
      else match (DecodeChar(b[..k]), Decode(b[k..]))
        case (Some(c), Some(rest)) => Some([c] + rest)
        case _ => None
  }

  lemma DecodeTwo(n: int)
    requires 0x80 <= n < 0x800
    ensures DecodeChar([(0xC0 + n / 0x40) as byte, (0x80 + n % 0x40) as byte]) == Some(n as char)
  {
    var b: seq<byte> := [(0xC0 + n / 0x40) as byte, (0x80 + n % 0x40) as byte];
    assert IsContinuation(b[1]);
    assert (b[0] as int - 0xC0) * 0x40 + (b[1] as int - 0x80) == n;
  }

  lemma DecodeThree(n: int)
    requires 0x800 <= n < 0x10000 && !(0xD800 <= n < 0xE000)
    ensures DecodeChar([(0xE0 + n / 0x1000) as byte, (0x80 + n / 0x40 % 0x40) as byte,
                        (0x80 + n % 0x40) as byte]) == Some(n as char)
  {
    var b: seq<byte> := [(0xE0 + n / 0x1000) as byte, (0x80 + n / 0x40 % 0x40) as byte,
                         (0x80 + n % 0x40) as byte];
    assert IsContinuation(b[1]) && IsContinuation(b[2]);
    assert n / 0x40 == (n / 0x1000) * 0x40 + n / 0x40 % 0x40;
    assert n == (n / 0x40) * 0x40 + n % 0x40;
    assert (b[0] as int - 0xE0) * 0x1000 + (b[1] as int - 0x80) * 0x40 + (b[2] as int - 0x80) == n;
  }

  lemma DecodeFour(n: int)
    requires 0x10000 <= n < 0x110000
    ensures DecodeChar([(0xF0 + n / 0x40000) as byte, (0x80 + n / 0x1000 % 0x40) as byte,
                        (0x80 + n / 0x40 % 0x40) as byte, (0x80 + n % 0x40) as byte]) == Some(n as char)
  {
    var b: seq<byte> := [(0xF0 + n / 0x40000) as byte, (0x80 + n / 0x1000 % 0x40) as byte,
                         (0x80 + n / 0x40 % 0x40) as byte, (0x80 + n % 0x40) as byte];
    assert IsContinuation(b[1]) && IsContinuation(b[2]) && IsContinuation(b[3]);
    assert n / 0x1000 == (n / 0x40000) * 0x40 + n / 0x1000 % 0x40;
    assert n / 0x40 == (n / 0x1000) * 0x40 + n / 0x40 % 0x40;
    assert n == (n / 0x40) * 0x40 + n % 0x40;
    assert (b[0] as int - 0xF0) * 0x40000 + (b[1] as int - 0x80) * 0x1000
           + (b[2] as int - 0x80) * 0x40 + (b[3] as int - 0x80) == n;
  }

  lemma DecodeEncodeChar(c: char)
    ensures DecodeChar(EncodeChar(c)) == Some(c)
  {
    var n := c as int;
    if n < 0x80 {
    } else if n < 0x800 {
      DecodeTwo(n);
    } else if n < 0x10000 {
      DecodeThree(n);
    } else {
      DecodeFour(n);
    }
  }

  /** The overlong forms of 'A' and of U+0000 decode to nothing. */
  lemma OverlongRefused()
    ensures DecodeChar([0xC1, 0x81]) == None
    ensures DecodeChar([0xE0, 0x80, 0x80]) == None
  {
    var two: seq<byte> := [0xC1, 0x81];
    assert (two[0] as int - 0xC0) * 0x40 + (two[1] as int - 0x80) == 0x41;
    var three: seq<byte> := [0xE0, 0x80, 0x80];
    assert (three[0] as int - 0xE0) * 0x1000 + (three[1] as int - 0x80) * 0x40 + (three[2] as int - 0x80) == 0;
  }

  /** Encoding a concatenation encodes each part: `encode(a + b)` is `encode(a)` then `encode(b)`. */
  lemma {:induction false} EncodeConcat(a: string, b: string)
    ensures Encode(a + b) == Encode(a) + Encode(b)
  {
    if a != [] {
      assert (a + b)[0] == a[0];
      assert (a + b)[1..] == a[1..] + b;
      EncodeConcat(a[1..], b);
    } else {
      assert a + b == b;
    }
  }

  /** Decoding recovers every string that was encoded. */
  lemma {:induction false} DecodeEncode(s: string)
    ensures Decode(Encode(s)) == Some(s)
  {
    if s != [] {
      var e := EncodeChar(s[0]);
      var b := Encode(s);
      assert b == e + Encode(s[1..]);
      assert b[..|e|] == e;
      assert b[|e|..] == Encode(s[1..]);
      DecodeEncodeChar(s[0]);
      DecodeEncode(s[1..]);
      assert [s[0]] + s[1..] == s;
    }
  }

  /** On ASCII text the encoder is the identity per character. */
  lemma {:induction false} EncodeAscii(s: string)
    requires forall i :: 0 <= i < |s| ==> (s[i] as int) < 0x80
    ensures |Encode(s)| == |s|
    ensures forall i :: 0 <= i < |s| ==> Encode(s)[i] as int == s[i] as int
  {
    if s != [] {
      EncodeAscii(s[1..]);
      assert Encode(s) == [s[0] as int as byte] + Encode(s[1..]);
    }
  }
}
