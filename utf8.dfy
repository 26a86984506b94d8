/** Python's `bytes.decode('utf-8', errors='ignore')`: well-formed UTF-8
    sequences become their characters, every byte that does not start a
    well-formed sequence is dropped. */
module Utf8 {

  newtype byte = x: int | 0 <= x < 256

  predicate IsContinuation(x: byte)
  {
    0x80 <= x <= 0xBF
  }

  /** The second byte of a three-byte sequence (no overlong forms, no surrogates). */
  predicate SecondOf3(b0: byte, b1: byte)
  {
    if b0 == 0xE0 then 0xA0 <= b1 <= 0xBF
    else if b0 == 0xED then 0x80 <= b1 <= 0x9F
    else IsContinuation(b1)
  }

  /** The second byte of a four-byte sequence (no overlong forms, nothing past U+10FFFF). */
  predicate SecondOf4(b0: byte, b1: byte)
  {
    if b0 == 0xF0 then 0x90 <= b1 <= 0xBF
    else if b0 == 0xF4 then 0x80 <= b1 <= 0x8F
    else IsContinuation(b1)
  }

  /** Length of the well-formed sequence at the start of `b`, or 0 if there is none. */
  function WellFormedLength(b: seq<byte>): (n: nat)
    ensures n <= |b| && n <= 4
    ensures |b| > 0 && b[0] <= 0x7F ==> n == 1
  {
    if |b| == 0 then 0
    else if b[0] <= 0x7F then 1
    else if 0xC2 <= b[0] <= 0xDF then
      if |b| >= 2 && IsContinuation(b[1]) then 2 else 0
    else if 0xE0 <= b[0] <= 0xEF then
      if |b| >= 3 && SecondOf3(b[0], b[1]) && IsContinuation(b[2]) then 3 else 0
    else if 0xF0 <= b[0] <= 0xF4 then
      if |b| >= 4 && SecondOf4(b[0], b[1]) && IsContinuation(b[2]) && IsContinuation(b[3]) then 4 else 0
    else 0
  }

  predicate IsScalar(cp: int)
  {
    0 <= cp < 0xD800 || 0xE000 <= cp < 0x110000
  }

  /** The code point a well-formed sequence encodes: always a Unicode scalar value. */
  function ScalarAt(b: seq<byte>): (cp: int)
    requires WellFormedLength(b) > 0
    ensures IsScalar(cp)
  {
    var n := WellFormedLength(b);
    if n == 1 then b[0] as int
    else if n == 2 then (b[0] as int - 0xC0) * 64 + (b[1] as int - 0x80)
    else if n == 3 then (b[0] as int - 0xE0) * 4096 + (b[1] as int - 0x80) * 64 + (b[2] as int - 0x80)
    else (b[0] as int - 0xF0) * 262144 + (b[1] as int - 0x80) * 4096 + (b[2] as int - 0x80) * 64 + (b[3] as int - 0x80)
  }

  /** `bytes.decode('utf-8', errors='ignore')`; it never produces more
      characters than there are bytes. */
  function DecodeIgnore(b: seq<byte>): (r: string)
    ensures |r| <= |b|
    decreases |b|
  {
    if |b| == 0 then ""
    else
      var n := WellFormedLength(b);
      if n == 0 then DecodeIgnore(b[1..])
      else [ScalarAt(b) as char] + DecodeIgnore(b[n..])
  }

  /** The UTF-8 encoding of one character. */
  function EncodeChar(ch: char): (r: seq<byte>)
    ensures 1 <= |r| <= 4
  {
    var n := ch as int;
    if n < 0x80 then [n as byte]
    else if n < 0x800 then [(0xC0 + n / 64) as byte, (0x80 + n % 64) as byte]
    else if n < 0x10000 then
      [(0xE0 + n / 4096) as byte, (0x80 + (n / 64) % 64) as byte, (0x80 + n % 64) as byte]
    else
      [(0xF0 + n / 262144) as byte, (0x80 + (n / 4096) % 64) as byte,
       (0x80 + (n / 64) % 64) as byte, (0x80 + n % 64) as byte]
  }

  /** The UTF-8 encoding of a string, as Python's `s.encode('utf-8')`. */
  function Encode(s: string): seq<byte>
  {
    if |s| == 0 then [] else EncodeChar(s[0]) + Encode(s[1..])
  }

  lemma TwoByteForm(n: int)
    requires 0x80 <= n < 0x800
    ensures 0xC2 <= 0xC0 + n / 64 <= 0xDF && 0 <= n % 64 < 64
    ensures (n / 64) * 64 + n % 64 == n
  {
  }

  lemma ThreeByteForm(n: int)
    requires 0x800 <= n < 0x10000 && IsScalar(n)
    ensures 0xE0 <= 0xE0 + n / 4096 <= 0xEF && 0 <= (n / 64) % 64 < 64 && 0 <= n % 64 < 64
    ensures n / 4096 == 0 ==> (n / 64) % 64 >= 0x20
    ensures n / 4096 == 0xD ==> (n / 64) % 64 < 0x20
    ensures (n / 4096) * 4096 + ((n / 64) % 64) * 64 + n % 64 == n
  {
    var q := n / 64;
    assert q * 64 + n % 64 == n;
    assert (q / 64) * 64 + q % 64 == q;
    assert q / 64 == n / 4096;
  }

  lemma FourByteForm(n: int)
    requires 0x10000 <= n < 0x110000
    ensures 0xF0 <= 0xF0 + n / 262144 <= 0xF4
    ensures 0 <= (n / 4096) % 64 < 64 && 0 <= (n / 64) % 64 < 64 && 0 <= n % 64 < 64
    ensures n / 262144 == 0 ==> (n / 4096) % 64 >= 0x10
    ensures n / 262144 == 4 ==> (n / 4096) % 64 < 0x10
    ensures (n / 262144) * 262144 + ((n / 4096) % 64) * 4096 + ((n / 64) % 64) * 64 + n % 64 == n
  {
    var q := n / 64;
    var p := q / 64;
    assert q * 64 + n % 64 == n;
    assert p * 64 + q % 64 == q;
    assert (p / 64) * 64 + p % 64 == p;
    assert p == n / 4096;
    assert p / 64 == n / 262144;
  }

  /** An encoded character is one well-formed sequence, whatever follows it,
      and it decodes to that character. */
  lemma EncodeCharWellFormed(ch: char, rest: seq<byte>)
    ensures WellFormedLength(EncodeChar(ch) + rest) == |EncodeChar(ch)|
    ensures ScalarAt(EncodeChar(ch) + rest) == ch as int
  {
    var e := EncodeChar(ch);
    var b := e + rest;
    var n := ch as int;
    if n < 0x80 {
      assert b[0] as int == n;
    } else if n < 0x800 {
      TwoByteForm(n);
      assert b[0] as int == 0xC0 + n / 64 && b[1] as int == 0x80 + n % 64;
    } else if n < 0x10000 {
      ThreeByteForm(n);
      assert b[0] as int == 0xE0 + n / 4096;
      assert b[1] as int == 0x80 + (n / 64) % 64;
      assert b[2] as int == 0x80 + n % 64;
    } else {
      FourByteForm(n);
      assert b[0] as int == 0xF0 + n / 262144;
      assert b[1] as int == 0x80 + (n / 4096) % 64;
      assert b[2] as int == 0x80 + (n / 64) % 64;
      assert b[3] as int == 0x80 + n % 64;
    }
  }

  /** Decoding with errors ignored inverts encoding: a well-formed input
      loses nothing. */
  lemma {:induction false} DecodeEncode(s: string)
    ensures DecodeIgnore(Encode(s)) == s
  {
    if |s| > 0 {
      var e := EncodeChar(s[0]);
      var rest := Encode(s[1..]);
      EncodeCharWellFormed(s[0], rest);
      assert (e + rest)[|e|..] == rest;
      DecodeEncode(s[1..]);
      assert [s[0]] + s[1..] == s;
    }
  }

  /** A byte that cannot start a sequence is dropped. */
  lemma DropsInvalidStart(x: byte, rest: seq<byte>)
    requires 0x80 <= x <= 0xC1 || 0xF5 <= x
    ensures DecodeIgnore([x] + rest) == DecodeIgnore(rest)
  {
    assert ([x] + rest)[1..] == rest;
  }
}
