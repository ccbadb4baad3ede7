/** The byte codec of the wire: text crosses the boundary as UTF-8.
    `Encode` is what `TextEncoder`/`String::into_bytes` produce on strings of
    scalar values. `Decode` agrees with `TextDecoder` on well-formed input; on
    ill-formed input it puts one U+FFFD per byte that does not start a
    well-formed sequence, where `TextDecoder` puts one per maximal subpart.
    `Utf16Length` is JavaScript's `String.length`. */
module Utf8 {

  newtype byte = x: int | 0 <= x < 256

  predicate IsContinuation(b: byte) {
    0x80 <= b < 0xC0
  }

  /** The 1 to 4 bytes that encode one Unicode scalar value. */
  function EncodeChar(c: char): (r: seq<byte>)
    ensures 1 <= |r| <= 4
    ensures |r| == 1 <==> (c as int) < 0x80
    ensures |r| == 4 <==> (c as int) >= 0x10000
  {
    var n := c as int;
    if n < 0x80 then [n as byte]
    else if n < 0x800 then [(0xC0 + n / 64) as byte, (0x80 + n % 64) as byte]
    else if n < 0x10000 then
      [(0xE0 + n / 4096) as byte, (0x80 + (n / 64) % 64) as byte, (0x80 + n % 64) as byte]
    else
      [(0xF0 + n / 262144) as byte, (0x80 + (n / 4096) % 64) as byte,
       (0x80 + (n / 64) % 64) as byte, (0x80 + n % 64) as byte]
  }

  function Concat(parts: seq<seq<byte>>): seq<byte>
  {
    if parts == [] then [] else parts[0] + Concat(parts[1..])
  }

  /** The characters' encodings, one after the other. Defined through a
      comprehension rather than by recursion on `s`, so that the verifier
      does not unfold it over every character of a literal message. */
  function Encode(s: string): seq<byte>
  {
    Concat(seq(|s|, i requires 0 <= i < |s| => EncodeChar(s[i])))
  }

  /** `Encode` read as a recursion on the first character. */
  lemma EncodeUnfold(s: string)
    ensures Encode(s) == if s == [] then [] else EncodeChar(s[0]) + Encode(s[1..])
  {
    var parts := seq(|s|, i requires 0 <= i < |s| => EncodeChar(s[i]));
    if s == [] {
      assert parts == [];
    } else {
      assert parts[1..] == seq(|s[1..]|, i requires 0 <= i < |s[1..]| => EncodeChar(s[1..][i]));
    }
  }

  function Cp2(b0: byte, b1: byte): int {
    (b0 as int - 0xC0) * 64 + (b1 as int - 0x80)
  }

  function Cp3(b0: byte, b1: byte, b2: byte): int {
    (b0 as int - 0xE0) * 4096 + (b1 as int - 0x80) * 64 + (b2 as int - 0x80)
  }

  function Cp4(b0: byte, b1: byte, b2: byte, b3: byte): int {
    (b0 as int - 0xF0) * 262144 + (b1 as int - 0x80) * 4096 + (b2 as int - 0x80) * 64 + (b3 as int - 0x80)
  }

  predicate IsScalar(cp: int) {
    (0 <= cp < 0xD800) || (0xE000 <= cp < 0x110000)
  }

  /** The first character of `b` and the number of bytes it takes. */
  function DecodeFirst(b: seq<byte>): (r: (char, nat))
    requires |b| > 0
    ensures 1 <= r.1 <= |b|
  {
    var b0 := b[0];
    if b0 < 0x80 then (b0 as int as char, 1)
    else if 0xC2 <= b0 <= 0xDF && |b| >= 2 && IsContinuation(b[1]) then
      (Cp2(b0, b[1]) as char, 2)
    else if 0xE0 <= b0 <= 0xEF && |b| >= 3 && IsContinuation(b[1]) && IsContinuation(b[2])
         && 0x800 <= Cp3(b0, b[1], b[2]) && IsScalar(Cp3(b0, b[1], b[2])) then
      (Cp3(b0, b[1], b[2]) as char, 3)
    else if 0xF0 <= b0 <= 0xF4 && |b| >= 4 && IsContinuation(b[1]) && IsContinuation(b[2])
         && IsContinuation(b[3]) && 0x10000 <= Cp4(b0, b[1], b[2], b[3]) < 0x110000 then
      (Cp4(b0, b[1], b[2], b[3]) as char, 4)
    else ('\U{FFFD}', 1)
  }

  function Decode(b: seq<byte>): string
    decreases |b|
  {
    if b == [] then []
    else
      var (c, k) := DecodeFirst(b);
      [c] + Decode(b[k..])
  }

  /** The bytes are well-formed UTF-8: decoding loses nothing. */
  predicate IsWellFormed(b: seq<byte>) {
    Encode(Decode(b)) == b
  }

  function Utf16Length(s: string): nat
  {
    if s == [] then 0 else (if (s[0] as int) >= 0x10000 then 2 else 1) + Utf16Length(s[1..])
  }

  predicate IsAscii(s: string) {
    forall i :: 0 <= i < |s| ==> (s[i] as int) < 0x80
  }

  lemma DecodeFirstOfEncodeChar(c: char, rest: seq<byte>)
    ensures DecodeFirst(EncodeChar(c) + rest) == (c, |EncodeChar(c)|)
  {
    var n := c as int;
    var b := EncodeChar(c) + rest;
    if n < 0x80 {
    } else if n < 0x800 {
      assert n == (n / 64) * 64 + n % 64;
      assert Cp2(b[0], b[1]) == n;
    } else if n < 0x10000 {
      var q := n / 64;
      assert n == q * 64 + n % 64;
      assert q == (q / 64) * 64 + q % 64;
      assert q / 64 == n / 4096;
      assert Cp3(b[0], b[1], b[2]) == n;
    } else {
      var q := n / 64;
      var p := q / 64;
      assert n == q * 64 + n % 64;
      assert q == p * 64 + q % 64;
      assert p == (p / 64) * 64 + p % 64;
      assert p == n / 4096;
      assert p / 64 == n / 262144;
      assert Cp4(b[0], b[1], b[2], b[3]) == n;
    }
  }

  /** Decoding bytes that start with one whole character takes that
      character and decodes the rest. */
  lemma DecodeStep(c: char, rest: seq<byte>)
    ensures Decode(EncodeChar(c) + rest) == [c] + Decode(rest)
  {
    var e := EncodeChar(c);
    DecodeFirstOfEncodeChar(c, rest);
    assert (e + rest)[|e|..] == rest;
  }

  /** Decoding what was encoded gives back the text (the codec round trip). */
  lemma {:induction false} DecodeEncode(s: string)
    ensures Decode(Encode(s)) == s
  {
    EncodeUnfold(s);
    if s != [] {
      DecodeStep(s[0], Encode(s[1..]));
      DecodeEncode(s[1..]);
      assert [s[0]] + s[1..] == s;
    }
  }

  /** Whatever the host encodes is well-formed for the native side's
      unchecked `from_utf8_unchecked`. */
  lemma EncodeIsWellFormed(s: string)
    ensures IsWellFormed(Encode(s))
  {
    DecodeEncode(s);
  }

  /** JavaScript's `length` never exceeds the UTF-8 byte length, and the two
      agree exactly on ASCII text. */
  lemma {:induction false} Utf16LengthBound(s: string)
    ensures Utf16Length(s) <= |Encode(s)|
    ensures Utf16Length(s) == |Encode(s)| <==> IsAscii(s)
  {
    EncodeUnfold(s);
    if s != [] {
      Utf16LengthBound(s[1..]);
      if IsAscii(s) {
        assert IsAscii(s[1..]) by {
          forall i | 0 <= i < |s[1..]| ensures (s[1..][i] as int) < 0x80 {
            assert s[1..][i] == s[i + 1];
          }
        }
      }
      if IsAscii(s[1..]) && (s[0] as int) < 0x80 {
        forall i | 0 <= i < |s| ensures (s[i] as int) < 0x80 {
          if i > 0 { assert s[i] == s[1..][i - 1]; }
        }
      }
    }
  }

  /** A one-character string on which the two lengths differ. */
  lemma NonAsciiLengths()
    ensures Utf16Length("\U{E9}") == 1 && |Encode("\U{E9}")| == 2
  {
    assert "\U{E9}"[1..] == [];
    EncodeUnfold("\U{E9}");
    EncodeUnfold([]);
  }
}
