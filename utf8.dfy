/**
 * The two byte decoders the resume extractor uses: `bytes.decode("utf-8",
 * errors="ignore")` and `bytes.decode("latin-1")`, with a UTF-8 encoder as the
 * reference they are checked against.
 *
 * With errors ignored, CPython's UTF-8 decoder drops the maximal ill-formed
 * subpart at each error; dropping one byte and resuming gives the same text,
 * because the rest of such a subpart is continuation bytes, which cannot start
 * a sequence and are dropped one by one in turn.
 */
module Utf8 {

  type Byte = b: int | 0 <= b < 256

  predicate IsContinuation(b: Byte) {
    0x80 <= b <= 0xBF
  }

  /** A Unicode scalar value: a code point that is not a surrogate. */
  predicate IsScalar(cp: int) {
    (0 <= cp < 0xD800) || (0xE000 <= cp < 0x110000)
  }

  /**
   * The length of the well-formed UTF-8 sequence at the front of `bs`, or 0
   * when there is none (the byte ranges of table 3-7 of the Unicode Standard).
   */
  function SequenceLength(bs: seq<Byte>): (n: nat)
    ensures n <= 4 && n <= |bs|
    ensures bs != [] && bs[0] < 0x80 ==> n == 1
  {
    if bs == [] then 0
    else if bs[0] < 0x80 then 1
    else if 0xC2 <= bs[0] <= 0xDF then
      (if |bs| >= 2 && IsContinuation(bs[1]) then 2 else 0)
    else if 0xE0 <= bs[0] <= 0xEF then
      (if |bs| >= 3 && IsContinuation(bs[1]) && IsContinuation(bs[2])
          && (bs[0] != 0xE0 || bs[1] >= 0xA0) && (bs[0] != 0xED || bs[1] <= 0x9F)
       then 3 else 0)
    else if 0xF0 <= bs[0] <= 0xF4 then
      (if |bs| >= 4 && IsContinuation(bs[1]) && IsContinuation(bs[2]) && IsContinuation(bs[3])
          && (bs[0] != 0xF0 || bs[1] >= 0x90) && (bs[0] != 0xF4 || bs[1] <= 0x8F)
       then 4 else 0)
    else 0
  }

  /** The code point of the well-formed sequence at the front of `bs`. */
  function CodePoint(bs: seq<Byte>): (cp: int)
    requires SequenceLength(bs) > 0
    ensures IsScalar(cp)
  {
    var n := SequenceLength(bs);
    var b0: int := bs[0];
    if n == 1 then b0
    else if n == 2 then (b0 - 0xC0) * 64 + (bs[1] as int - 0x80)
    else if n == 3 then (b0 - 0xE0) * 4096 + (bs[1] as int - 0x80) * 64 + (bs[2] as int - 0x80)
    else (b0 - 0xF0) * 262144 + (bs[1] as int - 0x80) * 4096 + (bs[2] as int - 0x80) * 64 + (bs[3] as int - 0x80)
  }

  /** `bs.decode("utf-8", errors="ignore")`. */
  function DecodeIgnore(bs: seq<Byte>): (s: string)
    ensures |s| <= |bs|
    decreases |bs|
  {
    if bs == [] then ""
    else
      var n := SequenceLength(bs);
      if n == 0 then DecodeIgnore(bs[1..])
      else [CodePoint(bs) as char] + DecodeIgnore(bs[n..])
  }

  /** `bs.decode("latin-1")`: every byte is the character with the same number. */
  function Latin1(bs: seq<Byte>): (s: string)
    ensures |s| == |bs|
    ensures forall i :: 0 <= i < |bs| ==> s[i] as int == bs[i]
  {
    seq(|bs|, i requires 0 <= i < |bs| => bs[i] as char)
  }

  predicate IsAscii(bs: seq<Byte>) {
    forall i :: 0 <= i < |bs| ==> bs[i] < 0x80
  }

  /** On ASCII bytes the two decoders agree. */
  lemma {:induction false} AsciiDecodesAlike(bs: seq<Byte>)
    requires IsAscii(bs)
    ensures DecodeIgnore(bs) == Latin1(bs)
    decreases |bs|
  {
    if bs != [] {
      AsciiDecodesAlike(bs[1..]);
      assert Latin1(bs) == [bs[0] as char] + Latin1(bs[1..]);
    }
  }

  /** The UTF-8 encoding of one character. */
  function EncodeChar(c: char): (bs: seq<Byte>)
    ensures 1 <= |bs| <= 4
  {
    var cp := c as int;
    if cp < 0x80 then [cp]
    else if cp < 0x800 then [0xC0 + cp / 64, 0x80 + cp % 64]
    else if cp < 0x10000 then [0xE0 + cp / 4096, 0x80 + (cp / 64) % 64, 0x80 + cp % 64]
    else [0xF0 + cp / 262144, 0x80 + (cp / 4096) % 64, 0x80 + (cp / 64) % 64, 0x80 + cp % 64]
  }

  /** `s.encode("utf-8")`. */
  function Encode(s: string): (bs: seq<Byte>)
    ensures |s| <= |bs| <= 4 * |s|
  {
    if s == [] then [] else EncodeChar(s[0]) + Encode(s[1..])
  }

  lemma TwoByteDigits(cp: int)
    requires 0x80 <= cp < 0x800
    ensures 0xC2 <= 0xC0 + cp / 64 <= 0xDF && 0 <= cp % 64 < 64
    ensures (cp / 64) * 64 + cp % 64 == cp
  {
  }

  lemma ThreeByteDigits(cp: int)
    requires 0x800 <= cp < 0x10000
    ensures 0xE0 <= 0xE0 + cp / 4096 <= 0xEF && 0 <= (cp / 64) % 64 < 64 && 0 <= cp % 64 < 64
    ensures cp / 4096 == 0 ==> (cp / 64) % 64 >= 0x20
    ensures cp / 4096 == 0xD && IsScalar(cp) ==> (cp / 64) % 64 < 0x20
    ensures (cp / 4096) * 4096 + ((cp / 64) % 64) * 64 + cp % 64 == cp
  {
    var q := cp / 64;
    assert q / 64 == cp / 4096;
    assert cp == q * 64 + cp % 64;
    assert q == (q / 64) * 64 + q % 64;
  }

  lemma FourByteDigits(cp: int)
    requires 0x10000 <= cp < 0x110000
    ensures 0xF0 <= 0xF0 + cp / 262144 <= 0xF4
    ensures 0 <= (cp / 4096) % 64 < 64 && 0 <= (cp / 64) % 64 < 64 && 0 <= cp % 64 < 64
    ensures cp / 262144 == 0 ==> (cp / 4096) % 64 >= 0x10
    ensures cp / 262144 == 4 ==> (cp / 4096) % 64 < 0x10
    ensures (cp / 262144) * 262144 + ((cp / 4096) % 64) * 4096 + ((cp / 64) % 64) * 64 + cp % 64 == cp
  {
    var q := cp / 64;
    var r := q / 64;
    assert r == cp / 4096;
    assert r / 64 == cp / 262144;
    assert cp == q * 64 + cp % 64;
    assert q == r * 64 + q % 64;
    assert r == (r / 64) * 64 + r % 64;
  }

  /** The encoding of a character is one well-formed sequence, whatever follows it, and decodes back to it. */
  lemma EncodeCharDecodes(c: char, rest: seq<Byte>)
    ensures SequenceLength(EncodeChar(c) + rest) == |EncodeChar(c)|
    ensures CodePoint(EncodeChar(c) + rest) == c as int
  {
    var cp := c as int;
    var bs := EncodeChar(c) + rest;
    if cp < 0x80 {
    } else if cp < 0x800 {
      TwoByteDigits(cp);
      assert bs[0] == 0xC0 + cp / 64 && bs[1] == 0x80 + cp % 64;
    } else if cp < 0x10000 {
      ThreeByteDigits(cp);
      assert bs[0] == 0xE0 + cp / 4096 && bs[1] == 0x80 + (cp / 64) % 64 && bs[2] == 0x80 + cp % 64;
    } else {
      FourByteDigits(cp);
      assert bs[0] == 0xF0 + cp / 262144 && bs[1] == 0x80 + (cp / 4096) % 64
          && bs[2] == 0x80 + (cp / 64) % 64 && bs[3] == 0x80 + cp % 64;
    }
  }

  /** Decoding, errors ignored, undoes encoding: valid UTF-8 loses nothing. */
  lemma {:induction false} DecodeEncode(s: string)
    ensures DecodeIgnore(Encode(s)) == s
  {
    if s != [] {
      var head := EncodeChar(s[0]);
      var rest := Encode(s[1..]);
      EncodeCharDecodes(s[0], rest);
      assert (head + rest)[|head|..] == rest;
      DecodeEncode(s[1..]);
    }
  }

  /** A byte that cannot start a sequence is dropped and nothing else changes. */
  lemma DecodeSkipsInvalidStart(b: Byte, rest: seq<Byte>)
    requires IsContinuation(b) || b == 0xC0 || b == 0xC1 || b >= 0xF5
    ensures DecodeIgnore([b] + rest) == DecodeIgnore(rest)
  {
    assert ([b] + rest)[1..] == rest;
  }
}
