/**
 * asciiToString: the arithmetic UTF-8 encoder of ArabCoverHelper, and a
 * decoder written from section 3 of RFC 3629 that serves as its partner.
 */
module Utf8 {
  import opened Options

  newtype byte = x: int | 0 <= x < 256

  /** PHP's chr() keeps its argument modulo 256. */
  function Chr(x: int): (r: byte)
    ensures (x - r as int) % 256 == 0
    ensures 0 <= x < 256 ==> r as int == x
  {
    (x % 256) as byte
  }

  /**
   * asciiToString: one byte below 0x80, two below 0x800, three otherwise,
   * every byte after the first a continuation byte. There is no four-byte
   * form: from 0x10000 to 0x1FFFF the lead byte is 0xF0 to 0xFF, from
   * 0x20000 on chr() wraps it, and in neither case is the result UTF-8.
   * The lemmas below speak of scalar values under 0x10000, so surrogates
   * are excluded as well.
   */
  function AsciiToString(code: nat): (r: seq<byte>)
    ensures |r| == (if code < 0x80 then 1 else if code < 0x800 then 2 else 3)
  {
    if code < 128 then
      [Chr(code)]
    else if code < 2048 then
      [Chr(192 + (code - code % 64) / 64), Chr(128 + code % 64)]
    else
      [Chr(224 + (code - code % 4096) / 4096),
       Chr(128 + (code % 4096 - code % 64) / 64),
       Chr(128 + code % 64)]
  }

  predicate IsContinuation(b: byte)
  {
    0x80 <= b <= 0xBF
  }

  /** A Unicode scalar value: not a surrogate, at most 0x10FFFF. */
  predicate IsScalar(code: nat)
  {
    code <= 0x10FFFF && !(0xD800 <= code <= 0xDFFF)
  }

  /**
   * Decodes one character of one to three bytes as section 3 of RFC 3629
   * requires: no overlong form, no surrogate, continuation bytes 10xxxxxx.
   */
  function Decode(b: seq<byte>): Option<nat>
  {
    if |b| == 1 && b[0] < 0x80 then
      Some(b[0] as nat)
    else if |b| == 2 && 0xC2 <= b[0] <= 0xDF && IsContinuation(b[1]) then
      Some((b[0] as nat - 0xC0) * 64 + (b[1] as nat - 0x80))
    else if |b| == 3 && 0xE0 <= b[0] <= 0xEF && IsContinuation(b[1]) && IsContinuation(b[2])
            && (b[0] == 0xE0 ==> b[1] >= 0xA0) && (b[0] == 0xED ==> b[1] <= 0x9F) then
      Some((b[0] as nat - 0xE0) * 4096 + (b[1] as nat - 0x80) * 64 + (b[2] as nat - 0x80))
    else
      None
  }

  /** The byte count and the bit layout of each byte, for every code below 0x10000. */
  lemma AsciiToStringLayout(code: nat)
    requires code < 0x10000
    ensures var r := AsciiToString(code);
      && (code < 0x80 ==> r == [code as byte])
      && (0x80 <= code < 0x800 ==>
            r == [(0xC0 + code / 64) as byte, (0x80 + code % 64) as byte])
      && (0x800 <= code ==>
            r == [(0xE0 + code / 4096) as byte, (0x80 + code % 4096 / 64) as byte, (0x80 + code % 64) as byte])
      && (forall k :: 1 <= k < |r| ==> IsContinuation(r[k]))
  {
    if 0x80 <= code < 0x800 {
      TwoByteLayout(code);
    } else if 0x800 <= code {
      ThreeByteLayout(code);
    }
  }

  /** The two-byte case of AsciiToStringLayout. */
  lemma TwoByteLayout(code: nat)
    requires 0x80 <= code < 0x800
    ensures AsciiToString(code) == [(0xC0 + code / 64) as byte, (0x80 + code % 64) as byte]
  {
    assert code - code % 64 == 64 * (code / 64);
  }

  /** The three-byte case of AsciiToStringLayout. */
  lemma ThreeByteLayout(code: nat)
    requires 0x800 <= code < 0x10000
    ensures AsciiToString(code) ==
      [(0xE0 + code / 4096) as byte, (0x80 + code % 4096 / 64) as byte, (0x80 + code % 64) as byte]
  {
    assert code - code % 4096 == 4096 * (code / 4096);
    assert code % 4096 - code % 64 == 64 * (code % 4096 / 64) by {
      assert code % 4096 % 64 == code % 64;
    }
  }

  /** Decoding what asciiToString wrote gives the code back, for every scalar value below 0x10000. */
  lemma AsciiToStringRoundTrip(code: nat)
    requires code < 0x10000 && IsScalar(code)
    ensures Decode(AsciiToString(code)) == Some(code)
  {
    AsciiToStringLayout(code);
    if 0x800 <= code {
      assert code == 4096 * (code / 4096) + 64 * (code % 4096 / 64) + code % 64;
    }
  }

  /** The other direction: every well-formed sequence of one to three bytes is what asciiToString writes for its code. */
  lemma DecodeThenEncode(b: seq<byte>, code: nat)
    requires Decode(b) == Some(code)
    ensures code < 0x10000 && IsScalar(code)
    ensures AsciiToString(code) == b
  {
    if |b| == 2 {
      var hi, lo := b[0] as nat - 0xC0, b[1] as nat - 0x80;
      assert code == 64 * hi + lo && lo < 64;
      assert code / 64 == hi && code % 64 == lo;
    } else if |b| == 3 {
      var hi, mid, lo := b[0] as nat - 0xE0, b[1] as nat - 0x80, b[2] as nat - 0x80;
      assert code == 4096 * hi + 64 * mid + lo && mid < 64 && lo < 64;
      assert code / 4096 == hi && code % 4096 == 64 * mid + lo;
      assert (64 * mid + lo) / 64 == mid && code % 64 == lo;
    }
    AsciiToStringLayout(code);
  }

  /** Codes that asciiToString writes as well-formed UTF-8: scalar values below 0x10000. */
  predicate BmpScalars(codes: seq<nat>)
  {
    forall k :: 0 <= k < |codes| ==> codes[k] < 0x10000 && IsScalar(codes[k])
  }

  /** implode() of asciiToString over a list of codes: the bytes convert returns. */
  function Encode(codes: seq<nat>): seq<byte>
    decreases |codes|
  {
    if codes == [] then [] else Encode(codes[..|codes| - 1]) + AsciiToString(codes[|codes| - 1])
  }

  /** The length of the UTF-8 sequence that starts with lead, 0 for a byte that cannot lead one of one to three bytes. */
  function SequenceLength(lead: byte): nat
  {
    if lead < 0x80 then 1
    else if 0xC0 <= lead <= 0xDF then 2
    else if 0xE0 <= lead <= 0xEF then 3
    else 0
  }

  /** Splits a byte string into characters of one to three bytes and decodes each of them. */
  function DecodeAll(b: seq<byte>): Option<seq<nat>>
    decreases |b|
  {
    if b == [] then Some([])
    else
      var n := SequenceLength(b[0]);
      if n == 0 || n > |b| then None
      else match Decode(b[..n])
        case None => None
        case Some(c) =>
          match DecodeAll(b[n..])
          case None => None
          case Some(rest) => Some([c] + rest)
  }

  /** Every code takes one to three bytes. */
  lemma {:induction false} EncodeLength(codes: seq<nat>)
    ensures |codes| <= |Encode(codes)| <= 3 * |codes|
    decreases |codes|
  {
    if codes != [] {
      EncodeLength(codes[..|codes| - 1]);
    }
  }

  /** Encoding a concatenation encodes each part. */
  lemma {:induction false} EncodeAppend(a: seq<nat>, b: seq<nat>)
    ensures Encode(a + b) == Encode(a) + Encode(b)
    decreases |b|
  {
    if b == [] {
      assert a + b == a;
    } else {
      var b' := b[..|b| - 1];
      assert a + b == (a + b') + [b[|b| - 1]];
      assert (a + b)[..|a + b| - 1] == a + b';
      EncodeAppend(a, b');
    }
  }

  /** The first code of a list is encoded first. */
  lemma EncodeCons(x: nat, rest: seq<nat>)
    ensures Encode([x] + rest) == AsciiToString(x) + Encode(rest)
  {
    EncodeAppend([x], rest);
    assert [x][..0] == [];
  }

  /** Decoding what convert's encoder wrote gives the codes back, for scalar values below 0x10000. */
  lemma {:induction false} EncodeRoundTrip(codes: seq<nat>)
    requires BmpScalars(codes)
    ensures DecodeAll(Encode(codes)) == Some(codes)
    decreases |codes|
  {
    if codes != [] {
      var x, rest := codes[0], codes[1..];
      assert codes == [x] + rest;
      EncodeCons(x, rest);
      var b, e := Encode(codes), AsciiToString(x);
      AsciiToStringLayout(x);
      AsciiToStringRoundTrip(x);
      assert b[..|e|] == e && b[|e|..] == Encode(rest);
      assert SequenceLength(b[0]) == |e|;
      EncodeRoundTrip(rest);
    }
  }

  /** The other direction: a byte string that decodes is what the encoder writes for its codes. */
  lemma {:induction false} DecodeAllThenEncode(b: seq<byte>)
    requires DecodeAll(b).Some?
    ensures Encode(DecodeAll(b).value) == b
    decreases |b|
  {
    if b != [] {
      var n := SequenceLength(b[0]);
      var c := Decode(b[..n]).value;
      DecodeThenEncode(b[..n], c);
      DecodeAllThenEncode(b[n..]);
      EncodeCons(c, DecodeAll(b[n..]).value);
      assert b == b[..n] + b[n..];
    }
  }
}
