/** The browser's WAV encoder: a canonical 44-byte RIFF/WAVE header for mono
    16-bit PCM followed by the samples, each clamped to [-1, 1], scaled and
    stored as a little-endian signed 16-bit integer.

    Samples are modelled as exact reals.  A captured sample is a Float32,
    whose significand has 24 bits, and the scale 32767 or 32768 needs at
    most 15, so the browser's double product is exact too: for every
    Float32 sample the model computes what the browser computes. */
module Wav {
  import opened Base

  const HEADER_SIZE: nat := 44
  const TWO_16: nat := 0x1_0000
  const TWO_32: nat := 0x1_0000_0000

  const WAVE_FORMAT_PCM: nat := 1
  const NUM_CHANNELS: nat := 1
  const BITS_PER_SAMPLE: nat := 16

  // ---------------------------------------------------------------------
  // Little-endian fields as written by `DataView.setUint16/setUint32/setInt16`
  // with `littleEndian = true`.

  /** `setUint16`: the value is reduced modulo 2^16 and stored low byte first. */
  function Le16(v: int): (r: seq<byte>)
    ensures |r| == 2
  {
    var u := v % TWO_16;
    [u % 256, u / 256]
  }

  /** `setUint32`: the value is reduced modulo 2^32 and stored low byte first. */
  function Le32(v: int): (r: seq<byte>)
    ensures |r| == 4
  {
    var u := v % TWO_32;
    [u % 256, (u / 256) % 256, (u / 0x1_0000) % 256, u / 0x100_0000]
  }

  /** Reading back an unsigned 16-bit little-endian field. */
  function ReadU16(b: seq<byte>, off: nat): (v: nat)
    requires off + 2 <= |b|
    ensures v < TWO_16
  {
    b[off] as int + 256 * (b[off + 1] as int)
  }

  /** Reading back an unsigned 32-bit little-endian field. */
  function ReadU32(b: seq<byte>, off: nat): (v: nat)
    requires off + 4 <= |b|
    ensures v < TWO_32
  {
    b[off] as int + 256 * (b[off + 1] as int) + 0x1_0000 * (b[off + 2] as int)
    + 0x100_0000 * (b[off + 3] as int)
  }

  /** Reading back a signed (two's complement) 16-bit little-endian field. */
  function ReadI16(b: seq<byte>, off: nat): (v: int)
    requires off + 2 <= |b|
    ensures -0x8000 <= v < 0x8000
  {
    var u := ReadU16(b, off);
    if u >= 0x8000 then u - TWO_16 else u
  }

  lemma Le16RoundTrip(v: int)
    ensures ReadU16(Le16(v), 0) == v % TWO_16
  {
  }

  lemma Le32RoundTrip(v: int)
    ensures ReadU32(Le32(v), 0) == v % TWO_32
  {
    var u := v % TWO_32;
    var b0, b1, b2, b3 := u % 256, (u / 256) % 256, (u / 0x1_0000) % 256, u / 0x100_0000;
    assert u == b0 + 256 * (u / 256);
    assert u / 256 == b1 + 256 * (u / 0x1_0000);
    assert u / 0x1_0000 == b2 + 256 * b3;
  }

  /** A value in the signed 16-bit range survives `setInt16` followed by a
      signed read. */
  lemma I16RoundTrip(v: int)
    requires -0x8000 <= v < 0x8000
    ensures ReadI16(Le16(v), 0) == v
  {
    Le16RoundTrip(v);
  }

  // ---------------------------------------------------------------------
  // Sample quantisation.

  /** `Math.max(-1, Math.min(1, x))`. */
  function Clamp(x: real): (c: real)
    ensures -1.0 <= c <= 1.0
    ensures -1.0 <= x <= 1.0 ==> c == x
    ensures x > 1.0 ==> c == 1.0
    ensures x < -1.0 ==> c == -1.0
  {
    if x < -1.0 then -1.0 else if x > 1.0 then 1.0 else x
  }

  /** Truncation toward zero (the integer part taken by ToIntegerOrInfinity). */
  function Trunc(x: real): (n: int)
    ensures x >= 0.0 ==> 0 <= n && n as real <= x < n as real + 1.0
    ensures x < 0.0 ==> n <= 0 && n as real - 1.0 < x <= n as real
  {
    if x >= 0.0 then x.Floor else -((-x).Floor)
  }

  /** ToInt16 of section 7.1.8 of ECMA-262 applied to an integer: reduce
      modulo 2^16 into the signed range. */
  function ToInt16(n: int): (r: int)
    ensures -0x8000 <= r < 0x8000
    ensures (r - n) % TWO_16 == 0
  {
    var m := n % TWO_16;
    if m >= 0x8000 then m - TWO_16 else m
  }

  /** The 16-bit value stored for one sample: negatives are scaled by 32768,
      non-negatives by 32767, the product is truncated toward zero. */
  function Quantise(x: real): (q: int)
    ensures -0x8000 <= q <= 0x7fff
    ensures x >= 0.0 ==> 0 <= q && q as real <= Clamp(x) * 32767.0 < q as real + 1.0
    ensures x < 0.0 ==> q <= 0 && q as real - 1.0 < Clamp(x) * 32768.0 <= q as real
  {
    var c := Clamp(x);
    var scaled := if c < 0.0 then c * 32768.0 else c * 32767.0;
    ToInt16(Trunc(scaled))
  }

  /** Clamping makes every sample above 1 encode like 1 and every sample below
      -1 encode like -1; the extremes hit the ends of the 16-bit range. */
  lemma QuantiseClamps(x: real)
    ensures x >= 1.0 ==> Quantise(x) == Quantise(1.0) == 0x7fff
    ensures x <= -1.0 ==> Quantise(x) == Quantise(-1.0) == -0x8000
  {
  }

  /** Concrete instances: 1.5 encodes like 1.0 and -2.0 like -1.0. */
  lemma QuantiseExamples()
    ensures Quantise(1.5) == Quantise(1.0)
    ensures Quantise(-2.0) == Quantise(-1.0)
    ensures Quantise(0.0) == 0
    ensures Quantise(0.5) == 16383
    ensures Quantise(-0.5) == -16384
  {
    QuantiseClamps(1.5);
    QuantiseClamps(-2.0);
  }

  /** Quantisation applied to every sample. */
  function QuantiseAll(s: seq<real>): (q: seq<int>)
    ensures |q| == |s|
    ensures forall i :: 0 <= i < |s| ==> q[i] == Quantise(s[i])
  {
    seq(|s|, i requires 0 <= i < |s| => Quantise(s[i]))
  }

  lemma QuantiseAllAppend(a: seq<real>, b: seq<real>)
    ensures QuantiseAll(a + b) == QuantiseAll(a) + QuantiseAll(b)
  {
  }

  // ---------------------------------------------------------------------
  // The encoder.

  function Ascii(s: string): (r: seq<byte>)
    requires forall i :: 0 <= i < |s| ==> s[i] as int < 256
    ensures |r| == |s|
  {
    seq(|s|, i requires 0 <= i < |s| => s[i] as int)
  }

  /** The RIFF chunk descriptor: "RIFF", the chunk size, "WAVE". */
  function RiffPart(n: nat): (p: seq<byte>)
    ensures |p| == 12
  {
    Ascii("RIFF") + Le32(36 + 2 * n) + Ascii("WAVE")
  }

  /** The "fmt " sub-chunk for mono 16-bit PCM at `sampleRate` Hz. */
  function FmtPart(sampleRate: nat): (p: seq<byte>)
    ensures |p| == 24
  {
    Ascii("fmt ") + Le32(16) + Le16(WAVE_FORMAT_PCM) + Le16(NUM_CHANNELS)
    + Le32(sampleRate) + Le32(sampleRate * NUM_CHANNELS * BITS_PER_SAMPLE / 8)
    + Le16(NUM_CHANNELS * BITS_PER_SAMPLE / 8) + Le16(BITS_PER_SAMPLE)
  }

  /** The "data" sub-chunk header for `n` samples. */
  function DataPart(n: nat): (p: seq<byte>)
    ensures |p| == 8
  {
    Ascii("data") + Le32(2 * n)
  }

  /** The 44-byte header for `n` samples at `sampleRate` Hz. */
  function Header(n: nat, sampleRate: nat): (h: seq<byte>)
    ensures |h| == HEADER_SIZE
  {
    RiffPart(n) + FmtPart(sampleRate) + DataPart(n)
  }

  /** The sample area: sample `k / 2` contributes byte `k % 2` of its field. */
  function PcmBytes(s: seq<real>): (r: seq<byte>)
    ensures |r| == 2 * |s|
  {
    seq(2 * |s|, k requires 0 <= k < 2 * |s| => Le16(Quantise(s[k / 2]))[k % 2])
  }

  lemma PcmBytesAt(s: seq<real>, i: nat)
    requires i < |s|
    ensures PcmBytes(s)[2 * i..2 * i + 2] == Le16(Quantise(s[i]))
  {
    var p := PcmBytes(s);
    assert (2 * i) / 2 == i && (2 * i) % 2 == 0;
    assert (2 * i + 1) / 2 == i && (2 * i + 1) % 2 == 1;
    assert p[2 * i] == Le16(Quantise(s[i]))[0];
    assert p[2 * i + 1] == Le16(Quantise(s[i]))[1];
  }

  /** `encodeWAV(samples, sampleRate)`. */
  function EncodeWav(samples: seq<real>, sampleRate: nat): (r: seq<byte>)
    ensures |r| == HEADER_SIZE + 2 * |samples|
    ensures r[..HEADER_SIZE] == Header(|samples|, sampleRate)
    ensures r[HEADER_SIZE..] == PcmBytes(samples)
  {
    Header(|samples|, sampleRate) + PcmBytes(samples)
  }

  /** Reads the samples back out of an encoded buffer. */
  function DecodeSamples(b: seq<byte>): (q: seq<int>)
    ensures |b| >= HEADER_SIZE ==> |q| == (|b| - HEADER_SIZE) / 2
  {
    if |b| < HEADER_SIZE then []
    else seq((|b| - HEADER_SIZE) / 2, i requires 0 <= i < (|b| - HEADER_SIZE) / 2 => ReadI16(b, HEADER_SIZE + 2 * i))
  }

  /** Byte-level layout of the header: every field sits at its offset with
      its value (32-bit fields reduced modulo 2^32 as `setUint32` does). */
  lemma HeaderLayout(n: nat, sampleRate: nat)
    ensures var h := Header(n, sampleRate);
      && h[0..4] == [82, 73, 70, 70]      // "RIFF"
      && ReadU32(h, 4) == (36 + 2 * n) % TWO_32
      && h[8..12] == [87, 65, 86, 69]     // "WAVE"
      && h[12..16] == [102, 109, 116, 32] // "fmt "
      && ReadU32(h, 16) == 16
      && ReadU16(h, 20) == 1
      && ReadU16(h, 22) == 1
      && ReadU32(h, 24) == sampleRate % TWO_32
      && ReadU32(h, 28) == (2 * sampleRate) % TWO_32
      && ReadU16(h, 32) == 2
      && ReadU16(h, 34) == 16
      && h[36..40] == [100, 97, 116, 97]  // "data"
      && ReadU32(h, 40) == (2 * n) % TWO_32
  {
    var h := Header(n, sampleRate);
    var r, f, d := RiffPart(n), FmtPart(sampleRate), DataPart(n);
    RiffLayout(n);
    FmtLayout(sampleRate);
    DataLayout(n);
    assert h[0..12] == r && h[12..36] == f && h[36..44] == d;
    assert h[0..4] == r[0..4] && h[8..12] == r[8..12];
    assert h[12..16] == f[0..4] && h[36..40] == d[0..4];
    Embedded32(h, r, 0, 4);
    Embedded32(h, f, 12, 4);
    Embedded16(h, f, 12, 8);
    Embedded16(h, f, 12, 10);
    Embedded32(h, f, 12, 12);
    Embedded32(h, f, 12, 16);
    Embedded16(h, f, 12, 20);
    Embedded16(h, f, 12, 22);
    Embedded32(h, d, 36, 4);
  }

  lemma RiffLayout(n: nat)
    ensures var p := RiffPart(n);
      p[0..4] == [82, 73, 70, 70] && ReadU32(p, 4) == (36 + 2 * n) % TWO_32
      && p[8..12] == [87, 65, 86, 69]
  {
    var p := RiffPart(n);
    assert p[4..8] == Le32(36 + 2 * n);
    U32Field(p, 4, 36 + 2 * n);
  }

  lemma FmtLayout(sampleRate: nat)
    ensures var p := FmtPart(sampleRate);
      && p[0..4] == [102, 109, 116, 32]
      && ReadU32(p, 4) == 16 && ReadU16(p, 8) == 1 && ReadU16(p, 10) == 1
      && ReadU32(p, 12) == sampleRate % TWO_32
      && ReadU32(p, 16) == (2 * sampleRate) % TWO_32
      && ReadU16(p, 20) == 2 && ReadU16(p, 22) == 16
  {
    var p := FmtPart(sampleRate);
    var a := Ascii("fmt ") + Le32(16) + Le16(WAVE_FORMAT_PCM) + Le16(NUM_CHANNELS);
    var b := Le32(sampleRate) + Le32(sampleRate * NUM_CHANNELS * BITS_PER_SAMPLE / 8);
    var c := Le16(NUM_CHANNELS * BITS_PER_SAMPLE / 8) + Le16(BITS_PER_SAMPLE);
    assert p == a + b + c;
    assert p[..12] == a && p[12..20] == b && p[20..] == c;
    FmtFixedFields(p);
    FmtRateFields(p, sampleRate);
  }

  /** The fixed fields before the rates: the tag, the sub-chunk size, the
      format and the channel count. */
  lemma FmtFixedFields(p: seq<byte>)
    requires |p| == 24
    requires p[..12] == Ascii("fmt ") + Le32(16) + Le16(WAVE_FORMAT_PCM) + Le16(NUM_CHANNELS)
    ensures p[0..4] == [102, 109, 116, 32]
    ensures ReadU32(p, 4) == 16 && ReadU16(p, 8) == 1 && ReadU16(p, 10) == 1
  {
    var a := p[..12];
    assert p[0..4] == a[0..4];
    assert p[4..8] == a[4..8] == Le32(16);
    assert p[8..10] == a[8..10] == Le16(1);
    assert p[10..12] == a[10..12] == Le16(1);
    U32Field(p, 4, 16);
    U16Field(p, 8, 1);
    U16Field(p, 10, 1);
  }

  /** The rate fields and the two sizes after them. */
  lemma FmtRateFields(p: seq<byte>, sampleRate: nat)
    requires |p| == 24
    requires p[12..20] == Le32(sampleRate) + Le32(sampleRate * NUM_CHANNELS * BITS_PER_SAMPLE / 8)
    requires p[20..] == Le16(NUM_CHANNELS * BITS_PER_SAMPLE / 8) + Le16(BITS_PER_SAMPLE)
    ensures ReadU32(p, 12) == sampleRate % TWO_32
    ensures ReadU32(p, 16) == (2 * sampleRate) % TWO_32
    ensures ReadU16(p, 20) == 2 && ReadU16(p, 22) == 16
  {
    var b, c := p[12..20], p[20..];
    assert p[12..16] == b[0..4] == Le32(sampleRate);
    assert p[16..20] == b[4..8] == Le32(2 * sampleRate);
    assert p[20..22] == c[0..2] == Le16(2);
    assert p[22..24] == c[2..4] == Le16(16);
    U32Field(p, 12, sampleRate);
    U32Field(p, 16, 2 * sampleRate);
    U16Field(p, 20, 2);
    U16Field(p, 22, 16);
  }

  lemma DataLayout(n: nat)
    ensures var p := DataPart(n);
      p[0..4] == [100, 97, 116, 97] && ReadU32(p, 4) == (2 * n) % TWO_32
  {
    var p := DataPart(n);
    assert p[4..8] == Le32(2 * n);
    U32Field(p, 4, 2 * n);
  }

  lemma Embedded32(h: seq<byte>, p: seq<byte>, at: nat, off: nat)
    requires at + |p| <= |h| && h[at..at + |p|] == p && off + 4 <= |p|
    ensures ReadU32(h, at + off) == ReadU32(p, off)
  {
    assert h[at + off] == p[off] && h[at + off + 1] == p[off + 1];
    assert h[at + off + 2] == p[off + 2] && h[at + off + 3] == p[off + 3];
  }

  lemma Embedded16(h: seq<byte>, p: seq<byte>, at: nat, off: nat)
    requires at + |p| <= |h| && h[at..at + |p|] == p && off + 2 <= |p|
    ensures ReadU16(h, at + off) == ReadU16(p, off)
  {
    assert h[at + off] == p[off] && h[at + off + 1] == p[off + 1];
  }

  /** Sample `i` is the signed little-endian field at offset `44 + 2i`. */
  lemma EncodeWavSamples(samples: seq<real>, sampleRate: nat)
    ensures var r := EncodeWav(samples, sampleRate);
      forall i :: 0 <= i < |samples| ==> ReadI16(r, 44 + 2 * i) == Quantise(samples[i])
  {
    var r := EncodeWav(samples, sampleRate);
    forall i | 0 <= i < |samples|
      ensures ReadI16(r, 44 + 2 * i) == Quantise(samples[i])
    {
      PcmBytesAt(samples, i);
      assert r[44 + 2 * i..44 + 2 * i + 2] == PcmBytes(samples)[2 * i..2 * i + 2];
      I16Field(r, 44 + 2 * i, Quantise(samples[i]));
    }
  }

  /** The whole encoded buffer: `44 + 2N` bytes, the header above, then the
      samples in order. */
  lemma EncodeWavLayout(samples: seq<real>, sampleRate: nat)
    ensures var r := EncodeWav(samples, sampleRate);
      && |r| == 44 + 2 * |samples|
      && r[0..4] == [82, 73, 70, 70]
      && ReadU32(r, 4) == (36 + 2 * |samples|) % TWO_32
      && r[8..12] == [87, 65, 86, 69]
      && r[12..16] == [102, 109, 116, 32]
      && ReadU32(r, 16) == 16
      && ReadU16(r, 20) == 1
      && ReadU16(r, 22) == 1
      && ReadU32(r, 24) == sampleRate % TWO_32
      && ReadU32(r, 28) == (2 * sampleRate) % TWO_32
      && ReadU16(r, 32) == 2
      && ReadU16(r, 34) == 16
      && r[36..40] == [100, 97, 116, 97]
      && ReadU32(r, 40) == (2 * |samples|) % TWO_32
      && forall i :: 0 <= i < |samples| ==> ReadI16(r, 44 + 2 * i) == Quantise(samples[i])
  {
    var r := EncodeWav(samples, sampleRate);
    var h := Header(|samples|, sampleRate);
    HeaderLayout(|samples|, sampleRate);
    assert r[..44] == h;
    assert forall k :: 0 <= k < 44 ==> r[k] == h[k];
    EncodeWavSamples(samples, sampleRate);
  }

  lemma I16Field(r: seq<byte>, off: nat, v: int)
    requires -0x8000 <= v < 0x8000
    requires off + 2 <= |r| && r[off..off + 2] == Le16(v)
    ensures ReadI16(r, off) == v
  {
    I16RoundTrip(v);
  }

  lemma U32Field(r: seq<byte>, off: nat, v: int)
    requires off + 4 <= |r| && r[off..off + 4] == Le32(v)
    ensures ReadU32(r, off) == v % TWO_32
  {
    Le32RoundTrip(v);
  }

  lemma U16Field(r: seq<byte>, off: nat, v: int)
    requires off + 2 <= |r| && r[off..off + 2] == Le16(v)
    ensures ReadU16(r, off) == v % TWO_16
  {
    Le16RoundTrip(v);
  }

  /** Decoding an encoded buffer recovers exactly the quantised samples, in
      order: nothing is dropped, duplicated or reordered. */
  lemma DecodeEncode(samples: seq<real>, sampleRate: nat)
    ensures DecodeSamples(EncodeWav(samples, sampleRate)) == QuantiseAll(samples)
  {
    var r := EncodeWav(samples, sampleRate);
    assert (|r| - HEADER_SIZE) / 2 == |samples| by {
      assert |r| - HEADER_SIZE == 2 * |samples|;
    }
    var q := DecodeSamples(r);
    EncodeWavSamples(samples, sampleRate);
    assert forall i :: 0 <= i < |q| ==> q[i] == ReadI16(r, HEADER_SIZE + 2 * i);
  }
}
