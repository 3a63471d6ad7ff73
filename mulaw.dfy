/**
 * The μ-law codec of the call bridge (twilio-media-stream/index.ts): the
 * G.711 μ-law expansion table in its 16-bit form (bias 0x84, clip 32635),
 * the compressor, and the two 2x resamplers between 8 kHz μ-law and 16 kHz
 * 16-bit little-endian PCM. The source's bit operations on non-negative
 * integers are written as division and remainder by powers of two:
 * `x >> k` is `x / Pow2(k)`, `x & 0x0f` is `x % 16`, `~x & 0xff` is `255 - x`.
 */
module MuLaw {
  import opened Wrappers

  type Byte = b: int | 0 <= b < 256

  const BIAS: int := 0x84
  const CLIP: int := 32635
  /** The largest magnitude the expansion table holds. */
  const MAX_DECODED: int := 32124

  function Pow2(n: nat): (r: nat)
    ensures r >= 1
  {
    if n == 0 then 1 else 2 * Pow2(n - 1)
  }

  lemma Pow2Values()
    ensures Pow2(0) == 1 && Pow2(1) == 2 && Pow2(2) == 4 && Pow2(3) == 8
    ensures Pow2(4) == 16 && Pow2(5) == 32 && Pow2(6) == 64 && Pow2(7) == 128
    ensures Pow2(8) == 256 && Pow2(9) == 512 && Pow2(10) == 1024 && Pow2(11) == 2048
    ensures Pow2(12) == 4096 && Pow2(13) == 8192 && Pow2(14) == 16384 && Pow2(15) == 32768
  {
  }

  // ---------------------------------------------------------------------
  // Expansion (the MULAW_DECODE table)
  // ---------------------------------------------------------------------

  /** Entry `i` of the expansion table: complement, then sign, 3-bit exponent, 4-bit mantissa. */
  function Decode(i: Byte): int
  {
    var mu := 255 - i;
    var sign := mu / 128;
    var exponent := (mu / 16) % 8;
    var mantissa := mu % 16;
    var magnitude := (mantissa * 8 + BIAS) * Pow2(exponent) - BIAS;
    if sign != 0 then -magnitude else magnitude
  }

  /** The module-level loop that fills the 256-entry Int16Array once. */
  method BuildDecodeTable() returns (table: array<int>)
    ensures fresh(table) && table.Length == 256
    ensures forall i :: 0 <= i < 256 ==> table[i] == Decode(i)
  {
    table := new int[256];
    var i := 0;
    while i < 256
      invariant 0 <= i <= 256
      invariant forall j :: 0 <= j < i ==> table[j] == Decode(j)
    {
      var mu := 255 - i;
      var sign := mu / 128;
      var exponent := (mu / 16) % 8;
      var mantissa := mu % 16;
      var magnitude := (mantissa * 8 + BIAS) * Pow2(exponent);
      magnitude := magnitude - BIAS;
      table[i] := if sign != 0 then -magnitude else magnitude;
      i := i + 1;
    }
  }

  // ---------------------------------------------------------------------
  // Compression (linearToMulaw)
  // ---------------------------------------------------------------------

  /**
   * The segment of a biased magnitude: the position of its highest set bit
   * among bits 14..8, counted from bit 7, or 0 when none of them is set.
   */
  function Segment(v: int): (e: nat)
    ensures e <= 7
    ensures e == 0 ==> v < Pow2(8)
    ensures e > 0 ==> Pow2(e + 7) <= v
    ensures v < Pow2(15) ==> v < Pow2(e + 8)
  {
    Pow2Values();
    if v >= 0x4000 then 7
    else if v >= 0x2000 then 6
    else if v >= 0x1000 then 5
    else if v >= 0x800 then 4
    else if v >= 0x400 then 3
    else if v >= 0x200 then 2
    else if v >= 0x100 then 1
    else 0
  }

  /** `Segment` is the only exponent that brackets the biased magnitude. */
  lemma SegmentUnique(v: int, e: nat)
    requires e <= 7
    requires e == 0 ==> v < Pow2(8)
    requires e > 0 ==> Pow2(e + 7) <= v
    requires v < Pow2(e + 8)
    ensures Segment(v) == e
  {
    Pow2Values();
    if e == 0 {
    } else if e == 1 {
      assert 256 <= v < 512;
    } else if e == 2 {
      assert 512 <= v < 1024;
    } else if e == 3 {
      assert 1024 <= v < 2048;
    } else if e == 4 {
      assert 2048 <= v < 4096;
    } else if e == 5 {
      assert 4096 <= v < 8192;
    } else if e == 6 {
      assert 8192 <= v < 16384;
    } else {
      assert 16384 <= v;
    }
  }

  lemma {:induction false} Pow2Monotone(a: nat, b: nat)
    requires a <= b
    ensures Pow2(a) <= Pow2(b)
    decreases b
  {
    if a < b {
      Pow2Monotone(a, b - 1);
    }
  }

  lemma {:induction false} Pow2Plus(a: nat, k: nat)
    ensures Pow2(a + k) == Pow2(k) * Pow2(a)
    decreases k
  {
    if k > 0 {
      Pow2Plus(a, k - 1);
      assert Pow2(a + k) == 2 * Pow2(a + k - 1);
    }
  }

  /** Euclidean division is determined by any quotient and remainder that fit. */
  lemma DivUnique(x: int, d: int, q: int, r: int)
    requires d > 0 && 0 <= r < d && x == q * d + r
    ensures x / d == q
  {
    var q', r' := x / d, x % d;
    assert x == q' * d + r';
    if q' < q {
      assert (q - q') * d == r' - r;
      MulAtLeast(q - q', d);
    } else if q' > q {
      assert (q' - q) * d == r - r';
      MulAtLeast(q' - q, d);
    }
  }

  lemma MulAtLeast(k: int, d: int)
    requires k >= 1 && d > 0
    ensures k * d >= d
  {
    assert k * d == (k - 1) * d + d;
  }

  /** The μ-law byte of a 16-bit sample: sign, clip, bias, segment, mantissa, complement. */
  function Encode(sample: int): Byte
  {
    var sign := if sample < 0 then 0x80 else 0;
    var magnitude := if sample < 0 then -sample else sample;
    var clipped := if magnitude > CLIP then CLIP else magnitude;
    var biased := clipped + BIAS;
    var exponent := Segment(biased);
    var mantissa := (biased / Pow2(exponent + 3)) % 16;
    255 - (sign + exponent * 16 + mantissa)
  }

  /** `linearToMulaw`: the exponent is found by the source's shifting-mask loop. */
  method LinearToMulaw(sample: int) returns (b: int)
    ensures 0 <= b <= 255
    ensures b == Encode(sample)
  {
    var sign := 0;
    var s := sample;
    if s < 0 {
      sign := 0x80;
      s := -s;
    }
    if s > CLIP {
      s := CLIP;
    }
    s := s + BIAS;
    var exponent: nat := 7;
    var mask := 0x4000;
    assert Pow2(14) == 0x4000 && Pow2(15) == 0x8000 by {
      Pow2Values();
    }
    while exponent > 0 && (s / mask) % 2 == 0
      invariant exponent <= 7
      invariant mask == Pow2(exponent + 7)
      invariant BIAS <= s < Pow2(exponent + 8)
      decreases exponent
    {
      BitClear(s, exponent + 7);
      exponent := exponent - 1;
      mask := mask / 2;
    }
    if exponent > 0 {
      BitSet(s, mask);
    }
    SegmentUnique(s, exponent);
    var mantissa := (s / Pow2(exponent + 3)) % 16;
    b := 255 - (sign + exponent * 16 + mantissa);
  }

  /** Below `2^(k+1)`, a clear bit `k` means the value is below `2^k`. */
  lemma BitClear(v: int, k: nat)
    requires 0 <= v < Pow2(k + 1)
    requires (v / Pow2(k)) % 2 == 0
    ensures v < Pow2(k)
  {
    assert Pow2(k + 1) == 2 * Pow2(k);
    QuotientBelowTwo(v, Pow2(k));
  }

  /** Below `2p`, the quotient by `p` is 0 below `p` and 1 from `p` on. */
  lemma QuotientBelowTwo(v: int, p: int)
    requires p > 0 && 0 <= v < 2 * p
    ensures v < p ==> v / p == 0
    ensures p <= v ==> v / p == 1
  {
    if v < p {
      DivUnique(v, p, 0, v);
    } else {
      DivUnique(v, p, 1, v - p);
    }
  }

  /** A value whose bit at `mask` is set is at least `mask`. */
  lemma BitSet(v: int, mask: int)
    requires 0 <= v && mask > 0
    requires (v / mask) % 2 != 0
    ensures mask <= v
  {
  }

  // ---------------------------------------------------------------------
  // Properties of the table and the compressor
  // ---------------------------------------------------------------------

  /** `b ^ 0x80`: the same byte with bit 7, the sign bit, toggled. */
  function FlipSign(b: Byte): Byte
  {
    if b < 128 then b + 128 else b - 128
  }

  /** The magnitude, segment and mantissa that a table entry expands to. */
  lemma Expansion(e: nat, m: nat)
    requires e < 8 && m < 16
    ensures var v := (m * 8 + BIAS) * Pow2(e);
      && BIAS <= v <= MAX_DECODED + BIAS
      && Segment(v) == e
      && (v / Pow2(e + 3)) % 16 == m
  {
    var p := Pow2(e);
    var v := (m * 8 + BIAS) * p;
    Pow2Values();
    Pow2Monotone(e, 7);
    Pow2Plus(e, 3);
    Pow2Plus(e, 7);
    Pow2Plus(e, 8);
    ExpansionArith(m, p);
    DivUnique(v, 8 * p, m + 16, 4 * p);
    SegmentUnique(v, e);
  }

  /** Every entry of the table lies in [-32124, 32124]. */
  lemma DecodeRange(b: Byte)
    ensures -MAX_DECODED <= Decode(b) <= MAX_DECODED
  {
    var mu := 255 - b;
    Expansion((mu / 16) % 8, mu % 16);
  }

  /** The arithmetic of one table entry, with `p` standing for `2^e`. */
  lemma ExpansionArith(m: nat, p: nat)
    requires m < 16 && 1 <= p <= 128
    ensures 132 * p <= (m * 8 + BIAS) * p <= 252 * p <= MAX_DECODED + BIAS
    ensures (m * 8 + BIAS) * p == (m + 16) * (8 * p) + 4 * p
  {
    assert (m * 8 + BIAS) * p == 132 * p + 8 * (m * p);
    assert 0 <= m * p <= 15 * p;
  }

  /** Toggling the sign bit keeps exponent and mantissa and flips the sign. */
  lemma FlipFields(b: Byte)
    ensures var mu, mu' := 255 - b, 255 - FlipSign(b);
      && (mu' / 16) % 8 == (mu / 16) % 8
      && mu' % 16 == mu % 16
      && ((mu' / 128 == 0) <==> (mu / 128 != 0))
  {
    var mu, mu' := 255 - b, 255 - FlipSign(b);
    var q := mu / 16;
    if b < 128 {
      assert mu' == mu - 128;
      DivUnique(mu', 16, q - 8, mu % 16);
    } else {
      assert mu' == mu + 128;
      DivUnique(mu', 16, q + 8, mu % 16);
    }
  }

  /** Toggling the sign bit negates the expanded sample. */
  lemma DecodeSignSymmetry(b: Byte)
    ensures Decode(FlipSign(b)) == -Decode(b)
  {
    FlipFields(b);
  }

  /** Both zero codes expand to silence. */
  lemma DecodeZeros()
    ensures Decode(0xFF) == 0 && Decode(0x7F) == 0
  {
    Pow2Values();
  }

  /** Magnitudes beyond the clip level compress exactly like the clip level. */
  lemma EncodeClips(sample: int)
    ensures sample > CLIP ==> Encode(sample) == Encode(CLIP)
    ensures sample < -CLIP ==> Encode(sample) == Encode(-CLIP)
  {
  }

  /** Canonical form of a μ-law byte: negative zero 0x7F becomes positive zero 0xFF. */
  function Canonical(b: Byte): Byte
  {
    if b == 0x7F then 0xFF else b
  }

  /** Compressing an expanded byte gives the byte back, except negative zero. */
  lemma EncodeDecode(b: Byte)
    ensures Encode(Decode(b)) == Canonical(b)
  {
    var mu := 255 - b;
    var sign, e, m := mu / 128, (mu / 16) % 8, mu % 16;
    assert mu == 128 * sign + 16 * e + m;
    Pow2Values();
    if b == 0x7F {
      assert Decode(b) == 0;
    } else {
      Expansion(e, m);
      var v := (m * 8 + BIAS) * Pow2(e);
      assert Decode(b) == if sign != 0 then BIAS - v else v - BIAS;
      assert sign != 0 ==> v > BIAS by {
        if sign != 0 && e == 0 {
          assert m != 0;
        }
        if e > 0 {
          Pow2Monotone(1, e);
        }
      }
    }
  }

  // ---------------------------------------------------------------------
  // 16-bit little-endian PCM
  // ---------------------------------------------------------------------

  predicate IsInt16(s: int)
  {
    -32768 <= s < 32768
  }

  predicate AllInt16(samples: seq<int>)
  {
    forall k :: 0 <= k < |samples| ==> IsInt16(samples[k])
  }

  /** One sample as the two bytes of its two's-complement little-endian form. */
  function Int16Bytes(s: int): seq<Byte>
    requires IsInt16(s)
  {
    var u := if s < 0 then s + 65536 else s;
    [u % 256, u / 256]
  }

  /** The bytes of an Int16Array's buffer (little-endian). */
  function PcmBytes(samples: seq<int>): (r: seq<Byte>)
    requires AllInt16(samples)
    ensures |r| == 2 * |samples|
    ensures |r| % 2 == 0
  {
    if samples == [] then [] else Int16Bytes(samples[0]) + PcmBytes(samples[1..])
  }

  /** Sample `k` of an Int16Array viewing `bytes`. */
  function SampleAt(bytes: seq<Byte>, k: nat): (s: int)
    requires 2 * k + 1 < |bytes|
    ensures IsInt16(s)
  {
    var u: int := bytes[2 * k] as int + 256 * (bytes[2 * k + 1] as int);
    if u >= 32768 then u - 65536 else u
  }

  /** `new Int16Array(bytes.buffer)` for an even number of bytes. */
  function PcmSamples(bytes: seq<Byte>): (r: seq<int>)
    requires |bytes| % 2 == 0
    ensures |r| == |bytes| / 2
    ensures forall k :: 0 <= k < |r| ==> r[k] == SampleAt(bytes, k)
  {
    seq(|bytes| / 2, k requires 0 <= k < |bytes| / 2 => SampleAt(bytes, k))
  }

  lemma {:induction false} PcmBytesAt(samples: seq<int>, k: nat)
    requires AllInt16(samples) && k < |samples|
    ensures SampleAt(PcmBytes(samples), k) == samples[k]
  {
    if k > 0 {
      PcmBytesAt(samples[1..], k - 1);
      var r := PcmBytes(samples);
      assert r[2 * k] == PcmBytes(samples[1..])[2 * (k - 1)];
      assert r[2 * k + 1] == PcmBytes(samples[1..])[2 * (k - 1) + 1];
    }
  }

  /** Viewing the little-endian bytes of samples as an Int16Array gives the samples back. */
  lemma PcmRoundTrip(samples: seq<int>)
    requires AllInt16(samples)
    ensures PcmSamples(PcmBytes(samples)) == samples
  {
    var r := PcmSamples(PcmBytes(samples));
    forall k | 0 <= k < |samples|
      ensures r[k] == samples[k]
    {
      PcmBytesAt(samples, k);
    }
  }

  // ---------------------------------------------------------------------
  // 8 kHz μ-law -> 16 kHz PCM (mulawToLinear16k)
  // ---------------------------------------------------------------------

  /** The expanded neighbour that sample `i` is interpolated with (the last sample pairs with itself). */
  function NextDecoded(raw: seq<Byte>, i: nat): int
    requires i < |raw|
  {
    if i + 1 < |raw| then Decode(raw[i + 1]) else Decode(raw[i])
  }

  /** Sample `k` of the upsampled signal: even samples expand a byte, odd ones take the floor of a mean. */
  function UpsampledSample(raw: seq<Byte>, k: nat): int
    requires k < 2 * |raw|
  {
    var i := k / 2;
    if k % 2 == 0 then Decode(raw[i]) else (Decode(raw[i]) + NextDecoded(raw, i)) / 2
  }

  /** The upsampled signal: each expanded sample followed by the floor of its mean with the next one. */
  function Upsampled(raw: seq<Byte>): (r: seq<int>)
    ensures |r| == 2 * |raw|
  {
    seq(2 * |raw|, k requires 0 <= k < 2 * |raw| => UpsampledSample(raw, k))
  }

  /** Samples `2i` and `2i+1` come from byte `i`. */
  lemma UpsampledAt(raw: seq<Byte>, i: nat)
    requires i < |raw|
    ensures Upsampled(raw)[2 * i] == Decode(raw[i])
    ensures Upsampled(raw)[2 * i + 1] == (Decode(raw[i]) + NextDecoded(raw, i)) / 2
  {
    assert (2 * i) / 2 == i && (2 * i) % 2 == 0;
    assert (2 * i + 1) / 2 == i && (2 * i + 1) % 2 == 1;
  }

  /** Interpolated samples stay inside the table's range, hence inside 16 bits. */
  lemma UpsampledRange(raw: seq<Byte>)
    ensures forall k :: 0 <= k < |Upsampled(raw)| ==> -MAX_DECODED <= Upsampled(raw)[k] <= MAX_DECODED
    ensures AllInt16(Upsampled(raw))
  {
    var r := Upsampled(raw);
    forall k | 0 <= k < |r|
      ensures -MAX_DECODED <= r[k] <= MAX_DECODED
    {
      var i := k / 2;
      DecodeRange(raw[i]);
      if i + 1 < |raw| {
        DecodeRange(raw[i + 1]);
      }
      assert r[k] == UpsampledSample(raw, k);
    }
  }

  /** `mulawToLinear16k` without the base64 wrapping: fills the Int16Array, returns its bytes. */
  method MulawToLinear16k(raw: seq<Byte>) returns (pcm: seq<Byte>)
    ensures |pcm| == 4 * |raw|
    ensures AllInt16(Upsampled(raw)) && pcm == PcmBytes(Upsampled(raw))
  {
    var out := new int[|raw| * 2];
    var i := 0;
    while i < |raw|
      invariant 0 <= i <= |raw|
      invariant forall k :: 0 <= k < 2 * i ==> out[k] == UpsampledSample(raw, k)
    {
      var s := Decode(raw[i]);
      var next := if i < |raw| - 1 then Decode(raw[i + 1]) else s;
      assert i * 2 == 2 * i;
      assert (2 * i) / 2 == i && (2 * i) % 2 == 0;
      assert (2 * i + 1) / 2 == i && (2 * i + 1) % 2 == 1;
      out[i * 2] := s;
      out[i * 2 + 1] := (s + next) / 2;
      i := i + 1;
    }
    assert out[..] == Upsampled(raw);
    UpsampledRange(raw);
    pcm := PcmBytes(out[..]);
  }

  /** The samples of the converted audio are the upsampled signal. */
  lemma UpsampledSamples(raw: seq<Byte>)
    ensures AllInt16(Upsampled(raw))
    ensures PcmSamples(PcmBytes(Upsampled(raw))) == Upsampled(raw)
  {
    UpsampledRange(raw);
    PcmRoundTrip(Upsampled(raw));
  }

  // ---------------------------------------------------------------------
  // 16 kHz PCM -> 8 kHz μ-law (linear16kToMulaw)
  // ---------------------------------------------------------------------

  /** Decimation: every even-indexed sample, compressed; an odd last sample is dropped. */
  function Decimated(samples: seq<int>): (r: seq<Byte>)
    ensures |r| == |samples| / 2
  {
    seq(|samples| / 2, i requires 0 <= i < |samples| / 2 => Encode(samples[2 * i]))
  }

  /**
   * `linear16kToMulaw` without the base64 wrapping. An odd byte count makes
   * the Int16Array constructor throw, modelled as `None`.
   */
  method Linear16kToMulaw(pcm: seq<Byte>) returns (r: Option<seq<Byte>>)
    ensures r.None? <==> |pcm| % 2 == 1
    ensures r.Some? ==> |r.value| == |pcm| / 4
    ensures r.Some? ==> forall i :: 0 <= i < |r.value| ==> r.value[i] == Encode(SampleAt(pcm, 2 * i))
    ensures r.Some? ==> r.value == Decimated(PcmSamples(pcm))
  {
    if |pcm| % 2 == 1 {
      return None;
    }
    var samples := PcmSamples(pcm);
    var half := |samples| / 2;
    var out := new Byte[half];
    var i := 0;
    while i < half
      invariant 0 <= i <= half
      invariant forall j :: 0 <= j < i ==> out[j] == Encode(samples[2 * j])
    {
      var b := LinearToMulaw(samples[i * 2]);
      assert i * 2 == 2 * i;
      out[i] := b;
      i := i + 1;
    }
    assert out[..] == Decimated(samples);
    r := Some(out[..]);
  }

  // ---------------------------------------------------------------------
  // The two directions composed
  // ---------------------------------------------------------------------

  function CanonicalAll(raw: seq<Byte>): (r: seq<Byte>)
    ensures |r| == |raw|
  {
    seq(|raw|, i requires 0 <= i < |raw| => Canonical(raw[i]))
  }

  lemma DecimateUpsampled(raw: seq<Byte>)
    ensures Decimated(Upsampled(raw)) == CanonicalAll(raw)
  {
    var d := Decimated(Upsampled(raw));
    forall i | 0 <= i < |raw|
      ensures d[i] == Canonical(raw[i])
    {
      UpsampledAt(raw, i);
      EncodeDecode(raw[i]);
    }
  }

  /**
   * Downsampling what was upsampled returns the original μ-law bytes, with
   * negative zero 0x7F replaced by 0xFF.
   */
  lemma DownUpRoundTrip(raw: seq<Byte>)
    ensures AllInt16(Upsampled(raw))
    ensures |PcmBytes(Upsampled(raw))| % 2 == 0
    ensures Decimated(PcmSamples(PcmBytes(Upsampled(raw)))) == CanonicalAll(raw)
  {
    UpsampledSamples(raw);
    DecimateUpsampled(raw);
  }
}
