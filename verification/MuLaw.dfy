/** The mu-law codec (nexus/realtime/audio/mulaw.py; ITU-T G.711, section 3) and its error bound. */
module MuLaw {
  type Byte = b: int | 0 <= b < 256

  const BIAS := 0x84
  const CLIP := 32635

  function Abs(n: int): nat {
    if n < 0 then -n else n
  }

  function Clip(sample: int): int {
    if sample > CLIP then CLIP else if sample < -CLIP then -CLIP else sample
  }

  // ---------- Segments ----------

  /** 2 to the power of an exponent field. */
  function Pow(exponent: nat): nat
    requires exponent <= 7
  {
    if exponent == 0 then 1
    else if exponent == 1 then 2
    else if exponent == 2 then 4
    else if exponent == 3 then 8
    else if exponent == 4 then 16
    else if exponent == 5 then 32
    else if exponent == 6 then 64
    else 128
  }

  /** Magnitudes after the bias, from 132 to 32767, fall into eight segments; each is twice as long as the one before. */
  ghost predicate InSegment(biased: int, exponent: nat)
    requires exponent <= 7
  {
    128 * Pow(exponent) <= biased < 256 * Pow(exponent)
  }

  function Segment(biased: int): (exponent: nat)
    requires BIAS <= biased <= CLIP + BIAS
    ensures exponent <= 7 && InSegment(biased, exponent)
  {
    if biased < 256 then 0
    else if biased < 512 then 1
    else if biased < 1024 then 2
    else if biased < 2048 then 3
    else if biased < 4096 then 4
    else if biased < 8192 then 5
    else if biased < 16384 then 6
    else 7
  }

  lemma SegmentUnique(biased: int, d: nat, e: nat)
    requires d <= 7 && e <= 7 && InSegment(biased, d) && InSegment(biased, e)
    ensures d == e
  {
  }

  /** Position inside the segment, 0 to 15. */
  function Mantissa(biased: int, exponent: nat): int
    requires exponent <= 7
  {
    (biased / (8 * Pow(exponent))) % 16
  }

  // ---------- One sample ----------

  function Encode(sample: int): (b: Byte)
  {
    var biased := Abs(Clip(sample)) + BIAS;
    var exponent := Segment(biased);
    255 - ((if sample < 0 then 128 else 0) + 16 * exponent + Mantissa(biased, exponent))
  }

  /** The inner loop looks for the highest bit that is set, from bit 14 down. */
  method EncodeSample(sample: int) returns (b: Byte)
    ensures b == Encode(sample)
  {
    var sign := if sample < 0 then 0x80 else 0;
    var s := sample;
    if s < 0 {
      s := -s;
    }
    if s > CLIP {
      s := CLIP;
    }
    s := s + BIAS;
    var exponent: nat := 7;
    var mask: nat := 0x4000;
    while exponent > 0 && (s / mask) % 2 == 0
      invariant exponent <= 7 && mask == 128 * Pow(exponent)
      invariant BIAS <= s < 2 * mask
    {
      assert s < mask by { BitOfSmall(s, mask); }
      exponent := exponent - 1;
      mask := mask / 2;
    }
    assert s >= mask by { BitOfSmall(s, mask); }
    SegmentUnique(s, exponent, Segment(s));
    var mantissa := Mantissa(s, exponent);
    b := 255 - (sign + 16 * exponent + mantissa);
  }

  lemma BitOfSmall(s: int, mask: nat)
    requires mask > 0 && 0 <= s < 2 * mask
    ensures (s / mask) % 2 == 0 <==> s < mask
  {
    if s >= mask {
      assert s / mask == 1;
    } else {
      assert s / mask == 0;
    }
  }

  function Decode(b: Byte): int {
    var u := 255 - b;
    var magnitude := (u % 16 * 8 + BIAS) * Pow(u / 16 % 8) - BIAS;
    if u >= 128 then -magnitude else magnitude
  }

  /** What the decoder returns for a biased magnitude: the middle of its interval. */
  function Middle(biased: int): int
    requires BIAS <= biased <= CLIP + BIAS
  {
    var p := Pow(Segment(biased));
    (biased / (8 * p)) * (8 * p) + 4 * p
  }

  lemma MantissaOfSegment(biased: int, exponent: nat)
    requires exponent <= 7 && InSegment(biased, exponent)
    ensures Mantissa(biased, exponent) + 16 == biased / (8 * Pow(exponent)) <= 31
  {
  }

  lemma CompandMeans(sample: int)
    ensures
      var middle := Middle(Abs(Clip(sample)) + BIAS) - BIAS;
      Decode(Encode(sample)) == if sample < 0 then -middle else middle
  {
    var biased := Abs(Clip(sample)) + BIAS;
    var exponent := Segment(biased);
    MantissaOfSegment(biased, exponent);
    var m := Mantissa(biased, exponent);
    Fields(sample < 0, exponent, m);
    Distribute(m, Pow(exponent));
    hide Segment, Pow, Mantissa, Clip;
  }

  /** Sign, exponent and mantissa read back from the code. */
  lemma Fields(negative: bool, exponent: nat, m: int)
    requires exponent <= 7 && 0 <= m < 16
    ensures
      var u := (if negative then 128 else 0) + 16 * exponent + m;
      0 <= u < 256 && u % 16 == m && u / 16 % 8 == exponent && (u >= 128 <==> negative)
  {
  }

  lemma FieldsBack(u: int)
    requires 0 <= u < 256
    ensures u == (if u >= 128 then 128 else 0) + 16 * (u / 16 % 8) + u % 16
    ensures u % 128 == 0 <==> u == 0 || u == 128
  {
  }

  lemma Distribute(m: int, p: int)
    ensures (m * 8 + BIAS) * p == (m + 16) * (8 * p) + 4 * p
  {
  }

  ghost predicate IsPow(p: nat) {
    p == 1 || p == 2 || p == 4 || p == 8 || p == 16 || p == 32 || p == 64 || p == 128
  }

  /** The interval of a biased magnitude has length 8p, and its middle lies in it. */
  lemma IntervalOf(biased: int, p: nat)
    requires IsPow(p) && 128 * p <= biased < 256 * p
    ensures
      var q := biased / (8 * p);
      && 16 <= q <= 31 && q * (8 * p) <= biased < q * (8 * p) + 8 * p
      && 128 * p <= q * (8 * p) + 4 * p < 256 * p
  {
  }

  lemma MiddleOf(q: int, p: nat)
    requires IsPow(p)
    ensures (q * (8 * p) + 4 * p) / (8 * p) == q
  {
  }

  lemma MiddleIsNear(biased: int)
    requires BIAS <= biased <= CLIP + BIAS
    ensures 32 * Abs(Middle(biased) - biased) <= biased
    ensures BIAS <= Middle(biased) <= CLIP + BIAS
    ensures Segment(Middle(biased)) == Segment(biased) && Middle(Middle(biased)) == Middle(biased)
  {
    var exponent := Segment(biased);
    var p := Pow(exponent);
    var q := biased / (8 * p);
    IntervalOf(biased, p);
    MiddleOf(q, p);
    MiddleBounds(q, p);
    hide Segment;
    SegmentUnique(Middle(biased), exponent, Segment(Middle(biased)));
  }

  lemma MiddleBounds(q: int, p: nat)
    requires IsPow(p) && 16 <= q <= 31
    ensures BIAS <= q * (8 * p) + 4 * p <= CLIP + BIAS
  {
  }

  lemma SegmentsGrow(x: int, y: int)
    requires BIAS <= x <= y <= CLIP + BIAS
    ensures Segment(x) <= Segment(y) && (Segment(x) < Segment(y) ==> 2 * Pow(Segment(x)) <= Pow(Segment(y)))
    ensures IsPow(Pow(Segment(x))) && 128 * Pow(Segment(x)) <= x < 256 * Pow(Segment(x))
    ensures IsPow(Pow(Segment(y))) && 128 * Pow(Segment(y)) <= y < 256 * Pow(Segment(y))
  {
  }

  lemma ProductsGrow(a: int, b: int, d: nat)
    requires a <= b
    ensures a * d <= b * d && (a + 1) * d == a * d + d && (b + 1) * d == b * d + d
  {
  }

  lemma QuotientsGrow(x: int, y: int, d: nat)
    requires d > 0 && x <= y
    ensures (x / d) * d <= (y / d) * d
  {
    var a, b := x / d, y / d;
    ProductsGrow(b, b, d);
    if a > b {
      ProductsGrow(b + 1, a, d);
    } else {
      ProductsGrow(a, b, d);
    }
  }

  lemma MiddleMonotone(x: int, y: int)
    requires BIAS <= x <= y <= CLIP + BIAS
    ensures Middle(x) <= Middle(y)
  {
    var p, q := Pow(Segment(x)), Pow(Segment(y));
    SegmentsGrow(x, y);
    hide Segment, Pow;
    IntervalOf(x, p);
    IntervalOf(y, q);
    if p == q { QuotientsGrow(x, y, 8 * p); }
  }

  /** Every sample comes back within (|clip(s)| + 132) / 32 of its clipped value. */
  lemma CompandError(sample: int)
    ensures 32 * Abs(Decode(Encode(sample)) - Clip(sample)) <= Abs(Clip(sample)) + BIAS
  {
    CompandMeans(sample);
    MiddleIsNear(Abs(Clip(sample)) + BIAS);
  }

  lemma CompandMonotone(a: int, b: int)
    requires a <= b
    ensures Decode(Encode(a)) <= Decode(Encode(b))
  {
    CompandMeans(a);
    CompandMeans(b);
    var x, y := Abs(Clip(a)) + BIAS, Abs(Clip(b)) + BIAS;
    MiddleIsNear(x);
    MiddleIsNear(y);
    if x <= y {
      MiddleMonotone(x, y);
    } else {
      MiddleMonotone(y, x);
    }
  }

  /** Coding a decoded sample again changes nothing. */
  lemma CompandIdempotent(sample: int)
    ensures Decode(Encode(Decode(Encode(sample)))) == Decode(Encode(sample))
  {
    var once := Decode(Encode(sample));
    var biased := Abs(Clip(sample)) + BIAS;
    CompandMeans(sample);
    MiddleIsNear(biased);
    CompandMeans(once);
    assert Abs(Clip(once)) + BIAS == Middle(biased);
  }

  /** Every code but negative zero survives decoding and encoding. */
  lemma CodeRoundTrip(b: Byte)
    ensures -32124 <= Decode(b) <= 32124
    ensures Encode(Decode(b)) == if b == 0x7F then 0xFF else b
  {
    var u := 255 - b;
    var m, e := u % 16, u / 16 % 8;
    var p := Pow(e);
    var biased := (m * 8 + BIAS) * p;
    PowIs(e);
    hide Segment, Pow, Decode, Mantissa;
    CodeBounds(m, p);
    MantissaBack(m, e);
    DecodeParts(b);
    SegmentUnique(biased, e, Segment(biased));
    FieldsBack(u);
  }

  /** The codes of G.711: silence is 0xFF, and from there down to 0x80 the samples grow to the largest. */
  lemma CodeOrder(a: Byte, b: Byte)
    requires 0x80 <= a < b
    ensures Decode(a) > Decode(b) >= 0
  {
    hide Pow;
    var u, v := 255 - b, 255 - a;
    LaterIsLarger(u, v);
    DecodeParts(b);
    UpperHalf(u);
    UpperHalf(v);
    hide Decode;
  }

  lemma UpperHalf(u: int)
    requires 0 <= u < 128
    ensures Decode(255 - u) == (u % 16 * 8 + BIAS) * Pow(u / 16) - BIAS
  {
    hide Pow;
    assert u / 16 % 8 == u / 16;
  }

  lemma CodeEnds()
    ensures Encode(0) == 0xFF && Decode(0xFF) == 0 && Decode(0x80) == 32124
  {
  }

  lemma PowSteps()
    ensures Pow(0) == 1 && Pow(7) == 128
    ensures forall d, e :: 0 <= d < e <= 7 ==> 2 * Pow(d) <= Pow(e)
    ensures forall e :: 0 <= e <= 7 ==> IsPow(Pow(e))
  {
  }

  lemma LaterIsLarger(u: int, v: int)
    requires 0 <= u < v < 128
    ensures (u % 16 * 8 + BIAS) * Pow(u / 16) < (v % 16 * 8 + BIAS) * Pow(v / 16)
  {
    PowSteps();
    hide Pow;
    var p, q := Pow(u / 16), Pow(v / 16);
    if u / 16 == v / 16 {
      ScaledBy(u % 16, v % 16, p);
    } else {
      CodeBounds(u % 16, p);
      CodeBounds(v % 16, q);
    }
  }

  lemma ScaledBy(m: int, n: int, p: nat)
    requires m < n && p > 0
    ensures (m * 8 + BIAS) * p < (n * 8 + BIAS) * p
  {
    ProductsGrow(m * 8 + BIAS + 1, n * 8 + BIAS, p);
    ProductsGrow(m * 8 + BIAS, m * 8 + BIAS, p);
  }

  /** The lower half of the codes mirrors the upper with the sign changed, and a code's sign is its sample's. */
  lemma SignBit(b: Byte, sample: int)
    requires b >= 0x80
    ensures Decode(b - 0x80) == -Decode(b)
    ensures Encode(sample) < 0x80 <==> sample < 0
  {
    hide Pow;
    var u := 255 - b;
    assert (u + 128) % 16 == u % 16 && (u + 128) / 16 % 8 == u / 16 % 8;
    var biased := Abs(Clip(sample)) + BIAS;
    Fields(sample < 0, Segment(biased), Mantissa(biased, Segment(biased)));
  }

  lemma PowIs(e: nat)
    requires e <= 7
    ensures IsPow(Pow(e))
  {
  }

  lemma MantissaBack(m: int, e: nat)
    requires 0 <= m < 16 && e <= 7
    ensures Mantissa((m * 8 + BIAS) * Pow(e), e) == m
  {
    var p := Pow(e);
    PowIs(e);
    hide Pow;
    Distribute(m, p);
    MiddleOf(m + 16, p);
  }

  lemma DecodeParts(b: Byte)
    ensures
      var u := 255 - b;
      var biased := (u % 16 * 8 + BIAS) * Pow(u / 16 % 8);
      && Abs(Decode(b)) == biased - BIAS && (Decode(b) < 0 <==> u >= 128 && biased > BIAS)
      && (biased == BIAS <==> u % 128 == 0)
  {
    hide Pow, IsPow;
    var u := 255 - b;
    PowIs(u / 16 % 8);
    MagnitudeBounds(u % 16, Pow(u / 16 % 8));
    LowBits(u);
  }

  lemma MagnitudeBounds(m: int, p: nat)
    requires IsPow(p) && 0 <= m < 16
    ensures (m * 8 + BIAS) * p >= BIAS && ((m * 8 + BIAS) * p == BIAS <==> m == 0 && p == 1)
  {
  }

  lemma LowBits(u: int)
    requires 0 <= u <= 255
    ensures u % 128 == 0 <==> u % 16 == 0 && Pow(u / 16 % 8) == 1
  {
  }

  lemma CodeBounds(m: int, p: nat)
    requires IsPow(p) && 0 <= m < 16
    ensures BIAS <= (m * 8 + BIAS) * p <= 32124 + BIAS
    ensures 128 * p <= (m * 8 + BIAS) * p < 256 * p
  {
  }

  // ---------- Buffers ----------

  /** A little-endian signed 16-bit sample, in two's complement. */
  function FromBytes(lo: Byte, hi: Byte): (sample: int)
    ensures -32768 <= sample < 32768 && (sample - lo - 256 * hi) % 65536 == 0
  {
    if hi >= 128 then lo + 256 * hi - 65536 else lo + 256 * hi
  }

  function Unsigned(sample: int): int {
    if sample < 0 then sample + 65536 else sample
  }

  /** `int.to_bytes`, which refuses anything outside 16 bits. */
  function LowByte(sample: int): Byte
    requires -32768 <= sample < 32768
  {
    Unsigned(sample) % 256
  }

  function HighByte(sample: int): Byte
    requires -32768 <= sample < 32768
  {
    Unsigned(sample) / 256
  }

  lemma BytesRoundTrip(sample: int)
    requires -32768 <= sample < 32768
    ensures FromBytes(LowByte(sample), HighByte(sample)) == sample
  {
  }

  /** `ulaw` codes the whole samples of `pcm`; an odd last byte is ignored. */
  ghost predicate Codes(pcm: seq<Byte>, ulaw: seq<Byte>) {
    && |ulaw| == |pcm| / 2
    && forall i :: 0 <= i < |ulaw| ==> ulaw[i] == Encode(FromBytes(pcm[2 * i], pcm[2 * i + 1]))
  }

  ghost predicate Decodes(ulaw: seq<Byte>, pcm: seq<Byte>) {
    && |pcm| == 2 * |ulaw|
    && forall i :: 0 <= i < |ulaw| ==> FromBytes(pcm[2 * i], pcm[2 * i + 1]) == Decode(ulaw[i])
  }

  method PcmToUlaw(pcm: seq<Byte>) returns (ulaw: seq<Byte>)
    ensures Codes(pcm, ulaw)
  {
    var n := |pcm| / 2;
    var out := new Byte[n];
    for i := 0 to n
      invariant forall k :: 0 <= k < i ==> out[k] == Encode(FromBytes(pcm[2 * k], pcm[2 * k + 1]))
    {
      out[i] := EncodeSample(FromBytes(pcm[2 * i], pcm[2 * i + 1]));
    }
    ulaw := out[..];
  }

  /** Every decoded sample fits 16 bits, so no conversion is refused. */
  method UlawToPcm(ulaw: seq<Byte>) returns (pcm: seq<Byte>)
    ensures Decodes(ulaw, pcm)
  {
    var out := new Byte[2 * |ulaw|];
    for i := 0 to |ulaw|
      invariant forall k :: 0 <= k < i ==> FromBytes(out[2 * k], out[2 * k + 1]) == Decode(ulaw[k])
    {
      var sample := Decode(ulaw[i]);
      CodeRoundTrip(ulaw[i]);
      BytesRoundTrip(sample);
      out[2 * i] := LowByte(sample);
      out[2 * i + 1] := HighByte(sample);
    }
    pcm := out[..];
  }

  /** Through PCM and back: the same bytes, with negative zero made positive. */
  lemma BufferRoundTrip(ulaw: seq<Byte>, pcm: seq<Byte>, again: seq<Byte>)
    requires Decodes(ulaw, pcm) && Codes(pcm, again)
    ensures |again| == |ulaw|
    ensures forall i :: 0 <= i < |ulaw| ==> again[i] == if ulaw[i] == 0x7F then 0xFF else ulaw[i]
  {
    forall i | 0 <= i < |ulaw| ensures again[i] == if ulaw[i] == 0x7F then 0xFF else ulaw[i] {
      CodeRoundTrip(ulaw[i]);
    }
  }
}
