/** 16-bit mono WAV: the byte printer of src/audio/vad-segmenter.cpp and an independent RIFF/WAVE reader. */
module Wav {
  import opened Basics

  /** A C++ float as far as this code can tell values apart: rounding is not modelled. */
  datatype Sample = Finite(value: real) | Infinite | NaN

  type Byte = b: int | 0 <= b < 256

  const SAMPLE_RATE := 16000

  const SILENCE := Finite(0.0)

  // ---------------------------------------------------------------- little-endian numbers

  function Pow256(n: nat): (p: nat) {
    if n == 0 then 1 else 256 * Pow256(n - 1)
  }

  /** value >> 8i */
  function ShiftBytes(value: nat, i: nat): nat {
    if i == 0 then value else ShiftBytes(value / 256, i - 1)
  }

  /** The n low bytes of v, least significant first. */
  function Le(v: nat, n: nat): (bs: seq<Byte>)
    ensures |bs| == n
  {
    if n == 0 then [] else [v % 256] + Le(v / 256, n - 1)
  }

  function FromLe(bs: seq<Byte>): nat {
    if bs == [] then 0 else bs[0] + 256 * FromLe(bs[1..])
  }

  lemma {:induction false} FromLeOfLe(v: nat, n: nat)
    requires v < Pow256(n)
    ensures FromLe(Le(v, n)) == v
  {
    if n > 0 {
      FromLeOfLe(v / 256, n - 1);
      assert Le(v, n)[1..] == Le(v / 256, n - 1);
    }
  }

  lemma {:induction false} LeOfFromLe(bs: seq<Byte>)
    ensures FromLe(bs) < Pow256(|bs|)
    ensures Le(FromLe(bs), |bs|) == bs
  {
    if bs != [] {
      LeOfFromLe(bs[1..]);
      assert FromLe(bs) % 256 == bs[0] && FromLe(bs) / 256 == FromLe(bs[1..]);
    }
  }

  lemma {:induction false} LeAt(v: nat, n: nat, i: nat)
    requires i < n
    ensures Le(v, n)[i] == ShiftBytes(v, i) % 256
  {
    if i > 0 { LeAt(v / 256, n - 1, i - 1); }
  }

  /** Appends the low bytes of value: byte i is (value >> 8i) & 0xff. */
  method Put(out: seq<Byte>, value: nat, bytes: nat) returns (r: seq<Byte>)
    ensures r == out + Le(value, bytes)
  {
    r := out;
    for i := 0 to bytes
      invariant r == out + Le(value, bytes)[..i]
    {
      LeAt(value, bytes, i);
      r := r + [ShiftBytes(value, i) % 256];
    }
  }

  // ---------------------------------------------------------------- samples

  /** Conversion to an integer type truncates toward zero. */
  function Truncate(r: real): int {
    if r >= 0.0 then r.Floor else -((-r).Floor)
  }

  /** The 16-bit value of one sample: clipped to unity, zero when it is not a number at all. */
  function Quantise(s: Sample): (q: int)
    ensures -32767 <= q <= 32767
  {
    var clipped :=
      if !s.Finite? then 0.0
      else if s.value < -1.0 then -1.0
      else if s.value > 1.0 then 1.0
      else s.value;
    var scaled := clipped * 32767.0;
    assert -32767.0 <= scaled <= 32767.0;
    Truncate(scaled)
  }

  /** q is the 16-bit value of s: full scale at and beyond unity, in between 32767 times the sample rounded towards zero,
      and zero for what is not a finite number. */
  predicate IsPcm(s: Sample, q: int) {
    match s
    case Finite(v) =>
      && (v >= 1.0 ==> q == 32767)
      && (v <= -1.0 ==> q == -32767)
      && (0.0 <= v <= 1.0 ==> q as real <= 32767.0 * v < q as real + 1.0)
      && (-1.0 <= v <= 0.0 ==> q as real - 1.0 < 32767.0 * v <= q as real)
    case _ => q == 0
  }

  /** The conversion gives that value and no other, and treats both signs alike. */
  lemma QuantiseMeans(s: Sample, q: int)
    ensures IsPcm(s, q) <==> q == Quantise(s)
    ensures s.Finite? ==> Quantise(Finite(-s.value)) == -Quantise(s)
  {
    if s.Finite? {
      var clipped := if s.value < -1.0 then -1.0 else if s.value > 1.0 then 1.0 else s.value;
      Rounding(clipped * 32767.0, Truncate(clipped * 32767.0), q);
      assert (-clipped) * 32767.0 == -(clipped * 32767.0);
    }
  }

  lemma Rounding(r: real, q: int, p: int)
    requires q == Truncate(r)
    ensures r >= 0.0 ==> q as real <= r < q as real + 1.0
    ensures r <= 0.0 ==> q as real - 1.0 < r <= q as real
    ensures r >= 0.0 && p as real <= r < p as real + 1.0 ==> p == q
    ensures r <= 0.0 && p as real - 1.0 < r <= p as real ==> p == q
  {
  }

  function Quantised(samples: seq<Sample>): seq<int> {
    seq(|samples|, i requires 0 <= i < |samples| => Quantise(samples[i]))
  }

  /** int16_t reinterpreted as uint16_t: two's complement. */
  function AsU16(q: int): (u: nat)
    requires -32768 <= q < 32768
    ensures u < 65536
  {
    q % 65536
  }

  function AsI16(u: nat): int {
    if u < 32768 then u else u - 65536
  }

  function Pcm(qs: seq<int>): (bs: seq<Byte>)
    requires forall i :: 0 <= i < |qs| ==> -32768 <= qs[i] < 32768
    ensures |bs| == 2 * |qs|
  {
    if qs == [] then [] else Pcm(qs[..|qs| - 1]) + Le(AsU16(qs[|qs| - 1]), 2)
  }

  // ---------------------------------------------------------------- the encoder

  const RIFF: seq<Byte> := [0x52, 0x49, 0x46, 0x46]
  const WAVE: seq<Byte> := [0x57, 0x41, 0x56, 0x45]
  const FMT: seq<Byte> := [0x66, 0x6d, 0x74, 0x20]
  const DATA: seq<Byte> := [0x64, 0x61, 0x74, 0x61]

  /** The size fields are 32-bit; the number of samples is first cast to 32 bits, then doubled. */
  function DataSize(count: nat): nat {
    count % U32 * 2 % U32
  }

  function FmtBody(): (bs: seq<Byte>)
    ensures |bs| == 16
  {
    Le(1, 2) + Le(1, 2) + Le(SAMPLE_RATE, 4) + Le(SAMPLE_RATE * 2, 4) + Le(2, 2) + Le(16, 2)
  }

  function RiffHead(dataSize: nat): (bs: seq<Byte>)
    ensures |bs| == 12
  {
    RIFF + Le((36 + dataSize) % U32, 4) + WAVE
  }

  function FormChunk(): (bs: seq<Byte>)
    ensures |bs| == 24
  {
    FMT + Le(16, 4) + FmtBody()
  }

  function DataHead(dataSize: nat): (bs: seq<Byte>)
    ensures |bs| == 8
  {
    DATA + Le(dataSize, 4)
  }

  function WavBytes(samples: seq<Sample>): (bs: seq<Byte>)
    ensures |bs| == 44 + 2 * |samples|
  {
    var size := DataSize(|samples|);
    RiffHead(size) + FormChunk() + DataHead(size) + Pcm(Quantised(samples))
  }

  method PutRiffHead(dataSize: nat) returns (out: seq<Byte>)
    ensures out == RiffHead(dataSize)
  {
    out := RIFF;
    out := Put(out, (36 + dataSize) % U32, 4);
    out := out + WAVE;
  }

  /** PCM, mono, the two rates, two bytes a frame, 16 bits a sample. */
  method PutFormat(out: seq<Byte>) returns (r: seq<Byte>)
    ensures r == out + FmtBody()
  {
    hide Le;
    r := Put(out, 1, 2);
    r := Put(r, 1, 2);
    r := Put(r, SAMPLE_RATE, 4);
    r := Put(r, SAMPLE_RATE * 2, 4);
    r := Put(r, 2, 2);
    r := Put(r, 16, 2);
  }

  method PutFormChunk(out: seq<Byte>) returns (r: seq<Byte>)
    ensures r == out + FormChunk()
  {
    r := out + FMT;
    r := Put(r, 16, 4);
    Assoc(out, FMT, Le(16, 4));
    r := PutFormat(r);
    Assoc(out, FMT + Le(16, 4), FmtBody());
  }

  lemma Assoc<T>(a: seq<T>, b: seq<T>, c: seq<T>)
    ensures (a + b) + c == a + (b + c)
  {
  }

  method PutDataHead(out: seq<Byte>, dataSize: nat) returns (r: seq<Byte>)
    ensures r == out + DataHead(dataSize)
  {
    r := out + DATA;
    r := Put(r, dataSize, 4);
  }

  method PutSamples(out: seq<Byte>, samples: seq<Sample>) returns (r: seq<Byte>)
    ensures r == out + Pcm(Quantised(samples))
  {
    r := out;
    ghost var qs := Quantised(samples);
    for i := 0 to |samples|
      invariant r == out + Pcm(qs[..i])
    {
      r := Put(r, AsU16(Quantise(samples[i])), 2);
      assert qs[..i + 1][..i] == qs[..i];
    }
    assert qs[..|samples|] == qs;
  }

  method EncodeWav(samples: seq<Sample>) returns (out: seq<Byte>)
    ensures out == WavBytes(samples)
    ensures ReadsBack(out, samples) <==> 36 + 2 * |samples| < U32
  {
    WavReadsBack(samples);
    hide ReadsBack;
    var dataSize := DataSize(|samples|);
    out := PutRiffHead(dataSize);
    out := PutFormChunk(out);
    out := PutDataHead(out, dataSize);
    out := PutSamples(out, samples);
  }

  // ---------------------------------------------------------------- an independent reader

  datatype Format = Format(tag: nat, channels: nat, rate: nat, byteRate: nat, blockAlign: nat, bits: nat)
  datatype Audio = Audio(format: Format, samples: seq<int>)
  datatype Chunk = Chunk(id: seq<Byte>, body: seq<Byte>)

  /** The chunk list of a RIFF form: id, 32-bit size, body, a pad byte after an odd body. */
  function ParseChunks(bs: seq<Byte>): Option<seq<Chunk>>
    decreases |bs|
  {
    if bs == [] then Some([])
    else if |bs| < 8 then None
    else
      var size := FromLe(bs[4..8]);
      var padded := size + size % 2;
      if 8 + padded > |bs| then None
      else match ParseChunks(bs[8 + padded..])
        case None => None
        case Some(rest) => Some([Chunk(bs[..4], bs[8..8 + size])] + rest)
  }

  function FindChunk(chunks: seq<Chunk>, id: seq<Byte>): Option<seq<Byte>> {
    if chunks == [] then None
    else if chunks[0].id == id then Some(chunks[0].body)
    else FindChunk(chunks[1..], id)
  }

  function ParseFormat(body: seq<Byte>): Option<Format> {
    if |body| < 16 then None
    else Some(Format(FromLe(body[..2]), FromLe(body[2..4]), FromLe(body[4..8]), FromLe(body[8..12]),
                     FromLe(body[12..14]), FromLe(body[14..16])))
  }

  function PcmSample(bs: seq<Byte>, i: nat): int
    requires 2 * i + 2 <= |bs|
  {
    AsI16(FromLe(bs[2 * i..2 * i + 2]))
  }

  function ParsePcm(bs: seq<Byte>): seq<int> {
    seq(|bs| / 2, i requires 0 <= i < |bs| / 2 => PcmSample(bs, i))
  }

  function ParseBody(bs: seq<Byte>): Option<Audio> {
    match ParseChunks(bs)
    case None => None
    case Some(chunks) =>
      match (FindChunk(chunks, FMT), FindChunk(chunks, DATA))
      case (Some(f), Some(d)) =>
        (match ParseFormat(f)
         case None => None
         case Some(format) => if format.tag != 1 || format.bits != 16 then None else Some(Audio(format, ParsePcm(d))))
      case _ => None
  }

  /** Reads a WAVE file of 16-bit linear PCM; the RIFF size must account for the whole file. */
  function ParseWav(bs: seq<Byte>): Option<Audio> {
    if |bs| < 12 || bs[..4] != RIFF || bs[8..12] != WAVE || FromLe(bs[4..8]) + 8 != |bs| then None
    else ParseBody(bs[12..])
  }

  const MONO_16K := Format(1, 1, 16000, 32000, 2, 16)

  /** A player finds 16-bit PCM, mono, 16 kHz, and for every sample its 16-bit value. */
  predicate ReadsBack(wav: seq<Byte>, samples: seq<Sample>) {
    var audio := ParseWav(wav);
    && audio.Some? && audio.value.format == Format(1, 1, 16000, 32000, 2, 16)
    && |audio.value.samples| == |samples|
    && forall i :: 0 <= i < |samples| ==> IsPcm(samples[i], audio.value.samples[i])
  }

  function Ascii(name: string): seq<int> {
    seq(|name|, i requires 0 <= i < |name| => name[i] as int)
  }

  lemma TagsSpell()
    ensures RIFF == Ascii("RIFF") && WAVE == Ascii("WAVE") && FMT == Ascii("fmt ") && DATA == Ascii("data")
  {
  }

  // ---------------------------------------------------------------- the round trip

  lemma {:induction false} PcmAt(qs: seq<int>, i: nat)
    requires i < |qs|
    requires forall i :: 0 <= i < |qs| ==> -32768 <= qs[i] < 32768
    ensures Pcm(qs)[2 * i..2 * i + 2] == Le(AsU16(qs[i]), 2)
  {
    if i < |qs| - 1 {
      PcmAt(qs[..|qs| - 1], i);
      assert Pcm(qs)[2 * i..2 * i + 2] == Pcm(qs[..|qs| - 1])[2 * i..2 * i + 2];
    }
  }

  lemma I16RoundTrip(q: int)
    requires -32768 <= q < 32768
    ensures AsI16(FromLe(Le(AsU16(q), 2))) == q
  {
    FromLeOfLe(AsU16(q), 2);
    assert Pow256(2) == 65536 by { assert Pow256(1) == 256 * Pow256(0); assert Pow256(2) == 256 * Pow256(1); }
  }

  lemma ParsePcmAt(qs: seq<int>, i: nat)
    requires i < |qs|
    requires forall i :: 0 <= i < |qs| ==> -32768 <= qs[i] < 32768
    ensures PcmSample(Pcm(qs), i) == qs[i]
  {
    hide Pcm, Le, FromLe, AsU16, AsI16;
    PcmAt(qs, i);
    I16RoundTrip(qs[i]);
  }

  lemma ParsePcmOfPcm(qs: seq<int>)
    requires forall i :: 0 <= i < |qs| ==> -32768 <= qs[i] < 32768
    ensures ParsePcm(Pcm(qs)) == qs
  {
    hide Pcm, PcmSample;
    var parsed := ParsePcm(Pcm(qs));
    assert |parsed| == |qs|;
    forall i | 0 <= i < |qs| ensures parsed[i] == qs[i] {
      ParsePcmAt(qs, i);
    }
  }

  lemma Pow256Four()
    ensures Pow256(4) == U32 && Pow256(2) == 65536
  {
    assert Pow256(1) == 256 * Pow256(0);
    assert Pow256(2) == 256 * Pow256(1);
    assert Pow256(3) == 256 * Pow256(2);
    assert Pow256(4) == 256 * Pow256(3);
  }

  lemma FmtRoundTrip()
    ensures ParseFormat(FmtBody()) == Some(MONO_16K)
  {
    hide Le, FromLe;
    SixFields(Le(1, 2), Le(1, 2), Le(SAMPLE_RATE, 4), Le(SAMPLE_RATE * 2, 4), Le(2, 2), Le(16, 2));
    Pow256Four();
    FromLeOfLe(1, 2); FromLeOfLe(2, 2); FromLeOfLe(16, 2);
    FromLeOfLe(SAMPLE_RATE, 4); FromLeOfLe(SAMPLE_RATE * 2, 4);
  }

  lemma SixFields(a: seq<Byte>, b: seq<Byte>, c: seq<Byte>, d: seq<Byte>, e: seq<Byte>, f: seq<Byte>)
    requires |a| == |b| == |e| == |f| == 2 && |c| == |d| == 4
    ensures var s := a + b + c + d + e + f;
            && s[..2] == a && s[2..4] == b && s[4..8] == c && s[8..12] == d && s[12..14] == e && s[14..16] == f
  {
  }

  /** One chunk in front of a parsed list. */
  lemma ParseOneChunk(id: seq<Byte>, body: seq<Byte>, rest: seq<Byte>)
    requires |id| == 4 && |body| % 2 == 0 && |body| < U32
    ensures ParseChunks(id + Le(|body|, 4) + body + rest) ==
            match ParseChunks(rest)
            case None => None
            case Some(cs) => Some([Chunk(id, body)] + cs)
  {
    var bs := id + Le(|body|, 4) + body + rest;
    Pow256Four();
    FromLeOfLe(|body|, 4);
    assert bs[4..8] == Le(|body|, 4);
    assert bs[..4] == id;
    assert bs[8..8 + |body|] == body;
    assert bs[8 + |body|..] == rest;
  }

  lemma Layout(size: nat, pcm: seq<Byte>)
    ensures var w := RiffHead(size) + FormChunk() + DataHead(size) + pcm;
            && w[..4] == RIFF && w[4..8] == Le((36 + size) % U32, 4) && w[8..12] == WAVE
            && w[12..] == FormChunk() + (DataHead(size) + pcm)
            && w[40..44] == Le(size, 4)
  {
    HeaderSlices(RiffHead(size), FormChunk(), DataHead(size), pcm);
    var riff := RiffHead(size);
    assert riff[..4] == RIFF && riff[4..8] == Le((36 + size) % U32, 4) && riff[8..12] == WAVE;
    assert DataHead(size)[4..8] == Le(size, 4);
  }

  lemma HeaderSlices(riff: seq<Byte>, form: seq<Byte>, data: seq<Byte>, rest: seq<Byte>)
    requires |riff| == 12 && |form| == 24 && |data| == 8
    ensures var w := riff + form + data + rest;
            && w[..4] == riff[..4] && w[4..8] == riff[4..8] && w[8..12] == riff[8..12]
            && w[12..] == form + (data + rest)
            && w[40..44] == data[4..8]
  {
  }

  lemma SizeArithmetic(n: nat)
    ensures 2 * n < U32 ==> DataSize(n) == 2 * n
    ensures (36 + DataSize(n)) % U32 + 8 == 44 + 2 * n <==> 36 + 2 * n < U32
  {
  }

  /** What the header says about sizes is true exactly below the 32-bit bound. */
  lemma RiffSizeField(samples: seq<Sample>)
    ensures var w := WavBytes(samples);
            && (FromLe(w[4..8]) + 8 == |w| <==> 36 + 2 * |samples| < U32)
            && (2 * |samples| < U32 ==> FromLe(w[40..44]) == 2 * |samples|)
  {
    hide Le, FromLe;
    var size := DataSize(|samples|);
    Layout(size, Pcm(Quantised(samples)));
    SizeArithmetic(|samples|);
    FromLeFour((36 + size) % U32);
    FromLeFour(size);
  }

  lemma FromLeFour(v: nat)
    requires v < U32
    ensures FromLe(Le(v, 4)) == v
  {
    Pow256Four();
    FromLeOfLe(v, 4);
  }

  lemma TwoChunks(form: seq<Byte>, pcm: seq<Byte>)
    requires |form| == 16 && |pcm| % 2 == 0 && |pcm| < U32
    ensures var chunks := ParseChunks(FMT + Le(16, 4) + form + (DataHead(|pcm|) + pcm));
            && chunks.Some?
            && FindChunk(chunks.value, FMT) == Some(form)
            && FindChunk(chunks.value, DATA) == Some(pcm)
  {
    var tail := DATA + Le(|pcm|, 4) + pcm;
    assert tail + [] == tail;
    ParseOneChunk(FMT, form, tail);
    ParseOneChunk(DATA, pcm, []);
    var chunks := [Chunk(FMT, form), Chunk(DATA, pcm)];
    assert [Chunk(FMT, form)] + [Chunk(DATA, pcm)] == chunks;
    assert FMT[0] != DATA[0];
    assert chunks[1..] == [Chunk(DATA, pcm)];
  }

  lemma BodyRoundTrip(samples: seq<Sample>)
    requires 2 * |samples| < U32
    ensures ParseBody(FormChunk() + (DataHead(2 * |samples|) + Pcm(Quantised(samples))))
         == Some(Audio(MONO_16K, Quantised(samples)))
  {
    hide Le, FromLe, Pcm, ParseChunks, FindChunk, ParseFormat, ParsePcm;
    TwoChunks(FmtBody(), Pcm(Quantised(samples)));
    FmtRoundTrip();
    ParsePcmOfPcm(Quantised(samples));
  }

  /** The round trip, with its exact bound: the reader accepts a printed file, and then returns precisely the
      clipped 16-bit samples, if and only if the file fits 32-bit sizes. */
  lemma WavRoundTrip(samples: seq<Sample>)
    ensures ParseWav(WavBytes(samples)) ==
            if 36 + 2 * |samples| < U32 then Some(Audio(MONO_16K, Quantised(samples))) else None
  {
    hide Le, FromLe, Pcm, FormChunk, DataHead, ParseBody;
    RiffSizeField(samples);
    Layout(DataSize(|samples|), Pcm(Quantised(samples)));
    if 36 + 2 * |samples| < U32 {
      SizeArithmetic(|samples|);
      BodyRoundTrip(samples);
    }
  }

  /** So every sample comes back as its 16-bit value exactly below that bound. */
  lemma WavReadsBack(samples: seq<Sample>)
    ensures ReadsBack(WavBytes(samples), samples) <==> 36 + 2 * |samples| < U32
  {
    hide WavBytes, ParseWav, IsPcm;
    WavRoundTrip(samples);
    forall i | 0 <= i < |samples| ensures IsPcm(samples[i], Quantised(samples)[i]) {
      QuantiseMeans(samples[i], Quantise(samples[i]));
    }
  }
}
