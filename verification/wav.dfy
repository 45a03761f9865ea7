/**
  The WAV writer: `getWavArray` lays a 44-byte RIFF/WAVE header (mono,
  16-bit PCM) in front of the samples, each stored as two little-endian
  bytes in two's complement. `fillU16`/`fillU32` are `Bytes.FillU16` and
  `Bytes.FillU32`.
*/
module Wav {
  import opened Bytes
  import opened External

  const HeaderLength: nat := 44
  const NumChannels: nat := 1
  const BitsPerSample: nat := 16
  /** `(numChannels * bitsPerSample) >> 3` */
  const BlockAlign: nat := 2
  /** The length of the `fmt ` sub-chunk's body for PCM. */
  const SubChunk1Size: nat := 16
  /** PCM is audio format 1. */
  const AudioFormat: nat := 1

  const Riff: seq<byte> := [0x52, 0x49, 0x46, 0x46]
  const Wave: seq<byte> := [0x57, 0x41, 0x56, 0x45]
  const Fmt: seq<byte> := [0x66, 0x6D, 0x74, 0x20]
  const DataId: seq<byte> := [0x64, 0x61, 0x74, 0x61]

  /* ---------- samples ---------- */

  /**
    The two bytes written for one sample: a negative sample becomes
    `0xffff - ~sample`, i.e. its two's complement, and the low and high bytes
    follow in that order.
  */
  function SampleBytes(s: Sample): (r: seq<byte>)
    ensures |r| == 2
    ensures DecodeU16(r) == (s + Two16) % Two16
  {
    var u: nat := if s < 0 then 0xFFFF - (-(s as int) - 1) else s;
    TwoDigits(u);
    assert (s + Two16) % Two16 == u by {
      if s < 0 { DivModUnique(s + Two16, Two16, 0, u); }
      else { DivModUnique(s + Two16, Two16, 1, u); }
    }
    [Low8(u), Low8(u / 256)]
  }

  /** How a WAV reader takes a 16-bit little-endian two's-complement sample back. */
  function DecodeSample(b: seq<byte>): (s: Sample)
    requires |b| == 2
  {
    var v := DecodeU16(b);
    if v >= 0x8000 then v - Two16 else v
  }

  /** The sample encoding is a bijection between samples and byte pairs. */
  lemma SampleRoundTrip(s: Sample, b: seq<byte>)
    requires |b| == 2
    ensures DecodeSample(SampleBytes(s)) == s
    ensures SampleBytes(DecodeSample(b)) == b
  {
    var v := DecodeU16(b);
    var t := DecodeSample(b);
    assert DecodeU16(SampleBytes(t)) == v by {
      if v >= 0x8000 { DivModUnique(t + Two16, Two16, 0, v); }
      else { DivModUnique(t + Two16, Two16, 1, v); }
    }
    DecodeU16Injective(SampleBytes(t), b);
  }

  lemma DecodeU16Injective(x: seq<byte>, y: seq<byte>)
    requires |x| == 2 && |y| == 2
    ensures DecodeU16(x) == DecodeU16(y) ==> x == y
  {
    if DecodeU16(x) == DecodeU16(y) {
      var n := DecodeU16(x);
      DivModUnique(n, 256, x[1], x[0]);
      DivModUnique(n, 256, y[1], y[0]);
      assert x == [x[0], x[1]] && y == [y[0], y[1]];
    }
  }

  /** The data chunk: every sample's two bytes, in order. */
  function DataChunk(samples: seq<Sample>): seq<byte>
  {
    FlatMap(samples, SampleBytes)
  }

  /** Sample `i` occupies bytes `2i` and `2i + 1` of the data chunk. */
  lemma {:induction false} DataChunkLayout(samples: seq<Sample>, i: nat)
    requires i < |samples|
    ensures |DataChunk(samples)| == 2 * |samples|
    ensures DataChunk(samples)[2 * i .. 2 * i + 2] == SampleBytes(samples[i])
    ensures DecodeSample(DataChunk(samples)[2 * i .. 2 * i + 2]) == samples[i]
    decreases |samples|
  {
    var n := |samples| - 1;
    var init := samples[..n];
    assert samples == init + [samples[n]];
    FlatMapSnoc(init, samples[n], SampleBytes);
    DataChunkLength(init);
    if i < n {
      DataChunkLayout(init, i);
    }
    SampleRoundTrip(samples[i], SampleBytes(samples[i]));
  }

  lemma {:induction false} DataChunkLength(samples: seq<Sample>)
    ensures |DataChunk(samples)| == 2 * |samples|
    decreases |samples|
  {
    if |samples| > 0 {
      var n := |samples| - 1;
      assert samples == samples[..n] + [samples[n]];
      FlatMapSnoc(samples[..n], samples[n], SampleBytes);
      DataChunkLength(samples[..n]);
    }
  }

  /* ---------- header ---------- */

  /** The 44 header bytes for the given field values, in file order, every number little-endian. */
  function HeaderBytes(chunkSize: nat, sampleRate: nat, byteRate: nat, blockAlign: nat, dataSize: nat): seq<byte>
  {
    Riff + MakeUint32(chunkSize) + Wave
    + Fmt + MakeUint32(SubChunk1Size) + MakeUint16(AudioFormat) + MakeUint16(NumChannels)
    + MakeUint32(sampleRate) + MakeUint32(byteRate) + MakeUint16(blockAlign) + MakeUint16(BitsPerSample)
    + DataId + MakeUint32(dataSize)
  }

  /**
    The canonical header for `numSamples` mono 16-bit samples at `rate`: the
    RIFF chunk holds 36 header bytes plus the data, each sample frame is two
    bytes, and the data is two bytes per sample.
  */
  function WavHeader(numSamples: nat, rate: nat): seq<byte>
  {
    HeaderBytes(36 + 2 * numSamples, rate, BlockAlign * rate, BlockAlign, 2 * numSamples)
  }

  /** What a WAV reader finds in each field of a header laid out from the given values. */
  lemma HeaderFields(chunkSize: nat, sampleRate: nat, byteRate: nat, blockAlign: nat, dataSize: nat)
    ensures var h := HeaderBytes(chunkSize, sampleRate, byteRate, blockAlign, dataSize);
      && |h| == HeaderLength
      && h[0..4] == Riff
      && DecodeU32(h[4..8]) == chunkSize % Two32
      && h[8..12] == Wave
      && h[12..16] == Fmt
      && DecodeU32(h[16..20]) == SubChunk1Size
      && DecodeU16(h[20..22]) == AudioFormat
      && DecodeU16(h[22..24]) == NumChannels
      && DecodeU32(h[24..28]) == sampleRate % Two32
      && DecodeU32(h[28..32]) == byteRate % Two32
      && DecodeU16(h[32..34]) == blockAlign % Two16
      && DecodeU16(h[34..36]) == BitsPerSample
      && h[36..40] == DataId
      && DecodeU32(h[40..44]) == dataSize % Two32
  {
    Fields(Riff, MakeUint32(chunkSize), Wave, Fmt, MakeUint32(SubChunk1Size),
           MakeUint16(AudioFormat), MakeUint16(NumChannels), MakeUint32(sampleRate), MakeUint32(byteRate),
           MakeUint16(blockAlign), MakeUint16(BitsPerSample), DataId, MakeUint32(dataSize));
  }

  /** Where each of the thirteen fields of a header lies, whatever their contents. */
  lemma Fields(a1: seq<byte>, a2: seq<byte>, a3: seq<byte>, a4: seq<byte>, a5: seq<byte>, a6: seq<byte>,
               a7: seq<byte>, a8: seq<byte>, a9: seq<byte>, a10: seq<byte>, a11: seq<byte>, a12: seq<byte>,
               a13: seq<byte>)
    requires |a1| == 4 && |a2| == 4 && |a3| == 4 && |a4| == 4 && |a5| == 4 && |a6| == 2 && |a7| == 2
    requires |a8| == 4 && |a9| == 4 && |a10| == 2 && |a11| == 2 && |a12| == 4 && |a13| == 4
    ensures var h := a1 + a2 + a3 + a4 + a5 + a6 + a7 + a8 + a9 + a10 + a11 + a12 + a13;
      && |h| == HeaderLength
      && h[0..4] == a1 && h[4..8] == a2 && h[8..12] == a3 && h[12..16] == a4 && h[16..20] == a5
      && h[20..22] == a6 && h[22..24] == a7 && h[24..28] == a8 && h[28..32] == a9
      && h[32..34] == a10 && h[34..36] == a11 && h[36..40] == a12 && h[40..44] == a13
  {
  }

  /* ---------- the writer ---------- */

  /**
    `getWavArray(samples)`: a zeroed array of `2n + 44` bytes, the header
    fields written in place one by one, then each sample's two bytes at
    `44 + 2i`. The result is the canonical header followed by the data chunk.
  */
  method GetWavArray(samples: seq<Sample>, rate: nat) returns (wav: seq<byte>)
    ensures wav == WavHeader(|samples|, rate) + DataChunk(samples)
  {
    var sampleRate := rate;
    var blockAlign := BlockAlign;
    var byteRate := BlockAlign * sampleRate;
    var subChunk2Size := 2 * |samples|;
    var chunkSize := 36 + subChunk2Size;

    wav := Zeros(|samples| * 2 + HeaderLength);
    wav := WriteHeader(wav, chunkSize, sampleRate, byteRate, blockAlign, subChunk2Size);
    ghost var header := wav[..HeaderLength];
    assert header == WavHeader(|samples|, rate);
    wav := WriteSamples(wav, samples);
    Split(wav, header, DataChunk(samples));
  }

  /** Whatever the 44 header bytes, a reader takes every sample back from its place after them. */
  lemma WavSamplesReadBack(header: seq<byte>, samples: seq<Sample>, i: nat)
    requires |header| == HeaderLength && i < |samples|
    ensures var wav := header + DataChunk(samples);
      && |wav| == HeaderLength + 2 * |samples|
      && DecodeSample(wav[HeaderLength + 2 * i .. HeaderLength + 2 * i + 2]) == samples[i]
  {
    DataChunkLayout(samples, i);
    assert (header + DataChunk(samples))[HeaderLength + 2 * i .. HeaderLength + 2 * i + 2]
        == DataChunk(samples)[2 * i .. 2 * i + 2];
  }

  /**
    What a WAV reader finds in the array `getWavArray` returns for `n`
    samples at `rate`: `44 + 2n` bytes, a chunk size of `36 + 2n`, a byte
    rate of `2 * rate` and a data size of `2n` (each modulo 2^32, as
    `fillU32` writes them), and every sample back from offset `44 + 2i`.
  */
  lemma WavArrayLayout(samples: seq<Sample>, rate: nat)
    ensures var wav := WavHeader(|samples|, rate) + DataChunk(samples);
      && |wav| == HeaderLength + 2 * |samples|
      && DecodeU32(wav[4..8]) == (36 + 2 * |samples|) % Two32
      && DecodeU32(wav[24..28]) == rate % Two32
      && DecodeU32(wav[28..32]) == (2 * rate) % Two32
      && DecodeU32(wav[40..44]) == (2 * |samples|) % Two32
      && forall i | 0 <= i < |samples| ::
           DecodeSample(wav[HeaderLength + 2 * i .. HeaderLength + 2 * i + 2]) == samples[i]
  {
    var h := WavHeader(|samples|, rate);
    HeaderFields(36 + 2 * |samples|, rate, BlockAlign * rate, BlockAlign, 2 * |samples|);
    HeaderPrefix(h, DataChunk(samples));
    AllSamplesReadBack(h, samples);
  }

  lemma HeaderPrefix(h: seq<byte>, d: seq<byte>)
    requires |h| == HeaderLength
    ensures (h + d)[4..8] == h[4..8] && (h + d)[24..28] == h[24..28]
    ensures (h + d)[28..32] == h[28..32] && (h + d)[40..44] == h[40..44]
  {
  }

  lemma AllSamplesReadBack(header: seq<byte>, samples: seq<Sample>)
    requires |header| == HeaderLength
    ensures var wav := header + DataChunk(samples);
      && |wav| == HeaderLength + 2 * |samples|
      && forall i | 0 <= i < |samples| ::
           DecodeSample(wav[HeaderLength + 2 * i .. HeaderLength + 2 * i + 2]) == samples[i]
  {
    DataChunkLength(samples);
    forall i | 0 <= i < |samples|
      ensures DecodeSample((header + DataChunk(samples))[HeaderLength + 2 * i .. HeaderLength + 2 * i + 2]) == samples[i]
    {
      WavSamplesReadBack(header, samples, i);
    }
  }

  /**
    The sample loop of `getWavArray`: sample `i`'s two bytes go to
    `44 + 2i` and `45 + 2i`; the header is left alone.
  */
  method WriteSamples(wav: seq<byte>, samples: seq<Sample>) returns (wav': seq<byte>)
    requires |wav| == HeaderLength + 2 * |samples|
    ensures |wav'| == |wav|
    ensures wav'[..HeaderLength] == wav[..HeaderLength]
    ensures wav'[HeaderLength..] == DataChunk(samples)
  {
    wav' := wav;
    for i := 0 to |samples|
      invariant |wav'| == |wav|
      invariant wav'[..HeaderLength] == wav[..HeaderLength]
      invariant wav'[HeaderLength..HeaderLength + 2 * i] == DataChunk(samples[..i])
    {
      var bytes := SampleBytes(samples[i]);
      ghost var before := wav';
      wav' := wav'[HeaderLength + 2 * i := bytes[0]][HeaderLength + 2 * i + 1 := bytes[1]];
      assert samples[..i + 1] == samples[..i] + [samples[i]];
      FlatMapSnoc(samples[..i], samples[i], SampleBytes);
      assert wav'[HeaderLength..HeaderLength + 2 * (i + 1)]
          == before[HeaderLength..HeaderLength + 2 * i] + bytes;
      assert wav'[..HeaderLength] == before[..HeaderLength];
    }
    assert samples[..|samples|] == samples;
  }

  /** The header fields of `getWavArray`, written in place in file order. */
  method WriteHeader(zeroed: seq<byte>, chunkSize: nat, sampleRate: nat, byteRate: nat, blockAlign: nat,
                     subChunk2Size: nat) returns (wav: seq<byte>)
    requires |zeroed| >= HeaderLength
    ensures |wav| == |zeroed|
    ensures wav[..HeaderLength] == HeaderBytes(chunkSize, sampleRate, byteRate, blockAlign, subChunk2Size)
    ensures wav[HeaderLength..] == zeroed[HeaderLength..]
  {
    wav := WriteRiffAndFormat(zeroed, chunkSize);
    wav := WriteRatesAndData(wav, sampleRate, byteRate, blockAlign, subChunk2Size);
    assert wav[HeaderLength..] == zeroed[HeaderLength..];
  }

  lemma Split(w: seq<byte>, h: seq<byte>, d: seq<byte>)
    requires |w| == |h| + |d| && w[..|h|] == h && w[|h|..] == d
    ensures w == h + d
  {
    assert w == w[..|h|] + w[|h|..];
  }

  /** Bytes 0-23: the RIFF descriptor and the first half of the `fmt ` sub-chunk. */
  method WriteRiffAndFormat(wav: seq<byte>, chunkSize: nat) returns (wav': seq<byte>)
    requires |wav| >= HeaderLength
    ensures |wav'| == |wav|
    ensures wav'[..24] == Riff + MakeUint32(chunkSize) + Wave
                          + Fmt + MakeUint32(SubChunk1Size) + MakeUint16(AudioFormat) + MakeUint16(NumChannels)
    ensures forall j | 24 <= j < |wav| :: wav'[j] == wav[j]
  {
    wav' := WriteDescriptor(wav, chunkSize);
    wav' := WriteFormat(wav');
  }

  /** Bytes 24-43: the second half of the `fmt ` sub-chunk and the `data` sub-chunk's header. */
  method WriteRatesAndData(wav: seq<byte>, sampleRate: nat, byteRate: nat, blockAlign: nat, subChunk2Size: nat)
    returns (wav': seq<byte>)
    requires |wav| >= HeaderLength
    ensures |wav'| == |wav|
    ensures wav'[..HeaderLength] == wav[..24] + MakeUint32(sampleRate) + MakeUint32(byteRate)
                                    + MakeUint16(blockAlign) + MakeUint16(BitsPerSample)
                                    + DataId + MakeUint32(subChunk2Size)
    ensures forall j | HeaderLength <= j < |wav| :: wav'[j] == wav[j]
  {
    wav' := WriteRates(wav, sampleRate, byteRate, blockAlign);
    wav' := WriteDataHeader(wav', subChunk2Size);
  }

  /** Bytes 0-11: "RIFF", the chunk size and "WAVE". */
  method WriteDescriptor(wav: seq<byte>, chunkSize: nat) returns (wav': seq<byte>)
    requires |wav| >= HeaderLength
    ensures |wav'| == |wav|
    ensures wav'[..12] == Riff + MakeUint32(chunkSize) + Wave
    ensures forall j | 12 <= j < |wav| :: wav'[j] == wav[j]
  {
    ghost var h: seq<byte> := [];
    wav', h := PutBytes(wav, 0, h, Riff);
    assert h == Riff;
    wav', h := PutU32(wav', 4, h, chunkSize);
    wav', h := PutBytes(wav', 8, h, Wave);
  }

  /** Bytes 12-23: "fmt ", its length, the audio format and the channel count. */
  method WriteFormat(wav: seq<byte>) returns (wav': seq<byte>)
    requires |wav| >= HeaderLength
    ensures |wav'| == |wav|
    ensures wav'[..24] == wav[..12] + Fmt + MakeUint32(SubChunk1Size) + MakeUint16(AudioFormat) + MakeUint16(NumChannels)
    ensures forall j | 24 <= j < |wav| :: wav'[j] == wav[j]
  {
    ghost var h := wav[..12];
    wav', h := PutBytes(wav, 12, h, Fmt);
    wav', h := PutU32(wav', 16, h, SubChunk1Size);
    wav', h := PutU16(wav', 20, h, AudioFormat);
    wav', h := PutU16(wav', 22, h, NumChannels);
  }

  /** Bytes 24-35: the sample rate, the byte rate, the block alignment and the sample width. */
  method WriteRates(wav: seq<byte>, sampleRate: nat, byteRate: nat, blockAlign: nat)
    returns (wav': seq<byte>)
    requires |wav| >= HeaderLength
    ensures |wav'| == |wav|
    ensures wav'[..36] == wav[..24] + MakeUint32(sampleRate) + MakeUint32(byteRate)
                          + MakeUint16(blockAlign) + MakeUint16(BitsPerSample)
    ensures forall j | 36 <= j < |wav| :: wav'[j] == wav[j]
  {
    ghost var h := wav[..24];
    wav', h := PutU32(wav, 24, h, sampleRate);
    wav', h := PutU32(wav', 28, h, byteRate);
    wav', h := PutU16(wav', 32, h, blockAlign);
    wav', h := PutU16(wav', 34, h, BitsPerSample);
  }

  /** Bytes 36-43: "data" and the data size. */
  method WriteDataHeader(wav: seq<byte>, subChunk2Size: nat) returns (wav': seq<byte>)
    requires |wav| >= HeaderLength
    ensures |wav'| == |wav|
    ensures wav'[..HeaderLength] == wav[..36] + DataId + MakeUint32(subChunk2Size)
    ensures forall j | HeaderLength <= j < |wav| :: wav'[j] == wav[j]
  {
    ghost var h := wav[..36];
    wav', h := PutBytes(wav, 36, h, DataId);
    wav', h := PutU32(wav', 40, h, subChunk2Size);
  }

  /** Bytes written in place directly after the bytes already written. */
  method PutBytes(wav: seq<byte>, off: nat, ghost written: seq<byte>, field: seq<byte>)
    returns (wav': seq<byte>, ghost written': seq<byte>)
    requires off == |written| && off + |field| <= |wav|
    requires wav[..|written|] == written
    ensures |wav'| == |wav|
    ensures written' == written + field
    ensures wav'[..|written'|] == written'
    ensures forall j | |written'| <= j < |wav| :: wav'[j] == wav[j]
  {
    wav' := AppendData(wav, field, off);
    AppendDataExtends(wav, field, off);
    written' := written + field;
  }

  /** `fillU32` directly after the bytes already written. */
  method PutU32(wav: seq<byte>, off: nat, ghost written: seq<byte>, val: nat)
    returns (wav': seq<byte>, ghost written': seq<byte>)
    requires off == |written| && off + 4 <= |wav|
    requires wav[..|written|] == written
    ensures |wav'| == |wav|
    ensures written' == written + MakeUint32(val)
    ensures wav'[..|written'|] == written'
    ensures forall j | |written'| <= j < |wav| :: wav'[j] == wav[j]
  {
    wav' := FillU32(wav, off, val);
    assert wav' == AppendData(wav, MakeUint32(val), off);
    AppendDataExtends(wav, MakeUint32(val), off);
    written' := written + MakeUint32(val);
  }

  /** `fillU16` directly after the bytes already written. */
  method PutU16(wav: seq<byte>, off: nat, ghost written: seq<byte>, val: nat)
    returns (wav': seq<byte>, ghost written': seq<byte>)
    requires off == |written| && off + 2 <= |wav|
    requires wav[..|written|] == written
    ensures |wav'| == |wav|
    ensures written' == written + MakeUint16(val)
    ensures wav'[..|written'|] == written'
    ensures forall j | |written'| <= j < |wav| :: wav'[j] == wav[j]
  {
    wav' := FillU16(wav, off, val);
    assert wav' == AppendData(wav, MakeUint16(val), off);
    AppendDataExtends(wav, MakeUint16(val), off);
    written' := written + MakeUint16(val);
  }
}
