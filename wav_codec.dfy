/** The byte-level audio codecs of the voice page: 16-bit little-endian PCM
    samples to and from bytes, and the canonical 44-byte RIFF/WAVE header
    for mono 16-bit PCM (the "fmt " and "data" chunks of the WAVE form in
    the Microsoft/IBM Multimedia Programming Interface and Data
    Specifications 1.0). */
module WavCodec {

  import opened Wrappers

  newtype byte = x: int | 0 <= x < 256
  newtype int16 = x: int | -0x8000 <= x < 0x8000

  /** Storing an integer into an `Int16Array` element: wrap-around to the
      signed 16-bit range. */
  function ToInt16(x: int): (r: int16)
    ensures (r as int - x) % 0x10000 == 0
  {
    ((x + 0x8000) % 0x10000 - 0x8000) as int16
  }

  /** The low and high byte of a sample in two's complement, as
      `setInt16(offset, sample, true)` writes them. */
  function Lo(s: int16): byte
  {
    ((s as int % 0x10000) % 256) as byte
  }

  function Hi(s: int16): byte
  {
    ((s as int % 0x10000) / 256) as byte
  }

  /** `byte1 | (byte2 << 8)` stored into an `Int16Array` element. */
  function SampleFromBytes(b0: byte, b1: byte): int16
  {
    ToInt16(b0 as int + 256 * b1 as int)
  }

  lemma SampleBytesRoundTrip(s: int16)
    ensures SampleFromBytes(Lo(s), Hi(s)) == s
  {
    var u := s as int % 0x10000;
    assert Lo(s) as int + 256 * Hi(s) as int == u;
    if s < 0 {
      assert u == s as int + 0x10000;
    } else {
      assert u == s as int;
    }
  }

  lemma BytesSampleRoundTrip(b0: byte, b1: byte)
    ensures Lo(SampleFromBytes(b0, b1)) == b0 && Hi(SampleFromBytes(b0, b1)) == b1
  {
    var u := b0 as int + 256 * b1 as int;
    var s := SampleFromBytes(b0, b1);
    if u < 0x8000 {
      assert s as int == u;
    } else {
      assert s as int == u - 0x10000;
      assert s as int % 0x10000 == u;
    }
  }

  /** Samples as little-endian bytes, two per sample, in order. */
  function EncodeSamples(samples: seq<int16>): (r: seq<byte>)
    ensures |r| == 2 * |samples|
    ensures forall i :: 0 <= i < |samples| ==> r[2 * i] == Lo(samples[i]) && r[2 * i + 1] == Hi(samples[i])
  {
    if |samples| == 0 then [] else [Lo(samples[0]), Hi(samples[0])] + EncodeSamples(samples[1..])
  }

  /** Bytes read as little-endian samples: one per whole pair of bytes, a
      trailing odd byte being ignored. */
  function DecodeSamples(bytes: seq<byte>): (r: seq<int16>)
    ensures |r| == |bytes| / 2
    ensures forall i :: 0 <= i < |r| ==> r[i] == SampleFromBytes(bytes[2 * i], bytes[2 * i + 1])
  {
    if |bytes| < 2 then [] else [SampleFromBytes(bytes[0], bytes[1])] + DecodeSamples(bytes[2..])
  }

  /** Decoding inverts encoding. */
  lemma DecodeEncode(samples: seq<int16>)
    ensures DecodeSamples(EncodeSamples(samples)) == samples
  {
    var d := DecodeSamples(EncodeSamples(samples));
    forall i | 0 <= i < |samples| ensures d[i] == samples[i] {
      SampleBytesRoundTrip(samples[i]);
    }
  }

  /** Encoding inverts decoding, up to the odd trailing byte. */
  lemma {:induction false} EncodeDecode(bytes: seq<byte>)
    ensures EncodeSamples(DecodeSamples(bytes)) == bytes[..2 * (|bytes| / 2)]
    decreases |bytes|
  {
    if |bytes| >= 2 {
      var rest := bytes[2..];
      EncodeDecode(rest);
      BytesSampleRoundTrip(bytes[0], bytes[1]);
      assert 2 * (|bytes| / 2) == 2 + 2 * (|rest| / 2);
      assert DecodeSamples(bytes) == [SampleFromBytes(bytes[0], bytes[1])] + DecodeSamples(rest);
      assert bytes[..2 * (|bytes| / 2)] == [bytes[0], bytes[1]] + rest[..2 * (|rest| / 2)];
    }
  }

  /** 256 to the power k. */
  function Pow256(k: nat): (p: nat)
    ensures p >= 1
  {
    if k == 0 then 1 else 256 * Pow256(k - 1)
  }

  /** The k low-order bytes of v, least significant first. */
  function LE(v: nat, k: nat): (r: seq<byte>)
    ensures |r| == k
  {
    if k == 0 then [] else [(v % 256) as byte] + LE(v / 256, k - 1)
  }

  /** The value of little-endian bytes. */
  function ReadLE(bytes: seq<byte>): nat
  {
    if |bytes| == 0 then 0 else bytes[0] as nat + 256 * ReadLE(bytes[1..])
  }

  /** Reading back little-endian bytes gives the value written, when it fits. */
  lemma {:induction false} ReadLEOfLE(v: nat, k: nat)
    requires v < Pow256(k)
    ensures ReadLE(LE(v, k)) == v
  {
    if k > 0 {
      assert v / 256 < Pow256(k - 1);
      ReadLEOfLE(v / 256, k - 1);
      assert LE(v, k)[1..] == LE(v / 256, k - 1);
    }
  }

  /** `setUint16(offset, x, true)`: x modulo 2^16, little-endian. */
  function LE16(x: int): (r: seq<byte>)
    ensures ReadLE(r) == x % 0x10000 && |r| == 2
  {
    assert Pow256(2) == 0x10000;
    ReadLEOfLE(x % 0x10000, 2);
    LE(x % 0x10000, 2)
  }

  /** `setUint32(offset, x, true)`: x modulo 2^32, little-endian. */
  function LE32(x: int): (r: seq<byte>)
    ensures ReadLE(r) == x % 0x1_0000_0000 && |r| == 4
  {
    assert Pow256(4) == 0x1_0000_0000;
    ReadLEOfLE(x % 0x1_0000_0000, 4);
    LE(x % 0x1_0000_0000, 4)
  }

  /** The character codes of the four-character chunk tags, as
      `writeString` stores them one byte each. */
  const RiffTag: seq<byte> := [0x52, 0x49, 0x46, 0x46]  // "RIFF"
  const WaveTag: seq<byte> := [0x57, 0x41, 0x56, 0x45]  // "WAVE"
  const FmtTag: seq<byte> := [0x66, 0x6D, 0x74, 0x20]   // "fmt "
  const DataTag: seq<byte> := [0x64, 0x61, 0x74, 0x61]  // "data"

  const NumChannels := 1
  const BitsPerSample := 16
  const HeaderSize := 44

  /** The header for n mono 16-bit samples at the given rate, in the order
      and at the offsets `pcmToWav` writes it: the RIFF chunk header and form
      type (bytes 0-11), the "fmt " chunk (12-35) and the "data" chunk
      header (36-43). */
  function WavHeader(n: nat, sampleRate: nat): seq<byte>
  {
    var dataSize := n * 2;
    var bufferSize := HeaderSize + dataSize;
    RiffPart(bufferSize) + FmtPart() + RatePart(sampleRate) + DataPart(dataSize)
  }

  function RiffPart(bufferSize: int): (p: seq<byte>)
    ensures |p| == 12
  {
    RiffTag + LE32(bufferSize - 8) + WaveTag
  }

  function FmtPart(): (p: seq<byte>)
    ensures |p| == 12
  {
    FmtTag + LE32(16) + LE16(1) + LE16(NumChannels)
  }

  function RatePart(sampleRate: nat): (p: seq<byte>)
    ensures |p| == 12
  {
    LE32(sampleRate) + LE32(sampleRate * NumChannels * BitsPerSample / 8)
    + LE16(NumChannels * BitsPerSample / 8) + LE16(BitsPerSample)
  }

  function DataPart(dataSize: int): (p: seq<byte>)
    ensures |p| == 8
  {
    DataTag + LE32(dataSize)
  }

  /** The whole WAV file `pcmToWav` produces. */
  function WavFile(samples: seq<int16>, sampleRate: nat): seq<byte>
  {
    WavHeader(|samples|, sampleRate) + EncodeSamples(samples)
  }

  /** Where every field of the file lies, and what it holds: the tags, the
      RIFF size (the file length less 8) and the data size (two bytes per
      sample), both modulo 2^32, the fixed format fields, the sample rate
      and byte rate, and then the samples. */
  lemma WavLayout(samples: seq<int16>, sampleRate: nat)
    ensures var w := WavFile(samples, sampleRate);
      && |w| == HeaderSize + 2 * |samples|
      && w[0..4] == RiffTag && ReadLE(w[4..8]) == (|w| - 8) % 0x1_0000_0000
      && w[8..12] == WaveTag && w[12..16] == FmtTag
      && ReadLE(w[16..20]) == 16 && ReadLE(w[20..22]) == 1 && ReadLE(w[22..24]) == 1
      && ReadLE(w[24..28]) == sampleRate % 0x1_0000_0000
      && ReadLE(w[28..32]) == (sampleRate * 2) % 0x1_0000_0000
      && ReadLE(w[32..34]) == 2 && ReadLE(w[34..36]) == 16
      && w[36..40] == DataTag && ReadLE(w[40..44]) == (2 * |samples|) % 0x1_0000_0000
      && w[44..] == EncodeSamples(samples)
  {
    var n := |samples|;
    var h := WavHeader(n, sampleRate);
    var e := EncodeSamples(samples);
    HeaderFields(n, sampleRate);
    HeaderValues(n, sampleRate);
    assert WavFile(samples, sampleRate) == h + e;
    PrefixSlice(h, e, 0, 4);
    PrefixSlice(h, e, 4, 8);
    PrefixSlice(h, e, 8, 12);
    PrefixSlice(h, e, 12, 16);
    PrefixSlice(h, e, 16, 20);
    PrefixSlice(h, e, 20, 22);
    PrefixSlice(h, e, 22, 24);
    PrefixSlice(h, e, 24, 28);
    PrefixSlice(h, e, 28, 32);
    PrefixSlice(h, e, 32, 34);
    PrefixSlice(h, e, 34, 36);
    PrefixSlice(h, e, 36, 40);
    PrefixSlice(h, e, 40, 44);
    assert (h + e)[44..] == e;
  }

  lemma PrefixSlice(h: seq<byte>, e: seq<byte>, a: nat, b: nat)
    requires a <= b <= |h|
    ensures (h + e)[a..b] == h[a..b]
  {
  }

  /** The header's fields, slice by slice. */
  lemma HeaderFields(n: nat, sampleRate: nat)
    ensures var h := WavHeader(n, sampleRate);
      && |h| == HeaderSize
      && h[0..4] == RiffTag && h[4..8] == LE32(HeaderSize + 2 * n - 8)
      && h[8..12] == WaveTag && h[12..16] == FmtTag
      && h[16..20] == LE32(16) && h[20..22] == LE16(1) && h[22..24] == LE16(1)
      && h[24..28] == LE32(sampleRate) && h[28..32] == LE32(sampleRate * 2)
      && h[32..34] == LE16(2) && h[34..36] == LE16(16)
      && h[36..40] == DataTag && h[40..44] == LE32(2 * n)
  {
    HeaderRiff(n, sampleRate);
    HeaderFmt(n, sampleRate);
    HeaderRates(n, sampleRate);
    HeaderData(n, sampleRate);
  }

  lemma HeaderParts(n: nat, sampleRate: nat)
    ensures var h := WavHeader(n, sampleRate);
      && |h| == HeaderSize
      && h[0..12] == RiffPart(HeaderSize + 2 * n) && h[12..24] == FmtPart()
      && h[24..36] == RatePart(sampleRate) && h[36..44] == DataPart(2 * n)
  {
    PartsAt(RiffPart(HeaderSize + n * 2), FmtPart(), RatePart(sampleRate), DataPart(n * 2));
  }

  lemma HeaderRiff(n: nat, sampleRate: nat)
    ensures var h := WavHeader(n, sampleRate);
      |h| == HeaderSize && h[0..4] == RiffTag && h[4..8] == LE32(HeaderSize + 2 * n - 8) && h[8..12] == WaveTag
  {
    var h := WavHeader(n, sampleRate);
    HeaderParts(n, sampleRate);
    RiffFields(HeaderSize + 2 * n);
    SliceOfSlice(h, 0, 12, 0, 4);
    SliceOfSlice(h, 0, 12, 4, 8);
    SliceOfSlice(h, 0, 12, 8, 12);
  }

  lemma HeaderFmt(n: nat, sampleRate: nat)
    ensures var h := WavHeader(n, sampleRate);
      |h| == HeaderSize && h[12..16] == FmtTag && h[16..20] == LE32(16) && h[20..22] == LE16(1) && h[22..24] == LE16(1)
  {
    var h := WavHeader(n, sampleRate);
    HeaderParts(n, sampleRate);
    FmtFields();
    SliceOfSlice(h, 12, 24, 0, 4);
    SliceOfSlice(h, 12, 24, 4, 8);
    SliceOfSlice(h, 12, 24, 8, 10);
    SliceOfSlice(h, 12, 24, 10, 12);
  }

  lemma HeaderRates(n: nat, sampleRate: nat)
    ensures var h := WavHeader(n, sampleRate);
      && |h| == HeaderSize && h[24..28] == LE32(sampleRate) && h[28..32] == LE32(sampleRate * 2)
      && h[32..34] == LE16(2) && h[34..36] == LE16(16)
  {
    var h := WavHeader(n, sampleRate);
    HeaderParts(n, sampleRate);
    RateFields(sampleRate);
    SliceOfSlice(h, 24, 36, 0, 4);
    SliceOfSlice(h, 24, 36, 4, 8);
    SliceOfSlice(h, 24, 36, 8, 10);
    SliceOfSlice(h, 24, 36, 10, 12);
  }

  lemma HeaderData(n: nat, sampleRate: nat)
    ensures var h := WavHeader(n, sampleRate);
      |h| == HeaderSize && h[36..40] == DataTag && h[40..44] == LE32(2 * n)
  {
    var h := WavHeader(n, sampleRate);
    HeaderParts(n, sampleRate);
    DataFields(2 * n);
    SliceOfSlice(h, 36, 44, 0, 4);
    SliceOfSlice(h, 36, 44, 4, 8);
  }

  lemma PartsAt(r: seq<byte>, f: seq<byte>, t: seq<byte>, d: seq<byte>)
    requires |r| == 12 && |f| == 12 && |t| == 12 && |d| == 8
    ensures var h := r + f + t + d;
      |h| == 44 && h[0..12] == r && h[12..24] == f && h[24..36] == t && h[36..44] == d
  {
  }

  lemma SliceOfSlice(s: seq<byte>, lo: nat, hi: nat, a: nat, b: nat)
    requires lo <= hi <= |s| && a <= b <= hi - lo
    ensures s[lo..hi][a..b] == s[lo + a..lo + b]
  {
    assert forall i :: 0 <= i < b - a ==> s[lo..hi][a..b][i] == s[lo + a + i];
  }

  lemma RiffFields(bufferSize: int)
    ensures var p := RiffPart(bufferSize);
      |p| == 12 && p[0..4] == RiffTag && p[4..8] == LE32(bufferSize - 8) && p[8..12] == WaveTag
  {
  }

  lemma FmtFields()
    ensures var p := FmtPart();
      |p| == 12 && p[0..4] == FmtTag && p[4..8] == LE32(16) && p[8..10] == LE16(1) && p[10..12] == LE16(1)
  {
  }

  lemma RateFields(sampleRate: nat)
    ensures var p := RatePart(sampleRate);
      && |p| == 12 && p[0..4] == LE32(sampleRate) && p[4..8] == LE32(sampleRate * 2)
      && p[8..10] == LE16(2) && p[10..12] == LE16(16)
  {
  }

  lemma DataFields(dataSize: int)
    ensures var p := DataPart(dataSize);
      |p| == 8 && p[0..4] == DataTag && p[4..8] == LE32(dataSize)
  {
  }

  /** The values the header's numeric fields read as. */
  lemma HeaderValues(n: nat, sampleRate: nat)
    ensures var h := WavHeader(n, sampleRate);
      && |h| == HeaderSize
      && ReadLE(h[4..8]) == (HeaderSize + 2 * n - 8) % 0x1_0000_0000
      && ReadLE(h[16..20]) == 16 && ReadLE(h[20..22]) == 1 && ReadLE(h[22..24]) == 1
      && ReadLE(h[24..28]) == sampleRate % 0x1_0000_0000
      && ReadLE(h[28..32]) == (sampleRate * 2) % 0x1_0000_0000
      && ReadLE(h[32..34]) == 2 && ReadLE(h[34..36]) == 16
      && ReadLE(h[40..44]) == (2 * n) % 0x1_0000_0000
  {
    var h := WavHeader(n, sampleRate);
    HeaderFields(n, sampleRate);
    assert ReadLE(h[4..8]) == (HeaderSize + 2 * n - 8) % 0x1_0000_0000 by {
      assert h[4..8] == LE32(HeaderSize + 2 * n - 8);
    }
    assert ReadLE(h[16..20]) == 16 && ReadLE(h[20..22]) == 1 && ReadLE(h[22..24]) == 1 by {
      assert h[16..20] == LE32(16) && h[20..22] == LE16(1) && h[22..24] == LE16(1);
    }
    assert ReadLE(h[24..28]) == sampleRate % 0x1_0000_0000 by {
      assert h[24..28] == LE32(sampleRate);
    }
    assert ReadLE(h[28..32]) == (sampleRate * 2) % 0x1_0000_0000 by {
      assert h[28..32] == LE32(sampleRate * 2);
    }
    assert ReadLE(h[32..34]) == 2 && ReadLE(h[34..36]) == 16 by {
      assert h[32..34] == LE16(2) && h[34..36] == LE16(16);
    }
    assert ReadLE(h[40..44]) == (2 * n) % 0x1_0000_0000 by {
      assert h[40..44] == LE32(2 * n);
    }
  }

  /** A WAV file of this shape as a player reads it: its sample rate and
      samples. */
  datatype Wav = Wav(sampleRate: nat, samples: seq<int16>)

  /** Reads a mono 16-bit PCM WAV file with the canonical 44-byte header,
      checking every header field against the file's length; None for any
      other file. */
  function ParseWav(w: seq<byte>): Option<Wav>
  {
    if |w| < HeaderSize || (|w| - HeaderSize) % 2 != 0 then None
    else if w[0..4] != RiffTag || ReadLE(w[4..8]) != (|w| - 8) % 0x1_0000_0000 then None
    else if w[8..12] != WaveTag || w[12..16] != FmtTag then None
    else if ReadLE(w[16..20]) != 16 || ReadLE(w[20..22]) != 1 || ReadLE(w[22..24]) != 1 then None
    else if ReadLE(w[28..32]) != (ReadLE(w[24..28]) * 2) % 0x1_0000_0000 then None
    else if ReadLE(w[32..34]) != 2 || ReadLE(w[34..36]) != 16 then None
    else if w[36..40] != DataTag || ReadLE(w[40..44]) != (|w| - HeaderSize) % 0x1_0000_0000 then None
    else Some(Wav(ReadLE(w[24..28]), DecodeSamples(w[44..])))
  }

  /** Round trip: a player reading what `pcmToWav` writes recovers the
      samples, and the sample rate modulo 2^32. */
  lemma ParseWavFile(samples: seq<int16>, sampleRate: nat)
    ensures ParseWav(WavFile(samples, sampleRate)) == Some(Wav(sampleRate % 0x1_0000_0000, samples))
  {
    WavLayout(samples, sampleRate);
    DecodeEncode(samples);
    ModDouble(sampleRate);
  }

  /** Doubling commutes with reduction modulo 2^32. */
  lemma ModDouble(x: nat)
    ensures ((x % 0x1_0000_0000) * 2) % 0x1_0000_0000 == (x * 2) % 0x1_0000_0000
  {
    var q, r := x / 0x1_0000_0000, x % 0x1_0000_0000;
    assert x * 2 == r * 2 + 0x1_0000_0000 * (2 * q);
    ModAddMultiple(r * 2, 2 * q);
  }

  lemma {:induction false} ModAddMultiple(a: nat, k: nat)
    ensures (a + 0x1_0000_0000 * k) % 0x1_0000_0000 == a % 0x1_0000_0000
  {
    if k > 0 {
      ModAddMultiple(a, k - 1);
      assert a + 0x1_0000_0000 * k == (a + 0x1_0000_0000 * (k - 1)) + 0x1_0000_0000;
    }
  }

  /** The decoding loop of `playAudioFromBase64`: one sample per whole pair
      of the decoded bytes. */
  method DecodePcm(binary: seq<byte>) returns (pcm: array<int16>)
    ensures fresh(pcm)
    ensures pcm[..] == DecodeSamples(binary)
  {
    pcm := new int16[|binary| / 2];
    var i := 0;
    while i < pcm.Length
      invariant 0 <= i <= pcm.Length
      invariant forall k :: 0 <= k < i ==> pcm[k] == SampleFromBytes(binary[2 * k], binary[2 * k + 1])
    {
      pcm[i] := SampleFromBytes(binary[2 * i], binary[2 * i + 1]);
      i := i + 1;
    }
  }

  /** The encoding loop of `startAudioStreaming`: each sample written
      little-endian at twice its index. */
  method EncodePcm(pcm: array<int16>) returns (buffer: array<byte>)
    ensures fresh(buffer)
    ensures buffer[..] == EncodeSamples(pcm[..])
  {
    buffer := new byte[pcm.Length * 2];
    var i := 0;
    while i < pcm.Length
      invariant 0 <= i <= pcm.Length
      invariant forall k :: 0 <= k < i ==> buffer[2 * k] == Lo(pcm[k]) && buffer[2 * k + 1] == Hi(pcm[k])
    {
      buffer[2 * i] := Lo(pcm[i]);
      buffer[2 * i + 1] := Hi(pcm[i]);
      i := i + 1;
    }
    ghost var e := EncodeSamples(pcm[..]);
    forall j | 0 <= j < buffer.Length ensures buffer[j] == e[j] {
      var k := j / 2;
      assert j == 2 * k || j == 2 * k + 1;
      assert pcm[..][k] == pcm[k];
      assert e[2 * k] == Lo(pcm[k]) && e[2 * k + 1] == Hi(pcm[k]);
    }
  }

  /** Writing bytes at an offset, as `writeString` and the little-endian
      `DataView` setters do: the header is written front to back, each write
      extending the finished prefix. */
  method Put(buffer: array<byte>, offset: nat, bytes: seq<byte>, ghost header: seq<byte>)
    requires offset + |bytes| <= |header| <= buffer.Length
    requires buffer[..offset] == header[..offset]
    requires header[offset..offset + |bytes|] == bytes
    modifies buffer
    ensures buffer[..offset + |bytes|] == header[..offset + |bytes|]
    ensures forall k :: offset + |bytes| <= k < buffer.Length ==> buffer[k] == old(buffer[k])
  {
    var i := 0;
    while i < |bytes|
      invariant 0 <= i <= |bytes|
      invariant buffer[..offset + i] == header[..offset + i]
      invariant forall k :: offset + |bytes| <= k < buffer.Length ==> buffer[k] == old(buffer[k])
    {
      buffer[offset + i] := bytes[i];
      assert header[offset + i] == bytes[i];
      i := i + 1;
    }
  }

  /** `pcmToWav`: the 44-byte header followed by the samples, little-endian. */
  method PcmToWav(pcm: array<int16>, sampleRate: nat) returns (buffer: array<byte>)
    ensures fresh(buffer)
    ensures buffer[..] == WavFile(pcm[..], sampleRate)
  {
    var dataSize := pcm.Length * 2;
    var bufferSize := HeaderSize + dataSize;
    buffer := new byte[bufferSize];
    WriteHeader(buffer, pcm.Length, sampleRate);
    CopySamples(buffer, pcm);
    assert buffer[..] == buffer[..HeaderSize] + buffer[HeaderSize..];
  }

  /** The header writes of `pcmToWav`, in its order. */
  method WriteHeader(buffer: array<byte>, n: nat, sampleRate: nat)
    requires buffer.Length == HeaderSize + 2 * n
    modifies buffer
    ensures buffer[..HeaderSize] == WavHeader(n, sampleRate)
    ensures forall k :: HeaderSize <= k < buffer.Length ==> buffer[k] == old(buffer[k])
  {
    ghost var h := WavHeader(n, sampleRate);
    WriteRiffChunk(buffer, n, sampleRate);
    WriteFmtChunk(buffer, n, sampleRate);
    WriteRates(buffer, n, sampleRate);
    WriteDataChunk(buffer, n, sampleRate);
  }

  /** The RIFF chunk header: tag, size of the rest of the file, form type. */
  method WriteRiffChunk(buffer: array<byte>, n: nat, sampleRate: nat)
    requires buffer.Length == HeaderSize + 2 * n
    modifies buffer
    ensures buffer[..12] == WavHeader(n, sampleRate)[..12]
    ensures forall k :: 12 <= k < buffer.Length ==> buffer[k] == old(buffer[k])
  {
    var bufferSize := HeaderSize + n * 2;
    ghost var h := WavHeader(n, sampleRate);
    HeaderRiff(n, sampleRate);
    Put(buffer, 0, RiffTag, h);
    Put(buffer, 4, LE32(bufferSize - 8), h);
    Put(buffer, 8, WaveTag, h);
  }

  /** The "fmt " chunk's tag, size, format and channel count. */
  method WriteFmtChunk(buffer: array<byte>, n: nat, sampleRate: nat)
    requires buffer.Length == HeaderSize + 2 * n
    requires buffer[..12] == WavHeader(n, sampleRate)[..12]
    modifies buffer
    ensures buffer[..24] == WavHeader(n, sampleRate)[..24]
    ensures forall k :: 24 <= k < buffer.Length ==> buffer[k] == old(buffer[k])
  {
    ghost var h := WavHeader(n, sampleRate);
    HeaderFmt(n, sampleRate);
    Put(buffer, 12, FmtTag, h);
    Put(buffer, 16, LE32(16), h);
    Put(buffer, 20, LE16(1), h);
    Put(buffer, 22, LE16(NumChannels), h);
  }

  /** The "fmt " chunk's sample rate, byte rate, block align and sample
      width. */
  method WriteRates(buffer: array<byte>, n: nat, sampleRate: nat)
    requires buffer.Length == HeaderSize + 2 * n
    requires buffer[..24] == WavHeader(n, sampleRate)[..24]
    modifies buffer
    ensures buffer[..36] == WavHeader(n, sampleRate)[..36]
    ensures forall k :: 36 <= k < buffer.Length ==> buffer[k] == old(buffer[k])
  {
    ghost var h := WavHeader(n, sampleRate);
    HeaderRates(n, sampleRate);
    var byteRate := sampleRate * NumChannels * BitsPerSample / 8;
    var blockAlign := NumChannels * BitsPerSample / 8;
    assert byteRate == sampleRate * 2 && blockAlign == 2 by {
      assert NumChannels * BitsPerSample / 8 == 2;
    }
    Put(buffer, 24, LE32(sampleRate), h);
    Put(buffer, 28, LE32(byteRate), h);
    Put(buffer, 32, LE16(blockAlign), h);
    Put(buffer, 34, LE16(BitsPerSample), h);
  }

  /** The "data" chunk header: tag and size of the samples. */
  method WriteDataChunk(buffer: array<byte>, n: nat, sampleRate: nat)
    requires buffer.Length == HeaderSize + 2 * n
    requires buffer[..36] == WavHeader(n, sampleRate)[..36]
    modifies buffer
    ensures buffer[..HeaderSize] == WavHeader(n, sampleRate)
    ensures forall k :: HeaderSize <= k < buffer.Length ==> buffer[k] == old(buffer[k])
  {
    ghost var h := WavHeader(n, sampleRate);
    HeaderData(n, sampleRate);
    Put(buffer, 36, DataTag, h);
    Put(buffer, 40, LE32(n * 2), h);
  }

  /** `new Int16Array(buffer, 44).set(pcmData)`: the samples, copied from
      offset 44 on in the platform's byte order, little-endian here. */
  method CopySamples(buffer: array<byte>, pcm: array<int16>)
    requires buffer.Length == HeaderSize + 2 * pcm.Length
    modifies buffer
    ensures buffer[..HeaderSize] == old(buffer[..HeaderSize])
    ensures buffer[HeaderSize..] == EncodeSamples(pcm[..])
  {
    var n := pcm.Length;
    var i := 0;
    while i < n
      invariant 0 <= i <= n
      invariant buffer[..HeaderSize] == old(buffer[..HeaderSize])
      invariant forall k :: 0 <= k < i ==>
                  buffer[HeaderSize + 2 * k] == Lo(pcm[k]) && buffer[HeaderSize + 2 * k + 1] == Hi(pcm[k])
    {
      buffer[HeaderSize + 2 * i] := Lo(pcm[i]);
      buffer[HeaderSize + 2 * i + 1] := Hi(pcm[i]);
      i := i + 1;
    }
    ghost var e := EncodeSamples(pcm[..]);
    forall j | 0 <= j < 2 * n ensures buffer[HeaderSize + j] == e[j] {
      var k := j / 2;
      assert j == 2 * k || j == 2 * k + 1;
      assert pcm[..][k] == pcm[k];
      assert e[2 * k] == Lo(pcm[k]) && e[2 * k + 1] == Hi(pcm[k]);
    }
    assert buffer[HeaderSize..] == e;
  }
}
