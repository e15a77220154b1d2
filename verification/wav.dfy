// The WAV writer and reader (internal/mixdown/mixdown.go, internal/mixdown/decodewav.go): the WAVE
// form of the IBM/Microsoft Multimedia Programming Interface and Data Specifications 1.0, chapter 3.
module Wav {
  import opened Common

  type Byte = n: nat | n < 256

  const HEADER := 44
  const MAX_SIZE := 32 * 1024 * 1024
  const CHUNK_MILLIS := 100

  predicate Int16(x: int) { -32768 <= x <= 32767 }

  function LE16(n: nat): (r: seq<Byte>)
    ensures |r| == 2
  {
    [n % 256, n / 256 % 256]
  }

  function LE32(n: nat): (r: seq<Byte>)
    ensures |r| == 4
  {
    [n % 256, n / 256 % 256, n / 65536 % 256, n / 16777216 % 256]
  }

  function U16(b: seq<Byte>, i: nat): nat
    requires i + 2 <= |b|
  {
    b[i] as int + 256 * (b[i + 1] as int)
  }

  function U32(b: seq<Byte>, i: nat): nat
    requires i + 4 <= |b|
  {
    b[i] as int + 256 * (b[i + 1] as int) + 65536 * (b[i + 2] as int) + 16777216 * (b[i + 3] as int)
  }

  function Ascii(s: string): (r: seq<Byte>)
    requires forall i :: 0 <= i < |s| ==> s[i] < 256 as char
    ensures |r| == |s|
  {
    seq(|s|, i requires 0 <= i < |s| => s[i] as int)
  }

  // A sample as stored: two's complement, little-endian.
  function Stored(x: int): (r: seq<Byte>)
    ensures |r| == 2
  {
    LE16(x % 65536)
  }

  function Pcm(samples: seq<int>): seq<Byte> {
    if samples == [] then [] else Pcm(samples[..|samples| - 1]) + Stored(samples[|samples| - 1])
  }

  // The header and the data, the 32-bit fields truncated as the writer truncates them.
  function WavHeader(dataSize: nat, rate: nat): (h: seq<Byte>)
    ensures |h| == HEADER
  {
    Ascii("RIFF") + LE32(36 + dataSize) + Ascii("WAVE") + Ascii("fmt ") + LE32(16) + LE16(1) + LE16(1)
    + LE32(rate) + LE32(rate * 2) + LE16(2) + LE16(16) + Ascii("data") + LE32(dataSize)
  }

  function WavBytes(samples: seq<int>, rate: nat): seq<Byte> {
    WavHeader(2 * |samples|, rate) + Pcm(samples)
  }

  lemma {:induction false} PcmOf(samples: seq<int>, i: nat)
    requires i < |samples|
    ensures |Pcm(samples)| == 2 * |samples| && Pcm(samples)[2 * i..2 * i + 2] == Stored(samples[i])
  {
    hide Stored;
    var n := |samples| - 1;
    var front, last := Pcm(samples[..n]), Stored(samples[n]);
    if i < n {
      PcmOf(samples[..n], i);
      assert (front + last)[2 * i..2 * i + 2] == front[2 * i..2 * i + 2];
    } else {
      PcmLength(samples[..n]);
      assert (front + last)[2 * n..2 * n + 2] == last;
    }
  }

  lemma {:induction false} PcmLength(samples: seq<int>)
    ensures |Pcm(samples)| == 2 * |samples|
  {
    if samples != [] { PcmLength(samples[..|samples| - 1]); }
  }

  // Sample i is in bytes 2i and 2i + 1.
  lemma PcmAt(samples: seq<int>)
    ensures |Pcm(samples)| == 2 * |samples|
    ensures forall i :: 0 <= i < |samples| ==> Pcm(samples)[2 * i..2 * i + 2] == Stored(samples[i])
  {
    hide Pcm, Stored;
    PcmLength(samples);
    forall i | 0 <= i < |samples| ensures Pcm(samples)[2 * i..2 * i + 2] == Stored(samples[i]) { PcmOf(samples, i); }
  }

  // ---- The writer ---------------------------------------------------------------------------

  method Store(buf: array<Byte>, at: nat, bytes: seq<Byte>)
    requires at + |bytes| <= buf.Length
    modifies buf
    ensures buf[..] == old(buf[..at]) + bytes + old(buf[at + |bytes|..])
  {
    for i := 0 to |bytes|
      invariant buf[..at] == old(buf[..at]) && buf[at..at + i] == bytes[..i] && buf[at + i..] == old(buf[at + i..])
    {
      buf[at + i] := bytes[i];
    }
  }

  method EncodeWav(samples: seq<int>, rate: nat) returns (buf: array<Byte>)
    ensures fresh(buf) && buf[..] == WavBytes(samples, rate)
  {
    hide LE16, LE32, Ascii, WavHeader;
    var dataSize := |samples| * 2;
    buf := new Byte[HEADER + dataSize](_ => 0);
    Store(buf, 0, WavHeader(dataSize, rate));
    assert buf[..HEADER] == WavHeader(dataSize, rate);
    StoreSamples(buf, samples);
    assert buf[..] == buf[..HEADER] + buf[HEADER..];
  }

  method StoreSamples(buf: array<Byte>, samples: seq<int>)
    requires buf.Length == HEADER + 2 * |samples|
    modifies buf
    ensures buf[..HEADER] == old(buf[..HEADER]) && buf[HEADER..] == Pcm(samples)
  {
    hide Stored;
    assert Pcm(samples[..0]) == [];
    for i := 0 to |samples|
      invariant buf[..HEADER] == old(buf[..HEADER]) && buf[HEADER..HEADER + 2 * i] == Pcm(samples[..i])
    {
      assert samples[..i + 1][..i] == samples[..i];
      Store(buf, HEADER + 2 * i, Stored(samples[i]));
      assert buf[HEADER..HEADER + 2 * i + 2] == buf[HEADER..HEADER + 2 * i] + Stored(samples[i]);
    }
    assert samples[..|samples|] == samples && buf[HEADER..buf.Length] == buf[HEADER..];
  }

  // ---- The reader ---------------------------------------------------------------------------

  datatype Chunk = Chunk(pcm: seq<Byte>, rate: nat, channels: nat)

  // The clips the reader accepts: mono 16-bit PCM with its whole data.
  predicate IsPcm16Wav(wav: seq<Byte>) {
    && |wav| >= HEADER
    && wav[0..4] == Ascii("RIFF") && wav[8..12] == Ascii("WAVE") && wav[12..16] == Ascii("fmt ")
    && U16(wav, 20) == 1 && U16(wav, 22) == 1 && U16(wav, 34) == 16
    && wav[36..40] == Ascii("data")
    && HEADER + U32(wav, 40) <= |wav| && U32(wav, 40) % 2 == 0
  }

  // Byte for byte what makes an accepted clip.
  lemma AcceptedExactly(wav: seq<Byte>)
    ensures IsPcm16Wav(wav) <==>
              && |wav| >= 44
              && wav[0..4] == [82, 73, 70, 70] && wav[8..12] == [87, 65, 86, 69] && wav[12..16] == [102, 109, 116, 32] && wav[36..40] == [100, 97, 116, 97]
              && wav[20..24] == [1, 0, 1, 0] && wav[34..36] == [16, 0]
              && wav[40] % 2 == 0 && 44 + wav[40] + 256 * wav[41] + 65536 * wav[42] + 16777216 * wav[43] <= |wav|
  {
    assert Ascii("RIFF") == [82, 73, 70, 70] && Ascii("WAVE") == [87, 65, 86, 69];
    assert Ascii("fmt ") == [102, 109, 116, 32] && Ascii("data") == [100, 97, 116, 97];
    hide Ascii;
    if |wav| >= 44 {
      assert wav[20..24] == [wav[20], wav[21], wav[22], wav[23]] && wav[34..36] == [wav[34], wav[35]];
      SmallField(wav[20], wav[21], 1);
      SmallField(wav[22], wav[23], 1);
      SmallField(wav[34], wav[35], 16);
      EvenField(wav[40], wav[41], wav[42], wav[43]);
    }
  }

  lemma SmallField(low: Byte, high: Byte, n: nat)
    requires n < 256
    ensures (low as int) + 256 * (high as int) == n <==> low == n && high == 0
  {
  }

  lemma EvenField(a: Byte, b: Byte, c: Byte, d: Byte)
    ensures ((a as int) + 256 * (b as int) + 65536 * (c as int) + 16777216 * (d as int)) % 2 == (a as int) % 2
  {
  }

  // A tenth of a second of whole samples, and at least one.
  function ChunkBytes(rate: nat): (n: nat)
    ensures n > 0 && n % 2 == 0
  {
    var n := rate * CHUNK_MILLIS / 1000 * 2;
    if n <= 0 then 2 else n
  }

  lemma ChunkIsATenth(rate: nat)
    ensures ChunkBytes(rate) == if rate < 10 then 2 else 2 * (rate / 10)
  {
    assert rate * 100 / 1000 == rate / 10;
  }

  function Joined(chunks: seq<Chunk>): seq<Byte> {
    if chunks == [] then [] else Joined(chunks[..|chunks| - 1]) + chunks[|chunks| - 1].pcm
  }

  // pcm cut into chunks: all full but the last, which is neither empty nor over-full.
  ghost predicate Chunked(chunks: seq<Chunk>, pcm: seq<Byte>, rate: nat) {
    && Joined(chunks) == pcm
    && (forall c :: 0 <= c < |chunks| ==> chunks[c].rate == rate && chunks[c].channels == 1 && |chunks[c].pcm| % 2 == 0)
    && (forall c :: 0 <= c < |chunks| - 1 ==> |chunks[c].pcm| == ChunkBytes(rate))
    && (chunks != [] ==> 0 < |chunks[|chunks| - 1].pcm| <= ChunkBytes(rate))
  }

  method DecodeWav(wav: seq<Byte>) returns (chunks: Option<seq<Chunk>>)
    ensures chunks.Some? <==> IsPcm16Wav(wav)
    ensures chunks.Some? ==> Chunked(chunks.value, wav[HEADER..HEADER + U32(wav, 40)], U32(wav, 24))
  {
    if |wav| < HEADER { return None; }
    if wav[0..4] != Ascii("RIFF") || wav[8..12] != Ascii("WAVE") || wav[12..16] != Ascii("fmt ") { return None; }
    if U16(wav, 20) != 1 || U16(wav, 22) != 1 || U16(wav, 34) != 16 { return None; }
    if wav[36..40] != Ascii("data") { return None; }
    var dataSize := U32(wav, 40);
    if HEADER + dataSize > |wav| || dataSize % 2 != 0 { return None; }
    var out := Slice(wav[HEADER..HEADER + dataSize], U32(wav, 24));
    chunks := Some(out);
  }

  lemma NoChunks(rate: nat)
    ensures Chunked([], [], rate)
  {
  }

  lemma AddChunk(chunks: seq<Chunk>, pcm: seq<Byte>, rate: nat, chunk: Chunk)
    requires Chunked(chunks, pcm, rate) && forall c :: 0 <= c < |chunks| ==> |chunks[c].pcm| == ChunkBytes(rate)
    requires chunk.rate == rate && chunk.channels == 1 && |chunk.pcm| % 2 == 0 && 0 < |chunk.pcm| <= ChunkBytes(rate)
    ensures Chunked(chunks + [chunk], pcm + chunk.pcm, rate)
  {
    hide ChunkBytes;
    assert (chunks + [chunk])[..|chunks|] == chunks;
  }

  method Slice(pcm: seq<Byte>, rate: nat) returns (chunks: seq<Chunk>)
    requires |pcm| % 2 == 0
    ensures Chunked(chunks, pcm, rate)
  {
    hide Chunked;
    var size := ChunkBytes(rate);
    chunks := [];
    NoChunks(rate);
    assert pcm[..0] == [];
    var off := 0;
    while off < |pcm|
      invariant 0 <= off <= |pcm| && off % 2 == 0 && Chunked(chunks, pcm[..off], rate)
      invariant off < |pcm| ==> forall c :: 0 <= c < |chunks| ==> |chunks[c].pcm| == size
    {
      var end := if off + size > |pcm| then |pcm| else off + size;
      var chunk := Chunk(pcm[off..end], rate, 1);
      AddChunk(chunks, pcm[..off], rate, chunk);
      assert pcm[..end] == pcm[..off] + pcm[off..end];
      chunks, off := chunks + [chunk], end;
    }
    assert pcm[..|pcm|] == pcm;
  }

  // ---- The two together ---------------------------------------------------------------------

  function Sample(b: seq<Byte>): int
    requires |b| == 2
  {
    if U16(b, 0) >= 32768 then U16(b, 0) - 65536 else U16(b, 0)
  }

  // The samples stored in a byte sequence.
  function Samples(pcm: seq<Byte>): seq<int> {
    seq(|pcm| / 2, i requires 0 <= i < |pcm| / 2 => Sample(pcm[2 * i..2 * i + 2]))
  }

  lemma SamplesOfPcm(samples: seq<int>)
    requires forall i :: 0 <= i < |samples| ==> Int16(samples[i])
    ensures Samples(Pcm(samples)) == samples
  {
    hide Stored, Sample, LE16, Pcm;
    PcmLength(samples);
    assert |Samples(Pcm(samples))| == |samples|;
    forall i | 0 <= i < |samples| ensures Samples(Pcm(samples))[i] == samples[i] {
      PcmOf(samples, i);
      TwosComplement(samples[i]);
    }
  }

  lemma TwosComplement(x: int)
    requires Int16(x)
    ensures Sample(Stored(x)) == x
  {
    var u := x % 65536;
    assert u == if x < 0 then x + 65536 else x;
    assert u / 256 % 256 == u / 256 && u == 256 * (u / 256) + u % 256;
  }

  lemma LE32RoundTrip(n: nat)
    requires n < 0x1_0000_0000
    ensures U32(LE32(n), 0) == n
  {
    assert n == 256 * (n / 256) + n % 256;
    assert n / 256 == 256 * (n / 65536) + n / 256 % 256;
    assert n / 65536 == 256 * (n / 16777216) + n / 65536 % 256;
  }

  // The header, cut into its fields.
  lemma HeaderSlices(dataSize: nat, rate: nat)
    ensures var h := WavHeader(dataSize, rate);
            && |h| == HEADER && h[0..4] == Ascii("RIFF") && h[4..8] == LE32(36 + dataSize) && h[8..12] == Ascii("WAVE")
            && h[12..16] == Ascii("fmt ") && h[16..20] == LE32(16) && h[20..22] == LE16(1) && h[22..24] == LE16(1)
            && h[24..28] == LE32(rate) && h[28..32] == LE32(rate * 2) && h[32..34] == LE16(2) && h[34..36] == LE16(16)
            && h[36..40] == Ascii("data") && h[40..44] == LE32(dataSize)
  {
    hide LE16, LE32, Ascii;
  }

  lemma HeaderFields(dataSize: nat, rate: nat)
    requires dataSize < 0x1_0000_0000 - 36 && rate < 0x1_0000_0000
    ensures var h := WavHeader(dataSize, rate);
            && |h| == HEADER && h[0..4] == Ascii("RIFF") && h[8..12] == Ascii("WAVE") && h[12..16] == Ascii("fmt ")
            && U16(h, 20) == 1 && U16(h, 22) == 1 && U16(h, 34) == 16 && h[36..40] == Ascii("data")
            && U32(h, 24) == rate && U32(h, 40) == dataSize
  {
    hide WavHeader, Ascii, LE32;
    HeaderSlices(dataSize, rate);
    LE32RoundTrip(dataSize);
    LE32RoundTrip(rate);
    Fields(WavHeader(dataSize, rate));
  }

  // A field is read from its own bytes.
  lemma Fields(h: seq<Byte>)
    requires |h| == HEADER
    ensures U32(h, 4) == U32(h[4..8], 0) && U32(h, 16) == U32(h[16..20], 0) && U16(h, 20) == U16(h[20..22], 0) && U16(h, 22) == U16(h[22..24], 0)
    ensures U32(h, 24) == U32(h[24..28], 0) && U32(h, 28) == U32(h[28..32], 0)
    ensures U16(h, 32) == U16(h[32..34], 0) && U16(h, 34) == U16(h[34..36], 0) && U32(h, 40) == U32(h[40..44], 0)
  {
  }

  lemma LE32Wraps(n: nat)
    ensures U32(LE32(n), 0) == n % 0x1_0000_0000
  {
    LE32RoundTrip(n % 0x1_0000_0000);
    Low32Bits(n / 0x1_0000_0000, n % 0x1_0000_0000);
  }

  lemma Low32Bits(q: nat, m: nat)
    ensures LE32(0x1_0000_0000 * q + m) == LE32(m)
  {
    var n := 0x1_0000_0000 * q + m;
    ByteOf(16777216 * q, m);
    assert n / 256 == 16777216 * q + m / 256;
    ByteOf(65536 * q, m / 256);
    assert n / 65536 == 65536 * q + m / 65536;
    ByteOf(256 * q, m / 65536);
    assert n / 16777216 == 256 * q + m / 16777216;
    ByteOf(q, m / 16777216);
  }

  lemma ByteOf(a: nat, x: nat)
    ensures (256 * a + x) % 256 == x % 256
  {
  }

  // Every field of the header, by its place: sizes wrap at 32 bits, as the writer's do.
  lemma HeaderIsComplete(dataSize: nat, rate: nat)
    ensures var h := WavHeader(dataSize, rate);
            && |h| == 44 && h[0..4] == [82, 73, 70, 70] && h[8..12] == [87, 65, 86, 69] && h[12..16] == [102, 109, 116, 32]
            && h[36..40] == [100, 97, 116, 97]
            && U32(h, 4) == (36 + dataSize) % 0x1_0000_0000 && U32(h, 16) == 16 && U16(h, 20) == 1 && U16(h, 22) == 1
            && U32(h, 24) == rate % 0x1_0000_0000 && U32(h, 28) == rate * 2 % 0x1_0000_0000
            && U16(h, 32) == 2 && U16(h, 34) == 16 && U32(h, 40) == dataSize % 0x1_0000_0000
  {
    hide WavHeader, LE32;
    HeaderSlices(dataSize, rate);
    Fields(WavHeader(dataSize, rate));
    LE32Wraps(36 + dataSize);
    LE32Wraps(16);
    LE32Wraps(rate);
    LE32Wraps(rate * 2);
    LE32Wraps(dataSize);
  }

  lemma Even(n: int)
    ensures 2 * n % 2 == 0
  {
  }

  // A header that announces p, followed by p, is a clip whose data is p.
  lemma HeaderThenData(h: seq<Byte>, p: seq<Byte>, n: nat)
    requires |h| == HEADER && |p| == 2 * n && U32(h, 40) == 2 * n
    requires h[0..4] == Ascii("RIFF") && h[8..12] == Ascii("WAVE") && h[12..16] == Ascii("fmt ") && h[36..40] == Ascii("data")
    requires U16(h, 20) == 1 && U16(h, 22) == 1 && U16(h, 34) == 16
    ensures IsPcm16Wav(h + p) && U32(h + p, 24) == U32(h, 24) && (h + p)[HEADER..HEADER + U32(h + p, 40)] == p
  {
    hide Ascii, U16, U32;
    assert (h + p)[..HEADER] == h && (h + p)[HEADER..HEADER + |p|] == p;
    SameFields(h, h + p);
    Even(n);
  }

  // Reading back what was written, for all samples within the size cap and all rates a header
  // can hold: accepted, with exactly the data and the rate.
  lemma WrittenClipIsRead(samples: seq<int>, rate: nat)
    requires HEADER + 2 * |samples| <= MAX_SIZE && rate < 0x1_0000_0000
    ensures var wav := WavBytes(samples, rate);
            && IsPcm16Wav(wav) && U32(wav, 24) == rate
            && wav[HEADER..HEADER + U32(wav, 40)] == Pcm(samples)
  {
    hide WavHeader, Ascii, U16, U32, Pcm, IsPcm16Wav;
    assert |Pcm(samples)| == 2 * |samples| by { PcmAt(samples); }
    HeaderFields(2 * |samples|, rate);
    HeaderThenData(WavHeader(2 * |samples|, rate), Pcm(samples), |samples|);
  }

  lemma SameFields(h: seq<Byte>, wav: seq<Byte>)
    requires |h| == HEADER <= |wav| && wav[..HEADER] == h
    ensures wav[0..4] == h[0..4] && wav[8..12] == h[8..12] && wav[12..16] == h[12..16] && wav[36..40] == h[36..40]
    ensures U16(wav, 20) == U16(h, 20) && U16(wav, 22) == U16(h, 22) && U16(wav, 34) == U16(h, 34)
    ensures U32(wav, 24) == U32(h, 24) && U32(wav, 40) == U32(h, 40)
  {
    assert forall i :: 0 <= i < HEADER ==> wav[i] == wav[..HEADER][i];
  }

  // The writer, then the reader: the clip is accepted and its chunks join back to the samples,
  // all of whole samples and all but the last of one size.
  method WriteThenRead(samples: seq<int>, rate: nat) returns (read: Option<seq<Chunk>>)
    requires HEADER + 2 * |samples| <= MAX_SIZE && 0 < rate < 0x1_0000_0000
    requires forall i :: 0 <= i < |samples| ==> Int16(samples[i])
    ensures read.Some? && Chunked(read.value, Pcm(samples), rate) && Samples(Joined(read.value)) == samples
  {
    hide WavBytes, Chunked, Samples, Pcm;
    var buf := EncodeWav(samples, rate);
    read := DecodeWav(buf[..]);
    WrittenClipIsRead(samples, rate);
    SamplesOfPcm(samples);
    JoinedChunks(read.value, Pcm(samples), rate);
  }

  lemma JoinedChunks(chunks: seq<Chunk>, pcm: seq<Byte>, rate: nat)
    requires Chunked(chunks, pcm, rate)
    ensures Joined(chunks) == pcm
  {
  }
}
