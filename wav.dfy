/**
 * The canonical RIFF/WAVE container for linear PCM (a `RIFF` chunk of form
 * `WAVE` holding a 16-byte `fmt ` chunk of format tag 1, WAVE_FORMAT_PCM, and
 * a `data` chunk), as defined by the Microsoft/IBM Multimedia Programming
 * Interface and Data Specifications 1.0. Both voice services prefix the raw
 * PCM they captured with this 44-byte header before transcription.
 */
module Wav {

  type Byte = b: int | 0 <= b < 256

  const HEADER_SIZE: nat := 44
  const FMT_CHUNK_SIZE: nat := 16
  const WAVE_FORMAT_PCM: nat := 1

  /** An unsigned 16-bit value, little-endian (`writeUInt16LE`). */
  function U16LE(v: nat): (r: seq<Byte>)
    requires v < 0x1_0000
    ensures |r| == 2
  {
    [v % 256, v / 256]
  }

  /** An unsigned 32-bit value, little-endian (`writeUInt32LE`). */
  function U32LE(v: nat): (r: seq<Byte>)
    requires v < 0x1_0000_0000
    ensures |r| == 4
  {
    [v % 256, (v / 256) % 256, (v / 0x1_0000) % 256, v / 0x100_0000]
  }

  function ReadU16LE(s: seq<Byte>, off: nat): nat
    requires off + 2 <= |s|
  {
    s[off] as int + 256 * (s[off + 1] as int)
  }

  function ReadU32LE(s: seq<Byte>, off: nat): nat
    requires off + 4 <= |s|
  {
    s[off] as int + 256 * (s[off + 1] as int) + 0x1_0000 * (s[off + 2] as int) + 0x100_0000 * (s[off + 3] as int)
  }

  lemma U16RoundTrip(v: nat)
    requires v < 0x1_0000
    ensures ReadU16LE(U16LE(v), 0) == v
  {
  }

  lemma U32RoundTrip(v: nat)
    requires v < 0x1_0000_0000
    ensures ReadU32LE(U32LE(v), 0) == v
  {
    var b := U32LE(v);
    assert v == v % 256 + 256 * (v / 256);
    assert v / 256 == (v / 256) % 256 + 256 * (v / 0x1_0000);
    assert v / 0x1_0000 == (v / 0x1_0000) % 256 + 256 * (v / 0x100_0000);
  }

  /** The bytes `Buffer.write` stores for a four-letter ASCII tag. */
  function Tag(s: string): (r: seq<Byte>)
    requires |s| == 4 && forall i :: 0 <= i < 4 ==> s[i] as int < 128
    ensures |r| == 4 && forall i :: 0 <= i < 4 ==> r[i] == s[i] as int
  {
    [s[0] as int, s[1] as int, s[2] as int, s[3] as int]
  }

  /** Sample layout of the PCM stream. */
  datatype Format = Format(sampleRate: nat, channels: nat, bitDepth: nat)

  function ByteRate(f: Format): nat {
    f.sampleRate * f.channels * (f.bitDepth / 8)
  }

  function BlockAlign(f: Format): nat {
    f.channels * (f.bitDepth / 8)
  }

  /**
   * What the header writes accept: whole bytes per sample, and every field in
   * the range of its 16- or 32-bit slot (`writeUInt16LE`/`writeUInt32LE`
   * throw outside it).
   */
  predicate Encodable(f: Format, dataSize: nat) {
    && f.bitDepth % 8 == 0
    && dataSize + 36 < 0x1_0000_0000
    && f.channels < 0x1_0000
    && f.sampleRate < 0x1_0000_0000
    && ByteRate(f) < 0x1_0000_0000
    && BlockAlign(f) < 0x1_0000
    && f.bitDepth < 0x1_0000
  }

  /** The RIFF chunk descriptor: tag, size of everything after this field, form type. */
  function RiffDescriptor(dataSize: nat): (r: seq<Byte>)
    requires dataSize + 36 < 0x1_0000_0000
    ensures |r| == 12
  {
    Tag("RIFF") + U32LE(dataSize + 36) + Tag("WAVE")
  }

  /** The `fmt ` chunk: tag, size 16, format tag, channels, rate, byte rate, block align, bits. */
  function FmtChunk(f: Format): (r: seq<Byte>)
    requires Encodable(f, 0)
    ensures |r| == 24
  {
    Tag("fmt ") + U32LE(FMT_CHUNK_SIZE) + U16LE(WAVE_FORMAT_PCM) + U16LE(f.channels)
    + U32LE(f.sampleRate) + U32LE(ByteRate(f)) + U16LE(BlockAlign(f)) + U16LE(f.bitDepth)
  }

  /** The header of the `data` chunk: tag and byte length of the PCM that follows. */
  function DataChunkHeader(dataSize: nat): (r: seq<Byte>)
    requires dataSize < 0x1_0000_0000
    ensures |r| == 8
  {
    Tag("data") + U32LE(dataSize)
  }

  /** The 44 header bytes for `dataSize` bytes of PCM in format `f`. */
  function HeaderBytes(f: Format, dataSize: nat): (h: seq<Byte>)
    requires Encodable(f, dataSize)
    ensures |h| == HEADER_SIZE
  {
    RiffDescriptor(dataSize) + FmtChunk(f) + DataChunkHeader(dataSize)
  }

  /** Copies `bytes` into `a` at `off`, after the `off` bytes already written. */
  method Put(a: array<Byte>, off: nat, bytes: seq<Byte>)
    requires off + |bytes| <= a.Length
    modifies a
    ensures a[..off + |bytes|] == old(a[..off]) + bytes
  {
    var i := 0;
    while i < |bytes|
      invariant 0 <= i <= |bytes|
      invariant a[..off + i] == old(a[..off]) + bytes[..i]
    {
      a[off + i] := bytes[i];
      assert a[..off + i + 1] == a[..off + i] + [bytes[i]];
      i := i + 1;
    }
  }

  method WriteRiffDescriptor(header: array<Byte>, dataSize: nat)
    requires header.Length == HEADER_SIZE && dataSize + 36 < 0x1_0000_0000
    modifies header
    ensures header[..12] == RiffDescriptor(dataSize)
  {
    Put(header, 0, Tag("RIFF"));
    Put(header, 4, U32LE(dataSize + 36));
    Put(header, 8, Tag("WAVE"));
  }

  method WriteFmtChunk(header: array<Byte>, f: Format)
    requires header.Length == HEADER_SIZE && Encodable(f, 0)
    modifies header
    ensures header[..36] == old(header[..12]) + FmtChunk(f)
  {
    Put(header, 12, Tag("fmt "));
    Put(header, 16, U32LE(FMT_CHUNK_SIZE));
    Put(header, 20, U16LE(WAVE_FORMAT_PCM));
    Put(header, 22, U16LE(f.channels));
    Put(header, 24, U32LE(f.sampleRate));
    var byteRate := f.sampleRate * f.channels * (f.bitDepth / 8);
    Put(header, 28, U32LE(byteRate));
    var blockAlign := f.channels * (f.bitDepth / 8);
    Put(header, 32, U16LE(blockAlign));
    Put(header, 34, U16LE(f.bitDepth));
  }

  method WriteDataChunkHeader(header: array<Byte>, dataSize: nat)
    requires header.Length == HEADER_SIZE && dataSize < 0x1_0000_0000
    modifies header
    ensures header[..] == old(header[..36]) + DataChunkHeader(dataSize)
  {
    Put(header, 36, Tag("data"));
    Put(header, 40, U32LE(dataSize));
    assert header[..] == header[..44];
  }

  /** Writes the header into a fresh zero-filled 44-byte buffer, field by field. */
  method WriteHeader(f: Format, dataSize: nat) returns (header: array<Byte>)
    requires Encodable(f, dataSize)
    ensures fresh(header)
    ensures header[..] == HeaderBytes(f, dataSize)
  {
    header := new Byte[HEADER_SIZE](_ => 0);
    WriteRiffDescriptor(header, dataSize);
    WriteFmtChunk(header, f);
    WriteDataChunkHeader(header, dataSize);
  }

  /** The container: header followed by the PCM bytes, unchanged. */
  method PcmToWav(pcm: seq<Byte>, f: Format) returns (wav: seq<Byte>)
    requires Encodable(f, |pcm|)
    ensures wav == HeaderBytes(f, |pcm|) + pcm
  {
    var header := WriteHeader(f, |pcm|);
    wav := header[..] + pcm;
  }

  /** Reading the header back yields every declared field. */
  lemma {:induction false} HeaderReadBack(f: Format, pcm: seq<Byte>)
    requires Encodable(f, |pcm|)
    ensures var wav := HeaderBytes(f, |pcm|) + pcm;
      && |wav| == HEADER_SIZE + |pcm|
      && wav[0..4] == Tag("RIFF") && wav[8..12] == Tag("WAVE")
      && wav[12..16] == Tag("fmt ") && wav[36..40] == Tag("data")
      && ReadU32LE(wav, 4) == |pcm| + 36
      && ReadU32LE(wav, 16) == FMT_CHUNK_SIZE
      && ReadU16LE(wav, 20) == WAVE_FORMAT_PCM
      && ReadU16LE(wav, 22) == f.channels
      && ReadU32LE(wav, 24) == f.sampleRate
      && ReadU32LE(wav, 28) == f.sampleRate * f.channels * (f.bitDepth / 8)
      && ReadU16LE(wav, 32) == f.channels * (f.bitDepth / 8)
      && ReadU16LE(wav, 34) == f.bitDepth
      && ReadU32LE(wav, 40) == |pcm|
      && wav[HEADER_SIZE..] == pcm
  {
    var wav := HeaderBytes(f, |pcm|) + pcm;
    assert wav[..12] == RiffDescriptor(|pcm|);
    assert wav[12..36] == FmtChunk(f);
    assert wav[36..44] == DataChunkHeader(|pcm|);
    ReadRiff(wav, |pcm|);
    ReadFmt(wav, f);
    ReadData(wav, |pcm|);
  }

  lemma ReadRiff(s: seq<Byte>, n: nat)
    requires n + 36 < 0x1_0000_0000 && 12 <= |s| && s[..12] == RiffDescriptor(n)
    ensures s[0..4] == Tag("RIFF") && s[8..12] == Tag("WAVE") && ReadU32LE(s, 4) == n + 36
  {
    assert s[0..12] == s[..12];
    Within(s, 0, RiffDescriptor(n), 0, 4);
    Within(s, 0, RiffDescriptor(n), 4, 8);
    Within(s, 0, RiffDescriptor(n), 8, 12);
    ReadAt32(s, 4, n + 36);
  }

  lemma ReadFmt(s: seq<Byte>, f: Format)
    requires Encodable(f, 0) && 36 <= |s| && s[12..36] == FmtChunk(f)
    ensures s[12..16] == Tag("fmt ")
    ensures ReadU32LE(s, 16) == FMT_CHUNK_SIZE && ReadU16LE(s, 20) == WAVE_FORMAT_PCM
    ensures ReadU16LE(s, 22) == f.channels && ReadU32LE(s, 24) == f.sampleRate
    ensures ReadU32LE(s, 28) == ByteRate(f) && ReadU16LE(s, 32) == BlockAlign(f)
    ensures ReadU16LE(s, 34) == f.bitDepth
  {
    var c := FmtChunk(f);
    var t1 := Tag("fmt ") + U32LE(FMT_CHUNK_SIZE);
    var t2 := t1 + U16LE(WAVE_FORMAT_PCM);
    var t3 := t2 + U16LE(f.channels);
    var t4 := t3 + U32LE(f.sampleRate);
    var t5 := t4 + U32LE(ByteRate(f));
    var t6 := t5 + U16LE(BlockAlign(f));
    assert c == t6 + U16LE(f.bitDepth);
    Within(s, 12, c, 0, 4);
    Within(s, 12, c, 4, 8);
    Within(s, 12, c, 8, 10);
    Within(s, 12, c, 10, 12);
    Within(s, 12, c, 12, 16);
    Within(s, 12, c, 16, 20);
    Within(s, 12, c, 20, 22);
    Within(s, 12, c, 22, 24);
    assert c[0..4] == Tag("fmt ") && c[4..8] == U32LE(FMT_CHUNK_SIZE) by { assert t1[0..4] == c[0..4]; assert t1[4..8] == c[4..8]; }
    assert c[8..10] == U16LE(WAVE_FORMAT_PCM) by { assert t2[8..10] == c[8..10]; }
    assert c[10..12] == U16LE(f.channels) by { assert t3[10..12] == c[10..12]; }
    assert c[12..16] == U32LE(f.sampleRate) by { assert t4[12..16] == c[12..16]; }
    assert c[16..20] == U32LE(ByteRate(f)) by { assert t5[16..20] == c[16..20]; }
    assert c[20..22] == U16LE(BlockAlign(f)) by { assert t6[20..22] == c[20..22]; }
    assert c[22..24] == U16LE(f.bitDepth);
    ReadAt32(s, 16, FMT_CHUNK_SIZE);
    ReadAt16(s, 20, WAVE_FORMAT_PCM);
    ReadAt16(s, 22, f.channels);
    ReadAt32(s, 24, f.sampleRate);
    ReadAt32(s, 28, ByteRate(f));
    ReadAt16(s, 32, BlockAlign(f));
    ReadAt16(s, 34, f.bitDepth);
  }

  /** A slice of a slice: bytes `i..j` of the part of `s` that starts at `lo` and equals `c`. */
  lemma Within(s: seq<Byte>, lo: nat, c: seq<Byte>, i: nat, j: nat)
    requires lo + |c| <= |s| && s[lo..lo + |c|] == c && i <= j <= |c|
    ensures s[lo + i..lo + j] == c[i..j]
  {
    forall k | 0 <= k < j - i
      ensures s[lo + i..lo + j][k] == c[i..j][k]
    {
      assert s[lo + i..lo + j][k] == s[lo + i + k] == s[lo..lo + |c|][i + k];
    }
  }

  lemma ReadData(s: seq<Byte>, n: nat)
    requires n < 0x1_0000_0000 && 44 <= |s| && s[36..44] == DataChunkHeader(n)
    ensures s[36..40] == Tag("data") && ReadU32LE(s, 40) == n
  {
    Within(s, 36, DataChunkHeader(n), 0, 4);
    Within(s, 36, DataChunkHeader(n), 4, 8);
    ReadAt32(s, 40, n);
  }

  lemma ReadAt32(s: seq<Byte>, off: nat, v: nat)
    requires v < 0x1_0000_0000 && off + 4 <= |s| && s[off..off + 4] == U32LE(v)
    ensures ReadU32LE(s, off) == v
  {
    U32RoundTrip(v);
    assert s[off..off + 4][0] == s[off];
  }

  lemma ReadAt16(s: seq<Byte>, off: nat, v: nat)
    requires v < 0x1_0000 && off + 2 <= |s| && s[off..off + 2] == U16LE(v)
    ensures ReadU16LE(s, off) == v
  {
    assert s[off..off + 2][0] == s[off];
  }

  /** The capture pipelines' configuration: 48 kHz, stereo, 16-bit. */
  const CAPTURE_FORMAT: Format := Format(48000, 2, 16)

  /** With the capture configuration the derived fields are 192000 bytes/s and 4 bytes per frame. */
  lemma CaptureFormatFields(dataSize: nat)
    requires dataSize + 36 < 0x1_0000_0000
    ensures Encodable(CAPTURE_FORMAT, dataSize)
    ensures ByteRate(CAPTURE_FORMAT) == 192000 && BlockAlign(CAPTURE_FORMAT) == 4
  {
  }
}
