/** The hit-sound side of the audio module: the WAV loader, read here from the file's bytes
    rather than a stream, and the rotation through a fixed pool of source voices. The
    audio engine and voice objects are represented only by whether they exist. */
module Audio {
  import opened Wrappers

  newtype byte = b: int | 0 <= b < 256

  type u16 = x: int | 0 <= x < 0x1_0000
  type u32 = x: int | 0 <= x < 0x1_0000_0000

  /** A little-endian WORD at byte `i`. */
  function U16At(s: seq<byte>, i: nat): u16
    requires i + 2 <= |s|
  {
    s[i] as int + 256 * s[i + 1] as int
  }

  /** A little-endian DWORD at byte `i`. */
  function U32At(s: seq<byte>, i: nat): u32
    requires i + 4 <= |s|
  {
    U16At(s, i) + 0x1_0000 * U16At(s, i + 2)
  }

  /** The four-character codes "RIFF", "WAVE", "fmt " and "data". */
  const RiffId: seq<byte> := [0x52, 0x49, 0x46, 0x46]
  const WaveId: seq<byte> := [0x57, 0x41, 0x56, 0x45]
  const FmtId: seq<byte> := [0x66, 0x6D, 0x74, 0x20]
  const DataId: seq<byte> := [0x64, 0x61, 0x74, 0x61]

  /** WAVE_FORMAT_PCM. */
  const WaveFormatPcm: u16 := 1

  /** The fields of the `fmt ` chunk kept in WAVEFORMATEX (`cbSize` is always 0). */
  datatype WaveFormat = WaveFormat(
    formatTag: u16,
    channels: u16,
    samplesPerSec: u32,
    avgBytesPerSec: u32,
    blockAlign: u16,
    bitsPerSample: u16,
    cbSize: u16)

  const ZeroFormat := WaveFormat(0, 0, 0, 0, 0, 0, 0)

  /** `SoundDataXA`: `data` is None where `pData` is null. */
  datatype SoundData = SoundData(wfx: WaveFormat, data: Option<seq<byte>>, dataSize: u32)

  const EmptySound := SoundData(ZeroFormat, None, 0)

  /** The sixteen bytes of a `fmt ` chunk read in field order. */
  function FormatAt(s: seq<byte>, i: nat): WaveFormat
    requires i + 16 <= |s|
  {
    WaveFormat(U16At(s, i), U16At(s, i + 2), U32At(s, i + 4), U32At(s, i + 8),
               U16At(s, i + 12), U16At(s, i + 14), 0)
  }

  /** Where the walk resumes after a chunk whose header starts at `pos`: right after its
      `size` data bytes, with no pad byte for an odd size. The position is unbounded; the
      source computes it in 32-bit arithmetic (see `SeekTargetAsWritten`). */
  function NextChunkPos(pos: nat, size: u32): (next: nat)
    ensures next >= pos + 8
  {
    pos + 8 + size
  }

  /** The source's seek target, `chunkDataPos + chunkSize` in `uint32_t`. */
  function SeekTargetAsWritten(chunkDataPos: u32, chunkSize: u32): u32
  {
    (chunkDataPos + chunkSize) % 0x1_0000_0000
  }

  /** A chunk of size 2^32 - 8 sends the 32-bit seek back to its own header, so the
      source's loop reads the same chunk forever. */
  lemma SeekWrapsToOwnHeader(pos: nat)
    requires pos + 8 < 0x1_0000_0000
    ensures SeekTargetAsWritten(pos + 8, 0x1_0000_0000 - 8) == pos
  {
  }

  /** A 20-byte file that hangs the source's loader: "RIFF", any size, "WAVE", then a
      "JUNK" chunk of size 0xFFFFFFF8. */
  const HangingFile: seq<byte> := RiffId + [0, 0, 0, 0] + WaveId + [0x4A, 0x55, 0x4E, 0x4B] + [0xF8, 0xFF, 0xFF, 0xFF]

  lemma HangingFileSeeksBack()
    ensures |HangingFile| == 20 && HangingFile[12..16] != FmtId && HangingFile[12..16] != DataId
    ensures SeekTargetAsWritten(12 + 8, U32At(HangingFile, 16)) == 12
    ensures NextChunkPos(12, U32At(HangingFile, 16)) > |HangingFile|
  {
    assert U32At(HangingFile, 16) == 0xFFFF_FFF8;
  }

  /** What the chunk walk has found so far. */
  datatype Walk = Walk(fmt: Option<WaveFormat>, data: Option<seq<byte>>)

  /** `d` occurs in `s` at position `p`. */
  predicate SliceAt(d: seq<byte>, s: seq<byte>, p: int)
  {
    0 <= p <= |s| - |d| && s[p..p + |d|] == d
  }

  /** `d` occurs in `s` at some position. */
  ghost predicate SliceOf(d: seq<byte>, s: seq<byte>)
  {
    exists p :: SliceAt(d, s, p)
  }

  /** What every walk state satisfies: a kept format is PCM, kept data is a slice of the
      file shorter than 2^32 bytes. */
  ghost predicate WalkInvariant(s: seq<byte>, w: Walk)
  {
    && (w.fmt.Some? ==> w.fmt.value.formatTag == WaveFormatPcm)
    && (w.data.Some? ==> |w.data.value| < 0x1_0000_0000 && SliceOf(w.data.value, s))
  }

  /** The chunk walk from the header at `pos`; None is a failure. The walk ends when fewer
      than four bytes remain for a chunk id. A header cut short after its id fails for
      `fmt ` and `data` and ends the walk otherwise. A `fmt ` chunk fails when it is
      smaller than 16 bytes, when its sixteen bytes run past the end, or when it is not
      PCM; a later one replaces an earlier one. A `data` chunk fails when its bytes run
      past the end; a later one replaces an earlier one. Other chunks are skipped. */
  function WalkChunks(s: seq<byte>, pos: nat, w: Walk): (r: Option<Walk>)
    ensures WalkInvariant(s, w) && r.Some? ==> WalkInvariant(s, r.value)
    ensures r.Some? && r.value.fmt.None? ==> w.fmt.None?
    ensures r.Some? && r.value.data.None? ==> w.data.None?
    decreases |s| - pos
  {
    if pos + 4 > |s| then Some(w)
    else
      var id := s[pos..pos + 4];
      if pos + 8 > |s| then
        if id == FmtId || id == DataId then None else Some(w)
      else
        var size := U32At(s, pos + 4);
        var dataPos := pos + 8;
        if id == FmtId then
          if size < 16 || dataPos + 16 > |s| || U16At(s, dataPos) != WaveFormatPcm then None
          else WalkChunks(s, NextChunkPos(pos, size), w.(fmt := Some(FormatAt(s, dataPos))))
        else if id == DataId then
          if dataPos + size > |s| then None
          else
            var d := s[dataPos..dataPos + size];
            assert SliceAt(d, s, dataPos);
            WalkChunks(s, NextChunkPos(pos, size), w.(data := Some(d)))
        else WalkChunks(s, NextChunkPos(pos, size), w)
  }

  /** `LoadWAVFromFile` on the bytes of an opened file: None is a failure. Success needs
      the "RIFF"/"WAVE" header and both a PCM `fmt ` chunk and a `data` chunk, and yields
      the format and exactly the data chunk's bytes. */
  function LoadWav(s: seq<byte>): (r: Option<SoundData>)
    ensures r.Some? ==> |s| >= 12 && s[..4] == RiffId && s[8..12] == WaveId
    ensures r.Some? ==> r.value.wfx.formatTag == WaveFormatPcm
    ensures r.Some? ==> r.value.data.Some? && |r.value.data.value| == r.value.dataSize
    ensures r.Some? ==> SliceOf(r.value.data.value, s)
  {
    if |s| < 12 || s[..4] != RiffId || s[8..12] != WaveId then None
    else
      match WalkChunks(s, 12, Walk(None, None))
      case None => None
      case Some(w) =>
        if w.fmt.None? || w.data.None? then None
        else Some(SoundData(w.fmt.value, w.data, |w.data.value|))
  }

  /** The chunk headers the walk visits from `pos` as long as nothing fails: every
      position with a complete 8-byte header, each one after the previous chunk's data. */
  function Headers(s: seq<byte>, pos: nat): (h: seq<nat>)
    ensures forall k :: 0 <= k < |h| ==> pos <= h[k] && h[k] + 8 <= |s|
    decreases |s| - pos
  {
    if pos + 8 > |s| then [] else [pos] + Headers(s, NextChunkPos(pos, U32At(s, pos + 4)))
  }

  /** The chunk id `id` at byte `p`. */
  predicate IdAt(s: seq<byte>, p: nat, id: seq<byte>)
  {
    p + 4 <= |s| && s[p..p + 4] == id
  }

  /** A `fmt ` chunk the source refuses: smaller than 16 bytes, its sixteen bytes past the
      end, or not PCM. */
  predicate BadFmtAt(s: seq<byte>, q: nat)
  {
    && q + 8 <= |s| && IdAt(s, q, FmtId)
    && (U32At(s, q + 4) < 16 || q + 24 > |s| || U16At(s, q + 8) != WaveFormatPcm)
  }

  /** A `data` chunk whose bytes run past the end. */
  predicate BadDataAt(s: seq<byte>, q: nat)
  {
    q + 8 <= |s| && IdAt(s, q, DataId) && q + 8 + U32At(s, q + 4) > |s|
  }

  /** The header at `q` holds a `fmt ` chunk with format `f`. */
  predicate FmtChunkHolds(s: seq<byte>, q: nat, f: WaveFormat)
  {
    q + 24 <= |s| && IdAt(s, q, FmtId) && U32At(s, q + 4) >= 16 && f == FormatAt(s, q + 8)
  }

  /** The header at `p` holds a `data` chunk whose bytes are exactly `d`. */
  predicate DataChunkHolds(s: seq<byte>, p: nat, d: seq<byte>)
  {
    p + 8 <= |s| && IdAt(s, p, DataId) && p + 8 + U32At(s, p + 4) <= |s| && d == s[p + 8..p + 8 + U32At(s, p + 4)]
  }

  /** A refused `fmt ` or `data` chunk anywhere on the walk makes the walk fail. */
  lemma {:induction false} BadChunkFails(s: seq<byte>, pos: nat, w: Walk, q: nat)
    requires q in Headers(s, pos) && (BadFmtAt(s, q) || BadDataAt(s, q))
    ensures WalkChunks(s, pos, w) == None
    decreases |s| - pos
  {
    var size := U32At(s, pos + 4);
    var next := NextChunkPos(pos, size);
    if q != pos {
      var id := s[pos..pos + 4];
      if id == FmtId {
        if !(size < 16 || pos + 24 > |s| || U16At(s, pos + 8) != WaveFormatPcm) {
          BadChunkFails(s, next, w.(fmt := Some(FormatAt(s, pos + 8))), q);
        }
      } else if id == DataId {
        if pos + 8 + size <= |s| {
          BadChunkFails(s, next, w.(data := Some(s[pos + 8..pos + 8 + size])), q);
        }
      } else {
        BadChunkFails(s, next, w, q);
      }
    }
  }

  /** The loader fails on a file whose walk meets a refused `fmt ` or `data` chunk. */
  lemma LoadWavRejectsBadChunk(s: seq<byte>, q: nat)
    requires q in Headers(s, 12) && (BadFmtAt(s, q) || BadDataAt(s, q))
    ensures LoadWav(s) == None
  {
    if |s| >= 12 && s[..4] == RiffId && s[8..12] == WaveId {
      BadChunkFails(s, 12, Walk(None, None), q);
    }
  }

  /** No header the walk visits from `pos` carries the id `id`. */
  ghost predicate NoneWith(s: seq<byte>, pos: nat, id: seq<byte>)
  {
    forall p :: p in Headers(s, pos) ==> !IdAt(s, p, id)
  }

  /** `p` is the last header the walk visits from `pos` that carries the id `id`. */
  ghost predicate LastWith(s: seq<byte>, pos: nat, p: nat, id: seq<byte>)
  {
    && p in Headers(s, pos) && IdAt(s, p, id)
    && forall p' :: p' in Headers(s, pos) && p' > p ==> !IdAt(s, p', id)
  }

  /** The headers visited from `pos` are `pos` and then those visited from the next chunk. */
  lemma HeadersStep(s: seq<byte>, pos: nat)
    requires pos + 8 <= |s|
    ensures var next := NextChunkPos(pos, U32At(s, pos + 4));
      && Headers(s, pos) == [pos] + Headers(s, next)
      && forall p :: p in Headers(s, next) ==> p > pos
  {
  }

  /** A last `id` header from the next chunk on is the last one from `pos` too. */
  lemma LastWithLifts(s: seq<byte>, pos: nat, p: nat, id: seq<byte>)
    requires pos + 8 <= |s| && LastWith(s, NextChunkPos(pos, U32At(s, pos + 4)), p, id)
    ensures LastWith(s, pos, p, id)
  {
    HeadersStep(s, pos);
  }

  /** With no `id` header from the next chunk on, one at `pos` is the last. */
  lemma LastWithAtHead(s: seq<byte>, pos: nat, id: seq<byte>)
    requires pos + 8 <= |s| && IdAt(s, pos, id) && NoneWith(s, NextChunkPos(pos, U32At(s, pos + 4)), id)
    ensures LastWith(s, pos, pos, id)
  {
    HeadersStep(s, pos);
  }

  /** With no `id` header at `pos` or from the next chunk on, none is visited. */
  lemma NoneWithLifts(s: seq<byte>, pos: nat, id: seq<byte>)
    requires pos + 8 <= |s| && !IdAt(s, pos, id) && NoneWith(s, NextChunkPos(pos, U32At(s, pos + 4)), id)
    ensures NoneWith(s, pos, id)
  {
    HeadersStep(s, pos);
  }

  /** The walk's data is the walk's own input when no `data` header is visited, and
      otherwise exactly the bytes of the last `data` chunk visited. */
  lemma {:induction false} WalkKeepsLastData(s: seq<byte>, pos: nat, w: Walk)
    ensures var r := WalkChunks(s, pos, w);
      r.Some? ==>
        || (r.value.data == w.data && NoneWith(s, pos, DataId))
        || exists p :: LastWith(s, pos, p, DataId) && r.value.data.Some? && DataChunkHolds(s, p, r.value.data.value)
    decreases |s| - pos
  {
    if pos + 8 > |s| {
      assert Headers(s, pos) == [];
    } else {
      var size := U32At(s, pos + 4);
      var next := NextChunkPos(pos, size);
      var id := s[pos..pos + 4];
      var w' := w;
      if id == FmtId {
        if size < 16 || pos + 24 > |s| || U16At(s, pos + 8) != WaveFormatPcm {
          return;
        }
        w' := w.(fmt := Some(FormatAt(s, pos + 8)));
      } else if id == DataId {
        if pos + 8 + size > |s| {
          return;
        }
        w' := w.(data := Some(s[pos + 8..pos + 8 + size]));
      }
      assert WalkChunks(s, pos, w) == WalkChunks(s, next, w');
      WalkKeepsLastData(s, next, w');
      var r := WalkChunks(s, next, w');
      if r.Some? {
        if r.value.data == w'.data && NoneWith(s, next, DataId) {
          if id == DataId {
            LastWithAtHead(s, pos, DataId);
            assert DataChunkHolds(s, pos, r.value.data.value);
          } else {
            NoneWithLifts(s, pos, DataId);
          }
        } else {
          var p :| LastWith(s, next, p, DataId) && r.value.data.Some? && DataChunkHolds(s, p, r.value.data.value);
          LastWithLifts(s, pos, p, DataId);
        }
      }
    }
  }

  /** The walk's format is the walk's own input when no `fmt ` header is visited, and
      otherwise the fields of the last `fmt ` chunk visited. */
  lemma {:induction false} WalkKeepsLastFormat(s: seq<byte>, pos: nat, w: Walk)
    ensures var r := WalkChunks(s, pos, w);
      r.Some? ==>
        || (r.value.fmt == w.fmt && NoneWith(s, pos, FmtId))
        || exists q :: LastWith(s, pos, q, FmtId) && r.value.fmt.Some? && FmtChunkHolds(s, q, r.value.fmt.value)
    decreases |s| - pos
  {
    if pos + 8 > |s| {
      assert Headers(s, pos) == [];
    } else {
      var size := U32At(s, pos + 4);
      var next := NextChunkPos(pos, size);
      var id := s[pos..pos + 4];
      var w' := w;
      if id == FmtId {
        if size < 16 || pos + 24 > |s| || U16At(s, pos + 8) != WaveFormatPcm {
          return;
        }
        w' := w.(fmt := Some(FormatAt(s, pos + 8)));
      } else if id == DataId {
        if pos + 8 + size > |s| {
          return;
        }
        w' := w.(data := Some(s[pos + 8..pos + 8 + size]));
      }
      assert WalkChunks(s, pos, w) == WalkChunks(s, next, w');
      WalkKeepsLastFormat(s, next, w');
      var r := WalkChunks(s, next, w');
      if r.Some? {
        if r.value.fmt == w'.fmt && NoneWith(s, next, FmtId) {
          if id == FmtId {
            LastWithAtHead(s, pos, FmtId);
            assert FmtChunkHolds(s, pos, r.value.fmt.value);
          } else {
            NoneWithLifts(s, pos, FmtId);
          }
        } else {
          var q :| LastWith(s, next, q, FmtId) && r.value.fmt.Some? && FmtChunkHolds(s, q, r.value.fmt.value);
          LastWithLifts(s, pos, q, FmtId);
        }
      }
    }
  }

  /** A loaded sound holds the fields of the last `fmt ` chunk and exactly the bytes of
      the last `data` chunk the walk visits. */
  lemma LoadWavTakesLastChunks(s: seq<byte>)
    ensures var r := LoadWav(s);
      r.Some? ==>
        && r.value.data.Some?
        && (exists p :: LastWith(s, 12, p, DataId) && DataChunkHolds(s, p, r.value.data.value))
        && (exists q :: LastWith(s, 12, q, FmtId) && FmtChunkHolds(s, q, r.value.wfx))
  {
    WalkKeepsLastData(s, 12, Walk(None, None));
    WalkKeepsLastFormat(s, 12, Walk(None, None));
  }

  /** Little-endian encodings, the inverse of `U16At` and `U32At`. */
  function LE16(x: u16): (b: seq<byte>)
    ensures |b| == 2
  {
    [(x % 256) as byte, (x / 256) as byte]
  }

  function LE32(x: u32): (b: seq<byte>)
    ensures |b| == 4
  {
    LE16(x % 0x1_0000) + LE16(x / 0x1_0000)
  }

  lemma ReadLE16(s: seq<byte>, i: nat, x: u16)
    requires i + 2 <= |s| && s[i] == LE16(x)[0] && s[i + 1] == LE16(x)[1]
    ensures U16At(s, i) == x
  {
  }

  lemma ReadLE32(s: seq<byte>, i: nat, x: u32)
    requires i + 4 <= |s|
    requires s[i] == LE32(x)[0] && s[i + 1] == LE32(x)[1] && s[i + 2] == LE32(x)[2] && s[i + 3] == LE32(x)[3]
    ensures U32At(s, i) == x
  {
    ReadLE16(s, i, x % 0x1_0000);
    ReadLE16(s, i + 2, x / 0x1_0000);
  }

  /** The sixteen bytes of a `fmt ` chunk holding `f`. */
  function FormatBytes(f: WaveFormat): (b: seq<byte>)
    ensures |b| == 16
  {
    LE16(f.formatTag) + LE16(f.channels) + LE32(f.samplesPerSec) + LE32(f.avgBytesPerSec)
      + LE16(f.blockAlign) + LE16(f.bitsPerSample)
  }

  lemma ReadFormat(s: seq<byte>, i: nat, f: WaveFormat)
    requires i + 16 <= |s| && s[i..i + 16] == FormatBytes(f) && f.cbSize == 0
    ensures FormatAt(s, i) == f
  {
    var b := FormatBytes(f);
    assert forall k :: 0 <= k < 16 ==> s[i + k] == b[k] by {
      forall k | 0 <= k < 16 ensures s[i + k] == b[k] {
        assert s[i..i + 16][k] == s[i + k];
      }
    }
    assert s[i + 0] == b[0] && s[i + 1] == b[1];
    ReadLE16(s, i, f.formatTag);
    assert s[i + 2] == b[2] && s[i + 3] == b[3];
    ReadLE16(s, i + 2, f.channels);
    assert s[i + 4] == b[4] && s[i + 5] == b[5] && s[i + 6] == b[6] && s[i + 7] == b[7];
    ReadLE32(s, i + 4, f.samplesPerSec);
    assert s[i + 8] == b[8] && s[i + 9] == b[9] && s[i + 10] == b[10] && s[i + 11] == b[11];
    ReadLE32(s, i + 8, f.avgBytesPerSec);
    assert s[i + 12] == b[12] && s[i + 13] == b[13];
    ReadLE16(s, i + 12, f.blockAlign);
    assert s[i + 14] == b[14] && s[i + 15] == b[15];
    ReadLE16(s, i + 14, f.bitsPerSample);
  }

  /** The smallest WAV file holding a format and samples: the RIFF header, a 16-byte
      `fmt ` chunk and a `data` chunk. */
  function EncodeWav(f: WaveFormat, d: seq<byte>): (s: seq<byte>)
    requires |d| + 36 < 0x1_0000_0000
    ensures |s| == 44 + |d|
  {
    RiffId + LE32(36 + |d|) + WaveId + FmtId + LE32(16) + FormatBytes(f) + DataId + LE32(|d|) + d
  }

  /** Loading what `EncodeWav` wrote gives back the format and the samples. */
  lemma LoadEncodedWav(f: WaveFormat, d: seq<byte>)
    requires f.formatTag == WaveFormatPcm && f.cbSize == 0 && |d| + 36 < 0x1_0000_0000
    ensures LoadWav(EncodeWav(f, d)) == Some(SoundData(f, Some(d), |d|))
  {
    var s := EncodeWav(f, d);
    assert s[..4] == RiffId;
    assert s[8..12] == WaveId;
    assert s[12..16] == FmtId;
    assert s[16..20] == LE32(16);
    assert s[20..36] == FormatBytes(f);
    assert s[36..40] == DataId;
    assert s[40..44] == LE32(|d|);
    assert s[44..44 + |d|] == d;
    ReadLE32(s, 16, 16);
    ReadFormat(s, 20, f);
    ReadLE32(s, 40, |d|);
    var w1 := Walk(Some(f), None);
    var w2 := Walk(Some(f), Some(d));
    assert WalkChunks(s, 44 + |d|, w2) == Some(w2);
    assert WalkChunks(s, 36, w1) == Some(w2);
    assert WalkChunks(s, 12, Walk(None, None)) == Some(w2);
  }

  /** The loader: a file that did not open leaves `outSound` as it was; any later failure
      resets it to the empty record; success fills it from the file. */
  method LoadWAVFromFile(file: Option<seq<byte>>, outSound: SoundData) returns (ok: bool, sound: SoundData)
    ensures file.None? ==> !ok && sound == outSound
    ensures file.Some? && LoadWav(file.value).None? ==> !ok && sound == EmptySound
    ensures file.Some? && LoadWav(file.value).Some? ==> ok && sound == LoadWav(file.value).value
  {
    if file.None? {
      return false, outSound;
    }
    var s := file.value;
    if |s| < 12 || s[..4] != RiffId || s[8..12] != WaveId {
      return false, EmptySound;
    }
    var fmtFound, dataFound := false, false;
    var wfx := ZeroFormat;
    var pData: Option<seq<byte>> := None;
    var dataSize: u32 := 0;
    var pos: nat := 12;
    while pos + 4 <= |s|
      invariant dataFound <==> pData.Some?
      invariant dataFound ==> dataSize == |pData.value|
      invariant WalkChunks(s, 12, Walk(None, None)) == WalkChunks(s, pos, Walk(if fmtFound then Some(wfx) else None, pData))
      decreases |s| - pos
    {
      ghost var w := Walk(if fmtFound then Some(wfx) else None, pData);
      var chunkId := s[pos..pos + 4];
      if pos + 8 > |s| {
        if chunkId == FmtId || chunkId == DataId {
          assert WalkChunks(s, pos, w) == None;
          return false, EmptySound;
        }
        assert WalkChunks(s, pos, w) == Some(w);
        break;
      }
      var chunkSize := U32At(s, pos + 4);
      var chunkDataPos := pos + 8;
      if chunkId == FmtId {
        if chunkSize < 16 || chunkDataPos + 16 > |s| {
          assert WalkChunks(s, pos, w) == None;
          return false, EmptySound;
        }
        var audioFormat := U16At(s, chunkDataPos);
        if audioFormat != WaveFormatPcm {
          assert WalkChunks(s, pos, w) == None;
          return false, EmptySound;
        }
        wfx := FormatAt(s, chunkDataPos);
        fmtFound := true;
        assert WalkChunks(s, pos, w) == WalkChunks(s, NextChunkPos(pos, chunkSize), w.(fmt := Some(wfx)));
      } else if chunkId == DataId {
        dataSize := chunkSize;
        if chunkDataPos + chunkSize > |s| {
          assert WalkChunks(s, pos, w) == None;
          return false, EmptySound;
        }
        pData := Some(s[chunkDataPos..chunkDataPos + chunkSize]);
        dataFound := true;
        assert WalkChunks(s, pos, w) == WalkChunks(s, NextChunkPos(pos, chunkSize), w.(data := pData));
      } else {
        assert WalkChunks(s, pos, w) == WalkChunks(s, NextChunkPos(pos, chunkSize), w);
      }
      pos := NextChunkPos(pos, chunkSize);
    }
    if !fmtFound || !dataFound {
      return false, EmptySound;
    }
    return true, SoundData(wfx, pData, dataSize);
  }

  /** The size of the hit-voice pool. */
  const HitVoiceCount: nat := 4

  /** The audio globals: the hit sound, the pool of source voices (a slot is true when it
      holds a voice) and the index of the voice the next hit uses. */
  class AudioEngine {
    var hasEngine: bool
    var hasMasterVoice: bool
    var hitSound: SoundData
    const voices: array<bool>
    var nextHitVoiceIndex: int
    /** The voice slots that played a hit, in order. */
    ghost var played: seq<int>

    /** The index stays in the pool, and the voices that played a hit were taken in
        rotation: each one after the previous, modulo the pool size, and the next one
        after the last. */
    ghost predicate Valid()
      reads this
    {
      && voices.Length == HitVoiceCount
      && 0 <= nextHitVoiceIndex < HitVoiceCount
      && (forall k :: 0 <= k < |played| - 1 ==> played[k + 1] == (played[k] + 1) % HitVoiceCount)
      && (|played| > 0 ==> nextHitVoiceIndex == (played[|played| - 1] + 1) % HitVoiceCount)
    }

    /** The state initialisation leaves: the loaded hit sound and the voices that were
        created; the rotation starts at slot 0. */
    constructor (engine: bool, masterVoice: bool, sound: SoundData, created: seq<bool>)
      requires |created| == HitVoiceCount
      ensures Valid() && fresh(voices)
      ensures hasEngine == engine && hasMasterVoice == masterVoice && hitSound == sound
      ensures voices[..] == created && nextHitVoiceIndex == 0 && played == []
    {
      hasEngine, hasMasterVoice, hitSound := engine, masterVoice, sound;
      voices := new bool[HitVoiceCount](i requires 0 <= i < HitVoiceCount => created[i]);
      nextHitVoiceIndex := 0;
      played := [];
    }

    /** `PlayHitSound`: nothing happens without sound data or without a voice in the
        current slot; otherwise that voice plays and the index moves on by one, modulo
        the pool size (whether the buffer submission succeeded does not matter). */
    method PlayHitSound()
      requires Valid()
      modifies this`nextHitVoiceIndex, this`played
      ensures Valid()
      ensures old(hitSound.data.None? || !voices[nextHitVoiceIndex]) ==>
        nextHitVoiceIndex == old(nextHitVoiceIndex) && played == old(played)
      ensures old(hitSound.data.Some? && voices[nextHitVoiceIndex]) ==>
        nextHitVoiceIndex == (old(nextHitVoiceIndex) + 1) % HitVoiceCount && played == old(played) + [old(nextHitVoiceIndex)]
    {
      if hitSound.data.None? {
        return;
      }
      if !voices[nextHitVoiceIndex] {
        return;
      }
      played := played + [nextHitVoiceIndex];
      nextHitVoiceIndex := (nextHitVoiceIndex + 1) % HitVoiceCount;
    }

    /** `CleanupXAudio2`: every voice slot is emptied, the sound data released and the
        engine and mastering voice dropped; the rotation index is kept. */
    method CleanupXAudio2()
      requires Valid()
      modifies this`hitSound, this`hasMasterVoice, this`hasEngine, voices
      ensures Valid()
      ensures forall i :: 0 <= i < voices.Length ==> !voices[i]
      ensures hitSound == EmptySound && !hasMasterVoice && !hasEngine
    {
      var i := 0;
      while i < HitVoiceCount
        invariant 0 <= i <= HitVoiceCount
        invariant forall k :: 0 <= k < i ==> !voices[k]
      {
        if voices[i] {
          voices[i] := false;
        }
        i := i + 1;
      }
      hitSound := EmptySound;
      hasMasterVoice := false;
      hasEngine := false;
    }
  }
}
