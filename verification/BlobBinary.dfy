/** The binary log of a triplet: record encodings, record reads and the header that appends to the log file. */
module BlobBinary {
  import opened Bytes

  const BLOBID_SIZE := 128
  const CHECKSUM_SIZE := 32
  const HEADER_SIZE := BLOBID_SIZE + 8 + CHECKSUM_SIZE
  const CHUNK_SIZE := 4096
  const CONTENT_SIZE := CHUNK_SIZE - HEADER_SIZE
  const PLAIN_HEADER := BLOBID_SIZE + 8

  // ----- sizes -----

  /** Go's integer division, truncating toward zero. */
  function TruncDiv(a: int, b: int): int
    requires b > 0
  {
    if a >= 0 then a / b else -((-a) / b)
  }

  function ChunkCount(size: int): int {
    TruncDiv(size + CONTENT_SIZE - 1, CONTENT_SIZE)
  }

  /** `GetPayloadSize`: the bytes the caller expects a record to take. */
  function PayloadSize(aligned: bool, dataLen: nat): int {
    if aligned then CHUNK_SIZE * ChunkCount(dataLen) else PLAIN_HEADER + dataLen
  }

  // ----- what a record looks like -----

  function EncodePlain(id: seq<byte>, data: seq<byte>): seq<byte> {
    Pad(id, BLOBID_SIZE) + Int64Bytes(|data|) + data
  }

  function FakeChecksum(): (c: seq<byte>)
    ensures |c| == CHECKSUM_SIZE
  {
    seq(CHECKSUM_SIZE, i requires i >= 0 => 49 + i % 8)
  }

  /** One 4 KiB chunk; `remaining` is the number of bytes not yet in an earlier chunk. */
  function Chunk(id: seq<byte>, remaining: int, content: seq<byte>): (c: seq<byte>)
    ensures |c| == CHUNK_SIZE
  {
    Pad(id, BLOBID_SIZE) + Int64Bytes(remaining) + FakeChecksum() + Pad(content, CONTENT_SIZE)
  }

  function Chunked(id: seq<byte>, data: seq<byte>): seq<byte> {
    if data == [] then []
    else
      var n := Min(CONTENT_SIZE, |data|);
      Chunk(id, |data|, data[..n]) + Chunked(id, data[n..])
  }

  function Record(aligned: bool, id: seq<byte>, data: seq<byte>): seq<byte> {
    if aligned then Chunked(id, data) else EncodePlain(id, data)
  }

  // ----- how a record is read -----

  function DecodeName(header: seq<byte>): seq<byte>
    requires |header| >= 8
  {
    header[..8]
  }

  /** The contents of consecutive chunks, headers dropped. */
  function Bodies(encoded: seq<byte>): seq<byte> {
    if |encoded| < CHUNK_SIZE then []
    else encoded[HEADER_SIZE..CHUNK_SIZE] + Bodies(encoded[CHUNK_SIZE..])
  }

  /** `Decode4K`: crashes on a partial chunk, on no chunk at all, and on a size the chunks cannot hold. */
  function Unchunk(encoded: seq<byte>): Outcome<(seq<byte>, seq<byte>)> {
    if |encoded| % CHUNK_SIZE != 0 || |encoded| == 0 then Crash
    else
      var size := ReadInt64(encoded[BLOBID_SIZE..PLAIN_HEADER]);
      if 0 <= size <= |Bodies(encoded)| then Ok((DecodeName(encoded), Bodies(encoded)[..size])) else Crash
  }

  function Decode(encoded: seq<byte>): Outcome<(seq<byte>, seq<byte>)> {
    if |encoded| < PLAIN_HEADER then Crash
    else
      var size := ReadInt64(encoded[BLOBID_SIZE..PLAIN_HEADER]);
      if 0 <= size <= |encoded| - PLAIN_HEADER
      then Ok((DecodeName(encoded), encoded[PLAIN_HEADER..PLAIN_HEADER + size]))
      else Crash
  }

  /** `readBlob`. A short read, a wrong name and a negative size all stop the process. */
  function ReadPlain(file: seq<byte>, id: seq<byte>, off: int): Outcome<seq<byte>> {
    if off < 0 || off + PLAIN_HEADER > |file| then Crash
    else if DecodeName(file[off..off + BLOBID_SIZE]) != id then Crash
    else
      var size := ReadInt64(file[off + BLOBID_SIZE..off + PLAIN_HEADER]);
      if size < 0 || off + PLAIN_HEADER + size > |file| then Crash
      else Ok(file[off + PLAIN_HEADER..off + PLAIN_HEADER + size])
  }

  /** `readBlob4K`: the chunk count comes from the size field of the first chunk. */
  function ReadChunked(file: seq<byte>, id: seq<byte>, off: int): Outcome<seq<byte>> {
    if off < 0 || off + HEADER_SIZE > |file| then Crash
    else if DecodeName(file[off..off + BLOBID_SIZE]) != id then Crash
    else
      var total := ChunkCount(ReadInt64(file[off + BLOBID_SIZE..off + PLAIN_HEADER])) * CHUNK_SIZE;
      if total < 0 || off + total > |file| then Crash
      else
        match Unchunk(file[off..off + total])
        case Crash => Crash
        case Ok((name, data)) => if name == id then Ok(data) else Crash
  }

  function ReadRecord(aligned: bool, file: seq<byte>, id: seq<byte>, off: int): Outcome<seq<byte>> {
    if aligned then ReadChunked(file, id, off) else ReadPlain(file, id, off)
  }

  // ----- sizes agree -----

  lemma ChunkCountStep(n: nat)
    requires n > 0
    ensures ChunkCount(n) == 1 + ChunkCount(if n > CONTENT_SIZE then n - CONTENT_SIZE else 0)
  {
  }

  /** The size `Put` reserves for and checks against is the length of the record really written. */
  lemma {:induction false} RecordLength(aligned: bool, id: seq<byte>, data: seq<byte>)
    ensures |Record(aligned, id, data)| == PayloadSize(aligned, |data|)
    ensures PayloadSize(aligned, |data|) == if aligned then 4096 * ((|data| + 3927) / 3928) else 136 + |data|
    decreases |data|
  {
    if aligned && data != [] {
      RecordLength(true, id, data[Min(CONTENT_SIZE, |data|)..]);
      ChunkCountStep(|data|);
    }
  }

  // ----- where the bytes are -----

  /** A plain record: the id in 128 bytes filled up with zeros, the length in eight, lowest first, then the data. */
  lemma PlainLayout(id: seq<byte>, data: seq<byte>, i: nat)
    requires |data| < 0x8000_0000_0000_0000 && i < 136 + |data|
    ensures |EncodePlain(id, data)| == 136 + |data|
    ensures EncodePlain(id, data)[i] ==
            if i < 128 then (if i < |id| then id[i] else 0)
            else if i < 136 then |data| / Pow256(i - 128) % 256
            else data[i - 136]
  {
    hide Pad, LittleEndian;
    var a, b := Pad(id, BLOBID_SIZE), Int64Bytes(|data|);
    assert EncodePlain(id, data) == a + b + data;
    ThreeParts(a, b, data, i);
    if 128 <= i < 136 {
      LittleEndianAt(|data|, 8, i - 128);
    }
  }

  lemma ThreeParts(a: seq<byte>, b: seq<byte>, c: seq<byte>, i: nat)
    requires i < |a| + |b| + |c|
    ensures (a + b + c)[i] == if i < |a| then a[i] else if i < |a| + |b| then b[i - |a|] else c[i - |a| - |b|]
  {
  }

  /** A chunk: the id, the number of bytes from here on, a constant in place of a checksum, 3928 bytes of data. */
  lemma ChunkLayout(id: seq<byte>, remaining: nat, content: seq<byte>, i: nat)
    requires remaining < 0x8000_0000_0000_0000 && i < 4096
    ensures Chunk(id, remaining, content)[i] ==
            if i < 128 then (if i < |id| then id[i] else 0)
            else if i < 136 then remaining / Pow256(i - 128) % 256
            else if i < 168 then "12345678"[(i - 136) % 8] as int
            else if i - 168 < |content| then content[i - 168] else 0
  {
    hide Pad, LittleEndian, FakeChecksum;
    var a, b, d := Pad(id, BLOBID_SIZE), Int64Bytes(remaining), FakeChecksum() + Pad(content, CONTENT_SIZE);
    assert Chunk(id, remaining, content) == a + b + d;
    ThreeParts(a, b, d, i);
    if 128 <= i < 136 {
      LittleEndianAt(remaining, 8, i - 128);
    }
    if 136 <= i < 168 {
      ChecksumAt(i - 136);
    }
  }

  lemma ChecksumAt(k: nat)
    requires k < 32
    ensures FakeChecksum()[k] == "12345678"[k % 8] as int
  {
  }

  /** The k-th chunk of a record holds the k-th 3928 bytes of the data. */
  lemma {:induction false} ChunkAt(id: seq<byte>, data: seq<byte>, k: nat)
    requires 3928 * k < |data|
    ensures |Chunked(id, data)| >= 4096 * (k + 1)
    ensures Chunked(id, data)[4096 * k..4096 * (k + 1)]
         == Chunk(id, |data| - 3928 * k, data[3928 * k..Min(3928 * (k + 1), |data|)])
    decreases k
  {
    hide Chunk, Chunked;
    var n := Min(3928, |data|);
    var c, rest := Chunk(id, |data|, data[..n]), Chunked(id, data[n..]);
    FirstChunk(id, data);
    if k > 0 {
      ChunkAt(id, data[n..], k - 1);
      SliceBehind(c, rest, 4096 * (k - 1), 4096 * k);
      SliceOfRest(data, n, 3928 * k, Min(3928 * (k + 1), |data|));
    } else {
      assert (c + rest)[..4096] == c;
    }
  }

  lemma FirstChunk(id: seq<byte>, data: seq<byte>)
    requires data != []
    ensures var n := Min(3928, |data|); Chunked(id, data) == Chunk(id, |data|, data[..n]) + Chunked(id, data[n..])
  {
  }

  lemma SliceBehind(c: seq<byte>, rest: seq<byte>, a: nat, b: nat)
    requires a <= b <= |rest|
    ensures (c + rest)[|c| + a..|c| + b] == rest[a..b]
  {
  }

  lemma SliceOfRest(data: seq<byte>, n: nat, a: nat, b: nat)
    requires n <= a <= b <= |data|
    ensures data[n..][a - n..b - n] == data[a..b]
  {
  }

  // ----- reading back -----

  lemma BodiesCons(c: seq<byte>, rest: seq<byte>)
    requires |c| == CHUNK_SIZE
    ensures Bodies(c + rest) == c[HEADER_SIZE..] + Bodies(rest)
  {
    var e := c + rest;
    assert e[CHUNK_SIZE..] == rest;
    assert e[HEADER_SIZE..CHUNK_SIZE] == c[HEADER_SIZE..];
  }

  lemma PaddedPrefix(data: seq<byte>, more: seq<byte>, n: nat)
    requires n == Min(CONTENT_SIZE, |data|) && |more| >= |data| - n && more[..|data| - n] == data[n..]
    ensures (Pad(data[..n], CONTENT_SIZE) + more)[..|data|] == data
  {
    var body := Pad(data[..n], CONTENT_SIZE);
    if n == CONTENT_SIZE {
      assert (body + more)[..|data|] == body + more[..|data| - n];
      assert body == data[..n];
      assert data == data[..n] + data[n..];
    } else {
      assert (body + more)[..|data|] == body[..n] == data;
    }
  }

  lemma ChunkBody(id: seq<byte>, remaining: int, content: seq<byte>)
    ensures Chunk(id, remaining, content)[HEADER_SIZE..] == Pad(content, CONTENT_SIZE)
  {
  }

  lemma {:induction false} BodiesOfChunked(id: seq<byte>, data: seq<byte>)
    ensures |Bodies(Chunked(id, data))| >= |data|
    ensures Bodies(Chunked(id, data))[..|data|] == data
    decreases |data|
  {
    if data != [] {
      var n := Min(CONTENT_SIZE, |data|);
      var c, rest := Chunk(id, |data|, data[..n]), Chunked(id, data[n..]);
      BodiesOfChunked(id, data[n..]);
      BodiesCons(c, rest);
      ChunkBody(id, |data|, data[..n]);
      PaddedPrefix(data, Bodies(rest), n);
    }
  }

  lemma WholeChunks(n: int)
    ensures CHUNK_SIZE * n % CHUNK_SIZE == 0
  {
  }

  lemma ChunkedHeader(id: seq<byte>, data: seq<byte>)
    requires 0 < |data| < TWO_63
    ensures |Chunked(id, data)| >= CHUNK_SIZE
    ensures Chunked(id, data)[..BLOBID_SIZE] == Pad(id, BLOBID_SIZE)
    ensures ReadInt64(Chunked(id, data)[BLOBID_SIZE..PLAIN_HEADER]) == |data|
  {
    var c := Chunk(id, |data|, data[..Min(CONTENT_SIZE, |data|)]);
    assert Chunked(id, data)[..CHUNK_SIZE] == c;
    assert Chunked(id, data)[..BLOBID_SIZE] == c[..BLOBID_SIZE];
    assert Chunked(id, data)[BLOBID_SIZE..PLAIN_HEADER] == c[BLOBID_SIZE..PLAIN_HEADER] == Int64Bytes(|data|);
    Int64RoundTrip(|data|);
  }

  lemma PlainHeader(id: seq<byte>, data: seq<byte>)
    requires |data| < TWO_63
    ensures EncodePlain(id, data)[..BLOBID_SIZE] == Pad(id, BLOBID_SIZE)
    ensures ReadInt64(EncodePlain(id, data)[BLOBID_SIZE..PLAIN_HEADER]) == |data|
    ensures EncodePlain(id, data)[PLAIN_HEADER..] == data
  {
    assert EncodePlain(id, data)[BLOBID_SIZE..PLAIN_HEADER] == Int64Bytes(|data|);
    Int64RoundTrip(|data|);
  }

  /** `Decode` inverts `Encode` up to the first eight bytes of the padded id. */
  lemma DecodeInverts(id: seq<byte>, data: seq<byte>)
    requires |data| < TWO_63
    ensures Decode(EncodePlain(id, data)) == Ok((Pad(id, BLOBID_SIZE)[..8], data))
  {
    PlainHeader(id, data);
    var e := EncodePlain(id, data);
    assert e[..8] == e[..BLOBID_SIZE][..8];
    assert e[PLAIN_HEADER..PLAIN_HEADER + |data|] == e[PLAIN_HEADER..];
  }

  /** `Decode4K` inverts `Encode4K` the same way, and stops the process on the encoding of empty data. */
  lemma UnchunkInverts(id: seq<byte>, data: seq<byte>)
    requires |data| < TWO_63
    ensures Unchunk(Chunked(id, data)) == if data == [] then Crash else Ok((Pad(id, BLOBID_SIZE)[..8], data))
  {
    if data != [] {
      ChunkedHeader(id, data);
      BodiesOfChunked(id, data);
      RecordLength(true, id, data);
      WholeChunks(ChunkCount(|data|));
      var e := Chunked(id, data);
      assert e[..8] == e[..BLOBID_SIZE][..8];
    }
  }

  lemma PaddedName(id: seq<byte>)
    ensures Pad(id, BLOBID_SIZE)[..8] == id <==> |id| == 8
  {
    if |id| == 8 {
      assert Pad(id, BLOBID_SIZE)[..8] == id;
    }
  }

  /** A record at the end of `before` reads back as its data, whatever follows it, exactly when the id has
      eight bytes and, in 4K mode, the data is not empty. */
  lemma ReadBack(aligned: bool, before: seq<byte>, id: seq<byte>, data: seq<byte>, after: seq<byte>)
    requires |data| < TWO_63
    ensures ReadRecord(aligned, before + Record(aligned, id, data) + after, id, |before|) == Ok(data)
            <==> |id| == 8 && (aligned ==> data != [])
  {
    PaddedName(id);
    var rec := Record(aligned, id, data);
    var file := before + rec + after;
    var off := |before|;
    assert file[off..off + |rec|] == rec;
    if aligned && data == [] {
      NeverReadsEmpty(file, id, off);
    } else {
      if aligned {
        ChunkedHeader(id, data);
        UnchunkInverts(id, data);
        RecordLength(true, id, data);
      } else {
        PlainHeader(id, data);
        assert file[off + PLAIN_HEADER..off + |rec|] == rec[PLAIN_HEADER..];
      }
      assert file[off..off + BLOBID_SIZE] == rec[..BLOBID_SIZE];
      assert file[off + BLOBID_SIZE..off + PLAIN_HEADER] == rec[BLOBID_SIZE..PLAIN_HEADER];
    }
  }

  lemma NeverReadsEmpty(file: seq<byte>, id: seq<byte>, off: int)
    ensures ReadChunked(file, id, off) != Ok([])
  {
    if 0 <= off && off + HEADER_SIZE <= |file| {
      var size := ReadInt64(file[off + BLOBID_SIZE..off + PLAIN_HEADER]);
      var total := ChunkCount(size) * CHUNK_SIZE;
      if 0 < total && off + total <= |file| {
        var part := file[off..off + total];
        assert |part| == total >= CHUNK_SIZE;
        assert part[BLOBID_SIZE..PLAIN_HEADER] == file[off + BLOBID_SIZE..off + PLAIN_HEADER];
        assert size > 0;
      }
    }
  }

  /** A read yields nothing but what stands in the file behind the name asked for. */
  lemma ReadsWhatIsThere(file: seq<byte>, id: seq<byte>, off: int, data: seq<byte>)
    requires ReadRecord(false, file, id, off) == Ok(data)
    ensures 0 <= off && off + 136 + |data| <= |file|
    ensures file[off..off + 8] == id && file[off + 136..off + 136 + |data|] == data
  {
    assert file[off..off + BLOBID_SIZE][..8] == file[off..off + 8];
  }

  /** A record of which the end is missing is never read, wherever it is cut. */
  lemma TornNeverRead(aligned: bool, before: seq<byte>, id: seq<byte>, data: seq<byte>, k: nat)
    requires 0 < |data| < TWO_63 && k < |Record(aligned, id, data)|
    ensures ReadRecord(aligned, before + Record(aligned, id, data)[..k], id, |before|) == Crash
  {
    hide ReadInt64, EncodePlain, Chunked, ReadPlain, ReadChunked;
    var rec, off := Record(aligned, id, data), |before|;
    var file := before + rec[..k];
    RecordLength(aligned, id, data);
    if aligned {
      ChunkedHeader(id, data);
    } else {
      PlainHeader(id, data);
    }
    if k >= PLAIN_HEADER {
      CutField(before, rec, k);
    }
    CutShort(aligned, file, id, off, |data|);
  }

  lemma CutField(before: seq<byte>, rec: seq<byte>, k: nat)
    requires PLAIN_HEADER <= k <= |rec|
    ensures var file, off := before + rec[..k], |before|;
            file[off + BLOBID_SIZE..off + PLAIN_HEADER] == rec[BLOBID_SIZE..PLAIN_HEADER]
  {
  }

  /** A record that says it is longer than the rest of the file. */
  lemma CutShort(aligned: bool, file: seq<byte>, id: seq<byte>, off: nat, n: nat)
    requires n > 0 && off + PayloadSize(aligned, n) > |file|
    requires off + PLAIN_HEADER <= |file| ==> ReadInt64(file[off + BLOBID_SIZE..off + PLAIN_HEADER]) == n
    ensures ReadRecord(aligned, file, id, off) == Crash
  {
    hide ReadInt64, Unchunk;
  }

  lemma ShiftedOne()
    ensures [0] + Int64Bytes(1)[..7] == Int64Bytes(256)
  {
    assert LittleEndian(0, 6) == [0, 0, 0, 0, 0, 0] && LittleEndian(0, 7) == [0, 0, 0, 0, 0, 0, 0];
    assert LittleEndian(1, 8) == [1] + LittleEndian(0, 7) && LittleEndian(1, 7) == [1] + LittleEndian(0, 6);
    assert LittleEndian(256, 8) == [0] + LittleEndian(1, 7);
  }

  lemma ChunkParts(id: seq<byte>, remaining: int, content: seq<byte>)
    ensures Chunk(id, remaining, content)[..BLOBID_SIZE] == Pad(id, BLOBID_SIZE)
    ensures Chunk(id, remaining, content)[BLOBID_SIZE..PLAIN_HEADER] == Int64Bytes(remaining)
  {
  }

  lemma Shifted(first: byte, c: seq<byte>)
    requires |c| == CHUNK_SIZE && c[BLOBID_SIZE - 1] == 0
    ensures ([first] + c)[..8] == [first] + c[..7]
    ensures ([first] + c)[BLOBID_SIZE..PLAIN_HEADER] == [0] + c[BLOBID_SIZE..PLAIN_HEADER][..7]
  {
  }

  /** A file of more than a chunk whose name and size say so reads as one chunk. */
  lemma OneChunkRead(file: seq<byte>, id: seq<byte>)
    requires |file| >= CHUNK_SIZE && file[..8] == id && ReadInt64(file[BLOBID_SIZE..PLAIN_HEADER]) == 256
    ensures ReadRecord(true, file, id, 0).Ok? && |ReadRecord(true, file, id, 0).value| == 256
  {
    hide ReadInt64;
    var part := file[0..CHUNK_SIZE];
    assert file[0..BLOBID_SIZE][..8] == id && part[..8] == id;
    assert part[BLOBID_SIZE..PLAIN_HEADER] == file[BLOBID_SIZE..PLAIN_HEADER];
    assert ChunkCount(256) == 1;
    assert |Bodies(part)| >= CONTENT_SIZE;
  }

  /** An empty blob in 4K mode leaves no record, so its offset is that of whatever comes next. If that is an append torn
      after one byte and then, after a restart, a one-byte blob, its read can yield 256 bytes of theirs. */
  lemma EmptyReadsForeign(first: byte, b: seq<byte>, x: byte)
    requires |b| == 8
    ensures var file, id := [first] + Record(true, b, [x]), [first] + b[..7];
            ReadRecord(true, file, id, 0).Ok? && |ReadRecord(true, file, id, 0).value| == 256
  {
    hide Chunk, ReadInt64, Int64Bytes, ReadRecord;
    var c := Chunk(b, 1, [x]);
    assert [x][..1] == [x] && [x][1..] == [] && Chunked(b, []) == [] && c + [] == c;
    assert Record(true, b, [x]) == c;
    ChunkParts(b, 1, [x]);
    assert c[..BLOBID_SIZE][BLOBID_SIZE - 1] == 0 && c[..BLOBID_SIZE][..7] == b[..7];
    Shifted(first, c);
    ShiftedOne();
    Int64RoundTrip(256);
    OneChunkRead([first] + c, [first] + b[..7]);
  }

  /** Appending to the log never changes what an earlier read returned. */
  lemma ReadStable(aligned: bool, file: seq<byte>, id: seq<byte>, off: int, more: seq<byte>)
    requires ReadRecord(aligned, file, id, off).Ok?
    ensures ReadRecord(aligned, file + more, id, off) == ReadRecord(aligned, file, id, off)
  {
    var g := file + more;
    assert g[off..off + BLOBID_SIZE] == file[off..off + BLOBID_SIZE];
    assert g[off + BLOBID_SIZE..off + PLAIN_HEADER] == file[off + BLOBID_SIZE..off + PLAIN_HEADER];
    var size := ReadInt64(file[off + BLOBID_SIZE..off + PLAIN_HEADER]);
    if aligned {
      var total := ChunkCount(size) * CHUNK_SIZE;
      assert g[off..off + total] == file[off..off + total];
    } else {
      assert g[off + PLAIN_HEADER..off + PLAIN_HEADER + size] == file[off + PLAIN_HEADER..off + PLAIN_HEADER + size];
    }
  }

  // ----- a whole log -----

  datatype Blob = Blob(id: seq<byte>, data: seq<byte>)

  function Records(aligned: bool, blobs: seq<Blob>): (parts: seq<seq<byte>>)
    ensures |parts| == |blobs|
  {
    seq(|blobs|, i requires 0 <= i < |blobs| => Record(aligned, blobs[i].id, blobs[i].data))
  }

  function LogOf(aligned: bool, blobs: seq<Blob>): seq<byte> {
    Flatten(Records(aligned, blobs))
  }

  function Flatten(parts: seq<seq<byte>>): seq<byte> {
    if parts == [] then [] else parts[0] + Flatten(parts[1..])
  }

  lemma {:induction false} FlattenAppend(p: seq<seq<byte>>, q: seq<seq<byte>>)
    ensures Flatten(p + q) == Flatten(p) + Flatten(q)
  {
    if p == [] {
      assert p + q == q;
    } else {
      assert (p + q)[1..] == p[1..] + q;
      FlattenAppend(p[1..], q);
      ConcatAssociates(p[0], Flatten(p[1..]), Flatten(q));
    }
  }

  lemma FlattenSplits(parts: seq<seq<byte>>, k: nat)
    requires k < |parts|
    ensures Flatten(parts) == Flatten(parts[..k]) + parts[k] + Flatten(parts[k + 1..])
  {
    assert parts == parts[..k] + parts[k..];
    assert parts[k..][1..] == parts[k + 1..];
    FlattenAppend(parts[..k], parts[k..]);
    ConcatAssociates(Flatten(parts[..k]), parts[k], Flatten(parts[k + 1..]));
  }

  /** In a log of any number of records, the read at the k-th offset returns the k-th data. */
  lemma LogReadsBack(aligned: bool, blobs: seq<Blob>, k: nat)
    requires k < |blobs| && |blobs[k].data| < TWO_63
    ensures ReadRecord(aligned, LogOf(aligned, blobs), blobs[k].id, |LogOf(aligned, blobs[..k])|) == Ok(blobs[k].data)
            <==> |blobs[k].id| == 8 && (aligned ==> blobs[k].data != [])
  {
    var parts := Records(aligned, blobs);
    FlattenSplits(parts, k);
    assert Records(aligned, blobs[..k]) == parts[..k];
    ReadBack(aligned, LogOf(aligned, blobs[..k]), blobs[k].id, blobs[k].data, Flatten(parts[k + 1..]));
  }

  // ----- the loops -----

  /** `Encode4K`: the chunks are built first and written out one after the other. */
  method Encode4K(id: seq<byte>, data: seq<byte>) returns (encoded: seq<byte>)
    requires |data| < TWO_63
    ensures encoded == Chunked(id, data)
  {
    hide Chunk, Chunked, Flatten, Rest, Content;
    var chunks: seq<seq<byte>> := [];
    var size, start := |data|, 0;
    EncodeStart(id, data);
    while size > 0
      invariant 0 <= start && size == |data| - start
      invariant Flatten(chunks) + Chunked(id, Rest(data, start)) == Chunked(id, data)
      decreases size
    {
      EncodeStep(id, data, start, chunks);
      chunks := chunks + [Chunk(id, size, Content(data, start))];
      start := start + CONTENT_SIZE;
      size := size - CONTENT_SIZE;
    }
    EncodeEnd(id, data, start, chunks);
    encoded := WriteAll(chunks);
  }

  lemma EncodeStart(id: seq<byte>, data: seq<byte>)
    ensures Flatten([]) + Chunked(id, Rest(data, 0)) == Chunked(id, data)
  {
    assert Rest(data, 0) == data;
  }

  lemma EncodeEnd(id: seq<byte>, data: seq<byte>, start: nat, chunks: seq<seq<byte>>)
    requires start >= |data|
    ensures Flatten(chunks) + Chunked(id, Rest(data, start)) == Flatten(chunks)
  {
    assert Chunked(id, []) == [];
  }

  method WriteAll(chunks: seq<seq<byte>>) returns (encoded: seq<byte>)
    ensures encoded == Flatten(chunks)
  {
    encoded := [];
    for i := 0 to |chunks|
      invariant encoded + Flatten(chunks[i..]) == Flatten(chunks)
    {
      assert chunks[i..][1..] == chunks[i + 1..];
      ConcatAssociates(encoded, chunks[i], Flatten(chunks[i + 1..]));
      encoded := encoded + chunks[i];
    }
  }

  function Rest(data: seq<byte>, start: nat): seq<byte> {
    if start < |data| then data[start..] else []
  }

  /** The bytes the source copies into the chunk that starts at `start`. */
  function Content(data: seq<byte>, start: nat): seq<byte>
    requires start < |data|
  {
    if start + CONTENT_SIZE > |data| then data[start..] else data[start..start + CONTENT_SIZE]
  }

  lemma EncodeStep(id: seq<byte>, data: seq<byte>, start: nat, chunks: seq<seq<byte>>)
    requires start < |data|
    ensures Flatten(chunks + [Chunk(id, |data| - start, Content(data, start))])
            + Chunked(id, Rest(data, start + CONTENT_SIZE))
            == Flatten(chunks) + Chunked(id, Rest(data, start))
  {
    var content := Content(data, start);
    var chunk := Chunk(id, |data| - start, content);
    var rest := data[start..];
    var n := Min(CONTENT_SIZE, |rest|);
    var tail := Rest(data, start + CONTENT_SIZE);
    assert rest[..n] == content;
    assert rest[n..] == tail;
    assert Chunked(id, rest) == chunk + Chunked(id, tail);
    FlattenAppend(chunks, [chunk]);
    assert Flatten([chunk]) == chunk;
    ConcatAssociates(Flatten(chunks), chunk, Chunked(id, tail));
  }

  lemma PartialChunk(i: nat, n: nat)
    requires i % CHUNK_SIZE == 0 && i < n < i + CHUNK_SIZE
    ensures n % CHUNK_SIZE != 0
  {
    var q := i / CHUNK_SIZE;
    assert n == CHUNK_SIZE * q + (n - i);
  }

  lemma NextChunk(i: nat)
    requires i % CHUNK_SIZE == 0
    ensures (i + CHUNK_SIZE) % CHUNK_SIZE == 0
  {
  }

  lemma BodiesStep(encoded: seq<byte>, i: nat, data: seq<byte>)
    requires i + CHUNK_SIZE <= |encoded|
    ensures data + Bodies(encoded[i..])
         == data + encoded[i + HEADER_SIZE..i + CHUNK_SIZE] + Bodies(encoded[i + CHUNK_SIZE..])
  {
    assert encoded[i..][HEADER_SIZE..CHUNK_SIZE] == encoded[i + HEADER_SIZE..i + CHUNK_SIZE];
    assert encoded[i..][CHUNK_SIZE..] == encoded[i + CHUNK_SIZE..];
    ConcatAssociates(data, encoded[i + HEADER_SIZE..i + CHUNK_SIZE], Bodies(encoded[i + CHUNK_SIZE..]));
  }

  lemma BodiesEnd(encoded: seq<byte>, data: seq<byte>)
    requires data + Bodies(encoded[|encoded|..]) == Bodies(encoded)
    ensures data == Bodies(encoded)
  {
    assert encoded[|encoded|..] == [] && Bodies([]) == [] && data + [] == data;
  }

  /** `Decode4K`. */
  method Decode4K(encoded: seq<byte>) returns (r: Outcome<(seq<byte>, seq<byte>)>)
    ensures r == Unchunk(encoded)
  {
    hide Bodies, ReadInt64, DecodeName;
    var data: seq<byte> := [];
    var i := 0;
    assert encoded[0..] == encoded && data + Bodies(encoded) == Bodies(encoded);
    while i < |encoded|
      invariant 0 <= i <= |encoded| && i % CHUNK_SIZE == 0
      invariant data + Bodies(encoded[i..]) == Bodies(encoded)
      decreases |encoded| - i
    {
      if i + CHUNK_SIZE > |encoded| {
        PartialChunk(i, |encoded|);
        assert Unchunk(encoded) == Crash;
        return Crash;
      }
      BodiesStep(encoded, i, data);
      NextChunk(i);
      data := data + encoded[i + HEADER_SIZE..i + CHUNK_SIZE];
      i := i + CHUNK_SIZE;
    }
    BodiesEnd(encoded, data);
    if |encoded| == 0 {
      return Crash;
    }
    var size := ReadInt64(encoded[BLOBID_SIZE..PLAIN_HEADER]);
    if size < 0 || size > |data| {
      return Crash;
    }
    r := Ok((DecodeName(encoded), data[..size]));
  }

  /** The log file of one triplet with its write position. `file` is the content on disk; a missing file
      is an empty one, since the first append creates it. */
  class BinHeader {
    const aligned: bool
    var file: seq<byte>
    var CurOff: int

    /** What every append keeps: the next offset handed out is the end of the file. */
    ghost predicate Valid()
      reads this
    {
      CurOff == |file|
    }

    /** `New` on whatever a crash left on disk, torn records included. */
    constructor (aligned: bool, onDisk: seq<byte>)
      ensures Valid() && file == onDisk && this.aligned == aligned
    {
      this.aligned := aligned;
      file := onDisk;
      CurOff := |onDisk|;
    }

    method Put(id: seq<byte>, data: seq<byte>) returns (offset: int, size: int)
      requires Valid() && |data| < TWO_63
      modifies this
      ensures Valid() && file == old(file) + Record(aligned, id, data)
      ensures offset == |old(file)| && size == PayloadSize(aligned, |data|)
      ensures |id| == 8 && (aligned ==> data != []) ==> ReadRecord(aligned, file, id, offset) == Ok(data)
      ensures forall i, o | ReadRecord(aligned, old(file), i, o).Ok? ::
                ReadRecord(aligned, file, i, o) == ReadRecord(aligned, old(file), i, o)
    {
      var encoded;
      if aligned {
        encoded := Encode4K(id, data);
      } else {
        encoded := EncodePlain(id, data);
      }
      ghost var before := file;
      offset, size := CurOff, |encoded|;
      file := file + encoded;
      CurOff := CurOff + size;
      RecordLength(aligned, id, data);
      assert file == before + encoded + [];
      ReadBack(aligned, before, id, data, []);
      forall i, o | ReadRecord(aligned, before, i, o).Ok?
        ensures ReadRecord(aligned, file, i, o) == ReadRecord(aligned, before, i, o)
      {
        ReadStable(aligned, before, i, o, encoded);
      }
    }

    method Get(id: seq<byte>, offset: int) returns (r: Outcome<seq<byte>>)
      ensures r == ReadRecord(aligned, file, id, offset)
    {
      if !aligned {
        return ReadPlain(file, id, offset);
      }
      if offset < 0 || offset + HEADER_SIZE > |file| {
        return Crash;
      }
      var idOnDisk := DecodeName(file[offset..offset + BLOBID_SIZE]);
      if idOnDisk != id {
        return Crash;
      }
      var dataSize := ReadInt64(file[offset + BLOBID_SIZE..offset + PLAIN_HEADER]);
      var total := ChunkCount(dataSize) * CHUNK_SIZE;
      if total < 0 || offset + total > |file| {
        return Crash;
      }
      var decoded := Decode4K(file[offset..offset + total]);
      match decoded {
        case Crash => r := Crash;
        case Ok((name, data)) => r := if name == idOnDisk then Ok(data) else Crash;
      }
    }
  }
}
