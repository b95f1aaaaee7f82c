/** Reading a file through its segments: piece by piece into a zeroed buffer, the pieces in any order. */
module FileReader {
  import opened Bytes
  import opened RangeList

  /** What the blob handler answers for a token: data, an error, or the end of the process. */
  datatype Answer = Data(data: seq<byte>) | Missing | Fatal

  datatype ReadResult = Read(bytes: seq<byte>) | Error | Panic

  type Store = string -> Answer

  /** `readPiece`: both bounds are compared with the length as an int32, then the data is sliced. */
  function ReadPiece(get: Store, token: string, start: int, end: int): ReadResult {
    match get(token)
    case Missing => Error
    case Fatal => Panic
    case Data(data) =>
      if start >= Wrap32(|data|) || end > Wrap32(|data|) then Error
      else if 0 <= start <= end <= |data| then Read(data[start..end])
      else Panic
  }

  /** The part of a segment that a read wants, as absolute positions. */
  function From(r: RangeCode, offset: int): int {
    Max(r.Start, offset)
  }

  function To(r: RangeCode, limit: int): int {
    if r.End < limit then r.End else limit
  }

  /** The segments that start a worker: from the first that does not end before the offset up to the first that starts
      at the limit or behind it. */
  function Wanted(segs: seq<RangeCode>, offset: int, limit: int): (ws: seq<RangeCode>)
    ensures forall w :: w in ws ==> w in segs
  {
    if segs == [] then []
    else if segs[0].End < offset then Wanted(segs[1..], offset, limit)
    else if segs[0].Start >= limit then []
    else [segs[0]] + Wanted(segs[1..], offset, limit)
  }

  function Piece(get: Store, r: RangeCode, offset: int, limit: int): ReadResult {
    ReadPiece(get, r.Token, From(r, offset) - r.Start, To(r, limit) - r.Start)
  }

  // ----- the file as a flat array -----

  /** The segments are in order and each one's data has the length of its range. */
  predicate WellFormed(segs: seq<RangeCode>, get: Store) {
    SortedDisjoint(segs) && forall i :: 0 <= i < |segs| ==> HasData(segs[i], get)
  }

  predicate HasData(r: RangeCode, get: Store) {
    Proper(r) && get(r.Token).Data? && |get(r.Token).data| == r.End - r.Start < TWO_31
  }

  /** The byte of the file at position `x`: from the segment that covers it, or zero. */
  function FlatByte(segs: seq<RangeCode>, get: Store, x: int): byte
    requires WellFormed(segs, get)
  {
    if segs == [] then 0
    else if Covers(segs[0], x) then get(segs[0].Token).data[x - segs[0].Start]
    else FlatByte(segs[1..], get, x)
  }

  /** The definition in words: a covering segment decides, whichever it is. */
  lemma {:induction false} FlatByteIs(segs: seq<RangeCode>, get: Store, x: int)
    requires WellFormed(segs, get)
    ensures forall i :: 0 <= i < |segs| && Covers(segs[i], x) ==>
              FlatByte(segs, get, x) == get(segs[i].Token).data[x - segs[i].Start]
    ensures !Covered(segs, x) ==> FlatByte(segs, get, x) == 0
  {
    if segs != [] {
      FlatByteIs(segs[1..], get, x);
      forall i | 0 <= i < |segs| && Covers(segs[i], x)
        ensures FlatByte(segs, get, x) == get(segs[i].Token).data[x - segs[i].Start]
      {
        if i > 0 {
          assert segs[0].End <= segs[i].Start;
          assert segs[1..][i - 1] == segs[i];
        }
      }
      forall i | 0 <= i < |segs| - 1 && Covers(segs[1..][i], x)
        ensures Covered(segs, x)
      {
        assert Covers(segs[i + 1], x);
      }
    }
  }

  // ----- when a read fails -----

  /** A segment that makes the read fail: it is wanted and has nothing at or behind the offset. */
  predicate Spoils(r: RangeCode, offset: int, limit: int) {
    r.Start < limit && offset <= r.End && (r.End == offset || r.Start == r.End)
  }

  lemma PieceOf(get: Store, r: RangeCode, offset: int, limit: int)
    requires HasData(r, get) && r.End >= offset && r.Start < limit && offset <= limit
    ensures Piece(get, r, offset, limit) ==
            if Spoils(r, offset, limit) then Error
            else Read(get(r.Token).data[From(r, offset) - r.Start..To(r, limit) - r.Start])
  {
    hide Wrap32;
    SmallLength(|get(r.Token).data|);
  }

  lemma SmallLength(n: nat)
    requires n < TWO_31
    ensures Wrap32(n) == n
  {
  }

  /** On a sorted list, what follows a segment begins where it ends or later. */
  lemma RestFollows(segs: seq<RangeCode>)
    requires SortedDisjoint(segs) && segs != []
    ensures SortedDisjoint(segs[1..]) && forall w :: w in segs[1..] ==> segs[0].End <= w.Start
    ensures forall w :: w in segs <==> w == segs[0] || w in segs[1..]
    ensures forall w :: w in segs ==> segs[0].Start <= w.Start
  {
    assert Proper(segs[0]);
  }

  lemma {:induction false} WantedAre(segs: seq<RangeCode>, offset: int, limit: int)
    requires SortedDisjoint(segs)
    ensures forall w :: w in Wanted(segs, offset, limit) <==> w in segs && w.End >= offset && w.Start < limit
    ensures SortedDisjoint(Wanted(segs, offset, limit))
  {
    hide SortedDisjoint;
    if segs != [] {
      RestFollows(segs);
      WantedAre(segs[1..], offset, limit);
      if segs[0].End >= offset && segs[0].Start < limit {
        PutInFront(segs, Wanted(segs[1..], offset, limit));
      } else if segs[0].End >= offset {
        SortedNone();
      }
    } else {
      SortedNone();
    }
  }

  lemma SortedNone()
    ensures SortedDisjoint([])
  {
  }

  lemma PutInFront(segs: seq<RangeCode>, ws: seq<RangeCode>)
    requires SortedDisjoint(segs) && segs != [] && SortedDisjoint(ws) && forall w :: w in ws ==> w in segs[1..]
    ensures SortedDisjoint([segs[0]] + ws)
  {
    RestFollows(segs);
    assert Proper(segs[0]);
    SortedOne(segs[0]);
    SortedConcat([segs[0]], ws);
  }

  // ----- the buffer -----

  function ByteAt(b: seq<byte>, offset: int, x: int): byte
    requires offset <= x < offset + |b|
  {
    b[x - offset]
  }

  predicate DoneCovers(ws: seq<RangeCode>, done: set<nat>, x: int) {
    exists j :: j in done && j < |ws| && Covers(ws[j], x)
  }

  /** The workers in `done` have filled what they cover, and nothing else is written. */
  ghost predicate Filled(b: seq<byte>, ws: seq<RangeCode>, done: set<nat>, get: Store, offset: int)
    requires WellFormed(ws, get)
  {
    && (forall x, j :: offset <= x < offset + |b| && j in done && j < |ws| && Covers(ws[j], x) ==>
          ByteAt(b, offset, x) == get(ws[j].Token).data[x - ws[j].Start])
    && (forall x :: offset <= x < offset + |b| && !DoneCovers(ws, done, x) ==> ByteAt(b, offset, x) == 0)
  }

  /** Two workers never write the same byte. */
  lemma OnlyOneCovers(ws: seq<RangeCode>, i: nat, j: nat, x: int)
    requires SortedDisjoint(ws) && i < |ws| && j < |ws| && Covers(ws[i], x) && Covers(ws[j], x)
    ensures i == j
  {
  }

  /** `c` is `b` with the bytes of the segment in the places it covers. */
  ghost predicate Wrote(b: seq<byte>, c: seq<byte>, w: RangeCode, get: Store, offset: int) {
    HasData(w, get) && |c| == |b|
    && forall x :: offset <= x < offset + |b| ==>
         ByteAt(c, offset, x) == if Covers(w, x) then get(w.Token).data[x - w.Start] else ByteAt(b, offset, x)
  }

  /** One more worker copies its piece, whichever ran before it. */
  lemma CopyFills(b: seq<byte>, c: seq<byte>, ws: seq<RangeCode>, done: set<nat>, get: Store, offset: int, k: nat)
    requires WellFormed(ws, get) && Filled(b, ws, done, get, offset) && k < |ws| && k !in done
    requires Wrote(b, c, ws[k], get, offset)
    ensures Filled(c, ws, done + {k}, get, offset)
  {
    hide ByteAt;
    var more := done + {k};
    forall x, j | offset <= x < offset + |b| && j in more && j < |ws| && Covers(ws[j], x)
      ensures ByteAt(c, offset, x) == get(ws[j].Token).data[x - ws[j].Start]
    {
      if Covers(ws[k], x) {
        OnlyOneCovers(ws, j, k, x);
      }
    }
    forall x | offset <= x < offset + |b| && !DoneCovers(ws, more, x)
      ensures ByteAt(c, offset, x) == 0
    {
      assert k in more;
      assert forall j :: j in done ==> j in more;
    }
  }

  lemma StartsBehind(segs: seq<RangeCode>, limit: int, x: int)
    requires SortedDisjoint(segs) && segs != [] && segs[0].Start >= limit > x
    ensures !Covered(segs, x)
  {
    forall i | 0 <= i < |segs|
      ensures !Covers(segs[i], x)
    {
      assert Proper(segs[0]);
      assert i > 0 ==> segs[0].End <= segs[i].Start;
    }
  }

  /** The segments that start no worker do not matter for what is read. */
  lemma {:induction false} WantedFlat(segs: seq<RangeCode>, get: Store, offset: int, limit: int, x: int)
    requires WellFormed(segs, get) && WellFormed(Wanted(segs, offset, limit), get) && offset <= x < limit
    ensures FlatByte(Wanted(segs, offset, limit), get, x) == FlatByte(segs, get, x)
  {
    if segs != [] {
      WantedWellFormed(segs[1..], get, offset, limit);
      WantedFlat(segs[1..], get, offset, limit, x);
      if segs[0].End >= offset && segs[0].Start >= limit {
        StartsBehind(segs, limit, x);
        FlatByteIs(segs, get, x);
      } else if segs[0].End >= offset {
        assert Wanted(segs, offset, limit)[1..] == Wanted(segs[1..], offset, limit);
      }
    }
  }

  /** When all have run, the buffer is the file. */
  lemma FilledIsFlat(b: seq<byte>, ws: seq<RangeCode>, done: set<nat>, get: Store, offset: int)
    requires WellFormed(ws, get) && Filled(b, ws, done, get, offset) && forall j :: 0 <= j < |ws| ==> j in done
    ensures forall x :: offset <= x < offset + |b| ==> ByteAt(b, offset, x) == FlatByte(ws, get, x)
  {
    hide ByteAt, FlatByte;
    forall x | offset <= x < offset + |b|
      ensures ByteAt(b, offset, x) == FlatByte(ws, get, x)
    {
      FlatByteIs(ws, get, x);
      if DoneCovers(ws, done, x) {
        var j :| j in done && j < |ws| && Covers(ws[j], x);
        assert ByteAt(b, offset, x) == get(ws[j].Token).data[x - ws[j].Start];
      } else {
        assert !Covered(ws, x);
      }
    }
  }

  lemma WantedWellFormed(segs: seq<RangeCode>, get: Store, offset: int, limit: int)
    requires WellFormed(segs, get)
    ensures WellFormed(Wanted(segs, offset, limit), get)
  {
    WantedAre(segs, offset, limit);
  }

  // ----- ReadAt -----

  /** The loop that starts the workers. */
  method Dispatch(bms: seq<RangeCode>, offset: int, limit: int) returns (workers: seq<RangeCode>)
    ensures workers == Wanted(bms, offset, limit)
  {
    workers := [];
    var i := 0;
    while i < |bms|
      invariant 0 <= i <= |bms|
      invariant workers + Wanted(bms[i..], offset, limit) == Wanted(bms, offset, limit)
    {
      assert bms[i..][1..] == bms[i + 1..];
      if bms[i].End < offset {
        i := i + 1;
        continue;
      }
      if bms[i].Start >= limit {
        break;
      }
      workers := workers + [bms[i]];
      i := i + 1;
    }
  }

  /** One worker: fetches its piece and copies it to its place. `ok` is false when it reports an error; `dead` when
      it brings the process down. */
  method RunWorker(allBytes: array<byte>, w: RangeCode, get: Store, offset: int, limit: int)
      returns (ok: bool, dead: bool)
    modifies allBytes
    ensures InRange(w, get, offset, limit, allBytes.Length) ==> !dead && ok == !Spoils(w, offset, limit)
    ensures InRange(w, get, offset, limit, allBytes.Length) ==> Wrote(old(allBytes[..]), allBytes[..], w, get, offset)
    ensures get(w.Token) == Missing ==> !ok && !dead
  {
    hide Wrap32;
    if InRange(w, get, offset, limit, allBytes.Length) {
      PieceOf(get, w, offset, limit);
    }
    match Piece(get, w, offset, limit)
    case Panic =>
      return false, true;
    case Error =>
      return false, false;
    case Read(piece) =>
      var a, e := From(w, offset) - offset, To(w, limit) - offset;
      if !(0 <= a <= e <= allBytes.Length) {
        return false, true;
      }
      forall i | 0 <= i < |piece| && i < e - a {
        allBytes[a + i] := piece[i];
      }
      ok, dead := true, false;
  }

  /** A segment that starts a worker of a read inside the int32 range. */
  predicate InRange(w: RangeCode, get: Store, offset: int, limit: int, size: nat) {
    HasData(w, get) && w.End >= offset && w.Start < limit && limit == offset + size
  }

  /** A read whose positions are int32 values, on a file in order. */
  predicate Readable(bms: seq<RangeCode>, get: Store, offset: int, size: int) {
    WellFormed(bms, get) && 0 <= size && -0x8000_0000 <= offset + size < 0x8000_0000
  }

  predicate Spoiled(bms: seq<RangeCode>, offset: int, limit: int) {
    exists i :: 0 <= i < |bms| && Spoils(bms[i], offset, limit)
  }

  /** What holds between two workers: those in `done` have run. */
  ghost predicate Progress(b: seq<byte>, ws: seq<RangeCode>, done: set<nat>, get: Store, offset: int, tmpErr: bool) {
    && WellFormed(ws, get) && Filled(b, ws, done, get, offset)
    && (tmpErr <==> exists j :: j in done && j < |ws| && Spoils(ws[j], offset, offset + |b|))
  }

  lemma NoProgress(b: seq<byte>, ws: seq<RangeCode>, get: Store, offset: int)
    requires WellFormed(ws, get) && forall i :: 0 <= i < |b| ==> b[i] == 0
    ensures Progress(b, ws, {}, get, offset, false)
  {
  }

  lemma ProgressOne(
      b: seq<byte>, c: seq<byte>, ws: seq<RangeCode>, done: set<nat>, get: Store, offset: int, tmpErr: bool, k: nat,
      ok: bool)
    requires Progress(b, ws, done, get, offset, tmpErr) && k < |ws| && k !in done
    requires ok == !Spoils(ws[k], offset, offset + |b|) && Wrote(b, c, ws[k], get, offset)
    ensures Progress(c, ws, done + {k}, get, offset, tmpErr || !ok)
  {
    hide Filled, WellFormed, Spoils;
    CopyFills(b, c, ws, done, get, offset, k);
    assert k in done + {k};
    assert forall j :: j in done ==> j in done + {k};
  }

  /** All workers have run: the error flag tells whether some segment spoils the read, and if none does the buffer is
      the file. */
  lemma ProgressAll(b: seq<byte>, bms: seq<RangeCode>, done: set<nat>, get: Store, offset: int, tmpErr: bool)
    requires WellFormed(bms, get)
    requires var ws := Wanted(bms, offset, offset + |b|);
             Progress(b, ws, done, get, offset, tmpErr) && forall j :: 0 <= j < |ws| ==> j in done
    ensures tmpErr <==> Spoiled(bms, offset, offset + |b|)
    ensures forall x :: offset <= x < offset + |b| ==> ByteAt(b, offset, x) == FlatByte(bms, get, x)
  {
    hide Filled, Wanted, ByteAt, FlatByte, HasData;
    var limit := offset + |b|;
    var ws := Wanted(bms, offset, limit);
    FilledIsFlat(b, ws, done, get, offset);
    forall x | offset <= x < limit
      ensures ByteAt(b, offset, x) == FlatByte(bms, get, x)
    {
      WantedFlat(bms, get, offset, limit, x);
    }
    WantedSpoil(bms, offset, limit);
  }

  lemma WantedSpoil(bms: seq<RangeCode>, offset: int, limit: int)
    requires SortedDisjoint(bms)
    ensures Spoiled(bms, offset, limit) <==> Spoiled(Wanted(bms, offset, limit), offset, limit)
  {
    hide Wanted, SortedDisjoint;
    WantedAre(bms, offset, limit);
    var ws := Wanted(bms, offset, limit);
    if Spoiled(bms, offset, limit) {
      var i :| 0 <= i < |bms| && Spoils(bms[i], offset, limit);
      assert bms[i] in ws;
    }
    if Spoiled(ws, offset, limit) {
      var j :| 0 <= j < |ws| && Spoils(ws[j], offset, limit);
      assert ws[j] in bms;
    }
  }

  /** With no empty segment, a read fails exactly when some segment ends at its offset. */
  lemma FailsAtBoundary(bms: seq<RangeCode>, offset: int, size: nat)
    requires forall i :: 0 <= i < |bms| ==> bms[i].Start < bms[i].End
    ensures Spoiled(bms, offset, offset + size) <==> exists i :: 0 <= i < |bms| && bms[i].End == offset
  {
    if Spoiled(bms, offset, offset + size) {
      var i :| 0 <= i < |bms| && Spoils(bms[i], offset, offset + size);
      assert bms[i].End == offset;
    }
    forall i | 0 <= i < |bms| && bms[i].End == offset
      ensures Spoiled(bms, offset, offset + size)
    {
      assert Spoils(bms[i], offset, offset + size);
    }
  }

  function Indices(n: nat): (ks: set<nat>)
    ensures forall k: int :: k in ks <==> 0 <= k < n
  {
    if n == 0 then {} else Indices(n - 1) + {n - 1}
  }

  /** The segments are in order, and each one's blob has the length of its range or is missing. */
  predicate Damaged(segs: seq<RangeCode>, get: Store) {
    SortedDisjoint(segs) && forall i :: 0 <= i < |segs| ==> HasData(segs[i], get) || get(segs[i].Token) == Missing
  }

  predicate Fails(w: RangeCode, get: Store, offset: int, limit: int) {
    get(w.Token) == Missing || Spoils(w, offset, limit)
  }

  predicate InRangeOrMissing(w: RangeCode, get: Store, offset: int, limit: int, size: nat) {
    get(w.Token) == Missing || InRange(w, get, offset, limit, size)
  }

  /** Some worker among those in `done` has failed. */
  predicate FailedOne(ws: seq<RangeCode>, get: Store, done: set<nat>, offset: int, limit: int) {
    exists j :: j in done && j < |ws| && Fails(ws[j], get, offset, limit)
  }

  lemma FailedNext(
      ws: seq<RangeCode>, get: Store, done: set<nat>, offset: int, limit: int, size: nat, k: nat, ok: bool,
      tmpErr: bool, dead: bool)
    requires k < |ws| && InRangeOrMissing(ws[k], get, offset, limit, size)
    requires InRange(ws[k], get, offset, limit, size) ==> !dead && ok == !Spoils(ws[k], offset, limit)
    requires get(ws[k].Token) == Missing ==> !ok && !dead
    requires tmpErr <==> FailedOne(ws, get, done, offset, limit)
    ensures !dead && ((tmpErr || !ok) <==> FailedOne(ws, get, done + {k}, offset, limit))
  {
    hide Spoils;
    assert k in done + {k};
    assert forall j :: j in done ==> j in done + {k};
  }

  lemma WantedDamaged(bms: seq<RangeCode>, get: Store, offset: int, limit: int, size: nat)
    requires Damaged(bms, get) && limit == offset + size
    ensures AllInRangeOrMissing(Wanted(bms, offset, limit), get, offset, limit, size)
  {
    hide Wanted, HasData;
    WantedAre(bms, offset, limit);
  }

  /** When all workers have run, a failure is that of a segment that the read wants. */
  lemma FailedAll(bms: seq<RangeCode>, get: Store, done: set<nat>, offset: int, limit: int)
    requires Damaged(bms, get)
    requires forall j :: 0 <= j < |Wanted(bms, offset, limit)| ==> j in done
    ensures FailedOne(Wanted(bms, offset, limit), get, done, offset, limit)
            <==> exists w :: w in bms && w.End >= offset && w.Start < limit && Fails(w, get, offset, limit)
  {
    hide Wanted, Fails;
    WantedAre(bms, offset, limit);
    var ws := Wanted(bms, offset, limit);
    forall w | w in bms && w.End >= offset && w.Start < limit && Fails(w, get, offset, limit)
      ensures FailedOne(ws, get, done, offset, limit)
    {
      var j :| 0 <= j < |ws| && ws[j] == w;
      assert j in done;
    }
  }

  /** All workers, one after the other in any order. */
  method RunWorkers(allBytes: array<byte>, workers: seq<RangeCode>, get: Store, offset: int, limit: int)
      returns (tmpErr: bool, dead: bool)
    requires forall i :: 0 <= i < allBytes.Length ==> allBytes[i] == 0
    modifies allBytes
    ensures WellFormed(workers, get) && AllInRange(workers, get, offset, limit, allBytes.Length) ==>
              !dead && Progress(allBytes[..], workers, Indices(|workers|), get, offset, tmpErr)
    ensures AllInRangeOrMissing(workers, get, offset, limit, allBytes.Length) ==>
              !dead && (tmpErr <==> FailedOne(workers, get, Indices(|workers|), offset, limit))
  {
    hide WellFormed, Progress, Spoils, InRange, Wrote, FailedOne, Indices, Fails;
    tmpErr, dead := false, false;
    var all := Indices(|workers|);
    IndicesAre(|workers|);
    var pending := all;
    ghost var good := WellFormed(workers, get) && AllInRange(workers, get, offset, limit, allBytes.Length);
    ghost var fair := AllInRangeOrMissing(workers, get, offset, limit, allBytes.Length);
    if good {
      NoProgress(allBytes[..], workers, get, offset);
    }
    NoneFailed(workers, get, offset, limit);
    assert all - pending == {};
    while pending != {}
      invariant pending <= all
      invariant good ==> Progress(allBytes[..], workers, all - pending, get, offset, tmpErr)
      invariant fair ==> (tmpErr <==> FailedOne(workers, get, all - pending, offset, limit))
      decreases |pending|
    {
      var k :| k in pending;
      ghost var was, done := allBytes[..], all - pending;
      pending := pending - {k};
      assert all - pending == done + {k};
      var ok;
      ok, dead := RunWorker(allBytes, workers[k], get, offset, limit);
      if fair {
        FailedNext(workers, get, done, offset, limit, allBytes.Length, k, ok, tmpErr, dead);
      }
      if dead {
        return;
      }
      if good {
        ProgressOne(was, allBytes[..], workers, done, get, offset, tmpErr, k, ok);
      }
      tmpErr := tmpErr || !ok;
    }
    assert all - pending == all;
  }

  predicate AllInRange(ws: seq<RangeCode>, get: Store, offset: int, limit: int, size: nat) {
    limit == offset + size && forall k :: 0 <= k < |ws| ==> InRange(ws[k], get, offset, limit, size)
  }

  predicate AllInRangeOrMissing(ws: seq<RangeCode>, get: Store, offset: int, limit: int, size: nat) {
    limit == offset + size && forall k :: 0 <= k < |ws| ==> InRangeOrMissing(ws[k], get, offset, limit, size)
  }

  lemma IndicesAre(n: nat)
    ensures forall k: int :: k in Indices(n) <==> 0 <= k < n
  {
  }

  lemma NoneFailed(ws: seq<RangeCode>, get: Store, offset: int, limit: int)
    ensures !FailedOne(ws, get, {}, offset, limit)
  {
  }

  /** `ReadAt`: the workers run in any order. The read fails exactly when some segment spoils it, such as one that ends
      at the offset, or when a blob it wants is missing; otherwise it returns the bytes of the file. */
  method ReadAt(bms: seq<RangeCode>, get: Store, offset: int, size: int) returns (r: ReadResult)
    ensures size < 0 ==> r == Panic
    ensures Readable(bms, get, offset, size) ==>
              if Spoiled(bms, offset, offset + size) then r == Error
              else
                && r.Read? && |r.bytes| == size
                && forall x :: offset <= x < offset + size ==> ByteAt(r.bytes, offset, x) == FlatByte(bms, get, x)
    ensures Damaged(bms, get) && 0 <= size && -0x8000_0000 <= offset + size < 0x8000_0000 ==>
              && r != Panic
              && (r == Error <==> exists w :: w in bms && w.End >= offset && w.Start < offset + size
                                              && Fails(w, get, offset, offset + size))
  {
    hide Wrap32, Wanted, WellFormed, Spoiled, Progress, ByteAt, FlatByte, Damaged, FailedOne, Fails, Indices,
      AllInRange, AllInRangeOrMissing;
    if size < 0 {
      return Panic;
    }
    var limit := Wrap32(offset + size);
    var workers := Dispatch(bms, offset, limit);
    var allBytes := new byte[size](_ => 0);
    IndicesAre(|workers|);
    ghost var good := Readable(bms, get, offset, size);
    ghost var fair := Damaged(bms, get) && -0x8000_0000 <= offset + size < 0x8000_0000;
    if good {
      SmallSum(offset + size);
      WantedWellFormed(bms, get, offset, limit);
      WantedInRange(bms, get, offset, limit, size);
    }
    if fair {
      SmallSum(offset + size);
      WantedDamaged(bms, get, offset, limit, size);
    }
    var tmpErr, dead := RunWorkers(allBytes, workers, get, offset, limit);
    if good {
      ProgressAll(allBytes[..], bms, Indices(|workers|), get, offset, tmpErr);
    }
    if fair {
      FailedAll(bms, get, Indices(|workers|), offset, limit);
    }
    if dead {
      return Panic;
    }
    r := if tmpErr then Error else Read(allBytes[..]);
  }

  lemma SmallSum(x: int)
    requires -TWO_31 <= x < TWO_31
    ensures Wrap32(x) == x
  {
  }

  lemma WantedInRange(bms: seq<RangeCode>, get: Store, offset: int, limit: int, size: nat)
    requires WellFormed(bms, get) && limit == offset + size
    ensures AllInRange(Wanted(bms, offset, limit), get, offset, limit, size)
  {
    hide Wanted, HasData;
    WantedAre(bms, offset, limit);
    WantedWellFormed(bms, get, offset, limit);
  }

  // ----- ReadFromCache -----

  function Zeros(n: nat): (b: seq<byte>)
    ensures |b| == n && forall i :: 0 <= i < n ==> b[i] == 0
  {
    if n == 0 then [] else Zeros(n - 1) + [0]
  }

  function Copied(b: seq<byte>, at: nat, piece: seq<byte>): (c: seq<byte>)
    requires at + |piece| <= |b|
    ensures |c| == |b|
    ensures forall i :: 0 <= i < |b| ==> c[i] == if at <= i < at + |piece| then piece[i - at] else b[i]
  {
    b[..at] + piece + b[at + |piece|..]
  }

  /** A read through the single range of a cached file; an index out of range only logs a warning. */
  function ReadFromCache(codes: seq<RangeCode>, get: Store, offset: int, size: int): ReadResult {
    if codes == [] || size < 0 then Panic
    else
      var r := codes[0];
      var limit := Wrap32(offset + size);
      match Piece(get, r, offset, limit)
      case Error => Error
      case Panic => Panic
      case Read(piece) =>
        var a, e := From(r, offset) - offset, To(r, limit) - offset;
        if 0 <= a <= e <= size then
          Read(Copied(Zeros(size), a, if |piece| <= e - a then piece else piece[..e - a]))
        else Panic
  }

  /** A whole cached file whose blob is missing or shorter than its range is an error; only an answer that stops the
      process does. */
  lemma FailedRead(token: string, n: nat, get: Store)
    requires n < 0x8000_0000
    ensures var r := ReadFromCache([RangeCode(0, n, token)], get, 0, n);
            && (r == Panic <==> get(token) == Fatal)
            && (get(token) == Missing ==> r == Error)
            && (get(token).Data? && |get(token).data| < 0x8000_0000 ==>
                  r == if 0 < |get(token).data| && n <= |get(token).data| then Read(get(token).data[..n]) else Error)
  {
    hide Wrap32;
    SmallSum(n);
    if get(token).Data? {
      WrapBelow(|get(token).data|);
      if |get(token).data| < 0x8000_0000 {
        SmallLength(|get(token).data|);
      }
      if |get(token).data| < 0x8000_0000 && 0 < |get(token).data| && n <= |get(token).data| {
        assert get(token).data[0..n] == get(token).data[..n];
      }
    }
  }

  lemma WrapBelow(n: nat)
    ensures Wrap32(n) <= n
  {
  }

  /** The row a commit writes: the whole blob, its length cut to an int32. */
  function CommittedRange(token: string, data: seq<byte>): RangeCode {
    RangeCode(0, Wrap32(|data|), token)
  }

  /** Inside the blob a cached read is exact and zero behind its end; from the end on it is an error. */
  lemma CachedRead(token: string, data: seq<byte>, get: Store, offset: int, size: int)
    requires get(token) == Data(data) && 0 < |data| < 0x8000_0000
    requires 0 <= offset && 0 <= size && offset + size < 0x8000_0000
    ensures var r := ReadFromCache([CommittedRange(token, data)], get, offset, size);
            if offset >= |data| then r == Error
            else
              && r.Read? && |r.bytes| == size
              && forall i :: 0 <= i < size ==> r.bytes[i] == if offset + i < |data| then data[offset + i] else 0
  {
    hide Wrap32, Piece;
    SmallLength(|data|);
    SmallSum(offset + size);
    CachedPiece(token, data, get, offset, offset + size);
    if offset < |data| {
      var end := Min(|data|, offset + size);
      SliceAt(data, offset, end);
      assert To(CommittedRange(token, data), offset + size) == end;
    }
  }

  lemma CachedPiece(token: string, data: seq<byte>, get: Store, offset: nat, limit: nat)
    requires get(token) == Data(data) && 0 < |data| < 0x8000_0000 && offset <= limit
    ensures Piece(get, RangeCode(0, |data|, token), offset, limit) ==
            if offset >= |data| then Error else Read(data[offset..Min(|data|, limit)])
  {
    hide Wrap32;
    SmallLength(|data|);
  }

  lemma SliceAt(data: seq<byte>, a: nat, b: nat)
    requires a <= b <= |data|
    ensures |data[a..b]| == b - a && forall i :: 0 <= i < b - a ==> data[a..b][i] == data[a + i]
  {
  }

  /** An empty file reads back, as no bytes at all, exactly when its token yields some bytes that are not its own. */
  lemma EmptyRead(token: string, get: Store)
    ensures ReadFromCache([CommittedRange(token, [])], get, 0, 0) == Read([])
            <==> get(token).Data? && Wrap32(|get(token).data|) > 0
  {
    hide Wrap32;
    SmallLength(0);
  }

  /** Reading a committed blob as a whole gives its bytes exactly when it is not empty and its length is an int32. */
  lemma WholeRead(token: string, data: seq<byte>, get: Store)
    requires get(token) == Data(data)
    ensures ReadFromCache([CommittedRange(token, data)], get, 0, Wrap32(|data|)) == Read(data)
            <==> 0 < |data| < 0x8000_0000
  {
    if 0 < |data| < TWO_31 {
      CachedRead(token, data, get, 0, |data|);
      var r := ReadFromCache([CommittedRange(token, data)], get, 0, |data|);
      assert r.bytes == data;
    }
  }
}
