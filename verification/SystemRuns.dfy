/** The invariants together: they hold in every state that any interleaving of workers, swaps, evictions, readers,
    crashes and restarts reaches, and what they say about space, reading, the swap and restarts. */
module SystemRuns {
  import opened Bytes
  import opened BlobBinary
  import opened BlobIndex
  import opened BlobManifest
  import opened Tokens
  import opened CacheSystem
  import opened SystemShape
  import opened SystemBudget
  import opened SystemStore
  import opened SystemSwap
  import opened SystemRows
  import MapSum

  ghost predicate Inv(c: Config, s: State) {
    Shape(c, s) && Budget(c, s) && Store(c, s) && Served(s) && NoDangling(s) && OpenCount(s) >= 1
  }

  lemma InitInv(c: Config, first: string)
    requires c.maxBytes >= 0 && GoodId(first)
    ensures Inv(c, Init(first))
  {
    hide Shape, Budget, Store, Served, NoDangling, GoodId;
    InitShape(c, first);
    InitBudget(c, first);
    InitStore(c, first);
    InitServed(first);
    InitRows(first);
  }

  lemma StepKeepsInv(c: Config, s: State, a: Action)
    requires Inv(c, s) && Step(c, s, a).Some?
    ensures Inv(c, Step(c, s, a).value)
  {
    hide Shape, Budget, Blobs, Refs, JobsStored, Served, NoDangling, OpenCount, StepJob, StepSwap, DoRestart, GoodId;
    OwnersLive(c, s);
    StepKeepsShape(c, s, a);
    StepKeepsBudget(c, s, a);
    StepKeepsStore(c, s, a);
    StepKeepsServed(c, s, a);
    StepKeepsRows(c, s, a);
    if a.Restart? {
      RestartCount(c, s, a.new_);
    } else {
      StepKeepsCount(c, s, a);
    }
  }

  lemma {:induction false} RunInv(c: Config, first: string, acts: seq<Action>)
    requires c.maxBytes >= 0 && GoodId(first) && After(c, first, acts).Some?
    ensures Inv(c, After(c, first, acts).value)
  {
    hide Inv, Step, GoodId;
    if acts == [] {
      InitInv(c, first);
    } else {
      RunInv(c, first, acts[..|acts| - 1]);
      StepKeepsInv(c, After(c, first, acts[..|acts| - 1]).value, acts[|acts| - 1]);
    }
  }

  // ----- space -----

  /** The disk budget, over every run. A passed size test takes up all earlier opens. */
  lemma BudgetHolds(c: Config, first: string, acts: seq<Action>)
    requires c.maxBytes >= 0 && GoodId(first) && After(c, first, acts).Some?
    ensures var s := After(c, first, acts).value;
            Disk(s.tri) <= c.maxBytes + 8 * s.unchecked
  {
    hide Shape, Budget, Store, Served, NoDangling, OpenCount, GoodId, After;
    RunInv(c, first, acts);
    DiskBounded(c, After(c, first, acts).value);
  }

  /** What the budget counts: a test that passes leaves room for the whole request within the maximum, but for an open
      that a swap has not yet added to the total. */
  lemma CheckFits(c: Config, s: State, p: nat, fid: string, id: string, data: seq<byte>)
    requires Inv(c, s) && Step(c, s, Check(p, fid, id, data)).Some?
    ensures var r := Step(c, s, Check(p, fid, id, data)).value;
            && Disk(r.tri) + (if c.aligned then 4096 * ((|data| + 3927) / 3928) + 466 else |data| + 602)
               <= c.maxBytes + 8 * r.unchecked
            && r.unchecked == if s.swap.owed then 1 else 0
  {
    hide Shape, Store, Served, NoDangling, OpenCount, GoodId, Bounded, Balanced;
    StepKeepsInv(c, s, Check(p, fid, id, data));
    ChecksBounded(c, s);
    var r := Step(c, s, Check(p, fid, id, data)).value;
    ChecksBounded(c, r);
    ClaimInClaims(c, r.jobs, p);
  }

  lemma ChecksBounded(c: Config, s: State)
    requires Inv(c, s)
    ensures Bounded(c, s.jobs)
  {
    hide Shape, Store, Served, NoDangling, OpenCount, Bounded, Balanced;
  }

  /** And only an open, by a swap or a start, makes it one more. */
  lemma OnlyOpensCount(c: Config, s: State, a: Action)
    requires Step(c, s, a).Some?
    ensures var n := Step(c, s, a).value.unchecked;
            if a.Check? then n <= 1 else n <= s.unchecked + (if a.SwapOpen? || a.Restart? then 1 else 0)
  {
    hide GoodId, RowOk, BinPut, IdxPut, MfPut, Payload, RecordFor, Printable, JobEntry, JobToken, MaxAlloc,
      NewTriplet, IsLarge, Reload, DiskSize, Locked, CanAppend, CanIndex, CanManifest, CanEvict, InState, Careful;
  }

  /** Nothing is being written, swapped or purged; a `Put` that has returned need not be committed. */
  predicate Quiet(s: State) {
    !s.swap.owed && s.debts == [] && forall p :: p in s.jobs ==> s.jobs[p].pc == Returned
  }

  /** Conservation, over every run. */
  lemma TotalConserved(c: Config, first: string, acts: seq<Action>)
    requires c.maxBytes >= 0 && GoodId(first) && After(c, first, acts).Some? && Quiet(After(c, first, acts).value)
    ensures After(c, first, acts).value.total == Disk(After(c, first, acts).value.tri)
  {
    hide Shape, Budget, Store, Served, NoDangling, OpenCount, GoodId, After;
    RunInv(c, first, acts);
    QuietTotal(c, After(c, first, acts).value);
  }

  // ----- reading -----

  lemma Stored(c: Config, t: Triplet, id: string, data: seq<byte>)
    requires StoredIn(c, t, id, data) && |id| == 8
    ensures GetIn(c, t, id) == Data(data) <==> (c.aligned ==> data != [])
  {
    hide Record, ReadRecord;
    var off := t.refs[id].Offset;
    var rec := RecordFor(c, id, data);
    assert rec == Record(c.aligned, AsciiBytes(id), data) && |t.bin[..off]| == off;
    assert t.bin == t.bin[..off] + rec + t.bin[off + |rec|..];
    ReadBack(c.aligned, t.bin[..off], AsciiBytes(id), data, t.bin[off + |rec|..]);
  }

  /** `Get` strips the prefix and finds both ids again, in the family `Put` chose. */
  lemma GetRoutes(c: Config, s: State, large: bool, tid: string, id: string)
    requires GoodId(tid) && GoodId(id)
    ensures Get(c, s, PutToken(large, tid, id)) ==
            if (if large then tid in s.large else tid in s.open + s.closed) && tid in s.tri
            then GetIn(c, s.tri[tid], id) else NoTriplet
  {
    hide GetTripletIdFromToken, GetBlobIdFromToken, GetIn, IsId;
    LargePrefix(large, tid, id);
    TripletIdComesBack(large, tid, id);
    BlobIdComesBack(large, tid, id);
    TripletIdComesBack(false, tid, id);
    BlobIdComesBack(false, tid, id);
    var token := PutToken(large, tid, id);
    var bare := if large then token[4..] else token;
    assert bare == PutToken(false, tid, id) && |tid| == 8;
    assert GetTripletIdFromToken(bare) == Some(tid) && GetBlobIdFromToken(bare) == Some(id);
  }

  /** A stored blob reads back exactly, unless it is the empty blob in 4K mode. */
  lemma ReadsExactly(c: Config, s: State, k: (string, string))
    requires Inv(c, s) && k in s.blobs
    ensures Get(c, s, PutToken(k.0 in s.large, k.0, k.1)) == Data(s.blobs[k]) <==> (c.aligned ==> s.blobs[k] != [])
  {
    hide Budget, NoDangling, OpenCount, TripletOk, Jobs, Swapping, Refs, JobStored, StoredIn, GetIn, Get, PutToken,
      IsId;
    GetRoutes(c, s, k.0 in s.large, k.0, k.1);
    Stored(c, s.tri[k.0], k.1, s.blobs[k]);
    assert Listed(s, k.0);
  }

  /** When `Put` returns its token, the token reads back the data that was put. */
  lemma PutReadsBack(c: Config, s: State, p: nat)
    requires Inv(c, s) && At(s, p, Returned)
    ensures Get(c, s, JobToken(c, s.jobs[p])) == Data(s.jobs[p].data) <==> (c.aligned ==> s.jobs[p].data != [])
  {
    hide Budget, NoDangling, OpenCount, Files, Dicts, Swapping, Refs, Blobs, Get, PutToken, Served, GoodId, IsLarge;
    var j := s.jobs[p];
    assert JobOk(c, s, j) && JobStored(c, s, j);
    ReadsExactly(c, s, (j.tid, j.blobId));
  }

  /** The triplet and blob that a row names. */
  function RowKey(row: Row): (string, string) {
    (row.owners, match GetBlobIdFromToken(row.token) case Some(id) => id case None => "")
  }

  /** A ready row names a stored blob of the size it records, in the triplet that its token names, and its token reads
      that blob. */
  lemma ReadyRowReads(c: Config, s: State, f: string)
    requires Inv(c, s) && f in s.rows && s.rows[f].ready
    ensures var row := s.rows[f];
            && RowKey(row) in s.blobs && row.owners in s.tri && row.size == Wrap32(|s.blobs[RowKey(row)]|)
            && GetTripletIdFromToken(row.token) == Some(row.owners)
            && (Get(c, s, row.token) == Data(s.blobs[RowKey(row)]) <==> (c.aligned ==> s.blobs[RowKey(row)] != []))
  {
    hide Budget, OpenCount, TripletOk, Jobs, Dicts, Swapping, Refs, JobsStored, Get, PutToken, Served, StoredIn,
      GetTripletIdFromToken,
      GetBlobIdFromToken;
    var row := s.rows[f];
    TripletIdComesBack(row.owners in s.large, row.owners, RowKey(row).1);
    ReadsExactly(c, s, RowKey(row));
  }

  /** Rows go before files: when the files of a triplet are deleted, no row names it. */
  lemma RowsGoFirst(c: Config, s: State, tid: string, f: string)
    requires Inv(c, s) && Step(c, s, Purge(tid)).Some? && f in s.rows
    ensures s.rows[f].owners != tid
    ensures s.rows[f].ready ==> GetTripletIdFromToken(s.rows[f].token) != Some(tid)
  {
    hide Budget, OpenCount, Shape, Served, Store, GetTripletIdFromToken;
    if s.rows[f].ready {
      ReadyRowReads(c, s, f);
    }
  }

  // ----- readers and the swap -----

  /** A reader that finds a triplet in neither dictionary is looking for one that is being purged. */
  lemma NoSpuriousMiss(c: Config, first: string, acts: seq<Action>, n: nat)
    requires c.maxBytes >= 0 && GoodId(first) && After(c, first, acts).Some?
    requires var s := After(c, first, acts).value; n in s.readers && s.readers[n].NotFound?
    ensures var s := After(c, first, acts).value; s.readers[n].tid in s.evicted
  {
    hide Shape, Budget, Store, NoDangling, OpenCount, GoodId, After;
    RunInv(c, first, acts);
  }

  /** Some triplet is open, and one of them is not queued for purging. */
  lemma AlwaysOpen(c: Config, first: string, acts: seq<Action>)
    requires c.maxBytes >= 0 && GoodId(first) && After(c, first, acts).Some?
    ensures After(c, first, acts).value.open - After(c, first, acts).value.evicted != {}
  {
    hide Budget, Store, NoDangling, Served, Files, Dicts, Jobs, Swapping, OpenCount, GoodId, After;
    RunInv(c, first, acts);
    FreeOpen(After(c, first, acts).value);
  }

  predicate NoRestart(acts: seq<Action>) {
    forall i :: 0 <= i < |acts| ==> !acts[i].Restart?
  }

  lemma {:induction false} CountOverRun(c: Config, first: string, acts: seq<Action>, more: seq<Action>)
    requires c.maxBytes >= 0 && GoodId(first) && After(c, first, acts).Some? && After(c, first, acts + more).Some?
    requires NoRestart(more)
    ensures OpenCount(After(c, first, acts + more).value) == OpenCount(After(c, first, acts).value)
    decreases |more|
  {
    hide Step, GoodId, Shape, Budget, Store, Served, NoDangling, OpenCount;
    if more == [] {
      assert acts + more == acts;
    } else {
      var n := |more| - 1;
      assert (acts + more)[..|acts + more| - 1] == acts + more[..n];
      CountOverRun(c, first, acts, more[..n]);
      RunInv(c, first, acts + more[..n]);
      StepKeepsCount(c, After(c, first, acts + more[..n]).value, more[n]);
    }
  }

  /** Between two moments when the swap loop is scanning, any number of complete swaps leaves as many open triplets
      as there were. */
  lemma SwapGivesBack(c: Config, first: string, acts: seq<Action>, more: seq<Action>)
    requires c.maxBytes >= 0 && GoodId(first) && After(c, first, acts).Some? && After(c, first, acts + more).Some?
    requires NoRestart(more)
    requires After(c, first, acts).value.swap.pc == Scan && After(c, first, acts + more).value.swap.pc == Scan
    ensures |After(c, first, acts + more).value.open| == |After(c, first, acts).value.open|
  {
    hide Budget, Store, NoDangling, Served, Files, Dicts, Jobs, GoodId, After, OpenCount, Swapping;
    RunInv(c, first, acts);
    RunInv(c, first, acts + more);
    CountOverRun(c, first, acts, more);
    NeverEmpty(After(c, first, acts).value);
    NeverEmpty(After(c, first, acts + more).value);
  }

  // ----- restart -----

  /** A crash at any moment can be recovered from: every file that a row needs is there and loads. */
  lemma RestartNeverFails(c: Config, s: State)
    requires Inv(c, s)
    ensures AllReload(s) && Recreated(s) == map[]
  {
    hide Budget, Served, OpenCount, Dicts, Jobs, Swapping, TripletOk, Reload, GoodId, StoredIn, NoDangling;
    Reloads(s);
    OwnersLive(c, s);
    assert Recreated(s).Keys == {};
  }

  lemma InvParts(c: Config, s: State)
    requires Inv(c, s)
    ensures Owners(s.rows) <= s.tri.Keys
  {
    hide Shape, Budget, Served, OpenCount, NoDangling, Blobs, Refs, JobsStored;
    OwnersLive(c, s);
  }

  // ----- Put runs through -----

  lemma SizeInDisk(tri: map<string, Triplet>, tid: string)
    requires tid in tri
    ensures DiskSize(tri[tid]) <= Disk(tri)
  {
    DiskRemove(tri, tid);
    MapSum.SumNonNegative(Sizes(tri - {tid}));
  }

  lemma ClaimInClaims(c: Config, jobs: map<nat, Job>, p: nat)
    requires p in jobs && Bounded(c, jobs)
    ensures Claim(c, jobs[p]) <= MapSum.Sum(Claims(c, jobs))
  {
    hide Claim, Written;
    var cs := Claims(c, jobs);
    forall q | q in jobs
      ensures Claim(c, jobs[q]) >= 0
    {
      ClaimNonNegative(c, jobs[q]);
    }
    MapSum.SumRemove(cs, p);
    MapSum.SumNonNegative(cs - {p});
  }

  /** The reservation covers the append: its position fits an int64 whenever the budget does. */
  lemma AppendInRange(c: Config, s: State, p: nat)
    requires Inv(c, s) && At(s, p, Placed) && c.maxBytes + OPEN_SIZE * s.unchecked < TWO_63
    requires s.jobs[p].tid !in Locked(s.jobs)
    ensures CanAppend(c, s, p)
  {
    hide Dicts, Swapping, TripletOk, Store, Served, NoDangling, OpenCount, GoodId, Balanced, PayloadSize, Locked;
    var j := s.jobs[p];
    assert JobOk(c, s, j);
    SizeInDisk(s.tri, j.tid);
    ClaimInClaims(c, s.jobs, p);
  }

  /** The error branches of `Put` after the log append are dead: the record has the size that was reserved for, the
      header is not closed, and the padded entry fits. */
  lemma PutNeverFails(c: Config, s: State, p: nat)
    requires Inv(c, s) && At(s, p, BinDone) && c.maxBytes + OPEN_SIZE * s.unchecked < TWO_63
    ensures |RecordFor(c, s.jobs[p].blobId, s.jobs[p].data)| == Payload(c, s.jobs[p].data)
    ensures s.tri[s.jobs[p].tid].state != STATE_CLOSED
    ensures CanIndex(c, s, p) && Fits(JobEntry(c, s.jobs[p]))
  {
    hide Budget, Dicts, Swapping, Served, NoDangling, OpenCount, Serialize, TripletOk, Refs, Blobs, Record,
      PayloadSize, Printable, Fits;
    var j := s.jobs[p];
    assert JobOk(c, s, j) && JobStored(c, s, j);
    RecordLength(c.aligned, AsciiBytes(j.blobId), j.data);
    LogInRange(c, s, j.tid);
    EntryPrintable(c, s, j);
    EntryFits(c, s, p);
  }

  lemma LogInRange(c: Config, s: State, tid: string)
    requires Budget(c, s) && tid in s.tri && c.maxBytes + OPEN_SIZE * s.unchecked < TWO_63
    ensures |s.tri[tid].bin| < TWO_63
  {
    hide Bounded, Balanced;
    SizeInDisk(s.tri, tid);
    ClaimsNonNegative(c, s.jobs);
  }

  lemma EntryPrintable(c: Config, s: State, j: Job)
    requires GoodId(j.blobId) && j.tid in s.tri && |s.tri[j.tid].bin| < TWO_63
    requires RecordAt(c, s.tri[j.tid].bin, j.blobId, j.data, j.off)
    requires |RecordFor(c, j.blobId, j.data)| == Payload(c, j.data)
    ensures Printable(JobEntry(c, j))
  {
    hide Record, IsId;
  }

  /** The next step of a worker, given an open triplet and a fresh id to choose from. */
  function NextStep(c: Config, s: State, p: nat, open: string, fresh_: string): Action
    requires p in s.jobs
  {
    match s.jobs[p].pc
    case Checked => Reserve(p)
    case Reserved => if IsLarge(c, s.jobs[p]) then PlaceLarge(p, fresh_) else PlaceSmall(p, open)
    case Placed => Append(p)
    case BinDone => Index(p)
    case IdxDone => Manifest(p)
    case MfDone => Settle(p)
    case Settled => Release(p)
    case _ => Commit(p)
  }

  lemma ManifestThere(t: Triplet, torn: bool)
    requires TripletOk(t, torn)
    ensures t.mf != ""
  {
    assert t.mf == ManifestFile(t.log);
  }

  lemma ManifestReady(c: Config, s: State, p: nat)
    requires Inv(c, s) && At(s, p, IdxDone)
    ensures CanManifest(s, p)
  {
    hide Budget, Store, Served, NoDangling, OpenCount, Dicts, Swapping, TripletOk, Locked, IsId;
    assert JobOk(c, s, s.jobs[p]);
    ManifestThere(s.tri[s.jobs[p].tid], s.jobs[p].tid in Locked(s.jobs));
  }

  /** Once its reservation is accepted, a worker always has a next step, whatever the others do, until it waits for a
      log that a torn append keeps locked. */
  lemma WorkerNeverStuck(c: Config, s: State, p: nat, open: string, fresh_: string)
    requires Inv(c, s) && p in s.jobs && c.maxBytes + OPEN_SIZE * s.unchecked < TWO_63
    requires s.jobs[p].pc != Torn && s.jobs[p].tid !in Locked(s.jobs)
    requires s.jobs[p].pc == Reserved ==> open in s.open - s.evicted && GoodId(fresh_) && fresh_ !in s.used
    ensures var a := NextStep(c, s, p, open, fresh_); StepJob(c, s, a).Some? && Careful(s, a)
  {
    hide Inv, GoodId, Locked, IsLarge, CanAppend, CanIndex, CanManifest, DoAppend, DoIndex, DoManifest, DoCommit,
      DoPlaceLarge,
      DoPlaceSmall, DoReserve, DoSettle, DoRelease, Payload, MaxAlloc;
    match s.jobs[p].pc
    case Placed => AppendInRange(c, s, p);
    case BinDone => PutNeverFails(c, s, p);
    case IdxDone => ManifestReady(c, s, p);
    case _ =>
  }
}
