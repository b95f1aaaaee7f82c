/** The store refines a map from triplet and blob id to bytes: what has been indexed stays readable with exactly its
    bytes, and nothing else is readable, through every interleaving, crash and restart. */
module SystemStore {
  import opened Bytes
  import opened BlobBinary
  import opened BlobIndex
  import opened BlobManifest
  import opened Tokens
  import opened CacheSystem
  import opened SystemShape

  predicate RecordAt(c: Config, bin: seq<byte>, id: string, data: seq<byte>, off: int) {
    var rec := RecordFor(c, id, data);
    && |data| < TWO_63 && 0 <= off && off + |rec| <= |bin| && bin[off..off + |rec|] == rec
  }

  predicate StoredIn(c: Config, t: Triplet, id: string, data: seq<byte>) {
    id in t.refs && RecordAt(c, t.bin, id, data, t.refs[id].Offset)
  }

  predicate Blobs(c: Config, s: State) {
    forall k :: k in s.blobs ==>
      k.0 in s.tri && GoodId(k.1) && k.1 in s.used && StoredIn(c, s.tri[k.0], k.1, s.blobs[k])
  }

  predicate Refs(s: State) {
    forall tid, id :: tid in s.tri && id in s.tri[tid].refs ==> (tid, id) in s.blobs
  }

  predicate Indexed(pc: Pc) {
    pc == IdxDone || pc == MfDone || pc == Settled || pc == Returned
  }

  /** The blob of a job is stored exactly when the job has indexed it. */
  predicate JobStored(c: Config, s: State, j: Job) {
    && (j.pc == BinDone ==> j.tid in s.tri && RecordAt(c, s.tri[j.tid].bin, j.blobId, j.data, j.off))
    && (Indexed(j.pc) ==> (j.tid, j.blobId) in s.blobs && s.blobs[(j.tid, j.blobId)] == j.data)
    && (forall k :: k in s.blobs && k.1 == j.blobId ==> Indexed(j.pc) && k.0 == j.tid)
  }

  predicate JobsStored(c: Config, s: State) {
    forall p :: p in s.jobs ==> JobStored(c, s, s.jobs[p])
  }

  predicate Store(c: Config, s: State) {
    Blobs(c, s) && Refs(s) && JobsStored(c, s)
  }

  lemma InitStore(c: Config, first: string)
    ensures Store(c, Init(first))
  {
  }

  // ----- logs only grow -----

  lemma RecordAtGrows(c: Config, bin: seq<byte>, more: seq<byte>, id: string, data: seq<byte>, off: int)
    requires RecordAt(c, bin, id, data, off) && bin <= more
    ensures RecordAt(c, more, id, data, off)
  {
    var n := |RecordFor(c, id, data)|;
    assert more[off..off + n] == more[..|bin|][off..off + n];
  }

  /** Old triplets keep their entries and their bytes, new ones start empty. */
  predicate Grows(s: State, r: State) {
    && (forall tid :: tid in s.tri ==>
          tid in r.tri && r.tri[tid].refs == s.tri[tid].refs && s.tri[tid].bin <= r.tri[tid].bin)
    && (forall tid :: tid in r.tri ==> tid in s.tri || r.tri[tid].refs == map[])
    && r.blobs == s.blobs && s.used <= r.used
  }

  lemma GrowsKeepsBlobs(c: Config, s: State, r: State)
    requires Blobs(c, s) && Refs(s) && Grows(s, r)
    ensures Blobs(c, r) && Refs(r)
  {
    hide RecordAt, GoodId;
    forall k | k in r.blobs
      ensures k.0 in r.tri && StoredIn(c, r.tri[k.0], k.1, r.blobs[k])
    {
      var t := s.tri[k.0];
      RecordAtGrows(c, t.bin, r.tri[k.0].bin, k.1, s.blobs[k], t.refs[k.1].Offset);
    }
  }

  lemma GrowsKeepsJob(c: Config, s: State, r: State, j: Job)
    requires JobStored(c, s, j) && Grows(s, r)
    ensures JobStored(c, r, j)
  {
    hide RecordAt;
    if j.pc == BinDone {
      RecordAtGrows(c, s.tri[j.tid].bin, r.tri[j.tid].bin, j.blobId, j.data, j.off);
    }
  }

  /** A step that only grows logs and changes at most one job. */
  lemma StoreGrows(c: Config, s: State, r: State, p: nat)
    requires Store(c, s) && Grows(s, r)
    requires forall q :: q in r.jobs && q != p ==> q in s.jobs && r.jobs[q] == s.jobs[q]
    requires p in r.jobs ==> JobStored(c, r, r.jobs[p])
    ensures Store(c, r)
  {
    hide JobStored, Blobs, Refs, Grows;
    GrowsKeepsBlobs(c, s, r);
    forall q | q in r.jobs && q != p
      ensures JobStored(c, r, r.jobs[q])
    {
      GrowsKeepsJob(c, s, r, s.jobs[q]);
    }
  }

  /** A step that touches no log, no index and no job. */
  lemma StoreFrame(c: Config, s: State, r: State)
    requires Store(c, s) && Grows(s, r) && r.jobs == s.jobs
    ensures Store(c, r)
  {
    hide JobStored, Blobs, Refs, Grows;
    GrowsKeepsBlobs(c, s, r);
    forall q | q in r.jobs
      ensures JobStored(c, r, r.jobs[q])
    {
      GrowsKeepsJob(c, s, r, s.jobs[q]);
    }
  }

  // ----- jobs -----

  /** A job moves on without touching its triplet, and its blob is indexed as before. */
  lemma AdvanceStore(c: Config, s: State, r: State, p: nat, j: Job)
    requires Store(c, s) && p in s.jobs && r == SetJob(s, p, j).(total := r.total)
    requires j.blobId == s.jobs[p].blobId && j.data == s.jobs[p].data && s.jobs[p].pc != BinDone && j.pc != BinDone
    requires Indexed(j.pc) == Indexed(s.jobs[p].pc) && (Indexed(j.pc) ==> j.tid == s.jobs[p].tid)
    ensures Store(c, r)
  {
    hide RecordAt, Blobs, Refs;
    assert JobStored(c, s, s.jobs[p]);
    assert JobStored(c, r, j);
    StoreGrows(c, s, r, p);
  }

  lemma CheckStore(c: Config, s: State, a: Action)
    requires Store(c, s) && a.Check? && CanCheck(c, s, a)
    ensures Store(c, DoCheck(s, a))
  {
    hide GoodId, StoredIn;
    var r := DoCheck(s, a);
    assert JobStored(c, r, r.jobs[a.p]);
    hide JobStored, Blobs, Refs;
    StoreGrows(c, s, r, a.p);
  }

  lemma PlacedJob(c: Config, s: State, r: State, j: Job, k: Job)
    requires JobStored(c, s, j) && j.pc == Reserved && k == j.(pc := Placed, tid := k.tid, increase := k.increase)
    requires r.blobs == s.blobs
    ensures JobStored(c, r, k)
  {
  }

  lemma NewIsEmpty(large: bool)
    ensures NewTriplet(large).refs == map[] && NewTriplet(large).bin == []
  {
  }

  lemma PlaceLargeEffect(c: Config, s: State, p: nat, tid: string)
    requires CanPlaceLarge(c, s, p, tid) && tid !in s.tri
    ensures Grows(s, DoPlaceLarge(s, p, tid))
  {
    hide NewTriplet, GoodId;
    NewIsEmpty(true);
  }

  lemma PlaceLargeStore(c: Config, s: State, p: nat, tid: string)
    requires Store(c, s) && Shape(c, s) && CanPlaceLarge(c, s, p, tid)
    ensures Store(c, DoPlaceLarge(s, p, tid))
  {
    hide Shape, GoodId, NewTriplet, Blobs, Refs, JobStored, Grows;
    UnusedIsAbsent(c, s, tid);
    PlaceLargeEffect(c, s, p, tid);
    var r := DoPlaceLarge(s, p, tid);
    PlacedJob(c, s, r, s.jobs[p], r.jobs[p]);
    StoreGrows(c, s, r, p);
  }

  /** The log append writes the record where the header says it will be. */
  lemma AppendedAt(c: Config, t: Triplet, id: string, data: seq<byte>)
    requires t.curOff == |t.bin| && |data| < TWO_63
    ensures RecordAt(c, BinPut(c, t, id, data).bin, id, data, t.curOff) && t.bin <= BinPut(c, t, id, data).bin
    ensures BinPut(c, t, id, data).refs == t.refs
  {
  }

  lemma AtEnd(c: Config, s: State, p: nat)
    requires Shape(c, s) && CanAppend(c, s, p)
    ensures s.tri[s.jobs[p].tid].curOff == |s.tri[s.jobs[p].tid].bin| && |s.jobs[p].data| < TWO_63
  {
  }

  lemma AppendedJob(c: Config, s: State, r: State, j: Job, k: Job)
    requires JobStored(c, s, j) && !Indexed(j.pc) && Grows(s, r) && k.tid in r.tri
    requires k == j.(pc := BinDone, off := k.off, increase := k.increase)
    requires RecordAt(c, r.tri[k.tid].bin, k.blobId, k.data, k.off)
    ensures JobStored(c, r, k)
  {
    hide RecordAt;
  }

  /** The job after its append. */
  function Appended(c: Config, s: State, p: nat): Job
    requires CanAppend(c, s, p)
  {
    var j := s.jobs[p];
    j.(pc := BinDone, off := s.tri[j.tid].curOff, increase := j.increase + |RecordFor(c, j.blobId, j.data)|)
  }

  lemma AppendEffect(c: Config, s: State, p: nat)
    requires CanAppend(c, s, p) && |s.jobs[p].data| < TWO_63
    requires s.tri[s.jobs[p].tid].curOff == |s.tri[s.jobs[p].tid].bin|
    ensures var k, r := Appended(c, s, p), DoAppend(c, s, p);
            && Grows(s, r) && r.jobs == s.jobs[p := k] && k.tid in r.tri
            && RecordAt(c, r.tri[k.tid].bin, k.blobId, k.data, k.off)
  {
    var j := s.jobs[p];
    AppendedAt(c, s.tri[j.tid], j.blobId, j.data);
    hide RecordAt, BinPut, RecordFor, Payload;
    assert DoAppend(c, s, p).tri[j.tid] == BinPut(c, s.tri[j.tid], j.blobId, j.data);
  }

  lemma AppendStore(c: Config, s: State, p: nat)
    requires Store(c, s) && Shape(c, s) && CanAppend(c, s, p)
    ensures Store(c, DoAppend(c, s, p))
  {
    hide Shape, RecordAt, Blobs, Refs, JobStored, DoAppend, Grows, RecordFor;
    AtEnd(c, s, p);
    AppendEffect(c, s, p);
    var r := DoAppend(c, s, p);
    AppendedJob(c, s, r, s.jobs[p], Appended(c, s, p));
    StoreGrows(c, s, r, p);
  }

  lemma TearStore(c: Config, s: State, p: nat, k: nat)
    requires Store(c, s) && CanTear(c, s, p, k)
    ensures Store(c, DoTear(c, s, p, k))
  {
    hide RecordAt, RecordFor, Blobs, Refs;
    var j, r := s.jobs[p], DoTear(c, s, p, k);
    assert s.tri[j.tid].bin <= r.tri[j.tid].bin;
    assert JobStored(c, s, j);
    assert JobStored(c, r, r.jobs[p]);
    hide JobStored;
    StoreGrows(c, s, r, p);
  }

  lemma ManifestStore(c: Config, s: State, p: nat)
    requires Store(c, s) && CanManifest(s, p)
    ensures Store(c, DoManifest(s, p))
  {
    hide RecordAt, Blobs, Refs;
    var j, r := s.jobs[p], DoManifest(s, p);
    MfKeeps(s.tri[j.tid], MFEntry(j.blobId, ACTION_PUT, ""));
    hide MfPut;
    assert JobStored(c, s, j);
    assert JobStored(c, r, r.jobs[p]);
    hide JobStored;
    StoreGrows(c, s, r, p);
  }

  lemma MfKeeps(t: Triplet, e: MFEntry)
    requires PrintableAction(e) && t.mf != ""
    ensures MfPut(t, e).refs == t.refs && MfPut(t, e).bin == t.bin
  {
  }

  lemma CommitStore(c: Config, s: State, p: nat)
    requires Store(c, s) && At(s, p, Returned)
    ensures Store(c, DoCommit(c, s, p))
  {
    hide DoCommit, JobStored, Blobs, Refs, Grows;
    CommitGrows(c, s, p);
    StoreGrows(c, s, DoCommit(c, s, p), p);
  }

  lemma CommitGrows(c: Config, s: State, p: nat)
    requires At(s, p, Returned)
    ensures var r := DoCommit(c, s, p); r == s.(jobs := s.jobs - {p}, rows := r.rows) && Grows(s, r)
  {
    hide JobToken, GetTripletIdFromToken;
  }

  // ----- indexing -----

  /** The effect of the index step on the map of blobs. */
  predicate Indexes(s: State, r: State, p: nat, e: IndexEntry)
    requires p in s.jobs && s.jobs[p].tid in s.tri
  {
    var j := s.jobs[p];
    && e.BlobId == j.blobId && e.Offset == j.off
    && r.tri.Keys == s.tri.Keys
    && (forall tid :: tid in s.tri && tid != j.tid ==> r.tri[tid] == s.tri[tid])
    && r.tri[j.tid].bin == s.tri[j.tid].bin && r.tri[j.tid].refs == s.tri[j.tid].refs[j.blobId := e]
    && r.blobs == s.blobs[(j.tid, j.blobId) := j.data] && r.used == s.used
  }

  lemma IndexEffect(c: Config, s: State, p: nat)
    requires CanIndex(c, s, p)
    ensures Indexes(s, DoIndex(c, s, p), p, JobEntry(c, s.jobs[p]))
  {
    hide Printable, Payload;
  }

  lemma IndexBlobs(c: Config, s: State, r: State, p: nat, e: IndexEntry)
    requires Blobs(c, s) && Refs(s) && OnTriplet(s, p, BinDone) && JobStored(c, s, s.jobs[p]) && Indexes(s, r, p, e)
    requires GoodId(s.jobs[p].blobId) && s.jobs[p].blobId in s.used
    ensures Blobs(c, r) && Refs(r)
  {
    hide RecordAt, GoodId;
    var j := s.jobs[p];
    forall k | k in r.blobs
      ensures k.0 in r.tri && GoodId(k.1) && k.1 in r.used && StoredIn(c, r.tri[k.0], k.1, r.blobs[k])
    {
      if k != (j.tid, j.blobId) {
        assert k in s.blobs && k.1 != j.blobId;
      }
    }
  }

  lemma IndexOther(c: Config, s: State, r: State, p: nat, e: IndexEntry, j: Job)
    requires OnTriplet(s, p, BinDone) && Indexes(s, r, p, e) && JobStored(c, s, j) && j.blobId != s.jobs[p].blobId
    ensures JobStored(c, r, j)
  {
    hide RecordAt;
  }

  lemma IndexJob(c: Config, s: State, r: State, p: nat, e: IndexEntry)
    requires OnTriplet(s, p, BinDone) && JobStored(c, s, s.jobs[p]) && Indexes(s, r, p, e)
    requires p in r.jobs && r.jobs[p] == s.jobs[p].(pc := IdxDone, increase := r.jobs[p].increase)
    ensures JobStored(c, r, r.jobs[p])
  {
    hide RecordAt;
  }

  lemma IndexStore(c: Config, s: State, p: nat)
    requires Store(c, s) && Shape(c, s) && CanIndex(c, s, p)
    ensures Store(c, DoIndex(c, s, p))
  {
    hide Blobs, Refs, JobStored, Indexes, GoodId, Files, Dicts, Swapping, Printable, IdxPut;
    var r, e := DoIndex(c, s, p), JobEntry(c, s.jobs[p]);
    IndexEffect(c, s, p);
    assert r.jobs == s.jobs[p := s.jobs[p].(pc := IdxDone, increase := r.jobs[p].increase)];
    hide DoIndex, JobEntry;
    assert JobOk(c, s, s.jobs[p]);
    IndexBlobs(c, s, r, p, e);
    IndexJob(c, s, r, p, e);
    forall q | q in s.jobs && q != p
      ensures JobStored(c, r, s.jobs[q])
    {
      IndexOther(c, s, r, p, e, s.jobs[q]);
    }
  }

  // ----- purge and restart -----

  /** What is left of some triplets: their logs and, by id, the offsets in their indexes. */
  predicate Drops(s: State, r: State) {
    && (forall tid :: tid in r.tri ==>
          tid in s.tri && r.tri[tid].bin == s.tri[tid].bin && SameOffsets(s.tri[tid].refs, r.tri[tid].refs))
    && r.blobs == (map k | k in s.blobs && k.0 in r.tri :: s.blobs[k])
    && s.used <= r.used
  }

  lemma DropBlobs(c: Config, s: State, r: State)
    requires Blobs(c, s) && Refs(s) && Drops(s, r)
    ensures Blobs(c, r) && Refs(r)
  {
    hide RecordAt, GoodId;
  }

  lemma DropJob(c: Config, s: State, r: State, j: Job)
    requires JobStored(c, s, j) && Drops(s, r) && (Early(j.pc) || j.tid in r.tri)
    ensures JobStored(c, r, j)
  {
    hide RecordAt;
  }

  /** Whole triplets may go, with their blobs, when no job is on them. */
  lemma DropStore(c: Config, s: State, r: State)
    requires Store(c, s) && Drops(s, r)
    requires forall p :: p in r.jobs ==>
               p in s.jobs && r.jobs[p] == s.jobs[p] && (Early(r.jobs[p].pc) || r.jobs[p].tid in r.tri)
    ensures Store(c, r)
  {
    hide Blobs, Refs, JobStored, Drops, Early;
    DropBlobs(c, s, r);
    forall p | p in r.jobs
      ensures JobStored(c, r, r.jobs[p])
    {
      DropJob(c, s, r, s.jobs[p]);
    }
  }

  lemma PurgeStore(c: Config, s: State, tid: string)
    requires Store(c, s) && Shape(c, s) && tid in s.evicted
    ensures Store(c, DoPurge(s, tid))
  {
    hide Store, Blobs, Refs, JobStored, Files, Dicts, Swapping, GoodId;
    var r := DoPurge(s, tid);
    assert forall p :: p in s.jobs ==> JobOk(c, s, s.jobs[p]);
    PurgedBlobs(c, s, tid);
    DropStore(c, s, r);
  }

  lemma PurgedBlobs(c: Config, s: State, tid: string)
    requires Store(c, s)
    ensures DoPurge(s, tid).blobs == map k | k in s.blobs && k.0 in DoPurge(s, tid).tri :: s.blobs[k]
  {
    hide GoodId, StoredIn, Refs, JobStored;
  }

  predicate SameOffsets(ms: map<string, IndexEntry>, ns: map<string, IndexEntry>) {
    ms.Keys == ns.Keys && forall id :: id in ms ==> ns[id].Offset == ms[id].Offset
  }

  lemma SameRefs(ms: map<string, IndexEntry>, ns: map<string, IndexEntry>, e: IndexEntry, f: IndexEntry)
    requires SameOffsets(ms, ns) && e.BlobId == f.BlobId && e.Offset == f.Offset
    ensures SameOffsets(ms[e.BlobId := e], ns[f.BlobId := f])
  {
  }

  /** Reloading finds the same ids at the same offsets. */
  lemma {:induction false} PaddedRefs(es: seq<IndexEntry>)
    requires AllPrintable(es)
    ensures SameOffsets(RefMapOf(es), RefMapOf(PaddedAll(es)))
  {
    hide Serialize, Printable;
    if es != [] {
      var front, last := es[..|es| - 1], es[|es| - 1];
      assert es == front + [last];
      PaddedRefs(front);
      PaddedSnoc(front, last);
      RefMapSnoc(front, last);
      RefMapSnoc(PaddedAll(front), Padded(last));
      SameRefs(RefMapOf(front), RefMapOf(PaddedAll(front)), last, Padded(last));
    }
  }

  lemma {:induction false} PaddedSnoc(es: seq<IndexEntry>, e: IndexEntry)
    requires AllPrintable(es + [e])
    ensures AllPrintable(es) && Printable(e) && PaddedAll(es + [e]) == PaddedAll(es) + [Padded(e)]
  {
    assert (es + [e])[..|es|] == es && (es + [e])[|es|] == e;
    if es != [] {
      assert (es + [e])[1..] == es[1..] + [e];
      PaddedSnoc(es[1..], e);
    }
  }

  lemma ReloadKeeps(t: Triplet, torn: bool)
    requires TripletOk(t, torn)
    ensures Reload(t).Some?
    ensures Reload(t).value.bin == t.bin && SameOffsets(t.refs, Reload(t).value.refs)
  {
    ReloadOk(t, torn);
    PaddedRefs(t.entries);
    hide Reload, IndexFile, ManifestFile, RefMapOf;
  }

  lemma RebootStore(c: Config, s: State)
    requires Store(c, s) && Shape(c, s) && AllReload(s) && Owners(s.rows) <= s.tri.Keys
    ensures Store(c, Rebooted(s))
  {
    hide Store, Dicts, Jobs, Swapping, GoodId, Reload, TripletOk, Recreated, Disk, InState, Owners, ReadyRows;
    var r := Rebooted(s);
    RebootedTriplets(s);
    forall tid | tid in r.tri
      ensures tid in s.tri && r.tri[tid].bin == s.tri[tid].bin && SameOffsets(s.tri[tid].refs, r.tri[tid].refs)
    {
      ReloadKeeps(s.tri[tid], tid in Locked(s.jobs));
    }
    DropStore(c, s, r);
  }

  lemma OpenFirstStore(c: Config, s: State, fresh_: string)
    requires Store(c, s) && fresh_ !in s.tri
    ensures Store(c, OpenFirst(s, fresh_))
  {
    hide Store, NewTriplet;
    NewIsEmpty(false);
    StoreFrame(c, s, OpenFirst(s, fresh_));
  }

  lemma RestartStore(c: Config, s: State, fresh_: string)
    requires Store(c, s) && Shape(c, s) && AllReload(s) && Owners(s.rows) <= s.tri.Keys && fresh_ !in s.used
    ensures Store(c, DoRestart(s, fresh_))
  {
    hide Store, Reload, OpenFirst, GoodId, Dicts, Jobs, Swapping, TripletOk;
    RebootStore(c, s);
    RebootedTriplets(s);
    UnusedIsAbsent(c, s, fresh_);
    OpenFirstStore(c, Rebooted(s), fresh_);
  }

  lemma StoreSame(c: Config, s: State, r: State)
    requires Store(c, s) && r.tri == s.tri && r.blobs == s.blobs && r.jobs == s.jobs && r.used == s.used
    ensures Store(c, r)
  {
    hide Store;
    StoreFrame(c, s, r);
  }

  // ----- every step -----

  lemma JobStepStore(c: Config, s: State, a: Action)
    requires Store(c, s) && Shape(c, s) && StepJob(c, s, a).Some?
    ensures Store(c, StepJob(c, s, a).value)
  {
    hide Store, Shape, CanCheck, CanAppend, CanIndex, CanManifest, CanTear, CanPlaceLarge, DoAppend, DoTear, DoIndex,
      DoManifest,
      DoCommit, DoPlaceLarge, DoCheck, GoodId, Payload, IsLarge;
    var r := StepJob(c, s, a).value;
    match a
    case Check(_, _, _, _) => CheckStore(c, s, a);
    case Reserve(p) => AdvanceStore(c, s, r, p, s.jobs[p].(pc := Reserved));
    case PlaceSmall(p, tid) => AdvanceStore(c, s, r, p, s.jobs[p].(pc := Placed, tid := tid));
    case PlaceLarge(p, tid) => PlaceLargeStore(c, s, p, tid);
    case Append(p) => AppendStore(c, s, p);
    case Tear(p, k) => TearStore(c, s, p, k);
    case Index(p) => IndexStore(c, s, p);
    case Manifest(p) => ManifestStore(c, s, p);
    case Settle(p) => AdvanceStore(c, s, r, p, s.jobs[p].(pc := Settled));
    case Release(p) => AdvanceStore(c, s, r, p, s.jobs[p].(pc := Returned));
    case Commit(p) => CommitStore(c, s, p);
  }

  lemma UnusedIsAbsent(c: Config, s: State, tid: string)
    requires Shape(c, s) && tid !in s.used
    ensures tid !in s.tri
  {
  }

  lemma SwapOpenStore(c: Config, s: State, tid: string, fresh_: string)
    requires Store(c, s) && Shape(c, s) && CanSwapOpen(c, s, tid, fresh_)
    ensures Store(c, DoSwapOpen(s, tid, fresh_))
  {
    hide Store, Shape, GoodId, NewTriplet;
    UnusedIsAbsent(c, s, fresh_);
    NewIsEmpty(false);
    StoreFrame(c, s, DoSwapOpen(s, tid, fresh_));
  }

  lemma SwapMarkStore(c: Config, s: State)
    requires Store(c, s) && CanSwapMark(s)
    ensures Store(c, DoSwapMark(s))
  {
    hide Store;
    StoreFrame(c, s, DoSwapMark(s));
  }

  lemma SwapStepStore(c: Config, s: State, a: Action)
    requires Store(c, s) && Shape(c, s) && StepSwap(c, s, a).Some?
    ensures Store(c, StepSwap(c, s, a).value)
  {
    hide Store, Shape, CanSwapOpen, CanSwapMark, DoSwapOpen, DoSwapMark;
    var r := StepSwap(c, s, a).value;
    match a
    case SwapOpen(tid, fresh_) => SwapOpenStore(c, s, tid, fresh_);
    case SwapMark => SwapMarkStore(c, s);
    case SwapAccount => StoreSame(c, s, r);
    case SwapScanned => StoreSame(c, s, r);
    case SwapPublish => StoreSame(c, s, r);
    case SwapClose => StoreSame(c, s, r);
    case SwapDrop => StoreSame(c, s, r);
  }

  lemma StepKeepsStore(c: Config, s: State, a: Action)
    requires Store(c, s) && Shape(c, s) && Step(c, s, a).Some? && Owners(s.rows) <= s.tri.Keys
    ensures Store(c, Step(c, s, a).value)
  {
    hide Store, Shape, StepJob, StepSwap, DoRestart, DoPurge, CanEvict;
    var r := Step(c, s, a).value;
    match a
    case Purge(tid) => PurgeStore(c, s, tid);
    case Restart(fresh_) => RestartStore(c, s, fresh_);
    case PayDebt(_) => StoreSame(c, s, r);
    case Evict(_) => StoreSame(c, s, r);
    case Miss(_) => StoreSame(c, s, r);
    case Outdate(_, _, _) => StoreSame(c, s, r);
    case Rollback(_) => StoreSame(c, s, r);
    case ReadOpen(_, _, _) => StoreSame(c, s, r);
    case ReadClosed(_) => StoreSame(c, s, r);
    case SwapOpen(_, _) | SwapAccount | SwapScanned | SwapPublish | SwapClose | SwapMark | SwapDrop =>
      SwapStepStore(c, s, a);
    case _ => JobStepStore(c, s, a);
  }
}
