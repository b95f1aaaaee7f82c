/** The structural invariant of the running cache: files and headers agree, every triplet sits in the right
    dictionaries, jobs write to triplets that are neither closed in memory nor evicted. */
module SystemShape {
  import opened Bytes
  import opened BlobBinary
  import opened Json
  import opened AppendArray
  import opened BlobIndex
  import opened BlobManifest
  import opened Tokens
  import opened CacheSystem

  /** The files are what the headers say. After a torn append the log is longer than the header knows. */
  predicate TripletOk(t: Triplet, torn: bool) {
    && AllPrintable(t.entries) && t.idx != "" && t.idx == IndexFile(t.idx[0], t.entries)
    && t.refs == RefMapOf(t.entries)
    && AllActions(t.log) && t.mf == ManifestFile(t.log) && t.mfEmpty == (t.log == [])
    && (if torn then 0 <= t.curOff <= |t.bin| else t.curOff == |t.bin|)
    && (t.idx[0] == STATE_OPEN || t.idx[0] == STATE_CLOSED || t.idx[0] == STATE_LARGE)
  }

  lemma NewTripletOk(large: bool)
    ensures TripletOk(NewTriplet(large), false) && DiskSize(NewTriplet(large)) == OPEN_SIZE
    ensures NewTriplet(large).idx[0] == if large then STATE_LARGE else STATE_OPEN
  {
    IndexFileLength(if large then STATE_LARGE else STATE_OPEN, []);
    ManifestFileLength([]);
  }

  /** What is created: three files, of which the log does not exist yet, and a header in the open state, for a large
      triplet too. */
  lemma NewTripletIs(large: bool)
    ensures NewTriplet(large)
         == Triplet([], (if large then "4" else "2") + "\n[\n]", "[\n]", 0, '2', [], map[], true, [])
  {
  }

  lemma IndexHead(state: char, es: seq<IndexEntry>)
    requires AllPrintable(es)
    ensures IndexFile(state, es) != "" && IndexFile(state, es)[0] == state
  {
  }

  lemma RefMapSnoc(es: seq<IndexEntry>, e: IndexEntry)
    ensures RefMapOf(es + [e]) == RefMapOf(es)[e.BlobId := e]
  {
    assert (es + [e])[..|es|] == es;
  }

  lemma IdxPutOk(t: Triplet, torn: bool, e: IndexEntry)
    requires TripletOk(t, torn) && Printable(e) && Fits(e)
    ensures TripletOk(IdxPut(t, e), torn) && IdxPut(t, e).idx[0] == t.idx[0]
    ensures DiskSize(IdxPut(t, e)) == DiskSize(t) + IdxGrowth(t)
  {
    hide IndexFile, AppendInPlace, Serialize, Padded, RefMapOf, AllPrintable, Printable, Fits, ManifestFile;
    FlushGrowsIndex(t.idx[0], t.entries, e);
    IndexHead(t.idx[0], t.entries + [e]);
    RefMapSnoc(t.entries, e);
  }

  lemma MfPutOk(t: Triplet, torn: bool, e: MFEntry)
    requires TripletOk(t, torn) && PrintableAction(e) && ActionFits(e)
    ensures TripletOk(MfPut(t, e), torn) && MfPut(t, e).state == t.state && MfPut(t, e).idx == t.idx
    ensures DiskSize(MfPut(t, e)) == DiskSize(t) + MfGrowth(t)
  {
    FlushGrowsManifest(t.log, e);
  }

  /** Reloading never panics, keeps the files, takes the state from disk and forgets torn bytes only. */
  lemma ReloadOk(t: Triplet, torn: bool)
    requires TripletOk(t, torn)
    ensures Reload(t).Some?
    ensures var r := Reload(t).value;
            && TripletOk(r, false) && r.state == t.idx[0]
            && r.bin == t.bin && r.idx == t.idx && r.mf == t.mf
            && r.entries == PaddedAll(t.entries) && r.refs == RefMapOf(r.entries)
  {
    hide IndexFile, ManifestFile, LoadIndex, LoadManifest, RefMapOf, AllPrintable, AllActions;
    LoadReadsBack(t.idx[0], t.entries);
    PaddingIrrelevant(t.idx[0], t.entries);
    ManifestReadsBack(t.log);
  }

  // ----- the invariant -----

  predicate Early(pc: Pc) {
    pc == Checked || pc == Reserved
  }

  predicate JobOk(c: Config, s: State, j: Job) {
    && GoodId(j.blobId) && j.blobId in s.used && |j.data| < TWO_63
    && (Early(j.pc) ==> j.tid == "" && j.increase == 0)
    && (!Early(j.pc) ==>
          && j.tid in s.tri && j.tid !in s.evicted
          && (j.tid in s.large <==> IsLarge(c, j)) && s.tri[j.tid].state != STATE_CLOSED)
  }

  predicate Files(s: State) {
    forall tid :: tid in s.tri ==>
      && GoodId(tid) && tid in s.used && TripletOk(s.tri[tid], tid in Locked(s.jobs)) && s.tri[tid].idx != ""
      && (s.tri[tid].idx[0] == STATE_LARGE <==> tid in s.large)
  }

  predicate Dicts(s: State) {
    && s.open <= s.tri.Keys && s.closed <= s.tri.Keys && s.large <= s.tri.Keys
    && s.open !! s.large && s.closed !! s.large
    && (forall tid :: tid in s.tri ==> tid in s.open || tid in s.closed || tid in s.large || tid in s.swap.news)
    && (forall tid :: tid in s.open ==> s.tri[tid].state != STATE_CLOSED)
    && s.evicted <= s.used && (forall tid :: tid in s.evicted && tid in s.open ==> tid in s.closed)
  }

  predicate Jobs(c: Config, s: State) {
    && (forall p :: p in s.jobs ==> JobOk(c, s, s.jobs[p]))
    && (forall p, q :: p in s.jobs && q in s.jobs && p != q ==> s.jobs[p].blobId != s.jobs[q].blobId)
    && (forall p, q :: p in s.jobs && q in s.jobs && p != q ==> !(s.jobs[p].pc == Checked && s.jobs[q].pc == Checked))
  }

  predicate Distinct(xs: seq<string>) {
    forall i, j :: 0 <= i < j < |xs| ==> xs[i] != xs[j]
  }

  predicate Swapping(s: State) {
    var w := s.swap;
    && Distinct(w.closing) && Distinct(w.news)
    && (forall i :: 0 <= i < |w.closing| ==> w.closing[i] in s.open)
    && (forall i :: 0 <= i < |w.news| ==>
          && w.news[i] in s.tri && w.news[i] !in s.open && w.news[i] !in s.closed && w.news[i] !in s.large
          && w.news[i] !in s.evicted && s.tri[w.news[i]].state != STATE_CLOSED)
    && (w.owed ==> w.pc == Scan)
    && (w.pc == Scan ==> |w.news| == |w.closing|)
    && (w.pc == Publish ==> |w.news| <= |w.closing| && w.closing != [])
    && (w.pc == Mark || w.pc == Drop ==> w.news == [] && w.closing != [] && w.closing[0] in s.closed)
    && (forall tid :: tid in s.open && tid in s.closed ==>
          (w.pc == Mark || w.pc == Drop) && tid == w.closing[0])
  }

  predicate Shape(c: Config, s: State) {
    Files(s) && Dicts(s) && Jobs(c, s) && Swapping(s)
  }

  lemma InitShape(c: Config, first: string)
    requires GoodId(first)
    ensures Shape(c, Init(first))
  {
    NewTripletOk(false);
  }

  // ----- what each part depends on -----

  lemma LockedStep(jobs: map<nat, Job>, p: nat, j: Job)
    requires (p in jobs ==> jobs[p].pc != Torn) && j.pc != Torn
    ensures Locked(jobs[p := j]) == Locked(jobs)
  {
    var r := jobs[p := j];
    assert forall q :: q in jobs && q != p ==> q in r && r[q] == jobs[q];
  }

  lemma FilesFrame(s: State, r: State)
    requires Files(s) && r.tri == s.tri && r.large == s.large && s.used <= r.used && Locked(r.jobs) == Locked(s.jobs)
    ensures Files(r)
  {
  }

  /** The same triplets with the same states in memory. */
  predicate SameStates(s: State, r: State) {
    && r.tri.Keys == s.tri.Keys
    && forall tid :: tid in s.tri ==> r.tri[tid].state == s.tri[tid].state
  }

  lemma DictsFrame(s: State, r: State)
    requires Dicts(s) && SameStates(s, r) && r.open == s.open && r.closed == s.closed && r.large == s.large
    requires r.swap.news == s.swap.news && r.evicted == s.evicted && s.used <= r.used
    ensures Dicts(r)
  {
  }

  lemma SwapFrame(s: State, r: State)
    requires Swapping(s) && r.swap == s.swap && r.evicted == s.evicted
    requires SameStates(s, r) && r.open == s.open && r.closed == s.closed && r.large == s.large
    ensures Swapping(r)
  {
  }

  lemma JobsFrame(c: Config, s: State, r: State)
    requires Jobs(c, s) && r.jobs == s.jobs && r.evicted == s.evicted && s.used <= r.used
    requires SameStates(s, r) && r.large == s.large
    ensures Jobs(c, r)
  {
  }

  lemma JobsStep(c: Config, s: State, r: State, p: nat, j: Job)
    requires Jobs(c, s) && r.jobs == s.jobs[p := j] && r.evicted == s.evicted && s.used <= r.used
    requires SameStates(s, r) && r.large == s.large
    requires JobOk(c, r, j)
    requires p in s.jobs && j.blobId == s.jobs[p].blobId && (j.pc == Checked ==> s.jobs[p].pc == Checked)
    ensures Jobs(c, r)
  {
  }

  // ----- steps of one job that leave files and dictionaries alone -----

  lemma StepShape(c: Config, s: State, p: nat, j: Job, total: int)
    requires Shape(c, s) && p in s.jobs && JobOk(c, s, j)
    requires j.blobId == s.jobs[p].blobId && j.pc != Checked && j.pc != Torn && s.jobs[p].pc != Torn
    ensures Shape(c, SetJob(s, p, j).(total := total))
  {
    var r := SetJob(s, p, j).(total := total);
    LockedStep(s.jobs, p, j);
    FilesFrame(s, r);
    DictsFrame(s, r);
    SwapFrame(s, r);
    JobsStep(c, s, r, p, j);
  }

  lemma AdvanceOk(c: Config, s: State, j: Job, pc: Pc)
    requires JobOk(c, s, j) && Early(j.pc) == Early(pc)
    ensures JobOk(c, s, j.(pc := pc))
  {
  }

  lemma ReserveShape(c: Config, s: State, p: nat)
    requires Shape(c, s) && At(s, p, Checked)
    ensures Shape(c, DoReserve(c, s, p))
  {
    hide Files, Dicts, Swapping, JobOk;
    AdvanceOk(c, s, s.jobs[p], Reserved);
    StepShape(c, s, p, s.jobs[p].(pc := Reserved), DoReserve(c, s, p).total);
  }

  lemma SettleShape(c: Config, s: State, p: nat)
    requires Shape(c, s) && At(s, p, MfDone)
    ensures Shape(c, DoSettle(s, p))
  {
    hide Files, Dicts, Swapping, JobOk;
    AdvanceOk(c, s, s.jobs[p], Settled);
    StepShape(c, s, p, s.jobs[p].(pc := Settled), DoSettle(s, p).total);
  }

  lemma ReleaseShape(c: Config, s: State, p: nat)
    requires Shape(c, s) && At(s, p, Settled)
    ensures Shape(c, DoRelease(c, s, p))
  {
    hide Files, Dicts, Swapping, JobOk;
    AdvanceOk(c, s, s.jobs[p], Returned);
    StepShape(c, s, p, s.jobs[p].(pc := Returned), DoRelease(c, s, p).total);
  }

  /** Rows, readers and the total are no part of the shape. */
  lemma SameCoreShape(c: Config, s: State, r: State)
    requires Shape(c, s)
    requires r == s.(total := r.total, debts := r.debts, rows := r.rows, readers := r.readers)
    ensures Shape(c, r)
  {
    FilesFrame(s, r);
    DictsFrame(s, r);
    JobsFrame(c, s, r);
    SwapFrame(s, r);
  }

  // ----- steps of one job that write to its triplet -----

  lemma LockedOther(jobs: map<nat, Job>, p: nat, j: Job, tid: string)
    requires p in jobs && jobs[p].pc != Torn && j.tid != tid
    ensures tid in Locked(jobs[p := j]) <==> tid in Locked(jobs)
  {
    var r := jobs[p := j];
    if tid in Locked(jobs) {
      var q :| q in jobs && jobs[q].pc == Torn && jobs[q].tid == tid;
      assert r[q] == jobs[q];
    }
  }

  lemma SameStatesAfter(s: State, r: State, tid: string, t: Triplet)
    requires tid in s.tri && t.state == s.tri[tid].state && r.tri == s.tri[tid := t]
    ensures SameStates(s, r)
  {
  }

  lemma WriteFiles(s: State, p: nat, j: Job, t: Triplet, r: State)
    requires Files(s) && p in s.jobs && s.jobs[p].pc != Torn
    requires j.tid in s.tri && t.idx != "" && t.idx[0] == s.tri[j.tid].idx[0]
    requires TripletOk(t, j.tid in Locked(s.jobs[p := j]))
    requires r.tri == s.tri[j.tid := t] && r.jobs == s.jobs[p := j]
    requires r.large == s.large && r.used == s.used
    ensures Files(r)
  {
    hide TripletOk;
    forall tid | tid in r.tri
      ensures GoodId(tid) && tid in r.used && TripletOk(r.tri[tid], tid in Locked(r.jobs)) && r.tri[tid].idx != ""
      ensures r.tri[tid].idx[0] == STATE_LARGE <==> tid in r.large
    {
      if tid != j.tid {
        LockedOther(s.jobs, p, j, tid);
      }
    }
  }

  lemma WriteShape(c: Config, s: State, p: nat, j: Job, t: Triplet, r: State)
    requires Shape(c, s) && p in s.jobs && s.jobs[p].pc != Torn && !Early(s.jobs[p].pc) && !Early(j.pc)
    requires j.tid == s.jobs[p].tid && j.blobId == s.jobs[p].blobId && j.data == s.jobs[p].data
    requires t.state == s.tri[j.tid].state && t.idx != "" && t.idx[0] == s.tri[j.tid].idx[0]
    requires TripletOk(t, j.tid in Locked(s.jobs[p := j]))
    requires r.tri == s.tri[j.tid := t] && r.jobs == s.jobs[p := j]
    requires r.open == s.open && r.closed == s.closed && r.large == s.large && r.swap == s.swap
    requires r.evicted == s.evicted && r.used == s.used
    ensures Shape(c, r)
  {
    hide TripletOk;
    WriteFiles(s, p, j, t, r);
    SameStatesAfter(s, r, j.tid, t);
    DictsFrame(s, r);
    SwapFrame(s, r);
    hide IsLarge;
    JobsStep(c, s, r, p, j);
  }

  lemma BinPutOk(c: Config, t: Triplet, id: string, data: seq<byte>)
    requires TripletOk(t, false)
    ensures TripletOk(BinPut(c, t, id, data), false)
  {
  }

  lemma TearOk(c: Config, t: Triplet, id: string, data: seq<byte>, k: nat)
    requires TripletOk(t, false) && k <= |RecordFor(c, id, data)|
    ensures TripletOk(t.(bin := t.bin + RecordFor(c, id, data)[..k]), true)
  {
  }

  lemma AppendShape(c: Config, s: State, p: nat)
    requires Shape(c, s) && CanAppend(c, s, p)
    ensures Shape(c, DoAppend(c, s, p))
  {
    hide TripletOk;
    var j, r := s.jobs[p], DoAppend(c, s, p);
    LockedStep(s.jobs, p, r.jobs[p]);
    BinPutOk(c, s.tri[j.tid], j.blobId, j.data);
    WriteShape(c, s, p, r.jobs[p], r.tri[j.tid], r);
  }

  lemma TearShape(c: Config, s: State, p: nat, k: nat)
    requires Shape(c, s) && CanTear(c, s, p, k)
    ensures Shape(c, DoTear(c, s, p, k))
  {
    hide TripletOk;
    var j, r := s.jobs[p], DoTear(c, s, p, k);
    assert r.jobs[p].pc == Torn && j.tid in Locked(r.jobs);
    TearOk(c, s.tri[j.tid], j.blobId, j.data, k);
    WriteShape(c, s, p, r.jobs[p], r.tri[j.tid], r);
  }

  lemma EntryFits(c: Config, s: State, p: nat)
    requires Shape(c, s) && CanIndex(c, s, p)
    ensures Fits(JobEntry(c, s.jobs[p]))
  {
    var e := JobEntry(c, s.jobs[p]);
    IdFits(e.BlobId, e.Offset, e.Size);
  }

  lemma IndexShape(c: Config, s: State, p: nat)
    requires Shape(c, s) && CanIndex(c, s, p)
    ensures Shape(c, DoIndex(c, s, p))
  {
    hide TripletOk, AppendInPlace, Serialize, Padded, Printable, Fits, IsId, Payload;
    var j, r := s.jobs[p], DoIndex(c, s, p);
    LockedStep(s.jobs, p, r.jobs[p]);
    EntryFits(c, s, p);
    IdxPutOk(s.tri[j.tid], j.tid in Locked(s.jobs), JobEntry(c, j));
    WriteShape(c, s, p, r.jobs[p], r.tri[j.tid], r);
  }

  lemma ManifestShape(c: Config, s: State, p: nat)
    requires Shape(c, s) && CanManifest(s, p)
    ensures Shape(c, DoManifest(s, p))
  {
    hide TripletOk, MfPut, Dicts, Swapping;
    var j, r := s.jobs[p], DoManifest(s, p);
    LockedStep(s.jobs, p, r.jobs[p]);
    ActionIdFits(j.blobId, ACTION_PUT);
    MfPutOk(s.tri[j.tid], j.tid in Locked(s.jobs), MFEntry(j.blobId, ACTION_PUT, ""));
    WriteShape(c, s, p, r.jobs[p], r.tri[j.tid], r);
  }

  // ----- steps that create or drop jobs -----

  lemma JobOkFrame(c: Config, s: State, r: State, j: Job)
    requires JobOk(c, s, j) && r.evicted == s.evicted && s.used <= r.used && SameStates(s, r) && r.large == s.large
    ensures JobOk(c, r, j)
  {
  }

  lemma UsedBlob(c: Config, s: State, j: Job)
    requires JobOk(c, s, j)
    ensures j.blobId in s.used
  {
  }

  lemma CheckShape(c: Config, s: State, a: Action)
    requires Shape(c, s) && a.Check? && CanCheck(c, s, a)
    ensures Shape(c, DoCheck(s, a))
  {
    hide TripletOk;
    var r := DoCheck(s, a);
    LockedStep(s.jobs, a.p, r.jobs[a.p]);
    FilesFrame(s, r);
    DictsFrame(s, r);
    SwapFrame(s, r);
    assert JobOk(c, r, r.jobs[a.p]);
    hide Files, Dicts, Swapping, JobOk;
    forall q | q in s.jobs
      ensures JobOk(c, r, r.jobs[q]) && r.jobs[q].blobId in s.used
    {
      UsedBlob(c, s, s.jobs[q]);
      JobOkFrame(c, s, r, s.jobs[q]);
    }
  }

  lemma PlaceSmallShape(c: Config, s: State, p: nat, tid: string)
    requires Shape(c, s) && CanPlaceSmall(c, s, p, tid) && tid !in s.evicted
    ensures Shape(c, DoPlaceSmall(s, p, tid))
  {
    hide TripletOk;
    StepShape(c, s, p, s.jobs[p].(pc := Placed, tid := tid), s.total);
    assert DoPlaceSmall(s, p, tid) == SetJob(s, p, s.jobs[p].(pc := Placed, tid := tid)).(total := s.total);
  }

  lemma NotLocked(c: Config, s: State, tid: string)
    requires Jobs(c, s) && tid !in s.tri
    ensures tid !in Locked(s.jobs)
  {
    forall q | q in s.jobs && s.jobs[q].pc == Torn
      ensures s.jobs[q].tid != tid
    {
      assert JobOk(c, s, s.jobs[q]);
    }
  }

  /** A new triplet under an id nobody has used. */
  lemma FreshFiles(c: Config, s: State, r: State, tid: string, large: bool)
    requires Files(s) && Jobs(c, s) && GoodId(tid) && tid !in s.used
    requires r.tri == s.tri[tid := NewTriplet(large)] && r.used == s.used + {tid}
    requires r.large == if large then s.large + {tid} else s.large
    requires s.large <= s.tri.Keys && Locked(r.jobs) == Locked(s.jobs)
    ensures Files(r) && tid !in s.tri
  {
    hide NewTriplet, GoodId, JobOk;
    assert tid !in s.tri;
    NotLocked(c, s, tid);
    NewTripletOk(large);
  }

  /** A fresh large triplet changes nothing for a job that is elsewhere. */
  lemma JobSurvives(c: Config, s: State, r: State, j: Job, tid: string)
    requires JobOk(c, s, j) && tid !in s.tri && tid != ""
    requires r.tri == s.tri[tid := NewTriplet(true)] && r.large == s.large + {tid}
    requires r.evicted == s.evicted && s.used <= r.used
    ensures JobOk(c, r, j)
  {
    hide IsLarge, NewTriplet;
  }

  lemma PlaceLargeJobs(c: Config, s: State, p: nat, tid: string)
    requires Shape(c, s) && At(s, p, Reserved) && IsLarge(c, s.jobs[p]) && GoodId(tid) && tid !in s.used
    requires tid !in s.tri
    ensures Jobs(c, DoPlaceLarge(s, p, tid))
  {
    hide TripletOk, Files, Swapping, NewTriplet, JobOk, IsLarge;
    var r := DoPlaceLarge(s, p, tid);
    PlacedOk(c, s, r, p, tid);
    forall q | q in s.jobs && q != p
      ensures JobOk(c, r, r.jobs[q])
    {
      JobSurvives(c, s, r, s.jobs[q], tid);
    }
  }

  lemma PlacedOk(c: Config, s: State, r: State, p: nat, tid: string)
    requires At(s, p, Reserved) && JobOk(c, s, s.jobs[p]) && IsLarge(c, s.jobs[p]) && tid !in s.evicted
    requires r == DoPlaceLarge(s, p, tid)
    ensures JobOk(c, r, r.jobs[p])
  {
    assert IsLarge(c, r.jobs[p]) == IsLarge(c, s.jobs[p]);
    assert r.tri[tid] == NewTriplet(true);
    hide IsLarge, IndexFile, ManifestFile;
  }

  lemma PlaceLargeDicts(c: Config, s: State, r: State, p: nat, tid: string)
    requires Dicts(s) && Swapping(s) && p in s.jobs && tid !in s.used && tid !in s.tri
    requires r == DoPlaceLarge(s, p, tid)
    ensures Dicts(r) && Swapping(r)
  {
    hide IndexFile, ManifestFile;
  }

  lemma PlaceLargeShape(c: Config, s: State, p: nat, tid: string)
    requires Shape(c, s) && CanPlaceLarge(c, s, p, tid)
    ensures Shape(c, DoPlaceLarge(s, p, tid))
  {
    hide TripletOk;
    var r := DoPlaceLarge(s, p, tid);
    LockedStep(s.jobs, p, r.jobs[p]);
    FreshFiles(c, s, r, tid, true);
    PlaceLargeJobs(c, s, p, tid);
    PlaceLargeDicts(c, s, r, p, tid);
    hide Files, Jobs, Dicts, Swapping;
  }

  lemma LockedDrop(jobs: map<nat, Job>, p: nat)
    requires p in jobs && jobs[p].pc != Torn
    ensures Locked(jobs - {p}) == Locked(jobs)
  {
    var r := jobs - {p};
    assert forall q :: q in r ==> q in jobs && r[q] == jobs[q];
    assert forall q :: q in jobs && jobs[q].pc == Torn ==> q in r;
  }

  lemma JobsDrop(c: Config, s: State, r: State, p: nat)
    requires Jobs(c, s) && At(s, p, Returned) && r == s.(jobs := s.jobs - {p}, rows := r.rows)
    ensures Jobs(c, r) && Locked(r.jobs) == Locked(s.jobs)
  {
    LockedDrop(s.jobs, p);
    hide JobOk;
    forall q | q in r.jobs
      ensures JobOk(c, r, r.jobs[q])
    {
      JobOkFrame(c, s, r, s.jobs[q]);
    }
  }

  lemma CommitShape(c: Config, s: State, p: nat)
    requires Shape(c, s) && At(s, p, Returned)
    ensures Shape(c, DoCommit(c, s, p))
  {
    hide TripletOk;
    var r := DoCommit(c, s, p);
    assert r == s.(jobs := s.jobs - {p}, rows := r.rows);
    JobsDrop(c, s, r, p);
    FilesFrame(s, r);
    DictsFrame(s, r);
    SwapFrame(s, r);
  }

  // ----- eviction -----

  lemma EvictShape(c: Config, s: State, tid: string)
    requires Shape(c, s) && CanEvict(s, tid) && forall p :: p in s.jobs ==> s.jobs[p].tid != tid
    ensures Shape(c, DoEvict(s, tid))
  {
    hide TripletOk, IsLarge, Locked, GoodId;
    var r := DoEvict(s, tid);
    FilesFrame(s, r);
    assert forall p :: p in s.jobs ==> JobOk(c, r, r.jobs[p]);
  }

  lemma PurgeShape(c: Config, s: State, tid: string)
    requires Shape(c, s) && tid in s.evicted && tid !in s.open
    ensures Shape(c, DoPurge(s, tid))
  {
    hide TripletOk, GoodId, DiskSize, JobOk;
    var r := DoPurge(s, tid);
    assert forall t :: t in r.tri ==> t in s.tri && t != tid && r.tri[t] == s.tri[t];
    forall p | p in s.jobs
      ensures JobOk(c, r, s.jobs[p])
    {
      JobOffPurged(c, s, s.jobs[p], tid);
    }
  }

  lemma JobOffPurged(c: Config, s: State, j: Job, tid: string)
    requires JobOk(c, s, j) && tid in s.evicted
    ensures JobOk(c, DoPurge(s, tid), j)
  {
    hide DiskSize, GoodId, IsLarge;
  }

  // ----- hot swap -----

  lemma DistinctSnoc(xs: seq<string>, x: string)
    requires Distinct(xs) && x !in xs
    ensures Distinct(xs + [x])
  {
  }

  lemma SameNewsShape(c: Config, s: State, r: State)
    requires Shape(c, s) && s.swap.pc == Scan && !r.swap.owed
    requires r == s.(total := r.total, swap := s.swap.(pc := r.swap.pc, owed := false))
    requires r.swap.pc == Scan || (r.swap.pc == Publish && s.swap.closing != [])
    ensures Shape(c, r)
  {
    FilesFrame(s, r);
    DictsFrame(s, r);
    JobsFrame(c, s, r);
  }

  lemma SwapOpenDicts(s: State, r: State, tid: string, fresh_: string)
    requires Dicts(s) && Swapping(s) && s.swap.pc == Scan && !s.swap.owed
    requires tid in s.open && tid !in s.swap.closing && fresh_ !in s.used && fresh_ !in s.tri
    requires r == DoSwapOpen(s, tid, fresh_)
    ensures Dicts(r) && Swapping(r)
  {
    hide IndexFile, ManifestFile;
    DistinctSnoc(s.swap.closing, tid);
    DistinctSnoc(s.swap.news, fresh_);
    assert fresh_ in r.swap.news by { assert r.swap.news[|s.swap.news|] == fresh_; }
    assert forall n :: n in s.swap.news ==> n in r.swap.news;
  }

  lemma SwapOpenShape(c: Config, s: State, tid: string, fresh_: string)
    requires Shape(c, s) && CanSwapOpen(c, s, tid, fresh_)
    ensures Shape(c, DoSwapOpen(s, tid, fresh_))
  {
    hide TripletOk, IsLarge, Locked, IsId;
    var r := DoSwapOpen(s, tid, fresh_);
    FreshFiles(c, s, r, fresh_, false);
    assert forall p :: p in s.jobs ==> JobOk(c, r, r.jobs[p]);
    SwapOpenDicts(s, r, tid, fresh_);
    hide Files, Dicts, Swapping;
  }

  lemma SwapPublishShape(c: Config, s: State)
    requires Shape(c, s) && s.swap.pc == Publish && s.swap.news != []
    ensures Shape(c, DoSwapPublish(s))
  {
    hide TripletOk;
    var r, n := DoSwapPublish(s), s.swap.news;
    FilesFrame(s, r);
    JobsFrame(c, s, r);
    assert forall x :: x in n ==> x == n[0] || x in n[1..];
    assert forall i :: 0 <= i < |n| - 1 ==> n[1..][i] == n[i + 1];
  }

  lemma SwapCloseShape(c: Config, s: State)
    requires Shape(c, s) && s.swap.pc == Publish && s.swap.news == [] && s.swap.closing != []
    ensures Shape(c, DoSwapClose(s))
  {
    hide TripletOk;
    var r := DoSwapClose(s);
    FilesFrame(s, r);
    JobsFrame(c, s, r);
  }

  lemma MarkOk(t: Triplet, torn: bool)
    requires TripletOk(t, torn)
    ensures TripletOk(t.(idx := t.idx[0 := STATE_CLOSED]), torn)
  {
    CloseMarksState(t.idx[0], t.entries);
  }

  lemma SwapMarkFiles(s: State, r: State, tid: string)
    requires Files(s) && tid in s.tri && tid !in s.large
    requires r.tri == s.tri[tid := s.tri[tid].(idx := s.tri[tid].idx[0 := STATE_CLOSED])]
    requires r.large == s.large && r.used == s.used && r.jobs == s.jobs
    ensures Files(r)
  {
    hide TripletOk, GoodId;
    MarkOk(s.tri[tid], tid in Locked(s.jobs));
    forall x | x in s.tri && x != tid
      ensures TripletOk(r.tri[x], x in Locked(r.jobs)) && (r.tri[x].idx[0] == STATE_LARGE <==> x in r.large)
    {
      assert r.tri[x] == s.tri[x];
    }
  }

  lemma SwapMarkShape(c: Config, s: State)
    requires Shape(c, s) && CanSwapMark(s)
    ensures Shape(c, DoSwapMark(s))
  {
    hide TripletOk, IsLarge, Locked, GoodId;
    var r, tid := DoSwapMark(s), s.swap.closing[0];
    var t := s.tri[tid];
    assert tid in s.open && t.state != STATE_CLOSED && tid !in s.large;
    SwapMarkFiles(s, r, tid);
    SameStatesAfter(s, r, tid, r.tri[tid]);
    DictsFrame(s, r);
    JobsFrame(c, s, r);
  }

  lemma SwapDropShape(c: Config, s: State)
    requires Shape(c, s) && s.swap.pc == Drop && s.swap.closing != []
    ensures Shape(c, DoSwapDrop(s))
  {
    hide TripletOk;
    var r, w := DoSwapDrop(s), s.swap.closing;
    FilesFrame(s, r);
    JobsFrame(c, s, r);
    assert forall i :: 0 <= i < |w| - 1 ==> w[1..][i] == w[i + 1];
  }

  // ----- restart -----

  /** Every triplet survives reloading, so a restart never panics. */
  lemma Reloads(s: State)
    requires Files(s)
    ensures AllReload(s)
    ensures forall tid :: tid in Kept(s) ==>
      && TripletOk(Reloaded(s)[tid], false) && Reloaded(s)[tid].state == Reloaded(s)[tid].idx[0]
  {
    forall tid | tid in Kept(s)
      ensures Reload(s.tri[tid]).Some? && TripletOk(Reload(s.tri[tid]).value, false)
      ensures Reload(s.tri[tid]).value.state == Reload(s.tri[tid]).value.idx[0]
    {
      ReloadOk(s.tri[tid], tid in Locked(s.jobs));
    }
    hide TripletOk, Reload;
  }

  lemma StateKnown(t: Triplet, torn: bool)
    requires TripletOk(t, torn)
    ensures t.idx != "" && (t.idx[0] == STATE_OPEN || t.idx[0] == STATE_CLOSED || t.idx[0] == STATE_LARGE)
  {
  }

  lemma RebootedTriplets(s: State)
    requires Files(s) && AllReload(s) && Owners(s.rows) <= s.tri.Keys
    ensures Rebooted(s).tri == Reloaded(s)
  {
    hide TripletOk, Reload;
    assert Recreated(s).Keys == {};
    assert Recreated(s) == map[];
  }

  lemma RebootFiles(s: State)
    requires Files(s) && AllReload(s) && Owners(s.rows) <= s.tri.Keys
    ensures Files(Rebooted(s))
    ensures forall tid :: tid in Rebooted(s).tri ==>
      var state := Rebooted(s).tri[tid].state; state == STATE_OPEN || state == STATE_CLOSED || state == STATE_LARGE
  {
    hide TripletOk, Reload, GoodId;
    var r := Rebooted(s);
    RebootedTriplets(s);
    Reloads(s);
    assert Locked(r.jobs) == {};
    forall tid | tid in r.tri
      ensures GoodId(tid) && tid in r.used && TripletOk(r.tri[tid], tid in Locked(r.jobs)) && r.tri[tid].idx != ""
      ensures r.tri[tid].state == r.tri[tid].idx[0]
      ensures r.tri[tid].state == STATE_OPEN || r.tri[tid].state == STATE_CLOSED || r.tri[tid].state == STATE_LARGE
    {
      StateKnown(r.tri[tid], false);
    }
  }

  /** Dictionaries filled by state are disjoint and complete. */
  lemma SortedByState(c: Config, r: State)
    requires forall tid :: tid in r.tri ==>
      var state := r.tri[tid].state; state == STATE_OPEN || state == STATE_CLOSED || state == STATE_LARGE
    requires r.open == InState(r.tri, STATE_OPEN) && r.closed == InState(r.tri, STATE_CLOSED)
    requires r.large == InState(r.tri, STATE_LARGE)
    requires r.jobs == map[] && r.evicted == {} && r.swap == Swap(Scan, [], [], false)
    ensures Dicts(r) && Jobs(c, r) && Swapping(r)
  {
  }

  lemma RebootShape(c: Config, s: State)
    requires Shape(c, s) && AllReload(s) && Owners(s.rows) <= s.tri.Keys
    ensures Shape(c, Rebooted(s))
  {
    hide Files, Dicts, Jobs, Swapping, Reloaded, Recreated, InState;
    RebootFiles(s);
    SortedByState(c, Rebooted(s));
  }

  lemma OpenFirstDicts(s: State, r: State, fresh_: string, t: Triplet)
    requires Dicts(s) && s.evicted == {} && s.swap.news == [] && s.open == {} && fresh_ !in s.tri
    requires r.tri == s.tri[fresh_ := t] && t.state != STATE_CLOSED
    requires r.open == {fresh_} && r.closed == s.closed && r.large == s.large && r.evicted == s.evicted
    requires r.swap == s.swap && s.used <= r.used
    ensures Dicts(r)
  {
  }

  lemma OpenFirstShape(c: Config, s: State, fresh_: string)
    requires Shape(c, s) && s.jobs == map[] && s.evicted == {} && s.swap == Swap(Scan, [], [], false)
    requires GoodId(fresh_) && fresh_ !in s.used
    ensures Shape(c, OpenFirst(s, fresh_))
  {
    hide TripletOk, GoodId;
    var r := OpenFirst(s, fresh_);
    if s.open == {} {
      FreshFiles(c, s, r, fresh_, false);
      OpenFirstDicts(s, r, fresh_, NewTriplet(false));
      hide Files, Dicts, NewTriplet;
    }
  }

  lemma RestartShape(c: Config, s: State, fresh_: string)
    requires Shape(c, s) && AllReload(s) && Owners(s.rows) <= s.tri.Keys && GoodId(fresh_) && fresh_ !in s.used
    ensures Shape(c, DoRestart(s, fresh_))
  {
    hide TripletOk, Reload, GoodId;
    RebootShape(c, s);
    OpenFirstShape(c, Rebooted(s), fresh_);
  }

  // ----- every step -----

  lemma JobStepShape(c: Config, s: State, a: Action)
    requires Shape(c, s) && StepJob(c, s, a).Some? && Careful(s, a)
    ensures Shape(c, StepJob(c, s, a).value)
  {
    hide Shape, CanCheck, CanAppend, CanIndex, CanManifest, DoAppend, DoTear, DoIndex, DoManifest, DoCommit,
      DoPlaceLarge,
      CanPlaceLarge, DoPlaceSmall, CanPlaceSmall, DoCheck;
    match a
    case Check(_, _, _, _) => CheckShape(c, s, a);
    case Reserve(p) => ReserveShape(c, s, p);
    case PlaceSmall(p, tid) => PlaceSmallShape(c, s, p, tid);
    case PlaceLarge(p, tid) => PlaceLargeShape(c, s, p, tid);
    case Append(p) => AppendShape(c, s, p);
    case Tear(p, k) => TearShape(c, s, p, k);
    case Index(p) => IndexShape(c, s, p);
    case Manifest(p) => ManifestShape(c, s, p);
    case Settle(p) => SettleShape(c, s, p);
    case Release(p) => ReleaseShape(c, s, p);
    case Commit(p) => CommitShape(c, s, p);
  }

  lemma OwedScans(c: Config, s: State)
    requires Shape(c, s) && s.swap.owed
    ensures s.swap.pc == Scan
  {
    hide Files, Dicts, Jobs;
  }

  lemma SwapStepShape(c: Config, s: State, a: Action)
    requires Shape(c, s) && StepSwap(c, s, a).Some?
    ensures Shape(c, StepSwap(c, s, a).value)
  {
    hide Shape, CanSwapOpen, CanSwapMark, DoSwapOpen, DoSwapPublish, DoSwapClose, DoSwapMark, DoSwapDrop;
    var r := StepSwap(c, s, a).value;
    match a
    case SwapOpen(tid, fresh_) => SwapOpenShape(c, s, tid, fresh_);
    case SwapAccount =>
      OwedScans(c, s);
      SameNewsShape(c, s, r);
    case SwapScanned => SameNewsShape(c, s, r);
    case SwapPublish => SwapPublishShape(c, s);
    case SwapClose => SwapCloseShape(c, s);
    case SwapMark => SwapMarkShape(c, s);
    case SwapDrop => SwapDropShape(c, s);
  }

  lemma StepKeepsShape(c: Config, s: State, a: Action)
    requires Shape(c, s) && Step(c, s, a).Some? && Owners(s.rows) <= s.tri.Keys
    ensures Shape(c, Step(c, s, a).value)
  {
    hide Shape, StepJob, StepSwap, DoRestart, DoPurge, DoEvict, CanEvict, GoodId, AllReload;
    var r := Step(c, s, a).value;
    match a
    case Evict(tid) => EvictShape(c, s, tid);
    case Purge(tid) => PurgeShape(c, s, tid);
    case Restart(fresh_) => RestartShape(c, s, fresh_);
    case Miss(_) => SameCoreShape(c, s, r);
    case Outdate(_, _, _) => SameCoreShape(c, s, r);
    case Rollback(_) => SameCoreShape(c, s, r);
    case PayDebt(_) => SameCoreShape(c, s, r);
    case ReadOpen(_, _, _) => SameCoreShape(c, s, r);
    case ReadClosed(_) => SameCoreShape(c, s, r);
    case SwapOpen(_, _) | SwapAccount | SwapScanned | SwapPublish | SwapClose | SwapMark | SwapDrop =>
      SwapStepShape(c, s, a);
    case _ => JobStepShape(c, s, a);
  }
}
