/** Runs of the code whatever their timing, from the first start: which of them ever leave a ready row on a triplet that
    is queued for purging. */
module SystemTiming {
  import opened Bytes
  import opened BlobIndex
  import opened Tokens
  import opened CacheSystem
  import opened SystemShape
  import opened SystemEviction

  /** A commit that comes too late: its triplet is queued for purging, and its file still has a row. */
  predicate Late(s: State, a: Action) {
    a.Commit? && a.p in s.jobs && s.jobs[a.p].tid in s.evicted && s.jobs[a.p].fid in s.rows
  }

  // ----- what the code keeps whatever its timing -----

  /** The triplets there are or were, as far as they are not lost to a restart. */
  function Seen(s: State): set<string> {
    s.tri.Keys + s.evicted
  }

  predicate JobKnown(s: State, j: Job) {
    GoodId(j.blobId) && (Early(j.pc) || j.tid in Seen(s))
  }

  /** Whatever is listed, being swapped or written to is on disk or queued for purging, and all ids are good ids. */
  predicate Known(s: State) {
    && Seen(s) <= s.used && (forall u :: u in s.used ==> GoodId(u))
    && s.open + s.closed + s.large <= Seen(s)
    && (forall i :: 0 <= i < |s.swap.closing| ==> s.swap.closing[i] in Seen(s))
    && (forall i :: 0 <= i < |s.swap.news| ==> s.swap.news[i] in Seen(s))
    && (forall p :: p in s.jobs ==> JobKnown(s, s.jobs[p]))
    && (forall f :: f in s.rows && s.rows[f].ready ==> s.rows[f].owners in s.used)
  }

  /** The triplet of every ready row is on disk. */
  predicate RowsLive(s: State) {
    forall f :: f in s.rows && s.rows[f].ready ==> s.rows[f].owners in s.tri
  }

  lemma InitKnown(first: string)
    requires GoodId(first)
    ensures Known(Init(first)) && !Dangling(Init(first)) && RowsLive(Init(first))
  {
  }

  /** Triplets stay, rows stay, ids are only added; at most worker `p` is new or moved. */
  lemma KnownFrame(s: State, r: State, p: nat)
    requires Known(s) && Seen(s) <= Seen(r) <= r.used && s.used <= r.used
    requires forall u :: u in r.used ==> GoodId(u)
    requires r.open + r.closed + r.large <= Seen(r) && r.rows == s.rows
    requires forall i :: 0 <= i < |r.swap.closing| ==> r.swap.closing[i] in Seen(r)
    requires forall i :: 0 <= i < |r.swap.news| ==> r.swap.news[i] in Seen(r)
    requires forall q :: q in r.jobs && q != p ==> q in s.jobs && r.jobs[q] == s.jobs[q]
    requires p in r.jobs ==> JobKnown(r, r.jobs[p])
    ensures Known(r)
  {
    hide GoodId, Early;
  }

  lemma WriteKnown(c: Config, s: State, a: Action)
    requires Known(s) && StepJob(c, s, a).Some? && (a.Append? || a.Tear? || a.Index? || a.Manifest?)
    ensures Known(StepJob(c, s, a).value)
    ensures s.tri.Keys <= StepJob(c, s, a).value.tri.Keys
  {
    hide GoodId, Locked, BinPut, IdxPut, MfPut, Payload, RecordFor, Printable, JobEntry, IdxGrowth, MfGrowth, Known;
    var r := StepJob(c, s, a).value;
    assert r.tri.Keys == s.tri.Keys && r.jobs[a.p].tid == s.jobs[a.p].tid by {
      assert s.jobs[a.p].tid in s.tri;
    }
    assert Seen(s) == Seen(r);
    KnownWrite(s, r, a.p);
  }

  lemma KnownWrite(s: State, r: State, p: nat)
    requires Known(s) && r.tri.Keys == s.tri.Keys && r.evicted == s.evicted && r.used == s.used && r.rows == s.rows
    requires r.open == s.open && r.closed == s.closed && r.large == s.large && r.swap == s.swap
    requires p in s.jobs && r.jobs.Keys == s.jobs.Keys && forall q :: q in s.jobs && q != p ==> r.jobs[q] == s.jobs[q]
    requires r.jobs[p].tid == s.jobs[p].tid && r.jobs[p].blobId == s.jobs[p].blobId
    requires Early(s.jobs[p].pc) ==> Early(r.jobs[p].pc)
    ensures Known(r)
  {
    hide GoodId;
    assert JobKnown(s, s.jobs[p]);
    KnownFrame(s, r, p);
  }

  lemma PlaceKnown(c: Config, s: State, a: Action)
    requires Known(s) && StepJob(c, s, a).Some? && (a.Check? || a.PlaceSmall? || a.PlaceLarge?)
    ensures Known(StepJob(c, s, a).value) && s.tri.Keys <= StepJob(c, s, a).value.tri.Keys
  {
    hide IsLarge, NewTriplet, MaxAlloc, CanAppend, CanTear, CanIndex, CanManifest, DoAppend, DoTear, DoIndex,
      DoManifest, DoCommit, DoReserve, DoSettle, DoRelease, IsId;
    KnownFrame(s, StepJob(c, s, a).value, a.p);
  }

  lemma TotalKnown(c: Config, s: State, a: Action)
    requires Known(s) && StepJob(c, s, a).Some? && (a.Reserve? || a.Settle? || a.Release?)
    ensures Known(StepJob(c, s, a).value) && s.tri.Keys <= StepJob(c, s, a).value.tri.Keys
  {
    hide MaxAlloc, CanCheck, CanPlaceSmall, CanPlaceLarge, CanAppend, CanTear, CanIndex, CanManifest, DoAppend, DoTear,
      DoIndex, DoManifest, DoCommit, DoCheck, DoPlaceSmall, DoPlaceLarge, GoodId, Known;
    KnownWrite(s, StepJob(c, s, a).value, a.p);
  }

  lemma JobKnownStep(c: Config, s: State, a: Action)
    requires Known(s) && StepJob(c, s, a).Some? && Bystander(a)
    ensures Known(StepJob(c, s, a).value) && s.tri.Keys <= StepJob(c, s, a).value.tri.Keys
  {
    hide CanCheck, CanPlaceSmall, CanPlaceLarge, CanAppend, CanTear, CanIndex, CanManifest, DoAppend, DoTear, DoIndex,
      DoManifest, DoCommit, DoCheck, DoReserve, DoSettle, DoRelease, DoPlaceSmall, DoPlaceLarge, At, Known;
    match a
    case Append(_) => WriteKnown(c, s, a);
    case Tear(_, _) => WriteKnown(c, s, a);
    case Index(_) => WriteKnown(c, s, a);
    case Manifest(_) => WriteKnown(c, s, a);
    case Check(_, _, _, _) => PlaceKnown(c, s, a);
    case PlaceSmall(_, _) => PlaceKnown(c, s, a);
    case PlaceLarge(_, _) => PlaceKnown(c, s, a);
    case Reserve(_) => TotalKnown(c, s, a);
    case Settle(_) => TotalKnown(c, s, a);
    case Release(_) => TotalKnown(c, s, a);
  }

  lemma SwapKnown(c: Config, s: State, a: Action)
    requires Known(s) && StepSwap(c, s, a).Some?
    ensures Known(StepSwap(c, s, a).value) && s.tri.Keys <= StepSwap(c, s, a).value.tri.Keys
  {
    hide GoodId, NewTriplet, Early;
  }

  lemma SameDangling(s: State, r: State)
    requires r.rows == s.rows && r.evicted == s.evicted && s.tri.Keys <= r.tri.Keys
    ensures (Dangling(s) <==> Dangling(r)) && (RowsLive(s) ==> RowsLive(r))
  {
  }

  lemma BystanderKnown(c: Config, s: State, a: Action)
    requires Known(s) && CodeStep(c, s, a).Some? && Bystander(a)
    ensures Known(CodeStep(c, s, a).value) && s.tri.Keys <= CodeStep(c, s, a).value.tri.Keys
  {
    hide StepJob, StepSwap, CanEvict, DoRestart, DoPurge, GoodId, Early;
    match a
    case PayDebt(_) => case ReadOpen(_, _, _) => case ReadClosed(_) =>
    case SwapOpen(_, _) | SwapAccount | SwapScanned | SwapPublish | SwapClose | SwapMark | SwapDrop =>
      SwapKnown(c, s, a);
    case _ => JobKnownStep(c, s, a);
  }

  /** The owner that a commit writes is the triplet that the worker wrote to. */
  lemma CommitsOwner(c: Config, s: State, p: nat)
    requires Known(s) && At(s, p, Returned)
    ensures GetTripletIdFromToken(JobToken(c, s.jobs[p])) == Some(s.jobs[p].tid) && s.jobs[p].tid in Seen(s)
  {
    hide GetTripletIdFromToken, PutToken, IsId, IsLarge;
    var j := s.jobs[p];
    assert JobKnown(s, j);
    TripletIdComesBack(IsLarge(c, j), j.tid, j.blobId);
  }

  lemma CommitKnown(c: Config, s: State, p: nat)
    requires Known(s) && At(s, p, Returned)
    ensures Known(DoCommit(c, s, p))
    ensures !Dangling(s) ==> (Dangling(DoCommit(c, s, p)) <==> Late(s, Commit(p)))
    ensures RowsLive(s) && !Late(s, Commit(p)) ==> RowsLive(DoCommit(c, s, p))
  {
    hide GetTripletIdFromToken, JobToken, GoodId, Early;
    CommitsOwner(c, s, p);
    var j, r := s.jobs[p], DoCommit(c, s, p);
    if j.fid in s.rows {
      assert r.rows[j.fid].ready && r.rows[j.fid].owners == j.tid;
    }
  }

  lemma RestartKnown(s: State, fresh_: string)
    requires Known(s) && AllReload(s) && GoodId(fresh_)
    ensures Known(DoRestart(s, fresh_)) && !Dangling(DoRestart(s, fresh_)) && RowsLive(DoRestart(s, fresh_))
  {
    hide Known, GoodId, Rebooted, NewTriplet;
    RebootKnown(s);
    var b := Rebooted(s);
    if b.open == {} {
      KnownOpened(b, fresh_);
    }
  }

  lemma RebootKnown(s: State)
    requires Known(s) && AllReload(s)
    ensures Known(Rebooted(s)) && !Dangling(Rebooted(s)) && RowsLive(Rebooted(s))
  {
    hide GoodId, Reload, NewTriplet, Early, JobKnown;
  }

  lemma KnownOpened(s: State, fresh_: string)
    requires Known(s) && GoodId(fresh_) && s.open == {}
    ensures Known(OpenFirst(s, fresh_))
  {
    hide GoodId, NewTriplet, Early;
  }

  lemma EvictKnown(s: State, tid: string)
    requires Known(s) && tid in s.closed + s.large
    ensures var r := DoEvict(s, tid);
            Known(r) && (!Dangling(s) ==> !Dangling(r)) && (RowsLive(s) ==> RowsLive(r))
  {
    hide GoodId, Early;
  }

  lemma PurgeKnown(s: State, tid: string)
    requires Known(s) && tid in s.evicted
    ensures var r := DoPurge(s, tid);
            Known(r) && (!Dangling(s) ==> !Dangling(r)) && (!Dangling(s) && RowsLive(s) ==> RowsLive(r))
  {
    hide GoodId, Early, DiskSize;
  }

  lemma FewerReady(s: State, r: State)
    requires Known(s) && r == s.(rows := r.rows)
    requires forall f :: f in r.rows && r.rows[f].ready ==> f in s.rows && r.rows[f] == s.rows[f]
    ensures Known(r) && (!Dangling(s) ==> !Dangling(r)) && (RowsLive(s) ==> RowsLive(r))
  {
    hide GoodId, Early;
  }

  /** Misses, changed etags, rollbacks, evictions and purges. */
  lemma RowStepKnown(c: Config, s: State, a: Action)
    requires Known(s) && CodeStep(c, s, a).Some? && !Bystander(a) && !a.Commit? && !a.Restart?
    ensures var r := CodeStep(c, s, a).value;
            Known(r) && (!Dangling(s) ==> !Dangling(r)) && (!Dangling(s) && RowsLive(s) ==> RowsLive(r))
  {
    hide StepJob, StepSwap, DoRestart, DoEvict, DoPurge, GoodId, Known, Dangling, RowsLive;
    var r := CodeStep(c, s, a).value;
    match a
    case Evict(tid) => EvictKnown(s, tid);
    case Purge(tid) => PurgeKnown(s, tid);
    case Miss(_) => FewerReady(s, r);
    case Outdate(_, _, _) => FewerReady(s, r);
    case Rollback(_) => FewerReady(s, r);
  }

  /** One step of the code: what was known stays known; from a state in which no ready row dangles it leads to one in
      which some does exactly when it is a commit that comes too late; and otherwise the triplets of all ready rows stay
      on disk. */
  lemma DanglingExactly(c: Config, s: State, a: Action)
    requires Known(s) && CodeStep(c, s, a).Some?
    ensures var r := CodeStep(c, s, a).value;
            && Known(r)
            && (!Dangling(s) ==> (Dangling(r) <==> Late(s, a)))
            && (!Dangling(s) && RowsLive(s) && !Late(s, a) ==> RowsLive(r))
  {
    hide Known, Dangling, RowsLive, StepSwap, DoRestart, DoPurge, DoEvict, DoOutdate, DoRollback, DoCommit, CanEvict,
      GoodId, AllReload;
    if a.Commit? {
      CommitKnown(c, s, a.p);
    } else if a.Restart? {
      RestartKnown(s, a.new_);
    } else if Bystander(a) {
      BystanderKnown(c, s, a);
      CodeBlind(c, s, s, a);
      SameDangling(s, CodeStep(c, s, a).value);
    } else {
      RowStepKnown(c, s, a);
    }
  }

  // ----- how rows come and go -----

  /** A row disappears exactly when it is pending and rolled back or left behind by a start, or when its triplet is
      evicted; it appears only by a miss, pending and without an owner; and it changes only by a commit of its file,
      which makes it ready, or by a changed etag, which makes it pending and keeps its owner. */
  lemma RowChanges(c: Config, s: State, a: Action, f: string)
    requires Known(s) && CodeStep(c, s, a).Some?
    ensures var r := CodeStep(c, s, a).value;
            && (f in s.rows ==>
                  (f !in r.rows <==> (a == Rollback(f) && !s.rows[f].ready) || (a.Restart? && !s.rows[f].ready)
                                     || a == Evict(s.rows[f].owners)))
            && (f in r.rows && f !in s.rows ==> a == Miss(f) && r.rows[f] == Row(false, "", "", 0))
            && (f in s.rows && f in r.rows && r.rows[f] != s.rows[f] ==>
                  || (a.Commit? && a.p in s.jobs && s.jobs[a.p].fid == f
                      && r.rows[f].ready && r.rows[f].owners == s.jobs[a.p].tid)
                  || (a.Outdate? && a.fid == f
                      && r.rows[f] == Row(false, s.rows[f].owners, a.token, a.size)))
  {
    hide Known, StepSwap, StepJob, GoodId, GetTripletIdFromToken, JobToken, DiskSize, Reloaded, Recreated, CanEvict,
      AllReload, InState;
    if Bystander(a) {
      CodeBlind(c, s, s, a);
    } else if a.Commit? {
      CommitRowAt(c, s, a.p, f);
    }
  }

  lemma CommitRowAt(c: Config, s: State, p: nat, f: string)
    requires Known(s) && CodeStep(c, s, Commit(p)).Some?
    ensures var r := CodeStep(c, s, Commit(p)).value;
            && p in s.jobs && r.rows.Keys == s.rows.Keys
            && (f in s.rows ==>
                  if s.jobs[p].fid == f then r.rows[f].ready && r.rows[f].owners == s.jobs[p].tid
                  else r.rows[f] == s.rows[f])
  {
    hide Known, GetTripletIdFromToken, JobToken, GoodId;
    CommitsOwner(c, s, p);
  }

  // ----- runs -----

  /** No commit of the run comes too late. */
  ghost predicate NeverLate(c: Config, s: State, acts: seq<Action>)
    decreases |acts|
  {
    acts == [] ||
    var n := |acts| - 1;
    && NeverLate(c, s, acts[..n])
    && (CodeRun(c, s, acts[..n]).Some? ==> !Late(CodeRun(c, s, acts[..n]).value, acts[n]))
  }

  /** At no moment of the run does a ready row dangle. */
  ghost predicate NeverDangling(c: Config, s: State, acts: seq<Action>)
    decreases |acts|
  {
    && (acts == [] || NeverDangling(c, s, acts[..|acts| - 1]))
    && (CodeRun(c, s, acts).Some? ==> !Dangling(CodeRun(c, s, acts).value))
  }

  lemma {:induction false} RunExactly(c: Config, s: State, acts: seq<Action>)
    requires Known(s) && !Dangling(s) && RowsLive(s) && CodeRun(c, s, acts).Some?
    ensures Known(CodeRun(c, s, acts).value)
    ensures NeverDangling(c, s, acts) <==> NeverLate(c, s, acts)
    ensures NeverLate(c, s, acts) ==> !Dangling(CodeRun(c, s, acts).value) && RowsLive(CodeRun(c, s, acts).value)
    decreases |acts|
  {
    hide Known, Dangling, RowsLive, Late, CodeStep;
    if acts != [] {
      var n := |acts| - 1;
      RunExactly(c, s, acts[..n]);
      DanglingExactly(c, CodeRun(c, s, acts[..n]).value, acts[n]);
    }
  }

  /** Over every run of the code from the first start, with nothing assumed of its timing: no ready row ever dangles
      exactly when no commit is to a triplet queued for purging with a row still there for the file; and then the
      triplet of every ready row is on disk. */
  lemma CodeRowsExactly(c: Config, first: string, acts: seq<Action>)
    requires GoodId(first) && CodeRun(c, Init(first), acts).Some?
    ensures NeverDangling(c, Init(first), acts) <==> NeverLate(c, Init(first), acts)
    ensures NeverLate(c, Init(first), acts) ==> RowsLive(CodeRun(c, Init(first), acts).value)
  {
    hide Known, Dangling, RowsLive, CodeRun, NeverLate, NeverDangling, GoodId;
    InitKnown(first);
    RunExactly(c, Init(first), acts);
  }
}
