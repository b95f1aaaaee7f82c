/** What becomes of a blob: through every run, crashes and restarts included, it keeps its bytes exactly until its
    triplet is purged or a restart finds no row for it; and what is lost, or was never indexed, is never read. */
module SystemDurability {
  import opened Bytes
  import opened BlobIndex
  import opened Tokens
  import opened CacheSystem
  import opened SystemShape
  import opened SystemStore
  import opened SystemSwap
  import opened SystemRows
  import opened SystemRuns
  import SystemBudget

  // ----- lost for good -----

  /** Nothing is stored under the key, its blob id was handed out, and no worker has it any more. */
  predicate Gone(s: State, k: (string, string)) {
    k !in s.blobs && k.1 in s.used && forall p :: p in s.jobs ==> s.jobs[p].blobId != k.1
  }

  /** A step brings in neither ids nor blobs other than those of its worker `p`. */
  lemma GoneFrame(s: State, r: State, k: (string, string), p: nat)
    requires Gone(s, k) && s.used <= r.used
    requires forall q :: q in r.jobs ==>
               r.jobs[q].blobId !in s.used || (q in s.jobs && r.jobs[q].blobId == s.jobs[q].blobId)
    requires k in r.blobs ==> k in s.blobs || (p in s.jobs && s.jobs[p].blobId == k.1)
    ensures Gone(r, k)
  {
  }

  lemma WriteGone(c: Config, s: State, a: Action, k: (string, string))
    requires Gone(s, k) && StepJob(c, s, a).Some? && (a.Append? || a.Tear? || a.Index? || a.Manifest?)
    ensures Gone(StepJob(c, s, a).value, k)
  {
    hide GoodId, Locked, BinPut, IdxPut, MfPut, Payload, RecordFor, Printable, JobEntry, Gone;
    GoneFrame(s, StepJob(c, s, a).value, k, a.p);
  }

  lemma JobStepGone(c: Config, s: State, a: Action, k: (string, string))
    requires Gone(s, k) && StepJob(c, s, a).Some?
    ensures Gone(StepJob(c, s, a).value, k)
  {
    hide GoodId, Locked, JobToken, MaxAlloc, NewTriplet, IsLarge, CanAppend, CanIndex, CanManifest, DoAppend, DoTear,
      DoIndex, DoManifest, Gone;
    var r := StepJob(c, s, a).value;
    match a
    case Append(_) => WriteGone(c, s, a, k);
    case Tear(_, _) => WriteGone(c, s, a, k);
    case Index(_) => WriteGone(c, s, a, k);
    case Manifest(_) => WriteGone(c, s, a, k);
    case Check(p, _, _, _) => GoneFrame(s, r, k, p);
    case Reserve(p) => GoneFrame(s, r, k, p);
    case PlaceSmall(p, _) => GoneFrame(s, r, k, p);
    case PlaceLarge(p, _) => GoneFrame(s, r, k, p);
    case Settle(p) => GoneFrame(s, r, k, p);
    case Release(p) => GoneFrame(s, r, k, p);
    case Commit(p) => GoneFrame(s, r, k, p);
  }

  lemma SwapStepGone(c: Config, s: State, a: Action, k: (string, string))
    requires Gone(s, k) && StepSwap(c, s, a).Some?
    ensures Gone(StepSwap(c, s, a).value, k)
  {
    hide GoodId, NewTriplet, Gone;
    GoneFrame(s, StepSwap(c, s, a).value, k, 0);
  }

  lemma RestartGone(s: State, fresh_: string, k: (string, string))
    requires Gone(s, k) && AllReload(s)
    ensures Gone(DoRestart(s, fresh_), k)
  {
    hide NewTriplet, Reload, Owners, ReadyRows, InState, Gone;
    GoneFrame(s, DoRestart(s, fresh_), k, 0);
  }

  lemma PurgeGone(s: State, tid: string, k: (string, string))
    requires Gone(s, k)
    ensures Gone(DoPurge(s, tid), k)
  {
    hide DiskSize, Gone;
    GoneFrame(s, DoPurge(s, tid), k, 0);
  }

  lemma StepKeepsGone(c: Config, s: State, a: Action, k: (string, string))
    requires Gone(s, k) && Step(c, s, a).Some?
    ensures Gone(Step(c, s, a).value, k)
  {
    hide StepJob, StepSwap, GoodId, CanEvict, DoRestart, DoPurge, Gone;
    var r := Step(c, s, a).value;
    match a
    case Restart(fresh_) => RestartGone(s, fresh_, k);
    case Purge(tid) => PurgeGone(s, tid, k);
    case Evict(_) => GoneFrame(s, r, k, 0);
    case PayDebt(_) => GoneFrame(s, r, k, 0);
    case Miss(_) => GoneFrame(s, r, k, 0);
    case Outdate(_, _, _) => GoneFrame(s, r, k, 0);
    case Rollback(_) => GoneFrame(s, r, k, 0);
    case ReadOpen(_, _, _) => GoneFrame(s, r, k, 0);
    case ReadClosed(_) => GoneFrame(s, r, k, 0);
    case SwapOpen(_, _) | SwapAccount | SwapScanned | SwapPublish | SwapClose | SwapMark | SwapDrop =>
      SwapStepGone(c, s, a, k);
    case _ => JobStepGone(c, s, a, k);
  }

  lemma {:induction false} RunKeepsGone(c: Config, s: State, more: seq<Action>, k: (string, string))
    requires Gone(s, k) && Run(c, s, more).Some?
    ensures Gone(Run(c, s, more).value, k)
    decreases |more|
  {
    hide Step, Gone;
    if more != [] {
      var n := |more| - 1;
      RunKeepsGone(c, s, more[..n], k);
      StepKeepsGone(c, Run(c, s, more[..n]).value, more[n], k);
    }
  }

  lemma {:induction false} RunFromInv(c: Config, s: State, more: seq<Action>)
    requires Inv(c, s) && Run(c, s, more).Some?
    ensures Inv(c, Run(c, s, more).value)
    decreases |more|
  {
    hide Inv, Step;
    if more != [] {
      var n := |more| - 1;
      RunFromInv(c, s, more[..n]);
      StepKeepsInv(c, Run(c, s, more[..n]).value, more[n]);
    }
  }

  // ----- not stored, not read -----

  /** `Get` misses a token exactly when nothing is stored under it in the family its prefix names. */
  lemma MissesExactly(c: Config, s: State, large: bool, tid: string, id: string)
    requires Inv(c, s) && GoodId(tid) && GoodId(id)
    ensures Get(c, s, PutToken(large, tid, id)) in {NoTriplet, NoBlob}
            <==> (tid, id) !in s.blobs || large != (tid in s.large)
  {
    hide SystemBudget.Budget, NoDangling, OpenCount, TripletOk, Jobs, Swapping, JobsStored, ReadFrom, Get, PutToken,
      IsId, RecordAt;
    GetRoutes(c, s, large, tid, id);
    if (tid, id) in s.blobs {
      assert Listed(s, tid);
    }
  }

  lemma MissesWhy(c: Config, s: State, large: bool, tid: string, id: string)
    requires Inv(c, s) && GoodId(tid) && GoodId(id)
    ensures var r, listed := Get(c, s, PutToken(large, tid, id)),
                             if large then tid in s.large else tid in s.open || tid in s.closed;
            && (r == NoTriplet <==> !listed)
            && (r == NoBlob <==> listed && (tid, id) !in s.blobs)
  {
    hide SystemBudget.Budget, NoDangling, OpenCount, Served, TripletOk, Jobs, Swapping, JobsStored, ReadFrom, Get,
      PutToken, IsId, RecordAt;
    GetRoutes(c, s, large, tid, id);
  }

  /** A read inside a listed triplet ends the process only on an empty blob in 4K mode. */
  lemma FatalIn(c: Config, s: State, tid: string, id: string)
    requires Inv(c, s) && tid in s.tri && GetIn(c, s.tri[tid], id) == Fatal
    ensures (tid, id) in s.blobs && c.aligned && s.blobs[(tid, id)] == []
  {
    hide SystemBudget.Budget, NoDangling, OpenCount, Served, Shape, JobsStored, RecordAt, ReadFrom, IsId,
      StoredIn;
    Stored(c, s.tri[tid], id, s.blobs[(tid, id)]);
  }

  lemma GoneUnread(c: Config, s: State, large: bool, tid: string, id: string)
    requires Inv(c, s) && GoodId(tid) && GoodId(id) && Gone(s, (tid, id))
    ensures Get(c, s, PutToken(large, tid, id)) in {NoTriplet, NoBlob}
  {
    hide Inv, GoodId, Get, PutToken;
    MissesExactly(c, s, large, tid, id);
  }

  /** The ids of what is stored are good ids. */
  lemma KeyGood(c: Config, s: State, k: (string, string))
    requires Inv(c, s) && k in s.blobs
    ensures GoodId(k.0) && GoodId(k.1)
  {
    hide SystemBudget.Budget, NoDangling, OpenCount, Served, Dicts, Jobs, Swapping, Refs, JobsStored, TripletOk,
      StoredIn, IsId;
  }

  lemma UnindexedAbsent(c: Config, s: State, p: nat, tid: string)
    requires Inv(c, s) && p in s.jobs && !Indexed(s.jobs[p].pc)
    ensures (tid, s.jobs[p].blobId) !in s.blobs && GoodId(s.jobs[p].blobId)
  {
    hide SystemBudget.Budget, NoDangling, OpenCount, Served, Files, Dicts, Swapping, Refs, Blobs, RecordAt, IsId;
    assert JobStored(c, s, s.jobs[p]) && JobOk(c, s, s.jobs[p]);
  }

  // ----- one step -----

  /** A worker is never on an evicted triplet, so no worker has a blob that a purge deletes. */
  lemma PurgeLoses(c: Config, s: State, k: (string, string))
    requires Inv(c, s) && k in s.blobs && k.0 in s.evicted
    ensures Gone(DoPurge(s, k.0), k)
  {
    hide SystemBudget.Budget, NoDangling, OpenCount, Served, Files, Dicts, Swapping, Refs, GoodId, StoredIn, DiskSize;
    forall p | p in s.jobs
      ensures s.jobs[p].blobId != k.1
    {
      assert JobOk(c, s, s.jobs[p]) && JobStored(c, s, s.jobs[p]);
    }
  }

  lemma RestartLoses(c: Config, s: State, fresh_: string, k: (string, string))
    requires Inv(c, s) && k in s.blobs && k.0 !in Owners(s.rows) && AllReload(s)
    ensures Gone(DoRestart(s, fresh_), k)
  {
    hide SystemBudget.Budget, NoDangling, OpenCount, Served, Shape, Refs, GoodId, StoredIn, DiskSize, Reload, Owners,
      InState,
      ReadyRows, JobsStored;
  }

  /** A step keeps a stored blob exactly when it spares its triplet; a blob that is not kept is gone. */
  lemma StepKeepsExactly(c: Config, s: State, a: Action, k: (string, string))
    requires Inv(c, s) && Step(c, s, a).Some? && k in s.blobs
    ensures KeepsBlob(s, Step(c, s, a).value, k) <==> Survives(s, a, k.0)
    ensures !Survives(s, a, k.0) ==> Gone(Step(c, s, a).value, k)
  {
    hide SystemBudget.Budget, NoDangling, OpenCount, Served, Shape, Store, StepJob, StepSwap, Owners, DoRestart,
      DoPurge,
      GoodId, CanEvict, AllReload, Gone, KeepsBlob;
    InvParts(c, s);
    if Survives(s, a, k.0) {
      StepKeepsBlob(c, s, a, k);
    } else if a.Restart? {
      RestartLoses(c, s, a.new_, k);
      GoneIsNotKept(s, DoRestart(s, a.new_), k);
    } else {
      PurgeLoses(c, s, k);
      GoneIsNotKept(s, DoPurge(s, k.0), k);
    }
  }

  lemma GoneIsNotKept(s: State, r: State, k: (string, string))
    requires Gone(r, k) && k in s.blobs
    ensures !KeepsBlob(s, r, k)
  {
  }

  // ----- runs -----

  /** The step at `i`, if the run gets there, spares the triplet. */
  ghost predicate SparedAt(c: Config, s: State, more: seq<Action>, tid: string, i: nat)
    requires i < |more|
  {
    Run(c, s, more[..i]).Some? ==> Survives(Run(c, s, more[..i]).value, more[i], tid)
  }

  /** Every step of the run spares the triplet. */
  ghost predicate Spared(c: Config, s: State, more: seq<Action>, tid: string) {
    forall i :: 0 <= i < |more| ==> SparedAt(c, s, more, tid, i)
  }

  lemma RunPrefix(c: Config, s: State, more: seq<Action>)
    requires more != [] && Run(c, s, more).Some?
    ensures Run(c, s, more[..|more| - 1]).Some?
  {
    hide Step;
  }

  lemma SparedEarlier(c: Config, s: State, more: seq<Action>, n: nat, tid: string, i: nat)
    requires i < n <= |more|
    ensures SparedAt(c, s, more[..n], tid, i) == SparedAt(c, s, more, tid, i)
  {
    hide Run, Survives;
    assert more[..n][..i] == more[..i] && more[..n][i] == more[i];
  }

  lemma SparedLast(c: Config, s: State, more: seq<Action>, tid: string, n: nat)
    requires n < |more| && Run(c, s, more[..n]).Some?
    ensures SparedAt(c, s, more, tid, n) == Survives(Run(c, s, more[..n]).value, more[n], tid)
  {
    hide Run, Survives;
  }

  lemma SparedStep(c: Config, s: State, more: seq<Action>, tid: string)
    requires more != [] && Run(c, s, more).Some?
    ensures var n := |more| - 1;
            && Run(c, s, more[..n]).Some?
            && (Spared(c, s, more, tid)
                <==> Spared(c, s, more[..n], tid) && Survives(Run(c, s, more[..n]).value, more[n], tid))
  {
    hide Run, Survives, SparedAt;
    RunPrefix(c, s, more);
    var n := |more| - 1;
    SparedLast(c, s, more, tid, n);
    forall i | 0 <= i < n
      ensures SparedAt(c, s, more[..n], tid, i) == SparedAt(c, s, more, tid, i)
    {
      SparedEarlier(c, s, more, n, tid, i);
    }
    assert Spared(c, s, more[..n], tid) == forall i :: 0 <= i < n ==> SparedAt(c, s, more, tid, i);
  }

  /** Over any run a stored blob is kept exactly when every step spares its triplet, and is gone otherwise. */
  lemma {:induction false} RunKeepsExactly(c: Config, s: State, more: seq<Action>, k: (string, string))
    requires Inv(c, s) && Run(c, s, more).Some? && k in s.blobs
    ensures KeepsBlob(s, Run(c, s, more).value, k) <==> Spared(c, s, more, k.0)
    ensures !Spared(c, s, more, k.0) ==> Gone(Run(c, s, more).value, k)
    decreases |more|
  {
    hide Step, Inv, Survives, Gone, Spared;
    if more == [] {
      NothingHappens(c, s, k.0);
    } else {
      var n := |more| - 1;
      SparedStep(c, s, more, k.0);
      RunKeepsExactly(c, s, more[..n], k);
      var t := Run(c, s, more[..n]).value;
      var r := Run(c, s, more).value;
      RunFromInv(c, s, more[..n]);
      if Spared(c, s, more[..n], k.0) {
        StepKeepsExactly(c, t, more[n], k);
      } else {
        StepKeepsGone(c, t, more[n], k);
      }
      if Gone(r, k) {
        GoneIsNotKept(s, r, k);
      }
    }
  }

  lemma NothingHappens(c: Config, s: State, tid: string)
    ensures Spared(c, s, [], tid)
  {
  }

  // ----- a Put that a crash interrupts -----

  /** A worker whose index step has not happened leaves nothing behind when the process dies. */
  lemma CrashForgets(c: Config, s: State, fresh_: string, p: nat, tid: string)
    requires Inv(c, s) && p in s.jobs && !Indexed(s.jobs[p].pc) && AllReload(s)
    ensures Gone(DoRestart(s, fresh_), (tid, s.jobs[p].blobId))
  {
    hide SystemBudget.Budget, NoDangling, OpenCount, Served, Files, Dicts, Swapping, Refs, Blobs, GoodId, RecordAt,
      Reload,
      Owners, InState, ReadyRows, Reloaded;
    assert JobOk(c, s, s.jobs[p]) && JobStored(c, s, s.jobs[p]);
  }

  /** All or nothing across the crash: what a worker has put is there afterwards exactly when its index step was done
      and some ready row owns the triplet. */
  lemma CrashKeepsExactly(c: Config, s: State, fresh_: string, p: nat)
    requires Inv(c, s) && p in s.jobs && AllReload(s) && GoodId(fresh_) && fresh_ !in s.used
    ensures var j, r := s.jobs[p], DoRestart(s, fresh_);
            (j.tid, j.blobId) in r.blobs && r.blobs[(j.tid, j.blobId)] == j.data
            <==> Indexed(j.pc) && j.tid in Owners(s.rows)
  {
    hide SystemBudget.Budget, NoDangling, OpenCount, Served, Shape, Blobs, Refs, Owners, DoRestart, GoodId, AllReload,
      RecordAt;
    var j := s.jobs[p];
    assert JobStored(c, s, j);
    if Indexed(j.pc) {
      StepKeepsExactly(c, s, Restart(fresh_), (j.tid, j.blobId));
    } else {
      CrashForgets(c, s, fresh_, p, j.tid);
    }
  }
}
