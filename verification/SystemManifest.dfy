/** The manifests of the running cache: they hold put records only, and one for every blob whose `Put` has got that
    far. */
module SystemManifest {
  import opened Bytes
  import opened BlobIndex
  import opened BlobManifest
  import opened CacheSystem
  import opened SystemShape
  import opened SystemRuns
  import SystemBudget
  import SystemStore
  import SystemSwap
  import SystemRows
  import SystemResults
  import Tokens

  /** A put record of the blob. */
  predicate HasPut(log: seq<MFEntry>, id: string) {
    exists i :: 0 <= i < |log| && log[i].BlobId == id && log[i].Action == 80
  }

  predicate OnlyPuts(log: seq<MFEntry>) {
    forall i :: 0 <= i < |log| ==> log[i].Action == 80
  }

  predicate Recorded(pc: Pc) {
    pc == MfDone || pc == Settled || pc == Returned
  }

  predicate Logged(s: State) {
    && (forall tid :: tid in s.tri ==> OnlyPuts(s.tri[tid].log))
    && (forall p :: p in s.jobs && Recorded(s.jobs[p].pc) ==>
          s.jobs[p].tid in s.tri && HasPut(s.tri[s.jobs[p].tid].log, s.jobs[p].blobId))
  }

  lemma InitLogged(first: string)
    ensures Logged(Init(first))
  {
  }

  /** Manifests only grow, by put records, and at most worker `p` moves. */
  lemma LoggedFrame(s: State, r: State, p: nat)
    requires Logged(s)
    requires forall tid :: tid in r.tri ==> OnlyPuts(r.tri[tid].log)
    requires forall tid :: tid in s.tri && tid in r.tri ==> s.tri[tid].log <= r.tri[tid].log
    requires forall q :: q in r.jobs && q != p ==>
               q in s.jobs && r.jobs[q] == s.jobs[q] && (s.jobs[q].tid in s.tri ==> s.jobs[q].tid in r.tri)
    requires p in r.jobs && Recorded(r.jobs[p].pc) ==>
               r.jobs[p].tid in r.tri && HasPut(r.tri[r.jobs[p].tid].log, r.jobs[p].blobId)
    ensures Logged(r)
  {
    hide OnlyPuts, HasPut;
    forall q | q in r.jobs && Recorded(r.jobs[q].pc)
      ensures r.jobs[q].tid in r.tri && HasPut(r.tri[r.jobs[q].tid].log, r.jobs[q].blobId)
    {
      if q != p {
        PutStays(s.tri[s.jobs[q].tid].log, r.tri[r.jobs[q].tid].log, s.jobs[q].blobId);
      }
    }
  }

  lemma PutStays(a: seq<MFEntry>, b: seq<MFEntry>, id: string)
    requires HasPut(a, id) && a <= b
    ensures HasPut(b, id)
  {
    var i :| 0 <= i < |a| && a[i].BlobId == id && a[i].Action == 80;
    assert b[i] == a[i];
  }

  lemma LogGrows(a: seq<MFEntry>, id: string)
    requires OnlyPuts(a)
    ensures var b := a + [MFEntry(id, ACTION_PUT, "")]; a <= b && OnlyPuts(b) && HasPut(b, id)
  {
    var b := a + [MFEntry(id, ACTION_PUT, "")];
    assert b[|a|].BlobId == id;
  }

  lemma NewLog(large: bool)
    ensures OnlyPuts(NewTriplet(large).log)
  {
  }

  lemma ManifestLogged(s: State, p: nat)
    requires Logged(s) && CanManifest(s, p)
    ensures Logged(DoManifest(s, p))
  {
    hide OnlyPuts, HasPut, Logged;
    var j, r := s.jobs[p], DoManifest(s, p);
    LogsOf(s);
    LogGrows(s.tri[j.tid].log, j.blobId);
    LoggedFrame(s, r, p);
  }

  lemma LogsOf(s: State)
    requires Logged(s)
    ensures forall tid :: tid in s.tri ==> OnlyPuts(s.tri[tid].log)
  {
  }

  lemma WriteLogged(c: Config, s: State, a: Action)
    requires Logged(s) && StepJob(c, s, a).Some? && (a.Append? || a.Tear? || a.Index?)
    ensures Logged(StepJob(c, s, a).value)
  {
    hide GoodId, Locked, Payload, RecordFor, Printable, JobEntry, IdxGrowth, OnlyPuts, HasPut, Logged, BinPut, IdxPut;
    LogsOf(s);
    var t := s.tri[s.jobs[a.p].tid];
    BinLog(c, t, s.jobs[a.p]);
    if a.Index? {
      IdxLog(t, JobEntry(c, s.jobs[a.p]));
    }
    LoggedFrame(s, StepJob(c, s, a).value, a.p);
  }

  lemma BinLog(c: Config, t: Triplet, j: Job)
    ensures BinPut(c, t, j.blobId, j.data).log == t.log
  {
  }

  lemma IdxLog(t: Triplet, e: IndexEntry)
    requires Printable(e) && t.idx != ""
    ensures IdxPut(t, e).log == t.log
  {
  }

  lemma JobStepLogged(c: Config, s: State, a: Action)
    requires Logged(s) && StepJob(c, s, a).Some? && s.tri.Keys <= s.used
    ensures Logged(StepJob(c, s, a).value)
  {
    hide GoodId, IsLarge, NewTriplet, MaxAlloc, CanAppend, CanTear, CanIndex, CanManifest, DoAppend, DoTear, DoIndex,
      DoManifest, OnlyPuts, HasPut, JobToken, Logged, Tokens.GetTripletIdFromToken, Wrap32, Payload;
    LogsOf(s);
    var r := StepJob(c, s, a).value;
    match a
    case Append(_) => WriteLogged(c, s, a);
    case Tear(_, _) => WriteLogged(c, s, a);
    case Index(_) => WriteLogged(c, s, a);
    case Manifest(p) => ManifestLogged(s, p);
    case PlaceLarge(p, tid) => PlacedLogged(c, s, p, tid);
    case Settle(p) => Advanced(s, r, p);
    case Release(p) => Advanced(s, r, p);
    case Check(p, _, _, _) => NotYetRecorded(s, r, p);
    case Reserve(p) => NotYetRecorded(s, r, p);
    case PlaceSmall(p, _) => NotYetRecorded(s, r, p);
    case Commit(p) => NotYetRecorded(s, r, p);
  }

  lemma PlacedLogged(c: Config, s: State, p: nat, tid: string)
    requires Logged(s) && CanPlaceLarge(c, s, p, tid) && s.tri.Keys <= s.used
    ensures Logged(DoPlaceLarge(s, p, tid))
  {
    hide GoodId, IsLarge, NewTriplet, OnlyPuts, HasPut, Logged;
    LogsOf(s);
    NewLog(true);
    LoggedFrame(s, DoPlaceLarge(s, p, tid), p);
  }

  /** A worker whose record is not written comes, goes on or goes. */
  lemma NotYetRecorded(s: State, r: State, p: nat)
    requires Logged(s) && r.tri == s.tri
    requires forall q :: q in r.jobs && q != p ==> q in s.jobs && r.jobs[q] == s.jobs[q]
    requires p in r.jobs ==> !Recorded(r.jobs[p].pc)
    ensures Logged(r)
  {
    hide OnlyPuts, HasPut;
  }

  /** A worker whose record is written goes on. */
  lemma Advanced(s: State, r: State, p: nat)
    requires Logged(s) && p in s.jobs && Recorded(s.jobs[p].pc) && r.tri == s.tri
    requires r.jobs.Keys == s.jobs.Keys && forall q :: q in s.jobs && q != p ==> r.jobs[q] == s.jobs[q]
    requires r.jobs[p].tid == s.jobs[p].tid && r.jobs[p].blobId == s.jobs[p].blobId
    ensures Logged(r)
  {
    hide OnlyPuts, HasPut;
  }

  lemma SwapLogged(c: Config, s: State, a: Action)
    requires Logged(s) && StepSwap(c, s, a).Some? && s.tri.Keys <= s.used
    ensures Logged(StepSwap(c, s, a).value)
  {
    hide GoodId, NewTriplet, OnlyPuts, HasPut, Logged;
    NewLog(false);
    LogsOf(s);
    NoJobMoves(s, StepSwap(c, s, a).value);
  }

  /** Triplets may come, with a manifest of put records, and others may go that no worker is on. */
  lemma NoJobMoves(s: State, r: State)
    requires Logged(s) && r.jobs == s.jobs
    requires forall tid :: tid in r.tri ==> OnlyPuts(r.tri[tid].log)
    requires forall tid :: tid in s.tri && tid in r.tri ==> s.tri[tid].log == r.tri[tid].log
    requires forall q :: q in s.jobs && s.jobs[q].tid in s.tri ==> s.jobs[q].tid in r.tri
    ensures Logged(r)
  {
    hide OnlyPuts, HasPut;
  }

  /** A reload finds the records of the file, which are those of the header. */
  lemma ReloadLog(t: Triplet, torn: bool)
    requires TripletOk(t, torn) && Reload(t).Some?
    ensures Reload(t).value.log == PaddedActions(t.log)
  {
    hide LoadIndex, LoadManifest, IndexFile, ManifestFile, RefMapOf;
    ManifestReadsBack(t.log);
  }

  lemma PaddedPuts(log: seq<MFEntry>, id: string)
    requires AllActions(log)
    ensures OnlyPuts(log) ==> OnlyPuts(PaddedActions(log))
    ensures HasPut(log, id) ==> HasPut(PaddedActions(log), id)
  {
    forall i | 0 <= i < |log|
      ensures PaddedActions(log)[i].Action == log[i].Action && PaddedActions(log)[i].BlobId == log[i].BlobId
    {
      PaddedActionsAt(log, i);
    }
  }

  lemma RestartLogged(c: Config, s: State, fresh_: string)
    requires Logged(s) && Files(s) && AllReload(s)
    ensures Logged(DoRestart(s, fresh_))
  {
    hide GoodId, TripletOk, OnlyPuts, HasPut, NewTriplet, InState, ReadyRows, Owners, Reload;
    NewLog(false);
    forall tid | tid in Kept(s)
      ensures OnlyPuts(Reload(s.tri[tid]).value.log)
    {
      ReloadLog(s.tri[tid], tid in Locked(s.jobs));
      LogPrintable(s.tri[tid], tid in Locked(s.jobs));
      PaddedPuts(s.tri[tid].log, "");
    }
  }

  lemma LogPrintable(t: Triplet, torn: bool)
    requires TripletOk(t, torn)
    ensures AllActions(t.log) && t.mf == ManifestFile(t.log)
  {
  }

  lemma StepKeepsLogged(c: Config, s: State, a: Action)
    requires Inv(c, s) && Logged(s) && Step(c, s, a).Some?
    ensures Logged(Step(c, s, a).value)
  {
    hide Inv, Logged, StepJob, StepSwap, DoRestart, DoPurge, CanEvict, GoodId, AllReload, Files;
    FilesOf(c, s);
    LogsOf(s);
    var r := Step(c, s, a).value;
    match a
    case Purge(tid) => PurgeLogged(c, s, tid);
    case Restart(fresh_) => RestartLogged(c, s, fresh_);
    case PayDebt(_) => NoJobMoves(s, r);
    case Evict(_) => NoJobMoves(s, r);
    case Miss(_) => NoJobMoves(s, r);
    case Outdate(_, _, _) => NoJobMoves(s, r);
    case Rollback(_) => NoJobMoves(s, r);
    case ReadOpen(_, _, _) => NoJobMoves(s, r);
    case ReadClosed(_) => NoJobMoves(s, r);
    case SwapOpen(_, _) | SwapAccount | SwapScanned | SwapPublish | SwapClose | SwapMark | SwapDrop =>
      SwapLogged(c, s, a);
    case _ => JobStepLogged(c, s, a);
  }

  lemma FilesOf(c: Config, s: State)
    requires Inv(c, s)
    ensures Files(s) && s.tri.Keys <= s.used
    ensures forall p :: p in s.jobs && s.jobs[p].tid in s.tri ==> s.jobs[p].tid !in s.evicted
  {
    hide SystemBudget.Budget, SystemStore.Store, SystemSwap.Served, SystemRows.NoDangling, SystemSwap.OpenCount, Dicts,
      Swapping, TripletOk, GoodId;
    forall p | p in s.jobs && s.jobs[p].tid in s.tri
      ensures s.jobs[p].tid !in s.evicted
    {
      assert JobOk(c, s, s.jobs[p]);
      EmptyIdIsBad();
    }
  }

  lemma EmptyIdIsBad()
    ensures !GoodId("")
  {
  }

  lemma PurgeLogged(c: Config, s: State, tid: string)
    requires Inv(c, s) && Logged(s) && tid in s.evicted
    ensures Logged(DoPurge(s, tid))
  {
    hide Inv, Logged, OnlyPuts, HasPut, DiskSize;
    FilesOf(c, s);
    LogsOf(s);
    NoJobMoves(s, DoPurge(s, tid));
  }

  lemma {:induction false} RunLogged(c: Config, first: string, acts: seq<Action>)
    requires c.maxBytes >= 0 && GoodId(first) && After(c, first, acts).Some?
    ensures Logged(After(c, first, acts).value)
  {
    hide Inv, Step, GoodId, Logged;
    if acts == [] {
      InitLogged(first);
    } else {
      RunLogged(c, first, acts[..|acts| - 1]);
      RunInv(c, first, acts[..|acts| - 1]);
      StepKeepsLogged(c, After(c, first, acts[..|acts| - 1]).value, acts[|acts| - 1]);
    }
  }

  /** In every reachable state a manifest can be read from its file, and a reload puts nothing in the deletion log. */
  lemma NothingDeleted(c: Config, s: State, tid: string)
    requires SystemResults.Reachable(c, s) && tid in s.tri
    ensures LoadManifest(s.tri[tid].mf).Some? && Deleted(LoadManifest(s.tri[tid].mf).value) == {}
  {
    hide Inv, GoodId, After, Logged, TripletOk, LoadManifest, ManifestFile, Files;
    ReachableLogged(c, s);
    ManifestReads(c, s, tid);
    var log := s.tri[tid].log;
    LogsOf(s);
    PaddedPuts(log, "");
    PutsDelete(PaddedActions(log));
  }

  /** When a `Put` has returned, the file of its manifest holds a put record of its blob. */
  lemma ReturnedIsRecorded(c: Config, s: State, p: nat)
    requires SystemResults.Reachable(c, s) && At(s, p, Returned)
    ensures s.jobs[p].tid in s.tri
    ensures var mf := s.tri[s.jobs[p].tid].mf;
            LoadManifest(mf).Some? && HasPut(LoadManifest(mf).value, s.jobs[p].blobId)
  {
    hide Inv, GoodId, After, TripletOk, LoadManifest, ManifestFile, Files, SystemResults.Reachable;
    ReachableLogged(c, s);
    ManifestReads(c, s, s.jobs[p].tid);
    PaddedPuts(s.tri[s.jobs[p].tid].log, s.jobs[p].blobId);
  }

  lemma ReachableLogged(c: Config, s: State)
    requires SystemResults.Reachable(c, s)
    ensures Inv(c, s) && Logged(s)
  {
    hide Inv, GoodId, After, Logged;
    var first, acts :| GoodId(first) && After(c, first, acts) == Some(s);
    RunInv(c, first, acts);
    RunLogged(c, first, acts);
  }

  lemma ManifestReads(c: Config, s: State, tid: string)
    requires Inv(c, s) && tid in s.tri
    ensures AllActions(s.tri[tid].log) && LoadManifest(s.tri[tid].mf) == Some(PaddedActions(s.tri[tid].log))
  {
    hide Inv, TripletOk, LoadManifest, ManifestFile, GoodId;
    FilesOf(c, s);
    LogPrintable(s.tri[tid], tid in Locked(s.jobs));
    ManifestReadsBack(s.tri[tid].log);
  }

  lemma PutsDelete(log: seq<MFEntry>)
    requires OnlyPuts(log)
    ensures Deleted(log) == {}
  {
  }
}
