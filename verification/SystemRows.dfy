/** Metadata rows never dangle while evictions and purges keep to `Careful`: a ready row names a live triplet that holds
    its bytes, and files go only after every row that names them. Runs of any timing are in `SystemTiming`. */
module SystemRows {
  import opened Bytes
  import opened BlobIndex
  import opened Tokens
  import opened CacheSystem
  import opened SystemShape
  import opened SystemStore

  /** The row's token routes to a stored blob of the owner, with the size that was committed. */
  predicate RowOk(s: State, row: Row) {
    row.ready ==>
      match GetBlobIdFromToken(row.token)
      case None => false
      case Some(id) =>
        && (row.owners, id) in s.blobs
        && row.token == PutToken(row.owners in s.large, row.owners, id)
        && row.size == Wrap32(|s.blobs[(row.owners, id)]|)
  }

  /** No row at all is owned by a triplet that is queued for purging. */
  predicate NoDangling(s: State) {
    && (forall f :: f in s.rows ==> RowOk(s, s.rows[f]) && s.rows[f].owners !in s.evicted)
    && (forall u :: u in s.used ==> GoodId(u))
  }

  lemma InitRows(first: string)
    requires GoodId(first)
    ensures NoDangling(Init(first))
  {
  }

  lemma OwnersLive(c: Config, s: State)
    requires NoDangling(s) && Blobs(c, s)
    ensures Owners(s.rows) <= s.tri.Keys
  {
    hide GoodId, StoredIn, PutToken, GetBlobIdFromToken;
  }

  // ----- stored data is not disturbed -----

  /** What spares the blobs of a triplet: it is not purged, and a restart finds a ready row that it owns. */
  predicate Survives(s: State, a: Action, tid: string) {
    a != Purge(tid) && (a.Restart? ==> tid in Owners(s.rows))
  }

  predicate KeepsBlob(s: State, r: State, k: (string, string))
    requires k in s.blobs
  {
    k in r.blobs && r.blobs[k] == s.blobs[k] && (k.0 in r.large <==> k.0 in s.large)
  }

  lemma JobStepKeeps(c: Config, s: State, a: Action, k: (string, string))
    requires Shape(c, s) && Store(c, s) && StepJob(c, s, a).Some? && k in s.blobs
    ensures KeepsBlob(s, StepJob(c, s, a).value, k)
  {
    hide GoodId, Locked, BinPut, IdxPut, MfPut, Payload, RecordFor, Printable, JobEntry, JobToken, MaxAlloc,
      NewTriplet, IsLarge,
      CanAppend, CanManifest, CanCheck, DoAppend, DoTear, DoManifest, DoIndex, CanIndex, Shape, Store;
    match a
    case Index(p) => IndexKeeps(c, s, p, k);
    case PlaceLarge(p, tid) => StoredIsOld(c, s, k, tid);
    case Append(p) => WriteKeeps(c, s, a);
    case Tear(p, _) => WriteKeeps(c, s, a);
    case Manifest(p) => WriteKeeps(c, s, a);
    case _ =>
  }

  lemma WriteKeeps(c: Config, s: State, a: Action)
    requires StepJob(c, s, a).Some? && (a.Append? || a.Tear? || a.Manifest?)
    ensures StepJob(c, s, a).value.blobs == s.blobs && StepJob(c, s, a).value.large == s.large
  {
    hide GoodId, Locked, BinPut, MfPut, Payload, RecordFor;
  }

  /** An index step writes under a blob id that nothing is stored under. */
  lemma IndexKeeps(c: Config, s: State, p: nat, k: (string, string))
    requires Store(c, s) && CanIndex(c, s, p) && k in s.blobs
    ensures KeepsBlob(s, DoIndex(c, s, p), k)
  {
    hide IdxPut, Payload, Printable, JobEntry, Blobs, Refs, RecordAt;
    assert JobStored(c, s, s.jobs[p]);
  }

  lemma StoredIsOld(c: Config, s: State, k: (string, string), tid: string)
    requires Shape(c, s) && Store(c, s) && k in s.blobs && tid !in s.used
    ensures k.0 != tid
  {
    hide GoodId, StoredIn, TripletOk, Dicts, Jobs, Swapping, Refs, JobsStored;
  }

  /** What a restart makes of a triplet: its entry in the dictionary that its state character names. */
  lemma RestartKeeps(c: Config, s: State, fresh_: string, k: (string, string))
    requires Shape(c, s) && Store(c, s) && AllReload(s) && Owners(s.rows) <= s.tri.Keys && GoodId(fresh_)
    requires fresh_ !in s.used
    requires k in s.blobs && k.0 in Owners(s.rows)
    ensures KeepsBlob(s, DoRestart(s, fresh_), k)
  {
    hide GoodId, Dicts, Jobs, Swapping, Refs, StoredIn, TripletOk, Reload, JobStored, NewTriplet, Owners, ReadyRows;
    RebootedTriplets(s);
    ReloadOk(s.tri[k.0], k.0 in Locked(s.jobs));
  }

  lemma SwapStepRows(c: Config, s: State, a: Action)
    requires StepSwap(c, s, a).Some?
    ensures Step(c, s, a) == StepSwap(c, s, a)
    ensures var r := StepSwap(c, s, a).value;
            r.rows == s.rows && r.evicted == s.evicted && r.blobs == s.blobs && r.large == s.large
  {
    hide GoodId, NewTriplet;
  }

  lemma PurgeKeeps(s: State, tid: string, k: (string, string))
    requires k in s.blobs && k.0 != tid
    ensures KeepsBlob(s, DoPurge(s, tid), k)
  {
    hide DiskSize;
  }

  /** A step that spares the triplet neither changes a blob nor moves it to the other family of triplets. */
  lemma StepKeepsBlob(c: Config, s: State, a: Action, k: (string, string))
    requires Shape(c, s) && Store(c, s) && Step(c, s, a).Some? && Owners(s.rows) <= s.tri.Keys
    requires k in s.blobs && Survives(s, a, k.0)
    ensures KeepsBlob(s, Step(c, s, a).value, k)
  {
    hide Shape, Store, StepJob, StepSwap, DoRestart, DoPurge, GoodId, CanEvict, Owners, Careful;
    match a
    case Restart(fresh_) => RestartKeeps(c, s, fresh_, k);
    case Purge(tid) => PurgeKeeps(s, tid, k);
    case Evict(_) => case PayDebt(_) => case Miss(_) => case Outdate(_, _, _) => case Rollback(_) =>
    case ReadOpen(_, _, _) => case ReadClosed(_) =>
    case SwapOpen(_, _) | SwapAccount | SwapScanned | SwapPublish | SwapClose | SwapMark | SwapDrop =>
      SwapStepRows(c, s, a);
    case _ => JobStepKeeps(c, s, a, k);
  }

  // ----- rows -----

  /** A row stays good when the blob it names does. */
  lemma RowStays(s: State, r: State, row: Row)
    requires RowOk(s, row)
    requires forall k :: k in s.blobs && k.0 == row.owners ==> KeepsBlob(s, r, k)
    ensures row.ready ==> RowOk(r, row)
  {
    hide PutToken, GetBlobIdFromToken;
  }

  /** Rows that were there before, with owners that the step spares. */
  lemma RowsStay(c: Config, s: State, a: Action)
    requires Shape(c, s) && Store(c, s) && NoDangling(s) && Step(c, s, a).Some?
    requires var r := Step(c, s, a).value;
             && (forall f :: f in r.rows ==>
                   && f in s.rows && r.rows[f] == s.rows[f]
                   && Survives(s, a, s.rows[f].owners) && s.rows[f].owners !in r.evicted)
             && (forall u :: u in r.used ==> GoodId(u))
    ensures NoDangling(Step(c, s, a).value)
  {
    hide Shape, Blobs, Refs, JobStored, Step, GoodId, KeepsBlob, Survives;
    OwnersLive(c, s);
    var r := Step(c, s, a).value;
    forall f | f in r.rows
      ensures RowOk(r, r.rows[f])
    {
      forall k | k in s.blobs && k.0 == s.rows[f].owners
        ensures KeepsBlob(s, r, k)
      {
        StepKeepsBlob(c, s, a, k);
      }
      RowStays(s, r, s.rows[f]);
    }
  }

  /** The commit writes a row that names the triplet and the blob of the job, whichever family it is in. */
  lemma CommitRow(c: Config, s: State, p: nat)
    requires Shape(c, s) && Store(c, s) && NoDangling(s) && At(s, p, Returned)
    ensures GetTripletIdFromToken(JobToken(c, s.jobs[p])) == Some(s.jobs[p].tid)
    ensures RowOk(s, Row(true, s.jobs[p].tid, JobToken(c, s.jobs[p]), Wrap32(|s.jobs[p].data|)))
    ensures s.jobs[p].tid !in s.evicted
  {
    hide PutToken, GetBlobIdFromToken, GetTripletIdFromToken, Dicts, Swapping, StoredIn, TripletOk, IsLarge;
    var j := s.jobs[p];
    assert JobOk(c, s, j) && JobStored(c, s, j);
    TripletIdComesBack(IsLarge(c, j), j.tid, j.blobId);
    BlobIdComesBack(IsLarge(c, j), j.tid, j.blobId);
  }

  lemma CommitRows(c: Config, s: State, p: nat)
    requires Shape(c, s) && Store(c, s) && NoDangling(s) && At(s, p, Returned)
    ensures NoDangling(DoCommit(c, s, p))
  {
    hide Shape, Store, GetTripletIdFromToken, JobToken, GoodId, GetBlobIdFromToken, PutToken;
    CommitRow(c, s, p);
  }

  lemma UsedGood(c: Config, s: State, a: Action)
    requires NoDangling(s) && Step(c, s, a).Some?
    ensures forall u :: u in Step(c, s, a).value.used ==> GoodId(u)
  {
    hide GoodId, RowOk, BinPut, IdxPut, MfPut, Payload, RecordFor, Printable, JobEntry, JobToken, MaxAlloc,
      NewTriplet, IsLarge,
      Reload, DiskSize, Locked, CanAppend, CanIndex, CanManifest, CanEvict, InState;
  }

  lemma JobStepRows(c: Config, s: State, a: Action)
    requires StepJob(c, s, a).Some? && !a.Commit? && Careful(s, a)
    ensures Step(c, s, a) == StepJob(c, s, a)
    ensures StepJob(c, s, a).value.rows == s.rows && StepJob(c, s, a).value.evicted == s.evicted
  {
    hide GoodId, BinPut, IdxPut, MfPut, Payload, RecordFor, Printable, JobEntry, JobToken, MaxAlloc, NewTriplet,
      IsLarge,
      Locked, CanAppend, CanIndex, CanManifest;
  }

  /** Steps that leave rows, the queue for purging and the ids handed out as they are or take rows away. */
  lemma FewerRows(c: Config, s: State, a: Action)
    requires Shape(c, s) && Store(c, s) && NoDangling(s)
    requires Step(c, s, a).Some? && (a.Rollback? || a.Evict? || a.Restart? || a.Purge?)
    ensures NoDangling(Step(c, s, a).value)
  {
    hide Shape, Store, RowOk, GoodId, Reload, DiskSize, KeepsBlob, InState;
    UsedGood(c, s, a);
    RowsStay(c, s, a);
  }

  lemma SameRows(c: Config, s: State, a: Action)
    requires Shape(c, s) && Store(c, s) && NoDangling(s)
    requires Step(c, s, a).Some? && !a.Restart? && !a.Purge?
    requires Step(c, s, a).value.rows == s.rows && Step(c, s, a).value.evicted == s.evicted
    ensures NoDangling(Step(c, s, a).value)
  {
    hide Shape, Store, RowOk, GoodId, Step;
    UsedGood(c, s, a);
    RowsStay(c, s, a);
  }

  lemma StepKeepsRows(c: Config, s: State, a: Action)
    requires Shape(c, s) && Store(c, s) && NoDangling(s) && Step(c, s, a).Some?
    ensures NoDangling(Step(c, s, a).value)
  {
    hide Shape, Store, NoDangling, StepJob, StepSwap, DoRestart, DoPurge, DoEvict, CanEvict, GoodId, Reload;
    match a
    case Commit(p) => CommitStep(c, s, p);
    case Miss(_) => MissRows(c, s, a);
    case Outdate(_, _, _) => OutdateRows(c, s, a);
    case Restart(_) => FewerRows(c, s, a);
    case Rollback(_) => FewerRows(c, s, a);
    case Evict(_) => FewerRows(c, s, a);
    case Purge(_) => FewerRows(c, s, a);
    case PayDebt(_) => SameRows(c, s, a);
    case ReadOpen(_, _, _) => SameRows(c, s, a);
    case ReadClosed(_) => SameRows(c, s, a);
    case SwapOpen(_, _) | SwapAccount | SwapScanned | SwapPublish | SwapClose | SwapMark | SwapDrop =>
      SwapStepRows(c, s, a);
      SameRows(c, s, a);
    case _ =>
      JobStepRows(c, s, a);
      SameRows(c, s, a);
  }

  lemma CommitStep(c: Config, s: State, p: nat)
    requires Shape(c, s) && Store(c, s) && NoDangling(s) && StepJob(c, s, Commit(p)).Some?
    ensures NoDangling(StepJob(c, s, Commit(p)).value)
  {
    hide Shape, Store, DoCommit, NoDangling;
    CommitRows(c, s, p);
  }

  lemma MissRows(c: Config, s: State, a: Action)
    requires Shape(c, s) && NoDangling(s) && a.Miss? && Step(c, s, a).Some?
    ensures NoDangling(Step(c, s, a).value)
  {
    hide Files, Jobs, Swapping, PutToken, GetBlobIdFromToken, IsId;
    assert "" !in s.evicted;
  }

  lemma OutdateRows(c: Config, s: State, a: Action)
    requires NoDangling(s) && a.Outdate?
    ensures NoDangling(Step(c, s, a).value)
  {
    hide PutToken, GetBlobIdFromToken, GoodId;
  }
}
