/** The results for reachable states, with nothing assumed but the run that leads there. */
module SystemResults {
  import opened Bytes
  import opened BlobIndex
  import opened Tokens
  import opened CacheSystem
  import opened SystemShape
  import opened SystemStore
  import opened SystemRows
  import opened SystemRuns
  import opened SystemDurability
  import opened SystemStart
  import opened SystemPut
  import SystemBudget
  import SystemSwap

  /** Some run of the machine from an empty disk ends in `s`. */
  ghost predicate Reachable(c: Config, s: State) {
    c.maxBytes >= 0 && exists first, acts :: GoodId(first) && After(c, first, acts) == Some(s)
  }

  lemma ReachableInv(c: Config, s: State)
    requires Reachable(c, s)
    ensures Inv(c, s)
  {
    hide After, Inv, GoodId;
    var first, acts :| GoodId(first) && After(c, first, acts) == Some(s);
    RunInv(c, first, acts);
  }

  /** A stored blob reads back exactly, unless it is the empty blob in 4K mode. */
  lemma StoredBlobReads(c: Config, s: State, k: (string, string))
    requires Reachable(c, s) && k in s.blobs
    ensures Get(c, s, PutToken(k.0 in s.large, k.0, k.1)) == Data(s.blobs[k]) <==> (c.aligned ==> s.blobs[k] != [])
  {
    hide Reachable, Inv, Get, PutToken;
    ReachableInv(c, s);
    ReadsExactly(c, s, k);
  }

  /** `Get` misses a token exactly when nothing is stored under it in the family its prefix names. */
  lemma MissedExactly(c: Config, s: State, large: bool, tid: string, id: string)
    requires Reachable(c, s) && GoodId(tid) && GoodId(id)
    ensures Get(c, s, PutToken(large, tid, id)) in {NoTriplet, NoBlob}
            <==> (tid, id) !in s.blobs || large != (tid in s.large)
  {
    hide Reachable, Inv, Get, PutToken, GoodId;
    ReachableInv(c, s);
    MissesExactly(c, s, large, tid, id);
  }

  /** Which of the two answers a miss gets: no triplet when the dictionaries of that family do not list it, no blob when
      they do and it has none under that id. */
  lemma MissedWhy(c: Config, s: State, large: bool, tid: string, id: string)
    requires Reachable(c, s) && GoodId(tid) && GoodId(id)
    ensures var r, listed := Get(c, s, PutToken(large, tid, id)),
                             if large then tid in s.large else tid in s.open || tid in s.closed;
            && (r == NoTriplet <==> !listed)
            && (r == NoBlob <==> listed && (tid, id) !in s.blobs)
  {
    hide Reachable, Inv, Get, PutToken, GoodId;
    ReachableInv(c, s);
    MissesWhy(c, s, large, tid, id);
  }

  /** A token that is too short or does not match ends the process; any other does so only in 4K mode, and then by
      naming an empty blob. */
  lemma FatalExactly(c: Config, s: State, token: string)
    requires Reachable(c, s)
    ensures var bare := if |token| >= 4 && token[..4] == "lobj" then token[4..] else token;
            var bad := |token| < 4 || GetTripletIdFromToken(bare) == None || GetBlobIdFromToken(bare) == None;
            && (bad ==> Get(c, s, token) == Fatal)
            && (Get(c, s, token) == Fatal && !bad ==>
                  var k := (GetTripletIdFromToken(bare).value, GetBlobIdFromToken(bare).value);
                  c.aligned && k in s.blobs && s.blobs[k] == [])
  {
    hide Reachable, Inv, GetTripletIdFromToken, GetBlobIdFromToken, GetIn;
    ReachableInv(c, s);
    var bare := if |token| >= 4 && token[..4] == "lobj" then token[4..] else token;
    if |token| >= 4 && GetTripletIdFromToken(bare).Some? && GetBlobIdFromToken(bare).Some? {
      var tid, id := GetTripletIdFromToken(bare).value, GetBlobIdFromToken(bare).value;
      if tid in s.tri && GetIn(c, s.tri[tid], id) == Fatal {
        FatalIn(c, s, tid, id);
      }
    }
  }

  /** Nothing: a worker whose index step has not happened is not read under any token, and if the process dies, its
      blob is not read in any later run either. */
  lemma InterruptedPutNeverRead(
      c: Config, s: State, p: nat, fresh_: string, more: seq<Action>, large: bool, tid: string)
    requires Reachable(c, s) && p in s.jobs && !Indexed(s.jobs[p].pc) && GoodId(tid)
    requires Step(c, s, Restart(fresh_)).Some? && Run(c, Step(c, s, Restart(fresh_)).value, more).Some?
    ensures var token := PutToken(large, tid, s.jobs[p].blobId);
            var r := Run(c, Step(c, s, Restart(fresh_)).value, more).value;
            && Get(c, s, token) in {NoTriplet, NoBlob}
            && Get(c, r, token) in {NoTriplet, NoBlob}
  {
    hide Reachable, Inv, Get, PutToken, GoodId, DoRestart, Run;
    ReachableInv(c, s);
    var k, b := (tid, s.jobs[p].blobId), DoRestart(s, fresh_);
    UnindexedAbsent(c, s, p, tid);
    MissesExactly(c, s, large, tid, k.1);
    CrashForgets(c, s, fresh_, p, tid);
    StepKeepsInv(c, s, Restart(fresh_));
    RunFromInv(c, b, more);
    RunKeepsGone(c, b, more, k);
    GoneUnread(c, Run(c, b, more).value, large, tid, k.1);
  }

  /** All: what a worker has put is there after a crash exactly when its index step was done and some ready row owns
      the triplet. */
  lemma CrashIsAllOrNothing(c: Config, s: State, fresh_: string, p: nat)
    requires Reachable(c, s) && p in s.jobs && AllReload(s) && GoodId(fresh_) && fresh_ !in s.used
    ensures var j, r := s.jobs[p], DoRestart(s, fresh_);
            (j.tid, j.blobId) in r.blobs && r.blobs[(j.tid, j.blobId)] == j.data
            <==> Indexed(j.pc) && j.tid in Owners(s.rows)
  {
    hide Reachable, Inv, GoodId, DoRestart, AllReload, Owners;
    ReachableInv(c, s);
    CrashKeepsExactly(c, s, fresh_, p);
  }

  /** Whatever runs, crashes and restarts follow, a stored blob keeps its bytes and its family exactly when every step
      spares its triplet. */
  lemma Durable(c: Config, s: State, more: seq<Action>, k: (string, string))
    requires Reachable(c, s) && Run(c, s, more).Some? && k in s.blobs
    ensures KeepsBlob(s, Run(c, s, more).value, k) <==> Spared(c, s, more, k.0)
  {
    hide Reachable, Inv, Run, Spared, KeepsBlob;
    ReachableInv(c, s);
    RunKeepsExactly(c, s, more, k);
  }

  /** The same as a reader sees it: the token of a stored blob returns the same bytes exactly then, and otherwise it is
      missed. */
  lemma TokenStaysReadable(c: Config, s: State, more: seq<Action>, k: (string, string))
    requires Reachable(c, s) && Run(c, s, more).Some? && k in s.blobs
    ensures var r, token := Run(c, s, more).value, PutToken(k.0 in s.large, k.0, k.1);
            && (Get(c, r, token) == Data(s.blobs[k]) <==> Spared(c, s, more, k.0) && (c.aligned ==> s.blobs[k] != []))
            && (!Spared(c, s, more, k.0) ==> Get(c, r, token) in {NoTriplet, NoBlob})
  {
    hide Reachable, Inv, Run, Spared, Get, PutToken, Gone, GoodId;
    ReachableInv(c, s);
    RunKeepsExactly(c, s, more, k);
    RunFromInv(c, s, more);
    KeyGood(c, s, k);
    var r := Run(c, s, more).value;
    if Spared(c, s, more, k.0) {
      ReadsExactly(c, r, k);
    } else {
      GoneUnread(c, r, k.0 in s.large, k.0, k.1);
    }
  }

  /** When `Put` returns its token, the token reads back the data that was put. */
  lemma ReturnedTokenReads(c: Config, s: State, p: nat)
    requires Reachable(c, s) && At(s, p, Returned)
    ensures Get(c, s, JobToken(c, s.jobs[p])) == Data(s.jobs[p].data) <==> (c.aligned ==> s.jobs[p].data != [])
  {
    hide Reachable, Inv, Get, JobToken;
    ReachableInv(c, s);
    PutReadsBack(c, s, p);
  }

  /** A ready row names a stored blob of the size it records, in the triplet that its token names, and its token reads
      that blob. */
  lemma ReadyRowHolds(c: Config, s: State, f: string)
    requires Reachable(c, s) && f in s.rows && s.rows[f].ready
    ensures var row := s.rows[f];
            && RowKey(row) in s.blobs && row.owners in s.tri && row.size == Wrap32(|s.blobs[RowKey(row)]|)
            && GetTripletIdFromToken(row.token) == Some(row.owners)
            && (Get(c, s, row.token) == Data(s.blobs[RowKey(row)]) <==> (c.aligned ==> s.blobs[RowKey(row)] != []))
  {
    hide Reachable, Inv, Get, GetTripletIdFromToken, RowKey;
    ReachableInv(c, s);
    ReadyRowReads(c, s, f);
  }

  /** Rows go before files: when the files of a triplet are deleted, no row names it. */
  lemma PurgeAfterRows(c: Config, s: State, tid: string, f: string)
    requires Reachable(c, s) && Step(c, s, Purge(tid)).Some? && f in s.rows
    ensures s.rows[f].owners != tid
    ensures s.rows[f].ready ==> GetTripletIdFromToken(s.rows[f].token) != Some(tid)
  {
    hide Reachable, Inv, GetTripletIdFromToken, Step;
    ReachableInv(c, s);
    RowsGoFirst(c, s, tid, f);
  }

  /** A crash in any reachable state can be recovered from: every file that a row needs is there and loads with a known
      state. What a start then makes of it is `SystemStart.StartReconciles`. */
  lemma CrashRecovers(c: Config, s: State)
    requires Reachable(c, s)
    ensures Startable(s) && Recreated(s) == map[] && Owners(s.rows) <= s.tri.Keys
  {
    hide Reachable, Inv, Startable, Recreated, Owners;
    ReachableInv(c, s);
    CrashStarts(c, s);
  }

  /** The error branches of `Put` behind the log append are dead: the record has the size that was reserved for, the
      header is not closed, and the padded entry fits. */
  lemma PutErrorsAreDead(c: Config, s: State, p: nat)
    requires Reachable(c, s) && At(s, p, BinDone) && c.maxBytes + OPEN_SIZE * s.unchecked < TWO_63
    ensures |RecordFor(c, s.jobs[p].blobId, s.jobs[p].data)| == Payload(c, s.jobs[p].data)
    ensures CanIndex(c, s, p) && s.tri[s.jobs[p].tid].state != STATE_CLOSED && Fits(JobEntry(c, s.jobs[p]))
  {
    hide Reachable, Inv, RecordFor, Payload, CanIndex, Fits;
    ReachableInv(c, s);
    PutNeverFails(c, s, p);
  }

  /** Once its check has passed, a worker always has a next step, whatever the others do, until it waits for a log that
      a torn append keeps locked. */
  lemma WorkerMovesOn(c: Config, s: State, p: nat, open: string, fresh_: string)
    requires Reachable(c, s) && p in s.jobs && c.maxBytes + OPEN_SIZE * s.unchecked < TWO_63
    requires s.jobs[p].pc != Torn && s.jobs[p].tid !in Locked(s.jobs)
    requires s.jobs[p].pc == Reserved ==> open in s.open - s.evicted && GoodId(fresh_) && fresh_ !in s.used
    ensures var a := NextStep(c, s, p, open, fresh_); StepJob(c, s, a).Some? && Careful(s, a)
  {
    hide Reachable, Inv, StepJob, NextStep, Locked, GoodId, Careful;
    ReachableInv(c, s);
    WorkerNeverStuck(c, s, p, open, fresh_);
  }

  // ----- where the code does not keep what one would expect -----

  /** A restart deletes the triplet of a returned token that no ready row owns. */
  lemma RestartLosesToken(c: Config, s: State, fresh_: string, p: nat)
    requires Inv(c, s) && At(s, p, Returned) && s.jobs[p].tid !in Owners(s.rows)
    requires AllReload(s) && GoodId(fresh_) && fresh_ !in s.used
    ensures Get(c, DoRestart(s, fresh_), JobToken(c, s.jobs[p])) == NoTriplet
  {
    hide Get, PutToken, Owners, DoRestart, AllReload, Rebooted, SystemBudget.Budget, SystemSwap.Served, NoDangling,
      SystemSwap.OpenCount, Store, Swapping, TripletOk, IsId, IsLarge, SortedByFile, Disk;
    var j := s.jobs[p];
    assert JobOk(c, s, j);
    InvParts(c, s);
    StartReconciles(s, fresh_);
    GetRoutes(c, DoRestart(s, fresh_), IsLarge(c, j), j.tid, j.blobId);
  }

  /** A returned token is lost when the process dies before the commit: from the first start, a `Put` into the open
      triplet runs through and its token reads the data; after a restart the triplet is deleted, since no row owns
      it. */
  lemma LostBeforeCommit(
      c: Config, first: string, p: nat, fid: string, id: string, data: seq<byte>, fresh_: string)
    requires GoodId(first) && GoodId(id) && GoodId(fresh_) && first != id && first != fresh_ && id != fresh_
    requires data != [] && |data| < TWO_63 && Payload(c, data) <= c.large
    requires MaxAlloc(c, data) <= c.maxBytes - OPEN_SIZE && 0 <= c.maxBytes < TWO_63 - OPEN_SIZE
    ensures var acts := PutSteps(c, p, fid, id, data, first);
            && After(c, first, acts).Some?
            && var s := After(c, first, acts).value;
               && At(s, p, Returned) && Get(c, s, JobToken(c, s.jobs[p])) == Data(data)
               && Step(c, s, Restart(fresh_)).Some?
               && Get(c, Step(c, s, Restart(fresh_)).value, JobToken(c, s.jobs[p])) == NoTriplet
  {
    hide Inv, GoodId, Get, JobToken, Payload, MaxAlloc, Run, Going, PutSteps, DoRestart, AllReload, Locked, NewTriplet,
      Owners;
    InitInv(c, first);
    NothingHeld();
    PutRuns(c, Init(first), p, fid, id, data, first);
    var acts := PutSteps(c, p, fid, id, data, first);
    var s := Run(c, Init(first), acts).value;
    PutLeaves(c, Init(first), s, acts, p);
    PutReadsBack(c, s, p);
    RestartNeverFails(c, s);
    RestartLosesToken(c, s, fresh_, p);
  }

  lemma NothingHeld()
    ensures Locked(map[]) == {} && Owners(map[]) == {}
  {
  }

  lemma PutLeaves(c: Config, s: State, r: State, acts: seq<Action>, p: nat)
    requires Going(c, s, r, acts, p)
    ensures Inv(c, r) && r.rows == s.rows && r.evicted == s.evicted
  {
    hide Inv, Run, Locked;
  }
}
