/** Hot swap: a stored blob's triplet is always in one of the dictionaries, a reader that looks at the open and then
    at the closed dictionary misses only what is being purged, and the number of open triplets comes back. */
module SystemSwap {
  import opened Bytes
  import opened BlobIndex
  import opened CacheSystem
  import opened SystemShape
  import opened SystemStore

  predicate Listed(s: State, tid: string) {
    tid in s.open || tid in s.closed || tid in s.large
  }

  /** Blobs and jobs are on triplets that some dictionary lists, and so is whatever a reader still looks for. */
  predicate Served(s: State) {
    && (forall k :: k in s.blobs ==> Listed(s, k.0))
    && (forall p :: p in s.jobs && !Early(s.jobs[p].pc) ==> Listed(s, s.jobs[p].tid))
    && (forall n :: n in s.readers ==> ReaderOk(s, s.readers[n]))
  }

  predicate ReaderOk(s: State, r: Reader) {
    match r
    case MissedOpen(tid) => tid in s.closed || tid in s.evicted
    case Found(_) => true
    case NotFound(tid) => tid in s.evicted
  }

  lemma InitServed(first: string)
    ensures Served(Init(first))
  {
  }

  /** No listed triplet is unlisted, no reader's answer spoiled, and a job goes only to a listed triplet. */
  lemma ServedFrame(s: State, r: State, p: nat)
    requires Served(s) && r.readers == s.readers
    requires s.closed <= r.closed && s.evicted <= r.evicted
    requires forall tid :: Listed(s, tid) ==> Listed(r, tid)
    requires forall k :: k in r.blobs ==> k in s.blobs || Listed(s, k.0)
    requires forall q :: q in r.jobs && q != p ==> q in s.jobs && r.jobs[q] == s.jobs[q]
    requires p in r.jobs && !Early(r.jobs[p].pc) ==> Listed(r, r.jobs[p].tid)
    ensures Served(r)
  {
  }

  predicate SameLists(s: State, r: State) {
    r.open == s.open && r.closed == s.closed && r.large == s.large && r.evicted == s.evicted && r.readers == s.readers
  }

  /** A job that is already on its triplet stays there. */
  lemma ServedJob(s: State, r: State, p: nat, j: Job)
    requires Served(s) && SameLists(s, r) && p in s.jobs && r.jobs == s.jobs[p := j]
    requires Early(j.pc) || Listed(s, j.tid)
    requires forall k :: k in r.blobs ==> k in s.blobs || Listed(s, k.0)
    ensures Served(r)
  {
    ServedFrame(s, r, p);
  }

  lemma ServedWrite(c: Config, s: State, a: Action)
    requires Served(s) && StepJob(c, s, a).Some? && (a.Append? || a.Tear? || a.Index? || a.Manifest?)
    ensures Served(StepJob(c, s, a).value)
  {
    hide GoodId, Locked, BinPut, IdxPut, MfPut, Payload, RecordFor, Printable, JobEntry;
    var r := StepJob(c, s, a).value;
    var k := r.jobs[a.p];
    assert r.jobs == s.jobs[a.p := k] && k.tid == s.jobs[a.p].tid;
    ServedJob(s, r, a.p, k);
  }

  lemma ServedAdvance(s: State, r: State, p: nat, pc: Pc)
    requires Served(s) && p in s.jobs && Early(s.jobs[p].pc) == Early(pc)
    requires r == SetJob(s, p, s.jobs[p].(pc := pc)).(total := r.total)
    ensures Served(r)
  {
    hide Early;
    ServedJob(s, r, p, s.jobs[p].(pc := pc));
  }

  /** Jobs come early and go. */
  lemma ServedJobs(s: State, r: State, p: nat)
    requires Served(s) && SameLists(s, r) && r.blobs == s.blobs
    requires forall q :: q in r.jobs && q != p ==> q in s.jobs && r.jobs[q] == s.jobs[q]
    requires p in r.jobs ==> Early(r.jobs[p].pc)
    ensures Served(r)
  {
    ServedFrame(s, r, p);
  }

  lemma JobStepServed(c: Config, s: State, a: Action)
    requires Served(s) && Shape(c, s) && StepJob(c, s, a).Some?
    ensures Served(StepJob(c, s, a).value)
  {
    hide Shape, Served, GoodId, Locked, IsLarge, BinPut, IdxPut, MfPut, Payload, RecordFor, NewTriplet, Printable,
      JobEntry,
      JobToken, MaxAlloc, DoAppend, DoTear, DoIndex, DoManifest, CanAppend, CanIndex, CanManifest;
    var r := StepJob(c, s, a).value;
    match a
    case Check(p, fid, id, data) => ServedJobs(s, r, p);
    case Reserve(p) => ServedAdvance(s, r, p, Reserved);
    case PlaceSmall(p, tid) => ServedPlaced(s, r, p, s.jobs[p].(pc := Placed, tid := tid));
    case PlaceLarge(p, tid) => ServedPlaced(s, r, p, s.jobs[p].(pc := Placed, tid := tid, increase := OPEN_SIZE));
    case Commit(p) => ServedJobs(s, r, p);
    case Append(p) => ServedWrite(c, s, a);
    case Tear(p, k) => ServedWrite(c, s, a);
    case Index(p) => ServedWrite(c, s, a);
    case Manifest(p) => ServedWrite(c, s, a);
    case Settle(p) => ServedAdvance(s, r, p, Settled);
    case Release(p) => ServedAdvance(s, r, p, Returned);
  }

  lemma ServedPlaced(s: State, r: State, p: nat, j: Job)
    requires Served(s) && r.jobs == s.jobs[p := j] && j.tid in r.open + r.large
    requires r.open == s.open && r.closed == s.closed && r.evicted == s.evicted && r.readers == s.readers
    requires s.large <= r.large && r.blobs == s.blobs
    ensures Served(r)
  {
    ServedFrame(s, r, p);
  }

  /** Where the order of the swap matters: a triplet leaves the open dictionary after it entered the closed one. */
  lemma SwapStepServed(c: Config, s: State, a: Action)
    requires Served(s) && Shape(c, s) && StepSwap(c, s, a).Some?
    ensures Served(StepSwap(c, s, a).value)
  {
    hide Files, Dicts, Jobs, GoodId, NewTriplet;
    var r := StepSwap(c, s, a).value;
    match a
    case SwapDrop =>
      assert s.swap.closing[0] in s.closed;
    case _ =>
  }

  lemma PurgeServed(c: Config, s: State, tid: string)
    requires Served(s) && Shape(c, s) && tid in s.evicted
    ensures Served(DoPurge(s, tid))
  {
    hide Files, Dicts, Swapping, GoodId, DiskSize;
    var r := DoPurge(s, tid);
    assert forall p :: p in s.jobs ==> JobOk(c, s, s.jobs[p]);
    assert forall x :: Listed(s, x) && x != tid ==> Listed(r, x);
  }

  lemma RestartServed(c: Config, s: State, fresh_: string)
    requires Served(s) && Shape(c, s) && Store(c, s) && AllReload(s) && Owners(s.rows) <= s.tri.Keys
    requires GoodId(fresh_) && fresh_ !in s.used
    ensures Served(DoRestart(s, fresh_))
  {
    hide Store, Dicts, Swapping, GoodId, Files, NewTriplet, Jobs, Reload;
    var b, r := Rebooted(s), DoRestart(s, fresh_);
    RebootFiles(s);
    assert forall tid :: tid in b.tri ==> Listed(b, tid);
    assert r.blobs == b.blobs && r.jobs == map[] && r.readers == map[];
  }

  lemma StepKeepsServed(c: Config, s: State, a: Action)
    requires Served(s) && Shape(c, s) && Store(c, s) && Step(c, s, a).Some? && Owners(s.rows) <= s.tri.Keys
    ensures Served(Step(c, s, a).value)
  {
    hide Served, Shape, Store, StepJob, StepSwap, DoRestart, DoPurge, CanEvict, GoodId, Careful;
    var r := Step(c, s, a).value;
    match a
    case Purge(tid) => PurgeServed(c, s, tid);
    case Restart(fresh_) => RestartServed(c, s, fresh_);
    case PayDebt(_) => SameServed(s, r);
    case Evict(_) => SameServed(s, r);
    case Miss(_) => SameServed(s, r);
    case Outdate(_, _, _) => SameServed(s, r);
    case Rollback(_) => SameServed(s, r);
    case ReadOpen(_, tid, id) => ReadOpenServed(s, r, a.r, tid, id);
    case ReadClosed(n) => ReadClosedServed(s, n);
    case SwapOpen(_, _) | SwapAccount | SwapScanned | SwapPublish | SwapClose | SwapMark | SwapDrop =>
      SwapStepServed(c, s, a);
    case _ => JobStepServed(c, s, a);
  }

  lemma SameServed(s: State, r: State)
    requires Served(s) && r.jobs == s.jobs && r.blobs == s.blobs && r.readers == s.readers
    requires r.open == s.open && r.closed == s.closed && r.large == s.large && s.evicted <= r.evicted
    ensures Served(r)
  {
    ServedFrame(s, r, 0);
  }

  lemma ReadClosedServed(s: State, n: nat)
    requires Served(s) && n in s.readers && s.readers[n].MissedOpen?
    ensures Served(DoReadClosed(s, n))
  {
  }

  lemma ReadOpenServed(s: State, r: State, n: nat, tid: string, id: string)
    requires Served(s) && (tid, id) in s.blobs && tid !in s.large && n !in s.readers && r == DoReadOpen(s, n, tid)
    ensures Served(r)
  {
    assert Listed(s, tid);
  }

  /** A reader finds its triplet at the first look exactly when it is open then, and at the second exactly when it is
      closed then. */
  lemma LooksExactly(c: Config, s: State, a: Action)
    requires (a.ReadOpen? || a.ReadClosed?) && Step(c, s, a).Some?
    ensures var r := Step(c, s, a).value;
            && a.r in r.readers && r == s.(readers := r.readers)
            && (a.ReadOpen? ==> r.readers[a.r].tid == a.tid && (r.readers[a.r].Found? <==> a.tid in s.open))
            && (a.ReadClosed? ==>
                  && a.r in s.readers && r.readers[a.r].tid == s.readers[a.r].tid
                  && (r.readers[a.r].Found? <==> s.readers[a.r].tid in s.closed))
  {
    hide GoodId;
  }

  // ----- the open dictionary -----

  /** Opens beyond those a swap in progress is about to close. */
  function OpenCount(s: State): int {
    |s.open| + |s.swap.news| - |s.swap.closing|
  }

  /** The open dictionary is never empty. */
  lemma NeverEmpty(s: State)
    requires Swapping(s) && OpenCount(s) >= 1
    ensures s.open != {}
    ensures s.swap.pc == Scan ==> |s.open| == OpenCount(s)
  {
  }

  /** But for the middle of a swap no open triplet is queued for purging. */
  lemma OutsideWindow(s: State)
    requires Dicts(s) && Swapping(s) && (s.swap.pc == Scan || s.swap.pc == Publish)
    ensures s.open !! s.evicted
  {
    hide GoodId;
  }

  /** Some open triplet is not queued for purging, even while a swap is closing one that is. */
  lemma FreeOpen(s: State)
    requires Dicts(s) && Swapping(s) && OpenCount(s) >= 1
    ensures s.open - s.evicted != {}
  {
    hide GoodId;
    var w := s.swap;
    if w.pc == Mark || w.pc == Drop {
      forall tid | tid in s.open && tid in s.evicted
        ensures tid == w.closing[0]
      {
      }
      Removed(s.open, w.closing[0]);
      assert s.open - {w.closing[0]} <= s.open - s.evicted;
      assert s.open - {w.closing[0]} != {};
    } else {
      NeverEmpty(s);
      assert s.open - s.evicted == s.open;
    }
  }

  lemma Removed(xs: set<string>, x: string)
    requires x in xs
    ensures |xs - {x}| == |xs| - 1
  {
  }

  lemma SwapStepCount(c: Config, s: State, a: Action)
    requires Shape(c, s) && StepSwap(c, s, a).Some?
    ensures OpenCount(StepSwap(c, s, a).value) == OpenCount(s)
  {
    hide Files, Dicts, Jobs, GoodId, NewTriplet;
    if a.SwapDrop? {
      Removed(s.open, s.swap.closing[0]);
    }
  }

  lemma JobStepCount(c: Config, s: State, a: Action)
    requires StepJob(c, s, a).Some?
    ensures OpenCount(StepJob(c, s, a).value) == OpenCount(s)
  {
    hide GoodId, Locked, IsLarge, BinPut, IdxPut, MfPut, Payload, RecordFor, NewTriplet, Printable, JobEntry,
      JobToken, MaxAlloc,
      CanAppend, CanIndex, CanManifest, CanCheck;
  }

  lemma SameCount(s: State, r: State)
    requires r.open == s.open && r.swap == s.swap
    ensures OpenCount(r) == OpenCount(s)
  {
  }

  lemma PurgeCount(s: State, tid: string)
    ensures OpenCount(DoPurge(s, tid)) == OpenCount(s)
  {
    hide DiskSize;
  }

  /** Every step but a restart keeps the count, so a complete swap gives back as many open triplets as before. */
  lemma StepKeepsCount(c: Config, s: State, a: Action)
    requires Shape(c, s) && Step(c, s, a).Some? && !a.Restart?
    ensures OpenCount(Step(c, s, a).value) == OpenCount(s)
  {
    hide Shape, OpenCount, GoodId, StepJob, StepSwap, CanEvict, DoPurge, Careful;
    var r := Step(c, s, a).value;
    match a
    case Miss(_) => SameCount(s, r);
    case Outdate(_, _, _) => SameCount(s, r);
    case Rollback(_) => SameCount(s, r);
    case Evict(_) => SameCount(s, r);
    case PayDebt(_) => SameCount(s, r);
    case ReadOpen(_, _, _) => SameCount(s, r);
    case ReadClosed(_) => SameCount(s, r);
    case Purge(tid) => PurgeCount(s, tid);
    case SwapOpen(_, _) | SwapAccount | SwapScanned | SwapPublish | SwapClose | SwapMark | SwapDrop =>
      SwapStepCount(c, s, a);
    case _ => JobStepCount(c, s, a);
  }

  lemma RestartCount(c: Config, s: State, fresh_: string)
    requires AllReload(s)
    ensures OpenCount(DoRestart(s, fresh_)) >= 1
  {
    hide Reload, Owners, InState, ReadyRows;
  }
}
