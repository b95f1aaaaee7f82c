/** What the machine's timing excludes (`Careful`) and the code does not: what becomes of a row when its triplet is
    evicted while a worker is on its way to it, of a purge in the middle of a swap, and exactly when that harms. */
module SystemEviction {
  import opened Bytes
  import opened BlobIndex
  import opened Tokens
  import opened CacheSystem
  import opened SystemShape
  import opened SystemStore
  import opened SystemRows
  import opened SystemRuns
  import opened SystemDurability
  import opened SystemPut
  import opened SystemResults
  import SystemBudget
  import SystemSwap

  /** The state after steps of the code, whatever their timing. */
  ghost function CodeRun(c: Config, s: State, acts: seq<Action>): Option<State>
    decreases |acts|
  {
    if acts == [] then Some(s)
    else
      match CodeRun(c, s, acts[..|acts| - 1])
      case None => None
      case Some(r) => CodeStep(c, r, acts[|acts| - 1])
  }

  /** The machine's runs are runs of the code. */
  lemma {:induction false} RunIsCode(c: Config, s: State, acts: seq<Action>)
    requires Run(c, s, acts).Some?
    ensures CodeRun(c, s, acts) == Run(c, s, acts)
    decreases |acts|
  {
    hide CodeStep, Careful;
    if acts != [] {
      RunIsCode(c, s, acts[..|acts| - 1]);
    }
  }

  // ----- steps that an eviction does not matter to -----

  /** Steps that look neither at the rows nor at the queue for purging. */
  predicate Bystander(a: Action) {
    match a
    case Commit(_) => false
    case Miss(_) => false
    case Outdate(_, _, _) => false
    case Rollback(_) => false
    case Evict(_) => false
    case Purge(_) => false
    case Restart(_) => false
    case _ => true
  }

  predicate AllBystanders(acts: seq<Action>) {
    forall i :: 0 <= i < |acts| ==> Bystander(acts[i])
  }

  /** `s` with the rows and the queue of `e`. */
  function With(s: State, e: State): State {
    s.(rows := e.rows, evicted := e.evicted)
  }

  function WithOf(r: Option<State>, e: State): Option<State> {
    match r
    case Some(q) => Some(With(q, e))
    case None => None
  }

  predicate SameRowsAs(r: Option<State>, s: State) {
    r.Some? ==> r.value.rows == s.rows && r.value.evicted == s.evicted
  }

  lemma WriteBlind(c: Config, s: State, e: State, a: Action)
    requires a.Append? || a.Tear? || a.Index? || a.Manifest?
    ensures StepJob(c, With(s, e), a) == WithOf(StepJob(c, s, a), e) && SameRowsAs(StepJob(c, s, a), s)
  {
    hide GoodId, Locked, BinPut, IdxPut, MfPut, Payload, RecordFor, Printable, JobEntry, IdxGrowth, MfGrowth,
      DoCommit, DoCheck, DoPlaceLarge, DoPlaceSmall, DoReserve, DoSettle, DoRelease;
  }

  lemma PlaceBlind(c: Config, s: State, e: State, a: Action)
    requires a.Check? || a.PlaceSmall? || a.PlaceLarge?
    ensures StepJob(c, With(s, e), a) == WithOf(StepJob(c, s, a), e) && SameRowsAs(StepJob(c, s, a), s)
  {
    hide GoodId, IsLarge, NewTriplet, MaxAlloc, CanAppend, CanTear, CanIndex, CanManifest, DoAppend, DoTear, DoIndex,
      DoManifest, DoCommit, DoReserve, DoSettle, DoRelease;
  }

  lemma TotalBlind(c: Config, s: State, e: State, a: Action)
    requires a.Reserve? || a.Settle? || a.Release?
    ensures StepJob(c, With(s, e), a) == WithOf(StepJob(c, s, a), e) && SameRowsAs(StepJob(c, s, a), s)
  {
    hide MaxAlloc, CanCheck, CanPlaceSmall, CanPlaceLarge, CanAppend, CanTear, CanIndex, CanManifest, DoAppend, DoTear,
      DoIndex, DoManifest, DoCommit, DoCheck, DoPlaceSmall, DoPlaceLarge;
  }

  lemma JobBlind(c: Config, s: State, e: State, a: Action)
    requires Bystander(a)
    ensures StepJob(c, With(s, e), a) == WithOf(StepJob(c, s, a), e) && SameRowsAs(StepJob(c, s, a), s)
  {
    hide CanCheck, CanPlaceSmall, CanPlaceLarge, CanAppend, CanTear, CanIndex, CanManifest, DoAppend, DoTear, DoIndex,
      DoManifest, DoCommit, DoCheck, DoReserve, DoSettle, DoRelease, DoPlaceSmall, DoPlaceLarge, At;
    match a
    case Append(_) => WriteBlind(c, s, e, a);
    case Tear(_, _) => WriteBlind(c, s, e, a);
    case Index(_) => WriteBlind(c, s, e, a);
    case Manifest(_) => WriteBlind(c, s, e, a);
    case Check(_, _, _, _) => PlaceBlind(c, s, e, a);
    case PlaceSmall(_, _) => PlaceBlind(c, s, e, a);
    case PlaceLarge(_, _) => PlaceBlind(c, s, e, a);
    case Reserve(_) => TotalBlind(c, s, e, a);
    case Settle(_) => TotalBlind(c, s, e, a);
    case Release(_) => TotalBlind(c, s, e, a);
    case _ =>
  }

  lemma SwapBlind(c: Config, s: State, e: State, a: Action)
    ensures StepSwap(c, With(s, e), a) == WithOf(StepSwap(c, s, a), e) && SameRowsAs(StepSwap(c, s, a), s)
  {
    hide GoodId, NewTriplet;
  }

  lemma CodeBlind(c: Config, s: State, e: State, a: Action)
    requires Bystander(a)
    ensures CodeStep(c, With(s, e), a) == WithOf(CodeStep(c, s, a), e) && SameRowsAs(CodeStep(c, s, a), s)
  {
    hide StepJob, StepSwap, CanEvict, DoRestart, DoPurge, GoodId;
    JobBlind(c, s, e, a);
    SwapBlind(c, s, e, a);
  }

  /** An eviction commutes with every run of such steps. */
  lemma {:induction false} RunCommutes(c: Config, s: State, t: string, more: seq<Action>)
    requires Run(c, s, more).Some? && AllBystanders(more)
    ensures var q := Run(c, s, more).value;
            && q.rows == s.rows && q.evicted == s.evicted
            && CodeRun(c, DoEvict(s, t), more) == Some(DoEvict(q, t))
    decreases |more|
  {
    hide CodeStep, Bystander;
    if more != [] {
      var n := |more| - 1;
      RunCommutes(c, s, t, more[..n]);
      var m, q := Run(c, s, more[..n]).value, Run(c, s, more).value;
      CodeBlind(c, m, DoEvict(m, t), more[n]);
      assert With(m, DoEvict(m, t)) == DoEvict(m, t);
      assert With(q, DoEvict(m, t)) == DoEvict(q, t);
    }
  }

  // ----- an eviction too early -----

  /** Some ready row is owned by a triplet that is queued for purging. */
  predicate Dangling(s: State) {
    exists f :: f in s.rows && s.rows[f].ready && s.rows[f].owners in s.evicted
  }

  /** The triplet `t` is evicted at any moment `s` while a worker is still to commit, and from there on the code runs as
      it would have done. The commit then leaves a ready row on an evicted triplet exactly when the worker wrote to `t`
      and its file still has a row: the rows of `t` went when it was evicted, and this one comes after. */
  lemma EarlyEvictionDangles(c: Config, s: State, t: string, more: seq<Action>, p: nat)
    requires Reachable(c, s) && AllBystanders(more)
    requires Run(c, s, more).Some? && At(Run(c, s, more).value, p, Returned)
    ensures var q := Run(c, s, more).value;
            && CodeRun(c, DoEvict(s, t), more) == Some(DoEvict(q, t))
            && (Dangling(DoCommit(c, DoEvict(q, t), p))
                <==> t == q.jobs[p].tid && q.jobs[p].fid in s.rows && s.rows[q.jobs[p].fid].owners != t)
  {
    hide Reachable, Inv, Run, CodeRun, Dangling, DoCommit, DoEvict;
    ReachableInv(c, s);
    RunFromInv(c, s, more);
    RunCommutes(c, s, t, more);
    CommitAfter(c, Run(c, s, more).value, p, t);
  }

  lemma CommitAfter(c: Config, s: State, p: nat, t: string)
    requires Inv(c, s) && At(s, p, Returned)
    ensures Dangling(DoCommit(c, DoEvict(s, t), p))
            <==> t == s.jobs[p].tid && s.jobs[p].fid in s.rows && s.rows[s.jobs[p].fid].owners != t
  {
    hide GetTripletIdFromToken, GetBlobIdFromToken, PutToken, JobToken, Inv;
    CommitOwner(c, s, p);
    var j, e := s.jobs[p], DoEvict(s, t);
    var r := DoCommit(c, e, p);
    if t == j.tid && j.fid in e.rows {
      assert r.rows[j.fid].ready && r.rows[j.fid].owners in r.evicted;
    }
    forall f | f in r.rows && r.rows[f].ready && r.rows[f].owners in r.evicted
      ensures t == j.tid && j.fid in e.rows
    {
    }
  }

  /** The commit writes the worker's triplet as owner, and no row is owned by an evicted triplet before. */
  lemma CommitOwner(c: Config, s: State, p: nat)
    requires Inv(c, s) && At(s, p, Returned)
    ensures GetTripletIdFromToken(JobToken(c, s.jobs[p])) == Some(s.jobs[p].tid) && s.jobs[p].tid !in s.evicted
    ensures forall f :: f in s.rows ==> s.rows[f].owners !in s.evicted
  {
    hide SystemBudget.Budget, SystemSwap.Served, SystemSwap.OpenCount, Shape, Store, GetTripletIdFromToken, JobToken,
      RowOk, GoodId;
    CommitRow(c, s, p);
  }

  /** The purge then leaves a ready row whose triplet is gone and whose token is missed. */
  lemma PurgedUnderRow(c: Config, s: State, more: seq<Action>, p: nat)
    requires Reachable(c, s) && AllBystanders(more)
    requires Run(c, s, more).Some? && At(Run(c, s, more).value, p, Returned)
    requires var j := Run(c, s, more).value.jobs[p]; j.fid in s.rows && s.rows[j.fid].owners != j.tid
    ensures var j := Run(c, s, more).value.jobs[p];
            && CodeRun(c, DoEvict(s, j.tid), more) == Some(DoEvict(Run(c, s, more).value, j.tid))
            && var q := DoPurge(DoCommit(c, DoEvict(Run(c, s, more).value, j.tid), p), j.tid);
               && j.fid in q.rows && q.rows[j.fid].ready && q.rows[j.fid].owners !in q.tri
               && Get(c, q, q.rows[j.fid].token) == NoTriplet
  {
    hide Reachable, Inv, Run, CodeRun, DoCommit, DoEvict, DoPurge, Get;
    ReachableInv(c, s);
    RunFromInv(c, s, more);
    var q := Run(c, s, more).value;
    RunCommutes(c, s, q.jobs[p].tid, more);
    PurgeAfter(c, q, p);
  }

  lemma PurgeAfter(c: Config, s: State, p: nat)
    requires Inv(c, s) && At(s, p, Returned)
    requires s.jobs[p].fid in s.rows && s.rows[s.jobs[p].fid].owners != s.jobs[p].tid
    ensures var j := s.jobs[p];
            var q := DoPurge(DoCommit(c, DoEvict(s, j.tid), p), j.tid);
            && j.fid in q.rows && q.rows[j.fid].ready && q.rows[j.fid].owners !in q.tri
            && Get(c, q, q.rows[j.fid].token) == NoTriplet
  {
    hide Inv, GetTripletIdFromToken, GetBlobIdFromToken, PutToken, Get, DiskSize, GoodId, IsLarge;
    CommitOwner(c, s, p);
    JobIds(c, s, p);
    var j := s.jobs[p];
    var q := DoPurge(DoCommit(c, DoEvict(s, j.tid), p), j.tid);
    GetRoutes(c, q, IsLarge(c, j), j.tid, j.blobId);
  }

  lemma JobIds(c: Config, s: State, p: nat)
    requires Inv(c, s) && At(s, p, Returned)
    ensures GoodId(s.jobs[p].tid) && GoodId(s.jobs[p].blobId)
  {
    hide SystemBudget.Budget, SystemSwap.Served, SystemSwap.OpenCount, Dicts, Swapping, Store, NoDangling, TripletOk,
      IsId;
    assert JobOk(c, s, s.jobs[p]);
  }

  // ----- runs that get there -----

  lemma ReachedBy(c: Config, first: string, acts: seq<Action>, s: State)
    requires c.maxBytes >= 0 && GoodId(first) && Run(c, Init(first), acts) == Some(s)
    ensures Reachable(c, s)
  {
    hide Run, GoodId;
    assert After(c, first, acts) == Some(s);
  }

  lemma ReachMore(c: Config, s: State, acts: seq<Action>)
    requires Reachable(c, s) && Run(c, s, acts).Some?
    ensures Reachable(c, Run(c, s, acts).value)
  {
    hide Run, GoodId;
    var first, before :| GoodId(first) && After(c, first, before) == Some(s);
    RunJoins(c, Init(first), before, acts);
    ReachedBy(c, first, before + acts, Run(c, s, acts).value);
  }

  lemma ReachStep(c: Config, s: State, a: Action)
    requires Reachable(c, s) && Step(c, s, a).Some?
    ensures Reachable(c, Step(c, s, a).value)
  {
    hide Reachable, Step, Run;
    RunOne(c, s, a);
    ReachMore(c, s, [a]);
  }

  lemma InitReachable(c: Config, first: string)
    requires c.maxBytes >= 0 && GoodId(first)
    ensures Reachable(c, Init(first))
  {
    hide GoodId;
    ReachedBy(c, first, [], Init(first));
  }

  lemma LargeJob(c: Config, s: State, p: nat)
    requires Inv(c, s) && At(s, p, Returned) && IsLarge(c, s.jobs[p])
    ensures s.jobs[p].tid in s.large && s.jobs[p].tid !in s.open && s.jobs[p].tid != ""
  {
    hide SystemBudget.Budget, SystemSwap.Served, SystemSwap.OpenCount, Swapping, Store, NoDangling, TripletOk, IsId,
      IsLarge;
    assert JobOk(c, s, s.jobs[p]);
  }

  /** A run of the code, its wait before a purge included, reaches such a moment from the first start by a miss and a
      `Put` of a large file: its triplet is not open, so the eviction may pick it, and the row of its file is
      pending. */
  lemma EarlyEvictionHappens(
      c: Config, first: string, p: nat, fid: string, id: string, data: seq<byte>, tid: string)
    requires GoodId(first) && GoodId(id) && GoodId(tid) && first != id && first != tid && id != tid
    requires |data| < TWO_63 && Payload(c, data) > c.large
    requires MaxAlloc(c, data) <= c.maxBytes - OPEN_SIZE && 0 <= c.maxBytes < TWO_63 - OPEN_SIZE
    ensures exists s ::
              && Reachable(c, s) && At(s, p, Returned) && CodeStep(c, s, Evict(tid)) == Some(DoEvict(s, tid))
              && Dangling(DoCommit(c, DoEvict(s, tid), p))
  {
    hide Inv, GoodId, Payload, MaxAlloc, Run, Going, PutSteps, Locked, NewTriplet, Dangling, Reachable, Shape;
    var m := Init(first).(rows := map[fid := Row(false, "", "", 0)]);
    InitReachable(c, first);
    MissReach(c, Init(first), fid);
    assert map[][fid := Row(false, "", "", 0)] == map[fid := Row(false, "", "", 0)];
    ReachableInv(c, m);
    NothingHeld();
    PutRuns(c, m, p, fid, id, data, tid);
    var acts := PutSteps(c, p, fid, id, data, tid);
    var s := Run(c, m, acts).value;
    PutLeaves(c, m, s, acts, p);
    ReachMore(c, m, acts);
    LargeJob(c, s, p);
    CommitAfter(c, s, p, tid);
  }

  lemma MissReach(c: Config, s: State, fid: string)
    requires Reachable(c, s) && fid !in s.rows
    ensures Reachable(c, s.(rows := s.rows[fid := Row(false, "", "", 0)]))
  {
    hide Reachable;
    ReachStep(c, s, Miss(fid));
  }

  // ----- the middle of a swap -----

  /** A swap has put `t` into the closed dictionary and not yet taken it from the open one, where a worker may still
      find it; nobody writes to it. */
  predicate InWindow(s: State, t: string) {
    && t in s.open && t in s.closed && t !in s.evicted
    && forall q :: q in s.jobs ==> s.jobs[q].tid != t
  }

  /** What a worker at `Reserved` does when it picks `t`. */
  function StepsInto(p: nat, t: string): seq<Action> {
    [PlaceSmall(p, t)] + [Append(p)] + [Index(p)] + [Manifest(p)] + [Settle(p)] + [Release(p)]
  }

  lemma StepsIntoBystand(p: nat, t: string)
    ensures AllBystanders(StepsInto(p, t))
  {
  }

  /** Left alone, the worker comes through. */
  lemma IntoRuns(c: Config, s: State, p: nat, t: string)
    requires Inv(c, s) && At(s, p, Reserved) && !IsLarge(c, s.jobs[p]) && t in s.open - s.evicted
    requires Locked(s.jobs) == {} && c.maxBytes + OPEN_SIZE * s.unchecked < TWO_63
    ensures Run(c, s, StepsInto(p, t)).Some?
    ensures var q := Run(c, s, StepsInto(p, t)).value;
            At(q, p, Returned) && q.jobs[p].tid == t && q.jobs[p].fid == s.jobs[p].fid
  {
    hide Inv, Run, Locked, IsLarge, Going;
    var j, placed := s.jobs[p], DoPlaceSmall(s, p, t);
    StandsStill(c, s, p);
    SmallStep(c, s, p, t);
    AdvancePlace(c, s, s, [], p, t);
    assert [] + [PlaceSmall(p, t)] == [PlaceSmall(p, t)];
    var r := WriteRuns(c, s, placed, [PlaceSmall(p, t)], p, t, j.fid, j.blobId, j.data);
    GoingRun(c, s, r, StepsInto(p, t), p);
  }

  lemma StandsStill(c: Config, s: State, p: nat)
    requires Inv(c, s) && p in s.jobs && Locked(s.jobs) == {} && c.maxBytes + OPEN_SIZE * s.unchecked < TWO_63
    ensures Going(c, s, s, [], p)
  {
    hide Inv, Locked;
    assert s.jobs.Keys + {p} == s.jobs.Keys;
  }

  lemma SmallStep(c: Config, s: State, p: nat, t: string)
    requires p in s.jobs && !IsLarge(c, s.jobs[p])
    ensures PlaceStep(c, p, s.jobs[p].data, t) == PlaceSmall(p, t)
  {
  }

  /** In the middle of a swap the eviction may take `t` while no write to it is in flight. A worker that then picks `t`
      runs through and returns its token, and its commit leaves a ready row on an evicted triplet exactly when its
      file has a row that is not owned by `t`. */
  lemma SwapWindowDangles(c: Config, s: State, p: nat, t: string)
    requires Reachable(c, s) && At(s, p, Reserved) && !IsLarge(c, s.jobs[p]) && InWindow(s, t)
    requires Locked(s.jobs) == {} && c.maxBytes + OPEN_SIZE * s.unchecked < TWO_63
    ensures Step(c, s, Evict(t)) == Some(DoEvict(s, t))
    ensures var q := CodeRun(c, DoEvict(s, t), StepsInto(p, t));
            && q.Some? && At(q.value, p, Returned)
            && (Dangling(DoCommit(c, q.value, p))
                <==> s.jobs[p].fid in s.rows && s.rows[s.jobs[p].fid].owners != t)
  {
    hide Reachable, Inv, Run, CodeRun, Dangling, DoCommit, Locked, IsLarge, StepsInto, AllBystanders;
    ReachableInv(c, s);
    IntoRuns(c, s, p, t);
    StepsIntoBystand(p, t);
    EarlyEvictionDangles(c, s, t, StepsInto(p, t), p);
  }

  /** And a purge before the swap has gone on leaves the open dictionary with a triplet that has no files. */
  lemma EarlyPurgeStrands(c: Config, s: State, t: string)
    requires Reachable(c, s) && t in s.evicted
    ensures CodeStep(c, s, Purge(t)) == Some(DoPurge(s, t))
    ensures DoPurge(s, t).open <= DoPurge(s, t).tri.Keys <==> t !in s.open
  {
    hide Reachable, Inv, DiskSize;
    ReachableInv(c, s);
    OpenPresent(c, s);
  }

  lemma OpenPresent(c: Config, s: State)
    requires Inv(c, s)
    ensures s.open <= s.tri.Keys
  {
    hide SystemBudget.Budget, SystemSwap.Served, SystemSwap.OpenCount, Files, Jobs, Swapping, Store, NoDangling;
  }

  // ----- a run that gets there -----

  /** The swap of the only open triplet, up to the point where it has entered the closed dictionary. */
  function Halfway(s: State, t: string, fresh_: string): State {
    SetTriplet(s, fresh_, NewTriplet(false))
    .(open := s.open + {fresh_}, closed := s.closed + {t}, total := s.total + OPEN_SIZE,
      swap := Swap(Mark, [t], [], false), used := s.used + {fresh_}, unchecked := s.unchecked + 1)
  }

  lemma HalfwayReached(c: Config, s: State, t: string, fresh_: string)
    requires Reachable(c, s) && s.swap == Swap(Scan, [], [], false)
    requires t in s.open && t in s.tri && s.tri[t].curOff > c.closing && GoodId(fresh_) && fresh_ !in s.used
    ensures Reachable(c, Halfway(s, t, fresh_))
  {
    hide Reachable, NewTriplet, GoodId;
    var s1 := DoSwapOpen(s, t, fresh_);
    ReachStep(c, s, SwapOpen(t, fresh_));
    var s2 := s1.(total := s1.total + OPEN_SIZE, swap := s1.swap.(owed := false));
    ReachStep(c, s1, SwapAccount);
    var s3 := s2.(swap := s2.swap.(pc := Publish));
    ReachStep(c, s2, SwapScanned);
    ReachStep(c, s3, SwapPublish);
    ReachStep(c, DoSwapPublish(s3), SwapClose);
    assert DoSwapClose(DoSwapPublish(s3)) == Halfway(s, t, fresh_);
  }

  /** From the first start, a whole `Put` into the open triplet that fills it, and its commit, whose row is gone. */
  lemma FirstPut(c: Config, first: string, p: nat, fid: string, id: string, data: seq<byte>) returns (s: State)
    requires GoodId(first) && GoodId(id) && first != id
    requires |data| < TWO_63 && c.closing < Payload(c, data) <= c.large
    requires MaxAlloc(c, data) <= c.maxBytes - OPEN_SIZE && 0 <= c.maxBytes < TWO_63 - OPEN_SIZE
    ensures Reachable(c, s) && FullAndQuiet(c, s, first, id, data)
  {
    hide Reachable, Inv, GoodId, Payload, MaxAlloc, Run, Going, PutSteps, Locked, NewTriplet, JobToken,
      GetTripletIdFromToken, DoCommit, FullAndQuiet;
    InitReachable(c, first);
    ReachableInv(c, Init(first));
    NothingHeld();
    NewOffset();
    PutRuns(c, Init(first), p, fid, id, data, first);
    var acts := PutSteps(c, p, fid, id, data, first);
    var r := Run(c, Init(first), acts).value;
    ReachMore(c, Init(first), acts);
    ReachableInv(c, r);
    ReachStep(c, r, Commit(p));
    s := DoCommit(c, r, p);
    FirstPutLeaves(c, first, r, acts, p, id, data);
  }

  /** One triplet, full and open; nobody at work. */
  predicate FullAndQuiet(c: Config, s: State, first: string, id: string, data: seq<byte>) {
    && s.jobs == map[] && s.rows == map[] && s.evicted == {} && s.used == {first, id}
    && s.open == {first} && s.closed == {} && s.swap == Swap(Scan, [], [], false)
    && first in s.tri && s.tri[first].curOff > c.closing
    && s.total <= OPEN_SIZE + MaxAlloc(c, data) && s.unchecked <= 1
  }

  lemma NewOffset()
    ensures NewTriplet(false).curOff == 0
  {
  }

  lemma FirstPutLeaves(
      c: Config, first: string, r: State, acts: seq<Action>, p: nat, id: string, data: seq<byte>)
    requires Going(c, Init(first), r, acts, p) && At(r, p, Returned) && r.jobs[p].data == data
    requires r.used == {first, id} && r.total == OPEN_SIZE + r.jobs[p].increase
    requires first in r.tri && r.tri[first].curOff > c.closing
    ensures FullAndQuiet(c, DoCommit(c, r, p), first, id, data)
  {
    hide Inv, Run, Locked, NewTriplet, JobToken, GetTripletIdFromToken, MaxAlloc;
    IncreaseBounded(c, r, p);
    assert r.jobs - {p} == map[];
  }

  lemma IncreaseBounded(c: Config, s: State, p: nat)
    requires Inv(c, s) && At(s, p, Returned)
    ensures s.jobs[p].increase <= MaxAlloc(c, s.jobs[p].data)
  {
    hide Shape, Store, NoDangling, SystemSwap.Served, SystemSwap.OpenCount, SystemBudget.Balanced, Payload;
  }

  lemma NotEmpty(id: string)
    requires GoodId(id)
    ensures id != ""
  {
  }

  /** A second worker asks for space while the swap of that triplet stands in the middle. */
  lemma WindowReached(
      c: Config, first: string, p: nat, fid: string, id: string, id2: string, new_: string, data: seq<byte>)
      returns (s: State)
    requires GoodId(first) && GoodId(id) && GoodId(id2) && GoodId(new_) && id != id2
    requires first !in {id, id2, new_} && new_ !in {id, id2}
    requires |data| < TWO_63 && c.closing < Payload(c, data) <= c.large
    requires 2 * MaxAlloc(c, data) <= c.maxBytes - 2 * OPEN_SIZE && 0 <= c.maxBytes < TWO_63 - 2 * OPEN_SIZE
    ensures Reachable(c, s) && At(s, p, Reserved) && !IsLarge(c, s.jobs[p]) && InWindow(s, first)
    ensures Locked(s.jobs) == {} && c.maxBytes + OPEN_SIZE * s.unchecked < TWO_63
    ensures s.jobs[p].fid == fid && fid in s.rows && s.rows[fid].owners != first
  {
    hide Reachable, Inv, GoodId, Payload, Run, Locked, NewTriplet, MaxAlloc;
    var w := FirstPut(c, first, p, fid, id, data);
    HalfwayReached(c, w, first, new_);
    var h := Halfway(w, first, new_);
    MissReach(c, h, fid);
    var m := h.(rows := h.rows[fid := Row(false, "", "", 0)]);
    ReachableInv(c, m);
    NothingHeld();
    ReservedGoing(c, m, p, fid, id2, data);
    s := AfterReserve(c, m, p, fid, id2, data);
    NotEmpty(first);
    ReachMore(c, m, [Check(p, fid, id2, data), Reserve(p)]);
  }

  /** Both happen: a run of the code from the first start gets into the middle of a swap with a worker that has its
      reservation, the eviction may take the triplet there, and the worker that picks it leaves a ready row on an
      evicted triplet; and a purge in that moment leaves an open triplet without files. */
  lemma SwapWindowHappens(
      c: Config, first: string, p: nat, fid: string, id: string, id2: string, new_: string, data: seq<byte>)
    requires GoodId(first) && GoodId(id) && GoodId(id2) && GoodId(new_) && id != id2
    requires first !in {id, id2, new_} && new_ !in {id, id2}
    requires |data| < TWO_63 && c.closing < Payload(c, data) <= c.large
    requires 2 * MaxAlloc(c, data) <= c.maxBytes - 2 * OPEN_SIZE && 0 <= c.maxBytes < TWO_63 - 2 * OPEN_SIZE
    ensures exists s ::
              && Reachable(c, s) && Step(c, s, Evict(first)) == Some(DoEvict(s, first))
              && var e, q := DoEvict(s, first), CodeRun(c, DoEvict(s, first), StepsInto(p, first));
                 && q.Some? && At(q.value, p, Returned) && Dangling(DoCommit(c, q.value, p))
                 && !(DoPurge(e, first).open <= DoPurge(e, first).tri.Keys)
  {
    hide Reachable, GoodId, Payload, MaxAlloc, CodeRun, Dangling, DoCommit, Locked, StepsInto, Step, DoPurge;
    var s := WindowReached(c, first, p, fid, id, id2, new_, data);
    SwapWindowDangles(c, s, p, first);
    ReachStep(c, s, Evict(first));
    EarlyPurgeStrands(c, DoEvict(s, first), first);
  }
}
