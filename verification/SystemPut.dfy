/** A whole `Put` as a run of the machine: one worker goes all its steps while the others stand still. */
module SystemPut {
  import opened Bytes
  import opened BlobIndex
  import opened BlobManifest
  import opened Tokens
  import opened CacheSystem
  import opened SystemShape
  import opened SystemBudget
  import opened SystemStore
  import opened SystemRows
  import opened SystemRuns
  import BlobBinary
  import SystemSwap

  lemma RunOne(c: Config, s: State, a: Action)
    ensures Run(c, s, [a]) == Step(c, s, a)
  {
    hide Step;
    assert [a][..0] == [];
    assert Run(c, s, []) == Some(s);
  }

  lemma {:induction false} RunJoins(c: Config, s: State, acts: seq<Action>, more: seq<Action>)
    requires Run(c, s, acts).Some?
    ensures Run(c, s, acts + more) == Run(c, Run(c, s, acts).value, more)
    decreases |more|
  {
    hide Step;
    if more == [] {
      assert acts + more == acts;
    } else {
      var n := |more| - 1;
      assert (acts + more)[..|acts + more| - 1] == acts + more[..n];
      RunJoins(c, s, acts, more[..n]);
    }
  }

  lemma RunTwo(c: Config, s: State, a: Action, b: Action)
    requires Step(c, s, a).Some?
    ensures Run(c, s, [a, b]) == Step(c, Step(c, s, a).value, b)
  {
    hide Step;
    RunOne(c, s, a);
    assert [a, b][..1] == [a];
  }

  /** What `Put` needs from its caller and from the others: a fresh id, a worker number of its own, and `mtx`. */
  predicate CanAsk(s: State, p: nat, id: string, data: seq<byte>) {
    && p !in s.jobs && GoodId(id) && id !in s.used && |data| < TWO_63
    && forall q :: q in s.jobs ==> s.jobs[q].pc != Checked
  }

  // ----- one worker while the others stand still -----

  /** The other workers, the swap and the debts are as they were. */
  predicate Beside(s: State, r: State, p: nat) {
    && r.jobs.Keys == s.jobs.Keys + {p} && (forall q :: q in s.jobs && q != p ==> r.jobs[q] == s.jobs[q])
    && r.debts == s.debts && r.swap == s.swap && r.unchecked <= s.unchecked && r.open == s.open
    && r.closed == s.closed && r.rows == s.rows && r.evicted == s.evicted
  }

  /** Worker `p` has come from `s` to `r` by the steps `acts`, and nobody is stuck in a torn append. */
  ghost predicate Going(c: Config, s: State, r: State, acts: seq<Action>, p: nat) {
    && Run(c, s, acts) == Some(r) && Inv(c, r) && Beside(s, r, p) && Locked(r.jobs) == {}
    && c.maxBytes + OPEN_SIZE * r.unchecked < TWO_63
  }

  lemma RunSnoc(c: Config, s: State, acts: seq<Action>, a: Action)
    requires Run(c, s, acts).Some?
    ensures Run(c, s, acts + [a]) == Step(c, Run(c, s, acts).value, a)
  {
    hide Step;
    assert (acts + [a])[..|acts|] == acts;
  }

  predicate StepOf(a: Action, p: nat) {
    match a
    case Reserve(q) => q == p
    case PlaceSmall(q, _) => q == p
    case PlaceLarge(q, _) => q == p
    case Append(q) => q == p
    case Index(q) => q == p
    case Manifest(q) => q == p
    case Settle(q) => q == p
    case Release(q) => q == p
    case _ => false
  }

  lemma StepBeside(c: Config, s: State, a: Action, p: nat)
    requires StepOf(a, p) && StepJob(c, s, a).Some?
    ensures Beside(s, StepJob(c, s, a).value, p)
    ensures StepJob(c, s, a).value.jobs[p].pc != Torn
  {
    hide GoodId, BinPut, IdxPut, MfPut, Payload, RecordFor, Printable, JobEntry, MaxAlloc, NewTriplet, IsLarge,
      Locked, CanAppend,
      CanIndex, CanManifest;
  }

  lemma LockedOf(jobs: map<nat, Job>, q: nat)
    requires q in jobs
    ensures jobs[q].pc == Torn ==> jobs[q].tid in Locked(jobs)
  {
  }

  lemma BesideUnlocked(s: State, r: State, p: nat)
    requires Locked(s.jobs) == {} && Beside(s, r, p) && r.jobs[p].pc != Torn
    ensures Locked(r.jobs) == {}
  {
    forall q | q in r.jobs
      ensures r.jobs[q].pc != Torn
    {
      if q != p {
        LockedOf(s.jobs, q);
      }
    }
  }

  lemma Advance(c: Config, s: State, r: State, acts: seq<Action>, p: nat, a: Action)
    requires Going(c, s, r, acts, p) && StepOf(a, p) && StepJob(c, r, a).Some? && Careful(r, a)
    ensures Going(c, s, StepJob(c, r, a).value, acts + [a], p)
  {
    hide Inv, Step, StepJob, Run, Locked;
    JobStepRows(c, r, a);
    StepKeepsInv(c, r, a);
    RunSnoc(c, s, acts, a);
    StepBeside(c, r, a, p);
    BesideUnlocked(r, StepJob(c, r, a).value, p);
  }

  lemma AdvanceAppend(c: Config, s: State, r: State, acts: seq<Action>, p: nat)
    requires Going(c, s, r, acts, p) && At(r, p, Placed)
    ensures r.jobs[p].tid in r.tri
    ensures CanAppend(c, r, p) && Going(c, s, DoAppend(c, r, p), acts + [Append(p)], p)
    ensures |RecordFor(c, r.jobs[p].blobId, r.jobs[p].data)| == Payload(c, r.jobs[p].data)
  {
    hide Inv, Run, Beside;
    BlobBinary.RecordLength(c.aligned, AsciiBytes(r.jobs[p].blobId), r.jobs[p].data);
    AppendInRange(c, r, p);
    Advance(c, s, r, acts, p, Append(p));
  }

  lemma AdvanceIndex(c: Config, s: State, r: State, acts: seq<Action>, p: nat)
    requires Going(c, s, r, acts, p) && At(r, p, BinDone)
    ensures CanIndex(c, r, p) && Going(c, s, DoIndex(c, r, p), acts + [Index(p)], p)
  {
    hide Inv, Run, Beside, Locked;
    PutNeverFails(c, r, p);
    Advance(c, s, r, acts, p, Index(p));
  }

  lemma AdvanceManifest(c: Config, s: State, r: State, acts: seq<Action>, p: nat)
    requires Going(c, s, r, acts, p) && At(r, p, IdxDone)
    ensures CanManifest(r, p) && Going(c, s, DoManifest(r, p), acts + [Manifest(p)], p)
  {
    hide Inv, Run, Beside, Locked;
    ManifestReady(c, r, p);
    Advance(c, s, r, acts, p, Manifest(p));
  }

  lemma AdvanceSettle(c: Config, s: State, r: State, acts: seq<Action>, p: nat)
    requires Going(c, s, r, acts, p) && At(r, p, MfDone)
    ensures Going(c, s, DoRelease(c, DoSettle(r, p), p), acts + [Settle(p)] + [Release(p)], p)
  {
    hide Inv, Run, Beside, Locked, MaxAlloc;
    Advance(c, s, r, acts, p, Settle(p));
    Advance(c, s, DoSettle(r, p), acts + [Settle(p)], p, Release(p));
  }

  /** A finished `Put` has moved the total by what it has put on disk. */
  lemma PutConserves(c: Config, s: State, r: State, p: nat)
    requires Inv(c, s) && Inv(c, r) && Beside(s, r, p) && p !in s.jobs && At(r, p, Returned)
    ensures r.total - s.total == Disk(r.tri) - Disk(s.tri)
  {
    hide Shape, Store, NoDangling, SystemSwap.Served, SystemSwap.OpenCount, Bounded;
    assert r.jobs == s.jobs[p := r.jobs[p]];
    JobSums(c, s.jobs, p, r.jobs[p]);
  }

  function PlaceStep(c: Config, p: nat, data: seq<byte>, tid: string): Action {
    if Payload(c, data) > c.large then PlaceLarge(p, tid) else PlaceSmall(p, tid)
  }

  lemma AdvancePlace(c: Config, s: State, r: State, acts: seq<Action>, p: nat, tid: string)
    requires Going(c, s, r, acts, p) && At(r, p, Reserved)
    requires if IsLarge(c, r.jobs[p]) then GoodId(tid) && tid !in r.used else tid in r.open - r.evicted
    ensures Going(c, s, if IsLarge(c, r.jobs[p]) then DoPlaceLarge(r, p, tid) else DoPlaceSmall(r, p, tid),
                  acts + [PlaceStep(c, p, r.jobs[p].data, tid)], p)
  {
    hide Inv, Run, Beside, Locked, GoodId, Payload, DoPlaceLarge, DoPlaceSmall;
    Advance(c, s, r, acts, p, PlaceStep(c, p, r.jobs[p].data, tid));
  }

  lemma GoingOpen(c: Config, s: State, r: State, acts: seq<Action>, p: nat)
    requires Going(c, s, r, acts, p)
    ensures r.open != {}
  {
    hide Inv, Run, Beside, Locked;
    SomeOpen(c, r);
  }

  /** What a finished `Put` has done. */
  lemma PutDone(c: Config, s: State, r: State, acts: seq<Action>, p: nat)
    requires Inv(c, s) && p !in s.jobs && Going(c, s, r, acts, p) && At(r, p, Returned)
    ensures Run(c, s, acts) == Some(r) && Inv(c, r) && r.total - s.total == Disk(r.tri) - Disk(s.tri)
    ensures var j := r.jobs[p];
            Get(c, r, PutToken(Payload(c, j.data) > c.large, j.tid, j.blobId)) == Data(j.data)
            <==> (c.aligned ==> j.data != [])
  {
    hide Inv, Run, Beside, Locked, Get, Payload, PutToken;
    PutConserves(c, s, r, p);
    PutReadsBack(c, r, p);
  }

  /** The steps of a whole `Put`. */
  function PutSteps(c: Config, p: nat, fid: string, id: string, data: seq<byte>, tid: string): seq<Action> {
    [Check(p, fid, id, data), Reserve(p), PlaceStep(c, p, data, tid),
     Append(p), Index(p), Manifest(p), Settle(p), Release(p)]
  }

  lemma AllSteps(c: Config, p: nat, fid: string, id: string, data: seq<byte>, tid: string)
    ensures [Check(p, fid, id, data), Reserve(p)] + [PlaceStep(c, p, data, tid)]
            + [Append(p)] + [Index(p)] + [Manifest(p)] + [Settle(p)] + [Release(p)]
            == PutSteps(c, p, fid, id, data, tid)
  {
  }

  lemma PurgeRuns(c: Config, s: State, tid: string)
    requires Inv(c, s) && tid in s.evicted && tid !in s.open && s.debts == []
    ensures var r := DoPayDebt(DoPurge(s, tid), 0);
            Inv(c, r) && Run(c, s, [Purge(tid), PayDebt(0)]) == Some(r)
  {
    hide Inv, DiskSize;
    StepKeepsInv(c, s, Purge(tid));
    RunTwo(c, s, Purge(tid), PayDebt(0));
    StepKeepsInv(c, DoPurge(s, tid), PayDebt(0));
  }

  function AfterReserve(c: Config, s: State, p: nat, fid: string, id: string, data: seq<byte>): State {
    DoReserve(c, DoCheck(s, Check(p, fid, id, data)), p)
  }

  lemma OwedIsUnchecked(c: Config, s: State)
    requires Inv(c, s)
    ensures s.swap.owed ==> s.unchecked >= 1
  {
    hide Shape, Store, SystemSwap.Served, NoDangling, SystemSwap.OpenCount, Bounded, Balanced;
  }

  lemma ReservedGoing(c: Config, s: State, p: nat, fid: string, id: string, data: seq<byte>)
    requires Inv(c, s) && CanAsk(s, p, id, data) && Locked(s.jobs) == {}
    requires c.maxBytes + OPEN_SIZE * s.unchecked < TWO_63
    requires MaxAlloc(c, data) <= c.maxBytes - s.total
    ensures Going(c, s, AfterReserve(c, s, p, fid, id, data), [Check(p, fid, id, data), Reserve(p)], p)
  {
    hide Inv, GoodId, MaxAlloc, Locked;
    var a, b := Check(p, fid, id, data), Reserve(p);
    StepKeepsInv(c, s, a);
    StepKeepsInv(c, DoCheck(s, a), b);
    RunTwo(c, s, a, b);
    OwedIsUnchecked(c, s);
    BesideUnlocked(s, AfterReserve(c, s, p, fid, id, data), p);
  }

  lemma SomeOpen(c: Config, s: State)
    requires Inv(c, s)
    ensures s.open != {}
  {
    hide Budget, Store, SystemSwap.Served, NoDangling, Files, Dicts, Jobs, Swapping, SystemSwap.OpenCount;
    SystemSwap.NeverEmpty(s);
  }

  // ----- a whole Put -----

  /** Worker `p` is at `pc` with this triplet, file and blob. */
  predicate Working(s: State, p: nat, pc: Pc, tid: string, fid: string, id: string, data: seq<byte>) {
    && At(s, p, pc) && s.jobs[p].tid == tid && s.jobs[p].fid == fid
    && s.jobs[p].blobId == id && s.jobs[p].data == data
  }

  /** What a step leaves alone for the ids handed out, the total and the log position of the triplet. */
  predicate Calm(s: State, r: State, tid: string) {
    r.used == s.used && r.total == s.total && tid in s.tri && tid in r.tri && r.tri[tid].curOff == s.tri[tid].curOff
  }

  lemma WorkAppend(c: Config, s: State, p: nat, tid: string, fid: string, id: string, data: seq<byte>)
    requires CanAppend(c, s, p) && Working(s, p, Placed, tid, fid, id, data)
    ensures var r := DoAppend(c, s, p);
            && Working(r, p, BinDone, tid, fid, id, data) && r.used == s.used && r.total == s.total && tid in r.tri
            && r.tri[tid].curOff == s.tri[tid].curOff + |RecordFor(c, id, data)|
            && r.jobs[p].increase == s.jobs[p].increase + |RecordFor(c, id, data)|
  {
    hide RecordFor, Locked, Payload;
  }

  lemma WorkIndex(c: Config, s: State, p: nat, tid: string, fid: string, id: string, data: seq<byte>)
    requires CanIndex(c, s, p) && Working(s, p, BinDone, tid, fid, id, data)
    ensures Working(DoIndex(c, s, p), p, IdxDone, tid, fid, id, data) && Calm(s, DoIndex(c, s, p), tid)
    ensures 250 <= DoIndex(c, s, p).jobs[p].increase - s.jobs[p].increase <= 252
  {
    hide Payload, Printable, JobEntry, Serialize, Padded;
  }

  lemma WorkManifest(c: Config, s: State, p: nat, tid: string, fid: string, id: string, data: seq<byte>)
    requires CanManifest(s, p) && Working(s, p, IdxDone, tid, fid, id, data)
    ensures Working(DoManifest(s, p), p, MfDone, tid, fid, id, data) && Calm(s, DoManifest(s, p), tid)
    ensures 200 <= DoManifest(s, p).jobs[p].increase - s.jobs[p].increase <= 202
  {
  }

  lemma WorkSettle(c: Config, s: State, p: nat, tid: string, fid: string, id: string, data: seq<byte>)
    requires Working(s, p, MfDone, tid, fid, id, data)
    ensures var r := DoRelease(c, DoSettle(s, p), p);
            && Working(r, p, Returned, tid, fid, id, data) && r.used == s.used && r.tri == s.tri
            && r.total == s.total + r.jobs[p].increase - MaxAlloc(c, data)
            && r.jobs[p].increase == s.jobs[p].increase
  {
    hide MaxAlloc;
  }

  /** Wherever the request fits and no log is locked, the eight steps of `Put` run through. */
  lemma PutRuns(c: Config, s: State, p: nat, fid: string, id: string, data: seq<byte>, tid: string)
    requires Inv(c, s) && CanAsk(s, p, id, data) && Locked(s.jobs) == {}
    requires c.maxBytes + OPEN_SIZE * s.unchecked < TWO_63
    requires MaxAlloc(c, data) <= c.maxBytes - s.total
    requires if Payload(c, data) > c.large then GoodId(tid) && tid !in s.used && tid != id
             else tid in s.open - s.evicted
    ensures var acts := PutSteps(c, p, fid, id, data, tid);
            && Run(c, s, acts).Some? && Going(c, s, Run(c, s, acts).value, acts, p)
            && Working(Run(c, s, acts).value, p, Returned, tid, fid, id, data)
            && Run(c, s, acts).value.used == s.used + {id} + (if Payload(c, data) > c.large then {tid} else {})
            && Run(c, s, acts).value.total == s.total + Run(c, s, acts).value.jobs[p].increase
            && (var g, least := Run(c, s, acts).value.jobs[p].increase, if Payload(c, data) > c.large then 458 else 450;
                Payload(c, data) + least <= g <= Payload(c, data) + least + 4)
            && (Payload(c, data) <= c.large ==>
                  && tid in s.tri && tid in Run(c, s, acts).value.tri
                  && Run(c, s, acts).value.tri[tid].curOff == s.tri[tid].curOff + Payload(c, data))
  {
    hide Inv, Run, Going, GoodId, Payload, MaxAlloc, Locked, DoAppend, DoIndex, DoManifest, CanAppend, CanIndex,
      CanManifest, Working, PlaceStep, PutSteps;
    var acts := [Check(p, fid, id, data), Reserve(p)];
    var r := AfterReserve(c, s, p, fid, id, data);
    ReservedGoing(c, s, p, fid, id, data);
    ReservedWorks(c, s, p, fid, id, data);
    AdvancePlace(c, s, r, acts, p, tid);
    PlacedWorks(c, r, p, tid, fid, id, data);
    acts := acts + [PlaceStep(c, p, data, tid)];
    r := if IsLarge(c, r.jobs[p]) then DoPlaceLarge(r, p, tid) else DoPlaceSmall(r, p, tid);
    r := WriteRuns(c, s, r, acts, p, tid, fid, id, data);
    AllSteps(c, p, fid, id, data, tid);
    GoingRun(c, s, r, PutSteps(c, p, fid, id, data, tid), p);
  }

  /** From its place on, a worker goes through its three writes and the two additions to the total. */
  lemma WriteRuns(
      c: Config, s: State, placed: State, acts: seq<Action>, p: nat, tid: string, fid: string, id: string,
      data: seq<byte>)
      returns (r: State)
    requires Going(c, s, placed, acts, p) && Working(placed, p, Placed, tid, fid, id, data)
    ensures Going(c, s, r, acts + [Append(p)] + [Index(p)] + [Manifest(p)] + [Settle(p)] + [Release(p)], p)
    ensures Working(r, p, Returned, tid, fid, id, data) && r.used == placed.used
    ensures r.total == placed.total + r.jobs[p].increase - MaxAlloc(c, data)
    ensures Payload(c, data) + 450 <= r.jobs[p].increase - placed.jobs[p].increase <= Payload(c, data) + 454
    ensures tid in placed.tri && tid in r.tri && r.tri[tid].curOff == placed.tri[tid].curOff + Payload(c, data)
  {
    hide Going, DoAppend, DoIndex, DoManifest, CanIndex, CanManifest, CanAppend, MaxAlloc, Payload, RecordFor;
    var more := acts;
    AdvanceAppend(c, s, placed, more, p);
    WorkAppend(c, placed, p, tid, fid, id, data);
    r, more := DoAppend(c, placed, p), more + [Append(p)];
    AdvanceIndex(c, s, r, more, p);
    WorkIndex(c, r, p, tid, fid, id, data);
    r, more := DoIndex(c, r, p), more + [Index(p)];
    AdvanceManifest(c, s, r, more, p);
    WorkManifest(c, r, p, tid, fid, id, data);
    r, more := DoManifest(r, p), more + [Manifest(p)];
    AdvanceSettle(c, s, r, more, p);
    WorkSettle(c, r, p, tid, fid, id, data);
    r := DoRelease(c, DoSettle(r, p), p);
  }

  /** The size test is close: a request is refused only if what it would add to the disk, were it let through, exceeds
      the free space less sixteen bytes, and is accepted only if that fits. */
  lemma RefusedOnlyWhenFull(
      c: Config, s: State, p: nat, fid: string, id: string, data: seq<byte>, tid: string, tight: Config)
    requires Inv(c, s) && CanAsk(s, p, id, data) && Locked(s.jobs) == {}
    requires c.maxBytes + OPEN_SIZE * s.unchecked < TWO_63
    requires Step(c, s, Check(p, fid, id, data)).Some? && tight == c.(maxBytes := tight.maxBytes)
    requires if Payload(c, data) > c.large then GoodId(tid) && tid !in s.used && tid != id
             else tid in s.open - s.evicted
    ensures Run(c, s, PutSteps(c, p, fid, id, data, tid)).Some?
    ensures var r := Run(c, s, PutSteps(c, p, fid, id, data, tid)).value;
            var gain, free := Disk(r.tri) - Disk(s.tri), tight.maxBytes - s.total;
            && (Step(tight, s, Check(p, fid, id, data)) == None ==> gain > free - 16)
            && (Step(tight, s, Check(p, fid, id, data)).Some? ==> gain + 4 <= free)
  {
    hide Inv, Run, Going, GoodId, Payload, Locked, PutSteps, Working, MaxAlloc;
    Asked(c, s, p, fid, id, data);
    Asked(tight, s, p, fid, id, data);
    PutRuns(c, s, p, fid, id, data, tid);
    var acts := PutSteps(c, p, fid, id, data, tid);
    var r := Run(c, s, acts).value;
    WorkingAt(r, p, tid, fid, id, data);
    GainOf(c, s, r, acts, p);
  }

  lemma Asked(c: Config, s: State, p: nat, fid: string, id: string, data: seq<byte>)
    requires CanAsk(s, p, id, data)
    ensures Step(c, s, Check(p, fid, id, data)).Some? <==> Payload(c, data) + 466 <= c.maxBytes - s.total
    ensures MaxAlloc(c, data) == Payload(c, data) + 466
    ensures Payload(c, data) == Payload(c.(maxBytes := 0), data)
  {
    hide GoodId;
  }

  lemma WorkingAt(s: State, p: nat, tid: string, fid: string, id: string, data: seq<byte>)
    requires Working(s, p, Returned, tid, fid, id, data)
    ensures At(s, p, Returned)
  {
  }

  lemma GainOf(c: Config, s: State, r: State, acts: seq<Action>, p: nat)
    requires Inv(c, s) && p !in s.jobs && Going(c, s, r, acts, p) && At(r, p, Returned)
    ensures r.total - s.total == Disk(r.tri) - Disk(s.tri)
  {
    hide Inv, Run, Beside, Locked;
    PutConserves(c, s, r, p);
  }

  lemma GoingRun(c: Config, s: State, r: State, acts: seq<Action>, p: nat)
    requires Going(c, s, r, acts, p)
    ensures Run(c, s, acts) == Some(r)
  {
  }

  lemma ReservedWorks(c: Config, s: State, p: nat, fid: string, id: string, data: seq<byte>)
    ensures var r := AfterReserve(c, s, p, fid, id, data);
            && Working(r, p, Reserved, "", fid, id, data) && At(r, p, Reserved)
            && r.used == s.used + {id} && r.open == s.open && r.evicted == s.evicted && r.tri == s.tri
            && r.total == s.total + MaxAlloc(c, data)
            && r.jobs[p].increase == 0 && r.jobs[p].data == data
            && IsLarge(c, r.jobs[p]) == (Payload(c, data) > c.large)
  {
    hide MaxAlloc, Payload;
  }

  lemma PlacedWorks(c: Config, s: State, p: nat, tid: string, fid: string, id: string, data: seq<byte>)
    requires Working(s, p, Reserved, "", fid, id, data)
    ensures Working(DoPlaceLarge(s, p, tid), p, Placed, tid, fid, id, data)
    ensures Working(DoPlaceSmall(s, p, tid), p, Placed, tid, fid, id, data)
    ensures DoPlaceLarge(s, p, tid).jobs[p].increase == 8
    ensures DoPlaceSmall(s, p, tid).jobs[p].increase == s.jobs[p].increase
  {
    hide NewTriplet;
  }
}
