/** Space accounting under every interleaving: the running total always differs from the bytes on disk by exactly
    what is reserved, settled or owed, and the disk never outgrows its budget. */
module SystemBudget {
  import opened Bytes
  import opened BlobBinary
  import opened BlobIndex
  import opened BlobManifest
  import opened CacheSystem
  import opened SystemShape
  import MapSum

  /** What the total holds for a job beyond the bytes the job has put on disk. */
  function Over(c: Config, j: Job): int {
    match j.pc
    case Checked => 0
    case Settled => MaxAlloc(c, j.data)
    case Returned => 0
    case _ => MaxAlloc(c, j.data) - j.increase
  }

  /** What a job may still put on disk; a passed check counts before its reservation is made. */
  function Claim(c: Config, j: Job): int {
    if j.pc == Returned then 0 else MaxAlloc(c, j.data) - j.increase
  }

  ghost function Overs(c: Config, jobs: map<nat, Job>): map<nat, int> {
    map p | p in jobs :: Over(c, jobs[p])
  }

  ghost function Claims(c: Config, jobs: map<nat, Job>): map<nat, int> {
    map p | p in jobs :: Claim(c, jobs[p])
  }

  function Debts(ds: seq<nat>): int {
    if ds == [] then 0 else Debts(ds[..|ds| - 1]) + ds[|ds| - 1]
  }

  /** The most a job can have written when it has come this far. */
  function Written(c: Config, j: Job): int {
    match j.pc
    case Checked => 0
    case Reserved => 0
    case Placed => OPEN_SIZE
    case Torn => OPEN_SIZE + Payload(c, j.data)
    case BinDone => OPEN_SIZE + Payload(c, j.data)
    case IdxDone => OPEN_SIZE + Payload(c, j.data) + ENTRY_LEN
    case _ => OPEN_SIZE + Payload(c, j.data) + ENTRY_LEN + MF_ENTRY_LEN
  }

  predicate Bounded(c: Config, jobs: map<nat, Job>) {
    forall p :: p in jobs ==> jobs[p].increase <= Written(c, jobs[p])
  }

  function Owed(s: State): int {
    if s.swap.owed then OPEN_SIZE else 0
  }

  ghost predicate Balanced(c: Config, s: State) {
    s.total == Disk(s.tri) + MapSum.Sum(Overs(c, s.jobs)) + Debts(s.debts) - Owed(s)
  }

  ghost predicate Budget(c: Config, s: State) {
    && Bounded(c, s.jobs) && Balanced(c, s)
    && Disk(s.tri) + MapSum.Sum(Claims(c, s.jobs)) <= c.maxBytes + OPEN_SIZE * s.unchecked
    && (s.swap.owed ==> s.unchecked > 0)
  }

  // ----- sums over jobs, triplets and debts -----

  lemma JobSums(c: Config, jobs: map<nat, Job>, p: nat, j: Job)
    ensures MapSum.Sum(Overs(c, jobs[p := j]))
         == MapSum.Sum(Overs(c, jobs)) + Over(c, j) - (if p in jobs then Over(c, jobs[p]) else 0)
    ensures MapSum.Sum(Claims(c, jobs[p := j]))
         == MapSum.Sum(Claims(c, jobs)) + Claim(c, j) - (if p in jobs then Claim(c, jobs[p]) else 0)
  {
    assert Overs(c, jobs[p := j]) == Overs(c, jobs)[p := Over(c, j)];
    assert Claims(c, jobs[p := j]) == Claims(c, jobs)[p := Claim(c, j)];
    MapSum.SumUpdate(Overs(c, jobs), p, Over(c, j));
    MapSum.SumUpdate(Claims(c, jobs), p, Claim(c, j));
  }

  lemma JobSumsDrop(c: Config, jobs: map<nat, Job>, p: nat)
    requires p in jobs && jobs[p].pc == Returned
    ensures MapSum.Sum(Overs(c, jobs - {p})) == MapSum.Sum(Overs(c, jobs))
    ensures MapSum.Sum(Claims(c, jobs - {p})) == MapSum.Sum(Claims(c, jobs))
  {
    assert Overs(c, jobs - {p}) == Overs(c, jobs) - {p};
    assert Claims(c, jobs - {p}) == Claims(c, jobs) - {p};
    MapSum.SumRemove(Overs(c, jobs), p);
    MapSum.SumRemove(Claims(c, jobs), p);
  }

  lemma DiskUpdate(tri: map<string, Triplet>, tid: string, t: Triplet)
    ensures Disk(tri[tid := t]) == Disk(tri) + DiskSize(t) - (if tid in tri then DiskSize(tri[tid]) else 0)
  {
    assert Sizes(tri[tid := t]) == Sizes(tri)[tid := DiskSize(t)];
    MapSum.SumUpdate(Sizes(tri), tid, DiskSize(t));
  }

  lemma DiskRemove(tri: map<string, Triplet>, tid: string)
    ensures Disk(tri - {tid}) == Disk(tri) - (if tid in tri then DiskSize(tri[tid]) else 0)
  {
    assert Sizes(tri - {tid}) == Sizes(tri) - {tid};
    MapSum.SumRemove(Sizes(tri), tid);
  }

  lemma DebtSnoc(ds: seq<nat>, d: nat)
    ensures Debts(ds + [d]) == Debts(ds) + d
  {
    assert (ds + [d])[..|ds|] == ds;
  }

  lemma {:induction false} DebtOut(ds: seq<nat>, i: nat)
    requires i < |ds|
    ensures Debts(ds) == Debts(ds[..i] + ds[i + 1..]) + ds[i]
  {
    var n := |ds| - 1;
    if i == n {
      assert ds[..i] + ds[i + 1..] == ds[..n];
    } else {
      DebtOut(ds[..n], i);
      assert ds[..i] + ds[i + 1..] == (ds[..n][..i] + ds[..n][i + 1..]) + [ds[n]];
      DebtSnoc(ds[..n][..i] + ds[..n][i + 1..], ds[n]);
    }
  }

  lemma {:induction false} DebtsNonNegative(ds: seq<nat>)
    ensures Debts(ds) >= 0
  {
    if ds != [] {
      DebtsNonNegative(ds[..|ds| - 1]);
    }
  }

  // ----- jobs -----

  lemma ClaimNonNegative(c: Config, j: Job)
    requires j.increase <= Written(c, j)
    ensures Claim(c, j) >= 0
  {
  }

  /** A job moves on, writing what its `increase` and the total grow by. */
  lemma JobBudget(c: Config, s: State, r: State, p: nat, j: Job)
    requires Budget(c, s) && p in s.jobs && r.jobs == s.jobs[p := j] && j.data == s.jobs[p].data
    requires r.debts == s.debts && r.swap == s.swap && r.unchecked == s.unchecked
    requires Disk(r.tri) - Disk(s.tri) == j.increase - s.jobs[p].increase
    requires j.increase <= Written(c, j)
    requires s.jobs[p].pc != Returned
    requires r.total - s.total == Over(c, j) - Over(c, s.jobs[p]) + j.increase - s.jobs[p].increase
    ensures Budget(c, r)
  {
    hide Payload;
    ClaimNonNegative(c, s.jobs[p]);
    JobSums(c, s.jobs, p, j);
  }

  /** A job writes to its triplet what its `increase` grows by. */
  lemma WriteBudget(c: Config, s: State, r: State, p: nat, k: Job, t: Triplet)
    requires Budget(c, s) && p in s.jobs && k.tid in s.tri && k.data == s.jobs[p].data
    requires r.jobs == s.jobs[p := k] && r.tri == s.tri[k.tid := t] && r.total == s.total
    requires r.debts == s.debts && r.swap == s.swap && r.unchecked == s.unchecked
    requires s.jobs[p].pc in {Placed, BinDone, IdxDone} && k.pc in {Torn, BinDone, IdxDone, MfDone}
    requires k.increase <= Written(c, k)
    requires k.increase - s.jobs[p].increase == DiskSize(t) - DiskSize(s.tri[k.tid])
    ensures Budget(c, r)
  {
    DiskUpdate(s.tri, k.tid, t);
    JobBudget(c, s, r, p, k);
  }

  lemma AppendBudget(c: Config, s: State, p: nat)
    requires Budget(c, s) && CanAppend(c, s, p)
    ensures Budget(c, DoAppend(c, s, p))
  {
    var j, r := s.jobs[p], DoAppend(c, s, p);
    RecordLength(c.aligned, AsciiBytes(j.blobId), j.data);
    WriteBudget(c, s, r, p, r.jobs[p], r.tri[j.tid]);
  }

  lemma TearBudget(c: Config, s: State, p: nat, k: nat)
    requires Budget(c, s) && CanTear(c, s, p, k)
    ensures Budget(c, DoTear(c, s, p, k))
  {
    var j, r := s.jobs[p], DoTear(c, s, p, k);
    RecordLength(c.aligned, AsciiBytes(j.blobId), j.data);
    WriteBudget(c, s, r, p, r.jobs[p], r.tri[j.tid]);
  }

  /** The step leaves everything but one job and its triplet alone, and the triplet grows as the job says. */
  predicate Writes(s: State, r: State, p: nat, pc: Pc, growth: nat)
    requires p in s.jobs && s.jobs[p].tid in s.tri
  {
    var j := s.jobs[p];
    && r.jobs == s.jobs[p := j.(pc := pc, increase := j.increase + growth)]
    && r.tri.Keys == s.tri.Keys && r.tri == s.tri[j.tid := r.tri[j.tid]]
    && DiskSize(r.tri[j.tid]) == DiskSize(s.tri[j.tid]) + growth
    && r.total == s.total && r.debts == s.debts && r.swap == s.swap && r.unchecked == s.unchecked
  }

  lemma IndexDisk(c: Config, s: State, p: nat)
    requires Shape(c, s) && CanIndex(c, s, p)
    ensures var j := s.jobs[p]; var t := s.tri[j.tid];
            DiskSize(IdxPut(t, JobEntry(c, j))) == DiskSize(t) + IdxGrowth(t)
  {
    hide TripletOk, Printable, Fits, IdxPut, Payload;
    EntryFits(c, s, p);
    IdxPutOk(s.tri[s.jobs[p].tid], s.jobs[p].tid in Locked(s.jobs), JobEntry(c, s.jobs[p]));
  }

  lemma IndexWrites(c: Config, s: State, p: nat)
    requires Shape(c, s) && CanIndex(c, s, p)
    ensures Writes(s, DoIndex(c, s, p), p, IdxDone, IdxGrowth(s.tri[s.jobs[p].tid]))
  {
    hide Shape, Printable, IdxPut, DiskSize, JobEntry, IdxGrowth;
    IndexDisk(c, s, p);
  }

  lemma ManifestDisk(c: Config, s: State, p: nat)
    requires Shape(c, s) && CanManifest(s, p)
    ensures var t := s.tri[s.jobs[p].tid];
            DiskSize(MfPut(t, MFEntry(s.jobs[p].blobId, ACTION_PUT, ""))) == DiskSize(t) + MfGrowth(t)
  {
    hide TripletOk, ActionFits, MfPut;
    ActionIdFits(s.jobs[p].blobId, ACTION_PUT);
    MfPutOk(s.tri[s.jobs[p].tid], s.jobs[p].tid in Locked(s.jobs), MFEntry(s.jobs[p].blobId, ACTION_PUT, ""));
  }

  lemma ManifestWrites(c: Config, s: State, p: nat)
    requires Shape(c, s) && CanManifest(s, p)
    ensures Writes(s, DoManifest(s, p), p, MfDone, MfGrowth(s.tri[s.jobs[p].tid]))
  {
    hide Shape, MfPut, DiskSize, MfGrowth;
    ManifestDisk(c, s, p);
  }

  lemma WritesBudget(c: Config, s: State, r: State, p: nat, pc: Pc, growth: nat)
    requires Budget(c, s) && p in s.jobs && s.jobs[p].tid in s.tri && Writes(s, r, p, pc, growth)
    requires (s.jobs[p].pc == BinDone && pc == IdxDone && growth <= ENTRY_LEN)
          || (s.jobs[p].pc == IdxDone && pc == MfDone && growth <= MF_ENTRY_LEN)
    ensures Budget(c, r)
  {
    var j := s.jobs[p];
    WriteBudget(c, s, r, p, j.(pc := pc, increase := j.increase + growth), r.tri[j.tid]);
  }

  lemma PlaceLargeBudget(c: Config, s: State, p: nat, tid: string)
    requires Budget(c, s) && Shape(c, s) && CanPlaceLarge(c, s, p, tid)
    ensures Budget(c, DoPlaceLarge(s, p, tid))
  {
    var r := DoPlaceLarge(s, p, tid);
    hide NewTriplet, TripletOk, Dicts, Jobs, Swapping, GoodId, Payload;
    NewTripletOk(true);
    DiskUpdate(s.tri, tid, NewTriplet(true));
    JobBudget(c, s, r, p, r.jobs[p]);
  }

  /** Without an unreserved check, what jobs may still write is never more than what the total holds for them. */
  lemma ClaimsCovered(c: Config, jobs: map<nat, Job>)
    requires Bounded(c, jobs) && forall p :: p in jobs ==> jobs[p].pc != Checked
    ensures MapSum.Sum(Claims(c, jobs)) <= MapSum.Sum(Overs(c, jobs))
  {
    MapSum.SumMonotone(Claims(c, jobs), Overs(c, jobs));
  }

  lemma ClaimsNonNegative(c: Config, jobs: map<nat, Job>)
    requires Bounded(c, jobs)
    ensures MapSum.Sum(Claims(c, jobs)) >= 0
  {
    hide Claim, Written;
    forall p | p in jobs
      ensures Claim(c, jobs[p]) >= 0
    {
      ClaimNonNegative(c, jobs[p]);
    }
    MapSum.SumNonNegative(Claims(c, jobs));
  }

  /** The one place that looks at the budget. */
  lemma CheckBudget(c: Config, s: State, a: Action)
    requires Budget(c, s) && a.Check? && CanCheck(c, s, a)
    ensures Budget(c, DoCheck(s, a))
  {
    var r := DoCheck(s, a);
    JobSums(c, s.jobs, a.p, r.jobs[a.p]);
    ClaimsCovered(c, s.jobs);
    DebtsNonNegative(s.debts);
  }

  lemma CommitBudget(c: Config, s: State, p: nat)
    requires Budget(c, s) && At(s, p, Returned)
    ensures Budget(c, DoCommit(c, s, p))
  {
    var r := DoCommit(c, s, p);
    assert r.jobs == s.jobs - {p};
    JobSumsDrop(c, s.jobs, p);
    hide Over, Claim, Written;
    assert forall q :: q in r.jobs ==> q in s.jobs && r.jobs[q] == s.jobs[q];
  }

  lemma JobStepBudget(c: Config, s: State, a: Action)
    requires Budget(c, s) && Shape(c, s) && StepJob(c, s, a).Some?
    ensures Budget(c, StepJob(c, s, a).value)
  {
    hide Shape, CanCheck, CanAppend, Printable, PrintableAction, DoAppend, DoTear, DoIndex, DoManifest, DoCommit,
      DoPlaceLarge,
      CanPlaceLarge, DoCheck, Budget, Writes, Payload;
    var r := StepJob(c, s, a).value;
    match a
    case Check(_, _, _, _) => CheckBudget(c, s, a);
    case Reserve(p) => ReserveBudget(c, s, p);
    case PlaceSmall(p, tid) => AdvanceBudget(c, s, r, p, s.jobs[p].(pc := Placed, tid := tid));
    case PlaceLarge(p, tid) => PlaceLargeBudget(c, s, p, tid);
    case Append(p) => AppendBudget(c, s, p);
    case Tear(p, k) => TearBudget(c, s, p, k);
    case Index(p) =>
      IndexWrites(c, s, p);
      WritesBudget(c, s, r, p, IdxDone, IdxGrowth(s.tri[s.jobs[p].tid]));
    case Manifest(p) =>
      ManifestWrites(c, s, p);
      WritesBudget(c, s, r, p, MfDone, MfGrowth(s.tri[s.jobs[p].tid]));
    case Settle(p) => AdvanceBudget(c, s, r, p, s.jobs[p].(pc := Settled));
    case Release(p) => AdvanceBudget(c, s, r, p, s.jobs[p].(pc := Returned));
    case Commit(p) => CommitBudget(c, s, p);
  }

  lemma ReserveBudget(c: Config, s: State, p: nat)
    requires Budget(c, s) && At(s, p, Checked)
    ensures Budget(c, DoReserve(c, s, p))
  {
    hide Payload, Balanced;
    AdvanceBudget(c, s, DoReserve(c, s, p), p, s.jobs[p].(pc := Reserved));
  }

  /** A job moves on without writing anything. */
  lemma AdvanceBudget(c: Config, s: State, r: State, p: nat, j: Job)
    requires Budget(c, s) && p in s.jobs && s.jobs[p].pc != Returned
    requires r == SetJob(s, p, j).(total := r.total)
    requires j.data == s.jobs[p].data && j.increase == s.jobs[p].increase && Written(c, s.jobs[p]) <= Written(c, j)
    requires r.total - s.total == Over(c, j) - Over(c, s.jobs[p])
    ensures Budget(c, r)
  {
    JobBudget(c, s, r, p, j);
  }

  // ----- swap, purge and restart -----

  lemma SwapOpenBudget(c: Config, s: State, tid: string, fresh_: string)
    requires Budget(c, s) && Shape(c, s) && CanSwapOpen(c, s, tid, fresh_)
    ensures Budget(c, DoSwapOpen(s, tid, fresh_))
  {
    NewTripletOk(false);
    DiskUpdate(s.tri, fresh_, NewTriplet(false));
  }

  lemma SwapMarkBudget(c: Config, s: State)
    requires Budget(c, s) && CanSwapMark(s)
    ensures Budget(c, DoSwapMark(s))
  {
    var tid := s.swap.closing[0];
    DiskUpdate(s.tri, tid, DoSwapMark(s).tri[tid]);
  }

  lemma SwapStepBudget(c: Config, s: State, a: Action)
    requires Budget(c, s) && Shape(c, s) && StepSwap(c, s, a).Some?
    ensures Budget(c, StepSwap(c, s, a).value)
  {
    hide Shape, DoSwapMark, DoSwapOpen, CanSwapOpen, CanSwapMark;
    match a
    case SwapOpen(tid, fresh_) => SwapOpenBudget(c, s, tid, fresh_);
    case SwapMark => SwapMarkBudget(c, s);
    case _ =>
  }

  lemma PurgeBudget(c: Config, s: State, tid: string)
    requires Budget(c, s)
    ensures Budget(c, DoPurge(s, tid))
  {
    var r := DoPurge(s, tid);
    DiskRemove(s.tri, tid);
    DebtSnoc(s.debts, if tid in s.tri then DiskSize(s.tri[tid]) else 0);
  }

  /** Reloading keeps files as they are, so the disk only loses the orphans. */
  lemma ReloadedDisk(s: State)
    requires Files(s) && AllReload(s)
    ensures Disk(Reloaded(s)) <= Disk(s.tri)
  {
    hide TripletOk, Reload;
    var m := Sizes(s.tri);
    var keep := Kept(s);
    var kept := map tid | tid in m && tid in keep :: m[tid];
    forall tid | tid in keep
      ensures DiskSize(Reload(s.tri[tid]).value) == DiskSize(s.tri[tid])
    {
      ReloadOk(s.tri[tid], tid in Locked(s.jobs));
    }
    assert Sizes(Reloaded(s)).Keys == kept.Keys;
    assert forall tid :: tid in keep ==> Sizes(Reloaded(s))[tid] == kept[tid];
    assert Sizes(Reloaded(s)) == kept;
    MapSum.SumSplit(m, keep);
    MapSum.SumNonNegative(m - keep);
  }

  lemma NoJobs(c: Config)
    ensures Overs(c, map[]) == map[] && Claims(c, map[]) == map[]
  {
  }

  lemma RebootBudget(c: Config, s: State)
    requires Budget(c, s) && Files(s) && AllReload(s) && Owners(s.rows) <= s.tri.Keys
    ensures Budget(c, Rebooted(s))
  {
    RebootedTriplets(s);
    hide Files, Reload, Reloaded, Recreated, Disk, InState, Kept, Owners, ReadyRows;
    var b := Rebooted(s);
    assert b.total == Disk(b.tri) && b.jobs == map[] && b.debts == [] && !b.swap.owed && b.unchecked == s.unchecked;
    hide Rebooted;
    ReloadedDisk(s);
    ClaimsNonNegative(c, s.jobs);
    NoJobs(c);
    hide Overs, Claims;
  }

  lemma OpenFirstBudget(c: Config, s: State, fresh_: string)
    requires Budget(c, s) && s.jobs == map[] && fresh_ !in s.tri
    ensures Budget(c, OpenFirst(s, fresh_))
  {
    if s.open == {} {
      NewTripletOk(false);
      hide TripletOk, NewTriplet;
      DiskUpdate(s.tri, fresh_, NewTriplet(false));
    }
  }

  lemma RestartBudget(c: Config, s: State, fresh_: string)
    requires Budget(c, s) && Shape(c, s) && AllReload(s) && Owners(s.rows) <= s.tri.Keys
    requires fresh_ !in s.used
    ensures Budget(c, DoRestart(s, fresh_))
  {
    RebootBudget(c, s);
    RebootedTriplets(s);
    hide Files, Reload, Budget, OpenFirst;
    OpenFirstBudget(c, Rebooted(s), fresh_);
  }

  lemma PayBudget(c: Config, s: State, i: nat)
    requires Budget(c, s) && i < |s.debts|
    ensures Budget(c, DoPayDebt(s, i))
  {
    DebtOut(s.debts, i);
  }

  /** Rows, readers and what is queued for purging take no space. */
  lemma BudgetFrame(c: Config, s: State, r: State)
    requires Budget(c, s) && r == s.(rows := r.rows, readers := r.readers, evicted := r.evicted)
    ensures Budget(c, r)
  {
  }

  lemma StepKeepsBudget(c: Config, s: State, a: Action)
    requires Budget(c, s) && Shape(c, s) && Step(c, s, a).Some? && Owners(s.rows) <= s.tri.Keys
    ensures Budget(c, Step(c, s, a).value)
  {
    hide Shape, Budget, StepJob, StepSwap, DoRestart, DoPurge, CanEvict, Careful, AllReload;
    var r := Step(c, s, a).value;
    match a
    case Purge(tid) => PurgeBudget(c, s, tid);
    case Restart(fresh_) => RestartBudget(c, s, fresh_);
    case PayDebt(i) => PayBudget(c, s, i);
    case Evict(_) => BudgetFrame(c, s, r);
    case Miss(_) => BudgetFrame(c, s, r);
    case Outdate(_, _, _) => BudgetFrame(c, s, r);
    case Rollback(_) => BudgetFrame(c, s, r);
    case ReadOpen(_, _, _) => BudgetFrame(c, s, r);
    case ReadClosed(_) => BudgetFrame(c, s, r);
    case SwapOpen(_, _) | SwapAccount | SwapScanned | SwapPublish | SwapClose | SwapMark | SwapDrop =>
      SwapStepBudget(c, s, a);
    case _ => JobStepBudget(c, s, a);
  }

  lemma InitBudget(c: Config, first: string)
    requires c.maxBytes >= 0
    ensures Budget(c, Init(first))
  {
    NewTripletOk(false);
    assert map[][first := NewTriplet(false)] == Init(first).tri;
    DiskUpdate(map[], first, NewTriplet(false));
    assert Sizes(map[]) == map[];
    NoJobs(c);
  }

  // ----- what the invariant says -----

  /** The bytes on disk stay below the maximum plus one empty triplet for every open nobody reserved. */
  lemma DiskBounded(c: Config, s: State)
    requires Budget(c, s)
    ensures Disk(s.tri) <= c.maxBytes + OPEN_SIZE * s.unchecked
  {
    ClaimsNonNegative(c, s.jobs);
  }

  /** Conservation: with nothing in flight the total is the size of all files. */
  lemma QuietTotal(c: Config, s: State)
    requires Budget(c, s) && !s.swap.owed && s.debts == []
    requires forall p :: p in s.jobs ==> s.jobs[p].pc == Checked || s.jobs[p].pc == Returned
    ensures s.total == Disk(s.tri)
  {
    MapSum.SumOfZeros(Overs(c, s.jobs));
  }
}
