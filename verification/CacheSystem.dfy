/** The running cache as a state machine: concurrent Puts, the hot-swap loop, eviction and purge, readers, the
    metadata rows, crashes and restarts. Every action is one atomic step of one goroutine. */
module CacheSystem {
  import opened Bytes
  import opened BlobBinary
  import opened Json
  import opened AppendArray
  import opened BlobIndex
  import opened BlobManifest
  import opened Tokens
  import MapSum

  /** `maxBytes` is `F_CACHE_MAX_SIZE`; `closing` and `large` are the two triplet thresholds. */
  datatype Config = Config(aligned: bool, maxBytes: int, closing: int, large: int)

  // ----- triplets -----

  /** The three files of a triplet and the headers in memory. `log` lists what the manifest holds. */
  datatype Triplet = Triplet(
    bin: seq<byte>, idx: string, mf: string,
    curOff: int, state: char, entries: seq<IndexEntry>, refs: map<string, IndexEntry>,
    mfEmpty: bool, log: seq<MFEntry>)

  function DiskSize(t: Triplet): nat {
    |t.bin| + |t.idx| + |t.mf|
  }

  const OPEN_SIZE := 8

  /** `Triplet.New` when no file exists: index and manifest are created, the log file is not. */
  function NewTriplet(large: bool): Triplet {
    Triplet([], IndexFile(if large then STATE_LARGE else STATE_OPEN, []), ManifestFile([]),
            0, STATE_OPEN, [], map[], true, [])
  }

  /** `Triplet.New` on existing files. `None` is a panic while loading. */
  function Reload(t: Triplet): Option<Triplet> {
    match (LoadIndex(t.idx), LoadManifest(t.mf))
    case (Some((state, es)), Some(log)) =>
      Some(Triplet(t.bin, t.idx, t.mf, |t.bin|, state, es, RefMapOf(es), log == [], log))
    case _ => None
  }

  function AsciiBytes(s: string): (b: seq<byte>)
    ensures |b| == |s|
  {
    seq(|s|, i requires 0 <= i < |s| => s[i] as int % 256)
  }

  function RecordFor(c: Config, id: string, data: seq<byte>): seq<byte> {
    Record(c.aligned, AsciiBytes(id), data)
  }

  function ReadFrom(c: Config, t: Triplet, id: string, off: int): Outcome<seq<byte>> {
    ReadRecord(c.aligned, t.bin, AsciiBytes(id), off)
  }

  function BinPut(c: Config, t: Triplet, id: string, data: seq<byte>): Triplet {
    var rec := RecordFor(c, id, data);
    t.(bin := t.bin + rec, curOff := t.curOff + |rec|)
  }

  /** What `IndexHeader.Put` returns when its length check passes. */
  function IdxGrowth(t: Triplet): nat {
    if t.entries == [] then ENTRY_LEN - 2 else ENTRY_LEN
  }

  function IdxPut(t: Triplet, e: IndexEntry): Triplet
    requires Printable(e) && t.idx != ""
  {
    t.(idx := AppendInPlace(t.idx, Serialize(Padded(e)), t.entries == []),
       entries := t.entries + [e], refs := t.refs[e.BlobId := e])
  }

  function MfGrowth(t: Triplet): nat {
    if t.mfEmpty then MF_ENTRY_LEN - 2 else MF_ENTRY_LEN
  }

  function MfPut(t: Triplet, e: MFEntry): Triplet
    requires PrintableAction(e) && t.mf != ""
  {
    t.(mf := AppendInPlace(t.mf, SerializeAction(PaddedAction(e)), t.mfEmpty), mfEmpty := false, log := t.log + [e])
  }

  // ----- jobs -----

  /** How far one download-and-write worker is. `Torn` is a log append that will not complete: the lock of the
      log stays taken until the process dies. */
  datatype Pc = Checked | Reserved | Placed | Torn | BinDone | IdxDone | MfDone | Settled | Returned

  /** `increase` is `increaseBytes`, summed as the steps return; `off` is the offset the log append returned. */
  datatype Job = Job(pc: Pc, fid: string, blobId: string, data: seq<byte>, tid: string, off: int, increase: nat)

  function Payload(c: Config, data: seq<byte>): int {
    PayloadSize(c.aligned, |data|)
  }

  function MaxAlloc(c: Config, data: seq<byte>): int {
    OPEN_SIZE + Payload(c, data) + ENTRY_LEN + MF_ENTRY_LEN + 4
  }

  predicate IsLarge(c: Config, j: Job) {
    Payload(c, j.data) > c.large
  }

  function JobEntry(c: Config, j: Job): IndexEntry {
    IndexEntry(j.blobId, j.off, Payload(c, j.data), "", "", "")
  }

  function JobToken(c: Config, j: Job): string {
    PutToken(IsLarge(c, j), j.tid, j.blobId)
  }

  // ----- rows, readers, swap -----

  /** A metadata row. `token` and `size` are the range code of the file, empty until the first commit. */
  datatype Row = Row(ready: bool, owners: string, token: string, size: int)

  /** A reader that missed the triplet in the open dictionary and has yet to look in the closed one, or that
      has its answer. */
  datatype Reader = MissedOpen(tid: string) | Found(tid: string) | NotFound(tid: string)

  /** `Scan` walks the open dictionary, `Publish` inserts the new triplets and then starts closing, `Mark` has
      inserted the first one into the closed dictionary, `Drop` has written its state character. */
  datatype SwapPc = Scan | Publish | Mark | Drop

  /** `owed`: a new triplet exists on disk whose size is not yet added to `total`. */
  datatype Swap = Swap(pc: SwapPc, closing: seq<string>, news: seq<string>, owed: bool)

  /** `open`, `closed` and `large` are the key sets of the three dictionaries, `evicted` the keys taken from a
      list and queued for purging, `debts` the sizes of deleted triplets not yet subtracted.
      History: `blobs` maps triplet and blob id to the data acknowledged as indexed, `used` holds every id
      handed out, `unchecked` counts the opens that no size test has seen yet: those since the last test that
      passed, and the one before it that was not yet added to `total`. */
  datatype State = State(
    tri: map<string, Triplet>, open: set<string>, closed: set<string>, large: set<string>,
    total: int, jobs: map<nat, Job>, debts: seq<nat>, swap: Swap,
    rows: map<string, Row>, evicted: set<string>, readers: map<nat, Reader>,
    blobs: map<(string, string), seq<byte>>, used: set<string>, unchecked: nat)

  datatype Action =
    | Check(p: nat, fid: string, blobId: string, data: seq<byte>)
    | Reserve(p: nat)
    | PlaceSmall(p: nat, tid: string)
    | PlaceLarge(p: nat, tid: string)
    | Append(p: nat)
    | Tear(p: nat, k: nat)
    | Index(p: nat)
    | Manifest(p: nat)
    | Settle(p: nat)
    | Release(p: nat)
    | Commit(p: nat)
    | Miss(fid: string)
    | Outdate(fid: string, token: string, size: int)
    | Rollback(fid: string)
    | Evict(tid: string)
    | Purge(tid: string)
    | PayDebt(i: nat)
    | SwapOpen(tid: string, new_: string)
    | SwapAccount
    | SwapScanned
    | SwapPublish
    | SwapClose
    | SwapMark
    | SwapDrop
    | ReadOpen(r: nat, tid: string, id: string)
    | ReadClosed(r: nat)
    | Restart(new_: string)

  /** Ids come from the generator: eight characters, hexadecimal in the source. */
  predicate GoodId(id: string) {
    |id| == 8 && Plain(id) && IsId(id)
  }

  predicate At(s: State, p: nat, pc: Pc) {
    p in s.jobs && s.jobs[p].pc == pc
  }

  /** The job writes to an existing triplet. */
  predicate OnTriplet(s: State, p: nat, pc: Pc) {
    At(s, p, pc) && s.jobs[p].tid in s.tri
  }

  /** The triplets whose log is in the middle of an append that will not complete. */
  function Locked(jobs: map<nat, Job>): set<string> {
    set q | q in jobs && jobs[q].pc == Torn :: jobs[q].tid
  }

  function SetJob(s: State, p: nat, j: Job): State {
    s.(jobs := s.jobs[p := j])
  }

  function SetTriplet(s: State, tid: string, t: Triplet): State {
    s.(tri := s.tri[tid := t])
  }

  // ----- PhyBH.Put, step by step -----

  /** Under `mtx`: the size test against the current total. A request that fails it changes nothing here. */
  predicate CanCheck(c: Config, s: State, a: Action)
    requires a.Check?
  {
    && a.p !in s.jobs && GoodId(a.blobId) && a.blobId !in s.used && |a.data| < TWO_63
    && (forall q :: q in s.jobs ==> s.jobs[q].pc != Checked)
    && MaxAlloc(c, a.data) <= c.maxBytes - s.total
  }

  function DoCheck(s: State, a: Action): State
    requires a.Check?
  {
    SetJob(s, a.p, Job(Checked, a.fid, a.blobId, a.data, "", 0, 0))
    .(used := s.used + {a.blobId}, unchecked := if s.swap.owed then 1 else 0)
  }

  function DoReserve(c: Config, s: State, p: nat): State
    requires p in s.jobs
  {
    SetJob(s, p, s.jobs[p].(pc := Reserved)).(total := s.total + MaxAlloc(c, s.jobs[p].data))
  }

  predicate CanPlaceSmall(c: Config, s: State, p: nat, tid: string) {
    At(s, p, Reserved) && !IsLarge(c, s.jobs[p]) && tid in s.open
  }

  function DoPlaceSmall(s: State, p: nat, tid: string): State
    requires p in s.jobs
  {
    SetJob(s, p, s.jobs[p].(pc := Placed, tid := tid))
  }

  predicate CanPlaceLarge(c: Config, s: State, p: nat, tid: string) {
    At(s, p, Reserved) && IsLarge(c, s.jobs[p]) && GoodId(tid) && tid !in s.used
  }

  function DoPlaceLarge(s: State, p: nat, tid: string): State
    requires p in s.jobs
  {
    SetTriplet(SetJob(s, p, s.jobs[p].(pc := Placed, tid := tid, increase := OPEN_SIZE)), tid, NewTriplet(true))
    .(large := s.large + {tid}, used := s.used + {tid})
  }

  /** The log append. A file position is an int64. */
  predicate CanAppend(c: Config, s: State, p: nat) {
    && OnTriplet(s, p, Placed) && s.jobs[p].tid !in Locked(s.jobs)
    && |s.tri[s.jobs[p].tid].bin| + Payload(c, s.jobs[p].data) < TWO_63
  }

  function DoAppend(c: Config, s: State, p: nat): State
    requires p in s.jobs && s.jobs[p].tid in s.tri
  {
    var j := s.jobs[p];
    var t := s.tri[j.tid];
    SetTriplet(
      SetJob(s, p, j.(pc := BinDone, off := t.curOff, increase := j.increase + |RecordFor(c, j.blobId, j.data)|)),
      j.tid, BinPut(c, t, j.blobId, j.data))
  }

  predicate CanTear(c: Config, s: State, p: nat, k: nat) {
    CanAppend(c, s, p) && k <= |RecordFor(c, s.jobs[p].blobId, s.jobs[p].data)|
  }

  /** The first `k` bytes reach the disk and no more ever will. */
  function DoTear(c: Config, s: State, p: nat, k: nat): State
    requires p in s.jobs && s.jobs[p].tid in s.tri && k <= |RecordFor(c, s.jobs[p].blobId, s.jobs[p].data)|
  {
    var j := s.jobs[p];
    var t := s.tri[j.tid];
    SetTriplet(SetJob(s, p, j.(pc := Torn, increase := j.increase + k)),
               j.tid, t.(bin := t.bin + RecordFor(c, j.blobId, j.data)[..k]))
  }

  predicate CanIndex(c: Config, s: State, p: nat) {
    && OnTriplet(s, p, BinDone) && s.tri[s.jobs[p].tid].state != STATE_CLOSED
    && Printable(JobEntry(c, s.jobs[p])) && s.tri[s.jobs[p].tid].idx != ""
  }

  function DoIndex(c: Config, s: State, p: nat): State
    requires CanIndex(c, s, p)
  {
    var j := s.jobs[p];
    var t := s.tri[j.tid];
    SetTriplet(SetJob(s, p, j.(pc := IdxDone, increase := j.increase + IdxGrowth(t))),
               j.tid, IdxPut(t, JobEntry(c, j)))
    .(blobs := s.blobs[(j.tid, j.blobId) := j.data])
  }

  predicate CanManifest(s: State, p: nat) {
    OnTriplet(s, p, IdxDone) && Plain(s.jobs[p].blobId) && s.tri[s.jobs[p].tid].mf != ""
  }

  function DoManifest(s: State, p: nat): State
    requires CanManifest(s, p)
  {
    var j := s.jobs[p];
    var t := s.tri[j.tid];
    SetTriplet(SetJob(s, p, j.(pc := MfDone, increase := j.increase + MfGrowth(t))),
               j.tid, MfPut(t, MFEntry(j.blobId, ACTION_PUT, "")))
  }

  function DoSettle(s: State, p: nat): State
    requires p in s.jobs
  {
    SetJob(s, p, s.jobs[p].(pc := Settled)).(total := s.total + s.jobs[p].increase)
  }

  function DoRelease(c: Config, s: State, p: nat): State
    requires p in s.jobs
  {
    SetJob(s, p, s.jobs[p].(pc := Returned)).(total := s.total - MaxAlloc(c, s.jobs[p].data))
  }

  // ----- metadata -----

  /** `CommitCacheFileInDB`: the owner is taken from the token; a row deleted meanwhile is not recreated. */
  function DoCommit(c: Config, s: State, p: nat): State
    requires p in s.jobs
  {
    var j := s.jobs[p];
    var token := JobToken(c, j);
    var rows := match GetTripletIdFromToken(token)
                case Some(owner) =>
                  if j.fid in s.rows then s.rows[j.fid := Row(true, owner, token, Wrap32(|j.data|))] else s.rows
                case None => s.rows;
    s.(jobs := s.jobs - {p}, rows := rows)
  }

  /** A changed etag: back to pending, with the range code as it was read earlier. */
  function DoOutdate(s: State, fid: string, token: string, size: int): State {
    if fid in s.rows then s.(rows := s.rows[fid := s.rows[fid].(ready := false, token := token, size := size)]) else s
  }

  /** `DeletePendingFileWithFIdInDB`. */
  function DoRollback(s: State, fid: string): State {
    if fid in s.rows && !s.rows[fid].ready then s.(rows := s.rows - {fid}) else s
  }

  // ----- eviction -----

  /** `EnqueueDeletionReq` takes the tail of the closed or of the large triplets. */
  predicate CanEvict(s: State, tid: string) {
    tid in s.closed + s.large
  }

  function DoEvict(s: State, tid: string): State {
    s.(rows := map f | f in s.rows && s.rows[f].owners != tid :: s.rows[f], evicted := s.evicted + {tid})
  }

  /** `PurgeTriplet` up to the deletion of the files; deleting absent files yields zero. */
  function DoPurge(s: State, tid: string): State {
    s.(closed := s.closed - {tid}, large := s.large - {tid}, tri := s.tri - {tid},
       debts := s.debts + [if tid in s.tri then DiskSize(s.tri[tid]) else 0],
       blobs := map k | k in s.blobs && k.0 != tid :: s.blobs[k])
  }

  function DoPayDebt(s: State, i: nat): State
    requires i < |s.debts|
  {
    s.(total := s.total - s.debts[i], debts := s.debts[..i] + s.debts[i + 1..])
  }

  // ----- LoopHotSwap -----

  predicate CanSwapOpen(c: Config, s: State, tid: string, fresh_: string) {
    && s.swap.pc == Scan && !s.swap.owed && tid in s.open && tid !in s.swap.closing
    && tid in s.tri && s.tri[tid].curOff > c.closing
    && GoodId(fresh_) && fresh_ !in s.used
  }

  function DoSwapOpen(s: State, tid: string, fresh_: string): State {
    SetTriplet(s, fresh_, NewTriplet(false))
    .(swap := s.swap.(closing := s.swap.closing + [tid], news := s.swap.news + [fresh_], owed := true),
      used := s.used + {fresh_}, unchecked := s.unchecked + 1)
  }

  function DoSwapPublish(s: State): State
    requires s.swap.news != []
  {
    s.(open := s.open + {s.swap.news[0]}, swap := s.swap.(news := s.swap.news[1..]))
  }

  function DoSwapClose(s: State): State
    requires s.swap.closing != []
  {
    s.(closed := s.closed + {s.swap.closing[0]}, swap := s.swap.(pc := Mark))
  }

  predicate CanSwapMark(s: State) {
    && s.swap.pc == Mark && s.swap.closing != []
    && s.swap.closing[0] in s.tri && s.tri[s.swap.closing[0]].idx != ""
  }

  /** `Close` on a copy of the header: the file changes, the header in memory does not. */
  function DoSwapMark(s: State): State
    requires CanSwapMark(s)
  {
    var tid := s.swap.closing[0];
    var t := s.tri[tid];
    SetTriplet(s, tid, if t.state == STATE_CLOSED then t else t.(idx := t.idx[0 := STATE_CLOSED]))
    .(swap := s.swap.(pc := Drop))
  }

  function DoSwapDrop(s: State): State
    requires s.swap.closing != []
  {
    var rest := s.swap.closing[1..];
    s.(open := s.open - {s.swap.closing[0]},
       swap := s.swap.(closing := rest, pc := if rest == [] then Scan else Publish))
  }

  // ----- readers -----

  /** A reader starts with the token of a stored blob; the two dictionaries are looked at in separate steps. */
  function DoReadOpen(s: State, r: nat, tid: string): State {
    s.(readers := s.readers[r := if tid in s.open then Found(tid) else MissedOpen(tid)])
  }

  function DoReadClosed(s: State, r: nat): State
    requires r in s.readers
  {
    var tid := s.readers[r].tid;
    s.(readers := s.readers[r := if tid in s.closed then Found(tid) else NotFound(tid)])
  }

  // ----- crash and restart -----

  /** `ListTripleIdOfAllFiles` after the pending rows are gone. */
  function Owners(rows: map<string, Row>): set<string> {
    set f | f in rows && rows[f].ready :: rows[f].owners
  }

  function ReadyRows(rows: map<string, Row>): map<string, Row> {
    map f | f in rows && rows[f].ready :: rows[f]
  }

  function Kept(s: State): set<string> {
    set tid | tid in s.tri && tid in Owners(s.rows)
  }

  predicate AllReload(s: State) {
    forall tid :: tid in Kept(s) ==> Reload(s.tri[tid]).Some?
  }

  /** Triplets no row owns are deleted; the others are loaded from their files. */
  function Reloaded(s: State): map<string, Triplet>
    requires AllReload(s)
  {
    map tid | tid in Kept(s) :: Reload(s.tri[tid]).value
  }

  /** An owner without files would get fresh ones, and their sizes are not counted. */
  function Recreated(s: State): map<string, Triplet> {
    map tid | tid in Owners(s.rows) - s.tri.Keys :: NewTriplet(false)
  }

  function InState(tri: map<string, Triplet>, state: char): set<string> {
    set tid | tid in tri && tri[tid].state == state
  }

  /** The process dies, losing everything but files and rows, and `PhyBH.New` runs up to the point where it
      looks for an open triplet. */
  ghost function Rebooted(s: State): State
    requires AllReload(s)
  {
    var tri := Reloaded(s) + Recreated(s);
    s.(tri := tri, open := InState(tri, STATE_OPEN), closed := InState(tri, STATE_CLOSED),
       large := InState(tri, STATE_LARGE), total := Disk(Reloaded(s)),
       jobs := map[], debts := [], swap := Swap(Scan, [], [], false),
       rows := ReadyRows(s.rows), evicted := {}, readers := map[],
       blobs := map k | k in s.blobs && k.0 in tri :: s.blobs[k])
  }

  /** `PhyBH.New` opens a triplet when it found none open. */
  function OpenFirst(s: State, fresh_: string): State {
    if s.open != {} then s
    else
      SetTriplet(s, fresh_, NewTriplet(false))
      .(open := {fresh_}, total := s.total + OPEN_SIZE, used := s.used + {fresh_}, unchecked := s.unchecked + 1)
  }

  ghost function DoRestart(s: State, fresh_: string): State
    requires AllReload(s)
  {
    OpenFirst(Rebooted(s), fresh_)
  }

  // ----- sums -----

  ghost function Sizes(tri: map<string, Triplet>): map<string, int> {
    map tid | tid in tri :: DiskSize(tri[tid])
  }

  /** The bytes on disk. */
  ghost function Disk(tri: map<string, Triplet>): int {
    MapSum.Sum(Sizes(tri))
  }

  // ----- the machine -----

  function When<T>(enabled: bool, next: T): Option<T> {
    if enabled then Some(next) else None
  }

  /** One step of a worker in `PhyBH.Put` or of the commit that follows it; `None` when it is not that step's
      turn. */
  function StepJob(c: Config, s: State, a: Action): Option<State> {
    match a
    case Check(_, _, _, _) => When(CanCheck(c, s, a), DoCheck(s, a))
    case Reserve(p) => if At(s, p, Checked) then Some(DoReserve(c, s, p)) else None
    case PlaceSmall(p, tid) => if CanPlaceSmall(c, s, p, tid) then Some(DoPlaceSmall(s, p, tid)) else None
    case PlaceLarge(p, tid) => if CanPlaceLarge(c, s, p, tid) then Some(DoPlaceLarge(s, p, tid)) else None
    case Append(p) => if CanAppend(c, s, p) then Some(DoAppend(c, s, p)) else None
    case Tear(p, k) => if CanTear(c, s, p, k) then Some(DoTear(c, s, p, k)) else None
    case Index(p) => if CanIndex(c, s, p) then Some(DoIndex(c, s, p)) else None
    case Manifest(p) => if CanManifest(s, p) then Some(DoManifest(s, p)) else None
    case Settle(p) => if At(s, p, MfDone) then Some(DoSettle(s, p)) else None
    case Release(p) => if At(s, p, Settled) then Some(DoRelease(c, s, p)) else None
    case Commit(p) => if At(s, p, Returned) then Some(DoCommit(c, s, p)) else None
    case _ => None
  }

  /** One step of the hot-swap loop. */
  function StepSwap(c: Config, s: State, a: Action): Option<State> {
    match a
    case SwapOpen(tid, fresh_) => When(CanSwapOpen(c, s, tid, fresh_), DoSwapOpen(s, tid, fresh_))
    case SwapAccount => When(s.swap.owed, s.(total := s.total + OPEN_SIZE, swap := s.swap.(owed := false)))
    case SwapScanned =>
      When(s.swap.pc == Scan && !s.swap.owed && s.swap.closing != [], s.(swap := s.swap.(pc := Publish)))
    case SwapPublish => if s.swap.pc == Publish && s.swap.news != [] then Some(DoSwapPublish(s)) else None
    case SwapClose =>
      if s.swap.pc == Publish && s.swap.news == [] && s.swap.closing != [] then Some(DoSwapClose(s)) else None
    case SwapMark => if CanSwapMark(s) then Some(DoSwapMark(s)) else None
    case SwapDrop => if s.swap.pc == Drop && s.swap.closing != [] then Some(DoSwapDrop(s)) else None
    case _ => None
  }

  /** One step of anybody, as the code takes it. */
  ghost function CodeStep(c: Config, s: State, a: Action): Option<State> {
    match a
    case Miss(fid) => When(fid !in s.rows, s.(rows := s.rows[fid := Row(false, "", "", 0)]))
    case Outdate(fid, token, size) => Some(DoOutdate(s, fid, token, size))
    case Rollback(fid) => Some(DoRollback(s, fid))
    case Evict(tid) => When(CanEvict(s, tid), DoEvict(s, tid))
    case Purge(tid) => When(tid in s.evicted, DoPurge(s, tid))
    case PayDebt(i) => if i < |s.debts| then Some(DoPayDebt(s, i)) else None
    case ReadOpen(r, tid, id) =>
      When(r !in s.readers && (tid, id) in s.blobs && tid !in s.large, DoReadOpen(s, r, tid))
    case ReadClosed(r) =>
      if r in s.readers && s.readers[r].MissedOpen? then Some(DoReadClosed(s, r)) else None
    case Restart(fresh_) =>
      if AllReload(s) && GoodId(fresh_) && fresh_ !in s.used then Some(DoRestart(s, fresh_)) else None
    case SwapOpen(_, _) | SwapAccount | SwapScanned | SwapPublish | SwapClose | SwapMark | SwapDrop =>
      StepSwap(c, s, a)
    case _ => StepJob(c, s, a)
  }

  /** What the code leaves to its timing: a triplet is evicted only when no worker between its place and its commit is
      on it, no worker is placed on an evicted triplet that a swap has not yet taken from the open dictionary, and a
      purge comes after the swap has done so. */
  predicate Careful(s: State, a: Action) {
    match a
    case Evict(tid) => forall p :: p in s.jobs ==> s.jobs[p].tid != tid
    case PlaceSmall(_, tid) => tid !in s.evicted
    case Purge(tid) => tid !in s.open
    case _ => true
  }

  /** One step of the machine: a step of the code that respects this timing. */
  ghost function Step(c: Config, s: State, a: Action): Option<State> {
    if Careful(s, a) then CodeStep(c, s, a) else None
  }

  /** The first start on an empty disk and an empty table. */
  function Init(first: string): State {
    State(map[first := NewTriplet(false)], {first}, {}, {}, OPEN_SIZE, map[], [], Swap(Scan, [], [], false),
          map[], {}, map[], map[], {first}, 1)
  }

  /** The state after the given actions, if each was enabled in turn. */
  ghost function Run(c: Config, s: State, acts: seq<Action>): Option<State>
    decreases |acts|
  {
    if acts == [] then Some(s)
    else
      match Run(c, s, acts[..|acts| - 1])
      case None => None
      case Some(r) => Step(c, r, acts[|acts| - 1])
  }

  ghost function After(c: Config, first: string, acts: seq<Action>): Option<State> {
    Run(c, Init(first), acts)
  }

  // ----- Get -----

  /** What `PhyBH.Get` yields: data, the error for an unknown triplet, `nil` without error for an unknown blob,
      or the end of the process. */
  datatype GetResult = Data(data: seq<byte>) | NoTriplet | NoBlob | Fatal

  function GetIn(c: Config, t: Triplet, blobId: string): GetResult {
    if blobId !in t.refs then NoBlob
    else
      match ReadFrom(c, t, blobId, t.refs[blobId].Offset)
      case Ok(d) => Data(d)
      case Crash => Fatal
  }

  function Get(c: Config, s: State, token: string): GetResult {
    if |token| < 4 then Fatal
    else
      var big := token[..4] == LARGE_PREFIX;
      var bare := if big then token[4..] else token;
      match (GetTripletIdFromToken(bare), GetBlobIdFromToken(bare))
      case (Some(tid), Some(blobId)) =>
        if (if big then tid in s.large else tid in s.open + s.closed) && tid in s.tri
        then GetIn(c, s.tri[tid], blobId)
        else NoTriplet
      case _ => Fatal
  }
}
