/** The blob handler as the object it is: fields updated step by step, loops over directories and dictionaries. Every
    method is a run of the machine of `CacheSystem`, so what holds of all runs holds of it. */
module PhyBlobHandler {
  import opened Bytes
  import opened BlobIndex
  import opened BlobManifest
  import opened Tokens
  import opened CacheSystem
  import opened SystemShape
  import opened SystemBudget
  import opened SystemStore
  import SystemSwap
  import opened SystemRows
  import opened SystemRuns
  import opened SystemStart
  import opened SystemPut
  import MapSum

  function Only(tri: map<string, Triplet>, ids: set<string>): map<string, Triplet> {
    map tid | tid in tri && tid in ids :: tri[tid]
  }

  lemma DiskPeel(tri: map<string, Triplet>, ids: set<string>, tid: string)
    requires tid in tri && tid in ids
    ensures Disk(Only(tri, ids)) == Disk(Only(tri, ids - {tid})) + DiskSize(tri[tid])
  {
    hide DiskSize;
    assert Only(tri, ids - {tid}) == Only(tri, ids) - {tid};
    DiskRemove(Only(tri, ids), tid);
  }

  lemma DiskNone(tri: map<string, Triplet>)
    ensures Disk(Only(tri, {})) == 0
    ensures Disk(Only(tri, tri.Keys)) == Disk(tri)
  {
    assert Only(tri, tri.Keys) == tri;
    assert Sizes(Only(tri, {})) == map[];
  }

  lemma DiskNonNegative(tri: map<string, Triplet>)
    ensures Disk(tri) >= 0
  {
    MapSum.SumNonNegative(Sizes(tri));
  }

  /** Loading reads files and changes none. */
  lemma ReloadedSizes(s: State)
    requires AllReload(s)
    ensures Disk(Reloaded(s)) == Disk(Only(s.tri, Owners(s.rows)))
  {
    hide Owners, LoadIndex, LoadManifest;
    assert Sizes(Reloaded(s)) == Sizes(Only(s.tri, Owners(s.rows)));
  }

  /** How far the loading loop has come: `done` of the owners are loaded from `disk`. */
  ghost predicate Loading(
      disk: map<string, Triplet>, done: set<string>, tri: map<string, Triplet>, open: set<string>,
      closed: set<string>, large: set<string>)
  {
    && tri.Keys == disk.Keys + done
    && (forall tid :: tid in disk && tid !in done ==> tri[tid] == disk[tid])
    && (forall tid :: tid in done ==>
          && Known(tri[tid].state)
          && if tid in disk then Reload(disk[tid]) == Some(tri[tid]) else tri[tid] == NewTriplet(false))
    && open == InState(Only(tri, done), STATE_OPEN)
    && closed == InState(Only(tri, done), STATE_CLOSED)
    && large == InState(Only(tri, done), STATE_LARGE)
  }

  lemma LoadedNone(disk: map<string, Triplet>)
    ensures Loading(disk, {}, disk, {}, {}, {})
  {
    assert Only(disk, {}) == map[];
  }

  lemma InStateAdd(tri: map<string, Triplet>, done: set<string>, tid: string, t: Triplet, state: char)
    requires tid !in done
    ensures InState(Only(tri[tid := t], done + {tid}), state)
         == InState(Only(tri, done), state) + (if t.state == state then {tid} else {})
  {
  }

  /** One more triplet is loaded and put into the dictionary of its state. */
  lemma LoadOne(
      disk: map<string, Triplet>, done: set<string>, tri: map<string, Triplet>, open: set<string>,
      closed: set<string>, large: set<string>, tid: string, t: Triplet)
    requires Loading(disk, done, tri, open, closed, large) && tid !in done && Known(t.state)
    requires if tid in disk then Reload(disk[tid]) == Some(t) else t == NewTriplet(false)
    ensures Loading(disk, done + {tid}, tri[tid := t],
                    if t.state == STATE_OPEN then open + {tid} else open,
                    if t.state == STATE_CLOSED then closed + {tid} else closed,
                    if t.state == STATE_LARGE then large + {tid} else large)
  {
    hide Reload, NewTriplet, Known, InState, Only;
    InStateAdd(tri, done, tid, t, STATE_OPEN);
    InStateAdd(tri, done, tid, t, STATE_CLOSED);
    InStateAdd(tri, done, tid, t, STATE_LARGE);
  }

  lemma NewIsOpen()
    ensures Known(NewTriplet(false).state)
  {
  }

  lemma ReadyAre(rows: map<string, Row>)
    ensures forall f :: f in ReadyRows(rows) <==> f in rows && rows[f].ready
    ensures forall f :: f in ReadyRows(rows) ==> ReadyRows(rows)[f] == rows[f]
  {
  }

  lemma RestartIs(s: State, fresh_: string)
    requires AllReload(s)
    ensures DoRestart(s, fresh_) == OpenFirst(Rebooted(s), fresh_)
  {
  }

  lemma OwnersOfReady(rows: map<string, Row>)
    ensures (set f | f in ReadyRows(rows) :: ReadyRows(rows)[f].owners) == Owners(rows)
  {
    var ready := ReadyRows(rows);
    forall f | f in rows && rows[f].ready
      ensures rows[f].owners in set f | f in ready :: ready[f].owners
    {
      assert f in ready;
    }
  }

  lemma StartableIs(s: State)
    ensures var disk := Only(s.tri, Owners(s.rows));
            Startable(s) <==> forall tid :: tid in Owners(s.rows) && tid in disk ==>
                                Reload(disk[tid]).Some? && Known(Reload(disk[tid]).value.state)
  {
    hide Reload, Owners, Known;
    var disk := Only(s.tri, Owners(s.rows));
    assert forall tid :: tid in Kept(s) <==> tid in Owners(s.rows) && tid in disk;
  }

  /** When all owners are loaded, memory and disk are what the machine's restart makes of them. */
  lemma LoadedAll(s: State, tri: map<string, Triplet>, open: set<string>, closed: set<string>, large: set<string>)
    requires Loading(Only(s.tri, Owners(s.rows)), Owners(s.rows), tri, open, closed, large)
    ensures Startable(s) && AllReload(s)
    ensures var b := Rebooted(s); tri == b.tri && open == b.open && closed == b.closed && large == b.large
  {
    hide Reload, NewTriplet, Owners, Known;
    forall tid | tid in Kept(s)
      ensures Reload(s.tri[tid]) == Some(tri[tid]) && Known(tri[tid].state)
    {
    }
    assert tri == Reloaded(s) + Recreated(s);
    assert Only(tri, Owners(s.rows)) == tri;
  }

  // ----- the swap while the workers stand still -----

  /** The swap loop has come from `s` to `r` on its own. */
  ghost predicate Swapped(c: Config, s: State, r: State) {
    && Inv(c, r) && SystemSwap.OpenCount(r) == SystemSwap.OpenCount(s)
    && r.jobs == s.jobs && r.debts == s.debts && r.rows == s.rows && r.evicted == s.evicted && r.large == s.large
  }

  function Accounted(s: State): State {
    s.(total := s.total + OPEN_SIZE, swap := s.swap.(owed := false))
  }

  lemma SwapAdvance(c: Config, s: State, r: State, a: Action)
    requires Swapped(c, s, r) && StepSwap(c, r, a).Some?
    ensures Swapped(c, s, StepSwap(c, r, a).value)
  {
    hide Shape, Budget, Store, SystemSwap.Served, NoDangling, SystemSwap.OpenCount, GoodId, NewTriplet;
    StepKeepsInv(c, r, a);
    SystemSwap.StepKeepsCount(c, r, a);
  }

  /** An open triplet that is to be closed has its index file and an open header. */
  lemma CloseReady(c: Config, s: State, r: State)
    requires Swapped(c, s, r) && r.swap.closing != []
    ensures r.swap.closing[0] in r.tri && r.tri[r.swap.closing[0]].idx != ""
    ensures r.tri[r.swap.closing[0]].state != STATE_CLOSED && (r.swap.pc != Scan ==> !r.swap.owed)
  {
    hide Budget, Store, SystemSwap.Served, NoDangling, SystemSwap.OpenCount, GoodId, TripletOk, Jobs;
    assert r.swap.closing[0] in r.open;
  }

  function AfterClose(r: State): State
    requires r.swap.closing != [] && r.swap.closing[0] in r.tri && r.tri[r.swap.closing[0]].idx != ""
  {
    var id, rest := r.swap.closing[0], r.swap.closing[1..];
    r.(closed := r.closed + {id}, open := r.open - {id},
       tri := r.tri[id := r.tri[id].(idx := r.tri[id].idx[0 := STATE_CLOSED])],
       swap := Swap(if rest == [] then Scan else Publish, rest, [], false))
  }

  /** Closing the first triplet of the list takes three steps of the machine. */
  lemma CloseRuns(c: Config, s: State, r: State)
    requires Swapped(c, s, r) && r.swap.pc == Publish && r.swap.news == [] && r.swap.closing != []
    ensures r.swap.closing[0] in r.tri && r.tri[r.swap.closing[0]].idx != "" && Swapped(c, s, AfterClose(r))
  {
    hide Swapped, GoodId;
    CloseReady(c, s, r);
    SwapAdvance(c, s, r, SwapClose);
    SwapAdvance(c, s, DoSwapClose(r), SwapMark);
    SwapAdvance(c, s, DoSwapMark(DoSwapClose(r)), SwapDrop);
  }

  /** The open triplets that have outgrown the threshold. */
  function Full(c: Config, tri: map<string, Triplet>, open: set<string>): set<string> {
    set tid | tid in open && tid in tri && tri[tid].curOff > c.closing
  }

  /** What the generator yields: distinct new ids. */
  predicate FreshIds(ids: seq<string>, used: set<string>) {
    Distinct(ids) && forall i :: 0 <= i < |ids| ==> GoodId(ids[i]) && ids[i] !in used
  }

  lemma IdsKnown(c: Config, s: State, r: State)
    requires Swapped(c, s, r)
    ensures r.tri.Keys <= r.used
  {
    hide Budget, Store, SystemSwap.Served, NoDangling, SystemSwap.OpenCount, GoodId, TripletOk, Jobs, Swapping, Dicts;
  }

  function Elems(xs: seq<string>): set<string> {
    set x | x in xs
  }

  lemma ElemsSnoc(xs: seq<string>, x: string)
    ensures Elems(xs + [x]) == Elems(xs) + {x}
  {
  }

  /** How far the scan has come: `done` of the open triplets are looked at. */
  predicate Scanned(
      c: Config, tri0: map<string, Triplet>, used0: set<string>, ids: seq<string>, done: set<string>,
      xs: seq<string>, ys: seq<string>, tri: map<string, Triplet>, used: set<string>) {
    && Elems(xs) == Full(c, tri0, done) && |xs| == |ys| <= |done| && |ys| <= |ids| && ys == ids[..|ys|]
    && used == used0 + Elems(ys) && done <= tri0.Keys
    && (forall x :: x in tri0 ==> x in tri && tri[x] == tri0[x])
    && (forall x :: x in tri && x !in tri0 ==> x in Elems(ys) && tri[x] == NewTriplet(false))
  }

  lemma ScannedNone(c: Config, tri: map<string, Triplet>, used: set<string>, ids: seq<string>)
    ensures Scanned(c, tri, used, ids, {}, [], [], tri, used)
  {
  }

  lemma ScannedOther(
      c: Config, tri0: map<string, Triplet>, used0: set<string>, ids: seq<string>, done: set<string>,
      xs: seq<string>, ys: seq<string>, tri: map<string, Triplet>, used: set<string>, id: string)
    requires Scanned(c, tri0, used0, ids, done, xs, ys, tri, used) && id in tri0 && id !in done
    requires tri[id].curOff <= c.closing
    ensures Scanned(c, tri0, used0, ids, done + {id}, xs, ys, tri, used)
  {
    hide Elems;
  }

  lemma ScannedFull(
      c: Config, tri0: map<string, Triplet>, used0: set<string>, ids: seq<string>, done: set<string>,
      xs: seq<string>, ys: seq<string>, tri: map<string, Triplet>, used: set<string>, id: string, open: set<string>,
      t: Triplet)
    requires Scanned(c, tri0, used0, ids, done, xs, ys, tri, used) && id in tri0 && id !in done
    requires tri[id].curOff > c.closing && t == NewTriplet(false)
    requires done + {id} <= open && |open| <= |ids| && FreshIds(ids, used0)
    ensures var n := |ys|;
            && n < |ids| && id !in xs && GoodId(ids[n]) && ids[n] !in used
            && (ids[n] !in tri ==>
                  Scanned(c, tri0, used0, ids, done + {id}, xs + [id], ys + [ids[n]], tri[ids[n] := t],
                          used + {ids[n]}))
  {
    hide GoodId, NewTriplet, Full, Elems, FreshIds;
    var n := |ys|;
    assert |done + {id}| <= |open| by { Smaller(done + {id}, open); }
    ElemsSnoc(xs, id);
    ElemsSnoc(ys, ids[n]);
    ElemsOf(xs, id);
    FullSnoc(c, tri0, done, id);
    FreshNext(ids, used0, n);
    assert ids[..n + 1] == ids[..n] + [ids[n]];
  }

  lemma ElemsOf(xs: seq<string>, x: string)
    ensures x in Elems(xs) <==> x in xs
  {
  }

  lemma FullSnoc(c: Config, tri: map<string, Triplet>, done: set<string>, id: string)
    requires id in tri && id !in done && tri[id].curOff > c.closing
    ensures Full(c, tri, done + {id}) == Full(c, tri, done) + {id} && id !in Full(c, tri, done)
  {
  }

  lemma FreshNext(ids: seq<string>, used: set<string>, n: nat)
    requires FreshIds(ids, used) && n < |ids|
    ensures GoodId(ids[n]) && ids[n] !in used + Elems(ids[..n])
  {
    hide GoodId;
  }

  lemma {:induction false} Smaller(xs: set<string>, ys: set<string>)
    requires xs <= ys
    ensures |xs| <= |ys|
  {
    assert |ys| == |xs| + |ys - xs| by { assert ys == xs + (ys - xs); }
  }

  lemma ScannedAll(
      c: Config, tri0: map<string, Triplet>, used0: set<string>, ids: seq<string>, done: set<string>,
      xs: seq<string>, ys: seq<string>, tri: map<string, Triplet>, used: set<string>)
    requires Scanned(c, tri0, used0, ids, done, xs, ys, tri, used)
    ensures Elems(xs) == Full(c, tri0, done) && |xs| == |ys| && Elems(ys) <= Elems(ids)
    ensures forall x :: x in tri0 ==> x in tri && tri[x] == tri0[x]
    ensures forall x :: x in tri && x !in tri0 ==> x in Elems(ys) && tri[x] == NewTriplet(false)
  {
  }

  lemma OpenKnown(c: Config, s: State)
    requires Inv(c, s)
    ensures Swapped(c, s, s) && s.open <= s.tri.Keys && s.tri.Keys <= s.used
  {
    hide Budget, Store, SystemSwap.Served, NoDangling, SystemSwap.OpenCount, GoodId, TripletOk, Jobs, Swapping;
  }

  lemma FreshElems(ids: seq<string>, used: set<string>)
    requires FreshIds(ids, used)
    ensures Elems(ids) !! used
  {
  }

  lemma ElemsNone(xs: seq<string>, ys: seq<string>)
    requires |xs| == |ys|
    ensures xs == [] ==> Elems(xs) == Elems(ys) == {}
  {
  }

  lemma Exchange(open: set<string>, ids: set<string>, news: set<string>, gone: set<string>)
    requires ids !! open && news <= ids && gone <= open
    ensures (open + news - gone) * open == open - gone
  {
  }

  lemma FullIs(c: Config, tri: map<string, Triplet>, open: set<string>)
    requires open <= tri.Keys
    ensures forall x :: x in Full(c, tri, open) <==> x in open && tri[x].curOff > c.closing
  {
  }

  lemma FullThere(c: Config, tri: map<string, Triplet>, open: set<string>)
    ensures Full(c, tri, open) <= tri.Keys
  {
  }

  /** Only the state character in the file has changed, to closed. */
  predicate Marked(t: Triplet, r: Triplet) {
    t.idx != "" && r == t.(idx := r.idx) && r.idx == "3" + t.idx[1..]
  }

  /** A triplet that is closed again is marked as before. */
  lemma MarkedTwice(a: map<string, Triplet>, b: map<string, Triplet>, r: map<string, Triplet>, id: string)
    requires id in a && id in b && id in r && Marked(b[id], r[id])
    ensures Marked(a[id], b[id]) || a[id] == b[id] ==> Marked(a[id], r[id])
  {
  }

  lemma ElemsEmpty()
    ensures Elems([]) == {}
  {
  }

  lemma FullOpen(c: Config, tri: map<string, Triplet>, open: set<string>)
    ensures Full(c, tri, open) <= open
  {
  }

  /** A round that has come to its end. */
  lemma SwapDone(c: Config, s: State, r: State)
    requires Inv(c, s) && Swapped(c, s, r) && s.swap == r.swap == Swap(Scan, [], [], false)
    ensures Inv(c, r) && |r.open| == |s.open| && r.total - s.total == Disk(r.tri) - Disk(s.tri)
  {
    hide Shape, Store, SystemSwap.Served, NoDangling, Bounded;
  }

  /** A triplet is there or is made, and then written to. */
  lemma PlacedThenFiled(
      c: Config, tri: map<string, Triplet>, placed: map<string, Triplet>, filed: map<string, Triplet>, tid: string,
      id: string, data: seq<byte>)
    requires if tid in tri then placed == tri else placed == tri[tid := NewTriplet(true)]
    requires OnlyAt(placed, filed, tid) && Filed(c, placed[tid], filed[tid], id, data)
    ensures tid in filed && (forall x :: x in filed <==> x in tri || x == tid)
    ensures forall x :: x in tri && x != tid ==> filed[x] == tri[x]
    ensures Filed(c, if tid in tri then tri[tid] else NewTriplet(true), filed[tid], id, data)
    ensures placed[tid] == if tid in tri then tri[tid] else NewTriplet(true)
  {
    hide Filed, NewTriplet;
  }

  lemma NotThere(c: Config, s: State, tid: string)
    requires Inv(c, s) && tid !in s.used
    ensures tid !in s.tri && s.open <= s.tri.Keys
  {
    hide Budget, Store, SystemSwap.Served, NoDangling, SystemSwap.OpenCount, GoodId, TripletOk, Jobs, Swapping;
  }

  /** What a `Put` needs, in bytes, before it is let through. */
  lemma ReservationIs(c: Config, data: seq<byte>)
    ensures MaxAlloc(c, data) ==
            if c.aligned then 4096 * ((|data| + 3927) / 3928) + 466 else |data| + 602
  {
  }

  /** The three writes of one `Put`: the record at the end of the log, an index entry that says where it begins and how
      long it is, a put record in the manifest. */
  predicate Filed(c: Config, t: Triplet, r: Triplet, id: string, data: seq<byte>) {
    var rec := RecordFor(c, id, data);
    var e := IndexEntry(id, |t.bin|, |rec|, "", "", "");
    && r.bin == t.bin + rec && r.entries == t.entries + [e] && r.refs == t.refs[id := e]
    && r.log == t.log + [MFEntry(id, 80, "")] && r.state == t.state
  }

  lemma FiledSteps(
      c: Config, tri0: map<string, Triplet>, tri1: map<string, Triplet>, tri2: map<string, Triplet>,
      tri3: map<string, Triplet>, tid: string, id: string, data: seq<byte>)
    requires OnlyAt(tri0, tri1, tid) && OnlyAt(tri1, tri2, tid) && OnlyAt(tri2, tri3, tid)
    requires var t, r := tri0[tid], tri1[tid];
             r == t.(bin := t.bin + RecordFor(c, id, data), curOff := r.curOff)
    requires var t, r, e := tri1[tid], tri2[tid], IndexEntry(id, |tri0[tid].bin|, |RecordFor(c, id, data)|, "", "", "");
             r == t.(idx := r.idx, entries := t.entries + [e], refs := t.refs[id := e])
    requires var t, r := tri2[tid], tri3[tid];
             r == t.(mf := r.mf, mfEmpty := false, log := t.log + [MFEntry(id, 80, "")])
    ensures OnlyAt(tri0, tri3, tid) && Filed(c, tri0[tid], tri3[tid], id, data)
    ensures tri1[tid].entries == tri0[tid].entries && tri2[tid].log == tri0[tid].log
  {
    hide RecordFor;
  }

  /** The maps differ at `tid` at most. */
  predicate OnlyAt(a: map<string, Triplet>, b: map<string, Triplet>, tid: string) {
    tid in a && a.Keys == b.Keys && forall x :: x in a && x != tid ==> b[x] == a[x]
  }

  /** With no log locked, the offset of every log is its end, and the empty flag of every manifest is right. */
  lemma GoingEnds(c: Config, s: State, r: State, acts: seq<Action>, p: nat, tid: string)
    requires Going(c, s, r, acts, p) && tid in r.tri
    ensures r.tri[tid].curOff == |r.tri[tid].bin| && r.tri[tid].mfEmpty == (r.tri[tid].log == [])
  {
    hide Run, Beside, Locked, Budget, Store, SystemSwap.Served, NoDangling, SystemSwap.OpenCount, Dicts, Jobs, Swapping,
      GoodId, IndexFile, ManifestFile, RefMapOf, AllPrintable, AllActions;
    assert TripletOk(r.tri[tid], tid in Locked(r.jobs));
  }

  class PhyBH {
    const c: Config
    /** The triplets: their files and the headers in memory. */
    var triplets: map<string, Triplet>
    var OpenTplt: set<string>
    var ClosedTplt: set<string>
    var LargeObjTplt: set<string>
    var totalBytes: int
    /** The metadata table. */
    var FDb: map<string, Row>
    /** The other components of the machine's state. */
    ghost var history: State

    constructor (c: Config)
      ensures this.c == c
    {
      this.c := c;
      triplets, OpenTplt, ClosedTplt, LargeObjTplt, totalBytes, FDb := map[], {}, {}, {}, 0, map[];
    }

    /** The machine's state: the fields, and from `history` what other goroutines are doing. */
    ghost function View(): State
      reads this
    {
      history.(tri := triplets, open := OpenTplt, closed := ClosedTplt, large := LargeObjTplt, total := totalBytes,
               rows := FDb)
    }

    /** The sizes of all files found, and the ids that have an index file. */
    method ScanLocalFS() returns (ids: set<string>, totalSize: int)
      ensures ids == triplets.Keys && totalSize == Disk(triplets)
    {
      ids := triplets.Keys;
      totalSize := 0;
      var left := ids;
      DiskNone(triplets);
      while left != {}
        invariant left <= ids == triplets.Keys
        invariant totalSize + Disk(Only(triplets, left)) == Disk(triplets)
        decreases |left|
      {
        var tid :| tid in left;
        DiskPeel(triplets, left, tid);
        totalSize := totalSize + DiskSize(triplets[tid]);
        left := left - {tid};
      }
    }

    method DeleteTripletFilesOnDisk(tid: string) returns (size: int)
      modifies this`triplets
      ensures triplets == old(triplets) - {tid} && size == Disk(old(triplets)) - Disk(triplets)
      ensures size == if tid in old(triplets) then DiskSize(old(triplets)[tid]) else 0
    {
      DiskRemove(triplets, tid);
      size := if tid in triplets then DiskSize(triplets[tid]) else 0;
      triplets := triplets - {tid};
    }

    /** Deletes what no row owns. */
    method DeleteOrphans(ids: set<string>, owners: set<string>) returns (orphanSize: int)
      requires ids == triplets.Keys
      modifies this`triplets
      ensures triplets == Only(old(triplets), owners)
      ensures orphanSize == Disk(old(triplets)) - Disk(triplets)
    {
      orphanSize := 0;
      var left := ids;
      while left != {}
        invariant left <= ids
        invariant triplets == Only(old(triplets), owners + left)
        invariant orphanSize == Disk(old(triplets)) - Disk(triplets)
        decreases |left|
      {
        var tid :| tid in left;
        left := left - {tid};
        if tid !in owners {
          var size := DeleteTripletFilesOnDisk(tid);
          orphanSize := orphanSize + size;
        }
      }
      assert owners + {} == owners;
    }

    /** Loads one owner's triplet and puts it in the dictionary of its state; an unknown state is a panic. */
    method LoadTriplet(tid: string, ghost disk: map<string, Triplet>, ghost done: set<string>) returns (ok: bool)
      requires Loading(disk, done, triplets, OpenTplt, ClosedTplt, LargeObjTplt) && tid !in done
      modifies this`triplets, this`OpenTplt, this`ClosedTplt, this`LargeObjTplt
      ensures ok <==> tid in disk ==> Reload(disk[tid]).Some? && Known(Reload(disk[tid]).value.state)
      ensures ok ==> Loading(disk, done + {tid}, triplets, OpenTplt, ClosedTplt, LargeObjTplt)
    {
      hide Reload;
      NewIsOpen();
      var loaded := if tid in triplets then Reload(triplets[tid]) else Some(NewTriplet(false));
      if loaded == None {
        return false;
      }
      var t := loaded.value;
      ghost var tri, open, closed, large := triplets, OpenTplt, ClosedTplt, LargeObjTplt;
      triplets := triplets[tid := t];
      if t.state == STATE_OPEN {
        OpenTplt := OpenTplt + {tid};
      } else if t.state == STATE_CLOSED {
        ClosedTplt := ClosedTplt + {tid};
      } else if t.state == STATE_LARGE {
        LargeObjTplt := LargeObjTplt + {tid};
      } else {
        return false;
      }
      LoadOne(disk, done, tri, open, closed, large, tid, t);
      ok := true;
    }

    method LoadAll(triIds: set<string>) returns (ok: bool)
      requires OpenTplt == ClosedTplt == LargeObjTplt == {}
      modifies this`triplets, this`OpenTplt, this`ClosedTplt, this`LargeObjTplt
      ensures ok <==> forall tid :: tid in triIds && tid in old(triplets) ==>
                        Reload(old(triplets)[tid]).Some? && Known(Reload(old(triplets)[tid]).value.state)
      ensures ok ==> Loading(old(triplets), triIds, triplets, OpenTplt, ClosedTplt, LargeObjTplt)
    {
      hide Reload, Known, NewTriplet, Loading;
      ghost var disk := triplets;
      LoadedNone(disk);
      var left := triIds;
      assert triIds - left == {};
      while left != {}
        invariant left <= triIds
        invariant Loading(disk, triIds - left, triplets, OpenTplt, ClosedTplt, LargeObjTplt)
        invariant forall tid :: tid in triIds - left && tid in disk ==>
                    Reload(disk[tid]).Some? && Known(Reload(disk[tid]).value.state)
        decreases |left|
      {
        var tid :| tid in left;
        ok := LoadTriplet(tid, disk, triIds - left);
        if !ok {
          return;
        }
        assert triIds - (left - {tid}) == triIds - left + {tid};
        left := left - {tid};
      }
      assert triIds - left == triIds;
      ok := true;
    }

    /** Scans the disk, drops the pending rows and then every triplet that no row owns. */
    method Reconcile() returns (triIds: set<string>)
      modifies this`FDb, this`triplets, this`totalBytes
      ensures FDb == ReadyRows(old(FDb)) && triIds == Owners(old(FDb))
      ensures triplets == Only(old(triplets), triIds) && totalBytes == Disk(triplets)
    {
      hide Disk, Owners, ReadyRows, Only;
      OwnersOfReady(FDb);
      var triIdsInDisk, totalSize := ScanLocalFS();
      FDb := ReadyRows(FDb);
      triIds := set f | f in FDb :: FDb[f].owners;
      var orphanSize := DeleteOrphans(triIdsInDisk, triIds);
      totalBytes := totalSize - orphanSize;
      if totalBytes < 0 {
        totalBytes := 0;
      }
      DiskNonNegative(triplets);
    }

    /** Start-up. A triplet that does not load stops the process. */
    method New(fresh_: string) returns (ok: bool)
      requires OpenTplt == ClosedTplt == LargeObjTplt == {}
      modifies this
      ensures ok <==> Startable(old(View()))
      ensures ok ==> View() == DoRestart(old(View()), fresh_)
      // it succeeds exactly when the files load that the ready rows name
      ensures ok <==> forall f :: f in old(FDb) && old(FDb)[f].ready && old(FDb)[f].owners in old(triplets) ==>
                        Loads(old(triplets)[old(FDb)[f].owners])
      // the pending rows go, the others stay as they are
      ensures forall f :: f in FDb <==> f in old(FDb) && old(FDb)[f].ready
      ensures forall f :: f in FDb ==> FDb[f] == old(FDb)[f]
      // the triplets are those that the rows name, and the fresh one when no other is open
      ensures ok ==>
                && (forall f :: f in FDb ==> FDb[f].owners in triplets)
                && (forall tid :: tid in triplets ==>
                      (exists f :: f in FDb && FDb[f].owners == tid) || (tid == fresh_ && OpenTplt == {fresh_}))
    {
      hide Reload, Known, Loading, Disk, NewTriplet, Owners, ReadyRows, Reloaded, Recreated, Only, Loads, Startable,
        DoRestart;
      ghost var s := View();
      StartsExactly(s);
      ReadyAre(FDb);
      var triIds := Reconcile();
      StartableIs(s);
      ok := LoadAll(triIds);
      if !ok {
        return;
      }
      LoadedAll(s, triplets, OpenTplt, ClosedTplt, LargeObjTplt);
      ReloadedSizes(s);
      StartTriplets(s, fresh_);
      RestartIs(s, fresh_);
      history := DoRestart(s, fresh_);
      if OpenTplt == {} {
        triplets := triplets[fresh_ := NewTriplet(false)];
        totalBytes := totalBytes + OPEN_SIZE;
        OpenTplt := {fresh_};
      }
    }

    // ----- Put -----

    /** The worker `p` that the ghost state records is at `pc` with this triplet and this blob. */
    ghost predicate Working(p: nat, pc: Pc, tid: string, blbId: string, data: seq<byte>)
      reads this
    {
      && p in history.jobs && history.jobs[p].pc == pc
      && history.jobs[p].tid == tid && history.jobs[p].blobId == blbId && history.jobs[p].data == data
    }

    /** The size test and the reservation, under `mtx`. */
    method ReserveBytes(ghost p: nat, ghost fid: string, blbId: string, data: seq<byte>) returns (ok: bool)
      requires CanAsk(View(), p, blbId, data)
      modifies this`totalBytes, this`history
      ensures ok <==> MaxAlloc(c, data) <= c.maxBytes - old(totalBytes)
      ensures unchanged(this`triplets, this`OpenTplt, this`ClosedTplt, this`LargeObjTplt, this`FDb)
      ensures View() == if ok then AfterReserve(c, old(View()), p, fid, blbId, data) else old(View())
      ensures ok ==> Working(p, Reserved, "", blbId, data) && View().jobs[p].increase == 0
      ensures ok ==> totalBytes == old(totalBytes) + MaxAlloc(c, data)
      ensures ok ==> View().used == old(View().used) + {blbId} && View().evicted == old(View().evicted)
    {
      hide GoodId, MaxAlloc;
      var maxAllocSize := MaxAlloc(c, data);
      if maxAllocSize > c.maxBytes - totalBytes {
        return false;
      }
      history := AfterReserve(c, View(), p, fid, blbId, data);
      totalBytes := totalBytes + maxAllocSize;
      ok := true;
    }

    /** The log append; `CurOff` is the position it returns. */
    method BinHeaderPut(ghost s: State, ghost acts: seq<Action>, ghost p: nat, tid: string, blbId: string,
                        data: seq<byte>)
      returns (offset: int, size: int)
      requires Going(c, s, View(), acts, p) && Working(p, Placed, tid, blbId, data)
      modifies this`triplets, this`history
      ensures Going(c, s, View(), acts + [Append(p)], p) && Working(p, BinDone, tid, blbId, data)
      ensures View() == DoAppend(c, old(View()), p) && offset == View().jobs[p].off && size == Payload(c, data)
      ensures View().jobs[p].increase == old(View().jobs[p].increase) + size
      ensures OnlyAt(old(triplets), triplets, tid) && size == |RecordFor(c, blbId, data)|
      ensures var t, r := old(triplets)[tid], triplets[tid];
              && offset == |t.bin| && r == t.(bin := t.bin + RecordFor(c, blbId, data), curOff := r.curOff)
    {
      hide Going, Payload, Locked, RecordFor;
      AdvanceAppend(c, s, View(), acts, p);
      GoingEnds(c, s, View(), acts, p, tid);
      ghost var next := DoAppend(c, View(), p);
      offset, size := triplets[tid].curOff, |RecordFor(c, blbId, data)|;
      triplets := triplets[tid := BinPut(c, triplets[tid], blbId, data)];
      history := next;
    }

    method IdxHeaderPut(
        ghost s: State, ghost acts: seq<Action>, ghost p: nat, tid: string, blbId: string, ghost data: seq<byte>,
        offset: int, size: int)
      returns (idxBytes: int)
      requires Going(c, s, View(), acts, p) && Working(p, BinDone, tid, blbId, data)
      requires View().jobs[p].off == offset && size == Payload(c, data)
      modifies this`triplets, this`history
      ensures Going(c, s, View(), acts + [Index(p)], p) && Working(p, IdxDone, tid, blbId, data)
      ensures View().jobs[p].increase == old(View().jobs[p].increase) + idxBytes
      ensures OnlyAt(old(triplets), triplets, tid)
      ensures var t, r, e := old(triplets)[tid], triplets[tid], IndexEntry(blbId, offset, size, "", "", "");
              && r == t.(idx := r.idx, entries := t.entries + [e], refs := t.refs[blbId := e])
              && idxBytes == if t.entries == [] then 250 else 252
    {
      hide Going, Printable, Payload, Serialize, Padded;
      AdvanceIndex(c, s, View(), acts, p);
      ghost var next := DoIndex(c, View(), p);
      idxBytes := IdxGrowth(triplets[tid]);
      triplets := triplets[tid := IdxPut(triplets[tid], IndexEntry(blbId, offset, size, "", "", ""))];
      history := next;
    }

    method MFHeaderPut(ghost s: State, ghost acts: seq<Action>, ghost p: nat, tid: string, blbId: string,
                       ghost data: seq<byte>)
      returns (mfBytes: int)
      requires Going(c, s, View(), acts, p) && Working(p, IdxDone, tid, blbId, data)
      modifies this`triplets, this`history
      ensures Going(c, s, View(), acts + [Manifest(p)], p) && Working(p, MfDone, tid, blbId, data)
      ensures View().jobs[p].increase == old(View().jobs[p].increase) + mfBytes
      ensures OnlyAt(old(triplets), triplets, tid)
      ensures var t, r := old(triplets)[tid], triplets[tid];
              && r == t.(mf := r.mf, mfEmpty := false, log := t.log + [MFEntry(blbId, 80, "")])
              && mfBytes == if t.log == [] then 200 else 202
    {
      hide Going, SerializeAction, PaddedAction;
      AdvanceManifest(c, s, View(), acts, p);
      GoingEnds(c, s, View(), acts, p, tid);
      ghost var next := DoManifest(View(), p);
      mfBytes := MfGrowth(triplets[tid]);
      triplets := triplets[tid := MfPut(triplets[tid], MFEntry(blbId, ACTION_PUT, ""))];
      history := next;
    }

    /** The two additions to `totalBytes` at the end of `Put`. */
    method SettleBytes(
        ghost s: State, ghost acts: seq<Action>, ghost p: nat, ghost tid: string, ghost blbId: string,
        data: seq<byte>, increaseBytes: int)
      requires Going(c, s, View(), acts, p) && Working(p, MfDone, tid, blbId, data)
      requires View().jobs[p].increase == increaseBytes
      modifies this`totalBytes, this`history
      ensures Going(c, s, View(), acts + [Settle(p)] + [Release(p)], p) && Working(p, Returned, tid, blbId, data)
      ensures totalBytes == old(totalBytes) + increaseBytes - MaxAlloc(c, data)
    {
      hide Going, MaxAlloc;
      AdvanceSettle(c, s, View(), acts, p);
      history := DoRelease(c, DoSettle(View(), p), p);
      totalBytes := totalBytes + increaseBytes;
      totalBytes := totalBytes - MaxAlloc(c, data);
    }

    /** A triplet of its own for large data, any open one otherwise. */
    method PlaceBlob(ghost s: State, ghost acts: seq<Action>, ghost p: nat, blbId: string, data: seq<byte>,
                     fresh_: string)
      returns (tid: string, token: string, size: int)
      requires Going(c, s, View(), acts, p) && Working(p, Reserved, "", blbId, data)
      requires GoodId(fresh_) && fresh_ !in View().used && View().jobs[p].increase == 0 && OpenTplt !! View().evicted
      modifies this`triplets, this`LargeObjTplt, this`history
      ensures Going(c, s, View(), acts + [PlaceStep(c, p, data, tid)], p)
      ensures Working(p, Placed, tid, blbId, data) && View().jobs[p].increase == size
      ensures token == PutToken(Payload(c, data) > c.large, tid, blbId)
      ensures if Payload(c, data) > c.large
              then
                && tid == fresh_ && size == 8 && token == "lobj" + "tr_" + tid + "_bb_" + blbId
                && LargeObjTplt == old(LargeObjTplt) + {tid} && triplets == old(triplets)[tid := NewTriplet(true)]
              else
                && tid in OpenTplt && size == 0 && token == "tr_" + tid + "_bb_" + blbId
                && LargeObjTplt == old(LargeObjTplt) && triplets == old(triplets)
    {
      hide Going, Payload, GoodId, NewTriplet;
      ghost var r := View();
      if Payload(c, data) > c.large {
        tid, size := fresh_, OPEN_SIZE;
        AdvancePlace(c, s, r, acts, p, tid);
        triplets := triplets[tid := NewTriplet(true)];
        LargeObjTplt := LargeObjTplt + {tid};
        history := DoPlaceLarge(r, p, tid);
        token := LARGE_PREFIX + GenerateBlobToken(tid, blbId);
      } else {
        GoingOpen(c, s, r, acts, p);
        tid, size :| tid in OpenTplt && size == 0;
        AdvancePlace(c, s, r, acts, p, tid);
        history := DoPlaceSmall(r, p, tid);
        token := GenerateBlobToken(tid, blbId);
      }
    }

    /** The three writes and the two additions to `totalBytes`. */
    method WriteBlob(ghost s: State, ghost acts: seq<Action>, ghost p: nat, tid: string, blbId: string, data: seq<byte>,
                     increaseBytes: int)
      requires Going(c, s, View(), acts, p) && Working(p, Placed, tid, blbId, data)
      requires View().jobs[p].increase == increaseBytes
      modifies this`triplets, this`totalBytes, this`history
      ensures Going(c, s, View(), acts + [Append(p)] + [Index(p)] + [Manifest(p)] + [Settle(p)] + [Release(p)], p)
      ensures Working(p, Returned, tid, blbId, data)
      ensures OnlyAt(old(triplets), triplets, tid) && Filed(c, old(triplets)[tid], triplets[tid], blbId, data)
      ensures var t := old(triplets)[tid];
              totalBytes - old(totalBytes) + MaxAlloc(c, data)
              == increaseBytes + |RecordFor(c, blbId, data)|
                 + (if t.entries == [] then 250 else 252) + (if t.log == [] then 200 else 202)
    {
      hide Going, MaxAlloc, Payload, RecordFor, Filed, OnlyAt;
      ghost var tri0 := triplets;
      var offset, size := BinHeaderPut(s, acts, p, tid, blbId, data);
      ghost var tri1 := triplets;
      var idxBytes := IdxHeaderPut(s, acts + [Append(p)], p, tid, blbId, data, offset, size);
      ghost var tri2 := triplets;
      var mfBytes := MFHeaderPut(s, acts + [Append(p)] + [Index(p)], p, tid, blbId, data);
      FiledSteps(c, tri0, tri1, tri2, triplets, tid, blbId, data);
      SettleBytes(s, acts + [Append(p)] + [Index(p)] + [Manifest(p)], p, tid, blbId, data,
                  increaseBytes + size + idxBytes + mfBytes);
    }

    /** Puts a blob while everybody else stands still. No open triplet is queued for purging, as everywhere but in the
        middle of a swap (`SystemSwap.OutsideWindow`, `SystemEviction.SwapWindowDangles`). The error branches after the
        log append are dead (`SystemResults.PutErrorsAreDead`). */
    method Put(ghost p: nat, ghost fid: string, blbId: string, data: seq<byte>, fresh_: string)
      returns (token: Option<string>, ghost tid: string)
      requires Inv(c, View()) && CanAsk(View(), p, blbId, data) && GoodId(fresh_) && fresh_ !in View().used
      requires fresh_ != blbId
      requires c.maxBytes + OPEN_SIZE * View().unchecked < TWO_63 && Locked(View().jobs) == {}
      requires OpenTplt !! View().evicted
      modifies this
      ensures token == None <==>
                (if c.aligned then 4096 * ((|data| + 3927) / 3928) + 466 else |data| + 602)
                > c.maxBytes - old(totalBytes)
      ensures token == None ==> View() == old(View())
      // one triplet gets the three writes: a fresh large one or one of the open ones
      ensures token.Some? ==>
                && tid in triplets && (forall x :: x in triplets <==> x in old(triplets) || x == tid)
                && (forall x :: x in old(triplets) && x != tid ==> triplets[x] == old(triplets)[x])
                && OpenTplt == old(OpenTplt) && ClosedTplt == old(ClosedTplt) && FDb == old(FDb)
                && (if Payload(c, data) > c.large
                    then
                      && tid == fresh_ && tid !in old(triplets) && token.value == "lobj" + "tr_" + tid + "_bb_" + blbId
                      && LargeObjTplt == old(LargeObjTplt) + {tid}
                      && Filed(c, NewTriplet(true), triplets[tid], blbId, data)
                    else
                      && tid in old(OpenTplt) && tid in old(triplets) && token.value == "tr_" + tid + "_bb_" + blbId
                      && LargeObjTplt == old(LargeObjTplt)
                      && Filed(c, old(triplets)[tid], triplets[tid], blbId, data))
      // what the disk gains, to the byte
      ensures token.Some? ==>
                var t := if tid in old(triplets) then old(triplets)[tid] else NewTriplet(true);
                Disk(triplets) - Disk(old(triplets))
                == |RecordFor(c, blbId, data)| + (if tid in old(triplets) then 0 else 8)
                   + (if t.entries == [] then 250 else 252) + (if t.log == [] then 200 else 202)
      ensures token.Some? ==>
                && Run(c, old(View()), PutSteps(c, p, fid, blbId, data, tid)) == Some(View())
                && Inv(c, View())
                && (CacheSystem.Get(c, View(), token.value) == Data(data) <==> (c.aligned ==> data != []))
                && totalBytes - old(totalBytes) == Disk(triplets) - Disk(old(triplets))
    {
      hide Inv, Going, GoodId, MaxAlloc, Payload, CacheSystem.Get, Run, Locked, PutToken, DoAppend, PlaceStep,
        AfterReserve, PutSteps, RecordFor, NewTriplet, Filed, Disk, OnlyAt;
      ghost var s := View();
      ReservationIs(c, data);
      NotThere(c, s, fresh_);
      var ok := ReserveBytes(p, fid, blbId, data);
      if !ok {
        return None, "";
      }
      ghost var acts := [Check(p, fid, blbId, data), Reserve(p)];
      ReservedGoing(c, s, p, fid, blbId, data);
      var at, tok, increaseBytes := PlaceBlob(s, acts, p, blbId, data, fresh_);
      acts := acts + [PlaceStep(c, p, data, at)];
      ghost var placed := triplets;
      WriteBlob(s, acts, p, at, blbId, data, increaseBytes);
      PlacedThenFiled(c, s.tri, placed, triplets, at, blbId, data);
      acts := acts + [Append(p)] + [Index(p)] + [Manifest(p)] + [Settle(p)] + [Release(p)];
      AllSteps(c, p, fid, blbId, data, at);
      PutDone(c, s, View(), acts, p);
      token, tid := Some(tok), at;
    }

    method Get(token: string) returns (r: GetResult)
      ensures r == CacheSystem.Get(c, View(), token)
    {
      if |token| < 4 {
        return Fatal;
      }
      var large := token[..4] == LARGE_PREFIX;
      var bare := if large then token[4..] else token;
      var tpltId, blbId := GetTripletIdFromToken(bare), GetBlobIdFromToken(bare);
      if tpltId == None || blbId == None {
        return Fatal;
      }
      var id := tpltId.value;
      var found := if large then id in LargeObjTplt else id in OpenTplt || id in ClosedTplt;
      if !found || id !in triplets {
        return NoTriplet;
      }
      if blbId.value !in triplets[id].refs {
        return NoBlob;
      }
      var read := ReadFrom(c, triplets[id], blbId.value, triplets[id].refs[blbId.value].Offset);
      r := if read.Ok? then Data(read.value) else Fatal;
    }

    /** Deletes the files of an evicted triplet. The dictionary that does not hold it is not changed. */
    method PurgeTriplet(tid: string)
      requires Inv(c, View()) && tid in View().evicted && tid !in OpenTplt && View().debts == []
      modifies this
      ensures Run(c, old(View()), [Purge(tid), PayDebt(0)]) == Some(View()) && Inv(c, View())
      ensures triplets == old(triplets) - {tid} && OpenTplt == old(OpenTplt) && tid !in OpenTplt
      ensures ClosedTplt == old(ClosedTplt) - {tid} && LargeObjTplt == old(LargeObjTplt) - {tid} && FDb == old(FDb)
      ensures totalBytes - old(totalBytes) == Disk(triplets) - Disk(old(triplets))
    {
      hide Inv, DiskSize, Disk, Run;
      ghost var s := View();
      PurgeRuns(c, s, tid);
      ClosedTplt := ClosedTplt - {tid};
      LargeObjTplt := LargeObjTplt - {tid};
      var size := DeleteTripletFilesOnDisk(tid);
      totalBytes := totalBytes - size;
      history := DoPayDebt(DoPurge(s, tid), 0);
    }

    // ----- LoopHotSwap -----

    method OpenReplacement(
        ghost s: State, ghost idToClose: seq<string>, ghost newOpens: seq<string>, id: string, fresh_: string)
      requires Swapped(c, s, View()) && View().swap == Swap(Scan, idToClose, newOpens, false)
      requires id in OpenTplt && id !in idToClose && id in triplets && triplets[id].curOff > c.closing
      requires GoodId(fresh_) && fresh_ !in View().used
      modifies this`triplets, this`totalBytes, this`history
      ensures Swapped(c, s, View()) && View().swap == Swap(Scan, idToClose + [id], newOpens + [fresh_], false)
      ensures View().used == old(View()).used + {fresh_}
      ensures fresh_ !in old(triplets) && triplets == old(triplets)[fresh_ := NewTriplet(false)]
    {
      hide Swapped, GoodId, NewTriplet;
      ghost var r := View();
      IdsKnown(c, s, r);
      SwapAdvance(c, s, r, SwapOpen(id, fresh_));
      SwapAdvance(c, s, DoSwapOpen(r, id, fresh_), SwapAccount);
      history := Accounted(DoSwapOpen(r, id, fresh_));
      triplets := triplets[fresh_ := NewTriplet(false)];
      totalBytes := totalBytes + OPEN_SIZE;
    }

    /** Puts the triplet into the closed dictionary, then writes its state character, then takes it from the open
        dictionary. */
    method CloseTriplet(ghost s: State, id: string)
      requires Swapped(c, s, View()) && View().swap.pc == Publish && View().swap.news == []
      requires View().swap.closing != [] && View().swap.closing[0] == id
      modifies this`triplets, this`OpenTplt, this`ClosedTplt, this`history
      ensures Swapped(c, s, View())
      ensures OpenTplt == old(OpenTplt) - {id} && ClosedTplt == old(ClosedTplt) + {id}
      ensures var rest := old(View()).swap.closing[1..];
              View().swap == Swap(if rest == [] then Scan else Publish, rest, [], false)
      ensures triplets.Keys == old(triplets).Keys && id in triplets && triplets[id].idx != ""
      ensures Marked(old(triplets)[id], triplets[id])
      ensures forall x :: x in triplets && x != id ==> triplets[x] == old(triplets)[x]
      ensures View().used == old(View()).used
    {
      hide Swapped, GoodId;
      ghost var r := View();
      CloseRuns(c, s, r);
      history := AfterClose(r);
      ClosedTplt := ClosedTplt + {id};
      triplets := triplets[id := triplets[id].(idx := triplets[id].idx[0 := STATE_CLOSED])];
      OpenTplt := OpenTplt - {id};
    }

    /** Opens a fresh triplet for every open one that is full. */
    method ScanOpen(ghost s: State, ids: seq<string>) returns (idToClose: seq<string>, newOpens: seq<string>)
      requires Swapped(c, s, View()) && View().swap == Swap(Scan, [], [], false)
      requires FreshIds(ids, View().used) && |ids| >= |OpenTplt| && OpenTplt <= triplets.Keys
      modifies this`triplets, this`totalBytes, this`history
      ensures Swapped(c, s, View()) && View().swap == Swap(Scan, idToClose, newOpens, false)
      ensures Elems(idToClose) == Full(c, old(triplets), OpenTplt) && |newOpens| == |idToClose|
      ensures Elems(newOpens) <= Elems(ids)
      ensures forall x :: x in old(triplets) ==> x in triplets && triplets[x] == old(triplets)[x]
      ensures forall x :: x in triplets && x !in old(triplets) ==>
                x in Elems(newOpens) && triplets[x] == NewTriplet(false)
    {
      hide Swapped, GoodId, NewTriplet, Full, Elems, FreshIds, View, Scanned;
      idToClose, newOpens := [], [];
      var left := OpenTplt;
      ghost var tri, used, done: set<string> := triplets, View().used, {};
      ScannedNone(c, tri, used, ids);
      while left != {}
        invariant left !! done && left + done == OpenTplt
        invariant Swapped(c, s, View()) && View().swap == Swap(Scan, idToClose, newOpens, false)
        invariant Scanned(c, tri, used, ids, done, idToClose, newOpens, triplets, View().used)
        decreases |left|
      {
        var id :| id in left;
        ScannedAll(c, tri, used, ids, done, idToClose, newOpens, triplets, View().used);
        if triplets[id].curOff > c.closing {
          var n := |newOpens|;
          ScannedFull(c, tri, used, ids, done, idToClose, newOpens, triplets, View().used, id, OpenTplt,
                      NewTriplet(false));
          OpenReplacement(s, idToClose, newOpens, id, ids[n]);
          idToClose, newOpens := idToClose + [id], newOpens + [ids[n]];
        } else {
          ScannedOther(c, tri, used, ids, done, idToClose, newOpens, triplets, View().used, id);
        }
        left, done := left - {id}, done + {id};
      }
      ScannedAll(c, tri, used, ids, done, idToClose, newOpens, triplets, View().used);
    }

    method PublishAll(ghost s: State, ghost idToClose: seq<string>, newOpens: seq<string>)
      requires Swapped(c, s, View()) && View().swap == Swap(Scan, idToClose, newOpens, false) && idToClose != []
      modifies this`OpenTplt, this`history
      ensures Swapped(c, s, View()) && View().swap == Swap(Publish, idToClose, [], false)
      ensures OpenTplt == old(OpenTplt) + Elems(newOpens)
    {
      hide Swapped;
      SwapAdvance(c, s, View(), SwapScanned);
      history := history.(swap := Swap(Publish, idToClose, newOpens, false));
      var i := 0;
      while i < |newOpens|
        invariant i <= |newOpens|
        invariant Swapped(c, s, View()) && View().swap == Swap(Publish, idToClose, newOpens[i..], false)
        invariant OpenTplt == old(OpenTplt) + Elems(newOpens[..i])
      {
        SwapAdvance(c, s, View(), SwapPublish);
        assert newOpens[i..][1..] == newOpens[i + 1..] && newOpens[..i + 1] == newOpens[..i] + [newOpens[i]];
        OpenTplt := OpenTplt + {newOpens[i]};
        history := history.(swap := Swap(Publish, idToClose, newOpens[i + 1..], false));
        i := i + 1;
      }
      assert newOpens[..i] == newOpens;
    }

    method CloseAll(ghost s: State, idToClose: seq<string>)
      requires Swapped(c, s, View()) && View().swap == Swap(Publish, idToClose, [], false) && idToClose != []
      modifies this`triplets, this`OpenTplt, this`ClosedTplt, this`history
      ensures Swapped(c, s, View()) && View().swap == Swap(Scan, [], [], false)
      ensures OpenTplt == old(OpenTplt) - Elems(idToClose) && ClosedTplt == old(ClosedTplt) + Elems(idToClose)
      ensures triplets.Keys == old(triplets).Keys
      ensures forall x :: x in triplets ==>
                if x in Elems(idToClose) then Marked(old(triplets)[x], triplets[x]) else triplets[x] == old(triplets)[x]
    {
      hide Swapped, Marked, Elems;
      ElemsEmpty();
      var i := 0;
      while i < |idToClose|
        invariant i <= |idToClose| && Swapped(c, s, View())
        invariant View().swap == Swap(if i == |idToClose| then Scan else Publish, idToClose[i..], [], false)
        invariant OpenTplt == old(OpenTplt) - Elems(idToClose[..i])
        invariant ClosedTplt == old(ClosedTplt) + Elems(idToClose[..i])
        invariant triplets.Keys == old(triplets).Keys
        invariant forall x :: x in triplets ==>
                    if x in Elems(idToClose[..i]) then Marked(old(triplets)[x], triplets[x])
                    else triplets[x] == old(triplets)[x]
      {
        assert idToClose[i..][1..] == idToClose[i + 1..] && idToClose[..i + 1] == idToClose[..i] + [idToClose[i]];
        ElemsSnoc(idToClose[..i], idToClose[i]);
        ghost var was := triplets;
        CloseTriplet(s, idToClose[i]);
        MarkedTwice(old(triplets), was, triplets, idToClose[i]);
        i := i + 1;
      }
      assert idToClose[..i] == idToClose;
    }

    /** Scan, publish, close. */
    method SwapRound(ghost s: State, ids: seq<string>) returns (ghost news: set<string>)
      requires Swapped(c, s, View()) && View().swap == Swap(Scan, [], [], false)
      requires FreshIds(ids, View().used) && |ids| >= |OpenTplt| && OpenTplt <= triplets.Keys
      modifies this`triplets, this`OpenTplt, this`ClosedTplt, this`totalBytes, this`history
      ensures Swapped(c, s, View()) && View().swap == Swap(Scan, [], [], false) && news <= Elems(ids)
      ensures OpenTplt == old(OpenTplt) + news - Full(c, old(triplets), old(OpenTplt))
      ensures ClosedTplt == old(ClosedTplt) + Full(c, old(triplets), old(OpenTplt))
      ensures forall x :: x in old(triplets) ==>
                && x in triplets
                && if x in Full(c, old(triplets), old(OpenTplt)) then Marked(old(triplets)[x], triplets[x])
                   else triplets[x] == old(triplets)[x]
      ensures forall x :: x in triplets && x !in old(triplets) ==> x in news && triplets[x] == NewTriplet(false)
    {
      hide Swapped, GoodId, Full, Elems, FreshIds, NewTriplet, Marked;
      FullThere(c, triplets, OpenTplt);
      var idToClose, newOpens := ScanOpen(s, ids);
      news := Elems(newOpens);
      ElemsNone(idToClose, newOpens);
      if idToClose != [] {
        PublishAll(s, idToClose, newOpens);
        CloseAll(s, idToClose);
      }
    }

    /** One round of the loop: every full triplet moves from the open to the closed dictionary, and as many fresh ones
        take its place. */
    method HotSwap(ids: seq<string>)
      requires Inv(c, View()) && View().swap == Swap(Scan, [], [], false)
      requires FreshIds(ids, View().used) && |ids| >= |OpenTplt|
      modifies this
      ensures Inv(c, View()) && View().swap == Swap(Scan, [], [], false)
      // what has outgrown the threshold goes from the open to the closed dictionary
      ensures old(OpenTplt) <= old(triplets).Keys
      ensures forall x :: x in ClosedTplt <==>
                x in old(ClosedTplt) || (x in old(OpenTplt) && old(triplets)[x].curOff > c.closing)
      ensures forall x :: x in old(OpenTplt) ==> (x in OpenTplt <==> old(triplets)[x].curOff <= c.closing)
      // and is marked in its file; no other triplet changes, and the new ones are empty and open
      ensures forall x :: x in old(triplets) ==>
                && x in triplets
                && if x in old(OpenTplt) && old(triplets)[x].curOff > c.closing
                   then Marked(old(triplets)[x], triplets[x]) else triplets[x] == old(triplets)[x]
      ensures forall x :: x in triplets && x !in old(triplets) ==> triplets[x] == NewTriplet(false) && x in OpenTplt
      ensures |OpenTplt| == |old(OpenTplt)|
      ensures totalBytes - old(totalBytes) == Disk(triplets) - Disk(old(triplets))
      ensures LargeObjTplt == old(LargeObjTplt) && FDb == old(FDb)
    {
      hide Inv, Swapped, GoodId, Full, Disk, Elems, FreshIds, SystemSwap.OpenCount, NewTriplet, Marked;
      ghost var s := View();
      OpenKnown(c, s);
      FullIs(c, triplets, OpenTplt);
      FullOpen(c, triplets, OpenTplt);
      FreshElems(ids, s.used);
      ghost var news := SwapRound(s, ids);
      Exchange(s.open, Elems(ids), news, Full(c, s.tri, s.open));
      SwapDone(c, s, View());
    }
  }
}
