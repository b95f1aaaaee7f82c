/** Start-up on any files and rows: which triplets there are afterwards, where they are listed, and when the total is
    what is on disk. */
module SystemStart {
  import opened Bytes
  import opened BlobIndex
  import opened BlobManifest
  import opened CacheSystem
  import opened SystemBudget
  import opened SystemShape
  import opened SystemRuns
  import MapSum
  import Json
  import AppendArray
  import SystemStore
  import SystemSwap
  import SystemRows

  predicate Known(state: char) {
    state == STATE_OPEN || state == STATE_CLOSED || state == STATE_LARGE
  }

  /** Every triplet that a row owns loads, with a state that `New` knows. */
  predicate Startable(s: State) {
    && AllReload(s)
    && forall tid :: tid in Kept(s) ==> Known(Reload(s.tri[tid]).value.state)
  }

  /** Every triplet is in the dictionary that the state character of its file names, and in no other. */
  predicate SortedByFile(s: State) {
    forall tid :: tid in s.tri ==>
      && s.tri[tid].idx != ""
      && (tid in s.open <==> s.tri[tid].idx[0] == STATE_OPEN)
      && (tid in s.closed <==> s.tri[tid].idx[0] == STATE_CLOSED)
      && (tid in s.large <==> s.tri[tid].idx[0] == STATE_LARGE)
  }

  /** Loading takes the state from the file and changes no file. */
  lemma ReloadState(t: Triplet)
    requires Reload(t).Some?
    ensures var r := Reload(t).value; r.idx == t.idx != "" && r.state == t.idx[0] && DiskSize(r) == DiskSize(t)
  {
    hide Json.Parse, DecodeAll, DecodeActions;
  }

  // ----- which triplets, and where -----

  lemma RebootKeys(s: State)
    requires AllReload(s)
    ensures Rebooted(s).tri == Reloaded(s) + Recreated(s)
    ensures Reloaded(s).Keys !! Recreated(s).Keys && Rebooted(s).tri.Keys == Owners(s.rows)
  {
    hide Reload, NewTriplet, Owners, InState, ReadyRows;
  }

  lemma RebootSorted(s: State)
    requires AllReload(s)
    ensures SortedByFile(Rebooted(s))
  {
    hide Reload, NewTriplet, Owners, ReadyRows;
    RebootKeys(s);
    NewTripletOk(false);
    NewState();
    forall tid | tid in Rebooted(s).tri
      ensures Rebooted(s).tri[tid].idx != "" && Rebooted(s).tri[tid].state == Rebooted(s).tri[tid].idx[0]
    {
      if tid in Kept(s) {
        ReloadState(s.tri[tid]);
      }
    }
  }

  lemma NewState()
    ensures NewTriplet(false).idx != "" && NewTriplet(false).state == NewTriplet(false).idx[0] == STATE_OPEN
  {
  }

  lemma OpenFirstSorted(s: State, fresh_: string)
    requires SortedByFile(s) && fresh_ !in s.tri && s.closed <= s.tri.Keys && s.large <= s.tri.Keys
    ensures SortedByFile(OpenFirst(s, fresh_))
  {
    hide NewTriplet;
    NewState();
  }

  lemma SortedLiterally(s: State)
    ensures SortedByFile(s) ==>
              forall tid :: tid in s.tri ==>
                && s.tri[tid].idx != ""
                && (tid in s.open <==> s.tri[tid].idx[0] == '2')
                && (tid in s.closed <==> s.tri[tid].idx[0] == '3')
                && (tid in s.large <==> s.tri[tid].idx[0] == '4')
  {
  }

  // ----- the total -----

  lemma DiskJoin(a: map<string, Triplet>, b: map<string, Triplet>)
    requires a.Keys !! b.Keys
    ensures Disk(a + b) == Disk(a) + Disk(b)
  {
    hide DiskSize;
    var m := Sizes(a + b);
    MapSum.SumSplit(m, a.Keys);
    assert (map k | k in m && k in a.Keys :: m[k]) == Sizes(a);
    assert m - a.Keys == Sizes(b);
  }

  /** Recreated triplets have files but no share in the total. */
  lemma RecreatedDisk(s: State)
    ensures Disk(Recreated(s)) == 0 <==> Owners(s.rows) <= s.tri.Keys
  {
    hide NewTriplet, Owners;
    NewTripletOk(false);
    var m := Sizes(Recreated(s));
    if Owners(s.rows) <= s.tri.Keys {
      assert m == map[];
    } else {
      var tid :| tid in Owners(s.rows) && tid !in s.tri;
      assert tid in m && m[tid] == OPEN_SIZE;
      MapSum.SumRemove(m, tid);
      MapSum.SumNonNegative(m - {tid});
    }
  }

  lemma StartTotal(s: State, fresh_: string)
    requires AllReload(s) && fresh_ !in Owners(s.rows)
    ensures DoRestart(s, fresh_).total == Disk(DoRestart(s, fresh_).tri) <==> Owners(s.rows) <= s.tri.Keys
  {
    hide Reload, NewTriplet, Owners, InState, ReadyRows, Disk;
    RebootKeys(s);
    DiskJoin(Reloaded(s), Recreated(s));
    RecreatedDisk(s);
    NewTripletOk(false);
    DiskUpdate(Rebooted(s).tri, fresh_, NewTriplet(false));
  }

  // ----- the rows, and what the others were doing -----

  /** A start deletes exactly the pending rows. */
  lemma StartRows(s: State, fresh_: string)
    requires AllReload(s)
    ensures var r := DoRestart(s, fresh_);
            && (forall f :: f in r.rows <==> f in s.rows && s.rows[f].ready)
            && (forall f :: f in r.rows ==> r.rows[f] == s.rows[f])
            && r.jobs == map[] && r.readers == map[] && r.debts == [] && r.evicted == {}
            && r.swap == Swap(Scan, [], [], false)
  {
    hide Reloaded, Recreated, InState, NewTriplet;
  }

  /** The triplets are those that a ready row names, files untouched, and the fresh one when it is the only open one. */
  lemma StartTriplets(s: State, fresh_: string)
    requires AllReload(s)
    ensures var r := DoRestart(s, fresh_);
            && (forall f :: f in r.rows ==> r.rows[f].owners in r.tri)
            && (forall tid :: tid in r.tri ==>
                  (exists f :: f in r.rows && r.rows[f].owners == tid) || (tid == fresh_ && r.open == {fresh_}))
            && (forall tid :: tid in r.tri && tid in s.tri && tid != fresh_ ==>
                  r.tri[tid].bin == s.tri[tid].bin && r.tri[tid].idx == s.tri[tid].idx
                  && r.tri[tid].mf == s.tri[tid].mf)
            && r.open != {}
  {
    hide Reload, NewTriplet, InState;
    RebootKeys(s);
    var b, r := Rebooted(s), DoRestart(s, fresh_);
    forall tid | tid in Kept(s)
      ensures b.tri[tid].bin == s.tri[tid].bin && b.tri[tid].idx == s.tri[tid].idx && b.tri[tid].mf == s.tri[tid].mf
    {
      ReloadFiles(s.tri[tid]);
    }
    forall tid | tid in Owners(s.rows)
      ensures exists f :: f in r.rows && r.rows[f].owners == tid
    {
      var f :| f in s.rows && s.rows[f].ready && s.rows[f].owners == tid;
      assert f in r.rows;
    }
  }

  lemma ReloadFiles(t: Triplet)
    requires Reload(t).Some?
    ensures Reload(t).value.bin == t.bin && Reload(t).value.idx == t.idx && Reload(t).value.mf == t.mf
  {
    hide LoadIndex, LoadManifest;
  }

  /** A start succeeds exactly when the index and the manifest of every triplet that a ready row names can be read and
      the state character is one of the three. */
  lemma StartsExactly(s: State)
    ensures Startable(s) <==>
            forall f :: f in s.rows && s.rows[f].ready && s.rows[f].owners in s.tri ==>
              Loads(s.tri[s.rows[f].owners])
  {
    hide LoadIndex, LoadManifest;
    forall f | f in s.rows && s.rows[f].ready && s.rows[f].owners in s.tri
      ensures s.rows[f].owners in Kept(s)
    {
    }
  }

  /** An index append that a crash cut in the middle stops every later start, when a ready row names the triplet. */
  lemma TornIndexStops(s: State, f: string, state: char, es: seq<IndexEntry>, e: IndexEntry, k: nat)
    requires f in s.rows && s.rows[f].ready && s.rows[f].owners in s.tri
    requires AllPrintable(es) && Printable(e) && Json.NoEnd(e.BlobId) && Json.NoEnd(e.Checksum) && Json.NoEnd(e.Fid)
    requires 1 <= k < |IndexFile(state, es + [e])| - |IndexFile(state, es)| + 1
    requires s.tri[s.rows[f].owners].idx
          == AppendArray.TornAppend(IndexFile(state, es), Serialize(Padded(e)), es == [], k)
    ensures !Startable(s)
  {
    hide Startable, IndexFile, Serialize, Padded, AppendArray.TornAppend, LoadIndex, LoadManifest;
    TornIndexIsLost(state, es, e, k);
    StartsExactly(s);
  }

  predicate Loads(t: Triplet) {
    && LoadIndex(t.idx).Some? && LoadManifest(t.mf).Some?
    && LoadIndex(t.idx).value.0 in {'2', '3', '4'}
  }

  /** On any files and rows that load, the triplets after a start are the owners of ready rows plus a fresh one when
      none of them was open, each in the dictionary that its file names. The total is what is on disk exactly when no
      owner was without files. */
  lemma StartReconciles(s: State, fresh_: string)
    requires AllReload(s) && fresh_ !in Owners(s.rows)
    ensures var r := DoRestart(s, fresh_);
            && r.tri.Keys == Owners(s.rows) + (if Rebooted(s).open == {} then {fresh_} else {})
            && (forall tid :: tid in r.tri ==>
                  && r.tri[tid].idx != ""
                  && (tid in r.open <==> r.tri[tid].idx[0] == '2')
                  && (tid in r.closed <==> r.tri[tid].idx[0] == '3')
                  && (tid in r.large <==> r.tri[tid].idx[0] == '4'))
            && SortedByFile(r)
            && (r.total == Disk(r.tri) <==> Owners(s.rows) <= s.tri.Keys)
  {
    SortedLiterally(DoRestart(s, fresh_));
    hide Reload, NewTriplet, Owners, ReadyRows, Disk, SortedByFile;
    RebootKeys(s);
    RebootSorted(s);
    OpenFirstSorted(Rebooted(s), fresh_);
    StartTotal(s, fresh_);
  }

  /** In every state that the machine keeps, start-up succeeds and no owner is without files. */
  lemma CrashStarts(c: Config, s: State)
    requires Inv(c, s)
    ensures Startable(s) && Recreated(s) == map[] && Owners(s.rows) <= s.tri.Keys
  {
    hide Inv, Reload, Owners, Known;
    RestartNeverFails(c, s);
    InvParts(c, s);
    StatesKnown(c, s);
  }

  lemma StatesKnown(c: Config, s: State)
    requires Inv(c, s) && AllReload(s)
    ensures forall tid :: tid in Kept(s) ==> Known(Reload(s.tri[tid]).value.state)
  {
    hide Budget, SystemStore.Store, SystemSwap.Served, SystemRows.NoDangling, SystemSwap.OpenCount, Dicts, Jobs,
      Swapping,
      TripletOk, Reload, GoodId, Owners;
    Reloads(s);
    forall tid | tid in Kept(s)
      ensures Known(Reload(s.tri[tid]).value.state)
    {
      StateKnown(Reload(s.tri[tid]).value, false);
    }
  }
}
