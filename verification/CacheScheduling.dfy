/** Scheduling: the queue of files to download, the one batch in flight, and the queue of triplets to purge. */
module CacheScheduling {
  import opened Bytes
  import opened CacheSystem

  /** `F_num_batch_write` and `F_cache_purge_waiting_ms`. */
  const BATCH := 5
  const PURGE_WAIT := 500

  /** A file name and its fid. */
  type Request = (string, string)

  /** `items` and `queue` are the fields of the manager, `running` the batch whose workers have not finished.
      History: what was accepted and what was started, in order. */
  datatype Downloads = Downloads(
    items: map<string, string>, queue: seq<string>, running: seq<Request>,
    accepted: seq<Request>, started: seq<Request>)

  datatype Event = Enqueue(fid: string, name: string) | Fetch | Finish(i: nat)

  // ----- requests in the queue -----

  /** The queued names with their fids. */
  function Pending(queue: seq<string>, items: map<string, string>): (rs: seq<Request>)
    requires forall n :: n in queue ==> n in items
    ensures |rs| == |queue|
  {
    if queue == [] then [] else [(queue[0], items[queue[0]])] + Pending(queue[1..], items)
  }

  lemma {:induction false} PendingAt(queue: seq<string>, items: map<string, string>, i: nat)
    requires (forall n :: n in queue ==> n in items) && i < |queue|
    ensures Pending(queue, items)[i] == (queue[i], items[queue[i]])
  {
    if i > 0 {
      PendingAt(queue[1..], items, i - 1);
    }
  }

  lemma {:induction false} PendingFrame(queue: seq<string>, items: map<string, string>, more: map<string, string>)
    requires forall n :: n in queue ==> n in items && n in more && items[n] == more[n]
    ensures Pending(queue, items) == Pending(queue, more)
  {
    if queue != [] {
      PendingFrame(queue[1..], items, more);
    }
  }

  lemma {:induction false} PendingJoins(a: seq<string>, b: seq<string>, items: map<string, string>)
    requires forall n :: n in a + b ==> n in items
    ensures (forall n :: n in a ==> n in items) && (forall n :: n in b ==> n in items)
    ensures Pending(a + b, items) == Pending(a, items) + Pending(b, items)
  {
    assert forall n :: n in a || n in b ==> n in a + b;
    if a == [] {
      assert a + b == b;
    } else {
      assert (a + b)[1..] == a[1..] + b;
      PendingJoins(a[1..], b, items);
    }
  }

  // ----- steps -----

  function FetchCount(d: Downloads): nat {
    if |d.queue| < BATCH then |d.queue| else BATCH
  }

  function Removed(items: map<string, string>, names: seq<string>): map<string, string> {
    map n | n in items && n !in names :: items[n]
  }

  predicate Wired(d: Downloads) {
    forall n :: n in d.queue ==> n in d.items
  }

  /** A name that is queued already is not accepted again; one that is being downloaded is. */
  function DoEnqueue(d: Downloads, fid: string, name: string): Downloads {
    if name in d.items then d
    else d.(items := d.items[name := fid], queue := d.queue + [name], accepted := d.accepted + [(name, fid)])
  }

  /** The loop fetches only when the workers of the batch before have all finished. */
  function DoFetch(d: Downloads): Downloads
    requires Wired(d)
  {
    var k := FetchCount(d);
    var batch := Pending(d.queue, d.items)[..k];
    d.(items := Removed(d.items, d.queue[..k]), queue := d.queue[k..], running := batch, started := d.started + batch)
  }

  function DoFinish(d: Downloads, i: nat): Downloads
    requires i < |d.running|
  {
    d.(running := d.running[..i] + d.running[i + 1..])
  }

  function StepDownloads(d: Downloads, e: Event): Option<Downloads> {
    match e
    case Enqueue(fid, name) => Some(DoEnqueue(d, fid, name))
    case Fetch => if d.running == [] && d.queue != [] && Wired(d) then Some(DoFetch(d)) else None
    case Finish(i) => if i < |d.running| then Some(DoFinish(d, i)) else None
  }

  function RunDownloads(d: Downloads, es: seq<Event>): Option<Downloads> {
    if es == [] then Some(d)
    else
      match RunDownloads(d, es[..|es| - 1])
      case None => None
      case Some(r) => StepDownloads(r, es[|es| - 1])
  }

  const EMPTY := Downloads(map[], [], [], [], [])

  // ----- what every run keeps -----

  predicate DistinctNames(names: seq<string>) {
    forall i, j :: 0 <= i < j < |names| ==> names[i] != names[j]
  }

  predicate DistinctFiles(rs: seq<Request>) {
    forall i, j :: 0 <= i < j < |rs| ==> rs[i].0 != rs[j].0
  }

  predicate SameKeys(d: Downloads) {
    Wired(d) && forall n :: n in d.items ==> n in d.queue
  }

  predicate QueueOk(d: Downloads) {
    && DistinctNames(d.queue) && SameKeys(d)
    && DistinctFiles(d.running) && |d.running| <= BATCH
  }

  /** What was accepted is what was started and then what is queued, in order and with the same fids. */
  predicate InOrder(d: Downloads)
    requires Wired(d)
  {
    d.accepted == d.started + Pending(d.queue, d.items)
  }

  predicate DownloadsOk(d: Downloads) {
    QueueOk(d) && InOrder(d)
  }

  lemma EnqueueOk(d: Downloads, fid: string, name: string)
    requires DownloadsOk(d)
    ensures DownloadsOk(DoEnqueue(d, fid, name))
  {
    var r := DoEnqueue(d, fid, name);
    if name !in d.items {
      assert name !in d.queue;
      PendingJoins(d.queue, [name], r.items);
      PendingFrame(d.queue, d.items, r.items);
      assert Pending([name], r.items) == [(name, fid)];
      ConcatAssociates(d.started, Pending(d.queue, d.items), [(name, fid)]);
    }
  }

  /** Cutting a duplicate-free queue: the two parts share no name. */
  lemma CutKeys(d: Downloads, k: nat)
    requires DistinctNames(d.queue) && SameKeys(d) && k <= |d.queue|
    ensures DistinctNames(d.queue[k..])
    ensures forall n :: n in Removed(d.items, d.queue[..k]) <==> n in d.queue[k..]
  {
    assert d.queue == d.queue[..k] + d.queue[k..];
  }

  lemma BatchNames(d: Downloads, k: nat)
    requires DistinctNames(d.queue) && Wired(d) && k <= |d.queue|
    ensures DistinctFiles(Pending(d.queue, d.items)[..k])
  {
    forall i, j | 0 <= i < j < k
      ensures Pending(d.queue, d.items)[i].0 != Pending(d.queue, d.items)[j].0
    {
      PendingAt(d.queue, d.items, i);
      PendingAt(d.queue, d.items, j);
    }
  }

  lemma PendingCut(d: Downloads, k: nat)
    requires Wired(d) && k <= |d.queue|
    ensures (forall n :: n in d.queue[..k] ==> n in d.items) && (forall n :: n in d.queue[k..] ==> n in d.items)
    ensures Pending(d.queue, d.items) == Pending(d.queue[..k], d.items) + Pending(d.queue[k..], d.items)
  {
    assert d.queue[..k] + d.queue[k..] == d.queue;
    PendingJoins(d.queue[..k], d.queue[k..], d.items);
  }

  lemma FetchInOrder(d: Downloads)
    requires DownloadsOk(d) && Wired(DoFetch(d))
    ensures InOrder(DoFetch(d))
  {
    hide DistinctNames;
    var k, r := FetchCount(d), DoFetch(d);
    var a, b := Pending(d.queue[..k], d.items), Pending(d.queue[k..], d.items);
    PendingCut(d, k);
    PendingFrame(d.queue[k..], d.items, r.items);
    assert (a + b)[..k] == a;
    ConcatAssociates(d.started, a, b);
  }

  lemma FetchOk(d: Downloads)
    requires DownloadsOk(d)
    ensures DownloadsOk(DoFetch(d))
  {
    hide Pending, InOrder;
    CutKeys(d, FetchCount(d));
    BatchNames(d, FetchCount(d));
    FetchInOrder(d);
  }

  lemma {:induction false} DownloadsRun(es: seq<Event>)
    requires RunDownloads(EMPTY, es).Some?
    ensures DownloadsOk(RunDownloads(EMPTY, es).value)
  {
    hide DownloadsOk, DoEnqueue, DoFetch;
    if es == [] {
      NothingQueued();
    } else {
      var n := |es| - 1;
      DownloadsRun(es[..n]);
      var d := RunDownloads(EMPTY, es[..n]).value;
      match es[n]
      case Enqueue(fid, name) => EnqueueOk(d, fid, name);
      case Fetch => FetchOk(d);
      case Finish(i) => FinishOk(d, i);
    }
  }

  lemma NothingQueued()
    ensures DownloadsOk(EMPTY)
  {
  }

  lemma FinishOk(d: Downloads, i: nat)
    requires DownloadsOk(d) && i < |d.running|
    ensures DownloadsOk(DoFinish(d, i))
  {
    var r := DoFinish(d, i);
    forall a, b | 0 <= a < b < |r.running|
      ensures r.running[a].0 != r.running[b].0
    {
      var x, y := if a < i then a else a + 1, if b < i then b else b + 1;
      assert r.running[a] == d.running[x] && r.running[b] == d.running[y];
    }
  }

  /** A batch starts exactly when the workers of the one before have all finished and some name waits. */
  lemma FetchWhenIdle(es: seq<Event>)
    requires RunDownloads(EMPTY, es).Some?
    ensures var d := RunDownloads(EMPTY, es).value;
            StepDownloads(d, Fetch).Some? <==> d.running == [] && d.queue != []
  {
    hide RunDownloads;
    DownloadsRun(es);
  }

  /** Single flight: whatever is enqueued again while it is being downloaded, no two workers have the same file. */
  lemma SingleFlight(es: seq<Event>, i: nat, j: nat)
    requires RunDownloads(EMPTY, es).Some?
    requires i < |RunDownloads(EMPTY, es).value.running| && j < |RunDownloads(EMPTY, es).value.running| && i != j
    ensures var d := RunDownloads(EMPTY, es).value;
            d.running[i].0 != d.running[j].0 && |d.running| <= BATCH
  {
    DownloadsRun(es);
  }

  /** First in, first out: files start in the order in which they were accepted, each once, with their fids. */
  lemma StartsInOrder(es: seq<Event>)
    requires RunDownloads(EMPTY, es).Some?
    ensures var d := RunDownloads(EMPTY, es).value;
            && d.started <= d.accepted && |d.accepted| == |d.started| + |d.queue|
            && forall i :: 0 <= i < |d.queue| ==> d.accepted[|d.started| + i].0 == d.queue[i]
  {
    DownloadsRun(es);
    var d := RunDownloads(EMPTY, es).value;
    forall i | 0 <= i < |d.queue|
      ensures d.accepted[|d.started| + i].0 == d.queue[i]
    {
      PendingAt(d.queue, d.items, i);
    }
  }

  // ----- nobody waits for ever -----

  function Fetches(es: seq<Event>): nat {
    if es == [] then 0 else Fetches(es[..|es| - 1]) + if es[|es| - 1].Fetch? then 1 else 0
  }

  /** Every fetch starts five requests, or all there are. */
  lemma FetchStarts(d: Downloads)
    requires DownloadsOk(d)
    ensures var r, n := DoFetch(d), |d.started| + |d.queue|;
            |r.started| == (if n < |d.started| + 5 then n else |d.started| + 5) && r.accepted == d.accepted
  {
  }

  /** So n fetches start 5n of them, no more, and no fewer unless that is all that was accepted. */
  lemma {:induction false} RunStarts(d: Downloads, more: seq<Event>)
    requires DownloadsOk(d) && RunDownloads(d, more).Some?
    ensures var r, n := RunDownloads(d, more).value, |d.started| + 5 * Fetches(more);
            && DownloadsOk(r) && d.accepted <= r.accepted && d.started <= r.started
            && |r.started| <= n && (|r.started| >= n || |r.started| >= |d.accepted|)
    decreases |more|
  {
    hide InOrder, QueueOk, DoFetch, DoEnqueue;
    if more != [] {
      var k := |more| - 1;
      RunStarts(d, more[..k]);
      var q := RunDownloads(d, more[..k]).value;
      match more[k]
      case Enqueue(fid, name) =>
        EnqueueOk(q, fid, name);
        EnqueueAccepts(q, fid, name);
      case Fetch =>
        FetchOk(q);
        FetchStarts(q);
        StartedThenQueued(q);
        FetchExtends(q);
      case Finish(i) => FinishOk(q, i);
    }
  }

  lemma EnqueueAccepts(d: Downloads, fid: string, name: string)
    ensures var r := DoEnqueue(d, fid, name); d.accepted <= r.accepted && r.started == d.started
  {
  }

  lemma FetchExtends(d: Downloads)
    requires Wired(d)
    ensures d.started <= DoFetch(d).started
  {
  }

  lemma StartedThenQueued(d: Downloads)
    requires DownloadsOk(d)
    ensures |d.accepted| == |d.started| + |d.queue|
  {
  }

  /** Whatever happens besides, the request at position `i` of the queue is started, with the fid it was enqueued with,
      exactly when more than `i / 5` fetches have followed. */
  lemma StartedInTime(es: seq<Event>, more: seq<Event>, i: nat)
    requires RunDownloads(EMPTY, es).Some? && i < |RunDownloads(EMPTY, es).value.queue|
    requires RunDownloads(RunDownloads(EMPTY, es).value, more).Some?
    ensures var d := RunDownloads(EMPTY, es).value;
            var r, at := RunDownloads(d, more).value, |d.started| + i;
            && (at < |r.started| <==> Fetches(more) > i / 5)
            && (at < |r.started| ==> d.queue[i] in d.items && r.started[at] == (d.queue[i], d.items[d.queue[i]]))
  {
    hide RunDownloads, Fetches;
    DownloadsRun(es);
    var d := RunDownloads(EMPTY, es).value;
    RunStarts(d, more);
    var r := RunDownloads(d, more).value;
    PendingAt(d.queue, d.items, i);
    assert d.queue[i] in d.queue;
    StartedThenQueued(d);
    assert d.accepted[|d.started| + i] == Pending(d.queue, d.items)[i];
    AcceptedFirst(r);
  }

  lemma AcceptedFirst(d: Downloads)
    requires DownloadsOk(d)
    ensures d.started <= d.accepted
  {
  }

  // ----- garbage collection -----

  /** `purgeItemMap` has no entry for a triplet purged before, and the zero time is long ago. */
  predicate Due(since: map<string, int>, now: int, id: string) {
    id in since ==> now - since[id] >= PURGE_WAIT
  }

  function DueOnes(queue: seq<string>, since: map<string, int>, now: int): seq<string> {
    if queue == [] then []
    else
      var n := |queue| - 1;
      DueOnes(queue[..n], since, now) + if Due(since, now, queue[n]) then [queue[n]] else []
  }

  lemma {:induction false} DueAreQueued(queue: seq<string>, since: map<string, int>, now: int, id: string)
    ensures id in DueOnes(queue, since, now) <==> id in queue && Due(since, now, id)
  {
    if queue != [] {
      var n := |queue| - 1;
      DueAreQueued(queue[..n], since, now, id);
      assert queue == queue[..n] + [queue[n]];
    }
  }

  /** What a pass purges; it does nothing while no triplet waits. */
  function Purges(queue: seq<string>, since: map<string, int>, now: int): seq<string> {
    if since == map[] then [] else DueOnes(queue, since, now)
  }

  /** A pass purges an id exactly when some triplet waits, the id is queued, and its wait of half a second is over or
      it waits no more. */
  lemma PurgedExactly(queue: seq<string>, since: map<string, int>, now: int, id: string)
    ensures id in Purges(queue, since, now)
            <==> since != map[] && id in queue && (id in since ==> now - since[id] >= 500)
  {
    DueAreQueued(queue, since, now, id);
  }

  /** The entries that a pass leaves. */
  function StillWaiting(queue: seq<string>, since: map<string, int>, now: int): map<string, int> {
    map id | id in since && (id !in queue || !Due(since, now, id)) :: since[id]
  }

  /** A triplet stays in the queue for good and loses its time when it is purged. A later pass, over a queue that has
      grown and times that do not name it, purges it again exactly when any triplet waits then. */
  lemma PurgedAgain(
      queue: seq<string>, since: map<string, int>, now: int, queue': seq<string>, since': map<string, int>, later: int,
      id: string)
    requires id in Purges(queue, since, now) && queue <= queue' && id !in since'
    ensures id !in StillWaiting(queue, since, now)
    ensures id in Purges(queue', since', later) <==> since' != map[]
  {
    PurgedExactly(queue, since, now, id);
    PurgedExactly(queue', since', later, id);
    assert forall i :: 0 <= i < |queue| ==> queue[i] == queue'[i];
  }

  /** Purging again changes nothing: there is nothing left to delete and zero is subtracted from the total. */
  lemma RepeatedPurgeIsNothing(s: State, tid: string)
    requires s.debts == [] && tid !in s.open && forall k :: k in s.blobs ==> k.0 in s.tri
    ensures var once := DoPayDebt(DoPurge(s, tid), 0);
            DoPayDebt(DoPurge(once, tid), 0) == once
  {
    hide DiskSize;
    var once := DoPayDebt(DoPurge(s, tid), 0);
    var twice := DoPurge(once, tid);
    assert twice.tri == once.tri && twice.closed == once.closed && twice.large == once.large;
    assert twice.blobs == once.blobs;
    assert twice.debts == [0] && twice.debts[..0] + twice.debts[1..] == [];
  }

  // ----- the manager -----

  class CacheManager {
    var writeItemMap: map<string, string>
    var wQueue: seq<string>
    var purgeItemMap: map<string, int>
    var pQueue: seq<string>
    var dbOpsFile: map<string, Row>
    /** The workers of the batch in flight, and what was accepted and started before. */
    var running: seq<Request>
    ghost var accepted: seq<Request>
    ghost var started: seq<Request>

    ghost function View(): Downloads
      reads this
    {
      Downloads(writeItemMap, wQueue, running, accepted, started)
    }

    ghost predicate Valid()
      reads this
    {
      DownloadsOk(View()) && forall id :: id in purgeItemMap ==> id in pQueue
    }

    constructor New()
      ensures Valid() && View() == EMPTY && pQueue == []
    {
      writeItemMap, wQueue, purgeItemMap, pQueue, dbOpsFile := map[], [], map[], [], map[];
      running, accepted, started := [], [], [];
      new;
      NothingQueued();
    }

    method EnqueueWriteReq(fid: string, fileName: string)
      requires Valid()
      modifies this`writeItemMap, this`wQueue, this`accepted
      ensures Valid() && View() == DoEnqueue(old(View()), fid, fileName)
      ensures fileName in old(writeItemMap) ==> writeItemMap == old(writeItemMap) && wQueue == old(wQueue)
      ensures fileName !in old(writeItemMap) ==>
                writeItemMap == old(writeItemMap)[fileName := fid] && wQueue == old(wQueue) + [fileName]
    {
      EnqueueOk(View(), fid, fileName);
      if fileName in writeItemMap {
        return;
      }
      writeItemMap := writeItemMap[fileName := fid];
      wQueue := wQueue + [fileName];
      accepted := accepted + [(fileName, fid)];
    }

    /** One fetch of `loopBatchWrite`, which starts a worker for every name it takes. */
    method FetchBatch()
      requires Valid() && running == []
      modifies this`writeItemMap, this`wQueue, this`running, this`started
      ensures Valid()
      ensures View() == if old(wQueue) == [] then old(View()) else DoFetch(old(View()))
      // the first five names, or all there are, leave the queue and the map and start with the fids found there
      ensures var k, q, m := if |old(wQueue)| < 5 then |old(wQueue)| else 5, old(wQueue), old(writeItemMap);
              && wQueue == q[k..] && |running| == k
              && (forall i :: 0 <= i < k ==> q[i] in m && running[i] == (q[i], m[q[i]]))
              && (forall n :: n in writeItemMap <==> n in m && n !in q[..k])
              && (forall n :: n in writeItemMap ==> writeItemMap[n] == m[n])
    {
      hide DownloadsOk, Taken, DoFetch, Pending, Wired;
      if wQueue == [] {
        return;
      }
      ghost var d := View();
      FetchTakes(d);
      FetchOk(d);
      FetchFacts(d);
      var numToFetch := if BATCH < |wQueue| then BATCH else |wQueue|;
      var namesAtHand := wQueue[..numToFetch];
      wQueue := wQueue[numToFetch..];
      TakeNames(d, namesAtHand);
      started := started + running;
      TakenAll(d, numToFetch, writeItemMap, running);
    }

    /** Takes every name out of the map and starts a worker for it with the fid found there. */
    method TakeNames(ghost d: Downloads, namesAtHand: seq<string>)
      requires DownloadsOk(d) && d.items == writeItemMap && d.running == running == []
      requires |namesAtHand| <= |d.queue| && namesAtHand == d.queue[..|namesAtHand|]
      modifies this`writeItemMap, this`running
      ensures Wired(d) && Taken(d, |namesAtHand|, |namesAtHand|, writeItemMap, running)
    {
      hide DownloadsOk, Taken, Wired;
      FetchFacts(d);
      TakenNone(d, |namesAtHand|);
      var i := 0;
      while i < |namesAtHand|
        invariant 0 <= i <= |namesAtHand| && Taken(d, |namesAtHand|, i, writeItemMap, running)
      {
        TakeOne(d, |namesAtHand|, i, writeItemMap, running);
        var name := namesAtHand[i];
        running := running + [(name, writeItemMap[name])];
        writeItemMap := writeItemMap - {name};
        i := i + 1;
      }
    }

    /** Takes the tail that `GetTailNameForEvict` has unlinked: its rows go first, then it is queued. */
    method EnqueueDeletionReq(tail: Option<string>, now: int)
      requires Valid()
      modifies this`purgeItemMap, this`pQueue, this`dbOpsFile
      ensures Valid()
      ensures tail == None ==> purgeItemMap == old(purgeItemMap) && pQueue == old(pQueue) && dbOpsFile == old(dbOpsFile)
      ensures tail.Some? ==>
                && pQueue == old(pQueue) + [tail.value] && purgeItemMap == old(purgeItemMap)[tail.value := now]
                && forall f :: f in dbOpsFile <==> f in old(dbOpsFile) && old(dbOpsFile)[f].owners != tail.value
      ensures forall f :: f in dbOpsFile ==> f in old(dbOpsFile) && dbOpsFile[f] == old(dbOpsFile)[f]
    {
      if tail == None {
        return;
      }
      var tpltId := tail.value;
      dbOpsFile := map f | f in dbOpsFile && dbOpsFile[f].owners != tpltId :: dbOpsFile[f];
      purgeItemMap := purgeItemMap[tpltId := now];
      pQueue := pQueue + [tpltId];
    }

    /** One pass of `loopGarbageCollection`: the ids it purges, in the order in which their workers are started. */
    method CollectGarbage(now: int) returns (purged: seq<string>)
      requires Valid()
      modifies this`purgeItemMap
      ensures Valid() && pQueue == old(pQueue)
      ensures purged == Purges(pQueue, old(purgeItemMap), now)
      ensures purgeItemMap == StillWaiting(pQueue, old(purgeItemMap), now)
      ensures forall id :: id in purged <==>
                old(purgeItemMap) != map[] && id in pQueue
                && (id in old(purgeItemMap) ==> now - old(purgeItemMap)[id] >= 500)
      ensures forall id :: id in purgeItemMap <==> id in old(purgeItemMap) && now - old(purgeItemMap)[id] < 500
      ensures forall id :: id in purgeItemMap ==> purgeItemMap[id] == old(purgeItemMap)[id]
    {
      hide DueOnes, Purges, StillWaiting, DownloadsOk;
      purged := [];
      ghost var since := purgeItemMap;
      PassDone(pQueue, since, now);
      if purgeItemMap == map[] {
        return;
      }
      PassNone(since, now);
      var i := 0;
      while i < |pQueue|
        invariant 0 <= i <= |pQueue|
        invariant purgeItemMap == StillWaiting(pQueue[..i], since, now)
        invariant purged == DueOnes(pQueue[..i], since, now)
      {
        PassStep(pQueue, since, now, i);
        var tpltId := pQueue[i];
        i := i + 1;
        if tpltId in purgeItemMap && now - purgeItemMap[tpltId] < PURGE_WAIT {
          continue;
        }
        purged := purged + [tpltId];
        purgeItemMap := purgeItemMap - {tpltId};
      }
      assert pQueue[..i] == pQueue;
    }
  }

  lemma PassNone(since: map<string, int>, now: int)
    ensures StillWaiting([], since, now) == since && DueOnes([], since, now) == []
  {
  }

  /** A pass leaves the next id when it still waits, and purges it and forgets its time otherwise. */
  lemma PassStep(queue: seq<string>, since: map<string, int>, now: int, i: nat)
    requires i < |queue|
    ensures var waiting, due := StillWaiting(queue[..i], since, now), DueOnes(queue[..i], since, now);
            var stays := queue[i] in waiting && now - waiting[queue[i]] < PURGE_WAIT;
            && StillWaiting(queue[..i + 1], since, now) == (if stays then waiting else waiting - {queue[i]})
            && DueOnes(queue[..i + 1], since, now) == if stays then due else due + [queue[i]]
  {
    assert queue[..i + 1] == queue[..i] + [queue[i]] && queue[..i + 1][..i] == queue[..i];
    DueAreQueued(queue[..i], since, now, queue[i]);
  }

  lemma PassDone(queue: seq<string>, since: map<string, int>, now: int)
    requires forall id :: id in since ==> id in queue
    ensures since == map[] ==> Purges(queue, since, now) == [] && StillWaiting(queue, since, now) == since
    ensures since != map[] ==> Purges(queue, since, now) == DueOnes(queue, since, now)
    ensures forall id :: id in Purges(queue, since, now)
              <==> since != map[] && id in queue && (id in since ==> now - since[id] >= 500)
    ensures forall id :: id in StillWaiting(queue, since, now) <==> id in since && now - since[id] < 500
    ensures forall id :: id in StillWaiting(queue, since, now) ==> StillWaiting(queue, since, now)[id] == since[id]
  {
    forall id
      ensures id in Purges(queue, since, now)
              <==> since != map[] && id in queue && (id in since ==> now - since[id] >= 500)
    {
      PurgedExactly(queue, since, now, id);
    }
  }

  lemma FetchTakes(d: Downloads)
    requires DownloadsOk(d)
    ensures Wired(d)
    ensures var r, k := DoFetch(d), if |d.queue| < 5 then |d.queue| else 5;
            && r.queue == d.queue[k..] && |r.running| == k
            && (forall i :: 0 <= i < k ==> d.queue[i] in d.items && r.running[i] == (d.queue[i], d.items[d.queue[i]]))
            && (forall n :: n in r.items <==> n in d.items && n !in d.queue[..k])
            && (forall n :: n in r.items ==> r.items[n] == d.items[n])
  {
    hide InOrder;
    var k := FetchCount(d);
    forall i | 0 <= i < k
      ensures d.queue[i] in d.items && DoFetch(d).running[i] == (d.queue[i], d.items[d.queue[i]])
    {
      assert d.queue[i] in d.queue;
      PendingAt(d.queue, d.items, i);
    }
  }

  lemma FetchFacts(d: Downloads)
    requires DownloadsOk(d)
    ensures Wired(d)
    ensures var r := DoFetch(d); |r.running| <= BATCH && r.running == Pending(d.queue, d.items)[..|r.running|]
  {
  }

  /** The first `i` names of a batch of `n` are taken from the map. */
  predicate Taken(d: Downloads, n: nat, i: nat, items: map<string, string>, running: seq<Request>)
    requires Wired(d)
  {
    && i <= n <= |d.queue|
    && items == Removed(d.items, d.queue[..i]) && running == Pending(d.queue, d.items)[..i]
  }

  lemma TakenNone(d: Downloads, n: nat)
    requires DownloadsOk(d) && d.running == [] && n <= |d.queue|
    ensures Taken(d, n, 0, d.items, d.running)
  {
  }

  /** The next name is still in the map, with the fid that is pending for it. */
  lemma TakeOne(d: Downloads, n: nat, i: nat, items: map<string, string>, running: seq<Request>)
    requires DownloadsOk(d) && Taken(d, n, i, items, running) && i < n
    ensures var name := d.queue[..n][i];
            name in items && Taken(d, n, i + 1, items - {name}, running + [(name, items[name])])
  {
    hide Pending, InOrder;
    PendingAt(d.queue, d.items, i);
    assert d.queue[..i + 1] == d.queue[..i] + [d.queue[i]];
    assert d.queue[i] in d.queue;
  }

  lemma TakenAll(d: Downloads, n: nat, items: map<string, string>, running: seq<Request>)
    requires Wired(d) && Taken(d, n, n, items, running) && n == FetchCount(d)
    ensures DoFetch(d) == Downloads(items, d.queue[n..], running, d.accepted, d.started + running)
  {
  }
}
