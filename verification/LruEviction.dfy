/** Two-phase eviction: the tail is unlinked when it is chosen, and its node is unlinked a second time, through
    its stale pointers, when the triplet is purged and its key leaves the dictionary. */
module LruEviction {
  import opened Bytes
  import opened LruSpec

  /** Every dictionary key leads to a listed node carrying that key, and every listed node is reachable so. */
  ghost predicate Wired<T, V>(s: Lru<T, V>, nodes: set<T>) {
    && (forall x {:trigger x in nodes} :: x in nodes ==> x in s.key && s.key[x] in s.dict && s.dict[s.key[x]] == x)
    && (forall k {:trigger s.dict[k]} :: k in s.dict ==>
          s.dict[k] in nodes && s.dict[k] in s.key && s.key[s.dict[k]] == k)
  }

  // ----- one stale unlink -----

  /** Unlinking an already unlinked node that still points at `p` and the tail leaves the list intact exactly
      when `p` is still the node before the tail. Otherwise everything behind `p` becomes unreachable. */
  lemma StaleUnlink<T, V>(s: Lru<T, V>, xs: seq<T>, n: T, i: nat)
    requires IsList(s, xs) && n !in Chain(s, xs) && i <= |xs|
    requires Next(s, n) == s.tail && Prev(s, n) == Chain(s, xs)[i]
    ensures IsList(Unlink(s, n), xs) <==> i == |xs|
    ensures Next(Unlink(s, n), Chain(s, xs)[i]) == s.tail
  {
    var c, r := Chain(s, xs), Unlink(s, n);
    assert c[|c| - 1] == s.tail;
    assert Next(s, c[i]) == c[i + 1];
    if i == |xs| {
      assert Prev(s, s.tail) == c[i];
      assert Chain(r, xs) == c;
      forall j | 0 <= j < |c| - 1 ensures Next(r, c[j]) == c[j + 1] {
        assert Next(s, c[j]) == c[j + 1];
      }
      forall j | 0 < j < |c| - 1 ensures Prev(r, c[j]) == c[j - 1] {
        assert Prev(s, c[j]) == c[j - 1] && c[j] != c[|c| - 1];
      }
    } else {
      assert Next(r, c[i]) == s.tail != c[i + 1];
      assert Chain(r, xs) == c;
    }
  }

  // ----- evicting a batch of tails -----

  ghost function EvictMany<T, V>(s: Lru<T, V>, k: nat): Lru<T, V> {
    if k == 0 then s else Evict(EvictMany(s, k - 1))
  }

  /** The evicted nodes, first evicted first. */
  ghost function Evicted<T, V>(s: Lru<T, V>, k: nat): (gone: seq<T>)
    ensures |gone| == k
  {
    if k == 0 then [] else Evicted(s, k - 1) + [Prev(EvictMany(s, k - 1), s.tail)]
  }

  /** Where the back pointer of the j-th evicted node was left pointing: at the node evicted next, or at the
      survivor nearest the tail. */
  ghost function StalePrev<T>(gone: seq<T>, anchor: T, j: nat): T {
    if j + 1 < |gone| then gone[j + 1] else anchor
  }

  ghost predicate Stale<T, V>(s: Lru<T, V>, gone: seq<T>, anchor: T) {
    forall j :: 0 <= j < |gone| ==> Next(s, gone[j]) == s.tail && Prev(s, gone[j]) == StalePrev(gone, anchor, j)
  }

  ghost predicate Outside<T, V>(s: Lru<T, V>, live: seq<T>, gone: seq<T>) {
    Distinct(gone) && forall j :: 0 <= j < |gone| ==> gone[j] !in Chain(s, live)
  }

  lemma EvictOne<T, V>(s: Lru<T, V>, live: seq<T>, gone: seq<T>)
    requires IsList(s, live) && live != [] && Outside(s, live, gone) && Stale(s, gone, Last(s, live))
    ensures var r, m := Evict(s), |live| - 1;
            && Prev(s, s.tail) == live[m]
            && IsList(r, live[..m]) && Outside(r, live[..m], gone + [live[m]])
            && Stale(r, gone + [live[m]], Last(r, live[..m]))
            && r == s.(next := r.next, prev := r.prev, size := s.size - 1)
  {
    var r, m, c := Evict(s), |live| - 1, Chain(s, live);
    var u, longer := Unlink(s, live[m]), gone + [live[m]];
    UnlinkShape(s, live, m);
    UnlinkListed(s, live, m);
    assert Without(live, m) == live[..m];
    ListFrame(u, r, live[..m]);
    var d := Chain(r, live[..m]);
    assert c[m + 2] == s.tail && c[m] == Last(r, live[..m]) && c[m + 1] == live[m];
    assert d == Without(c, m + 1);
    WithoutMembers(c, m + 1);
    forall j | 0 <= j < |longer|
      ensures longer[j] !in d
      ensures Next(r, longer[j]) == r.tail && Prev(r, longer[j]) == StalePrev(longer, Last(r, live[..m]), j)
    {
      assert j < |gone| ==> longer[j] == gone[j] && gone[j] != c[m] && gone[j] != s.tail;
    }
  }

  /** The state after some tails of `xs` were evicted: `gone` lists them, `live` is what is left. */
  ghost predicate EvictedFrom<T, V>(s: Lru<T, V>, xs: seq<T>, r: Lru<T, V>, live: seq<T>, gone: seq<T>) {
    && IsList(r, live) && Outside(r, live, gone) && Stale(r, gone, Last(r, live))
    && r == s.(next := r.next, prev := r.prev, size := s.size - |gone|)
    && |live| + |gone| == |xs| && live == xs[..|live|]
    && forall j :: 0 <= j < |gone| ==> gone[j] == xs[|xs| - 1 - j]
  }

  lemma EvictMore<T, V>(s: Lru<T, V>, xs: seq<T>, r: Lru<T, V>, live: seq<T>, gone: seq<T>)
    requires EvictedFrom(s, xs, r, live, gone) && live != []
    ensures Prev(r, r.tail) == live[|live| - 1]
    ensures EvictedFrom(s, xs, Evict(r), live[..|live| - 1], gone + [live[|live| - 1]])
  {
    EvictOne(r, live, gone);
  }

  lemma {:induction false} EvictShape<T, V>(s: Lru<T, V>, xs: seq<T>, k: nat)
    requires IsList(s, xs) && k <= |xs|
    ensures EvictedFrom(s, xs, EvictMany(s, k), xs[..|xs| - k], Evicted(s, k))
  {
    if k == 0 {
      assert xs[..|xs|] == xs;
    } else {
      var live := xs[..|xs| - (k - 1)];
      EvictShape(s, xs, k - 1);
      EvictMore(s, xs, EvictMany(s, k - 1), live, Evicted(s, k - 1));
      assert live[..|live| - 1] == xs[..|xs| - k];
    }
  }

  // ----- what may happen before everything evicted is purged -----

  datatype Step<V> = PutNew(k: string, v: V) | GetLive(k: string) | Purge(k: string) | EvictTail

  ghost function ApplyStep<T, V>(s: Lru<T, V>, step: Step<V>, n: T): Lru<T, V> {
    match step
    case PutNew(k, v) => Put(s, k, v, n)
    case GetLive(k) => Get(s, k)
    case Purge(k) => Delete(s, k)
    case EvictTail => Evict(s)
  }

  /** The survivor nearest the tail: where the back pointer of the node evicted last was left pointing. */
  ghost function Nearest<T, V>(s: Lru<T, V>, gone: seq<T>): T {
    if gone == [] then Prev(s, s.tail) else Prev(s, gone[|gone| - 1])
  }

  /** Puts of new keys, Gets of survivors other than the one nearest the tail once something is evicted, purges of
      evicted keys or of keys that are gone already, and evictions that pick a survivor and leave one. `n` is the node a
      Put allocates. */
  ghost predicate Allowed<T, V>(s: Lru<T, V>, gone: seq<T>, step: Step<V>, n: T) {
    match step
    case PutNew(k, _) => k !in s.dict && n !in s.next && n != s.tail
    case GetLive(k) => k in s.dict && s.dict[k] !in gone && (gone != [] ==> s.dict[k] != Nearest(s, gone))
    case Purge(k) => k in s.dict ==> s.dict[k] in gone
    case EvictTail => Prev(s, s.tail) == Nearest(s, gone) && Prev(s, Nearest(s, gone)) != s.head
  }

  /** What holds between eviction and the last purge. Only the tail's back pointer may be wrong. */
  ghost predicate Waiting<T, V>(s: Lru<T, V>, live: seq<T>, gone: seq<T>, anchor: T, unpurged: set<T>) {
    && Forward(s, live) && Outside(s, live, gone) && Stale(s, gone, anchor)
    && unpurged <= Nodes(gone) && Wired(s, Nodes(live) + unpurged)
  }

  /** The same while a survivor is there to anchor the stale pointers. */
  ghost predicate Pending<T, V>(s: Lru<T, V>, live: seq<T>, gone: seq<T>, anchor: T, unpurged: set<T>) {
    Waiting(s, live, gone, anchor, unpurged) && live != [] && Last(s, live) == anchor
  }

  /** A node that was never linked is neither listed, nor evicted, nor in the chain. */
  lemma NewNode<T, V>(s: Lru<T, V>, live: seq<T>, gone: seq<T>, anchor: T, unpurged: set<T>, n: T)
    requires Waiting(s, live, gone, anchor, unpurged) && n !in s.next && n != s.tail
    ensures n !in Chain(s, live) && n !in gone && n !in Nodes(live) + unpurged && s.head != s.tail
  {
    var c := Chain(s, live);
    assert c[0] == s.head && c[|c| - 1] == s.tail;
    forall i | 0 <= i < |c|
      ensures c[i] != n
    {
      assert i < |c| - 1 ==> Next(s, c[i]) == c[i + 1] && c[i + 1] != c[0];
    }
    forall j | 0 <= j < |gone|
      ensures gone[j] != n
    {
      assert Next(s, gone[j]) != s.head;
    }
    forall x | x in live
      ensures x != n
    {
      ChainMembers(s, live, x);
    }
  }

  /** No pointer of an evicted node is written. */
  lemma PutFrame<T, V>(
      s: Lru<T, V>, live: seq<T>, gone: seq<T>, anchor: T, unpurged: set<T>, k: string, v: V, n: T)
    requires Waiting(s, live, gone, anchor, unpurged) && k !in s.dict && n !in s.next && n != s.tail
    ensures var r := Put(s, k, v, n); Outside(r, [n] + live, gone) && Stale(r, gone, anchor)
  {
    hide Wired;
    var r, c := Put(s, k, v, n), Chain(s, live);
    NewNode(s, live, gone, anchor, unpurged, n);
    assert c[0] == s.head && Next(s, c[0]) == c[1];
    forall j | 0 <= j < |gone| ensures gone[j] !in Chain(r, [n] + live) && gone[j] != n {
      assert Chain(r, [n] + live) == [s.head, n] + c[1..];
    }
  }

  lemma PutForward<T, V>(s: Lru<T, V>, live: seq<T>, k: string, v: V, n: T)
    requires Forward(s, live) && n !in Chain(s, live) && k !in s.dict
    ensures Forward(Put(s, k, v, n), [n] + live)
    ensures live != [] ==>
              Last(Put(s, k, v, n), [n] + live) == Last(s, live) && Prev(Put(s, k, v, n), s.tail) == Prev(s, s.tail)
  {
    var s1 := s.(key := s.key[n := k], val := s.val[n := v], size := s.size + 1);
    var u, r := LinkAtHead(s1, n), Put(s, k, v, n);
    ListFrame(s, s1, live);
    LinkUnlisted(s1, live, n);
    ListFrame(u, r, [n] + live);
  }

  lemma PutWaiting<T, V>(
      s: Lru<T, V>, live: seq<T>, gone: seq<T>, anchor: T, unpurged: set<T>, k: string, v: V, n: T)
    requires Waiting(s, live, gone, anchor, unpurged) && k !in s.dict && n !in s.next && n != s.tail
    ensures Waiting(Put(s, k, v, n), [n] + live, gone, anchor, unpurged)
  {
    hide Outside, Stale, Forward, Last;
    NewNode(s, live, gone, anchor, unpurged, n);
    PutFrame(s, live, gone, anchor, unpurged, k, v, n);
    PutForward(s, live, k, v, n);
    assert Nodes([n] + live) == Nodes(live) + {n};
  }

  lemma PutPending<T, V>(
      s: Lru<T, V>, live: seq<T>, gone: seq<T>, anchor: T, unpurged: set<T>, k: string, v: V, n: T)
    requires Pending(s, live, gone, anchor, unpurged) && k !in s.dict && n !in s.next && n != s.tail
    ensures Pending(Put(s, k, v, n), [n] + live, gone, anchor, unpurged)
    ensures Prev(Put(s, k, v, n), s.tail) == Prev(s, s.tail)
  {
    hide Outside, Stale, Forward, Last, Wired;
    NewNode(s, live, gone, anchor, unpurged, n);
    PutWaiting(s, live, gone, anchor, unpurged, k, v, n);
    PutForward(s, live, k, v, n);
  }

  /** Moving a listed node to the head. Another node than the last leaves the last one and the tail's pointer. */
  lemma MoveInside<T, V>(s: Lru<T, V>, live: seq<T>, i: nat)
    requires Forward(s, live) && i < |live|
    ensures var r, live' := LinkAtHead(Unlink(s, live[i]), live[i]), [live[i]] + Without(live, i);
            && Forward(r, live')
            && (i < |live| - 1 ==> Prev(r, s.tail) == Prev(s, s.tail) && Last(r, live') == Last(s, live))
  {
    var x, c, w := live[i], Chain(s, live), Without(live, i);
    var u := Unlink(s, x);
    UnlinkListed(s, live, i);
    assert Chain(u, w) == Without(c, i + 1) && c[i + 1] == x;
    WithoutMembers(c, i + 1);
    LinkUnlisted(u, w, x);
  }

  /** No pointer of a node outside the list is written. */
  lemma MoveFrame<T, V>(s: Lru<T, V>, live: seq<T>, i: nat, y: T)
    requires Forward(s, live) && i < |live| && y !in Chain(s, live)
    ensures var r := LinkAtHead(Unlink(s, live[i]), live[i]);
            Next(r, y) == Next(s, y) && Prev(r, y) == Prev(s, y)
  {
    var x, c, w := live[i], Chain(s, live), Without(live, i);
    var u := Unlink(s, x);
    UnlinkShape(s, live, i);
    UnlinkListed(s, live, i);
    var d := Chain(u, w);
    assert Next(u, d[0]) == d[1];
    assert d == Without(c, i + 1);
    assert d[1] in c && c[0] in c && c[i] in c && c[i + 1] in c && c[i + 2] in c;
  }

  lemma MoveMembers<T>(live: seq<T>, i: nat)
    requires Distinct(live) && i < |live|
    ensures Nodes([live[i]] + Without(live, i)) == Nodes(live)
  {
    WithoutMembers(live, i);
  }

  lemma ForwardMembers<T, V>(s: Lru<T, V>, live: seq<T>, i: nat)
    requires Forward(s, live) && i < |live|
    ensures Nodes([live[i]] + Without(live, i)) == Nodes(live)
  {
    ChainMembers(s, live, live[i]);
    MoveMembers(live, i);
  }

  lemma WiredFrame<T, V>(s: Lru<T, V>, r: Lru<T, V>, nodes: set<T>)
    requires Wired(s, nodes) && r.key == s.key && r.dict == s.dict
    ensures Wired(r, nodes)
  {
  }

  lemma GetWaiting<T, V>(
      s: Lru<T, V>, live: seq<T>, gone: seq<T>, anchor: T, unpurged: set<T>, k: string, i: nat)
    requires Waiting(s, live, gone, anchor, unpurged) && k in s.dict && i < |live| && live[i] == s.dict[k]
    ensures Waiting(Get(s, k), [live[i]] + Without(live, i), gone, anchor, unpurged)
  {
    hide Wired;
    MoveInside(s, live, i);
    ForwardMembers(s, live, i);
    var r, live' := Get(s, k), [live[i]] + Without(live, i);
    forall j | 0 <= j < |gone|
      ensures gone[j] !in Chain(r, live')
      ensures Next(r, gone[j]) == s.tail && Prev(r, gone[j]) == StalePrev(gone, anchor, j)
    {
      MoveFrame(s, live, i, gone[j]);
      ChainMembers(s, live, gone[j]);
      ChainMembers(r, live', gone[j]);
    }
    WiredFrame(s, r, Nodes(live) + unpurged);
  }

  lemma ListedKey<T, V>(
      s: Lru<T, V>, live: seq<T>, gone: seq<T>, anchor: T, unpurged: set<T>, k: string) returns (i: nat)
    requires Waiting(s, live, gone, anchor, unpurged) && k in s.dict && s.dict[k] !in gone
    ensures i < |live| && live[i] == s.dict[k]
  {
    assert s.dict[k] in Nodes(live) + unpurged;
    i :| 0 <= i < |live| && live[i] == s.dict[k];
  }

  lemma GetPending<T, V>(
      s: Lru<T, V>, live: seq<T>, gone: seq<T>, anchor: T, unpurged: set<T>, k: string) returns (live': seq<T>)
    requires Pending(s, live, gone, anchor, unpurged) && k in s.dict && s.dict[k] !in gone && s.dict[k] != anchor
    ensures Pending(Get(s, k), live', gone, anchor, unpurged) && |live'| == |live|
    ensures Prev(Get(s, k), s.tail) == Prev(s, s.tail)
  {
    hide Outside, Stale, Wired;
    var i := ListedKey(s, live, gone, anchor, unpurged, k);
    live' := [live[i]] + Without(live, i);
    GetWaiting(s, live, gone, anchor, unpurged, k, i);
    MoveInside(s, live, i);
  }

  /** What an evicted node points back at is another node, and that points at the tail. */
  lemma StaleNext<T, V>(s: Lru<T, V>, live: seq<T>, gone: seq<T>, anchor: T, unpurged: set<T>, j: nat)
    requires Pending(s, live, gone, anchor, unpurged) && j < |gone|
    ensures Next(s, StalePrev(gone, anchor, j)) == s.tail && StalePrev(gone, anchor, j) != gone[j]
    ensures gone[j] !in Chain(s, live)
  {
    var c := Chain(s, live);
    assert c[|c| - 2] == anchor && c[|c| - 1] == s.tail && Next(s, c[|c| - 2]) == c[|c| - 1];
  }

  /** A purge whose stale pointer leads to a node before the tail writes the tail's back pointer only. */
  lemma PurgeWaiting<T, V>(
      s: Lru<T, V>, live: seq<T>, gone: seq<T>, anchor: T, unpurged: set<T>, k: string, p: T)
    requires Waiting(s, live, gone, anchor, unpurged) && k in s.dict && s.dict[k] in gone
    requires Next(s, s.dict[k]) == s.tail && Prev(s, s.dict[k]) == p && Next(s, p) == s.tail && p != s.dict[k]
    ensures Waiting(Delete(s, k), live, gone, anchor, unpurged - {s.dict[k]}) && Prev(Delete(s, k), s.tail) == p
  {
    var g, c, r := s.dict[k], Chain(s, live), Delete(s, k);
    var j :| 0 <= j < |gone| && gone[j] == g;
    assert g !in c && c[|c| - 1] == s.tail;
    assert r.next == s.next[p := s.tail];
    assert r.prev == s.prev[s.tail := p];
    assert forall x :: Next(r, x) == Next(s, x);
    assert forall x :: x != s.tail ==> Prev(r, x) == Prev(s, x);
    assert Chain(r, live) == c;
    forall i | 0 < i < |c| - 1 ensures Prev(r, c[i]) == c[i - 1] {
      assert c[i] != c[|c| - 1];
    }
    assert s.key[g] == k;
    forall x | x in Nodes(live) + (unpurged - {g}) ensures s.key[x] != k {
      if x in live {
        var i :| 0 <= i < |live| && live[i] == x;
        assert c[i + 1] == x;
      }
    }
  }

  lemma PurgePending<T, V>(
      s: Lru<T, V>, live: seq<T>, gone: seq<T>, anchor: T, unpurged: set<T>, k: string) returns (j: nat)
    requires Pending(s, live, gone, anchor, unpurged) && k in s.dict && s.dict[k] in gone
    ensures Pending(Delete(s, k), live, gone, anchor, unpurged - {s.dict[k]})
    ensures j < |gone| && gone[j] == s.dict[k] && Prev(Delete(s, k), s.tail) == StalePrev(gone, anchor, j)
  {
    hide Wired, Forward, Outside;
    j :| 0 <= j < |gone| && gone[j] == s.dict[k];
    StaleNext(s, live, gone, anchor, unpurged, j);
    PurgeWaiting(s, live, gone, anchor, unpurged, k, StalePrev(gone, anchor, j));
  }

  /** Before anything is evicted a Get may name any node. */
  lemma GetAlone<T, V>(s: Lru<T, V>, live: seq<T>, k: string) returns (live': seq<T>)
    requires Pending(s, live, [], Last(s, live), {}) && Prev(s, s.tail) == Last(s, live) && k in s.dict
    ensures Pending(Get(s, k), live', [], Last(Get(s, k), live'), {}) && |live'| == |live|
    ensures Prev(Get(s, k), s.tail) == Last(Get(s, k), live')
  {
    var x := s.dict[k];
    assert x in Nodes(live) + {};
    var i :| 0 <= i < |live| && live[i] == x;
    live' := [x] + Without(live, i);
    MoveListed(s, live, i);
    ChainMembers(s, live, x);
    MoveMembers(live, i);
  }

  lemma MoveListed<T, V>(s: Lru<T, V>, xs: seq<T>, i: nat)
    requires IsList(s, xs) && i < |xs|
    ensures IsList(LinkAtHead(Unlink(s, xs[i]), xs[i]), [xs[i]] + Without(xs, i))
  {
    UnlinkListed(s, xs, i);
    var u, c, w := Unlink(s, xs[i]), Chain(s, xs), Without(xs, i);
    assert Chain(u, w) == Without(c, i + 1) && c[i + 1] == xs[i];
    WithoutMembers(c, i + 1);
    LinkUnlisted(u, w, xs[i]);
  }

  /** One more eviction, while the tail points at the survivor nearest it. */
  lemma EvictNext<T, V>(s: Lru<T, V>, live: seq<T>, gone: seq<T>, anchor: T, unpurged: set<T>)
    requires Pending(s, live, gone, anchor, unpurged) && Prev(s, s.tail) == anchor && |live| >= 2
    ensures var r, n := Evict(s), |live| - 1;
            && Pending(r, live[..n], gone + [anchor], live[n - 1], unpurged + {anchor})
            && Prev(r, r.tail) == live[n - 1]
            && r == s.(next := r.next, prev := r.prev, size := s.size - 1)
  {
    var n := |live| - 1;
    EvictOne(s, live, gone);
    assert live[..n][n - 1] == live[n - 1] && live[n] == anchor;
    assert Nodes(live[..n]) + (unpurged + {anchor}) == Nodes(live) + unpurged by {
      assert live == live[..n] + [anchor];
    }
    assert Nodes(gone + [anchor]) == Nodes(gone) + {anchor};
  }

  // ----- whole runs -----

  ghost function Steps<T, V>(s: Lru<T, V>, steps: seq<Step<V>>, ns: seq<T>): Lru<T, V>
    requires |ns| == |steps|
  {
    if steps == [] then s
    else
      var k := |steps| - 1;
      ApplyStep(Steps(s, steps[..k], ns[..k]), steps[k], ns[k])
  }

  /** The nodes evicted by the run, first evicted first. */
  ghost function Gone<T, V>(s: Lru<T, V>, steps: seq<Step<V>>, ns: seq<T>): seq<T>
    requires |ns| == |steps|
  {
    if steps == [] then []
    else
      var k := |steps| - 1;
      var r := Steps(s, steps[..k], ns[..k]);
      Gone(s, steps[..k], ns[..k]) + if steps[k].EvictTail? then [Prev(r, r.tail)] else []
  }

  ghost predicate AllowedRun<T, V>(s: Lru<T, V>, steps: seq<Step<V>>, ns: seq<T>)
    requires |ns| == |steps|
  {
    steps == [] ||
    var k := |steps| - 1;
    && AllowedRun(s, steps[..k], ns[..k])
    && Allowed(Steps(s, steps[..k], ns[..k]), Gone(s, steps[..k], ns[..k]), steps[k], ns[k])
  }

  /** The node unlinked by the last purge, since the last eviction, that found its key in the dictionary. */
  ghost function LastPurged<T, V>(s: Lru<T, V>, steps: seq<Step<V>>, ns: seq<T>): Option<T>
    requires |ns| == |steps|
  {
    if steps == [] then None
    else
      var k := |steps| - 1;
      var r := Steps(s, steps[..k], ns[..k]);
      if steps[k].EvictTail? then None
      else if steps[k].Purge? && steps[k].k in r.dict then Some(r.dict[steps[k].k])
      else LastPurged(s, steps[..k], ns[..k])
  }

  ghost predicate TailAfter<T, V>(s: Lru<T, V>, gone: seq<T>, anchor: T, last: Option<T>) {
    match last
    case None => Prev(s, s.tail) == anchor
    case Some(g) => exists j :: 0 <= j < |gone| && gone[j] == g && Prev(s, s.tail) == StalePrev(gone, anchor, j)
  }

  /** What holds after any allowed run: `live` is the list from the head, `gone` what was evicted, `unpurged` what of it
      the dictionary still has. */
  ghost predicate Underway<T, V>(
      s: Lru<T, V>, live: seq<T>, gone: seq<T>, unpurged: set<T>, last: Option<T>)
  {
    && Pending(s, live, gone, Last(s, live), unpurged)
    && TailAfter(s, gone, Last(s, live), last)
    && (last == None && gone != [] ==> gone[|gone| - 1] in unpurged)
  }

  lemma NearestIsLast<T, V>(s: Lru<T, V>, live: seq<T>, gone: seq<T>, unpurged: set<T>, last: Option<T>)
    requires Underway(s, live, gone, unpurged, last)
    ensures Nearest(s, gone) == Last(s, live)
    ensures gone == [] ==> unpurged == {} && last == None && Prev(s, s.tail) == Last(s, live)
    ensures Prev(s, Last(s, live)) != s.head ==> |live| >= 2
  {
    var c := Chain(s, live);
    assert c[|live|] == Last(s, live) && c[0] == s.head;
    assert Prev(s, c[|live|]) == c[|live| - 1];
    if gone == [] {
      assert unpurged <= Nodes(gone) == {};
    }
  }

  lemma PutUnderway<T, V>(
      s: Lru<T, V>, live: seq<T>, gone: seq<T>, unpurged: set<T>, last: Option<T>, k: string, v: V, n: T)
    requires Underway(s, live, gone, unpurged, last) && Allowed(s, gone, PutNew(k, v), n)
    ensures Underway(Put(s, k, v, n), [n] + live, gone, unpurged, last)
  {
    hide Pending, StalePrev;
    PutPending(s, live, gone, Last(s, live), unpurged, k, v, n);
    SameLast(s, Put(s, k, v, n), live, n, gone, unpurged);
  }

  lemma SameLast<T, V>(s: Lru<T, V>, r: Lru<T, V>, live: seq<T>, n: T, gone: seq<T>, unpurged: set<T>)
    requires Pending(s, live, gone, Last(s, live), unpurged)
    ensures Last(r, [n] + live) == Last(s, live)
  {
  }

  lemma GetUnderway<T, V>(
      s: Lru<T, V>, live: seq<T>, gone: seq<T>, unpurged: set<T>, last: Option<T>, k: string, n: T)
      returns (live': seq<T>)
    requires Underway(s, live, gone, unpurged, last) && Allowed(s, gone, GetLive(k), n)
    ensures Underway(Get(s, k), live', gone, unpurged, last) && |live'| == |live|
  {
    hide StalePrev;
    NearestIsLast(s, live, gone, unpurged, last);
    if gone == [] {
      live' := GetAlone(s, live, k);
    } else {
      live' := GetPending(s, live, gone, Last(s, live), unpurged, k);
    }
  }

  lemma PurgeUnderway<T, V>(
      s: Lru<T, V>, live: seq<T>, gone: seq<T>, unpurged: set<T>, last: Option<T>, k: string, n: T)
      returns (unpurged': set<T>)
    requires Underway(s, live, gone, unpurged, last) && Allowed(s, gone, Purge(k), n)
    ensures Underway(Delete(s, k), live, gone, unpurged', if k in s.dict then Some(s.dict[k]) else last)
  {
    hide Pending, StalePrev;
    unpurged' := unpurged;
    if k in s.dict {
      var j := PurgePending(s, live, gone, Last(s, live), unpurged, k);
      unpurged' := unpurged - {s.dict[k]};
      LastFrame(s, Delete(s, k), live);
    }
  }

  lemma LastFrame<T, V>(s: Lru<T, V>, r: Lru<T, V>, live: seq<T>)
    requires r.head == s.head
    ensures Last(r, live) == Last(s, live)
  {
  }

  lemma EvictUnderway<T, V>(s: Lru<T, V>, live: seq<T>, gone: seq<T>, unpurged: set<T>, last: Option<T>, n: T)
    requires Underway(s, live, gone, unpurged, last) && Allowed<T, V>(s, gone, EvictTail, n)
    ensures |live| >= 2
    ensures Underway(Evict(s), live[..|live| - 1], gone + [Prev(s, s.tail)], unpurged + {Prev(s, s.tail)}, None)
  {
    hide StalePrev;
    NearestIsLast(s, live, gone, unpurged, last);
    EvictNext(s, live, gone, Last(s, live), unpurged);
  }

  lemma {:induction false} RunPending<T, V>(s: Lru<T, V>, xs: seq<T>, steps: seq<Step<V>>, ns: seq<T>)
      returns (live: seq<T>, unpurged: set<T>)
    requires |ns| == |steps| && AllowedRun(s, steps, ns)
    requires IsList(s, xs) && xs != [] && Wired(s, Nodes(xs))
    ensures var r := Steps(s, steps, ns);
            && Underway(r, live, Gone(s, steps, ns), unpurged, LastPurged(s, steps, ns))
            && r.size - |live| == s.size - |xs|
            && r.head == s.head && r.tail == s.tail
    decreases |steps|
  {
    hide Underway, Allowed;
    if steps == [] {
      live, unpurged := xs, {};
      StartUnderway(s, xs);
    } else {
      var k := |steps| - 1;
      var l, u := RunPending(s, xs, steps[..k], ns[..k]);
      var p, g, last := Steps(s, steps[..k], ns[..k]), Gone(s, steps[..k], ns[..k]), LastPurged(s, steps[..k], ns[..k]);
      assert g + [] == g;
      match steps[k]
      case PutNew(key, v) =>
        FreshKey(p, g, key, v, ns[k]);
        PutUnderway(p, l, g, u, last, key, v, ns[k]);
        live, unpurged := [ns[k]] + l, u;
      case GetLive(key) =>
        live := GetUnderway(p, l, g, u, last, key, ns[k]);
        unpurged := u;
      case Purge(key) =>
        unpurged := PurgeUnderway(p, l, g, u, last, key, ns[k]);
        live := l;
      case EvictTail =>
        EvictUnderway(p, l, g, u, last, ns[k]);
        live, unpurged := l[..|l| - 1], u + {Prev(p, p.tail)};
    }
  }

  lemma FreshKey<T, V>(s: Lru<T, V>, gone: seq<T>, k: string, v: V, n: T)
    requires Allowed(s, gone, PutNew(k, v), n)
    ensures k !in s.dict
  {
  }

  lemma StartUnderway<T, V>(s: Lru<T, V>, xs: seq<T>)
    requires IsList(s, xs) && xs != [] && Wired(s, Nodes(xs))
    ensures Underway(s, xs, [], {}, None)
  {
    assert Nodes(xs) + {} == Nodes(xs);
  }

  lemma AllPurged<T, V>(s: Lru<T, V>, live: seq<T>, gone: seq<T>, anchor: T, unpurged: set<T>)
    requires Pending(s, live, gone, anchor, unpurged)
    requires forall k {:trigger s.dict[k]} :: k in s.dict ==> s.dict[k] !in gone
    ensures unpurged == {} && Wired(s, Nodes(live))
  {
    forall x | x in Nodes(live) + unpurged ensures x !in unpurged {
      assert s.dict[s.key[x]] == x;
    }
    assert unpurged == {};
    assert Nodes(live) + unpurged == Nodes(live);
  }

  lemma ListIffAnchor<T, V>(
      s: Lru<T, V>, live: seq<T>, gone: seq<T>, anchor: T, unpurged: set<T>, last: T)
    requires Pending(s, live, gone, anchor, unpurged) && gone != [] && TailAfter(s, gone, anchor, Some(last))
    ensures IsList(s, live) <==> last == gone[|gone| - 1]
    ensures Prev(s, s.tail) in gone <==> last != gone[|gone| - 1]
  {
    var j :| 0 <= j < |gone| && gone[j] == last && Prev(s, s.tail) == StalePrev(gone, anchor, j);
    ChainMembers(s, live, anchor);
    assert live[|live| - 1] == anchor;
    assert j + 1 < |gone| ==> gone[j + 1] != anchor;
  }

  /** Start from a well-formed cache and let any allowed run follow, with any number of evictions in it. Once every
      evicted key has been purged, the cache is a well-formed list of the survivors and the new entries, with matching
      dictionary and size, exactly when nothing was evicted or the last purge was that of the node evicted last. */
  lemma EvictThenPurge<T, V>(s: Lru<T, V>, xs: seq<T>, steps: seq<Step<V>>, ns: seq<T>) returns (live: seq<T>)
    requires IsList(s, xs) && Wired(s, Nodes(xs)) && s.size == |xs| && xs != []
    requires |ns| == |steps| && AllowedRun(s, steps, ns)
    requires var r := Steps(s, steps, ns);
             forall key {:trigger r.dict[key]} :: key in r.dict ==> r.dict[key] !in Gone(s, steps, ns)
    ensures var r, gone := Steps(s, steps, ns), Gone(s, steps, ns);
            && Forward(r, live) && Wired(r, Nodes(live)) && r.size == |live|
            && (IsList(r, live) <==> gone == [] || LastPurged(s, steps, ns) == Some(gone[|gone| - 1]))
  {
    hide Steps, Gone, LastPurged, AllowedRun, Wired, Stale, Outside;
    var unpurged;
    live, unpurged := RunPending(s, xs, steps, ns);
    var r, gone, last := Steps(s, steps, ns), Gone(s, steps, ns), LastPurged(s, steps, ns);
    AllPurged(r, live, gone, Last(r, live), unpurged);
    if gone != [] {
      ListIffAnchor(r, live, gone, Last(r, live), unpurged, last.value);
    } else {
      NearestIsLast(r, live, gone, unpurged, last);
    }
  }

  /** Why an eviction must see the tail point at a survivor: after a purge it picks a node that was evicted before
      exactly when that purge was not of the node evicted last. */
  lemma EvictsAgain<T, V>(s: Lru<T, V>, xs: seq<T>, steps: seq<Step<V>>, ns: seq<T>)
    requires IsList(s, xs) && Wired(s, Nodes(xs)) && xs != []
    requires |ns| == |steps| && AllowedRun(s, steps, ns) && LastPurged(s, steps, ns).Some?
    ensures var r, gone := Steps(s, steps, ns), Gone(s, steps, ns);
            && gone != []
            && (Prev(r, r.tail) in gone <==> LastPurged(s, steps, ns).value != gone[|gone| - 1])
  {
    hide Steps, Gone, LastPurged, AllowedRun, Wired, Stale, Outside;
    var live, unpurged := RunPending(s, xs, steps, ns);
    var r, gone, last := Steps(s, steps, ns), Gone(s, steps, ns), LastPurged(s, steps, ns);
    NearestIsLast(r, live, gone, unpurged, last);
    ListIffAnchor(r, live, gone, Last(r, live), unpurged, last.value);
  }

  // ----- what is not allowed -----

  /** Getting the last node of a list moves it to the head; a victim's stale pointers stay. */
  lemma GetLast<T, V>(e: Lru<T, V>, live: seq<T>, victim: T, nearest: string)
    requires IsList(e, live) && live != [] && victim !in Chain(e, live)
    requires nearest in e.dict && e.dict[nearest] == live[|live| - 1]
    ensures var g, n := Get(e, nearest), |live| - 1;
            && IsList(g, [live[n]] + live[..n]) && g.dict == e.dict && g.tail == e.tail && g.head == e.head
            && Next(g, victim) == Next(e, victim) && Prev(g, victim) == Prev(e, victim)
  {
    var n := |live| - 1;
    var anchor, c := live[n], Chain(e, live);
    MoveListed(e, live, n);
    assert Without(live, n) == live[..n];
    UnlinkShape(e, live, n);
    UnlinkListed(e, live, n);
    var d := Chain(Unlink(e, anchor), live[..n]);
    assert d == Without(c, n + 1);
    assert d[0] == e.head && Next(Unlink(e, anchor), d[0]) == d[1];
    assert d[1] in c && c[n] in c && c[n + 1] in c && c[n + 2] in c && c[0] in c;
  }

  /** Why the survivor nearest the tail is excluded: evict the tail, Get that survivor, purge. The list reached from the
      head is then that one survivor, so the cache stays well-formed exactly when there is no other. */
  lemma GetOfAnchorLosesEntries<T, V>(s: Lru<T, V>, xs: seq<T>, nearest: string, last: string)
    requires IsList(s, xs) && Wired(s, Nodes(xs)) && |xs| >= 2
    requires {nearest, last} <= s.dict.Keys
    requires s.dict[nearest] == xs[|xs| - 2] && s.dict[last] == xs[|xs| - 1]
    ensures var r, live := Delete(Get(Evict(s), nearest), last), [xs[|xs| - 2]] + xs[..|xs| - 2];
            && Next(r, r.head) == s.dict[nearest] && Next(r, s.dict[nearest]) == r.tail
            && (IsList(r, live) <==> |xs| == 2)
  {
    var n := |xs| - 1;
    var victim, anchor := xs[n], xs[n - 1];
    EvictOne(s, xs, []);
    var e, live := Evict(s), xs[..n];
    assert ([] + [victim])[0] == victim;
    assert live[n - 1] == anchor && Next(e, victim) == s.tail && Prev(e, victim) == anchor;
    GetLast(e, live, victim, nearest);
    var g, ys := Get(e, nearest), [anchor] + live[..n - 1];
    assert live[..n - 1] == xs[..n - 1];
    assert victim !in Chain(g, ys) by {
      ChainMembers(e, live, victim);
      ChainMembers(g, ys, victim);
    }
    assert Chain(g, ys)[1] == anchor && Chain(g, ys)[0] == g.head && Next(g, Chain(g, ys)[0]) == Chain(g, ys)[1];
    StaleUnlink(g, ys, victim, 1);
    var u, r := Unlink(g, victim), Delete(g, last);
    SamePointers(u, r, ys);
    assert Next(r, r.head) == anchor;
  }

  lemma SamePointers<T, V>(s: Lru<T, V>, r: Lru<T, V>, xs: seq<T>)
    requires r.next == s.next && r.prev == s.prev && r.head == s.head && r.tail == s.tail
    ensures IsList(r, xs) <==> IsList(s, xs)
  {
    assert Chain(r, xs) == Chain(s, xs);
  }

  /** Unlinking an evicted node once more and linking it at the head. */
  lemma Relink<T, V>(
      s: Lru<T, V>, live: seq<T>, gone: seq<T>, anchor: T, unpurged: set<T>, j: nat)
    requires Pending(s, live, gone, anchor, unpurged) && j < |gone|
    ensures var r := LinkAtHead(Unlink(s, gone[j]), gone[j]);
            && Forward(r, [gone[j]] + live) && Prev(r, s.tail) == StalePrev(gone, anchor, j)
            && forall i :: 0 <= i < j ==> Next(r, gone[i]) == s.tail && Prev(r, gone[i]) == StalePrev(gone, anchor, i)
  {
    hide Wired;
    var g, c, p, u := gone[j], Chain(s, live), StalePrev(gone, anchor, j), Unlink(s, gone[j]);
    StaleNext(s, live, gone, anchor, unpurged, j);
    assert u.next == s.next[p := s.tail] && u.prev == s.prev[s.tail := p];
    assert Chain(u, live) == c && c[|c| - 1] == s.tail && c[0] == s.head;
    forall i | 0 < i < |c| - 1 ensures Prev(u, c[i]) == c[i - 1] {
      assert c[i] != c[|c| - 1];
    }
    LinkUnlisted(u, live, g);
    assert Next(u, c[0]) == c[1];
    forall i | 0 <= i < j
      ensures gone[i] != g && gone[i] !in c
    {
    }
  }

  /** After any allowed run, getting a key that is evicted and not yet purged puts its node back in front of the others.
      The list is well-formed exactly when that node was the one evicted last; otherwise the tail points back at another
      evicted node. */
  lemma GetOfEvicted<T, V>(s: Lru<T, V>, xs: seq<T>, steps: seq<Step<V>>, ns: seq<T>, k: string)
      returns (live: seq<T>)
    requires IsList(s, xs) && Wired(s, Nodes(xs)) && xs != []
    requires |ns| == |steps| && AllowedRun(s, steps, ns)
    requires var r := Steps(s, steps, ns); k in r.dict && r.dict[k] in Gone(s, steps, ns)
    ensures var r, gone := Steps(s, steps, ns), Gone(s, steps, ns);
            && Forward(r, live) && Forward(Get(r, k), [r.dict[k]] + live)
            && (IsList(Get(r, k), [r.dict[k]] + live) <==> r.dict[k] == gone[|gone| - 1])
            && (Prev(Get(r, k), r.tail) in gone <==> r.dict[k] != gone[|gone| - 1])
  {
    hide Steps, Gone, LastPurged, AllowedRun, Wired, Stale, Forward;
    var unpurged;
    live, unpurged := RunPending(s, xs, steps, ns);
    var r, gone := Steps(s, steps, ns), Gone(s, steps, ns);
    var j :| 0 <= j < |gone| && gone[j] == r.dict[k];
    Relink(r, live, gone, Last(r, live), unpurged, j);
    ChainMembers(r, live, Last(r, live));
    assert j + 1 < |gone| ==> gone[j + 1] != Last(r, live);
  }

  /** A later purge of the node evicted just before it then loses the rest of the list. */
  lemma GetOfEvictedLosesEntries<T, V>(
      s: Lru<T, V>, xs: seq<T>, steps: seq<Step<V>>, ns: seq<T>, k: string, earlier: string, j: nat)
    requires IsList(s, xs) && Wired(s, Nodes(xs)) && xs != []
    requires |ns| == |steps| && AllowedRun(s, steps, ns)
    requires var r, gone := Steps(s, steps, ns), Gone(s, steps, ns);
             && {k, earlier} <= r.dict.Keys && j + 1 < |gone|
             && r.dict[earlier] == gone[j] && r.dict[k] == gone[j + 1]
    ensures var r := Steps(s, steps, ns);
            var q := Delete(Get(r, k), earlier);
            Next(r, r.head) != r.tail && Next(q, q.head) == r.dict[k] && Next(q, r.dict[k]) == q.tail
  {
    hide Steps, Gone, LastPurged, AllowedRun, Wired;
    var live, unpurged := RunPending(s, xs, steps, ns);
    var r, gone := Steps(s, steps, ns), Gone(s, steps, ns);
    var g := Get(r, k);
    Relink(r, live, gone, Last(r, live), unpurged, j + 1);
    var c := Chain(g, [gone[j + 1]] + live);
    assert c[0] == g.head && c[1] == gone[j + 1] && Next(g, c[0]) == c[1];
    assert Prev(g, gone[j]) == gone[j + 1] && Next(g, gone[j]) == g.tail;
    FirstNotTail(r, live);
  }

  lemma FirstNotTail<T, V>(s: Lru<T, V>, live: seq<T>)
    requires Forward(s, live) && live != []
    ensures Next(s, s.head) != s.tail
  {
    var c := Chain(s, live);
    assert c[0] == s.head && c[1] == live[0] && Next(s, c[0]) == c[1] && c[|c| - 1] == s.tail;
  }

  // ----- no survivor -----

  /** What may follow once no entry is left: Puts of new keys, Gets of these, purges of all evicted keys but the last
      evicted one. */
  ghost predicate AllowedAfter<T, V>(s: Lru<T, V>, gone: seq<T>, step: Step<V>, n: T)
    requires gone != []
  {
    match step
    case PutNew(k, _) => k !in s.dict && n !in s.next && n != s.tail
    case GetLive(k) => k in s.dict && s.dict[k] !in gone
    case Purge(k) => k in s.dict ==> s.dict[k] in gone && s.dict[k] != gone[|gone| - 1]
    case EvictTail => false
  }

  ghost predicate AllowedRunAfter<T, V>(s: Lru<T, V>, gone: seq<T>, steps: seq<Step<V>>, ns: seq<T>)
    requires |ns| == |steps| && gone != []
  {
    steps == [] ||
    var k := |steps| - 1;
    && AllowedRunAfter(s, gone, steps[..k], ns[..k])
    && AllowedAfter(Steps(s, steps[..k], ns[..k]), gone, steps[k], ns[k])
  }

  function Puts<V>(steps: seq<Step<V>>): nat {
    if steps == [] then 0 else Puts(steps[..|steps| - 1]) + if steps[|steps| - 1].PutNew? then 1 else 0
  }

  /** An evicted node but the last points back at the one evicted next, and that at the tail. */
  lemma PurgeEarlier<T, V>(s: Lru<T, V>, live: seq<T>, gone: seq<T>, anchor: T, unpurged: set<T>, k: string)
      returns (unpurged': set<T>)
    requires Waiting(s, live, gone, anchor, unpurged) && gone != []
    requires k in s.dict ==> s.dict[k] in gone && s.dict[k] != gone[|gone| - 1]
    ensures Waiting(Delete(s, k), live, gone, anchor, unpurged')
  {
    hide Wired, Forward;
    unpurged' := unpurged;
    if k in s.dict {
      var j :| 0 <= j < |gone| && gone[j] == s.dict[k];
      PurgeWaiting(s, live, gone, anchor, unpurged, k, gone[j + 1]);
      unpurged' := unpurged - {s.dict[k]};
    }
  }

  lemma {:induction false} RunEmptied<T, V>(
      s: Lru<T, V>, gone: seq<T>, before: set<T>, steps: seq<Step<V>>, ns: seq<T>)
      returns (live: seq<T>, unpurged: set<T>)
    requires Waiting(s, [], gone, s.head, before) && gone != []
    requires |ns| == |steps| && AllowedRunAfter(s, gone, steps, ns)
    ensures var r := Steps(s, steps, ns);
            && Waiting(r, live, gone, r.head, unpurged) && |live| == Puts(steps)
            && r.head == s.head && r.tail == s.tail
    decreases |steps|
  {
    hide Waiting;
    if steps == [] {
      live, unpurged := [], before;
    } else {
      var k := |steps| - 1;
      var l, u := RunEmptied(s, gone, before, steps[..k], ns[..k]);
      var p := Steps(s, steps[..k], ns[..k]);
      match steps[k]
      case PutNew(key, v) =>
        PutWaiting(p, l, gone, p.head, u, key, v, ns[k]);
        live, unpurged := [ns[k]] + l, u;
      case GetLive(key) =>
        var i := ListedKey(p, l, gone, p.head, u, key);
        GetWaiting(p, l, gone, p.head, u, key, i);
        live, unpurged := [l[i]] + Without(l, i), u;
      case Purge(key) =>
        unpurged := PurgeEarlier(p, l, gone, p.head, u, key);
        live := l;
    }
  }

  /** The eviction of the only entry left. */
  lemma EvictRest<T, V>(s: Lru<T, V>, live: seq<T>, gone: seq<T>, unpurged: set<T>, last: Option<T>)
    requires Underway(s, live, gone, unpurged, last)
    requires Prev(s, s.tail) == Nearest(s, gone) && Prev(s, Nearest(s, gone)) == s.head
    ensures live == [Prev(s, s.tail)]
    ensures Waiting(Evict(s), [], gone + [Prev(s, s.tail)], s.head, unpurged + {Prev(s, s.tail)})
  {
    NearestIsLast(s, live, gone, unpurged, last);
    var x, c := Last(s, live), Chain(s, live);
    assert c[|live|] == x && c[0] == s.head;
    assert Prev(s, c[|live|]) == c[|live| - 1];
    EvictOne(s, live, gone);
    assert live[..0] == [];
    assert Nodes([]) + (unpurged + {x}) == Nodes(live) + unpurged;
    assert Nodes(gone + [x]) == Nodes(gone) + {x};
  }

  /** The purge of a node that points back at the head and on at the tail empties the list. */
  lemma PurgeCuts<T, V>(s: Lru<T, V>, live: seq<T>, gone: seq<T>, unpurged: set<T>, k: string)
    requires Waiting(s, live, gone, s.head, unpurged) && gone != []
    requires k in s.dict && s.dict[k] == gone[|gone| - 1]
    ensures IsList(Delete(s, k), []) && (IsList(Delete(s, k), live) <==> live == [])
    ensures var d := Delete(s, k); forall x :: x in live ==> x in d.key && d.key[x] in d.dict && d.dict[d.key[x]] == x
  {
    var r, c, g := Delete(s, k), Chain(s, live), s.dict[k];
    assert c[0] == s.head && c[|c| - 1] == s.tail && s.head != s.tail;
    assert g !in c && Next(s, g) == s.tail && Prev(s, g) == s.head;
    assert r.next == s.next[s.head := s.tail] && r.prev == s.prev[s.tail := s.head];
    assert Chain(r, live) == c;
    if live != [] {
      assert c[1] != s.tail && Next(r, c[0]) == s.tail;
    }
    forall x | x in live
      ensures x in r.key && r.key[x] in r.dict && r.dict[r.key[x]] == x
    {
      ChainMembers(s, live, x);
      assert x in Nodes(live) + unpurged;
    }
  }

  /** A run as before, the eviction of the only entry that is left, and whatever follows until the purge of that entry,
      the purges of the earlier victims included. That purge leaves an empty list, while the dictionary keeps every key
      put since: well-formed exactly when nothing was put. */
  lemma NoSurvivor<T, V>(
      s: Lru<T, V>, xs: seq<T>, steps: seq<Step<V>>, ns: seq<T>, more: seq<Step<V>>, ms: seq<T>, last: string)
      returns (live: seq<T>)
    requires IsList(s, xs) && Wired(s, Nodes(xs)) && xs != []
    requires |ns| == |steps| && AllowedRun(s, steps, ns) && |ms| == |more|
    requires var r, gone := Steps(s, steps, ns), Gone(s, steps, ns);
             && Prev(r, r.tail) == Nearest(r, gone) && Prev(r, Nearest(r, gone)) == r.head
             && AllowedRunAfter(Evict(r), gone + [Prev(r, r.tail)], more, ms)
    requires var r := Steps(s, steps, ns);
             var q := Steps(Evict(r), more, ms); last in q.dict && q.dict[last] == Prev(r, r.tail)
    ensures var d := Delete(Steps(Evict(Steps(s, steps, ns)), more, ms), last);
            && |live| == Puts(more) && IsList(d, []) && (IsList(d, live) <==> live == [])
            && forall x :: x in live ==> x in d.key && d.key[x] in d.dict && d.dict[d.key[x]] == x
  {
    hide Steps, Gone, LastPurged, AllowedRun, AllowedRunAfter, Underway, Waiting, IsList, Puts;
    var l, u := RunPending(s, xs, steps, ns);
    var r, gone := Steps(s, steps, ns), Gone(s, steps, ns);
    EvictRest(r, l, gone, u, LastPurged(s, steps, ns));
    var all, unpurged := gone + [Prev(r, r.tail)], u + {Prev(r, r.tail)};
    live, unpurged := RunEmptied(Evict(r), all, unpurged, more, ms);
    PurgeCuts(Steps(Evict(r), more, ms), live, all, unpurged, last);
  }
}
