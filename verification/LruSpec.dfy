/** The LRU list and its dictionary as a value: the pointer fields of every node are maps, and each operation
    performs the same pointer writes in the same order as the source. `LruCache` is proved to refine it. */
module LruSpec {
  import opened Bytes

  /** `T` is the type of nodes, `V` of cached values. `next` and `prev` hold the fields of every node ever
      linked, so that stale pointers of evicted nodes stay visible. */
  datatype Lru<T(==), V> = Lru(
    next: map<T, T>, prev: map<T, T>, key: map<T, string>, val: map<T, V>,
    dict: map<string, T>, size: int, head: T, tail: T)

  ghost function Next<T, V>(s: Lru<T, V>, n: T): T {
    if n in s.next then s.next[n] else s.head
  }

  ghost function Prev<T, V>(s: Lru<T, V>, n: T): T {
    if n in s.prev then s.prev[n] else s.head
  }

  // ----- pointer writes -----

  /** `deleteNode`, and the unlinking inside `removeTail` and `GetCurTailNameForEvict`. */
  ghost function Unlink<T, V>(s: Lru<T, V>, n: T): Lru<T, V> {
    var s1 := s.(next := s.next[Prev(s, n) := Next(s, n)]);
    s1.(prev := s1.prev[Next(s1, n) := Prev(s1, n)])
  }

  /** `addToHead`. */
  ghost function LinkAtHead<T, V>(s: Lru<T, V>, n: T): Lru<T, V> {
    var s1 := s.(next := s.next[n := Next(s, s.head)]);
    var s2 := s1.(prev := s1.prev[Next(s1, s.head) := n]);
    var s3 := s2.(next := s2.next[s.head := n]);
    s3.(prev := s3.prev[n := s.head])
  }

  // ----- operations -----

  ghost function Get<T, V>(s: Lru<T, V>, k: string): Lru<T, V> {
    if k in s.dict then LinkAtHead(Unlink(s, s.dict[k]), s.dict[k]) else s
  }

  /** `n` is the node allocated when the key is new. */
  ghost function Put<T, V>(s: Lru<T, V>, k: string, v: V, n: T): Lru<T, V> {
    if k in s.dict then
      var s1 := s.(val := s.val[s.dict[k] := v]);
      LinkAtHead(Unlink(s1, s1.dict[k]), s1.dict[k])
    else
      var s1 := LinkAtHead(s.(key := s.key[n := k], val := s.val[n := v], size := s.size + 1), n);
      s1.(dict := s1.dict[k := n])
  }

  /** `DeleteFromCache` leaves `size` alone. */
  ghost function Delete<T, V>(s: Lru<T, V>, k: string): Lru<T, V> {
    if k in s.dict then
      var s1 := Unlink(s, s.dict[k]);
      s1.(dict := s1.dict - {if s.dict[k] in s.key then s.key[s.dict[k]] else ""})
    else s
  }

  /** `GetCurTailNameForEvict` leaves `dict` alone. */
  ghost function Evict<T, V>(s: Lru<T, V>): Lru<T, V> {
    Unlink(s, Prev(s, s.tail)).(size := s.size - 1)
  }

  // ----- well-formed lists -----

  ghost predicate Distinct<T>(c: seq<T>) {
    forall i, j :: 0 <= i < j < |c| ==> c[i] != c[j]
  }

  ghost function Chain<T, V>(s: Lru<T, V>, xs: seq<T>): (c: seq<T>)
    ensures |c| == |xs| + 2
  {
    [s.head] + xs + [s.tail]
  }

  /** Following `next` from the head visits exactly `xs` and then the tail; `prev` undoes every such step
      except, possibly, the one into the tail. */
  ghost predicate Forward<T, V>(s: Lru<T, V>, xs: seq<T>) {
    var c := Chain(s, xs);
    && Distinct(c)
    && (forall i :: 0 <= i < |c| - 1 ==> Next(s, c[i]) == c[i + 1])
    && (forall i :: 0 < i < |c| - 1 ==> Prev(s, c[i]) == c[i - 1])
  }

  /** The node before the tail, or the head when there is none. */
  ghost function Last<T, V>(s: Lru<T, V>, xs: seq<T>): T {
    if xs == [] then s.head else xs[|xs| - 1]
  }

  /** The list is `xs`: forward and backward traversals between the sentinels are mutual reverses. */
  ghost predicate IsList<T, V>(s: Lru<T, V>, xs: seq<T>) {
    Forward(s, xs) && Prev(s, s.tail) == Last(s, xs)
  }

  /** `ks` are the keys of the nodes `xs`, and the dictionary leads from each key to its node. */
  ghost predicate Keyed<T, V>(s: Lru<T, V>, xs: seq<T>, ks: seq<string>) {
    && |ks| == |xs|
    && (forall i :: 0 <= i < |xs| ==> xs[i] in s.key && s.key[xs[i]] == ks[i])
    && (forall i :: 0 <= i < |xs| ==> ks[i] in s.dict && s.dict[ks[i]] == xs[i])
  }

  ghost function Without<T>(xs: seq<T>, i: nat): (r: seq<T>)
    requires i < |xs|
    ensures |r| == |xs| - 1
  {
    xs[..i] + xs[i + 1..]
  }

  ghost function Nodes<T>(xs: seq<T>): set<T> {
    set x | x in xs
  }

  lemma ChainMembers<T, V>(s: Lru<T, V>, xs: seq<T>, y: T)
    ensures y in Chain(s, xs) <==> y == s.head || y == s.tail || y in Nodes(xs)
    ensures Distinct(Chain(s, xs)) ==> Distinct(xs)
  {
    assert forall i :: 0 <= i < |xs| ==> xs[i] == Chain(s, xs)[i + 1];
    assert Chain(s, xs)[0] == s.head && Chain(s, xs)[|xs| + 1] == s.tail;
  }

  lemma UnlinkShape<T, V>(s: Lru<T, V>, xs: seq<T>, i: nat)
    requires Forward(s, xs) && i < |xs|
    ensures Next(s, xs[i]) == Chain(s, xs)[i + 2] && Prev(s, xs[i]) == Chain(s, xs)[i]
    ensures Unlink(s, xs[i]).next == s.next[Chain(s, xs)[i] := Chain(s, xs)[i + 2]]
    ensures Unlink(s, xs[i]).prev == s.prev[Chain(s, xs)[i + 2] := Chain(s, xs)[i]]
  {
    var c := Chain(s, xs);
    assert c[i + 1] == xs[i];
    assert Next(s, c[i + 1]) == c[i + 2];
    assert Prev(s, c[i + 1]) == c[i];
  }

  /** The chain without the node, and the `next` pointers along it. */
  lemma UnlinkNexts<T, V>(s: Lru<T, V>, xs: seq<T>, i: nat)
    requires Forward(s, xs) && i < |xs|
    ensures var r, d := Unlink(s, xs[i]), Chain(Unlink(s, xs[i]), Without(xs, i));
            && d == Without(Chain(s, xs), i + 1)
            && forall j :: 0 <= j < |d| - 1 ==> Next(r, d[j]) == d[j + 1]
  {
    var r, c := Unlink(s, xs[i]), Chain(s, xs);
    var d := Chain(r, Without(xs, i));
    UnlinkShape(s, xs, i);
    assert d == Without(c, i + 1);
    assert forall j :: 0 <= j < |d| ==> d[j] == if j <= i then c[j] else c[j + 1];
    forall j | 0 <= j < |d| - 1 ensures Next(r, d[j]) == d[j + 1] {
      assert j < i ==> Next(s, c[j]) == c[j + 1];
      assert j > i ==> Next(s, c[j + 1]) == c[j + 2];
    }
  }

  /** Unlinking a listed node removes exactly that node. Only the last one touches the tail's back pointer. */
  lemma UnlinkListed<T, V>(s: Lru<T, V>, xs: seq<T>, i: nat)
    requires Forward(s, xs) && i < |xs|
    ensures Forward(Unlink(s, xs[i]), Without(xs, i))
    ensures Prev(Unlink(s, xs[i]), s.tail) == if i == |xs| - 1 then Last(s, Without(xs, i)) else Prev(s, s.tail)
  {
    var r, c, ys := Unlink(s, xs[i]), Chain(s, xs), Without(xs, i);
    var d := Chain(r, ys);
    UnlinkShape(s, xs, i);
    UnlinkNexts(s, xs, i);
    assert forall j :: 0 <= j < |d| ==> d[j] == if j <= i then c[j] else c[j + 1];
    assert i == |xs| - 1 ==> c[i + 2] == s.tail && c[i] == Last(s, ys);
    forall j | 0 < j < |d| - 1 ensures Prev(r, d[j]) == d[j - 1] {
      assert j <= i ==> Prev(s, c[j]) == c[j - 1];
      assert j > i + 1 ==> Prev(s, c[j + 1]) == c[j];
    }
    assert i < |xs| - 1 ==> c[i + 2] != c[|c| - 1];
  }

  /** Linking a node that is not in the list puts it first. */
  lemma LinkUnlisted<T, V>(s: Lru<T, V>, xs: seq<T>, n: T)
    requires Forward(s, xs) && n !in Chain(s, xs)
    ensures Forward(LinkAtHead(s, n), [n] + xs)
    ensures Prev(LinkAtHead(s, n), s.tail) == if xs == [] then n else Prev(s, s.tail)
  {
    var r := LinkAtHead(s, n);
    var c := Chain(s, xs);
    var d := Chain(r, [n] + xs);
    assert c[0] == s.head && d[0] == s.head && d[1] == n;
    assert Next(s, c[0]) == c[1];
    assert forall j :: 2 <= j < |d| ==> d[j] == c[j - 1];
    assert r.next == s.next[n := c[1]][s.head := n];
    assert r.prev == s.prev[c[1] := n][n := s.head];
    forall j | 0 <= j < |d| - 1 ensures Next(r, d[j]) == d[j + 1] {
      if j >= 2 {
        assert c[j - 1] != c[0] && c[j - 1] != n;
        assert Next(s, c[j - 1]) == c[j];
      }
    }
    forall j | 0 < j < |d| - 1 ensures Prev(r, d[j]) == d[j - 1] {
      if j >= 3 {
        assert Prev(s, c[j - 1]) == c[j - 2] && c[j - 1] != c[1];
      }
    }
    assert xs != [] ==> c[1] == xs[0] && c[1] != c[|c| - 1];
  }

  // ----- refinement of a recency sequence -----

  datatype Op<V> = PutOp(k: string, v: V) | GetOp(k: string) | DeleteOp(k: string)

  ghost function Apply<T, V>(s: Lru<T, V>, op: Op<V>, n: T): Lru<T, V> {
    match op
    case PutOp(k, v) => Put(s, k, v, n)
    case GetOp(k) => Get(s, k)
    case DeleteOp(k) => Delete(s, k)
  }

  /** `New`: the two sentinels point at each other. */
  ghost function Fresh<T, V>(head: T, tail: T): Lru<T, V> {
    Lru(map[head := tail, tail := head], map[head := tail, tail := head], map[], map[], map[], 0, head, tail)
  }

  /** The i-th operation may allocate the node `ns[i]`. */
  ghost function Run<T, V>(s: Lru<T, V>, ops: seq<Op<V>>, ns: seq<T>): Lru<T, V>
    requires |ns| == |ops|
  {
    if ops == [] then s
    else Apply(Run(s, ops[..|ops| - 1], ns[..|ops| - 1]), ops[|ops| - 1], ns[|ops| - 1])
  }

  function Remove(ks: seq<string>, k: string): seq<string> {
    if ks == [] then [] else if ks[0] == k then ks[1..] else [ks[0]] + Remove(ks[1..], k)
  }

  /** The reference: keys from most to least recently used. */
  function Recency<V>(ops: seq<Op<V>>): seq<string> {
    if ops == [] then []
    else
      var ks, op := Recency(ops[..|ops| - 1]), ops[|ops| - 1];
      match op
      case PutOp(k, _) => [k] + Remove(ks, k)
      case GetOp(k) => if k in ks then [k] + Remove(ks, k) else ks
      case DeleteOp(k) => Remove(ks, k)
  }

  /** The reference: what each key holds. */
  function Store<V>(ops: seq<Op<V>>): map<string, V> {
    if ops == [] then map[]
    else
      var m, op := Store(ops[..|ops| - 1]), ops[|ops| - 1];
      match op
      case PutOp(k, v) => m[k := v]
      case GetOp(_) => m
      case DeleteOp(k) => m - {k}
  }

  /** How many deletions hit a cached key; none of them is counted in `size`. */
  function Deletions<V>(ops: seq<Op<V>>): nat {
    if ops == [] then 0
    else
      var last := ops[|ops| - 1];
      Deletions(ops[..|ops| - 1]) + if last.DeleteOp? && last.k in Recency(ops[..|ops| - 1]) then 1 else 0
  }

  /** List, dictionary and values agree with the reference sequence `ks` and the reference map `m`. */
  ghost predicate Agrees<T, V>(s: Lru<T, V>, xs: seq<T>, ks: seq<string>, m: map<string, V>) {
    && IsList(s, xs) && Keyed(s, xs, ks)
    && (forall k :: k in s.dict ==> k in ks)
    && m.Keys == s.dict.Keys
    && (forall k :: k in s.dict ==> s.dict[k] in s.val && s.val[s.dict[k]] == m[k])
  }

  lemma {:induction false} RemoveAt(ks: seq<string>, i: nat)
    requires i < |ks| && Distinct(ks)
    ensures Remove(ks, ks[i]) == Without(ks, i)
  {
    if i > 0 {
      RemoveAt(ks[1..], i - 1);
      assert [ks[0]] + Without(ks[1..], i - 1) == Without(ks, i);
    }
  }

  lemma {:induction false} RemoveAbsent(ks: seq<string>, k: string)
    requires k !in ks
    ensures Remove(ks, k) == ks
  {
    if ks != [] {
      RemoveAbsent(ks[1..], k);
    }
  }

  lemma WithoutMembers<T>(xs: seq<T>, i: nat)
    requires i < |xs| && Distinct(xs)
    ensures forall x :: x in Without(xs, i) <==> x in xs && x != xs[i]
    ensures Distinct(Without(xs, i))
  {
    var ys := Without(xs, i);
    assert forall j :: 0 <= j < |ys| ==> ys[j] == if j < i then xs[j] else xs[j + 1];
    forall x | x in xs && x != xs[i] ensures x in ys {
      var j :| 0 <= j < |xs| && xs[j] == x;
      assert ys[if j < i then j else j - 1] == x;
    }
  }

  /** The list position of a cached key, and what removing it does to both sequences. */
  lemma Locate<T, V>(s: Lru<T, V>, xs: seq<T>, ks: seq<string>, k: string) returns (i: nat)
    requires Distinct(Chain(s, xs)) && Keyed(s, xs, ks) && k in ks
    ensures i < |xs| && s.dict[k] == xs[i] && ks[i] == k
    ensures Distinct(ks) && Remove(ks, k) == Without(ks, i)
    ensures forall x :: x in Without(xs, i) <==> x in xs && x != xs[i]
    ensures forall x :: x in Without(ks, i) <==> x in ks && x != k
  {
    i :| 0 <= i < |xs| && ks[i] == k;
    var c := Chain(s, xs);
    assert forall j :: 0 <= j < |xs| ==> xs[j] == c[j + 1];
    assert Distinct(ks) by {
      forall a, b | 0 <= a < b < |ks| ensures ks[a] != ks[b] {
        assert xs[a] != xs[b];
      }
    }
    WithoutMembers(xs, i);
    WithoutMembers(ks, i);
    RemoveAt(ks, i);
  }

  lemma UnlinkAgreed<T, V>(s: Lru<T, V>, xs: seq<T>, ks: seq<string>, i: nat)
    requires IsList(s, xs) && Keyed(s, xs, ks) && i < |xs|
    ensures IsList(Unlink(s, xs[i]), Without(xs, i)) && Keyed(Unlink(s, xs[i]), Without(xs, i), Without(ks, i))
  {
    UnlinkListed(s, xs, i);
    var ys, ls := Without(xs, i), Without(ks, i);
    assert forall j :: 0 <= j < |ys| ==> ys[j] == if j < i then xs[j] else xs[j + 1];
    assert forall j :: 0 <= j < |ls| ==> ls[j] == if j < i then ks[j] else ks[j + 1];
  }

  lemma MoveToHead<T, V>(s: Lru<T, V>, xs: seq<T>, ks: seq<string>, i: nat)
    requires IsList(s, xs) && Keyed(s, xs, ks) && i < |xs|
    ensures var r := LinkAtHead(Unlink(s, xs[i]), xs[i]);
            IsList(r, [xs[i]] + Without(xs, i)) && Keyed(r, [xs[i]] + Without(xs, i), [ks[i]] + Without(ks, i))
  {
    UnlinkAgreed(s, xs, ks, i);
    var u, c, w := Unlink(s, xs[i]), Chain(s, xs), Without(xs, i);
    assert Chain(u, w) == Without(c, i + 1) && c[i + 1] == xs[i];
    WithoutMembers(c, i + 1);
    LinkUnlisted(u, w, xs[i]);
  }

  /** The list depends on the pointer fields only. */
  lemma ListFrame<T, V>(s: Lru<T, V>, r: Lru<T, V>, xs: seq<T>)
    requires Forward(s, xs)
    requires r.next == s.next && r.prev == s.prev && r.head == s.head && r.tail == s.tail
    ensures Forward(r, xs) && Prev(r, r.tail) == Prev(s, s.tail) && Last(r, xs) == Last(s, xs)
  {
    assert Chain(r, xs) == Chain(s, xs);
  }

  lemma DeleteKeyed<T, V>(s: Lru<T, V>, xs: seq<T>, ks: seq<string>, i: nat)
    requires IsList(s, xs) && Keyed(s, xs, ks) && i < |xs| && Distinct(ks)
    ensures var r := Delete(s, ks[i]); IsList(r, Without(xs, i)) && Keyed(r, Without(xs, i), Without(ks, i))
  {
    var u, r, ys, ls := Unlink(s, xs[i]), Delete(s, ks[i]), Without(xs, i), Without(ks, i);
    UnlinkAgreed(s, xs, ks, i);
    ListFrame(u, r, ys);
    forall j | 0 <= j < |ls| ensures ls[j] != ks[i] {
      assert ls[j] == if j < i then ks[j] else ks[j + 1];
    }
  }

  lemma DeleteAgrees<T, V>(s: Lru<T, V>, xs: seq<T>, ks: seq<string>, m: map<string, V>, k: string)
      returns (ys: seq<T>)
    requires Agrees(s, xs, ks, m) && k in ks
    ensures Agrees(Delete(s, k), ys, Remove(ks, k), m - {k})
    ensures |ys| == |xs| - 1 && forall y :: y in ys ==> y in xs
    ensures Delete(s, k).size == s.size
  {
    var i := Locate(s, xs, ks, k);
    DeleteKeyed(s, xs, ks, i);
    ys := Without(xs, i);
    assert Delete(s, k).dict == s.dict - {k} && Delete(s, k).val == s.val;
  }

  /** Get of a cached key, and Put of a cached key once the value is written. */
  lemma TouchAgrees<T, V>(s: Lru<T, V>, xs: seq<T>, ks: seq<string>, m: map<string, V>, k: string)
      returns (ys: seq<T>)
    requires Agrees(s, xs, ks, m) && k in ks
    ensures Agrees(Get(s, k), ys, [k] + Remove(ks, k), m)
    ensures |ys| == |xs| && forall y :: y in ys ==> y in xs
    ensures Get(s, k).size == s.size
  {
    var i := Locate(s, xs, ks, k);
    MoveToHead(s, xs, ks, i);
    ys := [xs[i]] + Without(xs, i);
  }

  lemma NodesOfKeys<T, V>(s: Lru<T, V>, xs: seq<T>, ks: seq<string>, a: string, b: string)
    requires Distinct(Chain(s, xs)) && Keyed(s, xs, ks) && a in ks && b in ks && a != b
    ensures s.dict[a] != s.dict[b] && s.dict[a] in Chain(s, xs)
  {
    var i :| 0 <= i < |ks| && ks[i] == a;
    var j :| 0 <= j < |ks| && ks[j] == b;
    var c := Chain(s, xs);
    assert xs[i] == c[i + 1] && xs[j] == c[j + 1];
  }

  lemma SetValueAgrees<T, V>(s: Lru<T, V>, xs: seq<T>, ks: seq<string>, m: map<string, V>, k: string, v: V)
    requires Agrees(s, xs, ks, m) && k in s.dict
    ensures Agrees(s.(val := s.val[s.dict[k] := v]), xs, ks, m[k := v])
  {
    var r := s.(val := s.val[s.dict[k] := v]);
    ListFrame(s, r, xs);
    forall q | q in r.dict ensures r.dict[q] in r.val && r.val[r.dict[q]] == m[k := v][q] {
      if q != k {
        NodesOfKeys(s, xs, ks, q, k);
      }
    }
  }

  lemma InsertKeyed<T, V>(s: Lru<T, V>, xs: seq<T>, ks: seq<string>, k: string, v: V, n: T)
    requires IsList(s, xs) && Keyed(s, xs, ks) && k !in s.dict && n !in Chain(s, xs)
    ensures IsList(Put(s, k, v, n), [n] + xs) && Keyed(Put(s, k, v, n), [n] + xs, [k] + ks)
  {
    var s1 := s.(key := s.key[n := k], val := s.val[n := v], size := s.size + 1);
    var r, ys, ls := Put(s, k, v, n), [n] + xs, [k] + ks;
    ListFrame(s, s1, xs);
    LinkUnlisted(s1, xs, n);
    ListFrame(LinkAtHead(s1, n), r, ys);
    forall i | 0 <= i < |ys|
      ensures ys[i] in r.key && r.key[ys[i]] == ls[i] && ls[i] in r.dict && r.dict[ls[i]] == ys[i]
    {
      if i > 0 {
        assert ys[i] == xs[i - 1] == Chain(s, xs)[i] && ls[i] == ks[i - 1];
      }
    }
  }

  lemma InsertAgrees<T, V>(
      s: Lru<T, V>, xs: seq<T>, ks: seq<string>, m: map<string, V>, k: string, v: V, n: T)
    requires Agrees(s, xs, ks, m) && k !in s.dict && n !in Chain(s, xs)
    ensures Agrees(Put(s, k, v, n), [n] + xs, [k] + ks, m[k := v])
    ensures Put(s, k, v, n).size == s.size + 1
  {
    InsertKeyed(s, xs, ks, k, v, n);
    var r := Put(s, k, v, n);
    forall q | q in r.dict
      ensures q in [k] + ks && r.dict[q] in r.val && r.val[r.dict[q]] == m[k := v][q]
    {
      if q != k {
        var i :| 0 <= i < |ks| && ks[i] == q;
        assert ([k] + ks)[i + 1] == q;
        assert s.dict[q] == xs[i] == Chain(s, xs)[i + 1];
      }
    }
  }

  lemma KeysAreCached<T, V>(s: Lru<T, V>, xs: seq<T>, ks: seq<string>, m: map<string, V>, k: string)
    requires Agrees(s, xs, ks, m)
    ensures k in ks <==> k in s.dict
  {
    if k in ks {
      var i :| 0 <= i < |ks| && ks[i] == k;
    }
  }

  lemma StepAgrees<T, V>(s: Lru<T, V>, xs: seq<T>, ops: seq<Op<V>>, op: Op<V>, n: T) returns (ys: seq<T>)
    requires Agrees(s, xs, Recency(ops), Store(ops)) && s.size == |xs| + Deletions(ops) && n !in Chain(s, xs)
    ensures Agrees(Apply(s, op, n), ys, Recency(ops + [op]), Store(ops + [op]))
    ensures forall y :: y in ys ==> y in xs || y == n
    ensures Apply(s, op, n).head == s.head && Apply(s, op, n).tail == s.tail
    ensures Apply(s, op, n).size == |ys| + Deletions(ops + [op])
  {
    assert (ops + [op])[..|ops|] == ops;
    var ks, m, k := Recency(ops), Store(ops), op.k;
    KeysAreCached(s, xs, ks, m, k);
    if k !in ks {
      RemoveAbsent(ks, k);
    }
    if k in ks && op.DeleteOp? {
      ys := DeleteAgrees(s, xs, ks, m, k);
    } else if k in ks && op.GetOp? {
      ys := TouchAgrees(s, xs, ks, m, k);
    } else if k in ks {
      SetValueAgrees(s, xs, ks, m, k, op.v);
      ys := TouchAgrees(s.(val := s.val[s.dict[k] := op.v]), xs, ks, m[k := op.v], k);
    } else if op.PutOp? {
      InsertAgrees(s, xs, ks, m, k, op.v, n);
      ys := [n] + xs;
    } else {
      ys := xs;
      assert op.DeleteOp? ==> m - {k} == m;
    }
  }

  lemma FreshNode<T>(head: T, tail: T, ns: seq<T>, k: nat)
    requires Distinct([head, tail] + ns) && k < |ns|
    ensures Distinct([head, tail] + ns[..k])
    ensures ns[k] != head && ns[k] != tail && ns[k] !in ns[..k]
  {
    var all := [head, tail] + ns;
    assert forall j :: 0 <= j < k + 2 ==> ([head, tail] + ns[..k])[j] == all[j];
    assert all[0] == head && all[1] == tail && all[k + 2] == ns[k];
    assert forall j :: 0 <= j < k ==> all[j + 2] == ns[j];
  }

  /** Over every sequence of Put, Get and DeleteFromCache from a new cache: the list is well formed, its keys
      are the reference recency sequence, the dictionary holds exactly these keys with the values last put,
      and `size` exceeds the length by the number of deletions that hit. */
  lemma {:induction false} RunRefinesRecency<T, V>(head: T, tail: T, ops: seq<Op<V>>, ns: seq<T>)
      returns (xs: seq<T>)
    requires |ns| == |ops| && Distinct([head, tail] + ns)
    ensures var s := Run(Fresh(head, tail), ops, ns);
            && Agrees(s, xs, Recency(ops), Store(ops))
            && s.head == head && s.tail == tail
            && s.size == |xs| + Deletions(ops)
    ensures forall x :: x in xs ==> x in ns
    decreases |ops|
  {
    var s0: Lru<T, V> := Fresh(head, tail);
    assert ([head, tail] + ns)[0] != ([head, tail] + ns)[1];
    if ops == [] {
      xs := [];
    } else {
      var k := |ops| - 1;
      FreshNode(head, tail, ns, k);
      var ys := RunRefinesRecency(head, tail, ops[..k], ns[..k]);
      var s := Run(s0, ops[..k], ns[..k]);
      assert ops[..k] + [ops[k]] == ops;
      ChainMembers(s, ys, ns[k]);
      xs := StepAgrees(s, ys, ops[..k], ops[k], ns[k]);
    }
  }

  /** The position in the run of the last operation that names the key, -1 if there is none. */
  function LastUse<V>(ops: seq<Op<V>>, k: string): (i: int)
    ensures -1 <= i < |ops|
    ensures i >= 0 ==> ops[i].k == k
    ensures forall j :: i < j < |ops| ==> ops[j].k != k
  {
    if ops == [] then -1
    else if ops[|ops| - 1].k == k then |ops| - 1
    else LastUse(ops[..|ops| - 1], k)
  }

  ghost predicate SortedByUse<V>(ops: seq<Op<V>>, ks: seq<string>) {
    forall i, j :: 0 <= i < j < |ks| ==> LastUse(ops, ks[i]) > LastUse(ops, ks[j])
  }

  lemma LaterUse<V>(ops: seq<Op<V>>, op: Op<V>, ks: seq<string>)
    requires SortedByUse(ops, ks) && op.k !in ks
    ensures SortedByUse(ops + [op], ks) && SortedByUse(ops + [op], [op.k] + ks)
  {
    assert (ops + [op])[..|ops|] == ops;
    assert forall i :: 0 <= i < |ks| ==> LastUse(ops + [op], ks[i]) == LastUse(ops, ks[i]);
  }

  lemma SortedDistinct<V>(ops: seq<Op<V>>, ks: seq<string>)
    requires SortedByUse(ops, ks)
    ensures Distinct(ks)
  {
    forall i, j | 0 <= i < j < |ks| ensures ks[i] != ks[j] {
      assert LastUse(ops, ks[i]) > LastUse(ops, ks[j]);
    }
  }

  lemma WithoutSorted<V>(ops: seq<Op<V>>, ks: seq<string>, p: nat)
    requires SortedByUse(ops, ks) && p < |ks|
    ensures SortedByUse(ops, Without(ks, p))
  {
    var w := Without(ks, p);
    forall i, j | 0 <= i < j < |w| ensures LastUse(ops, w[i]) > LastUse(ops, w[j]) {
      var a, b := if i < p then i else i + 1, if j < p then j else j + 1;
      assert w[i] == ks[a] && w[j] == ks[b];
    }
  }

  lemma RemoveSorted<V>(ops: seq<Op<V>>, ks: seq<string>, k: string)
    requires SortedByUse(ops, ks)
    ensures SortedByUse(ops, Remove(ks, k)) && k !in Remove(ks, k)
    ensures forall q :: q in Remove(ks, k) <==> q in ks && q != k
  {
    SortedDistinct(ops, ks);
    if k in ks {
      var p :| 0 <= p < |ks| && ks[p] == k;
      RemoveAt(ks, p);
      WithoutMembers(ks, p);
      WithoutSorted(ops, ks, p);
    } else {
      RemoveAbsent(ks, k);
    }
  }

  /** In the recency sequence, earlier means used later; so the tail key is the least recently used one. */
  lemma {:induction false} RecencySorted<V>(ops: seq<Op<V>>)
    ensures SortedByUse(ops, Recency(ops))
    ensures forall k :: k in Recency(ops) <==> k in Store(ops)
    decreases |ops|
  {
    if ops != [] {
      var n := |ops| - 1;
      var init, op := ops[..n], ops[n];
      var ks := Recency(init);
      RecencySorted(init);
      assert init + [op] == ops;
      RemoveSorted(init, ks, op.k);
      LaterUse(init, op, Remove(ks, op.k));
      if op.k !in ks {
        RemoveAbsent(ks, op.k);
      }
    }
  }

  lemma LeastRecentKey<V>(ops: seq<Op<V>>, ks: seq<string>, z: string)
    requires SortedByUse(ops, ks) && ks != [] && z == ks[|ks| - 1]
    ensures forall k :: k in ks && k != z ==> LastUse(ops, z) < LastUse(ops, k)
  {
    forall k | k in ks && k != z ensures LastUse(ops, z) < LastUse(ops, k) {
      var i :| 0 <= i < |ks| && ks[i] == k;
    }
  }

  /** After any run from a new cache, the node before the tail carries the key whose last use is oldest. */
  lemma TailIsLeastRecentlyUsed<T, V>(head: T, tail: T, ops: seq<Op<V>>, ns: seq<T>)
    requires |ns| == |ops| && Distinct([head, tail] + ns) && Store(ops) != map[]
    ensures var s := Run(Fresh(head, tail), ops, ns);
            var last := Prev(s, s.tail);
            && last in s.key && s.key[last] in Store(ops)
            && forall k :: k in Store(ops) && k != s.key[last] ==> LastUse(ops, s.key[last]) < LastUse(ops, k)
  {
    var xs := RunRefinesRecency(head, tail, ops, ns);
    var s, ks, m := Run(Fresh(head, tail), ops, ns), Recency(ops), Store(ops);
    RecencySorted(ops);
    SomeKey(m, ks);
    TailKey(s, xs, ks, m);
    LeastRecentKey(ops, ks, ks[|ks| - 1]);
  }

  lemma SomeKey<V>(m: map<string, V>, ks: seq<string>)
    requires m != map[] && forall k :: k in ks <==> k in m
    ensures ks != [] && ks[|ks| - 1] in m
  {
    assert m.Keys != {};
    var q :| q in m.Keys;
    assert q in ks;
    assert ks[|ks| - 1] in ks;
  }

  lemma TailKey<T, V>(s: Lru<T, V>, xs: seq<T>, ks: seq<string>, m: map<string, V>)
    requires Agrees(s, xs, ks, m) && ks != []
    ensures Prev(s, s.tail) in s.key && s.key[Prev(s, s.tail)] == ks[|ks| - 1]
  {
    assert Prev(s, s.tail) == xs[|xs| - 1];
  }
}
