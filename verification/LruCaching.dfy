/** The LRU cache on the heap: nodes with mutable pointers, a dictionary and two sentinels. Every method is one
    atomic step and performs exactly the pointer writes of its counterpart in `LruSpec`. */
module LruCaching {
  import opened Bytes
  import opened LruSpec

  class Node<V> {
    const key: string
    var value: Option<V>
    var prev: Node?<V>
    var next: Node?<V>

    constructor (key: string, value: Option<V>)
      ensures this.key == key && this.value == value
    {
      this.key := key;
      this.value := value;
      prev := null;
      next := null;
    }
  }

  lemma UnlinkExactly<T, V>(s: Lru<T, V>, n: T, p: T, q: T)
    requires n in s.next && n in s.prev && s.prev[n] == p && s.next[n] == q
    ensures Unlink(s, n) == s.(next := s.next[p := q], prev := s.prev[q := p])
  {
  }

  lemma LinkExactly<T, V>(s: Lru<T, V>, n: T, f: T)
    requires s.head in s.next && s.next[s.head] == f && n != s.head
    ensures LinkAtHead(s, n) == s.(next := s.next[n := f][s.head := n], prev := s.prev[f := n][n := s.head])
  {
  }

  lemma PutExactly<T, V>(s: Lru<T, V>, k: string, v: V, n: T)
    requires k !in s.dict
    ensures var l := LinkAtHead(s, n);
            LruSpec.Put(s, k, v, n)
            == Lru(l.next, l.prev, s.key[n := k], s.val[n := v], s.dict[k := n], s.size + 1, s.head, s.tail)
  {
  }

  class LruCache<V> {
    var dict: map<string, Node<V>>
    var head: Node<V>
    var tail: Node<V>
    var size: int
    /** Every node ever linked, evicted and purged ones included. */
    ghost var nodes: set<Node<V>>
    /** The fields of all these nodes, as maps. */
    ghost var nextOf: map<Node<V>, Node<V>>
    ghost var prevOf: map<Node<V>, Node<V>>
    ghost var keyOf: map<Node<V>, string>
    ghost var valOf: map<Node<V>, Option<V>>

    ghost predicate Linked(n: Node<V>)
      reads this`nodes, this`nextOf, this`prevOf, n`next, n`prev
    {
      && n.next != null && n.next in nodes && n in nextOf && nextOf[n] == n.next
      && n.prev != null && n.prev in nodes && n in prevOf && prevOf[n] == n.prev
    }

    ghost predicate Cached(k: string, n: Node<V>)
      reads this`nodes, this`head, this`tail, this`keyOf, this`valOf, n`value
    {
      && n in nodes && n != head && n != tail && n.key == k && n.value.Some?
      && n in keyOf && keyOf[n] == k && n in valOf && valOf[n] == n.value
    }

    ghost predicate Links()
      reads this`nodes, this`nextOf, this`prevOf, this`head, this`tail, nodes`next, nodes`prev
    {
      && head in nodes && tail in nodes && head != tail
      && (forall n {:trigger Linked(n)} :: n in nodes ==> Linked(n))
    }

    ghost predicate Entries()
      reads this, nodes
    {
      forall k {:trigger dict[k]} :: k in dict ==> dict[k] in nodes && Cached(k, dict[k])
    }

    ghost predicate Valid()
      reads this, nodes
    {
      Links() && Entries()
    }

    /** The heap as a value of the specification. */
    ghost function State(): Lru<Node<V>, Option<V>>
      reads this
    {
      Lru(nextOf, prevOf, keyOf, valOf, dict, size, head, tail)
    }

    constructor New()
      ensures Valid() && fresh(nodes)
      ensures State() == Fresh(head, tail)
    {
      var h := new Node<V>("", None);
      var t := new Node<V>("", None);
      h.next := t;
      h.prev := t;
      t.next := h;
      t.prev := h;
      head := h;
      tail := t;
      size := 0;
      dict := map[];
      nodes := {h, t};
      nextOf, prevOf := map[h := t, t := h], map[h := t, t := h];
      keyOf, valOf := map[], map[];
    }

    method DeleteNode(node: Node<V>)
      requires Links() && node in nodes
      modifies nodes`next, nodes`prev, this`nextOf, this`prevOf
      ensures Links() && State() == Unlink(old(State()), node)
    {
      assert Linked(node);
      ghost var p: Node<V>, q: Node<V> := node.prev, node.next;
      UnlinkExactly(State(), node, p, q);
      node.prev.next := node.next;
      node.next.prev := node.prev;
      nextOf, prevOf := nextOf[p := q], prevOf[q := p];
      forall n {:trigger Linked(n)} | n in nodes ensures Linked(n) {
        assert old(Linked(n));
      }
    }

    /** `node` may be new: its own two pointers are written here. */
    method AddToHead(node: Node<V>)
      requires Links() && node != head
      modifies nodes`next, nodes`prev, node`next, node`prev, this`nodes, this`nextOf, this`prevOf
      ensures Links() && nodes == old(nodes) + {node}
      ensures State() == LinkAtHead(old(State()), node)
    {
      assert Linked(head);
      ghost var f: Node<V> := head.next;
      LinkExactly(State(), node, f);
      node.next := head.next;
      head.next.prev := node;
      head.next := node;
      node.prev := head;
      nodes := nodes + {node};
      nextOf, prevOf := nextOf[node := f][head := node], prevOf[f := node][node := head];
      forall n {:trigger Linked(n)} | n in nodes ensures Linked(n) {
        assert n != node ==> old(Linked(n));
      }
    }

    method MoveToHead(node: Node<V>)
      requires Links() && node in nodes && node != head
      modifies nodes`next, nodes`prev, this`nodes, this`nextOf, this`prevOf
      ensures Links() && nodes == old(nodes)
      ensures State() == LinkAtHead(Unlink(old(State()), node), node)
    {
      DeleteNode(node);
      AddToHead(node);
    }

    method Get(key: string) returns (r: Option<V>)
      requires Valid()
      modifies nodes`next, nodes`prev, this`nodes, this`nextOf, this`prevOf
      ensures Valid() && nodes == old(nodes)
      ensures State() == LruSpec.Get(old(State()), key)
      ensures r == if key in dict then dict[key].value else None
    {
      if key in dict {
        assert Cached(key, dict[key]);
        MoveToHead(dict[key]);
        return dict[key].value;
      }
      r := None;
    }

    /** The result is the node that holds the key afterwards, a new one when the key is new. */
    method Put(key: string, value: V) returns (ghost n: Node<V>)
      requires Valid()
      modifies nodes, this
      ensures Valid()
      ensures key !in old(dict) ==> fresh(n)
      ensures nodes == if key in old(dict) then old(nodes) else old(nodes) + {n}
      ensures State() == LruSpec.Put(old(State()), key, Some(value), n)
    {
      if key in dict {
        assert Cached(key, dict[key]);
        n := dict[key];
        SetValue(key, value);
        MoveToHead(dict[key]);
      } else {
        var node := new Node<V>(key, Some(value));
        n := node;
        PutExactly(State(), key, Some(value), n);
        Insert(node);
      }
    }

    method SetValue(key: string, value: V)
      requires Valid() && key in dict
      modifies nodes`value, this`valOf
      ensures Valid() && State() == old(State()).(val := old(valOf)[dict[key] := Some(value)])
    {
      assert Cached(key, dict[key]);
      dict[key].value := Some(value);
      valOf := valOf[dict[key] := Some(value)];
    }

    method Insert(node: Node<V>)
      requires Valid() && node.key !in dict && node !in nodes && node.value.Some?
      modifies nodes`next, nodes`prev, node`next, node`prev
      modifies this`nodes, this`nextOf, this`prevOf, this`keyOf, this`valOf, this`size, this`dict
      ensures Valid() && nodes == old(nodes) + {node}
      ensures var l := LinkAtHead(old(State()), node);
              State() == Lru(l.next, l.prev, old(keyOf)[node := node.key], old(valOf)[node := node.value],
                             old(dict)[node.key := node], old(size) + 1, head, tail)
    {
      size := size + 1;
      AddToHead(node);
      Register(node);
    }

    method Register(node: Node<V>)
      requires Links() && node.key !in dict && node in nodes && node != head && node != tail && node.value.Some?
      requires forall k {:trigger dict[k]} :: k in dict ==> dict[k] != node && dict[k] in nodes && Cached(k, dict[k])
      modifies this`keyOf, this`valOf, this`dict
      ensures Valid()
      ensures keyOf == old(keyOf)[node := node.key] && valOf == old(valOf)[node := node.value]
      ensures dict == old(dict)[node.key := node]
    {
      keyOf, valOf := keyOf[node := node.key], valOf[node := node.value];
      dict := dict[node.key := node];
    }

    /** Unlinks the node before the tail and leaves it in the dictionary, with its pointers stale. `removeTail`
        performs the same writes. */
    method GetCurTailNameForEvict() returns (name: string)
      requires Valid()
      modifies nodes`next, nodes`prev, this`size, this`nextOf, this`prevOf
      ensures Valid() && State() == Evict(old(State()))
      ensures Prev(old(State()), tail).key == name
    {
      assert Linked(tail);
      name := tail.prev.key;
      var node := tail.prev;
      DeleteNode(node);
      size := size - 1;
    }

    /** Unlinks the node, for the second time if it was evicted, and drops its key. `size` stays. */
    method DeleteFromCache(key: string)
      requires Valid()
      modifies nodes`next, nodes`prev, this`dict, this`nextOf, this`prevOf
      ensures Valid() && State() == Delete(old(State()), key)
    {
      if key in dict {
        var node := dict[key];
        assert Cached(key, node);
        DeleteNode(node);
        dict := dict - {node.key};
      }
    }
  }

  /** `PhyBH.GetTailNameForEvict`: the tail of the closed triplets, or of the large ones when no closed one is left to
      evict. Exactly one of the two lists loses its tail, unless both are empty. */
  method GetTailNameForEvict<V>(closed: LruCache<V>, large: LruCache<V>) returns (name: Option<string>)
    requires closed.Valid() && large.Valid() && closed != large && closed.nodes !! large.nodes
    modifies closed.nodes`next, closed.nodes`prev, closed`size, closed`nextOf, closed`prevOf
    modifies large.nodes`next, large.nodes`prev, large`size, large`nextOf, large`prevOf
    ensures closed.Valid() && large.Valid()
    ensures closed.State() == if old(closed.size) > 0 then Evict(old(closed.State())) else old(closed.State())
    ensures large.State() ==
            if old(closed.size) <= 0 && old(large.size) > 0 then Evict(old(large.State())) else old(large.State())
    ensures name == if old(closed.size) > 0 then Some(Prev(old(closed.State()), closed.tail).key)
                    else if old(large.size) > 0 then Some(Prev(old(large.State()), large.tail).key)
                    else None
  {
    if closed.size > 0 {
      var tail := closed.GetCurTailNameForEvict();
      return Some(tail);
    } else if large.size > 0 {
      var tail := large.GetCurTailNameForEvict();
      return Some(tail);
    }
    return None;
  }
}
