/** The list of byte ranges of a file: the collision test, the insertion behind a dummy element, full coverage. */
module RangeList {
  import opened Bytes

  /** Start and End are int32 in the source and are only compared. */
  datatype RangeCode = RangeCode(Start: int, End: int, Token: string)

  const DUMMY := RangeCode(-1, -1, "")

  predicate Proper(r: RangeCode) {
    r.Start <= r.End
  }

  /** Ranges in order, none beginning before the one ahead of it ends. */
  predicate SortedDisjoint(l: seq<RangeCode>) {
    && (forall i :: 0 <= i < |l| ==> Proper(l[i]))
    && (forall i, j :: 0 <= i < j < |l| ==> l[i].End <= l[j].Start)
  }

  predicate Apart(h: RangeCode, r: RangeCode) {
    h.Start >= r.End || h.End <= r.Start
  }

  predicate Collides(l: seq<RangeCode>, r: RangeCode) {
    exists i :: 0 <= i < |l| && !Apart(l[i], r)
  }

  predicate Covers(r: RangeCode, x: int) {
    r.Start <= x < r.End
  }

  predicate Covered(l: seq<RangeCode>, x: int) {
    exists i :: 0 <= i < |l| && Covers(l[i], x)
  }

  /** How many elements stay in front of an inserted range: all up to the last one that ends by its start. */
  function Place(l: seq<RangeCode>, r: RangeCode): (k: nat)
    ensures k <= |l|
    ensures k > 0 ==> l[k - 1].End <= r.Start
    ensures forall i :: k <= i < |l| ==> l[i].End > r.Start
  {
    if l == [] then 0
    else if l[|l| - 1].End <= r.Start then |l|
    else Place(l[..|l| - 1], r)
  }

  /** Two ranges share no byte exactly when the test calls them apart, provided neither is empty. */
  lemma ApartIsDisjoint(h: RangeCode, r: RangeCode)
    requires h.Start < h.End && r.Start < r.End
    ensures Apart(h, r) <==> forall x: int :: !(Covers(h, x) && Covers(r, x))
  {
    if !Apart(h, r) {
      var x := if h.Start <= r.Start then r.Start else h.Start;
      assert Covers(h, x) && Covers(r, x);
    }
  }

  function Inserted(l: seq<RangeCode>, r: RangeCode): seq<RangeCode> {
    l[..Place(l, r)] + [r] + l[Place(l, r)..]
  }

  /** Everything in `a` ends by the start of everything in `b`. */
  predicate Precedes(a: seq<RangeCode>, b: seq<RangeCode>) {
    forall i, j :: 0 <= i < |a| && 0 <= j < |b| ==> a[i].End <= b[j].Start
  }

  lemma SortedConcat(a: seq<RangeCode>, b: seq<RangeCode>)
    ensures SortedDisjoint(a + b) <==> SortedDisjoint(a) && SortedDisjoint(b) && Precedes(a, b)
  {
    var m := a + b;
    assert forall i :: 0 <= i < |a| ==> m[i] == a[i];
    assert forall j :: 0 <= j < |b| ==> m[|a| + j] == b[j];
  }

  lemma EndsBefore(l: seq<RangeCode>, start: int, k: nat, i: nat)
    requires SortedDisjoint(l) && i <= k < |l| && l[k].End <= start
    ensures l[i].End <= start
  {
    assert Proper(l[k]);
    assert i < k ==> l[i].End <= l[k].Start;
  }

  /** Everything in front of the place of `r` ends by its start. */
  lemma BeforePlace(l: seq<RangeCode>, r: RangeCode)
    requires SortedDisjoint(l)
    ensures Precedes(l[..Place(l, r)], [r])
  {
    hide SortedDisjoint, Place;
    forall i | 0 <= i < Place(l, r)
      ensures l[i].End <= r.Start
    {
      EndsBefore(l, r.Start, Place(l, r) - 1, i);
    }
  }

  /** What follows starts behind `r` exactly when nothing collides. */
  lemma AfterPlace(l: seq<RangeCode>, r: RangeCode)
    requires SortedDisjoint(l)
    ensures Precedes([r], l[Place(l, r)..]) <==> !Collides(l, r)
  {
    hide SortedDisjoint, Place;
    var k := Place(l, r);
    var b := l[k..];
    if Collides(l, r) {
      var i :| 0 <= i < |l| && !Apart(l[i], r);
      if i < k {
        EndsBefore(l, r.Start, Place(l, r) - 1, i);
      }
      assert b[i - k] == l[i] && [r][0].End > b[i - k].Start;
    } else {
      forall j | 0 <= j < |b|
        ensures r.End <= b[j].Start
      {
        assert Apart(l[k + j], r) && b[j] == l[k + j];
      }
    }
  }

  /** Insertion keeps the list sorted and disjoint exactly when the collision test passes. */
  lemma InsertKeepsOrder(l: seq<RangeCode>, r: RangeCode)
    requires SortedDisjoint(l) && Proper(r)
    ensures SortedDisjoint(Inserted(l, r)) <==> !Collides(l, r)
  {
    hide SortedDisjoint, Precedes, Place, Collides;
    var a, b := l[..Place(l, r)], l[Place(l, r)..];
    BeforePlace(l, r);
    AfterPlace(l, r);
    assert a + b == l && a + ([r] + b) == a + [r] + b;
    SortedConcat(a, b);
    SortedConcat([r], b);
    SortedConcat(a, [r] + b);
    PrecedesJoin(a, r, b);
    SortedOne(r);
  }

  lemma SortedOne(r: RangeCode)
    ensures SortedDisjoint([r]) <==> Proper(r)
  {
    assert [r][0] == r;
  }

  lemma PrecedesJoin(a: seq<RangeCode>, r: RangeCode, b: seq<RangeCode>)
    ensures Precedes(a, [r] + b) <==> Precedes(a, [r]) && Precedes(a, b)
  {
    var m := [r] + b;
    assert m[0] == r == [r][0];
    assert forall j :: 0 <= j < |b| ==> m[j + 1] == b[j];
  }

  /** Every neighbour begins where the one before it ends. */
  predicate Adjacent(l: seq<RangeCode>) {
    forall i :: 0 <= i < |l| - 1 ==> l[i].End == l[i + 1].Start
  }

  lemma {:induction false} AdjacentCovers(l: seq<RangeCode>, x: int)
    requires l != [] && Adjacent(l) && l[0].Start <= x < l[|l| - 1].End
    ensures Covered(l, x)
  {
    var n := |l| - 1;
    if l[n].Start <= x {
      assert Covers(l[n], x);
    } else {
      AdjacentCovers(l[..n], x);
      var i :| 0 <= i < n && Covers(l[..n][i], x);
      assert Covers(l[i], x);
    }
  }

  /** On a sorted disjoint list, neighbours fit exactly when every byte between the two ends is covered. */
  lemma FullCoverage(l: seq<RangeCode>)
    requires l != [] && SortedDisjoint(l)
    ensures Adjacent(l) <==> forall x :: l[0].Start <= x < l[|l| - 1].End ==> Covered(l, x)
  {
    if Adjacent(l) {
      forall x | l[0].Start <= x < l[|l| - 1].End
        ensures Covered(l, x)
      {
        AdjacentCovers(l, x);
      }
    } else {
      var i :| 0 <= i < |l| - 1 && l[i].End != l[i + 1].Start;
      var x := l[i].End;
      assert Proper(l[0]) && Proper(l[i]) && Proper(l[|l| - 1]);
      assert l[0].Start <= x < l[|l| - 1].End;
      forall j | 0 <= j < |l|
        ensures !Covers(l[j], x)
      {
        assert Proper(l[i + 1]);
        if j > i + 1 {
          assert l[i + 1].End <= l[j].Start;
        } else if j < i {
          assert l[j].End <= l[i].Start;
        }
      }
      assert !Covered(l, x);
    }
  }

  /** `container/list` as it is used here. */
  class RangeCodeList {
    var codes: seq<RangeCode>

    constructor ()
      ensures codes == []
    {
      codes := [];
    }

    method IsRangeCollision(rngCode: RangeCode) returns (r: bool)
      ensures r <==> Collides(codes, rngCode)
      ensures r <==> exists h :: h in codes && h.Start < rngCode.End && rngCode.Start < h.End
    {
      var h := 0;
      while h < |codes|
        invariant 0 <= h <= |codes|
        invariant forall i :: 0 <= i < h ==> Apart(codes[i], rngCode)
      {
        if codes[h].Start >= rngCode.End || codes[h].End <= rngCode.Start {
          h := h + 1;
          continue;
        }
        assert !Apart(codes[h], rngCode);
        return true;
      }
      r := false;
    }

    /** The empty list has no front element, and asking that for the next one is a nil dereference. */
    method IsRangeFullCoverage() returns (r: Outcome<bool>)
      ensures codes == [] ==> r == Crash
      ensures codes != [] ==> r == Ok(Adjacent(codes))
      ensures r == Ok(true) <==> codes != [] && forall i :: 0 <= i < |codes| - 1 ==> codes[i].End == codes[i + 1].Start
    {
      if codes == [] {
        return Crash;
      }
      var h := 0;
      while h + 1 < |codes|
        invariant 0 <= h < |codes|
        invariant forall i :: 0 <= i < h ==> codes[i].End == codes[i + 1].Start
      {
        if codes[h].End != codes[h + 1].Start {
          return Ok(false);
        }
        h := h + 1;
      }
      r := Ok(true);
    }

    /** Puts a dummy in front, walks back to the first element that ends by the new start, inserts behind it and
        removes the front. From a start below the dummy nothing is inserted and the dummy stays. */
    method InsertRangeCodeList(rngCode: RangeCode)
      modifies this
      ensures rngCode.Start >= -1 ==>
                codes == Inserted(old(codes), rngCode)
      ensures rngCode.Start < -1 ==>
                var k := Place(old(codes), rngCode);
                codes == if k == 0 then [RangeCode(-1, -1, "")] + old(codes) else Inserted(old(codes), rngCode)
    {
      hide Inserted, Place;
      ghost var was := codes;
      codes := [DUMMY] + codes;
      var h := |codes| - 1;
      while h >= 0
        invariant -1 <= h < |codes| && codes == [DUMMY] + was
        invariant EndBehind(was, rngCode, h) && (h == -1 ==> DUMMY.End > rngCode.Start)
        decreases h
      {
        if codes[h].End <= rngCode.Start {
          InsertDone(was, rngCode, h);
          codes := codes[..h + 1] + [rngCode] + codes[h + 1..];
          codes := codes[1..];
          return;
        }
        h := h - 1;
      }
      NotInserted(was, rngCode);
    }
  }

  /** Behind position `h` of the list with its dummy, everything ends after the new start. */
  predicate EndBehind(l: seq<RangeCode>, r: RangeCode, h: int) {
    forall i :: h <= i < |l| && 0 <= i ==> l[i].End > r.Start
  }

  lemma {:induction false} PlaceIs(l: seq<RangeCode>, r: RangeCode, k: nat)
    requires k <= |l| && (k > 0 ==> l[k - 1].End <= r.Start) && EndBehind(l, r, k)
    ensures Place(l, r) == k
  {
    if k < |l| {
      PlaceIs(l[..|l| - 1], r, k);
    }
  }

  lemma InsertDone(l: seq<RangeCode>, r: RangeCode, h: nat)
    requires h <= |l| && ([DUMMY] + l)[h].End <= r.Start && EndBehind(l, r, h)
    ensures var m := [DUMMY] + l;
            (m[..h + 1] + [r] + m[h + 1..])[1..] == Inserted(l, r)
    ensures h == 0 ==> r.Start >= -1
    ensures h == 0 <==> Place(l, r) == 0
  {
    hide Place;
    PlaceIs(l, r, h);
    BehindFront(DUMMY, l, r, h);
  }

  /** Inserting behind a front element and removing the front. */
  lemma BehindFront(d: RangeCode, l: seq<RangeCode>, r: RangeCode, h: nat)
    requires h <= |l|
    ensures var m := [d] + l; (m[..h + 1] + [r] + m[h + 1..])[1..] == l[..h] + [r] + l[h..]
  {
    var m := [d] + l;
    assert m[..h + 1] == [d] + l[..h] && m[h + 1..] == l[h..];
    assert [d] + l[..h] + [r] + l[h..] == [d] + (l[..h] + [r] + l[h..]);
    WithoutFirst(d, l[..h] + [r] + l[h..]);
  }

  lemma WithoutFirst(d: RangeCode, t: seq<RangeCode>)
    ensures ([d] + t)[1..] == t
  {
  }

  lemma NotInserted(l: seq<RangeCode>, r: RangeCode)
    requires EndBehind(l, r, -1) && DUMMY.End > r.Start
    ensures Place(l, r) == 0 && r.Start < -1
  {
    PlaceIs(l, r, 0);
  }

  // ----- the commit of a segment -----

  /** The commit tests the range that is stored for the segment and inserts the one its caller gives; the key they
      share fixes only the start. The list stays in order exactly when the range given would have passed the test
      itself, as one no longer than the stored one does. */
  lemma CommitKeepsOrder(l: seq<RangeCode>, stored: RangeCode, given: RangeCode)
    requires SortedDisjoint(l) && Proper(given) && !Collides(l, stored) && stored.Start == given.Start
    ensures SortedDisjoint(Inserted(l, given)) <==> !Collides(l, given)
    ensures given.End <= stored.End ==> !Collides(l, given)
  {
    assert forall i :: 0 <= i < |l| ==> Apart(l[i], stored);
    InsertKeepsOrder(l, given);
  }

  /** A longer one can overlap what the test never saw. The one caller of the commit, `FileWriter.WriteAt`, gives the
      range it stored; it takes another caller to get here. */
  lemma LongerRangeOverlaps()
    ensures var l, stored, given := [RangeCode(10, 20, "t")], RangeCode(0, 5, "s"), RangeCode(0, 15, "s");
            SortedDisjoint(l) && !Collides(l, stored) && !SortedDisjoint(Inserted(l, given))
  {
    var l, given := [RangeCode(10, 20, "t")], RangeCode(0, 15, "s");
    assert !Apart(l[0], given);
    InsertKeepsOrder(l, given);
  }
}
