/** Blob tokens and the two regular expressions that take them apart. */
module Tokens {
  import opened Bytes

  const LARGE_PREFIX := "lobj"

  function GenerateBlobToken(tpltId: string, blbId: string): string {
    "tr_" + tpltId + "_bb_" + blbId
  }

  // ----- matching -----

  predicate MarkAt(t: string, j: int) {
    0 <= j && j + 4 <= |t| && t[j] == '_' && t[j + 1] == 'b' && t[j + 2] == 'b' && t[j + 3] == '_'
  }

  predicate StartAt(t: string, i: int) {
    0 <= i && i + 3 <= |t| && t[i] == 't' && t[i + 1] == 'r' && t[i + 2] == '_'
  }

  /** `.+` does not cross a line break. */
  predicate OneLine(t: string, from: nat, to: nat)
    requires to <= |t|
  {
    forall k :: from <= k < to ==> t[k] != '\n'
  }

  /** A match of `tr_(.+)_bb_` whose group is `t[i+3..j]`. */
  predicate TripletMatch(t: string, i: nat, j: nat) {
    StartAt(t, i) && i + 3 < j && MarkAt(t, j) && OneLine(t, i + 3, j)
  }

  /** The greedy end of a match starting at `i`: the greatest one not above `j`. */
  function GreedyEnd(t: string, i: nat, j: nat): (r: Option<nat>)
    ensures r.Some? ==> TripletMatch(t, i, r.value) && forall k :: r.value < k <= j ==> !TripletMatch(t, i, k)
    ensures r == None ==> forall k :: 0 <= k <= j ==> !TripletMatch(t, i, k)
  {
    if TripletMatch(t, i, j) then Some(j) else if j == 0 then None else GreedyEnd(t, i, j - 1)
  }

  /** `GetTripletIdFromToken`: leftmost start, greedy group; `None` is the panic on a failed match. */
  function TripletIdFrom(t: string, i: nat): Option<string>
    decreases |t| - i
  {
    match GreedyEnd(t, i, |t|)
    case Some(j) => Some(t[i + 3..j])
    case None => if i < |t| then TripletIdFrom(t, i + 1) else None
  }

  function GetTripletIdFromToken(t: string): Option<string> {
    TripletIdFrom(t, 0)
  }

  function LineEnd(t: string, i: nat): (j: nat)
    requires i <= |t|
    ensures i <= j <= |t| && OneLine(t, i, j) && (j < |t| ==> t[j] == '\n')
    decreases |t| - i
  {
    if i == |t| || t[i] == '\n' then i else LineEnd(t, i + 1)
  }

  /** `GetBlobIdFromToken`: the leftmost `_bb_` that has a character after it on its line. */
  function BlobIdFrom(t: string, i: nat): Option<string>
    requires i <= |t|
    decreases |t| - i
  {
    if MarkAt(t, i) && LineEnd(t, i + 4) > i + 4 then Some(t[i + 4..LineEnd(t, i + 4)])
    else if i < |t| then BlobIdFrom(t, i + 1)
    else None
  }

  function GetBlobIdFromToken(t: string): Option<string> {
    BlobIdFrom(t, 0)
  }

  /** The extraction fails exactly when no `tr_`, characters of one line, `_bb_` stand in the token. */
  lemma {:induction false} TripletIdNone(t: string, i: nat)
    ensures TripletIdFrom(t, i) == None <==> forall a, b :: i <= a && 0 <= b <= |t| ==> !TripletMatch(t, a, b)
    decreases |t| - i
  {
    if GreedyEnd(t, i, |t|) == None && i < |t| {
      TripletIdNone(t, i + 1);
    }
  }

  predicate InText(t: string, a: int, b: int) {
    && 0 <= a && a + 3 < b && b + 4 <= |t|
    && t[a..a + 3] == "tr_" && t[b..b + 4] == "_bb_" && '\n' !in t[a + 3..b]
  }

  lemma NoTripletId(t: string)
    ensures GetTripletIdFromToken(t) == None <==> forall a, b :: !InText(t, a, b)
  {
    TripletIdNone(t, 0);
    forall a: nat, b: nat
      ensures TripletMatch(t, a, b) <==> InText(t, a, b)
    {
      if a + 3 < b && b + 4 <= |t| {
        MatchText(t, a, b);
      }
    }
  }

  lemma MatchText(t: string, a: nat, b: nat)
    requires a + 3 < b && b + 4 <= |t|
    ensures TripletMatch(t, a, b) <==> InText(t, a, b)
  {
    assert t[a..a + 3] == [t[a], t[a + 1], t[a + 2]];
    assert t[b..b + 4] == [t[b], t[b + 1], t[b + 2], t[b + 3]];
    assert forall k :: a + 3 <= k < b ==> t[k] == t[a + 3..b][k - a - 3];
  }

  /** And that of the blob id exactly when no `_bb_` has a character after it on its line. */
  lemma {:induction false} BlobIdNone(t: string, i: nat)
    requires i <= |t|
    ensures BlobIdFrom(t, i) == None <==> forall a :: i <= a && a + 4 < |t| && MarkAt(t, a) ==> t[a + 4] == '\n'
    decreases |t| - i
  {
    if BlobIdFrom(t, i) == None && i < |t| {
      BlobIdNone(t, i + 1);
    }
    if i < |t| && !(MarkAt(t, i) && LineEnd(t, i + 4) > i + 4) {
      BlobIdNone(t, i + 1);
    }
  }

  function Full2PartialToken(full: string): Option<string> {
    match GetBlobIdFromToken(full)
    case None => None
    case Some(b) => Some("tr__bb_" + b)
  }

  /** The token `Put` returns. */
  function PutToken(large: bool, tpltId: string, blbId: string): string {
    (if large then LARGE_PREFIX else "") + GenerateBlobToken(tpltId, blbId)
  }

  // ----- routing -----

  /** What the generator of ids guarantees, and more: hexadecimal ids have no underscore and no line break. */
  predicate IsId(s: string) {
    s != "" && forall k :: 0 <= k < |s| ==> s[k] != '_' && s[k] != '\n'
  }

  lemma TokenShape(large: bool, tid: string, bid: string, k: nat)
    requires k < |PutToken(large, tid, bid)|
    ensures var t, p := PutToken(large, tid, bid), if large then 4 else 0;
            && |t| == p + 7 + |tid| + |bid|
            && (k < p ==> t[k] == LARGE_PREFIX[k])
            && (p <= k < p + 3 ==> t[k] == "tr_"[k - p])
            && (p + 3 <= k < p + 3 + |tid| ==> t[k] == tid[k - p - 3])
            && (p + 3 + |tid| <= k < p + 7 + |tid| ==> t[k] == "_bb_"[k - p - 3 - |tid|])
            && (p + 7 + |tid| <= k ==> t[k] == bid[k - p - 7 - |tid|])
  {
  }

  /** The underscores of a token of well-formed ids are the three the generator writes. */
  lemma Underscores(large: bool, tid: string, bid: string, k: nat)
    requires IsId(tid) && IsId(bid) && k < |PutToken(large, tid, bid)|
    ensures var t, p := PutToken(large, tid, bid), if large then 4 else 0;
            && (t[k] == '_' <==> k == p + 2 || k == p + 3 + |tid| || k == p + 6 + |tid|)
            && t[k] != '\n'
  {
    TokenShape(large, tid, bid, k);
  }

  lemma Marks(large: bool, tid: string, bid: string, k: nat)
    requires IsId(tid) && IsId(bid)
    ensures var t, p := PutToken(large, tid, bid), if large then 4 else 0;
            MarkAt(t, k) <==> k == p + 3 + |tid| || (k == p + 2 && tid == "bb")
  {
    var t, p := PutToken(large, tid, bid), if large then 4 else 0;
    TokenShape(large, tid, bid, 0);
    if k + 4 <= |t| {
      Underscores(large, tid, bid, k);
      Underscores(large, tid, bid, k + 3);
      TokenShape(large, tid, bid, k + 1);
      TokenShape(large, tid, bid, k + 2);
      if k == p + 2 && |tid| == 2 {
        assert tid == [tid[0], tid[1]];
      }
    }
  }

  lemma Starts(large: bool, tid: string, bid: string, k: nat)
    ensures var p := if large then 4 else 0;
            && (k < p ==> !StartAt(PutToken(large, tid, bid), k))
            && StartAt(PutToken(large, tid, bid), p)
  {
    var t, p := PutToken(large, tid, bid), if large then 4 else 0;
    TokenShape(large, tid, bid, p);
    TokenShape(large, tid, bid, p + 1);
    TokenShape(large, tid, bid, p + 2);
    if k < p {
      TokenShape(large, tid, bid, k);
    }
  }

  lemma {:induction false} SkipTo(t: string, i: nat, p: nat)
    requires i <= p <= |t| && forall k :: i <= k < p ==> !StartAt(t, k)
    ensures TripletIdFrom(t, i) == TripletIdFrom(t, p)
    decreases p - i
  {
    if i < p {
      SkipTo(t, i + 1, p);
    }
  }

  /** With or without the large prefix, the triplet id comes back. */
  lemma TripletIdComesBack(large: bool, tid: string, bid: string)
    requires IsId(tid) && IsId(bid)
    ensures GetTripletIdFromToken(PutToken(large, tid, bid)) == Some(tid)
  {
    var t, p := PutToken(large, tid, bid), if large then 4 else 0;
    var end := p + 3 + |tid|;
    TokenShape(large, tid, bid, 0);
    forall k: nat ensures k < p ==> !StartAt(t, k) {
      Starts(large, tid, bid, k);
    }
    Starts(large, tid, bid, 0);
    SkipTo(t, 0, p);
    forall k: nat | k <= |t| ensures TripletMatch(t, p, k) <==> k == end {
      Marks(large, tid, bid, k);
      if k == end {
        forall q | p + 3 <= q < k ensures t[q] != '\n' {
          Underscores(large, tid, bid, q);
        }
      }
    }
    assert TripletMatch(t, p, end);
    var g := GreedyEnd(t, p, |t|);
    assert g.Some? && TripletMatch(t, p, g.value);
    assert g.value <= |t|;
    assert t[p + 3..end] == tid by {
      forall k | 0 <= k < |tid| ensures t[p + 3..end][k] == tid[k] {
        TokenShape(large, tid, bid, p + 3 + k);
      }
    }
  }

  lemma {:induction false} SkipMarks(t: string, i: nat, p: nat)
    requires i <= p <= |t| && forall k :: i <= k < p ==> !MarkAt(t, k)
    ensures BlobIdFrom(t, i) == BlobIdFrom(t, p)
    decreases p - i
  {
    if i < p {
      SkipMarks(t, i + 1, p);
    }
  }

  lemma {:induction false} WholeLine(t: string, i: nat)
    requires i <= |t| && OneLine(t, i, |t|)
    ensures LineEnd(t, i) == |t|
    decreases |t| - i
  {
    if i < |t| {
      WholeLine(t, i + 1);
    }
  }

  /** The blob id comes back exactly when the triplet id is not "bb", in which case the first `_bb_` is the one
      that the prefix and the triplet id form. */
  lemma BlobIdComesBack(large: bool, tid: string, bid: string)
    requires IsId(tid) && IsId(bid)
    ensures GetBlobIdFromToken(PutToken(large, tid, bid)) == Some(bid) <==> tid != "bb"
  {
    var t, p := PutToken(large, tid, bid), if large then 4 else 0;
    var first := if tid == "bb" then p + 2 else p + 3 + |tid|;
    TokenShape(large, tid, bid, 0);
    forall k: nat ensures MarkAt(t, k) <==> k == p + 3 + |tid| || (k == p + 2 && tid == "bb") {
      Marks(large, tid, bid, k);
    }
    forall q | 0 <= q < |t| ensures t[q] != '\n' {
      Underscores(large, tid, bid, q);
    }
    SkipMarks(t, 0, first);
    WholeLine(t, first + 4);
    assert MarkAt(t, first) && LineEnd(t, first + 4) == |t|;
    assert t[first + 4..|t|] == t[first + 4..];
    assert BlobIdFrom(t, first) == Some(t[first + 4..]);
    if tid != "bb" {
      assert t[first + 4..] == bid by {
        forall k | 0 <= k < |bid| ensures t[first + 4..][k] == bid[k] {
          TokenShape(large, tid, bid, first + 4 + k);
        }
      }
    } else {
      assert |t[first + 4..]| == 3 + |bid|;
    }
  }

  /** The partial token of a segment row is found again from the full token at commit. */
  lemma PartialTokenMatches(large: bool, tid: string, bid: string)
    requires IsId(tid) && IsId(bid) && tid != "bb"
    ensures Full2PartialToken(PutToken(large, tid, bid)) == Some("tr__bb_" + bid)
    ensures GenerateBlobToken("", bid) == "tr__bb_" + bid
  {
    BlobIdComesBack(large, tid, bid);
    assert "tr_" + "" + "_bb_" + bid == "tr__bb_" + bid;
  }

  /** The prefix test of `Get` sees a large token exactly when `Put` wrote the prefix. */
  lemma LargePrefix(large: bool, tid: string, bid: string)
    ensures |PutToken(large, tid, bid)| >= 4
    ensures PutToken(large, tid, bid)[..4] == "lobj" <==> large
    ensures large ==> PutToken(large, tid, bid)[4..] == "tr_" + tid + "_bb_" + bid
    ensures !large ==> PutToken(large, tid, bid) == "tr_" + tid + "_bb_" + bid
  {
    var t := PutToken(large, tid, bid);
    TokenShape(large, tid, bid, 0);
    if large {
      assert t == LARGE_PREFIX + GenerateBlobToken(tid, bid);
    }
  }
}
