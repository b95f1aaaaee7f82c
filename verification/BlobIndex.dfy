/** The index file of a triplet: one state character, a newline and an array of fixed-width entries. */
module BlobIndex {
  import opened Bytes
  import opened Decimal
  import opened Json
  import opened AppendArray

  const STATE_OPEN := '2'
  const STATE_CLOSED := '3'
  const STATE_LARGE := '4'
  const ENTRY_LEN := 252

  datatype IndexEntry = IndexEntry(
    BlobId: string, Offset: int, Size: int, Checksum: string, Fid: string, Padding: string)

  predicate IsInt64(x: int) {
    -TWO_63 <= x < TWO_63
  }

  /** An entry whose strings print without escapes and whose numbers are int64. */
  predicate Printable(e: IndexEntry) {
    && Plain(e.BlobId) && Plain(e.Checksum) && Plain(e.Fid) && Plain(e.Padding)
    && IsInt64(e.Offset) && IsInt64(e.Size)
  }

  predicate AllPrintable(es: seq<IndexEntry>) {
    forall i :: 0 <= i < |es| ==> Printable(es[i])
  }

  // ----- writing -----

  function Members(e: IndexEntry): (ms: seq<(string, Value)>)
    ensures |ms| == 6
  {
    [("BlobId", Str(e.BlobId)), ("Offset", Num(e.Offset)), ("Size", Num(e.Size)),
     ("Checksum", Str(e.Checksum)), ("Fid", Str(e.Fid)), ("Padding", Str(e.Padding))]
  }

  lemma MembersFlat(e: IndexEntry)
    requires Printable(e)
    ensures Flat(Members(e))
  {
  }

  function Serialize(e: IndexEntry): string
    requires Printable(e)
  {
    MembersFlat(e);
    PrintObject(Members(e))
  }

  lemma KeyTexts()
    ensures Quote("BlobId") + [':'] == "\"BlobId\":" && Quote("Offset") + [':'] == "\"Offset\":"
    ensures Quote("Size") + [':'] == "\"Size\":" && Quote("Checksum") + [':'] == "\"Checksum\":"
    ensures Quote("Fid") + [':'] == "\"Fid\":" && Quote("Padding") + [':'] == "\"Padding\":"
  {
  }

  /** An entry as the source writes it. */
  lemma EntryText(e: IndexEntry)
    requires Printable(e)
    ensures Serialize(e)
         == "{" + ("\"BlobId\":" + Quote(e.BlobId)) + "," + ("\"Offset\":" + Itoa(e.Offset))
            + "," + ("\"Size\":" + Itoa(e.Size)) + "," + ("\"Checksum\":" + Quote(e.Checksum))
            + "," + ("\"Fid\":" + Quote(e.Fid)) + "," + ("\"Padding\":" + Quote(e.Padding)) + "}"
  {
    hide PrintMember, Quote, Itoa;
    var ms := Members(e);
    MembersFlat(e);
    assert ms == [ms[0], ms[1], ms[2], ms[3], ms[4], ms[5]];
    KeyTexts();
    SixMembers(ms[0], ms[1], ms[2], ms[3], ms[4], ms[5]);
    MemberText(ms[0], "\"BlobId\":");
    MemberText(ms[1], "\"Offset\":");
    MemberText(ms[2], "\"Size\":");
    MemberText(ms[3], "\"Checksum\":");
    MemberText(ms[4], "\"Fid\":");
    MemberText(ms[5], "\"Padding\":");
  }

  function Hashes(n: int): (s: string)
    ensures Plain(s) && |s| == Max(n, 0)
  {
    seq(Max(n, 0), _ => '#')
  }

  function Strip(e: IndexEntry): IndexEntry {
    e.(Padding := "")
  }

  /** `flush` pads the unpadded entry so that entry and separator fill `ENTRY_LEN` characters. */
  function Padded(e: IndexEntry): (p: IndexEntry)
    requires Printable(e)
    ensures Printable(p)
  {
    e.(Padding := Hashes(ENTRY_LEN - |Serialize(Strip(e))| - 2))
  }

  function PaddedAll(es: seq<IndexEntry>): (ps: seq<IndexEntry>)
    requires AllPrintable(es)
    ensures |ps| == |es| && AllPrintable(ps)
  {
    if es == [] then [] else [Padded(es[0])] + PaddedAll(es[1..])
  }

  /** The unpadded text leaves room for the separator. */
  predicate Fits(e: IndexEntry)
    requires Printable(e)
  {
    |Serialize(Strip(e))| <= ENTRY_LEN - 2
  }

  /** The members of the entry as the file holds them. */
  function Row(e: IndexEntry): (ms: seq<(string, Value)>)
    requires Printable(e)
    ensures Flat(ms) && ms != []
  {
    MembersFlat(Padded(e));
    Members(Padded(e))
  }

  function Rows(es: seq<IndexEntry>): (objs: seq<seq<(string, Value)>>)
    requires AllPrintable(es)
    ensures |objs| == |es| && FlatObjects(objs)
  {
    if es == [] then [] else [Row(es[0])] + Rows(es[1..])
  }

  lemma {:induction false} RowsAt(es: seq<IndexEntry>, i: nat)
    requires AllPrintable(es) && i < |es|
    ensures Rows(es)[i] == Row(es[i])
  {
    if i > 0 {
      RowsAt(es[1..], i - 1);
    }
  }

  lemma {:induction false} RowsSnoc(es: seq<IndexEntry>, e: IndexEntry)
    requires AllPrintable(es) && Printable(e)
    ensures AllPrintable(es + [e]) && Rows(es + [e]) == Rows(es) + [Row(e)]
  {
    assert AllPrintable(es + [e]);
    if es != [] {
      RowsSnoc(es[1..], e);
      assert (es + [e])[1..] == es[1..] + [e];
    }
  }

  /** What the file holds after the given entries have been flushed into a file created with `state`. */
  function IndexFile(state: char, es: seq<IndexEntry>): string
    requires AllPrintable(es)
  {
    [state, '\n'] + ArrayText(Printed(Rows(es)))
  }

  // ----- reading -----

  function ZeroEntry(): IndexEntry {
    IndexEntry("", 0, 0, "", "", "")
  }

  /** `json.Unmarshal` of one member into the struct; unknown keys are ignored, wrong types are errors. */
  function SetField(e: IndexEntry, key: string, v: Value): Option<IndexEntry> {
    if key == "BlobId" then if v.Str? then Some(e.(BlobId := v.s)) else None
    else if key == "Offset" then if v.Num? && IsInt64(v.n) then Some(e.(Offset := v.n)) else None
    else if key == "Size" then if v.Num? && IsInt64(v.n) then Some(e.(Size := v.n)) else None
    else if key == "Checksum" then if v.Str? then Some(e.(Checksum := v.s)) else None
    else if key == "Fid" then if v.Str? then Some(e.(Fid := v.s)) else None
    else if key == "Padding" then if v.Str? then Some(e.(Padding := v.s)) else None
    else Some(e)
  }

  function DecodeMembers(e: IndexEntry, ms: seq<(string, Value)>): Option<IndexEntry>
    decreases |ms|
  {
    if ms == [] then Some(e)
    else
      match SetField(e, ms[0].0, ms[0].1)
      case None => None
      case Some(e') => DecodeMembers(e', ms[1..])
  }

  function DecodeAll(vs: seq<Value>): Option<seq<IndexEntry>> {
    if vs == [] then Some([])
    else if !vs[0].Obj? then None
    else
      match DecodeMembers(ZeroEntry(), vs[0].members)
      case None => None
      case Some(e) =>
        match DecodeAll(vs[1..])
        case None => None
        case Some(es) => Some([e] + es)
  }

  /** `load`: state character, newline, then the array. `None` is a panic. */
  function LoadIndex(file: string): Option<(char, seq<IndexEntry>)> {
    if |file| < 2 then None
    else
      match Parse(file[2..])
      case None => None
      case Some(v) =>
        if !v.Arr? then None
        else
          match DecodeAll(v.items)
          case None => None
          case Some(es) => Some((file[0], es))
  }

  /** `RefMap` after the entries were stored one by one. */
  function RefMapOf(es: seq<IndexEntry>): map<string, IndexEntry> {
    if es == [] then map[] else RefMapOf(es[..|es| - 1])[es[|es| - 1].BlobId := es[|es| - 1]]
  }

  // ----- lengths -----

  lemma MembersCons(m: (string, Value), ms: seq<(string, Value)>)
    requires Scalar(m.1) && Flat([m] + ms) && ms != []
    ensures Flat(ms)
    ensures |PrintMembers([m] + ms)| == |PrintMember(m)| + 1 + |PrintMembers(ms)|
  {
    assert forall i :: 0 <= i < |ms| ==> ms[i] == ([m] + ms)[i + 1];
    assert ([m] + ms)[1..] == ms;
  }

  lemma SerializedLength(e: IndexEntry)
    requires Printable(e)
    ensures |Serialize(e)| == 67 + |e.BlobId| + |Itoa(e.Offset)| + |Itoa(e.Size)| + |e.Checksum| + |e.Fid| + |e.Padding|
  {
    MembersFlat(e);
    var ms := Members(e);
    var m5 := [ms[5]];
    var m4 := [ms[4]] + m5;
    var m3 := [ms[3]] + m4;
    var m2 := [ms[2]] + m3;
    var m1 := [ms[1]] + m2;
    assert ms == [ms[0]] + m1;
    MembersCons(ms[0], m1);
    MembersCons(ms[1], m2);
    MembersCons(ms[2], m3);
    MembersCons(ms[3], m4);
    MembersCons(ms[4], m5);
    assert |PrintMember(ms[0])| == 11 + |e.BlobId|;
    assert |PrintMember(ms[1])| == 9 + |Itoa(e.Offset)|;
    assert |PrintMember(ms[2])| == 7 + |Itoa(e.Size)|;
    assert |PrintMember(ms[3])| == 13 + |e.Checksum|;
    assert |PrintMember(ms[4])| == 8 + |e.Fid|;
    assert |PrintMember(ms[5])| == 12 + |e.Padding|;
  }

  lemma Int64Digits(x: int)
    requires IsInt64(x)
    ensures |Itoa(x)| <= 20
  {
    assert Pow10(10) == 1_0000_0000_00 by { assert Pow10(5) == 100000; }
    assert Pow10(19) == 1_000_000_000 * Pow10(10) by {
      assert Pow10(15) == 100000 * Pow10(10);
    }
    DigitCount(if x < 0 then -x else x, 19);
  }

  /** An id of at most 143 plain characters always fits; the documented limit is 128. */
  lemma IdFits(id: string, offset: int, size: int)
    requires Plain(id) && |id| <= 143 && IsInt64(offset) && IsInt64(size)
    ensures Fits(IndexEntry(id, offset, size, "", "", ""))
  {
    Int64Digits(offset);
    Int64Digits(size);
    SerializedLength(IndexEntry(id, offset, size, "", "", ""));
  }

  /** The padded text is `ENTRY_LEN - 2` characters exactly when the entry fits. */
  lemma PaddedLength(e: IndexEntry)
    requires Printable(e)
    ensures |Serialize(Padded(e))| == 250 <==> Fits(e)
    ensures |Serialize(Padded(e))| >= 250
  {
    SerializedLength(Strip(e));
    SerializedLength(Padded(e));
  }

  /** n entries make a file of 252n + 3 characters; the fresh file has 5. */
  lemma IndexFileLength(state: char, es: seq<IndexEntry>)
    requires AllPrintable(es) && forall i :: 0 <= i < |es| ==> Fits(es[i])
    ensures |IndexFile(state, es)| == if es == [] then 5 else 252 * |es| + 3
  {
    var items := Printed(Rows(es));
    forall i | 0 <= i < |items| ensures |items[i]| == ENTRY_LEN - 2 {
      RowsAt(es, i);
      PrintedAt(Rows(es), i);
      PaddedLength(es[i]);
    }
    ArrayLength(items, ENTRY_LEN - 2);
  }

  /** Flushing one more entry in place gives the file of the longer list, and its growth passes the length
      check exactly when the entry fits. */
  lemma FlushGrowsIndex(state: char, es: seq<IndexEntry>, e: IndexEntry)
    requires AllPrintable(es) && Printable(e)
    ensures AllPrintable(es + [e])
    ensures AppendInPlace(IndexFile(state, es), Serialize(Padded(e)), es == []) == IndexFile(state, es + [e])
    ensures var grown := |IndexFile(state, es + [e])| - |IndexFile(state, es)|;
            grown == (if es == [] then 250 else 252) <==> Fits(e)
  {
    var item := PrintObject(Row(e));
    RowsSnoc(es, e);
    PrintedSnoc(Rows(es), Row(e));
    AppendGrowsArray(Printed(Rows(es)), item);
    AppendKeepsHead([state, '\n'], ArrayText(Printed(Rows(es))), item, es == []);
    GrownBy(IndexFile(state, es), item, es == []);
    PaddedLength(e);
  }

  // ----- reload -----

  lemma DecodePrintable(e: IndexEntry)
    requires Printable(e)
    ensures DecodeMembers(ZeroEntry(), Members(e)) == Some(e)
  {
    var ms := Members(e);
    var e1 := ZeroEntry().(BlobId := e.BlobId);
    var e2 := e1.(Offset := e.Offset);
    var e3 := e2.(Size := e.Size);
    var e4 := e3.(Checksum := e.Checksum);
    var e5 := e4.(Fid := e.Fid);
    assert ms[1..][1..] == ms[2..] && ms[2..][1..] == ms[3..] && ms[3..][1..] == ms[4..];
    assert ms[4..][1..] == ms[5..] && ms[5..][1..] == [];
    assert DecodeMembers(e5, ms[5..]) == Some(e);
    assert DecodeMembers(e4, ms[4..]) == Some(e);
    assert DecodeMembers(e3, ms[3..]) == Some(e);
    assert DecodeMembers(e2, ms[2..]) == Some(e);
    assert DecodeMembers(e1, ms[1..]) == Some(e);
  }

  lemma DecodeCons(ms: seq<(string, Value)>, e: IndexEntry, vs: seq<Value>, es: seq<IndexEntry>)
    requires DecodeMembers(ZeroEntry(), ms) == Some(e) && DecodeAll(vs) == Some(es)
    ensures DecodeAll([Obj(ms)] + vs) == Some([e] + es)
  {
    assert ([Obj(ms)] + vs)[1..] == vs;
  }

  lemma {:induction false} DecodeRows(es: seq<IndexEntry>)
    requires AllPrintable(es)
    ensures DecodeAll(Objects(Rows(es))) == Some(PaddedAll(es))
    decreases |es|
  {
    if es == [] {
      assert Objects(Rows(es)) == [] && PaddedAll(es) == [];
    } else {
      var p := Padded(es[0]);
      DecodePrintable(p);
      DecodeRows(es[1..]);
      DecodeCons(Row(es[0]), p, Objects(Rows(es[1..])), PaddedAll(es[1..]));
      ObjectsCons(Row(es[0]), Rows(es[1..]));
    }
  }

  /** Loading the file returns the state character and the flushed entries in order, padding filled in. */
  lemma LoadReadsBack(state: char, es: seq<IndexEntry>)
    requires AllPrintable(es)
    ensures LoadIndex(IndexFile(state, es)) == Some((state, PaddedAll(es)))
  {
    var f := IndexFile(state, es);
    assert f[2..] == ArrayText(Printed(Rows(es)));
    ArrayParses(Rows(es));
    DecodeRows(es);
  }

  lemma {:induction false} PaddedTwice(es: seq<IndexEntry>)
    requires AllPrintable(es)
    ensures Rows(PaddedAll(es)) == Rows(es)
  {
    if es != [] {
      var p := Padded(es[0]);
      assert Strip(p) == Strip(es[0]);
      assert Padded(p) == p;
      PaddedTwice(es[1..]);
      assert PaddedAll(es)[1..] == PaddedAll(es[1..]);
    }
  }

  /** Padding is not part of the file's meaning: reloaded entries describe the same file. */
  lemma PaddingIrrelevant(state: char, es: seq<IndexEntry>)
    requires AllPrintable(es)
    ensures IndexFile(state, PaddedAll(es)) == IndexFile(state, es)
  {
    PaddedTwice(es);
  }

  lemma {:induction false} RefMapFinds(es: seq<IndexEntry>, id: string)
    ensures id in RefMapOf(es) <==> exists i :: 0 <= i < |es| && es[i].BlobId == id
    ensures id in RefMapOf(es) ==> RefMapOf(es)[id] in es && RefMapOf(es)[id].BlobId == id
  {
    if es != [] {
      RefMapFinds(es[..|es| - 1], id);
      assert es == es[..|es| - 1] + [es[|es| - 1]];
    }
  }

  /** A crash in the middle of a flush leaves an index that does not load, wherever the write is cut. */
  lemma TornIndexIsLost(state: char, es: seq<IndexEntry>, e: IndexEntry, k: nat)
    requires AllPrintable(es) && Printable(e) && NoEnd(e.BlobId) && NoEnd(e.Checksum) && NoEnd(e.Fid)
    requires 1 <= k < |IndexFile(state, es + [e])| - |IndexFile(state, es)| + 1
    ensures LoadIndex(TornAppend(IndexFile(state, es), Serialize(Padded(e)), es == [], k)) == None
  {
    hide Parse, Serialize, Padded, NoEnd, DecodeAll, Printed, Rows;
    var file, item := ArrayText(Printed(Rows(es))), Serialize(Padded(e));
    EntryNoEnd(e);
    FlushGrowsIndex(state, es, e);
    assert IndexFile(state, es) == [state, '\n'] + file;
    AppendKeepsHead([state, '\n'], file, item, es == []);
    assert |AppendInPlace(file, item, es == [])| - |file| == |IndexFile(state, es + [e])| - |IndexFile(state, es)|;
    TornIsNoArray(file, item, es == [], k);
    TornKeepsHead(state, file, item, es == [], k);
  }

  lemma TornKeepsHead(state: char, file: string, item: string, empty: bool, k: nat)
    requires |file| >= 1
    ensures var torn := TornAppend([state, '\n'] + file, item, empty, k);
            |torn| >= 2 && torn[2..] == TornAppend(file, item, empty, k)
  {
    var f := [state, '\n'] + file;
    assert f[..|f| - 1] == [state, '\n'] + file[..|file| - 1];
  }

  lemma EntryNoEnd(e: IndexEntry)
    requires Printable(e) && NoEnd(e.BlobId) && NoEnd(e.Checksum) && NoEnd(e.Fid)
    ensures NoEnd(Serialize(Padded(e))) && Serialize(Padded(e)) != ""
  {
    var p := Padded(e);
    MembersFlat(p);
    ObjectNoEnd(Members(p));
  }

  /** `Close` overwrites the first character. */
  lemma CloseMarksState(state: char, es: seq<IndexEntry>)
    requires AllPrintable(es)
    ensures IndexFile(state, es)[0 := '3'] == IndexFile('3', es)
  {
  }

  /** The in-memory index together with its file. */
  class IndexHeader {
    var file: string
    var State: char
    var Entries: seq<IndexEntry>
    var RefMap: map<string, IndexEntry>
    var Empty: bool

    /** File and memory describe the same entries. The state character on disk may differ from `State`. */
    ghost predicate Valid()
      reads this
    {
      && AllPrintable(Entries) && file != ""
      && file == IndexFile(file[0], Entries)
      && RefMap == RefMapOf(Entries)
      && Empty == (Entries == [])
    }

    constructor ()
      ensures Entries == [] && RefMap == map[]
    {
      Entries := [];
      RefMap := map[];
      file := "";
      State := STATE_OPEN;
      Empty := true;
    }

    method New(existing: Option<string>, isLarge: bool) returns (size: Outcome<int>)
      requires Entries == [] && RefMap == map[]
      modifies this
      ensures existing == None ==>
                && Valid() && Entries == [] && State == '2' && size == Ok(5)
                && file == IndexFile(if isLarge then '4' else '2', [])
      ensures existing.Some? ==>
                match LoadIndex(existing.value)
                case None => size == Crash
                case Some((state, es)) =>
                  && size == Ok(|existing.value|) && file == existing.value && State == state
                  && Entries == es && RefMap == RefMapOf(es) && Empty == (es == [])
      ensures forall st, es | AllPrintable(es) && existing == Some(IndexFile(st, es)) ::
                Valid() && State == st && Entries == PaddedAll(es) && size == Ok(|IndexFile(st, es)|)
    {
      Empty := true;
      if existing == None {
        size := Create(if isLarge then STATE_LARGE else STATE_OPEN);
        return;
      }
      forall st, es | AllPrintable(es) && existing == Some(IndexFile(st, es))
        ensures LoadIndex(existing.value) == Some((st, PaddedAll(es)))
        ensures IndexFile(st, PaddedAll(es)) == IndexFile(st, es)
      {
        LoadReadsBack(st, es);
        PaddingIrrelevant(st, es);
      }
      size := Load(existing.value);
    }

    method Load(existing: string) returns (size: Outcome<int>)
      requires Entries == [] && RefMap == map[] && Empty
      modifies this
      ensures match LoadIndex(existing)
              case None => size == Crash
              case Some((state, es)) =>
                && size == Ok(|existing|) && file == existing && State == state
                && Entries == es && RefMap == RefMapOf(es) && Empty == (es == [])
    {
      hide LoadIndex;
      file := existing;
      match LoadIndex(file) {
        case None => size := Crash;
        case Some((state, es)) =>
          State := state;
          var i := 0;
          while i < |es|
            invariant 0 <= i <= |es|
            invariant file == existing && State == state && Empty
            invariant Entries == es[..i] && RefMap == RefMapOf(es[..i])
          {
            assert es[..i + 1][..i] == es[..i];
            Entries := Entries + [es[i]];
            RefMap := RefMap[es[i].BlobId := es[i]];
            i := i + 1;
          }
          assert es[..i] == es;
          if |RefMap| > 0 {
            Empty := false;
          }
          if es != [] {
            assert es[|es| - 1].BlobId in RefMap;
          }
          size := Ok(|file|);
      }
    }

    method Create(state: char) returns (size: Outcome<int>)
      modifies this`file, this`State
      ensures file == IndexFile(state, []) && State == '2' && size == Ok(5)
    {
      file := [state];
      file := file + "\n[\n]";
      assert file == [state, '\n'] + ArrayText([]);
      State := STATE_OPEN;
      size := Ok(|file|);
    }

    /** `Ok(None)` is the error for a header loaded in closed state, `Crash` the length check in `flush`. */
    method Put(blobId: string, offset: int, size: int) returns (r: Outcome<Option<int>>)
      requires Valid() && Plain(blobId) && IsInt64(offset) && IsInt64(size)
      modifies this
      ensures r == Ok(None) <==> old(State) == '3'
      ensures r == Crash <==> old(State) != '3' && !Fits(IndexEntry(blobId, offset, size, "", "", ""))
      ensures r.Ok? && r.value.Some? ==>
                && Valid() && State == old(State)
                && Entries == old(Entries) + [IndexEntry(blobId, offset, size, "", "", "")]
                && file == IndexFile(old(file[0]), Entries)
                && r.value.value == |file| - |old(file)|
                && r.value.value == (if old(Entries) == [] then 250 else 252)
      ensures r == Ok(None) ==> unchanged(this)
    {
      if State == STATE_CLOSED {
        return Ok(None);
      }
      var ie := IndexEntry(blobId, offset, size, "", "", "");
      var written := Flush(ie);
      if written == Crash {
        return Crash;
      }
      assert (Entries + [ie])[..|Entries|] == Entries;
      Entries := Entries + [ie];
      RefMap := RefMap[blobId := ie];
      r := Ok(Some(written.value));
    }

    method Flush(entry: IndexEntry) returns (r: Outcome<int>)
      requires Valid() && Printable(entry) && entry == Strip(entry)
      modifies this`file, this`Empty
      ensures r == Crash <==> !Fits(entry)
      ensures AllPrintable(old(Entries) + [entry])
      ensures file == IndexFile(old(file[0]), old(Entries) + [entry])
      ensures r.Ok? ==> !Empty && r.value == |file| - |old(file)|
                        && r.value == if old(Entries) == [] then 250 else 252
    {
      FlushGrowsIndex(file[0], Entries, entry);
      var padding := Hashes(ENTRY_LEN - |Serialize(entry)| - 2);
      file, r := WriteItem(file, Empty, Serialize(entry.(Padding := padding)), ENTRY_LEN);
      if r.Ok? {
        Empty := false;
      }
    }

    method Get(blobId: string) returns (e: Option<IndexEntry>)
      requires Valid()
      ensures e.Some? <==> exists i :: 0 <= i < |Entries| && Entries[i].BlobId == blobId
      ensures e.Some? ==> e.value in Entries && e.value.BlobId == blobId
    {
      RefMapFinds(Entries, blobId);
      if blobId in RefMap {
        e := Some(RefMap[blobId]);
      } else {
        e := None;
      }
    }

    /** The receiver is a copy: only the file changes, the header in memory stays in its state. */
    method Close()
      requires Valid()
      modifies this`file
      ensures Valid()
      ensures file == IndexFile(if State == '3' then old(file[0]) else '3', Entries)
      ensures |file| == |old(file)|
    {
      if State == STATE_CLOSED {
        return;
      }
      CloseMarksState(file[0], Entries);
      file := file[0 := STATE_CLOSED];
    }
  }
}
