/** The manifest file of a triplet: an array of fixed-width action records. */
module BlobManifest {
  import opened Bytes
  import opened Decimal
  import opened Json
  import opened AppendArray
  import opened BlobIndex

  const ACTION_PUT := 80
  const ACTION_DELETE := 68
  const MF_ENTRY_LEN := 202

  datatype MFEntry = MFEntry(BlobId: string, Action: int, Padding: string)

  predicate PrintableAction(e: MFEntry) {
    Plain(e.BlobId) && Plain(e.Padding) && 0 <= e.Action < 256
  }

  predicate AllActions(es: seq<MFEntry>) {
    forall i :: 0 <= i < |es| ==> PrintableAction(es[i])
  }

  function ActionMembers(e: MFEntry): (ms: seq<(string, Value)>)
    ensures |ms| == 3
  {
    [("BlobId", Str(e.BlobId)), ("Action", Num(e.Action)), ("Padding", Str(e.Padding))]
  }

  lemma ActionFlat(e: MFEntry)
    requires PrintableAction(e)
    ensures Flat(ActionMembers(e))
  {
  }

  function SerializeAction(e: MFEntry): string
    requires PrintableAction(e)
  {
    ActionFlat(e);
    PrintObject(ActionMembers(e))
  }

  lemma ActionKeys()
    ensures Quote("BlobId") + [':'] == "\"BlobId\":" && Quote("Action") + [':'] == "\"Action\":"
    ensures Quote("Padding") + [':'] == "\"Padding\":"
  {
  }

  /** A record as the source writes it. */
  lemma ActionText(e: MFEntry)
    requires PrintableAction(e)
    ensures SerializeAction(e)
         == "{" + ("\"BlobId\":" + Quote(e.BlobId)) + "," + ("\"Action\":" + Itoa(e.Action))
            + "," + ("\"Padding\":" + Quote(e.Padding)) + "}"
  {
    hide PrintMember, Quote, Itoa;
    var ms := ActionMembers(e);
    ActionFlat(e);
    assert ms == [ms[0], ms[1], ms[2]];
    ActionKeys();
    ThreeMembers(ms[0], ms[1], ms[2]);
    MemberText(ms[0], "\"BlobId\":");
    MemberText(ms[1], "\"Action\":");
    MemberText(ms[2], "\"Padding\":");
  }

  function PaddedAction(e: MFEntry): (p: MFEntry)
    requires PrintableAction(e)
    ensures PrintableAction(p)
  {
    e.(Padding := Hashes(MF_ENTRY_LEN - |SerializeAction(e.(Padding := ""))| - 2))
  }

  predicate ActionFits(e: MFEntry)
    requires PrintableAction(e)
  {
    |SerializeAction(e.(Padding := ""))| <= MF_ENTRY_LEN - 2
  }

  function ActionRow(e: MFEntry): (ms: seq<(string, Value)>)
    requires PrintableAction(e)
    ensures Flat(ms) && ms != []
  {
    ActionFlat(PaddedAction(e));
    ActionMembers(PaddedAction(e))
  }

  function ActionRows(es: seq<MFEntry>): (objs: seq<seq<(string, Value)>>)
    requires AllActions(es)
    ensures |objs| == |es| && FlatObjects(objs)
  {
    if es == [] then [] else [ActionRow(es[0])] + ActionRows(es[1..])
  }

  lemma {:induction false} ActionRowsAt(es: seq<MFEntry>, i: nat)
    requires AllActions(es) && i < |es|
    ensures ActionRows(es)[i] == ActionRow(es[i])
  {
    if i > 0 {
      ActionRowsAt(es[1..], i - 1);
    }
  }

  lemma {:induction false} ActionRowsSnoc(es: seq<MFEntry>, e: MFEntry)
    requires AllActions(es) && PrintableAction(e)
    ensures AllActions(es + [e]) && ActionRows(es + [e]) == ActionRows(es) + [ActionRow(e)]
  {
    assert AllActions(es + [e]);
    if es != [] {
      ActionRowsSnoc(es[1..], e);
      assert (es + [e])[1..] == es[1..] + [e];
    }
  }

  function ManifestFile(es: seq<MFEntry>): string
    requires AllActions(es)
  {
    ArrayText(Printed(ActionRows(es)))
  }

  lemma ActionLength(e: MFEntry)
    requires PrintableAction(e)
    ensures |SerializeAction(e)| == 36 + |e.BlobId| + |Itoa(e.Action)| + |e.Padding|
  {
    ActionFlat(e);
    var ms := ActionMembers(e);
    var m2 := [ms[2]];
    var m1 := [ms[1]] + m2;
    assert ms == [ms[0]] + m1;
    MembersCons(ms[0], m1);
    MembersCons(ms[1], m2);
    assert |PrintMember(ms[0])| == 11 + |e.BlobId|;
    assert |PrintMember(ms[1])| == 9 + |Itoa(e.Action)|;
    assert |PrintMember(ms[2])| == 12 + |e.Padding|;
  }

  /** An id of at most 161 plain characters always fits; the documented limit is 128. */
  lemma ActionIdFits(id: string, action: int)
    requires Plain(id) && |id| <= 161 && 0 <= action < 256
    ensures ActionFits(MFEntry(id, action, ""))
  {
    DigitCount(action, 3);
    assert Pow10(3) == 1000;
    ActionLength(MFEntry(id, action, ""));
  }

  lemma PaddedActionLength(e: MFEntry)
    requires PrintableAction(e)
    ensures |SerializeAction(PaddedAction(e))| == 200 <==> ActionFits(e)
  {
    ActionLength(e.(Padding := ""));
    ActionLength(PaddedAction(e));
  }

  /** n records make a file of 202n + 1 characters; the fresh file has 3. */
  lemma ManifestFileLength(es: seq<MFEntry>)
    requires AllActions(es) && forall i :: 0 <= i < |es| ==> ActionFits(es[i])
    ensures |ManifestFile(es)| == if es == [] then 3 else 202 * |es| + 1
  {
    var items := Printed(ActionRows(es));
    forall i | 0 <= i < |items| ensures |items[i]| == MF_ENTRY_LEN - 2 {
      ActionRowsAt(es, i);
      PrintedAt(ActionRows(es), i);
      PaddedActionLength(es[i]);
    }
    ArrayLength(items, MF_ENTRY_LEN - 2);
  }

  lemma FlushGrowsManifest(es: seq<MFEntry>, e: MFEntry)
    requires AllActions(es) && PrintableAction(e)
    ensures AllActions(es + [e])
    ensures AppendInPlace(ManifestFile(es), SerializeAction(PaddedAction(e)), es == []) == ManifestFile(es + [e])
    ensures var grown := |ManifestFile(es + [e])| - |ManifestFile(es)|;
            grown == (if es == [] then 200 else 202) <==> ActionFits(e)
  {
    var f, item := ManifestFile(es), PrintObject(ActionRow(e));
    ActionRowsSnoc(es, e);
    PrintedSnoc(ActionRows(es), ActionRow(e));
    AppendGrowsArray(Printed(ActionRows(es)), item);
    GrownBy(f, item, es == []);
    PaddedActionLength(e);
  }

  // ----- reload -----

  function SetActionField(e: MFEntry, key: string, v: Value): Option<MFEntry> {
    if key == "BlobId" then if v.Str? then Some(e.(BlobId := v.s)) else None
    else if key == "Action" then if v.Num? && 0 <= v.n < 256 then Some(e.(Action := v.n)) else None
    else if key == "Padding" then if v.Str? then Some(e.(Padding := v.s)) else None
    else Some(e)
  }

  function DecodeAction(e: MFEntry, ms: seq<(string, Value)>): Option<MFEntry>
    decreases |ms|
  {
    if ms == [] then Some(e)
    else
      match SetActionField(e, ms[0].0, ms[0].1)
      case None => None
      case Some(e') => DecodeAction(e', ms[1..])
  }

  function DecodeActions(vs: seq<Value>): Option<seq<MFEntry>> {
    if vs == [] then Some([])
    else if !vs[0].Obj? then None
    else
      match DecodeAction(MFEntry("", 0, ""), vs[0].members)
      case None => None
      case Some(e) =>
        match DecodeActions(vs[1..])
        case None => None
        case Some(es) => Some([e] + es)
  }

  function LoadManifest(file: string): Option<seq<MFEntry>> {
    match Parse(file)
    case None => None
    case Some(v) => if v.Arr? then DecodeActions(v.items) else None
  }

  lemma DecodePrintableAction(e: MFEntry)
    requires PrintableAction(e)
    ensures DecodeAction(MFEntry("", 0, ""), ActionMembers(e)) == Some(e)
  {
    var ms := ActionMembers(e);
    var e1 := MFEntry(e.BlobId, 0, "");
    var e2 := e1.(Action := e.Action);
    assert ms[1..][1..] == ms[2..] && ms[2..][1..] == [];
    assert DecodeAction(e2, ms[2..]) == Some(e);
    assert DecodeAction(e1, ms[1..]) == Some(e);
  }

  function PaddedActions(es: seq<MFEntry>): (ps: seq<MFEntry>)
    requires AllActions(es)
    ensures |ps| == |es| && AllActions(ps)
  {
    if es == [] then [] else [PaddedAction(es[0])] + PaddedActions(es[1..])
  }

  lemma DecodeActionCons(ms: seq<(string, Value)>, e: MFEntry, vs: seq<Value>, es: seq<MFEntry>)
    requires DecodeAction(MFEntry("", 0, ""), ms) == Some(e) && DecodeActions(vs) == Some(es)
    ensures DecodeActions([Obj(ms)] + vs) == Some([e] + es)
  {
    assert ([Obj(ms)] + vs)[1..] == vs;
  }

  lemma {:induction false} DecodeActionRows(es: seq<MFEntry>)
    requires AllActions(es)
    ensures DecodeActions(Objects(ActionRows(es))) == Some(PaddedActions(es))
    decreases |es|
  {
    if es == [] {
      assert Objects(ActionRows(es)) == [] && PaddedActions(es) == [];
    } else {
      var p := PaddedAction(es[0]);
      DecodePrintableAction(p);
      DecodeActionRows(es[1..]);
      DecodeActionCons(ActionRow(es[0]), p, Objects(ActionRows(es[1..])), PaddedActions(es[1..]));
      ObjectsCons(ActionRow(es[0]), ActionRows(es[1..]));
    }
  }

  lemma {:induction false} PaddedActionsTwice(es: seq<MFEntry>)
    requires AllActions(es)
    ensures ActionRows(PaddedActions(es)) == ActionRows(es)
  {
    if es != [] {
      var p := PaddedAction(es[0]);
      assert p.(Padding := "") == es[0].(Padding := "");
      assert PaddedAction(p) == p;
      PaddedActionsTwice(es[1..]);
      assert PaddedActions(es)[1..] == PaddedActions(es[1..]);
    }
  }

  /** Loading the manifest returns every action in order. */
  lemma ManifestReadsBack(es: seq<MFEntry>)
    requires AllActions(es)
    ensures LoadManifest(ManifestFile(es)) == Some(PaddedActions(es))
    ensures ManifestFile(PaddedActions(es)) == ManifestFile(es)
  {
    ArrayParses(ActionRows(es));
    DecodeActionRows(es);
    PaddedActionsTwice(es);
  }

  /** A crash in the middle of a flush leaves a manifest that does not load, wherever the write is cut. */
  lemma TornManifestIsLost(es: seq<MFEntry>, e: MFEntry, k: nat)
    requires AllActions(es) && PrintableAction(e) && NoEnd(e.BlobId)
    requires 1 <= k < |ManifestFile(es + [e])| - |ManifestFile(es)| + 1
    ensures LoadManifest(TornAppend(ManifestFile(es), SerializeAction(PaddedAction(e)), es == [], k)) == None
  {
    hide Parse, SerializeAction, PaddedAction, NoEnd, DecodeActions;
    ActionNoEnd(e);
    FlushGrowsManifest(es, e);
    TornIsNoArray(ManifestFile(es), SerializeAction(PaddedAction(e)), es == [], k);
  }

  lemma ActionNoEnd(e: MFEntry)
    requires PrintableAction(e) && NoEnd(e.BlobId)
    ensures NoEnd(SerializeAction(PaddedAction(e))) && SerializeAction(PaddedAction(e)) != ""
  {
    var p := PaddedAction(e);
    ActionFlat(p);
    ObjectNoEnd(ActionMembers(p));
  }

  /** The ids a reload puts in the deletion log. */
  function Deleted(es: seq<MFEntry>): set<string> {
    set i | 0 <= i < |es| && es[i].Action == ACTION_DELETE :: es[i].BlobId
  }

  class MFHeader {
    var file: string
    var Empty: bool
    var deletionLog: set<string>
    /** Every record in the file; the source keeps only the deletions in memory. */
    ghost var log: seq<MFEntry>

    ghost predicate Valid()
      reads this
    {
      AllActions(log) && file == ManifestFile(log) && Empty == (log == [])
    }

    constructor ()
      ensures deletionLog == {}
    {
      file := "";
      Empty := true;
      deletionLog := {};
      log := [];
    }

    method New(existing: Option<string>) returns (size: Outcome<int>)
      requires deletionLog == {}
      modifies this
      ensures existing == None ==> Valid() && log == [] && deletionLog == {} && size == Ok(3)
      ensures existing.Some? ==>
                match LoadManifest(existing.value)
                case None => size == Crash
                case Some(es) =>
                  && size == Ok(|existing.value|) && file == existing.value && log == es
                  && Empty == (es == []) && deletionLog == Deleted(es)
                  && forall id :: id in deletionLog <==>
                            exists i :: 0 <= i < |es| && es[i].BlobId == id && es[i].Action == 68
      ensures forall es | AllActions(es) && existing == Some(ManifestFile(es)) ::
                && Valid() && log == PaddedActions(es) && file == ManifestFile(es)
                && deletionLog == Deleted(es) && size == Ok(|ManifestFile(es)|)
    {
      Empty := true;
      if existing == None {
        file := ['[', '\n', ']'];
        log := [];
        assert file == ArrayText([]);
        return Ok(|file|);
      }
      forall es | AllActions(es) && existing == Some(ManifestFile(es))
        ensures LoadManifest(existing.value) == Some(PaddedActions(es))
        ensures ManifestFile(PaddedActions(es)) == ManifestFile(es)
        ensures Deleted(PaddedActions(es)) == Deleted(es)
      {
        ManifestReadsBack(es);
        PaddingKeepsDeletions(es);
      }
      file := existing.value;
      match LoadManifest(file) {
        case None => size := Crash;
        case Some(es) =>
          for i := 0 to |es|
            invariant file == existing.value && Empty && deletionLog == Deleted(es[..i])
          {
            if es[i].Action == ACTION_DELETE {
              deletionLog := deletionLog + {es[i].BlobId};
            }
            DeletedStep(es, i);
          }
          assert es[..|es|] == es;
          if |es| > 0 {
            Empty := false;
          }
          log := es;
          size := Ok(|file|);
      }
    }

    method Put(blobId: string) returns (r: Outcome<int>)
      requires Valid() && Plain(blobId)
      modifies this
      ensures r == Crash <==> !ActionFits(MFEntry(blobId, 80, ""))
      ensures log == old(log) + [MFEntry(blobId, 80, "")] && deletionLog == old(deletionLog)
      ensures r.Ok? ==> Valid() && r.value == |file| - |old(file)|
                        && r.value == if old(log) == [] then 200 else 202
    {
      r := Flush(MFEntry(blobId, ACTION_PUT, ""));
    }

    method Delete(blobId: string) returns (r: Outcome<int>)
      requires Valid() && Plain(blobId)
      modifies this
      ensures r == Crash <==> !ActionFits(MFEntry(blobId, 68, ""))
      ensures log == old(log) + [MFEntry(blobId, 68, "")] && deletionLog == old(deletionLog)
      ensures r.Ok? ==> Valid() && r.value == |file| - |old(file)|
                        && r.value == if old(log) == [] then 200 else 202
    {
      r := Flush(MFEntry(blobId, ACTION_DELETE, ""));
    }

    method Flush(entry: MFEntry) returns (r: Outcome<int>)
      requires Valid() && PrintableAction(entry) && entry.Padding == ""
      modifies this`file, this`Empty, this`log
      ensures r == Crash <==> !ActionFits(entry)
      ensures log == old(log) + [entry] && AllActions(log) && file == ManifestFile(log)
      ensures r.Ok? ==> !Empty && r.value == |file| - |old(file)|
                        && r.value == if old(log) == [] then 200 else 202
    {
      FlushGrowsManifest(log, entry);
      var padding := Hashes(MF_ENTRY_LEN - |SerializeAction(entry)| - 2);
      file, r := WriteItem(file, Empty, SerializeAction(entry.(Padding := padding)), MF_ENTRY_LEN);
      log := log + [entry];
      if r.Ok? {
        Empty := false;
      }
    }
  }

  lemma {:induction false} PaddedActionsAt(es: seq<MFEntry>, i: nat)
    requires AllActions(es) && i < |es|
    ensures PaddedActions(es)[i] == PaddedAction(es[i])
  {
    if i > 0 {
      PaddedActionsAt(es[1..], i - 1);
    }
  }

  lemma PaddingKeepsDeletions(es: seq<MFEntry>)
    requires AllActions(es)
    ensures Deleted(PaddedActions(es)) == Deleted(es)
  {
    var ps := PaddedActions(es);
    forall i | 0 <= i < |es| ensures ps[i].Action == es[i].Action && ps[i].BlobId == es[i].BlobId {
      PaddedActionsAt(es, i);
    }
  }

  lemma DeletedStep(es: seq<MFEntry>, i: nat)
    requires i < |es|
    ensures Deleted(es[..i + 1]) == Deleted(es[..i]) + (if es[i].Action == 68 then {es[i].BlobId} else {})
  {
    var p, q := es[..i], es[..i + 1];
    assert forall k :: 0 <= k < i ==> q[k] == p[k];
    forall id | id in Deleted(q)
      ensures id in Deleted(p) + (if es[i].Action == ACTION_DELETE then {es[i].BlobId} else {})
    {
      var k :| 0 <= k < |q| && q[k].Action == ACTION_DELETE && q[k].BlobId == id;
      assert k < i ==> p[k].Action == ACTION_DELETE && p[k].BlobId == id;
    }
    forall id | id in Deleted(p) ensures id in Deleted(q) {
      var k :| 0 <= k < |p| && p[k].Action == ACTION_DELETE && p[k].BlobId == id;
      assert q[k].BlobId == id;
    }
    assert q[i] == es[i];
  }
}
