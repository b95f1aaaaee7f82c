/** A JSON array kept in a file and grown in place: every append overwrites the closing bracket. The index
    and the manifest of a triplet are two instances of it. */
module AppendArray {
  import opened Bytes
  import opened Json

  function Join(items: seq<string>): string {
    if items == [] then ""
    else if |items| == 1 then items[0]
    else items[0] + ([',', '\n'] + Join(items[1..]))
  }

  /** The whole array text; the empty one is what `create` writes. */
  function ArrayText(items: seq<string>): (t: string)
    ensures |t| >= 3
  {
    ['[', '\n'] + Join(items) + [']']
  }

  /** The empty array has its brackets on two lines; items stand one to a line with commas between them. */
  lemma ArrayLooks(items: seq<string>, a: string, b: string)
    ensures ArrayText([]) == "[\n]" && ArrayText([a]) == "[\n" + a + "]"
    ensures ArrayText([a, b] + items) == "[\n" + a + ",\n" + Join([b] + items) + "]"
  {
    assert ([a, b] + items)[1..] == [b] + items;
  }

  /** `flush`: seek one byte before the end, then write separator, item and a new closing bracket. */
  function AppendInPlace(file: string, item: string, empty: bool): string
    requires |file| >= 1
  {
    file[..|file| - 1] + (if empty then [] else [',', '\n']) + item + [']']
  }

  lemma {:induction false} JoinSnoc(items: seq<string>, item: string)
    ensures Join(items + [item]) == if items == [] then item else Join(items) + [',', '\n'] + item
  {
    if |items| == 1 {
      assert (items + [item])[1..] == [item];
    } else if items != [] {
      assert (items + [item])[1..] == items[1..] + [item];
      JoinSnoc(items[1..], item);
      JoinGroups(items[0], Join(items[1..]), item);
    }
  }

  lemma JoinGroups(a: string, b: string, c: string)
    ensures a + ([',', '\n'] + (b + [',', '\n'] + c)) == a + ([',', '\n'] + b) + [',', '\n'] + c
  {
  }

  /** Appending in place turns the text of n items into the text of n + 1 items. */
  lemma AppendGrowsArray(items: seq<string>, item: string)
    ensures AppendInPlace(ArrayText(items), item, items == []) == ArrayText(items + [item])
  {
    JoinSnoc(items, item);
    var file := ArrayText(items);
    assert file[..|file| - 1] == ['[', '\n'] + Join(items);
  }

  /** What precedes the array does not matter. */
  lemma AppendKeepsHead(head: string, file: string, item: string, empty: bool)
    requires |file| >= 1
    ensures AppendInPlace(head + file, item, empty) == head + AppendInPlace(file, item, empty)
  {
    var f := head + file;
    assert f[..|f| - 1] == head + file[..|file| - 1];
  }

  /** What is in the file when the write of a flush has come `k` characters far: the bracket is gone from the first
      on. */
  function TornAppend(file: string, item: string, empty: bool, k: nat): string
    requires |file| >= 1
  {
    var text := (if empty then [] else [',', '\n']) + item + [']'];
    if k == 0 then file else if k >= |text| then file[..|file| - 1] + text else file[..|file| - 1] + text[..k]
  }

  /** Such a file is no array, unless nothing or everything is written. */
  lemma TornIsNoArray(file: string, item: string, empty: bool, k: nat)
    requires |file| >= 1 && NoEnd(item) && item != ""
    requires 1 <= k < |AppendInPlace(file, item, empty)| - |file| + 1
    ensures Parse(TornAppend(file, item, empty, k)).Some? ==> !Parse(TornAppend(file, item, empty, k)).value.Arr?
  {
    var text := (if empty then [] else [',', '\n']) + item;
    var torn := TornAppend(file, item, empty, k);
    assert (text + [']'])[..k] == text[..k];
    assert torn == file[..|file| - 1] + text[..k];
    var n := |file| - 1;
    assert torn[n] == text[0] && text[0] != ']' && !IsSpace(text[0]);
    assert forall j :: n <= j < |torn| ==> torn[j] == text[j - n];
    assert forall j :: 0 <= j < |text| ==> text[j] != ']';
    if Parse(torn).Some? && Parse(torn).value.Arr? {
      var i := ArrayEnds(torn);
    }
  }

  lemma GrownBy(file: string, item: string, empty: bool)
    requires |file| >= 1
    ensures |AppendInPlace(file, item, empty)| - |file| == (if empty then 0 else 2) + |item|
  {
  }

  lemma {:induction false} JoinLength(items: seq<string>, len: nat)
    requires forall i :: 0 <= i < |items| ==> |items[i]| == len
    ensures items != [] ==> |Join(items)| == |items| * (len + 2) - 2
  {
    if |items| > 1 {
      JoinLength(items[1..], len);
      assert |items| * (len + 2) == (|items| - 1) * (len + 2) + (len + 2);
    }
  }

  /** Items of equal length make the file size an affine function of their number. */
  lemma ArrayLength(items: seq<string>, len: nat)
    requires forall i :: 0 <= i < |items| ==> |items[i]| == len
    ensures |ArrayText(items)| == if items == [] then 3 else |items| * (len + 2) + 1
  {
    JoinLength(items, len);
  }

  // ----- the text is valid JSON and parses back -----

  predicate FlatObjects(objs: seq<seq<(string, Value)>>) {
    forall i :: 0 <= i < |objs| ==> Flat(objs[i]) && objs[i] != []
  }

  function Printed(objs: seq<seq<(string, Value)>>): (items: seq<string>)
    requires FlatObjects(objs)
    ensures |items| == |objs|
  {
    if objs == [] then [] else [PrintObject(objs[0])] + Printed(objs[1..])
  }

  function Objects(objs: seq<seq<(string, Value)>>): (vs: seq<Value>) {
    if objs == [] then [] else [Obj(objs[0])] + Objects(objs[1..])
  }

  lemma {:induction false} PrintedAt(objs: seq<seq<(string, Value)>>, i: nat)
    requires FlatObjects(objs) && i < |objs|
    ensures Printed(objs)[i] == PrintObject(objs[i])
  {
    if i > 0 {
      PrintedAt(objs[1..], i - 1);
    }
  }

  lemma {:induction false} PrintedSnoc(objs: seq<seq<(string, Value)>>, ms: seq<(string, Value)>)
    requires FlatObjects(objs) && Flat(ms) && ms != []
    ensures FlatObjects(objs + [ms]) && Printed(objs + [ms]) == Printed(objs) + [PrintObject(ms)]
  {
    assert FlatObjects(objs + [ms]);
    if objs != [] {
      PrintedSnoc(objs[1..], ms);
      assert (objs + [ms])[1..] == objs[1..] + [ms];
    }
  }

  lemma ObjectsCons(ms: seq<(string, Value)>, objs: seq<seq<(string, Value)>>)
    ensures Objects([ms] + objs) == [Obj(ms)] + Objects(objs)
  {
    assert ([ms] + objs)[1..] == objs;
  }

  lemma LastElement(ms: seq<(string, Value)>, rest: string)
    requires Flat(ms) && ms != []
    ensures ParseElements(PrintObject(ms) + ([']'] + rest)) == Some(([Obj(ms)], rest))
  {
    var end := [']'] + rest;
    ParsePrintedObject(ms, end);
    assert SkipSpace(end) == end && end[1..] == rest;
  }

  lemma NextElement(ms: seq<(string, Value)>, tail: string, vs: seq<Value>, rest: string)
    requires Flat(ms) && ms != []
    requires ParseElements(tail) == Some((vs, rest))
    ensures ParseElements(PrintObject(ms) + ([','] + tail)) == Some(([Obj(ms)] + vs, rest))
  {
    var more := [','] + tail;
    ParsePrintedObject(ms, more);
    assert SkipSpace(more) == more && more[1..] == tail;
  }

  lemma LeadingSpace(t: string, vs: seq<Value>, rest: string)
    requires ParseElements(t) == Some((vs, rest))
    ensures ParseElements(['\n'] + t) == Some((vs, rest))
  {
    assert (['\n'] + t)[1..] == t;
    assert SkipSpace(['\n'] + t) == SkipSpace(t);
    SkipSpaceIdempotent(t);
  }

  lemma {:induction false} SkipSpaceIdempotent(t: string)
    ensures SkipSpace(SkipSpace(t)) == SkipSpace(t)
    decreases |t|
  {
    if t != "" && IsSpace(t[0]) {
      SkipSpaceIdempotent(t[1..]);
    }
  }

  lemma Separate(a: string, b: string, end: string)
    ensures a + ([',', '\n'] + b) + end == a + ([','] + (['\n'] + (b + end)))
  {
  }

  lemma FirstElement(objs: seq<seq<(string, Value)>>, end: string)
    requires FlatObjects(objs) && |objs| > 1
    ensures Join(Printed(objs)) + end == PrintObject(objs[0]) + ([','] + (['\n'] + (Join(Printed(objs[1..])) + end)))
    ensures Objects(objs) == [Obj(objs[0])] + Objects(objs[1..])
  {
    assert Printed(objs)[1..] == Printed(objs[1..]);
    Separate(PrintObject(objs[0]), Join(Printed(objs[1..])), end);
  }

  lemma ElementsOf(t: string, vs: seq<Value>)
    requires t != "" && t[0] == '{' && ParseElements(t) == Some((vs, ""))
    ensures Parse(['[', '\n'] + t) == Some(Arr(vs))
  {
    var f := ['[', '\n'] + t;
    assert f[1..] == ['\n'] + t && f[1..][1..] == t;
    assert SkipSpace(f[1..]) == t;
  }

  lemma EmptyArray()
    ensures Parse(['[', '\n', ']']) == Some(Arr([]))
  {
    var f := ['[', '\n', ']'];
    assert f[1..] == ['\n', ']'] && f[1..][1..] == [']'];
    assert SkipSpace(f[1..]) == [']'];
  }

  lemma {:induction false} ParseJoined(objs: seq<seq<(string, Value)>>, rest: string)
    requires FlatObjects(objs) && objs != []
    ensures ParseElements(Join(Printed(objs)) + ([']'] + rest)) == Some((Objects(objs), rest))
    decreases |objs|
  {
    var end := [']'] + rest;
    if |objs| == 1 {
      LastElement(objs[0], rest);
      assert Objects(objs) == [Obj(objs[0])];
    } else {
      var tail := Join(Printed(objs[1..])) + end;
      ParseJoined(objs[1..], rest);
      LeadingSpace(tail, Objects(objs[1..]), rest);
      NextElement(objs[0], ['\n'] + tail, Objects(objs[1..]), rest);
      FirstElement(objs, end);
    }
  }

  lemma JoinStart(objs: seq<seq<(string, Value)>>)
    requires FlatObjects(objs) && objs != []
    ensures Join(Printed(objs)) != "" && Join(Printed(objs))[0] == '{'
  {
    assert Printed(objs)[0] == PrintObject(objs[0]);
  }

  /** The file is one valid JSON array and reads back as exactly the objects appended, in order. */
  lemma ArrayParses(objs: seq<seq<(string, Value)>>)
    requires FlatObjects(objs)
    ensures Parse(ArrayText(Printed(objs))) == Some(Arr(Objects(objs)))
  {
    if objs == [] {
      assert ArrayText(Printed(objs)) == ['[', '\n', ']'];
      EmptyArray();
    } else {
      var j := Join(Printed(objs));
      JoinStart(objs);
      ParseJoined(objs, "");
      assert [']'] + "" == [']'];
      ElementsOf(j + [']'], Objects(objs));
      assert ArrayText(Printed(objs)) == ['[', '\n'] + (j + [']']);
    }
  }

  // ----- the write -----

  /** The write in `flush` and the length check after it. The result is the file's growth, or `Crash`. */
  method WriteItem(file: string, empty: bool, item: string, width: int) returns (file': string, r: Outcome<int>)
    requires |file| >= 1
    ensures file' == AppendInPlace(file, item, empty)
    ensures var grown := |file'| - |file|;
            r == if grown == (if empty then width - 2 else width) then Ok(grown) else Crash
  {
    var leading := if empty then [] else [',', '\n'];
    file' := file[..|file| - 1] + leading + item + [']'];
    var res := |leading| + |item| + 1;
    if !empty {
      if res - 1 != width {
        return file', Crash;
      }
    } else {
      if res - 1 != width - 2 {
        return file', Crash;
      }
    }
    r := Ok(res - 1);
  }
}
