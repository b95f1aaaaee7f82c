/** File metadata and its database form: the owners joined by commas, the ranges as JSON joined by bars. */
module FileMetadata {
  import opened Bytes
  import opened Json
  import opened RangeList
  import Decimal

  /** `None` is a nil list. */
  datatype FileMeta = FileMeta(
    Name: string, Id: string, OwnerList: Option<seq<string>>, BlobId: string,
    RngCodeList: Option<seq<RangeCode>>, Etag: string)

  datatype DBFileMeta = DBFileMeta(
    Name: string, Id: string, OwnerList: string, BlobId: string, RngList: string, Etag: string)

  const COMMA := ','
  const BAR := '|'

  // ----- joining and splitting -----

  function Joined(xs: seq<string>, d: char): string {
    if xs == [] then ""
    else if |xs| == 1 then xs[0]
    else xs[0] + ([d] + Joined(xs[1..], d))
  }

  /** `strings.Split` on one character: never empty, and the empty string gives one empty part. */
  function Split(s: string, d: char): (parts: seq<string>)
    ensures parts != []
  {
    if s == "" then [""]
    else
      var rest := Split(s[1..], d);
      if s[0] == d then [""] + rest else [[s[0]] + rest[0]] + rest[1..]
  }

  predicate Without(s: string, d: char) {
    forall i :: 0 <= i < |s| ==> s[i] != d
  }

  predicate AllWithout(xs: seq<string>, d: char) {
    forall i :: 0 <= i < |xs| ==> Without(xs[i], d)
  }

  lemma {:induction false} PartsWithout(s: string, d: char)
    ensures AllWithout(Split(s, d), d)
  {
    if s != "" {
      PartsWithout(s[1..], d);
      var rest := Split(s[1..], d);
      assert Without(rest[0], d);
    }
  }

  lemma {:induction false} SplitPrefix(x: string, rest: string, d: char)
    requires Without(x, d)
    ensures Split(x, d) == [x]
    ensures Split(x + ([d] + rest), d) == [x] + Split(rest, d)
  {
    var t := x + ([d] + rest);
    if x == "" {
      assert t == [d] + rest && t[1..] == rest;
    } else {
      SplitPrefix(x[1..], rest, d);
      assert t[1..] == x[1..] + ([d] + rest);
      assert x == [x[0]] + x[1..];
      assert ([x[1..]] + Split(rest, d))[1..] == Split(rest, d);
    }
  }

  lemma {:induction false} SplitJoined(xs: seq<string>, d: char)
    requires xs != [] && AllWithout(xs, d)
    ensures Split(Joined(xs, d), d) == xs
  {
    SplitPrefix(xs[0], Joined(xs[1..], d), d);
    if |xs| > 1 {
      SplitJoined(xs[1..], d);
    }
  }

  /** Splitting gives back what was joined exactly when there was something and no part holds the delimiter. */
  lemma SplitInverts(xs: seq<string>, d: char)
    ensures Split(Joined(xs, d), d) == xs <==> xs != [] && AllWithout(xs, d)
  {
    PartsWithout(Joined(xs, d), d);
    if xs != [] && AllWithout(xs, d) {
      SplitJoined(xs, d);
    }
  }

  // ----- one range as JSON -----

  predicate IsInt32(x: int) {
    -TWO_31 <= x < TWO_31
  }

  predicate PrintableCode(rc: RangeCode) {
    IsInt32(rc.Start) && IsInt32(rc.End) && Plain(rc.Token)
  }

  function CodeMembers(rc: RangeCode): (ms: seq<(string, Value)>)
    ensures |ms| == 3
  {
    [("Start", Num(rc.Start)), ("End", Num(rc.End)), ("Token", Str(rc.Token))]
  }

  function ToJson(rc: RangeCode): (s: string)
    requires PrintableCode(rc)
    ensures s != ""
  {
    assert Flat(CodeMembers(rc));
    PrintObject(CodeMembers(rc))
  }

  /** Fields come from members by name, the last one wins; a wrong type or an integer too wide is an error. */
  function Assign(rc: RangeCode, ms: seq<(string, Value)>): Option<RangeCode>
    decreases |ms|
  {
    if ms == [] then Some(rc)
    else if ms[0].0 == "Start" then
      if ms[0].1.Num? && IsInt32(ms[0].1.n) then Assign(rc.(Start := ms[0].1.n), ms[1..]) else None
    else if ms[0].0 == "End" then
      if ms[0].1.Num? && IsInt32(ms[0].1.n) then Assign(rc.(End := ms[0].1.n), ms[1..]) else None
    else if ms[0].0 == "Token" then
      if ms[0].1.Str? then Assign(rc.(Token := ms[0].1.s), ms[1..]) else None
    else Assign(rc, ms[1..])
  }

  /** An error while parsing ends the process. */
  function ToRangeCode(t: string): Outcome<RangeCode> {
    match Parse(t)
    case Some(Obj(ms)) => (match Assign(RangeCode(0, 0, ""), ms) case Some(rc) => Ok(rc) case None => Crash)
    case _ => Crash
  }

  lemma CodeReadsBack(rc: RangeCode)
    requires PrintableCode(rc)
    ensures ToRangeCode(ToJson(rc)) == Ok(rc)
  {
    var ms := CodeMembers(rc);
    assert Flat(ms);
    ParsePrintedObject(ms, "");
    assert PrintObject(ms) + "" == PrintObject(ms);
    AssignMembers(rc);
  }

  lemma AssignMembers(rc: RangeCode)
    requires PrintableCode(rc)
    ensures Assign(RangeCode(0, 0, ""), CodeMembers(rc)) == Some(rc)
  {
    var ms := CodeMembers(rc);
    assert ms[1..][0] == ms[1] && ms[1..][1..] == [ms[2]] && [ms[2]][1..] == [];
    assert Assign(RangeCode(rc.Start, rc.End, rc.Token), []) == Some(rc);
    assert Assign(RangeCode(rc.Start, rc.End, ""), [ms[2]]) == Some(rc);
    assert Assign(RangeCode(rc.Start, 0, ""), ms[1..]) == Some(rc);
  }

  /** A member of the wrong type, or a position outside the int32 range, is an error; members that are not there are
      zero, and unknown ones are ignored. */
  lemma OneMember(key: string, v: Value)
    requires Plain(key) && Scalar(v) && (v.Str? ==> Plain(v.s))
    ensures ToRangeCode(PrintObject([(key, v)])) ==
            if key == "Start" then (if v.Num? && IsInt32(v.n) then Ok(RangeCode(v.n, 0, "")) else Crash)
            else if key == "End" then (if v.Num? && IsInt32(v.n) then Ok(RangeCode(0, v.n, "")) else Crash)
            else if key == "Token" then (if v.Str? then Ok(RangeCode(0, 0, v.s)) else Crash)
            else Ok(RangeCode(0, 0, ""))
  {
    var ms := [(key, v)];
    assert Flat(ms);
    ParsePrintedObject(ms, "");
    assert PrintObject(ms) + "" == PrintObject(ms);
    assert ms[1..] == [] && ms[0] == (key, v);
    assert Parse(PrintObject(ms)) == Some(Obj(ms));
    OneAssign(key, v);
  }

  lemma OneAssign(key: string, v: Value)
    ensures Assign(RangeCode(0, 0, ""), [(key, v)]) ==
            if key == "Start" then (if v.Num? && IsInt32(v.n) then Some(RangeCode(v.n, 0, "")) else None)
            else if key == "End" then (if v.Num? && IsInt32(v.n) then Some(RangeCode(0, v.n, "")) else None)
            else if key == "Token" then (if v.Str? then Some(RangeCode(0, 0, v.s)) else None)
            else Some(RangeCode(0, 0, ""))
  {
    assert [(key, v)][1..] == [];
  }

  // ----- a parsed token holds no character that the text does not -----

  lemma {:induction false} SpaceWithout(t: string, d: char)
    requires Without(t, d)
    ensures Without(SkipSpace(t), d)
  {
    if t != "" && IsSpace(t[0]) {
      SpaceWithout(t[1..], d);
    }
  }

  lemma {:induction false} ScanWithout(t: string, d: char)
    requires Without(t, d) && ScanString(t).Some?
    ensures Without(ScanString(t).value.0, d) && Without(ScanString(t).value.1, d)
  {
    if t[0] != '"' {
      ScanWithout(t[1..], d);
    }
  }

  /** No string in the value, or in its members when it is an object, holds the character. */
  predicate Clean(v: Value, d: char) {
    && (v.Str? ==> Without(v.s, d))
    && (v.Obj? ==> CleanMembers(v.members, d))
  }

  predicate CleanMembers(ms: seq<(string, Value)>, d: char) {
    forall i :: 0 <= i < |ms| ==> ms[i].1.Str? ==> Without(ms[i].1.s, d)
  }

  lemma {:induction false} ValueWithout(t: string, d: char)
    requires Without(t, d) && ParseValue(t).Some?
    ensures Clean(ParseValue(t).value.0, d) && Without(ParseValue(t).value.1, d)
    decreases |t|, 1
  {
    var u := SkipSpace(t);
    SpaceWithout(t, d);
    if u[0] == '"' {
      ScanWithout(u[1..], d);
    } else if u[0] == '{' || u[0] == '[' {
      var w := SkipSpace(u[1..]);
      SpaceWithout(u[1..], d);
      if u[0] == '{' && !(w != "" && w[0] == '}') {
        MembersWithout(w, d);
      } else if u[0] == '[' && !(w != "" && w[0] == ']') {
        ElementsWithout(w, d);
      }
    }
  }

  lemma {:induction false} MembersWithout(t: string, d: char)
    requires Without(t, d) && ParseMembers(t).Some?
    ensures CleanMembers(ParseMembers(t).value.0, d) && Without(ParseMembers(t).value.1, d)
    decreases |t|, 2
  {
    var u := SkipSpace(t);
    SpaceWithout(t, d);
    ScanWithout(u[1..], d);
    var c := SkipSpace(ScanString(u[1..]).value.1);
    SpaceWithout(ScanString(u[1..]).value.1, d);
    ValueWithout(c[1..], d);
    var e := SkipSpace(ParseValue(c[1..]).value.1);
    SpaceWithout(ParseValue(c[1..]).value.1, d);
    if e[0] == ',' {
      MembersWithout(e[1..], d);
    }
  }

  lemma {:induction false} ElementsWithout(t: string, d: char)
    requires Without(t, d) && ParseElements(t).Some?
    ensures Without(ParseElements(t).value.1, d)
    decreases |t|, 2
  {
    ValueWithout(t, d);
    var e := SkipSpace(ParseValue(t).value.1);
    SpaceWithout(ParseValue(t).value.1, d);
    if e[0] == ',' {
      ElementsWithout(e[1..], d);
    }
  }

  lemma {:induction false} AssignWithout(rc: RangeCode, ms: seq<(string, Value)>, d: char)
    requires CleanMembers(ms, d) && Without(rc.Token, d) && Assign(rc, ms).Some?
    ensures Without(Assign(rc, ms).value.Token, d)
    decreases |ms|
  {
    if ms != [] {
      var next := if ms[0].0 == "Start" then rc.(Start := ms[0].1.n)
                  else if ms[0].0 == "End" then rc.(End := ms[0].1.n)
                  else if ms[0].0 == "Token" then rc.(Token := ms[0].1.s)
                  else rc;
      AssignWithout(next, ms[1..], d);
    }
  }

  lemma TokenWithout(t: string, d: char)
    requires Without(t, d) && ToRangeCode(t).Ok?
    ensures Without(ToRangeCode(t).value.Token, d)
  {
    ValueWithout(t, d);
    AssignWithout(RangeCode(0, 0, ""), Parse(t).value.members, d);
  }

  // ----- a printed range holds a character only if its token does -----

  lemma WithoutConcat(a: string, b: string, d: char)
    ensures Without(a + b, d) <==> Without(a, d) && Without(b, d)
  {
    assert forall i :: 0 <= i < |a| ==> (a + b)[i] == a[i];
    assert forall i :: 0 <= i < |b| ==> (a + b)[|a| + i] == b[i];
  }

  lemma MemberWithout(m: (string, Value))
    requires Scalar(m.1) && Without(m.0, BAR) && (m.1.Str? ==> Without(m.1.s, BAR))
    ensures Without(PrintMember(m), BAR)
  {
    WithoutConcat(Quote(m.0), [':'] + PrintScalar(m.1), BAR);
    WithoutConcat([':'], PrintScalar(m.1), BAR);
    WithoutConcat(['"'] + m.0, ['"'], BAR);
  }

  lemma {:induction false} PrintedWithout(ms: seq<(string, Value)>)
    requires Flat(ms) && ms != []
    requires forall i :: 0 <= i < |ms| ==> Without(ms[i].0, BAR) && (ms[i].1.Str? ==> Without(ms[i].1.s, BAR))
    ensures Without(PrintMembers(ms), BAR)
  {
    MemberWithout(ms[0]);
    if |ms| > 1 {
      PrintedWithout(ms[1..]);
      WithoutConcat(PrintMember(ms[0]), [','] + PrintMembers(ms[1..]), BAR);
      WithoutConcat([','], PrintMembers(ms[1..]), BAR);
    }
  }

  lemma JsonWithout(rc: RangeCode)
    requires PrintableCode(rc) && Without(rc.Token, BAR)
    ensures Without(ToJson(rc), BAR)
  {
    var ms := CodeMembers(rc);
    assert Flat(ms);
    PrintedWithout(ms);
    WithoutConcat(['{'], PrintMembers(ms), BAR);
    WithoutConcat(['{'] + PrintMembers(ms), ['}'], BAR);
  }

  // ----- the codec -----

  predicate PrintableCodes(rs: seq<RangeCode>) {
    forall i :: 0 <= i < |rs| ==> PrintableCode(rs[i])
  }

  function Jsons(rs: seq<RangeCode>): (js: seq<string>)
    requires PrintableCodes(rs)
    ensures |js| == |rs|
  {
    if rs == [] then [] else [ToJson(rs[0])] + Jsons(rs[1..])
  }

  predicate PrintableMeta(fm: FileMeta) {
    fm.RngCodeList.Some? ==> PrintableCodes(fm.RngCodeList.value)
  }

  /** A nil list is written like an empty one. */
  function Encode(fm: FileMeta): DBFileMeta
    requires PrintableMeta(fm)
  {
    DBFileMeta(
      fm.Name, fm.Id, match fm.OwnerList case Some(xs) => Joined(xs, COMMA) case None => "", fm.BlobId,
      match fm.RngCodeList case Some(rs) => Joined(Jsons(rs), BAR) case None => "", fm.Etag)
  }

  function DecodeParts(parts: seq<string>): Outcome<seq<RangeCode>> {
    if parts == [] then Ok([])
    else if parts[0] == "" then DecodeParts(parts[1..])
    else
      match (ToRangeCode(parts[0]), DecodeParts(parts[1..]))
      case (Ok(rc), Ok(rs)) => Ok([rc] + rs)
      case _ => Crash
  }

  function DecodeRanges(text: string): Outcome<seq<RangeCode>> {
    if text == "" then Ok([]) else DecodeParts(Split(text, BAR))
  }

  function Decode(db: DBFileMeta): Outcome<FileMeta> {
    match DecodeRanges(db.RngList)
    case Ok(rs) => Ok(FileMeta(db.Name, db.Id, Some(Split(db.OwnerList, COMMA)), db.BlobId, Some(rs), db.Etag))
    case Crash => Crash
  }

  predicate TokensWithout(rs: seq<RangeCode>) {
    forall i :: 0 <= i < |rs| ==> Without(rs[i].Token, BAR)
  }

  lemma {:induction false} JsonsReadBack(rs: seq<RangeCode>)
    requires PrintableCodes(rs)
    ensures DecodeParts(Jsons(rs)) == Ok(rs)
  {
    hide ToJson, ToRangeCode, PrintableCode;
    if rs != [] {
      JsonsReadBack(rs[1..]);
      CodeReadsBack(rs[0]);
      var js, rest := Jsons(rs), Jsons(rs[1..]);
      assert js[0] == ToJson(rs[0]) && js[1..] == rest;
      assert rs == [rs[0]] + rs[1..];
    }
  }

  lemma {:induction false} JsonsWithout(rs: seq<RangeCode>)
    requires PrintableCodes(rs) && TokensWithout(rs)
    ensures AllWithout(Jsons(rs), BAR)
  {
    hide ToJson, Without, PrintableCode;
    if rs != [] {
      JsonsWithout(rs[1..]);
      JsonWithout(rs[0]);
    }
  }

  lemma {:induction false} DecodedWithout(parts: seq<string>)
    requires AllWithout(parts, BAR) && DecodeParts(parts).Ok?
    ensures TokensWithout(DecodeParts(parts).value)
  {
    hide ToRangeCode, Without;
    if parts != [] {
      DecodedWithout(parts[1..]);
      if parts[0] != "" {
        TokenWithout(parts[0], BAR);
      }
    }
  }

  lemma JoinedIsText(rs: seq<RangeCode>)
    requires PrintableCodes(rs) && rs != []
    ensures Joined(Jsons(rs), BAR) != ""
  {
    assert Jsons(rs)[0] == ToJson(rs[0]);
  }

  lemma RangesRoundTrip(rs: seq<RangeCode>)
    requires PrintableCodes(rs)
    ensures DecodeRanges(Joined(Jsons(rs), BAR)) == Ok(rs) <==> TokensWithout(rs)
  {
    hide ToJson, ToRangeCode, Without;
    var js := Jsons(rs);
    if rs != [] {
      JoinedIsText(rs);
      JsonsReadBack(rs);
      if TokensWithout(rs) {
        JsonsWithout(rs);
      }
      SplitInverts(js, BAR);
      PartsWithout(Joined(js, BAR), BAR);
      if DecodeParts(Split(Joined(js, BAR), BAR)).Ok? {
        DecodedWithout(Split(Joined(js, BAR), BAR));
      }
    }
  }

  /** Reading metadata back gives the same exactly when there are owners, no owner's name holds a comma, the list of
      ranges is not nil and no token holds a bar. */
  lemma MetaRoundTrip(fm: FileMeta)
    requires PrintableMeta(fm)
    ensures Decode(Encode(fm)) == Ok(fm)
            <==> && fm.OwnerList.Some? && fm.OwnerList.value != [] && AllWithout(fm.OwnerList.value, COMMA)
                 && fm.RngCodeList.Some? && TokensWithout(fm.RngCodeList.value)
  {
    hide Joined, Split, Jsons, AllWithout, TokensWithout, DecodeRanges;
    if fm.OwnerList.Some? {
      SplitInverts(fm.OwnerList.value, COMMA);
    }
    if fm.RngCodeList.Some? {
      RangesRoundTrip(fm.RngCodeList.value);
    }
  }

  // ----- what is written, and when it cannot be read -----

  /** The three members of a range in front of their values, as the source writes them. */
  function StartKey(): string {
    "\"Start\":"
  }

  function EndKey(): string {
    "\"End\":"
  }

  function TokenKey(): string {
    "\"Token\":"
  }

  lemma KeyTexts()
    ensures Quote("Start") + [':'] == StartKey() && Quote("End") + [':'] == EndKey()
    ensures Quote("Token") + [':'] == TokenKey()
  {
  }

  /** A range as the source writes it. */
  lemma CodeText(rc: RangeCode)
    requires PrintableCode(rc)
    ensures ToJson(rc) == "{" + (StartKey() + Decimal.Itoa(rc.Start)) + "," + (EndKey() + Decimal.Itoa(rc.End))
                          + "," + (TokenKey() + Quote(rc.Token)) + "}"
  {
    hide StartKey, EndKey, TokenKey, PrintMember, Quote;
    var ms := CodeMembers(rc);
    assert Flat(ms) && ms == [ms[0], ms[1], ms[2]];
    KeyTexts();
    ThreeMembers(ms[0], ms[1], ms[2]);
    MemberText(ms[0], StartKey());
    MemberText(ms[1], EndKey());
    MemberText(ms[2], TokenKey());
  }

  lemma FirstBar(s: string) returns (i: nat)
    requires !Without(s, BAR)
    ensures i < |s| && s[i] == BAR && Without(s[..i], BAR)
  {
    i := 0;
    while s[i] != BAR
      invariant 0 <= i < |s| && Without(s[..i], BAR) && exists k :: i <= k < |s| && s[k] == BAR
      decreases |s| - i
    {
      i := i + 1;
    }
  }

  lemma DigitsPlain(x: int)
    ensures Without(Decimal.Itoa(x), BAR) && Quotes(Decimal.Itoa(x)) == 0
  {
    NoQuotes(Decimal.Itoa(x));
  }

  /** What stands in front of a bar in the token. */
  function Head(rc: RangeCode, i: nat): string
    requires i <= |rc.Token|
  {
    "{" + (StartKey() + Decimal.Itoa(rc.Start)) + "," + (EndKey() + Decimal.Itoa(rc.End)) + "," + TokenKey()
    + (['"'] + rc.Token[..i])
  }

  lemma HeadThenTail(rc: RangeCode, i: nat)
    requires PrintableCode(rc) && i < |rc.Token| && rc.Token[i] == BAR
    ensures ToJson(rc) == Head(rc, i) + ([BAR] + (rc.Token[i + 1..] + "\"}"))
  {
    hide StartKey, EndKey, TokenKey, Decimal.Itoa, ToJson;
    CodeText(rc);
    assert rc.Token == rc.Token[..i] + ([BAR] + rc.Token[i + 1..]);
  }

  /** Two texts without a bar, and their quotes. */
  lemma Both(a: string, b: string)
    ensures Without(a + b, BAR) <==> Without(a, BAR) && Without(b, BAR)
    ensures Quotes(a + b) == Quotes(a) + Quotes(b)
  {
    WithoutConcat(a, b, BAR);
    QuotesJoin(a, b);
  }

  lemma KeyQuotes()
    ensures Quotes(StartKey()) == 2 && Quotes(EndKey()) == 2 && Quotes(TokenKey()) == 2
    ensures Without(StartKey(), BAR) && Without(EndKey(), BAR) && Without(TokenKey(), BAR)
  {
    hide Quotes, Quote, StartKey, EndKey, TokenKey;
    KeyTexts();
    QuotedQuotes("Start");
    QuotedQuotes("End");
    QuotedQuotes("Token");
  }

  lemma QuotedQuotes(s: string)
    requires Plain(s) && Without(s, BAR)
    ensures Quotes(Quote(s) + [':']) == 2 && Without(Quote(s) + [':'], BAR)
  {
    QuotesJoin(['"'] + s + ['"'], [':']);
    QuotesJoin(['"'] + s, ['"']);
    QuotesJoin(['"'], s);
    NoQuotes(s);
    NoQuotes([':']);
    assert Quotes(['"']) == 1;
  }

  /** What is in front of a bar in the token is no JSON: the quote that opens the token is not closed. */
  lemma HeadIsOdd(rc: RangeCode, i: nat)
    requires PrintableCode(rc) && i <= |rc.Token| && Without(rc.Token[..i], BAR)
    ensures Without(Head(rc, i), BAR) && Quotes(Head(rc, i)) == 7
  {
    hide Quotes, Decimal.Itoa, StartKey, EndKey, TokenKey, Without;
    var s, e, t := StartKey() + Decimal.Itoa(rc.Start), EndKey() + Decimal.Itoa(rc.End), ['"'] + rc.Token[..i];
    KeyQuotes();
    DigitsPlain(rc.Start);
    DigitsPlain(rc.End);
    OneChar();
    PlainPrefix(rc.Token, i);
    Both(StartKey(), Decimal.Itoa(rc.Start));
    Both(EndKey(), Decimal.Itoa(rc.End));
    Both(['"'], rc.Token[..i]);
    Both("{", s);
    Both("{" + s, ",");
    Both("{" + s + ",", e);
    Both("{" + s + "," + e, ",");
    Both("{" + s + "," + e + ",", TokenKey());
    Both("{" + s + "," + e + "," + TokenKey(), t);
  }

  lemma OneChar()
    ensures Without("{", BAR) && Without(",", BAR) && Without(['"'], BAR)
    ensures Quotes("{") == 0 && Quotes(",") == 0 && Quotes(['"']) == 1
  {
  }

  lemma PlainPrefix(s: string, i: nat)
    requires Plain(s) && i <= |s|
    ensures Quotes(s[..i]) == 0
  {
    NoQuotes(s[..i]);
  }

  lemma CutCode(rc: RangeCode)
    requires PrintableCode(rc) && !Without(rc.Token, BAR)
    ensures DecodeParts(Split(ToJson(rc), BAR)) == Crash
  {
    hide ToRangeCode, ToJson, Quotes, Head;
    var i := FirstBar(rc.Token);
    var tail := rc.Token[i + 1..] + "\"}";
    HeadThenTail(rc, i);
    HeadIsOdd(rc, i);
    SplitPrefix(Head(rc, i), tail, BAR);
    Unreadable(Head(rc, i));
    assert ([Head(rc, i)] + Split(tail, BAR))[0] == Head(rc, i);
  }

  lemma Unreadable(t: string)
    requires Quotes(t) % 2 == 1
    ensures ToRangeCode(t) == Crash && t != ""
  {
    OddQuotes(t);
  }

  lemma SplitStep(s: string, d: char)
    ensures Split("", d) == [""]
    ensures s != "" ==>
              var rest := Split(s[1..], d);
              Split(s, d) == if s[0] == d then [""] + rest else [[s[0]] + rest[0]] + rest[1..]
  {
  }

  lemma {:induction false} SplitJoin(a: string, b: string, d: char)
    ensures Split(a + ([d] + b), d) == Split(a, d) + Split(b, d)
  {
    hide Split;
    var t := a + ([d] + b);
    SplitStep(t, d);
    SplitStep(a, d);
    if a == "" {
      assert t == [d] + b && t[1..] == b;
    } else {
      assert t[1..] == a[1..] + ([d] + b) && t[0] == a[0];
      SplitJoin(a[1..], b, d);
      var rest, more := Split(a[1..], d), Split(b, d);
      assert (rest + more)[0] == rest[0] && (rest + more)[1..] == rest[1..] + more;
    }
  }

  lemma {:induction false} CrashSpreads(p: seq<string>, q: seq<string>)
    requires DecodeParts(p) == Crash || DecodeParts(q) == Crash
    ensures DecodeParts(p + q) == Crash
  {
    hide ToRangeCode;
    if p == [] {
      assert p + q == q;
    } else {
      assert (p + q)[1..] == p[1..] + q;
      if DecodeParts(p[1..]) == Crash || DecodeParts(q) == Crash {
        CrashSpreads(p[1..], q);
      }
    }
  }

  /** A bar in a token makes the whole row unreadable. */
  lemma {:induction false} BarCrashes(rs: seq<RangeCode>)
    requires PrintableCodes(rs) && !TokensWithout(rs)
    ensures DecodeRanges(Joined(Jsons(rs), BAR)) == Crash
  {
    hide ToRangeCode, ToJson, Without, Split;
    var js := Jsons(rs);
    JoinedIsText(rs);
    if |rs| == 1 {
      CutCode(rs[0]);
    } else {
      SplitJoin(js[0], Joined(js[1..], BAR), BAR);
      JoinedIsText(rs[1..]);
      if Without(rs[0].Token, BAR) {
        BarCrashes(rs[1..]);
      } else {
        CutCode(rs[0]);
      }
      CrashSpreads(Split(js[0], BAR), Split(Joined(js[1..], BAR), BAR));
    }
  }

  /** A nil list is as good as an empty one. */
  function Listed<T>(o: Option<seq<T>>): seq<T> {
    match o
    case Some(xs) => xs
    case None => []
  }

  /** The six columns of the row for `fm`, and what they read back as: the end of the process exactly when some token
      holds a bar; otherwise everything, with an empty list for a nil list of ranges and one empty owner for no
      owners. */
  predicate Written(fm: FileMeta, db: DBFileMeta) {
    var rs, xs := Listed(fm.RngCodeList), Listed(fm.OwnerList);
    && db.Name == fm.Name && db.Id == fm.Id && db.BlobId == fm.BlobId && db.Etag == fm.Etag
    && (rs == [] ==> db.RngList == "") && (xs == [] ==> db.OwnerList == "")
    && (Decode(db) == Crash <==> exists i :: 0 <= i < |rs| && '|' in rs[i].Token)
    && (Decode(db).Ok? ==>
          && Decode(db).value == fm.(OwnerList := Decode(db).value.OwnerList, RngCodeList := Some(rs))
          && (xs == [] ==> Decode(db).value.OwnerList == Some([""]))
          && (xs != [] && (forall i :: 0 <= i < |xs| ==> ',' !in xs[i]) ==> Decode(db).value.OwnerList == Some(xs)))
  }

  lemma WrittenReadsBack(fm: FileMeta)
    requires PrintableMeta(fm)
    ensures Written(fm, Encode(fm))
  {
    hide Joined, Split, Jsons, DecodeRanges, TokensWithout;
    EmptyText();
    match fm.OwnerList {
      case Some(xs) =>
        SplitInverts(xs, COMMA);
        NoCommas(xs);
      case None =>
    }
    match fm.RngCodeList {
      case Some(rs) => RangesReadBack(rs);
      case None =>
    }
  }

  lemma NoCommas(xs: seq<string>)
    ensures (forall i :: 0 <= i < |xs| ==> ',' !in xs[i]) ==> AllWithout(xs, COMMA)
  {
  }

  lemma RangesReadBack(rs: seq<RangeCode>)
    requires PrintableCodes(rs)
    ensures var r := DecodeRanges(Joined(Jsons(rs), BAR));
            if exists i :: 0 <= i < |rs| && '|' in rs[i].Token then r == Crash else r == Ok(rs)
  {
    hide Joined, Jsons, DecodeRanges;
    RangesRoundTrip(rs);
    if exists i :: 0 <= i < |rs| && '|' in rs[i].Token {
      BarCrashes(rs);
    } else {
      assert TokensWithout(rs);
    }
  }

  /** Empty parts between two bars are skipped. */
  lemma {:induction false} EmptyPartsSkipped(n: nat)
    ensures DecodeRanges(seq(n, _ => '|')) == Ok([])
    ensures DecodeParts(Split(seq(n, _ => '|'), BAR)) == Ok([])
  {
    var t := seq(n, _ => '|');
    if n > 0 {
      EmptyPartsSkipped(n - 1);
      assert t[1..] == seq(n - 1, _ => '|');
      assert Split(t, BAR)[1..] == Split(t[1..], BAR);
    }
  }

  lemma EmptyText()
    ensures Joined([], COMMA) == Joined([], BAR) == "" && Jsons([]) == [] && DecodeRanges("") == Ok([])
    ensures Split("", COMMA) == [""]
  {
  }

  // ----- the loops -----

  lemma JoinedStep(xs: seq<string>, i: nat, text: string, d: char)
    requires i < |xs| && text + Joined(xs[i..], d) == Joined(xs, d)
    ensures (if i + 1 < |xs| then text + xs[i] + [d] else text + xs[i]) + Joined(xs[i + 1..], d) == Joined(xs, d)
  {
    var rest := xs[i..];
    assert rest[0] == xs[i] && rest[1..] == xs[i + 1..];
    if i + 1 < |xs| {
      assert text + xs[i] + [d] + Joined(xs[i + 1..], d) == text + (xs[i] + ([d] + Joined(xs[i + 1..], d)));
    } else {
      assert xs[i + 1..] == [];
    }
  }

  method FileMeta2DBFileMeta(fm: FileMeta) returns (dbfm: DBFileMeta)
    requires PrintableMeta(fm)
    ensures dbfm == Encode(fm)
    ensures Written(fm, dbfm)
  {
    hide Written, Joined, Jsons, ToJson, Decode;
    WrittenReadsBack(fm);
    EmptyText();
    var ownerStr, rngStr := "", "";
    if fm.OwnerList.Some? {
      var xs := fm.OwnerList.value;
      var e := 0;
      while e < |xs|
        invariant 0 <= e <= |xs|
        invariant ownerStr + Joined(xs[e..], COMMA) == Joined(xs, COMMA)
      {
        JoinedStep(xs, e, ownerStr, COMMA);
        ownerStr := ownerStr + xs[e];
        if e + 1 < |xs| {
          ownerStr := ownerStr + ",";
        }
        e := e + 1;
      }
      assert xs[e..] == [];
    }
    dbfm := DBFileMeta(fm.Name, fm.Id, ownerStr, fm.BlobId, "", fm.Etag);
    if fm.RngCodeList == None {
      return;
    }
    var rs := fm.RngCodeList.value;
    var e := 0;
    while e < |rs|
      invariant 0 <= e <= |rs|
      invariant rngStr + Joined(Jsons(rs)[e..], BAR) == Joined(Jsons(rs), BAR)
    {
      JoinedStep(Jsons(rs), e, rngStr, BAR);
      JsonsAt(rs, e);
      rngStr := rngStr + ToJson(rs[e]);
      if e + 1 < |rs| {
        rngStr := rngStr + "|";
      }
      e := e + 1;
    }
    assert Jsons(rs)[e..] == [];
    dbfm := dbfm.(RngList := rngStr);
  }

  lemma {:induction false} JsonsAt(rs: seq<RangeCode>, i: nat)
    requires PrintableCodes(rs) && i < |rs|
    ensures Jsons(rs)[i] == ToJson(rs[i])
  {
    if i > 0 {
      JsonsAt(rs[1..], i - 1);
    }
  }

  /** Ranges read so far, in front of the outcome for the rest. */
  function After(rs: seq<RangeCode>, rest: Outcome<seq<RangeCode>>): Outcome<seq<RangeCode>> {
    match rest
    case Ok(more) => Ok(rs + more)
    case Crash => Crash
  }

  lemma AfterNothing(o: Outcome<seq<RangeCode>>)
    ensures After([], o) == o
  {
    if o.Ok? {
      assert [] + o.value == o.value;
    }
  }

  lemma AfterAll(rs: seq<RangeCode>)
    ensures After(rs, DecodeParts([])) == Ok(rs)
  {
    assert rs + [] == rs;
  }

  lemma AfterStep(parts: seq<string>, i: nat, rs: seq<RangeCode>)
    requires i < |parts|
    ensures parts[i] == "" ==> DecodeParts(parts[i..]) == DecodeParts(parts[i + 1..])
    ensures parts[i] != "" ==>
              After(rs, DecodeParts(parts[i..]))
              == match ToRangeCode(parts[i])
                 case Ok(rc) => After(rs + [rc], DecodeParts(parts[i + 1..]))
                 case Crash => Crash
  {
    assert parts[i..][0] == parts[i] && parts[i..][1..] == parts[i + 1..];
    hide ToRangeCode;
    match (ToRangeCode(parts[i]), DecodeParts(parts[i + 1..]))
    case (Ok(rc), Ok(more)) => assert rs + ([rc] + more) == rs + [rc] + more;
    case _ =>
  }

  method DBFileMeta2FileMeta(dbfm: DBFileMeta) returns (r: Outcome<FileMeta>)
    ensures r == Decode(dbfm)
  {
    hide ToRangeCode, DecodeParts, Split;
    var ownerArr := Split(dbfm.OwnerList, COMMA);
    var ownerll: seq<string> := [];
    for i := 0 to |ownerArr|
      invariant ownerll == ownerArr[..i]
    {
      ownerll := ownerll + [ownerArr[i]];
    }
    assert ownerll == ownerArr;
    var rngll: seq<RangeCode> := [];
    var fm := FileMeta(dbfm.Name, dbfm.Id, Some(ownerll), dbfm.BlobId, Some(rngll), dbfm.Etag);
    if dbfm.RngList == "" {
      return Ok(fm);
    }
    var rngArr := Split(dbfm.RngList, BAR);
    assert rngArr[0..] == rngArr;
    AfterNothing(DecodeParts(rngArr));
    for i := 0 to |rngArr|
      invariant After(rngll, DecodeParts(rngArr[i..])) == DecodeParts(rngArr)
    {
      AfterStep(rngArr, i, rngll);
      if rngArr[i] == "" {
        continue;
      }
      var code := ToRangeCode(rngArr[i]);
      if code == Crash {
        return Crash;
      }
      rngll := rngll + [code.value];
    }
    assert rngArr[|rngArr|..] == [];
    AfterAll(rngll);
    r := Ok(fm.(RngCodeList := Some(rngll)));
  }
}
