/** The part of JSON (RFC 8259) that the index and manifest files use: strings without escapes, integers,
    objects and arrays, with insignificant whitespace. */
module Json {
  import opened Bytes
  import opened Decimal

  datatype Value =
    | Str(s: string)
    | Num(n: int)
    | Obj(members: seq<(string, Value)>)
    | Arr(items: seq<Value>)

  /** A character that `encoding/json` prints as itself inside a string. */
  predicate PlainChar(c: char) {
    ' ' <= c <= '~' && c != '"' && c != '\\' && c != '<' && c != '>' && c != '&'
  }

  predicate Plain(s: string) {
    forall i :: 0 <= i < |s| ==> PlainChar(s[i])
  }

  // ----- printer -----

  predicate Scalar(v: Value) {
    v.Str? || v.Num?
  }

  /** A member list whose keys and strings need no escape and whose values are scalars. */
  predicate Flat(ms: seq<(string, Value)>) {
    forall i :: 0 <= i < |ms| ==>
                  Plain(ms[i].0) && Scalar(ms[i].1) && (ms[i].1.Str? ==> Plain(ms[i].1.s))
  }

  function Quote(s: string): string {
    ['"'] + s + ['"']
  }

  function PrintScalar(v: Value): string
    requires Scalar(v)
  {
    match v
    case Str(s) => Quote(s)
    case Num(n) => Itoa(n)
  }

  function PrintMember(m: (string, Value)): string
    requires Scalar(m.1)
  {
    Quote(m.0) + ([':'] + PrintScalar(m.1))
  }

  /** `json.Marshal` of a struct: its members in order, no whitespace. */
  function PrintMembers(ms: seq<(string, Value)>): string
    requires Flat(ms) && ms != []
  {
    if |ms| == 1 then PrintMember(ms[0]) else PrintMember(ms[0]) + ([','] + PrintMembers(ms[1..]))
  }

  function PrintObject(ms: seq<(string, Value)>): string
    requires Flat(ms) && ms != []
  {
    ['{'] + PrintMembers(ms) + ['}']
  }

  // ----- what is printed -----

  lemma MemberText(m: (string, Value), key: string)
    requires Scalar(m.1) && Quote(m.0) + [':'] == key
    ensures PrintMember(m) == key + PrintScalar(m.1)
  {
    assert PrintMember(m) == Quote(m.0) + [':'] + PrintScalar(m.1);
  }

  lemma ThreeMembers(a: (string, Value), b: (string, Value), c: (string, Value))
    requires Scalar(a.1) && Scalar(b.1) && Scalar(c.1) && Flat([a, b, c])
    ensures PrintObject([a, b, c])
         == "{" + PrintMember(a) + "," + PrintMember(b) + "," + PrintMember(c) + "}"
  {
    hide PrintMember;
    assert [a, b, c][1..] == [b, c] && [b, c][1..] == [c] && [a, b, c][0] == a && [b, c][0] == b && [c][0] == c;
    assert PrintMembers([c]) == PrintMember(c);
    assert PrintMembers([b, c]) == PrintMember(b) + ([','] + PrintMember(c));
  }

  lemma SixMembers(
      a: (string, Value), b: (string, Value), c: (string, Value), d: (string, Value), e: (string, Value),
      f: (string, Value))
    requires Scalar(a.1) && Scalar(b.1) && Scalar(c.1) && Scalar(d.1) && Scalar(e.1) && Scalar(f.1)
    requires Flat([a, b, c, d, e, f])
    ensures PrintObject([a, b, c, d, e, f])
         == "{" + PrintMember(a) + "," + PrintMember(b) + "," + PrintMember(c) + "," + PrintMember(d)
            + "," + PrintMember(e) + "," + PrintMember(f) + "}"
  {
    hide PrintMember;
    assert [f][0] == f && [e, f][1..] == [f] && [d, e, f][1..] == [e, f] && [c, d, e, f][1..] == [d, e, f];
    assert [b, c, d, e, f][1..] == [c, d, e, f] && [a, b, c, d, e, f][1..] == [b, c, d, e, f];
    assert PrintMembers([f]) == PrintMember(f);
    assert PrintMembers([e, f]) == PrintMember(e) + ([','] + PrintMembers([f]));
    assert PrintMembers([d, e, f]) == PrintMember(d) + ([','] + PrintMembers([e, f]));
    assert PrintMembers([c, d, e, f]) == PrintMember(c) + ([','] + PrintMembers([d, e, f]));
    assert PrintMembers([b, c, d, e, f]) == PrintMember(b) + ([','] + PrintMembers([c, d, e, f]));
    assert PrintMembers([a, b, c, d, e, f]) == PrintMember(a) + ([','] + PrintMembers([b, c, d, e, f]));
  }

  // ----- parser -----

  predicate IsSpace(c: char) {
    c == ' ' || c == '\n' || c == '\t' || c == '\r'
  }

  function SkipSpace(t: string): (r: string)
    ensures |r| <= |t|
    ensures t != "" && !IsSpace(t[0]) ==> r == t
  {
    if t != "" && IsSpace(t[0]) then SkipSpace(t[1..]) else t
  }

  /** The text up to the closing quote, and what follows it. Escapes and control characters are rejected. */
  function ScanString(t: string): (r: Option<(string, string)>)
    ensures r.Some? ==> |r.value.1| < |t|
  {
    if t == "" || t[0] < ' ' || t[0] == '\\' then None
    else if t[0] == '"' then Some(("", t[1..]))
    else
      match ScanString(t[1..])
      case None => None
      case Some((s, rest)) => Some(([t[0]] + s, rest))
  }

  function DigitRun(t: string): (k: nat)
    ensures k <= |t| && AllDigits(t[..k])
  {
    if t != "" && IsDigit(t[0]) then
      var k := DigitRun(t[1..]);
      assert t[..k + 1] == [t[0]] + t[1..][..k];
      k + 1
    else 0
  }

  function ScanNat(t: string): (r: Option<(nat, string)>)
    ensures r.Some? ==> |r.value.1| < |t|
  {
    var k := DigitRun(t);
    if k == 0 || (k > 1 && t[0] == '0') then None else Some((Decimal.Value(t[..k]), t[k..]))
  }

  function ScanInt(t: string): (r: Option<(int, string)>)
    ensures r.Some? ==> |r.value.1| < |t|
  {
    if t != "" && t[0] == '-' then
      match ScanNat(t[1..])
      case None => None
      case Some((n, rest)) => var m: int := n; Some((-m, rest))
    else
      match ScanNat(t)
      case None => None
      case Some((n, rest)) => var m: int := n; Some((m, rest))
  }

  function ParseValue(t: string): (r: Option<(Value, string)>)
    ensures r.Some? ==> |r.value.1| < |t|
    decreases |t|, 1
  {
    var u := SkipSpace(t);
    if u == "" then None
    else if u[0] == '"' then
      match ScanString(u[1..])
      case None => None
      case Some((s, rest)) => Some((Str(s), rest))
    else if u[0] == '{' then
      var w := SkipSpace(u[1..]);
      if w != "" && w[0] == '}' then Some((Obj([]), w[1..]))
      else
        match ParseMembers(w)
        case None => None
        case Some((ms, rest)) => Some((Obj(ms), rest))
    else if u[0] == '[' then
      var w := SkipSpace(u[1..]);
      if w != "" && w[0] == ']' then Some((Arr([]), w[1..]))
      else
        match ParseElements(w)
        case None => None
        case Some((vs, rest)) => Some((Arr(vs), rest))
    else
      match ScanInt(u)
      case None => None
      case Some((n, rest)) => Some((Num(n), rest))
  }

  /** One member and everything up to the closing brace. */
  function ParseMembers(t: string): (r: Option<(seq<(string, Value)>, string)>)
    ensures r.Some? ==> |r.value.1| < |t|
    decreases |t|, 2
  {
    var u := SkipSpace(t);
    if u == "" || u[0] != '"' then None
    else
      match ScanString(u[1..])
      case None => None
      case Some((key, afterKey)) =>
        var c := SkipSpace(afterKey);
        if c == "" || c[0] != ':' then None
        else
          match ParseValue(c[1..])
          case None => None
          case Some((v, afterValue)) =>
            var d := SkipSpace(afterValue);
            if d != "" && d[0] == ',' then
              match ParseMembers(d[1..])
              case None => None
              case Some((ms, rest)) => Some(([(key, v)] + ms, rest))
            else if d != "" && d[0] == '}' then Some(([(key, v)], d[1..]))
            else None
  }

  /** One element and everything up to the closing bracket. */
  function ParseElements(t: string): (r: Option<(seq<Value>, string)>)
    ensures r.Some? ==> |r.value.1| < |t|
    decreases |t|, 2
  {
    match ParseValue(t)
    case None => None
    case Some((v, afterValue)) =>
      var d := SkipSpace(afterValue);
      if d != "" && d[0] == ',' then
        match ParseElements(d[1..])
        case None => None
        case Some((vs, rest)) => Some(([v] + vs, rest))
      else if d != "" && d[0] == ']' then Some(([v], d[1..]))
      else None
  }

  /** A whole text: one value and nothing but whitespace around it. */
  function Parse(t: string): Option<Value> {
    match ParseValue(t)
    case None => None
    case Some((v, rest)) => if SkipSpace(rest) == "" then Some(v) else None
  }

  // ----- the parser inverts the printer -----

  lemma {:induction false} ScanPlain(s: string, rest: string)
    requires Plain(s)
    ensures ScanString(s + (['"'] + rest)) == Some((s, rest))
  {
    var t := s + (['"'] + rest);
    if s == "" {
      assert t == ['"'] + rest;
    } else {
      assert t[1..] == s[1..] + (['"'] + rest);
      ScanPlain(s[1..], rest);
      assert s == [s[0]] + s[1..];
    }
  }

  predicate NoDigitFirst(rest: string) {
    rest == "" || !IsDigit(rest[0])
  }

  lemma {:induction false} DigitRunOf(s: string, rest: string)
    requires AllDigits(s) && NoDigitFirst(rest)
    ensures DigitRun(s + rest) == |s|
  {
    if s == "" {
      assert s + rest == rest;
    } else {
      assert (s + rest)[1..] == s[1..] + rest;
      DigitRunOf(s[1..], rest);
    }
  }

  lemma ScanDigits(n: nat, rest: string)
    requires NoDigitFirst(rest)
    ensures ScanNat(Digits(n) + rest) == Some((n, rest))
  {
    var s := Digits(n);
    DigitRunOf(s, rest);
    ValueOfDigits(n);
    assert (s + rest)[..|s|] == s && (s + rest)[|s|..] == rest;
  }

  lemma ScanPrintedNat(n: nat, rest: string)
    requires NoDigitFirst(rest)
    ensures var t := Digits(n) + rest;
            && t != "" && IsDigit(t[0])
            && ScanInt(t) == Some((n, rest))
  {
    var d := Digits(n);
    assert (d + rest)[0] == d[0];
    ScanDigits(n, rest);
  }

  lemma ScanPrintedInt(n: int, rest: string)
    requires NoDigitFirst(rest)
    ensures var t := Itoa(n) + rest;
            && t != "" && (t[0] == '-' || IsDigit(t[0]))
            && ScanInt(t) == Some((n, rest))
  {
    if n >= 0 {
      ScanPrintedNat(n, rest);
    } else {
      var d := Digits(-n);
      var t := "-" + d + rest;
      assert t[1..] == d + rest;
      ScanDigits(-n, rest);
      assert ScanInt(t) == Some((n, rest));
    }
  }

  lemma ParseQuoted(s: string, rest: string)
    requires Plain(s)
    ensures ParseValue(Quote(s) + rest) == Some((Str(s), rest))
  {
    var t := Quote(s) + rest;
    assert t[1..] == s + (['"'] + rest);
    assert SkipSpace(t) == t;
    ScanPlain(s, rest);
  }

  lemma ParseScalar(v: Value, rest: string)
    requires Scalar(v) && (v.Str? ==> Plain(v.s)) && NoDigitFirst(rest)
    ensures ParseValue(PrintScalar(v) + rest) == Some((v, rest))
  {
    match v
    case Str(s) => ParseQuoted(s, rest);
    case Num(n) =>
      ScanPrintedInt(n, rest);
      var t := Itoa(n) + rest;
      assert SkipSpace(t) == t;
  }

  lemma KeyHead(key: string, tail: string)
    requires Plain(key)
    ensures var t := Quote(key) + tail;
            t != "" && t[0] == '"' && SkipSpace(t) == t && ScanString(t[1..]) == Some((key, tail))
  {
    var t := Quote(key) + tail;
    assert t[1..] == key + (['"'] + tail);
    ScanPlain(key, tail);
  }

  lemma MemberHead(m: (string, Value), rest: string)
    requires Plain(m.0) && Scalar(m.1) && (m.1.Str? ==> Plain(m.1.s)) && NoDigitFirst(rest)
    ensures var t := PrintMember(m) + rest;
            && t != "" && t[0] == '"' && SkipSpace(t) == t
            && ScanString(t[1..]) == Some((m.0, [':'] + (PrintScalar(m.1) + rest)))
            && ParseValue(([':'] + (PrintScalar(m.1) + rest))[1..]) == Some((m.1, rest))
  {
    var v := PrintScalar(m.1);
    var tail := [':'] + (v + rest);
    assert PrintMember(m) + rest == Quote(m.0) + tail;
    KeyHead(m.0, tail);
    assert tail[1..] == v + rest;
    ParseScalar(m.1, rest);
  }

  lemma Regroup(a: string, b: string, c: string, d: string)
    ensures a + (b + c) + d == a + (b + (c + d))
  {
  }

  lemma LastMember(m: (string, Value), rest: string)
    requires Plain(m.0) && Scalar(m.1) && (m.1.Str? ==> Plain(m.1.s))
    ensures ParseMembers(PrintMember(m) + (['}'] + rest)) == Some(([m], rest))
  {
    var end := ['}'] + rest;
    MemberHead(m, end);
    assert SkipSpace(end) == end && end[1..] == rest;
  }

  lemma NextMember(m: (string, Value), tail: string, ms: seq<(string, Value)>, rest: string)
    requires Plain(m.0) && Scalar(m.1) && (m.1.Str? ==> Plain(m.1.s))
    requires ParseMembers(tail) == Some((ms, rest))
    ensures ParseMembers(PrintMember(m) + ([','] + tail)) == Some(([m] + ms, rest))
  {
    var more := [','] + tail;
    var t := PrintMember(m) + more;
    MemberHead(m, more);
    assert more[0] == ',' && SkipSpace(more) == more && more[1..] == tail;
    var colon := [':'] + (PrintScalar(m.1) + more);
    assert colon[0] == ':' && SkipSpace(colon) == colon;
    assert SkipSpace(t) == t && ScanString(t[1..]) == Some((m.0, colon));
  }

  lemma FirstMember(ms: seq<(string, Value)>, end: string)
    requires Flat(ms) && |ms| > 1
    ensures PrintMembers(ms) + end == PrintMember(ms[0]) + ([','] + (PrintMembers(ms[1..]) + end))
    ensures ms == [ms[0]] + ms[1..]
  {
    Regroup(PrintMember(ms[0]), [','], PrintMembers(ms[1..]), end);
  }

  lemma {:induction false} ParsePrintedMembers(ms: seq<(string, Value)>, rest: string)
    requires Flat(ms) && ms != []
    ensures ParseMembers(PrintMembers(ms) + (['}'] + rest)) == Some((ms, rest))
    decreases |ms|
  {
    if |ms| == 1 {
      LastMember(ms[0], rest);
      assert ms == [ms[0]];
    } else {
      var end := ['}'] + rest;
      ParsePrintedMembers(ms[1..], rest);
      NextMember(ms[0], PrintMembers(ms[1..]) + end, ms[1..], rest);
      FirstMember(ms, end);
    }
  }

  lemma ObjectBody(body: string, ms: seq<(string, Value)>, rest: string)
    requires body != "" && body[0] == '"' && ParseMembers(body) == Some((ms, rest))
    ensures ParseValue(['{'] + body) == Some((Obj(ms), rest))
  {
    var t := ['{'] + body;
    assert t[1..] == body;
    assert SkipSpace(t) == t && SkipSpace(body) == body;
  }

  /** Whatever follows a printed object, the parser takes exactly the object and returns its members. */
  lemma ParsePrintedObject(ms: seq<(string, Value)>, rest: string)
    requires Flat(ms) && ms != []
    ensures ParseValue(PrintObject(ms) + rest) == Some((Obj(ms), rest))
  {
    var p, end := PrintMembers(ms), ['}'] + rest;
    MembersStart(ms);
    ParsePrintedMembers(ms, rest);
    ObjectBody(p + end, ms, rest);
    assert ['{'] + p + ['}'] + rest == ['{'] + (p + end);
  }

  lemma MembersStart(ms: seq<(string, Value)>)
    requires Flat(ms) && ms != []
    ensures PrintMembers(ms) != "" && PrintMembers(ms)[0] == '"'
  {
  }

  // ----- quotes are paired -----

  function Quotes(t: string): nat {
    if t == "" then 0 else (if t[0] == '"' then 1 else 0) + Quotes(t[1..])
  }

  lemma QuotesFirst(t: string)
    ensures t != "" ==> Quotes(t) == (if t[0] == '"' then 1 else 0) + Quotes(t[1..])
  {
  }

  lemma {:induction false} QuotesJoin(a: string, b: string)
    ensures Quotes(a + b) == Quotes(a) + Quotes(b)
  {
    if a == "" {
      assert a + b == b;
    } else {
      assert (a + b)[1..] == a[1..] + b;
      QuotesJoin(a[1..], b);
    }
  }

  lemma {:induction false} NoQuotes(t: string)
    requires forall i :: 0 <= i < |t| ==> t[i] != '"'
    ensures Quotes(t) == 0
  {
    if t != "" {
      NoQuotes(t[1..]);
    }
  }

  lemma {:induction false} SpaceQuotes(t: string)
    ensures Quotes(SkipSpace(t)) == Quotes(t)
  {
    if t != "" && IsSpace(t[0]) {
      SpaceQuotes(t[1..]);
    }
  }

  lemma {:induction false} ScanQuotes(t: string)
    requires ScanString(t).Some?
    ensures Quotes(t) == Quotes(ScanString(t).value.1) + 1
  {
    if t[0] != '"' {
      ScanQuotes(t[1..]);
    }
  }

  lemma NatQuotes(t: string)
    requires ScanNat(t).Some?
    ensures Quotes(t) == Quotes(ScanNat(t).value.1)
  {
    var k := DigitRun(t);
    assert t == t[..k] + t[k..];
    QuotesJoin(t[..k], t[k..]);
    NoQuotes(t[..k]);
  }

  lemma IntQuotes(t: string)
    requires ScanInt(t).Some?
    ensures Quotes(t) == Quotes(ScanInt(t).value.1)
  {
    if t != "" && t[0] == '-' {
      NatQuotes(t[1..]);
    } else {
      NatQuotes(t);
    }
  }

  /** What the parser takes holds an even number of quotes. */
  lemma {:induction false} ValueQuotes(t: string)
    requires ParseValue(t).Some?
    ensures (Quotes(t) - Quotes(ParseValue(t).value.1)) % 2 == 0
    decreases |t|, 1
  {
    hide Quotes, ParseMembers, ParseElements, ScanString, ScanInt, SkipSpace;
    var u := SkipSpace(t);
    SpaceQuotes(t);
    QuotesFirst(u);
    if u[0] == '"' {
      ScanQuotes(u[1..]);
    } else if u[0] == '{' || u[0] == '[' {
      var w := SkipSpace(u[1..]);
      SpaceQuotes(u[1..]);
      QuotesFirst(w);
      if u[0] == '{' && !(w != "" && w[0] == '}') {
        MembersQuotes(w);
      } else if u[0] == '[' && !(w != "" && w[0] == ']') {
        ElementsQuotes(w);
      }
    } else {
      IntQuotes(u);
    }
  }

  lemma {:induction false} MembersQuotes(t: string)
    requires ParseMembers(t).Some?
    ensures (Quotes(t) - Quotes(ParseMembers(t).value.1)) % 2 == 0
    decreases |t|, 2
  {
    hide Quotes, ParseValue, ScanString, SkipSpace, ParseElements;
    var u := SkipSpace(t);
    SpaceQuotes(t);
    QuotesFirst(u);
    ScanQuotes(u[1..]);
    var c := SkipSpace(ScanString(u[1..]).value.1);
    SpaceQuotes(ScanString(u[1..]).value.1);
    QuotesFirst(c);
    ValueQuotes(c[1..]);
    var e := SkipSpace(ParseValue(c[1..]).value.1);
    SpaceQuotes(ParseValue(c[1..]).value.1);
    QuotesFirst(e);
    if e[0] == ',' {
      MembersQuotes(e[1..]);
    }
  }

  lemma {:induction false} ElementsQuotes(t: string)
    requires ParseElements(t).Some?
    ensures (Quotes(t) - Quotes(ParseElements(t).value.1)) % 2 == 0
    decreases |t|, 2
  {
    hide Quotes, ParseValue, ParseMembers, SkipSpace;
    ValueQuotes(t);
    var e := SkipSpace(ParseValue(t).value.1);
    SpaceQuotes(ParseValue(t).value.1);
    QuotesFirst(e);
    if e[0] == ',' {
      ElementsQuotes(e[1..]);
    }
  }

  /** A text with an odd number of quotes is not JSON. */
  lemma OddQuotes(t: string)
    requires Quotes(t) % 2 == 1
    ensures Parse(t) == None
  {
    if Parse(t).Some? {
      ValueQuotes(t);
      SpaceQuotes(ParseValue(t).value.1);
    }
  }

  // ----- an array ends with its bracket -----

  predicate Suffix(r: string, t: string) {
    |r| <= |t| && r == t[|t| - |r|..]
  }

  lemma SuffixOfRest(r: string, t: string, i: nat)
    requires i <= |t| && Suffix(r, t[i..])
    ensures Suffix(r, t)
  {
    assert t[i..][|t| - i - |r|..] == t[|t| - |r|..];
  }

  lemma SuffixTrans(r: string, s: string, t: string)
    requires Suffix(r, s) && Suffix(s, t)
    ensures Suffix(r, t)
  {
    SuffixOfRest(r, t, |t| - |s|);
  }

  lemma {:induction false} SpaceSuffix(t: string)
    ensures Suffix(SkipSpace(t), t)
  {
    if t != "" && IsSpace(t[0]) {
      SpaceSuffix(t[1..]);
      SuffixOfRest(SkipSpace(t), t, 1);
    }
  }

  lemma {:induction false} ScanSuffix(t: string)
    requires ScanString(t).Some?
    ensures Suffix(ScanString(t).value.1, t)
  {
    if t[0] != '"' {
      ScanSuffix(t[1..]);
      SuffixOfRest(ScanString(t).value.1, t, 1);
    }
  }

  lemma IntSuffix(t: string)
    requires ScanInt(t).Some?
    ensures Suffix(ScanInt(t).value.1, t)
  {
    if t != "" && t[0] == '-' {
      SuffixOfRest(ScanInt(t).value.1, t, 1);
    }
  }

  /** The text behind its first character. */
  lemma Tail(t: string, u: string)
    requires Suffix(u, t) && u != ""
    ensures Suffix(u[1..], t)
  {
    assert u[1..] == t[|t| - |u| + 1..];
  }

  lemma {:induction false} ValueSuffix(t: string)
    requires ParseValue(t).Some?
    ensures Suffix(ParseValue(t).value.1, t)
    decreases |t|, 1
  {
    hide ParseMembers, ParseElements, ScanString, ScanInt, SkipSpace, Suffix;
    var u, rest := SkipSpace(t), ParseValue(t).value.1;
    SpaceSuffix(t);
    Tail(t, u);
    if u[0] == '"' {
      ScanSuffix(u[1..]);
      SuffixTrans(rest, u[1..], t);
    } else if u[0] == '{' || u[0] == '[' {
      var w := SkipSpace(u[1..]);
      SpaceSuffix(u[1..]);
      SuffixTrans(w, u[1..], t);
      if u[0] == '{' && !(w != "" && w[0] == '}') {
        MembersSuffix(w);
        SuffixTrans(rest, w, t);
      } else if u[0] == '[' && !(w != "" && w[0] == ']') {
        ElementsEnd(w);
        SuffixTrans(rest, w, t);
      } else {
        Tail(t, w);
      }
    } else {
      IntSuffix(u);
      SuffixTrans(rest, u, t);
    }
  }

  lemma {:induction false} MembersSuffix(t: string)
    requires ParseMembers(t).Some?
    ensures Suffix(ParseMembers(t).value.1, t)
    decreases |t|, 2
  {
    hide ParseValue, ScanString, SkipSpace, Suffix;
    var u, rest := SkipSpace(t), ParseMembers(t).value.1;
    SpaceSuffix(t);
    Tail(t, u);
    var k := ScanString(u[1..]).value.1;
    ScanSuffix(u[1..]);
    SuffixTrans(k, u[1..], t);
    var c := SkipSpace(k);
    SpaceSuffix(k);
    SuffixTrans(c, k, t);
    Tail(t, c);
    var v := ParseValue(c[1..]).value.1;
    ValueSuffix(c[1..]);
    SuffixTrans(v, c[1..], t);
    var e := SkipSpace(v);
    SpaceSuffix(v);
    SuffixTrans(e, v, t);
    Tail(t, e);
    if e[0] == ',' {
      MembersSuffix(e[1..]);
      SuffixTrans(rest, e[1..], t);
    }
  }

  /** What stands in front of the rest is the closing bracket. */
  lemma {:induction false} ElementsEnd(t: string)
    requires ParseElements(t).Some?
    ensures var rest := ParseElements(t).value.1; Suffix(rest, t) && t[|t| - |rest| - 1] == ']'
    decreases |t|, 2
  {
    hide ParseValue, SkipSpace, Suffix;
    var v, rest := ParseValue(t).value.1, ParseElements(t).value.1;
    ValueSuffix(t);
    var e := SkipSpace(v);
    SpaceSuffix(v);
    SuffixTrans(e, v, t);
    Tail(t, e);
    if e[0] == ',' {
      ElementsEnd(e[1..]);
      SuffixTrans(rest, e[1..], t);
      Inside(e[1..], t, |rest| + 1);
    } else {
      Inside(e, t, |e|);
    }
  }

  lemma Inside(s: string, t: string, k: nat)
    requires Suffix(s, t) && 1 <= k <= |s|
    ensures s[|s| - k] == t[|t| - k]
  {
  }

  lemma {:induction false} OnlySpace(t: string)
    requires SkipSpace(t) == ""
    ensures forall i :: 0 <= i < |t| ==> IsSpace(t[i])
  {
    if t != "" {
      OnlySpace(t[1..]);
    }
  }

  lemma TopArray(t: string)
    requires ParseValue(t).Some? && ParseValue(t).value.0.Arr?
    ensures var u := SkipSpace(t);
            && u != "" && u[0] == '['
            && var w := SkipSpace(u[1..]);
               if w != "" && w[0] == ']' then ParseValue(t).value.1 == w[1..]
               else ParseElements(w).Some? && ParseValue(t).value.1 == ParseElements(w).value.1
  {
    hide ParseMembers, ParseElements, ScanString, ScanInt, SkipSpace;
  }

  /** The last bracket of an array has only whitespace after it. */
  lemma ArrayEnds(t: string) returns (i: nat)
    requires Parse(t).Some? && Parse(t).value.Arr?
    ensures i < |t| && t[i] == ']' && forall k :: i < k < |t| ==> IsSpace(t[k])
  {
    hide SkipSpace, ParseElements, ParseValue, Suffix;
    TopArray(t);
    var u, rest := SkipSpace(t), ParseValue(t).value.1;
    SpaceSuffix(t);
    Tail(t, u);
    var w := SkipSpace(u[1..]);
    SpaceSuffix(u[1..]);
    SuffixTrans(w, u[1..], t);
    if w != "" && w[0] == ']' {
      Tail(t, w);
      Inside(w, t, |w|);
    } else {
      ElementsEnd(w);
      SuffixTrans(rest, w, t);
      Inside(w, t, |rest| + 1);
    }
    OnlySpace(rest);
    RestOf(rest, t);
    i := |t| - |rest| - 1;
  }

  lemma RestOf(r: string, t: string)
    requires Suffix(r, t)
    ensures forall k :: |t| - |r| <= k < |t| ==> t[k] == r[k - (|t| - |r|)]
  {
  }

  /** Neither a closing bracket nor whitespace. */
  predicate NoEnd(t: string) {
    forall i :: 0 <= i < |t| ==> t[i] != ']' && !IsSpace(t[i])
  }

  lemma NoEndJoin(a: string, b: string)
    requires NoEnd(a) && NoEnd(b)
    ensures NoEnd(a + b)
  {
  }

  lemma MemberNoEnd(m: (string, Value))
    requires Scalar(m.1) && NoEnd(m.0) && (m.1.Str? ==> NoEnd(m.1.s))
    ensures NoEnd(PrintMember(m))
  {
  }

  lemma {:induction false} MembersNoEnd(ms: seq<(string, Value)>)
    requires Flat(ms) && ms != []
    requires forall i :: 0 <= i < |ms| ==> NoEnd(ms[i].0) && (ms[i].1.Str? ==> NoEnd(ms[i].1.s))
    ensures NoEnd(PrintMembers(ms))
  {
    hide NoEnd, PrintMember;
    MemberNoEnd(ms[0]);
    if |ms| > 1 {
      MembersNoEnd(ms[1..]);
      CommaNoEnd();
      NoEndJoin([','], PrintMembers(ms[1..]));
      NoEndJoin(PrintMember(ms[0]), [','] + PrintMembers(ms[1..]));
    }
  }

  lemma CommaNoEnd()
    ensures NoEnd([',']) && NoEnd(['{']) && NoEnd(['}'])
  {
  }

  lemma ObjectNoEnd(ms: seq<(string, Value)>)
    requires Flat(ms) && ms != []
    requires forall i :: 0 <= i < |ms| ==> NoEnd(ms[i].0) && (ms[i].1.Str? ==> NoEnd(ms[i].1.s))
    ensures NoEnd(PrintObject(ms)) && PrintObject(ms) != ""
  {
    hide NoEnd;
    MembersNoEnd(ms);
    CommaNoEnd();
    NoEndJoin(['{'], PrintMembers(ms));
    NoEndJoin(['{'] + PrintMembers(ms), ['}']);
  }
}
