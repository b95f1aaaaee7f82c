/** The key under which a segment is stored, and the order in which keys sort. */
module RangeKey {
  import opened Bytes
  import opened Decimal
  import opened RangeList

  const WIDTH := 9

  /** `countDigits`, whose loop counts divisions by ten; a negative number has none. */
  method CountDigits(num: int) returns (ret: int)
    ensures ret == if num < 0 then 0 else |Digits(num)|
  {
    if num == 0 {
      return 1;
    }
    ret := 0;
    var n := num;
    while n > 0
      invariant num < 0 ==> n == num && ret == 0
      invariant num > 0 ==> n >= 0 && ret + (if n == 0 then 0 else |Digits(n)|) == |Digits(num)|
    {
      n := n / 10;
      ret := ret + 1;
    }
  }

  function ZeroString(n: int): (s: string)
    ensures |s| == if n < 0 then 0 else n
    ensures AllDigits(s)
  {
    if n <= 0 then "" else ZeroString(n - 1) + "0"
  }

  /** The start in decimal, filled up with zeros to nine digits where it has fewer. */
  function Padded(start: int): string {
    ZeroString(WIDTH - if start < 0 then 0 else |Digits(start)|) + Itoa(start)
  }

  function DbEntry(rc: RangeCode): string {
    "rg(" + (Padded(rc.Start) + (")_tk(" + (rc.Token + ")")))
  }

  method ToDbEntry(rc: RangeCode) returns (hash: string)
    ensures hash == DbEntry(rc)
  {
    var digits := CountDigits(rc.Start);
    var numOfZeros := WIDTH - digits;
    var leadingZeros := "";
    var i := 0;
    while i < numOfZeros
      invariant 0 <= i && (i <= numOfZeros || i == 0)
      invariant leadingZeros == ZeroString(i)
    {
      leadingZeros := leadingZeros + "0";
      i := i + 1;
    }
    var rg := leadingZeros + Itoa(rc.Start);
    hash := "rg(" + (rg + (")_tk(" + (rc.Token + ")")));
  }

  // ----- order -----

  /** Byte-wise comparison, as the database orders ASCII keys. */
  predicate Before(a: string, b: string) {
    if b == "" then false
    else if a == "" then true
    else if a[0] != b[0] then a[0] < b[0]
    else Before(a[1..], b[1..])
  }

  lemma {:induction false} SamePrefix(p: string, a: string, b: string)
    ensures Before(p + a, p + b) <==> Before(a, b)
  {
    if p == "" {
      assert p + a == a && p + b == b;
    } else {
      assert (p + a)[1..] == p[1..] + a && (p + b)[1..] == p[1..] + b;
      SamePrefix(p[1..], a, b);
    }
  }

  lemma TenTimes(d: int, p: int)
    ensures d * (10 * p) == 10 * (d * p)
  {
  }

  lemma {:induction false} ValueFirst(s: string)
    requires s != "" && AllDigits(s)
    ensures Value(s) == (s[0] as int - 48) * Pow10(|s| - 1) + Value(s[1..])
  {
    var n := |s| - 1;
    if n > 0 {
      ValueFirst(s[..n]);
      assert s[1..][..n - 1] == s[..n][1..];
      assert s[1..][n - 1] == s[n];
      assert Pow10(n) == 10 * Pow10(n - 1);
      var d := s[0] as int - 48;
      assert d * Pow10(n) == 10 * (d * Pow10(n - 1)) by { TenTimes(d, Pow10(n - 1)); }
    } else {
      assert s[1..] == "" && s[..n] == "";
      assert Pow10(0) == 1;
    }
  }

  lemma {:induction false} ValueBound(s: string)
    requires AllDigits(s)
    ensures Value(s) < Pow10(|s|)
  {
    if s != "" {
      ValueBound(s[..|s| - 1]);
    }
  }

  /** Between numerals of the same width the first difference decides, and the values order the same way; between equal
      ones what follows decides. */
  lemma {:induction false} SameWidth(a: string, b: string, x: string, y: string)
    requires |a| == |b| && AllDigits(a) && AllDigits(b)
    ensures Before(a + x, b + y) <==> Value(a) < Value(b) || (Value(a) == Value(b) && Before(x, y))
    ensures Value(a) == Value(b) <==> a == b
  {
    if a == "" {
      assert a + x == x && b + y == y;
    } else {
      var p := Pow10(|a| - 1);
      assert (a + x)[1..] == a[1..] + x && (b + y)[1..] == b[1..] + y;
      SameWidth(a[1..], b[1..], x, y);
      ValueFirst(a);
      ValueFirst(b);
      ValueBound(a[1..]);
      ValueBound(b[1..]);
      assert a == [a[0]] + a[1..] && b == [b[0]] + b[1..];
      DigitsDecide(a[0] as int - 48, b[0] as int - 48, Value(a[1..]), Value(b[1..]), p);
    }
  }

  lemma AtLeastOnce(k: int, p: nat)
    requires k >= 1
    ensures k * p >= p
  {
  }

  lemma DigitsDecide(d: int, e: int, u: nat, v: nat, p: nat)
    requires u < p && v < p
    ensures d * p + u < e * p + v <==> d < e || (d == e && u < v)
    ensures d * p + u == e * p + v <==> d == e && u == v
  {
    assert (e - d) * p == e * p - d * p;
    if d < e {
      AtLeastOnce(e - d, p);
    } else if d > e {
      assert (d - e) * p == d * p - e * p;
      AtLeastOnce(d - e, p);
    }
  }

  lemma {:induction false} PaddedValue(n: int, s: string)
    requires AllDigits(s)
    ensures Value(ZeroString(n) + s) == Value(s)
  {
    if s == "" {
      ZerosValue(n);
      assert ZeroString(n) + s == ZeroString(n);
    } else {
      var t := ZeroString(n) + s;
      assert t[..|t| - 1] == ZeroString(n) + s[..|s| - 1];
      PaddedValue(n, s[..|s| - 1]);
    }
  }

  lemma ValueSnoc(s: string, d: char)
    requires AllDigits(s) && IsDigit(d)
    ensures AllDigits(s + [d]) && Value(s + [d]) == 10 * Value(s) + (d as int - 48)
  {
    assert (s + [d])[..|s|] == s;
  }

  lemma ZerosStep(n: int)
    ensures n > 0 ==> ZeroString(n) == ZeroString(n - 1) + ['0']
    ensures n <= 0 ==> ZeroString(n) == "" && Value(ZeroString(n)) == 0
  {
  }

  lemma {:induction false} ZerosValue(n: int)
    ensures Value(ZeroString(n)) == 0
    decreases if n < 0 then 0 else n
  {
    hide ZeroString, Value;
    ZerosStep(n);
    if n > 0 {
      ZerosValue(n - 1);
      ValueSnoc(ZeroString(n - 1), '0');
    }
  }

  /** Starts of up to nine digits are written with exactly nine, longer ones as they are. */
  lemma PaddedWidth(start: int)
    requires 0 <= start
    ensures AllDigits(Padded(start)) && Value(Padded(start)) == start
    ensures start < Pow10(WIDTH) ==> |Padded(start)| == WIDTH
    ensures start >= Pow10(WIDTH) ==> Padded(start) == Digits(start) && |Padded(start)| > WIDTH
  {
    DigitCount(start, WIDTH);
    PaddedValue(WIDTH - |Digits(start)|, Digits(start));
    ValueOfDigits(start);
    if |Digits(start)| > WIDTH {
      assert Padded(start) == Digits(start);
    }
  }

  /** The part of a key behind its start. */
  function Rest(rc: RangeCode): string {
    ")_tk(" + (rc.Token + ")")
  }

  lemma EntryOrder(s: RangeCode, t: RangeCode)
    ensures Before(DbEntry(s), DbEntry(t)) <==> Before(Padded(s.Start) + Rest(s), Padded(t.Start) + Rest(t))
  {
    SamePrefix("rg(", Padded(s.Start) + Rest(s), Padded(t.Start) + Rest(t));
  }

  lemma NinePowers()
    ensures Pow10(WIDTH) == 1_000_000_000 && Pow10(WIDTH + 1) == 10_000_000_000
  {
    assert Pow10(3) == 1000 && Pow10(6) == 1_000_000;
  }

  /** A start of up to nine digits is written with exactly nine, between `rg(` and `)`; the token follows. */
  lemma KeyText(rc: RangeCode)
    requires 0 <= rc.Start < 1_000_000_000
    ensures var d := Padded(rc.Start);
            && |d| == 9 && AllDigits(d) && Value(d) == rc.Start
            && DbEntry(rc) == "rg(" + d + ")_tk(" + rc.Token + ")"
  {
    NinePowers();
    PaddedWidth(rc.Start);
  }

  /** A negative start is written behind nine zeros. */
  lemma NegativeKeyText(rc: RangeCode)
    requires rc.Start < 0
    ensures DbEntry(rc) == "rg(" + (("000000000" + ("-" + Digits(-rc.Start))) + (")_tk(" + (rc.Token + ")")))
  {
    hide Digits;
    NineZeros();
  }

  lemma NineZeros()
    ensures ZeroString(9) == "000000000"
  {
    assert ZeroString(3) == "000" && ZeroString(6) == "000000";
  }

  /** Below ten to the nine, keys sort as their starts do; equal starts sort by token. */
  lemma KeysSortByStart(s: RangeCode, t: RangeCode)
    requires 0 <= s.Start < 1_000_000_000 && 0 <= t.Start < 1_000_000_000
    ensures Before(DbEntry(s), DbEntry(t))
            <==> s.Start < t.Start || (s.Start == t.Start && Before(s.Token + ")", t.Token + ")"))
  {
    NinePowers();
    SamePrefix(")_tk(", s.Token + ")", t.Token + ")");
    EntryOrder(s, t);
    PaddedWidth(s.Start);
    PaddedWidth(t.Start);
    SameWidth(Padded(s.Start), Padded(t.Start), Rest(s), Rest(t));
  }

  lemma TenDigits(n: nat)
    requires Pow10(WIDTH) <= n < Pow10(WIDTH + 1)
    ensures Digits(n) == Digits(n / 10) + [DigitChar(n % 10)] && |Digits(n / 10)| == WIDTH
  {
    DigitCount(n, WIDTH + 1);
    DigitCount(n, WIDTH);
  }

  /** Across the tenth digit the order breaks: a nine-digit start sorts in front of a ten-digit one exactly when it is
      at most a tenth of it. */
  lemma TenthDigit(s: RangeCode, t: RangeCode)
    requires 0 <= s.Start < 1_000_000_000 <= t.Start < 10_000_000_000
    ensures Before(DbEntry(s), DbEntry(t)) <==> s.Start <= t.Start / 10
  {
    NinePowers();
    hide Padded, Digits, DbEntry, Value, Pow10, Rest, Before;
    EntryOrder(s, t);
    PaddedWidth(s.Start);
    PaddedWidth(t.Start);
    TenDigits(t.Start);
    ValueOfDigits(t.Start / 10);
    var head, last := Digits(t.Start / 10), [DigitChar(t.Start % 10)];
    assert head + last + Rest(t) == head + (last + Rest(t));
    SameWidth(Padded(s.Start), head, Rest(s), last + Rest(t));
    RestFirst(s, t, t.Start % 10);
  }

  /** The character behind a nine-digit start sorts in front of any digit. */
  lemma RestFirst(s: RangeCode, t: RangeCode, d: nat)
    requires d < 10
    ensures Before(Rest(s), [DigitChar(d)] + Rest(t))
  {
    assert Rest(s)[0] == ')' && ([DigitChar(d)] + Rest(t))[0] == DigitChar(d);
  }

  lemma BothTenDigits(s: RangeCode, t: RangeCode)
    requires Pow10(WIDTH) <= s.Start < Pow10(WIDTH + 1) && Pow10(WIDTH) <= t.Start < Pow10(WIDTH + 1)
    ensures Before(DbEntry(s), DbEntry(t)) <==> s.Start < t.Start || (s.Start == t.Start && Before(Rest(s), Rest(t)))
  {
    hide Padded, Digits, DbEntry, Value, Pow10, Rest, Before;
    EntryOrder(s, t);
    PaddedWidth(s.Start);
    PaddedWidth(t.Start);
    TenDigits(s.Start);
    TenDigits(t.Start);
    SameWidth(Padded(s.Start), Padded(t.Start), Rest(s), Rest(t));
  }

  /** For all starts of up to ten digits, which every int32 has: the smaller start has the smaller key unless it has
      nine digits, the larger one ten, and the smaller is more than a tenth of the larger. */
  lemma KeyOrder(s: RangeCode, t: RangeCode)
    requires 0 <= s.Start < t.Start < 10_000_000_000
    ensures Before(DbEntry(s), DbEntry(t))
            <==> !(s.Start < 1_000_000_000 <= t.Start && s.Start > t.Start / 10)
  {
    hide DbEntry, Pow10, Rest, Before;
    NinePowers();
    if t.Start < 1_000_000_000 {
      KeysSortByStart(s, t);
    } else if s.Start < 1_000_000_000 {
      TenthDigit(s, t);
    } else {
      BothTenDigits(s, t);
    }
  }

  /** The smallest starts that come out in the wrong order. */
  lemma OrderBreaks(token: string)
    ensures !Before(DbEntry(RangeCode(100000001, 100000002, token)), DbEntry(RangeCode(1000000000, 1000000001, token)))
  {
    TenthDigit(RangeCode(100000001, 100000002, token), RangeCode(1000000000, 1000000001, token));
  }
}
