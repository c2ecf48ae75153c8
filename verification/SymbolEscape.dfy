// decodeURIComponent, against which the escape of a symbol in the pending key is
// proved: what is escaped decodes to the symbol, and which characters are kept.
module SymbolEscape {
  import opened Basics
  import opened PendingKeys

  function HexValue(c: char): Option<int> {
    if '0' <= c <= '9' then Some(c as int - '0' as int)
    else if 'A' <= c <= 'F' then Some(c as int - 'A' as int + 10)
    else if 'a' <= c <= 'f' then Some(c as int - 'a' as int + 10)
    else None
  }

  /** The first k escaped bytes of a text, and what follows them. */
  function Octets(s: string, k: nat): Option<(seq<int>, string)> {
    if k == 0 then Some(([], s))
    else if |s| < 3 || s[0] != '%' || HexValue(s[1]) == None || HexValue(s[2]) == None then None
    else
      var b := 16 * HexValue(s[1]).value + HexValue(s[2]).value;
      match Octets(s[3..], k - 1)
      case None => None
      case Some((bytes, rest)) => Some(([b] + bytes, rest))
  }

  /** How many bytes a code point takes that starts with this one; 0 if none does. */
  function ByteCount(first: int): nat {
    if 0 <= first < 0x80 then 1
    else if 0xC0 <= first < 0xE0 then 2
    else if 0xE0 <= first < 0xF0 then 3
    else if 0xF0 <= first < 0xF8 then 4
    else 0
  }

  /** The six bits of each following byte are appended to those of the ones before. */
  function Appended(high: int, bytes: seq<int>): Option<int>
    decreases |bytes|
  {
    if bytes == [] then Some(high)
    else if 0x80 <= bytes[0] < 0xC0 then Appended(high * 64 + bytes[0] - 0x80, bytes[1..])
    else None
  }

  /** UTF-8 (section 3 of RFC 3629): the shortest form only, and no surrogates. */
  function DecodedPoint(bytes: seq<int>): Option<int>
    requires bytes != []
  {
    var n := ByteCount(bytes[0]);
    var high := if n == 1 then bytes[0] else if n == 2 then bytes[0] - 0xC0
                else if n == 3 then bytes[0] - 0xE0 else bytes[0] - 0xF0;
    match Appended(high, bytes[1..])
    case None => None
    case Some(p) =>
      var least := if n == 1 then 0 else if n == 2 then 0x80 else if n == 3 then 0x800 else 0x1_0000;
      if n == |bytes| && least <= p < 0x11_0000 && !(0xD800 <= p < 0xE000) then Some(p) else None
  }

  /** The code units of a code point. */
  function Units(p: int): Text
    requires 0 <= p < 0x11_0000
  {
    if p < 0x1_0000 then [p] else [0xD800 + (p - 0x1_0000) / 0x400, 0xDC00 + (p - 0x1_0000) % 0x400]
  }

  /** The first code unit or escaped code point of a text, and what follows it. */
  function DecodeFirst(s: string): (r: Option<(Text, string)>)
    requires s != ""
    ensures r.Some? ==> |r.value.1| < |s|
  {
    if s[0] != '%' then
      if s[0] as int < 0x1_0000 then Some(([s[0] as int], s[1..])) else None
    else
      match Octets(s, 1)
      case None => None
      case Some((first, _)) =>
        OctetsShorten(s, ByteCount(first[0]));
        match Octets(s, ByteCount(first[0]))
        case None => None
        case Some((bytes, rest)) =>
          if bytes == [] || DecodedPoint(bytes) == None then None
          else DecodedRange(bytes); Some((Units(DecodedPoint(bytes).value), rest))
  }

  lemma {:induction false} OctetsShorten(s: string, k: nat)
    ensures var r := Octets(s, k);
      r.Some? ==> |r.value.0| == k && |r.value.1| == |s| - 3 * k
    decreases k
  {
    if k > 0 && Octets(s, k).Some? {
      OctetsShorten(s[3..], k - 1);
    }
  }

  lemma DecodedRange(bytes: seq<int>)
    requires bytes != []
    ensures DecodedPoint(bytes).Some? ==> 0 <= DecodedPoint(bytes).value < 0x11_0000
  {
  }

  /** None where decodeURIComponent throws. */
  function DecodeURIComponent(s: string): Option<Text>
    decreases |s|
  {
    if s == "" then Some([])
    else
      match DecodeFirst(s)
      case None => None
      case Some((units, rest)) =>
        match DecodeURIComponent(rest)
        case None => None
        case Some(t) => Some(units + t)
  }

  // ---------------------------------------------------------------- round trip

  lemma HexRoundTrip(d: int)
    requires 0 <= d < 16
    ensures HexValue(Hex(d)) == Some(d)
  {
  }

  /** The hexadecimal digits of the escape are capitals. */
  lemma HexDigits(d: int)
    requires 0 <= d < 16
    ensures Hex(d) == "0123456789ABCDEF"[d]
  {
  }

  lemma OctetRead(b: int, s: string, k: nat)
    requires 0 <= b < 256 && Octets(s, k).Some?
    ensures Octets(['%', Hex(b / 16), Hex(b % 16)] + s, k + 1)
            == Some(([b] + Octets(s, k).value.0, Octets(s, k).value.1))
  {
    var all := ['%', Hex(b / 16), Hex(b % 16)] + s;
    HexRoundTrip(b / 16);
    HexRoundTrip(b % 16);
    assert all[0] == '%' && all[1] == Hex(b / 16) && all[2] == Hex(b % 16);
    assert all[3..] == s;
  }

  lemma {:induction false} PercentRoundTrip(bytes: seq<int>, x: string)
    requires AreBytes(bytes)
    ensures Octets(Percent(bytes) + x, |bytes|) == Some((bytes, x))
    decreases |bytes|
  {
    if bytes == [] {
      assert Percent(bytes) + x == x;
    } else {
      PercentRoundTrip(bytes[1..], x);
      OctetRead(bytes[0], Percent(bytes[1..]) + x, |bytes| - 1);
      Regroup(['%', Hex(bytes[0] / 16), Hex(bytes[0] % 16)], Percent(bytes[1..]), x);
      assert [bytes[0]] + bytes[1..] == bytes;
    }
  }

  lemma Regroup(a: string, b: string, c: string)
    ensures a + b + c == a + (b + c)
  {
  }

  lemma Utf8RoundTrip(p: int)
    requires 0 <= p < 0x11_0000 && !(0xD800 <= p < 0xE000)
    ensures DecodedPoint(Utf8(p)) == Some(p) && ByteCount(Utf8(p)[0]) == |Utf8(p)|
  {
    var b := Utf8(p);
    if p < 0x80 {
      assert b[1..] == [];
    } else if p < 0x800 {
      assert b[1..] == [b[1]];
      OneByte(b[0] - 0xC0, b[1]);
    } else if p < 0x1_0000 {
      assert b[1..] == [b[1]] + [b[2]];
      assert p / 64 == p / 64 / 64 * 64 + p / 64 % 64;
      MoreBytes(b[0] - 0xE0, b[1], [b[2]]);
      OneByte(p / 64, b[2]);
    } else {
      assert b[1..] == [b[1]] + ([b[2]] + [b[3]]);
      assert p / 64 / 64 == p / 64 / 64 / 64 * 64 + p / 64 / 64 % 64;
      MoreBytes(b[0] - 0xF0, b[1], [b[2]] + [b[3]]);
      MoreBytes(p / 64 / 64, b[2], [b[3]]);
      OneByte(p / 64, b[3]);
    }
  }

  lemma OneByte(high: int, b: int)
    requires 0x80 <= b < 0xC0
    ensures Appended(high, [b]) == Some(high * 64 + b - 0x80)
  {
  }

  lemma MoreBytes(high: int, b: int, rest: seq<int>)
    requires 0x80 <= b < 0xC0
    ensures Appended(high, [b] + rest) == Appended(high * 64 + b - 0x80, rest)
  {
    assert ([b] + rest)[1..] == rest;
  }

  lemma FirstOctet(bytes: seq<int>, x: string)
    requires AreBytes(bytes) && bytes != []
    ensures var r := Octets(Percent(bytes) + x, 1);
      r.Some? && r.value.0 == [bytes[0]]
    ensures Percent(bytes) + x != "" && (Percent(bytes) + x)[0] == '%'
  {
    OctetRead(bytes[0], Percent(bytes[1..]) + x, 0);
    Regroup(['%', Hex(bytes[0] / 16), Hex(bytes[0] % 16)], Percent(bytes[1..]), x);
  }

  lemma EscapeRoundTrip(p: int, x: string)
    requires 0 <= p < 0x11_0000 && !(0xD800 <= p < 0xE000)
    ensures Escape(p) + x != "" && DecodeFirst(Escape(p) + x) == Some((Units(p), x))
  {
    var s := Escape(p) + x;
    if Unescaped(p) {
      assert s[0] == p as char && s[1..] == x;
    } else {
      FirstOctet(Utf8(p), x);
      PercentRoundTrip(Utf8(p), x);
      Utf8RoundTrip(p);
    }
  }

  lemma PointRoundTrip(t: Text)
    requires t != [] && Width(t) > 0
    ensures Units(Point(t)) == t[..Width(t)] && !(0xD800 <= Point(t) < 0xE000)
  {
    if Width(t) == 2 {
      assert (Point(t) - 0x1_0000) / 0x400 == t[0] as int - 0xD800;
      assert (Point(t) - 0x1_0000) % 0x400 == t[1] as int - 0xDC00;
    }
  }

  lemma DecodeStep(s: string, units: Text, rest: string, t: Text)
    requires s != "" && DecodeFirst(s) == Some((units, rest)) && DecodeURIComponent(rest) == Some(t)
    ensures DecodeURIComponent(s) == Some(units + t)
  {
  }

  lemma EncodeStep(t: Text) returns (rest: Text, s: string)
    requires t != [] && EncodeURIComponent(t).Some?
    ensures Width(t) > 0 && rest == t[Width(t)..] && EncodeURIComponent(rest) == Some(s)
    ensures EncodeURIComponent(t) == Some(Escape(Point(t)) + s)
  {
    rest := t[Width(t)..];
    s := EncodeURIComponent(rest).value;
  }

  /** Every symbol that has an escape is got back from it. */
  lemma {:induction false} DecodesToSymbol(t: Text)
    requires EncodeURIComponent(t).Some?
    ensures DecodeURIComponent(EncodeURIComponent(t).value) == Some(t)
    decreases |t|
  {
    if t != [] {
      var rest, s := EncodeStep(t);
      DecodesToSymbol(rest);
      PointRoundTrip(t);
      EscapeRoundTrip(Point(t), s);
      DecodeStep(Escape(Point(t)) + s, Units(Point(t)), s, rest);
      assert t[..Width(t)] + rest == t;
    }
  }

  // ------------------------------------------------------------ what is escaped

  /** Every lead surrogate is followed by a trail surrogate, and every one of these follows a lead. */
  predicate WellPaired(t: Text) {
    forall i :: 0 <= i < |t| ==> PairedAt(t, i)
  }

  predicate PairedAt(t: Text, i: nat)
    requires i < |t|
  {
    && (0xD800 <= t[i] < 0xDC00 ==> i + 1 < |t| && 0xDC00 <= t[i + 1] < 0xE000)
    && (0xDC00 <= t[i] < 0xE000 ==> i > 0 && 0xD800 <= t[i - 1] < 0xDC00)
  }

  lemma FirstPaired(t: Text)
    requires t != []
    ensures WellPaired(t) <==> Width(t) > 0 && WellPaired(t[Width(t)..])
  {
    var w := Width(t);
    if w == 0 {
      assert !PairedAt(t, 0);
    } else {
      forall i | w <= i < |t| ensures PairedAt(t, i) <==> PairedAt(t[w..], i - w) {
        assert t[i] == t[w..][i - w];
      }
      forall i: nat | i < |t| - w ensures PairedAt(t[w..], i) <==> PairedAt(t, w + i) {
      }
      assert forall i :: 0 <= i < w ==> PairedAt(t, i);
    }
  }

  /** The escape is refused exactly for a text with a lone surrogate. */
  lemma {:induction false} EscapesExactly(t: Text)
    ensures EncodeURIComponent(t).Some? <==> WellPaired(t)
    decreases |t|
  {
    if t != [] {
      FirstPaired(t);
      if Width(t) > 0 {
        EscapesExactly(t[Width(t)..]);
      }
    }
  }

  const UPPER := "ABCDEFGHIJKLMNOPQRSTUVWXYZ"
  const LOWER := "abcdefghijklmnopqrstuvwxyz"
  const NUMERALS := "0123456789"
  const MARKS := "-_.!~*'()"

  lemma KeptLetters(c: char)
    ensures c in UPPER <==> 'A' <= c <= 'Z'
    ensures c in LOWER <==> 'a' <= c <= 'z'
  {
  }

  lemma KeptOthers(c: char)
    ensures c in NUMERALS <==> '0' <= c <= '9'
    ensures c in MARKS <==> c as int in [0x2D, 0x5F, 0x2E, 0x21, 0x7E, 0x2A, 0x27, 0x28, 0x29]
  {
  }

  predicate Kept(c: char) {
    c in UPPER || c in LOWER || c in NUMERALS || c in MARKS
  }

  predicate AllKept(t: Text) {
    forall i :: 0 <= i < |t| ==> t[i] < 0x80 && Kept(t[i] as char)
  }

  lemma KeptPoint(p: int)
    requires 0 <= p < 0x11_0000
    ensures Unescaped(p) <==> p < 0x80 && Kept(p as char)
    ensures |Escape(p)| == if Unescaped(p) then 1 else 3 * |Utf8(p)|
  {
    if p < 0x80 {
      KeptLetters(p as char);
      KeptOthers(p as char);
    }
    PercentLength(Utf8(p));
  }

  lemma {:induction false} PercentLength(bytes: seq<int>)
    requires AreBytes(bytes)
    ensures |Percent(bytes)| == 3 * |bytes|
    decreases |bytes|
  {
    if bytes != [] {
      PercentLength(bytes[1..]);
    }
  }

  lemma FirstOfAll(t: Text)
    requires t != [] && Width(t) > 0
    ensures AllKept(t) <==> t[0] < 0x80 && Kept(t[0] as char) && AllKept(t[Width(t)..])
  {
    var w := Width(t);
    assert forall i :: w <= i < |t| ==> t[i] == t[w..][i - w];
    if AllKept(t) {
      assert w == 1;
      assert forall i :: 0 <= i < |t| - w ==> t[w..][i] == t[i + w];
    }
  }

  lemma FirstKept(t: Text)
    requires t != [] && Width(t) > 0
    ensures AllKept(t) <==> Unescaped(Point(t)) && AllKept(t[Width(t)..])
    ensures |Escape(Point(t))| >= Width(t)
    ensures |Escape(Point(t))| == Width(t) <==> Unescaped(Point(t))
    ensures Unescaped(Point(t)) ==> Width(t) == 1 && Escape(Point(t)) == [t[0] as char]
  {
    KeptPoint(Point(t));
    FirstOfAll(t);
  }

  /** A symbol is its own escape exactly if it consists of letters, numerals and these nine marks. */
  lemma {:induction false} KeptExactly(t: Text)
    requires EncodeURIComponent(t).Some?
    ensures |EncodeURIComponent(t).value| >= |t|
    ensures |EncodeURIComponent(t).value| == |t| <==> AllKept(t)
    ensures AllKept(t) ==> SameText(EncodeURIComponent(t).value, t)
    decreases |t|
  {
    if t != [] {
      FirstKept(t);
      KeptExactly(t[Width(t)..]);
      if AllKept(t) {
        OneMoreKept(t[0], EncodeURIComponent(t[1..]).value, t);
      }
    }
  }

  ghost predicate SameText(s: string, t: Text) {
    |s| == |t| && forall i :: 0 <= i < |t| ==> s[i] as int == t[i]
  }

  lemma OneMoreKept(u: CodeUnit, s: string, t: Text)
    requires t != [] && t[0] == u < 0x80 && SameText(s, t[1..])
    ensures SameText([u as char] + s, t)
  {
  }

  /** "A/B" as code units. */
  const PAIR: Text := [0x41, 0x2F, 0x42]

  lemma Prepended(u: CodeUnit, rest: Text, s: string, t: Text, r: string)
    requires u < 0x80 && EncodeURIComponent(rest) == Some(s)
    requires t == [u] + rest && r == Escape(u) + s
    ensures EncodeURIComponent(t) == Some(r)
  {
    assert t[1..] == rest;
  }

  lemma EscapedPair()
    ensures EncodeURIComponent(PAIR) == Some("A%2FB")
  {
    Prepended(0x42, [], "", [0x42], "B");
    assert Percent([0x2F]) == "%2F" + Percent([]);
    Prepended(0x2F, [0x42], "B", [0x2F, 0x42], "%2FB");
    Prepended(0x41, [0x2F, 0x42], "%2FB", PAIR, "A%2FB");
  }

  lemma TimeDigits()
    ensures PadStart(Decimal(60), TIMESTAMP_WIDTH) == "0000000000000060"
  {
    assert Decimal(60) == "60";
    assert Zeros(14) == "00000000000000";
  }

  lemma Assembled(time: string, symbol: string)
    requires time == "0000000000000060" && symbol == "A%2FB"
    ensures PENDING_PREFIX + time + "|" + symbol == "pending|0000000000000060|A%2FB"
  {
    assert PENDING_PREFIX + time == "pending|0000000000000060";
  }

  /** The key of a candle of the pair A/B. */
  lemma KeyOfPair(c: Candle)
    requires Valid(c) && c.symbol == PAIR && Time(c) == 60
    ensures CreateKey(c) == Some("pending|0000000000000060|A%2FB")
  {
    EscapedPair();
    TimeDigits();
    Assembled(PadStart(Decimal(Time(c)), TIMESTAMP_WIDTH), EncodeURIComponent(c.symbol).value);
  }
}
