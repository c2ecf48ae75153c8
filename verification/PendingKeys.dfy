// Keys of the pending-candle store (storage/rocks-pending-candle.store.ts):
// validation, the ordered key encoding, and what its order and injectivity give.
module PendingKeys {
  import opened Basics

  // A JavaScript number.
  datatype Number = NaN | Infinite(negative: bool) | Finite(value: real)

  // A JavaScript string is a sequence of UTF-16 code units.
  type CodeUnit = u: int | 0 <= u < 0x1_0000

  type Text = seq<CodeUnit>

  // A candle as the store is handed it, before it is validated: any JavaScript
  // string and numbers.
  datatype Candle = Candle(
    symbol: Text,
    startTime: Number,
    open: Number,
    high: Number,
    low: Number,
    close: Number,
    volume: Number)

  const MAX_SAFE_INTEGER := 9007199254740991
  const TIMESTAMP_WIDTH := 16
  const PENDING_PREFIX := "pending|"

  // ---------------------------------------------------------------- validation

  datatype Field = StartTime | Open | High | Low | Close | Volume

  datatype Invalid = EmptySymbol | NotFinite(field: Field) | BadStartTime

  predicate IsSpace(u: CodeUnit) {
    || 0x09 <= u <= 0x0D || u == 0x20 || u == 0xA0 || u == 0x1680 || 0x2000 <= u <= 0x200A
    || u == 0x2028 || u == 0x2029 || u == 0x202F || u == 0x205F || u == 0x3000 || u == 0xFEFF
  }

  /** trim() leaves nothing. */
  predicate Blank(t: Text) {
    forall i :: 0 <= i < |t| ==> IsSpace(t[i])
  }

  predicate IsSafeInteger(n: Number) {
    n.Finite? && n.value == n.value.Floor as real && -MAX_SAFE_INTEGER <= n.value.Floor <= MAX_SAFE_INTEGER
  }

  function Get(c: Candle, f: Field): Number {
    match f
    case StartTime => c.startTime
    case Open => c.open
    case High => c.high
    case Low => c.low
    case Close => c.close
    case Volume => c.volume
  }

  const NUMERIC_FIELDS := [StartTime, Open, High, Low, Close, Volume]

  predicate FiniteFields(c: Candle) {
    c.startTime.Finite? && c.open.Finite? && c.high.Finite? && c.low.Finite? && c.close.Finite? && c.volume.Finite?
  }

  predicate Valid(c: Candle) {
    !Blank(c.symbol) && FiniteFields(c) && IsSafeInteger(c.startTime) && c.startTime.value > 0.0
  }

  method ValidateCandle(c: Candle) returns (error: Option<Invalid>)
    ensures error == None <==> Valid(c)
    ensures error == Some(EmptySymbol) <==> Blank(c.symbol)
    ensures error == Some(BadStartTime) ==> !Blank(c.symbol) && FiniteFields(c)
    ensures forall k: nat :: k < |NUMERIC_FIELDS| ==>
              (error == Some(NotFinite(NUMERIC_FIELDS[k])) <==>
               && !Blank(c.symbol) && !Get(c, NUMERIC_FIELDS[k]).Finite?
               && forall j :: 0 <= j < k ==> Get(c, NUMERIC_FIELDS[j]).Finite?)
  {
    if forall i :: 0 <= i < |c.symbol| ==> IsSpace(c.symbol[i]) {
      return Some(EmptySymbol);
    }
    for i := 0 to |NUMERIC_FIELDS|
      invariant forall j :: 0 <= j < i ==> Get(c, NUMERIC_FIELDS[j]).Finite?
    {
      if !Get(c, NUMERIC_FIELDS[i]).Finite? {
        return Some(NotFinite(NUMERIC_FIELDS[i]));
      }
    }
    assert FiniteFields(c) by {
      assert forall f :: Get(c, f).Finite? by {
        assert StartTime == NUMERIC_FIELDS[0] && Open == NUMERIC_FIELDS[1] && High == NUMERIC_FIELDS[2];
        assert Low == NUMERIC_FIELDS[3] && Close == NUMERIC_FIELDS[4] && Volume == NUMERIC_FIELDS[5];
      }
      assert Get(c, StartTime).Finite? && Get(c, Open).Finite? && Get(c, High).Finite?;
      assert Get(c, Low).Finite? && Get(c, Close).Finite? && Get(c, Volume).Finite?;
    }
    if !IsSafeInteger(c.startTime) || c.startTime.value <= 0.0 {
      return Some(BadStartTime);
    }
    error := None;
  }

  // ------------------------------------------------------------- symbol escape

  /** How many code units the first code point takes; 0 if it is a lone surrogate. */
  function Width(t: Text): nat
    requires t != []
  {
    if t[0] < 0xD800 || t[0] >= 0xE000 then 1
    else if t[0] < 0xDC00 && |t| > 1 && 0xDC00 <= t[1] < 0xE000 then 2
    else 0
  }

  function Point(t: Text): (p: int)
    requires t != [] && Width(t) > 0
    ensures 0 <= p < 0x11_0000 && (Width(t) == 2 <==> p >= 0x1_0000)
  {
    if Width(t) == 1 then t[0] else 0x1_0000 + (t[0] as int - 0xD800) * 0x400 + (t[1] as int - 0xDC00)
  }

  /** Letters, digits and - _ . ! ~ * ' ( ) are kept as they are. */
  predicate Unescaped(p: int) {
    || 'A' as int <= p <= 'Z' as int || 'a' as int <= p <= 'z' as int || '0' as int <= p <= '9' as int
    || p in [0x2D, 0x5F, 0x2E, 0x21, 0x7E, 0x2A, 0x27, 0x28, 0x29]
  }

  function Utf8(p: int): (bytes: seq<int>)
    requires 0 <= p < 0x11_0000
    ensures bytes != [] && forall i :: 0 <= i < |bytes| ==> 0 <= bytes[i] < 256
  {
    if p < 0x80 then [p]
    else if p < 0x800 then [0xC0 + p / 64, 0x80 + p % 64]
    else if p < 0x1_0000 then [0xE0 + p / 64 / 64, 0x80 + p / 64 % 64, 0x80 + p % 64]
    else [0xF0 + p / 64 / 64 / 64, 0x80 + p / 64 / 64 % 64, 0x80 + p / 64 % 64, 0x80 + p % 64]
  }

  function Hex(d: int): char
    requires 0 <= d < 16
  {
    if d < 10 then ('0' as int + d) as char else ('A' as int + d - 10) as char
  }

  predicate AreBytes(bytes: seq<int>) {
    forall i :: 0 <= i < |bytes| ==> 0 <= bytes[i] < 256
  }

  function Percent(bytes: seq<int>): string
    requires AreBytes(bytes)
  {
    if bytes == [] then ""
    else ['%', Hex(bytes[0] / 16), Hex(bytes[0] % 16)] + Percent(bytes[1..])
  }

  function Escape(p: int): string
    requires 0 <= p < 0x11_0000
  {
    if Unescaped(p) then [p as char] else Percent(Utf8(p))
  }

  /** None where encodeURIComponent throws, on a lone surrogate. */
  function EncodeURIComponent(t: Text): Option<string> {
    if t == [] then Some("")
    else if Width(t) == 0 then None
    else
      match EncodeURIComponent(t[Width(t)..])
      case None => None
      case Some(rest) => Some(Escape(Point(t)) + rest)
  }

  lemma {:induction false} PercentPrefixFree(a: seq<int>, b: seq<int>, x: string, y: string)
    requires AreBytes(a) && AreBytes(b) && |a| == |b| && Percent(a) + x == Percent(b) + y
    ensures a == b && x == y
    decreases |a|
  {
    if a != [] {
      var s, s' := Percent(a) + x, Percent(b) + y;
      assert s[1] == Hex(a[0] / 16) && s[2] == Hex(a[0] % 16);
      assert s'[1] == Hex(b[0] / 16) && s'[2] == Hex(b[0] % 16);
      assert a[0] == b[0];
      assert s[3..] == Percent(a[1..]) + x && s'[3..] == Percent(b[1..]) + y;
      PercentPrefixFree(a[1..], b[1..], x, y);
      assert a == [a[0]] + a[1..] && b == [b[0]] + b[1..];
    } else {
      assert Percent(a) + x == x && Percent(b) + y == y;
    }
  }

  /** The first byte tells how many follow, and the bytes tell the code point. */
  lemma Utf8Injective(p: int, q: int)
    requires 0 <= p < 0x11_0000 && 0 <= q < 0x11_0000
    ensures Utf8(p)[0] == Utf8(q)[0] ==> |Utf8(p)| == |Utf8(q)|
    ensures Utf8(p) == Utf8(q) ==> p == q
  {
    if |Utf8(p)| == |Utf8(q)| && Utf8(p) == Utf8(q) {
      assert forall i :: 0 <= i < |Utf8(p)| ==> Utf8(p)[i] == Utf8(q)[i];
      assert p % 64 == q % 64 && p / 64 == q / 64;
    }
  }

  lemma FirstByte(a: seq<int>, b: seq<int>, x: string, y: string)
    requires AreBytes(a) && AreBytes(b) && a != [] && b != [] && Percent(a) + x == Percent(b) + y
    ensures a[0] == b[0]
  {
    var s, s' := Percent(a) + x, Percent(b) + y;
    assert s[1] == Hex(a[0] / 16) && s[2] == Hex(a[0] % 16);
    assert s'[1] == Hex(b[0] / 16) && s'[2] == Hex(b[0] % 16);
  }

  lemma EscapedPrefixFree(p: int, q: int, x: string, y: string)
    requires 0 <= p < 0x11_0000 && 0 <= q < 0x11_0000
    requires Percent(Utf8(p)) + x == Percent(Utf8(q)) + y
    ensures p == q && x == y
  {
    FirstByte(Utf8(p), Utf8(q), x, y);
    Utf8Injective(p, q);
    PercentPrefixFree(Utf8(p), Utf8(q), x, y);
  }

  lemma KeptPrefixFree(c: char, d: char, x: string, y: string)
    requires [c] + x == [d] + y
    ensures c == d && x == y
  {
    assert ([c] + x)[0] == c && ([d] + y)[0] == d;
    assert ([c] + x)[1..] == x && ([d] + y)[1..] == y;
  }

  lemma PercentStarts(bytes: seq<int>, x: string)
    requires AreBytes(bytes) && bytes != []
    ensures (Percent(bytes) + x)[0] == '%'
  {
  }

  lemma EscapePrefixFree(p: int, q: int, x: string, y: string)
    requires 0 <= p < 0x11_0000 && 0 <= q < 0x11_0000 && Escape(p) + x == Escape(q) + y
    ensures p == q && x == y
  {
    PercentStarts(Utf8(p), x);
    PercentStarts(Utf8(q), y);
    if Unescaped(p) && Unescaped(q) {
      KeptPrefixFree(p as char, q as char, x, y);
    } else if !Unescaped(p) && !Unescaped(q) {
      EscapedPrefixFree(p, q, x, y);
    }
  }

  /** A code point determines the code units it was read from. */
  lemma PointDeterminesUnits(a: Text, b: Text)
    requires a != [] && b != [] && Width(a) > 0 && Width(b) > 0 && Point(a) == Point(b)
    ensures Width(a) == Width(b) && a[..Width(a)] == b[..Width(b)]
  {
    if Width(a) == 2 {
      assert a[0] as int - 0xD800 == (Point(a) - 0x1_0000) / 0x400
          && b[0] as int - 0xD800 == (Point(b) - 0x1_0000) / 0x400;
    }
  }

  /** Two symbols with the same escape are the same symbol. */
  lemma {:induction false} EncodeInjective(a: Text, b: Text)
    requires EncodeURIComponent(a).Some? && EncodeURIComponent(a) == EncodeURIComponent(b)
    ensures a == b
    decreases |a|
  {
    if a != [] && b != [] {
      var ra, rb := EncodeURIComponent(a[Width(a)..]).value, EncodeURIComponent(b[Width(b)..]).value;
      EscapePrefixFree(Point(a), Point(b), ra, rb);
      PointDeterminesUnits(a, b);
      EncodeInjective(a[Width(a)..], b[Width(b)..]);
      assert a == a[..Width(a)] + a[Width(a)..] && b == b[..Width(b)] + b[Width(b)..];
    } else {
      EncodeNonEmpty(a);
      EncodeNonEmpty(b);
    }
  }

  lemma EncodeNonEmpty(t: Text)
    requires EncodeURIComponent(t).Some?
    ensures t == [] <==> EncodeURIComponent(t).value == ""
  {
  }

  // ----------------------------------------------------------------- timestamp

  function Digit(d: int): char
    requires 0 <= d < 10
  {
    ('0' as int + d) as char
  }

  /** toString() of an integer that is not negative. */
  function Decimal(n: nat): string {
    if n < 10 then [Digit(n)] else Decimal(n / 10) + [Digit(n % 10)]
  }

  function Zeros(n: nat): string {
    seq(n, _ => '0')
  }

  function PadStart(s: string, width: nat): string {
    if |s| >= width then s else Zeros(width - |s|) + s
  }

  /** The last `width` decimal digits of `n`. */
  function Digits(n: nat, width: nat): (s: string)
    ensures |s| == width
  {
    if width == 0 then "" else Digits(n / 10, width - 1) + [Digit(n % 10)]
  }

  function Pow10(w: nat): nat {
    if w == 0 then 1 else 10 * Pow10(w - 1)
  }

  lemma {:induction false} ZeroDigits(width: nat)
    ensures Digits(0, width) == Zeros(width)
    decreases width
  {
    if width > 0 {
      ZeroDigits(width - 1);
    }
  }

  /** A number that fits is padded to exactly its fixed-width digits. */
  lemma {:induction false} PaddedIsFixedWidth(n: nat, width: nat)
    requires width > 0 && n < Pow10(width)
    ensures PadStart(Decimal(n), width) == Digits(n, width)
    decreases n
  {
    if n < 10 {
      ZeroDigits(width - 1);
      assert PadStart(Decimal(n), width) == Zeros(width - 1) + [Digit(n)];
    } else {
      assert width > 1 by {
        assert Pow10(1) == 10 * Pow10(0);
      }
      PaddedIsFixedWidth(n / 10, width - 1);
      assert PadStart(Decimal(n), width) == PadStart(Decimal(n / 10), width - 1) + [Digit(n % 10)];
    }
  }

  // --------------------------------------------------------------------- order

  /** The store's key order: that of the characters. */
  predicate Less(a: string, b: string) {
    b != "" && (a == "" || a[0] < b[0] || (a[0] == b[0] && Less(a[1..], b[1..])))
  }

  lemma {:induction false} LessTransitive(a: string, b: string, c: string)
    requires Less(a, b) && Less(b, c)
    ensures Less(a, c)
    decreases |a|
  {
    if a != "" && a[0] == b[0] == c[0] {
      LessTransitive(a[1..], b[1..], c[1..]);
    }
  }

  lemma {:induction false} LessTotal(a: string, b: string)
    ensures a == b || Less(a, b) || Less(b, a)
    ensures !(Less(a, b) && Less(b, a)) && !Less(a, a)
    decreases |a|
  {
    if a != "" {
      LessTotal(a[1..], a[1..]);
      if b != "" {
        LessTotal(a[1..], b[1..]);
        assert a == [a[0]] + a[1..] && b == [b[0]] + b[1..];
      }
    }
  }

  lemma {:induction false} LessAfterCommon(common: string, x: string, y: string)
    ensures Less(common + x, common + y) <==> Less(x, y)
    decreases |common|
  {
    if common == "" {
      assert common + x == x && common + y == y;
    } else {
      LessAfterCommon(common[1..], x, y);
      assert (common + x)[1..] == common[1..] + x && (common + y)[1..] == common[1..] + y;
    }
  }

  lemma {:induction false} DigitsOrder(m: nat, n: nat, width: nat, x: string, y: string)
    requires m < Pow10(width) && n < Pow10(width)
    ensures Less(Digits(m, width) + x, Digits(n, width) + y) <==> m < n || (m == n && Less(x, y))
    ensures Digits(m, width) + x == Digits(n, width) + y ==> m == n && x == y
    decreases width
  {
    if width == 0 {
      assert Digits(m, 0) + x == x && Digits(n, 0) + y == y;
    } else {
      var dx, dy := [Digit(m % 10)] + x, [Digit(n % 10)] + y;
      DigitsOrder(m / 10, n / 10, width - 1, dx, dy);
      assert Digits(m, width) + x == Digits(m / 10, width - 1) + dx;
      assert Digits(n, width) + y == Digits(n / 10, width - 1) + dy;
      assert dx[1..] == x && dy[1..] == y;
    }
  }

  // ----------------------------------------------------------------------- key

  function Time(c: Candle): nat
    requires Valid(c)
  {
    c.startTime.value.Floor
  }

  /** None where the escape of the symbol throws. */
  function CreateKey(c: Candle): Option<string>
    requires Valid(c)
  {
    match EncodeURIComponent(c.symbol)
    case None => None
    case Some(symbol) => Some(PENDING_PREFIX + PadStart(Decimal(Time(c)), TIMESTAMP_WIDTH) + "|" + symbol)
  }

  /** The candle is stored under `key`. */
  predicate Keyed(c: Candle, key: string) {
    Valid(c) && CreateKey(c) == Some(key)
  }

  lemma SafeIntegersFit()
    ensures MAX_SAFE_INTEGER < Pow10(TIMESTAMP_WIDTH)
  {
    assert Pow10(8) == 100000000;
    assert Pow10(16) == 10000000000000000;
  }

  lemma KeyShape(c: Candle, key: string)
    requires Keyed(c, key)
    ensures Time(c) < Pow10(TIMESTAMP_WIDTH)
    ensures key == PENDING_PREFIX + (Digits(Time(c), TIMESTAMP_WIDTH) + ("|" + EncodeURIComponent(c.symbol).value))
  {
    SafeIntegersFit();
    PaddedIsFixedWidth(Time(c), TIMESTAMP_WIDTH);
  }

  /** The candle can be stored. */
  predicate Storable(c: Candle) {
    Valid(c) && CreateKey(c).Some?
  }

  /** Candle c is older than d, or as old and before it by its escaped symbol. */
  predicate Older(c: Candle, d: Candle) {
    && Storable(c) && Storable(d)
    && (|| Time(c) < Time(d)
        || (Time(c) == Time(d) && Less(EncodeURIComponent(c.symbol).value, EncodeURIComponent(d.symbol).value)))
  }

  /** The order of the keys is that of start time, then escaped symbol. */
  lemma KeyOrder(c: Candle, d: Candle, kc: string, kd: string)
    requires Keyed(c, kc) && Keyed(d, kd)
    ensures Less(kc, kd) <==> Older(c, d)
  {
    KeyShape(c, kc);
    KeyShape(d, kd);
    var ec, ed := EncodeURIComponent(c.symbol).value, EncodeURIComponent(d.symbol).value;
    LessAfterCommon(PENDING_PREFIX, Digits(Time(c), TIMESTAMP_WIDTH) + ("|" + ec),
                    Digits(Time(d), TIMESTAMP_WIDTH) + ("|" + ed));
    DigitsOrder(Time(c), Time(d), TIMESTAMP_WIDTH, "|" + ec, "|" + ed);
    LessAfterCommon("|", ec, ed);
  }

  /** Candles have the same key exactly if they are for the same symbol and start time. */
  lemma KeysInjective(c: Candle, d: Candle, kc: string, kd: string)
    requires Keyed(c, kc) && Keyed(d, kd)
    ensures kc == kd <==> c.symbol == d.symbol && Time(c) == Time(d)
  {
    KeyShape(c, kc);
    KeyShape(d, kd);
    var ec, ed := EncodeURIComponent(c.symbol).value, EncodeURIComponent(d.symbol).value;
    if kc == kd {
      var n := |PENDING_PREFIX|;
      assert kc[n..] == Digits(Time(c), TIMESTAMP_WIDTH) + ("|" + ec);
      assert kd[n..] == Digits(Time(d), TIMESTAMP_WIDTH) + ("|" + ed);
      DigitsOrder(Time(c), Time(d), TIMESTAMP_WIDTH, "|" + ec, "|" + ed);
      assert ("|" + ec)[1..] == ec && ("|" + ed)[1..] == ed;
      EncodeInjective(c.symbol, d.symbol);
    }
  }

  const RANGE_END := PENDING_PREFIX + "\U{FFFF}"

  /** The range that peek() scans. */
  predicate InRange(key: string) {
    !Less(key, PENDING_PREFIX) && Less(key, RANGE_END)
  }

  lemma KeysInRange(c: Candle, key: string)
    requires Keyed(c, key)
    ensures InRange(key)
  {
    KeyShape(c, key);
    var rest := Digits(Time(c), TIMESTAMP_WIDTH) + ("|" + EncodeURIComponent(c.symbol).value);
    LessAfterCommon(PENDING_PREFIX, rest, "\U{FFFF}");
    LessAfterCommon(PENDING_PREFIX, rest, "");
    assert PENDING_PREFIX + "" == PENDING_PREFIX;
    DigitChars(Time(c), TIMESTAMP_WIDTH);
  }

  lemma {:induction false} DigitChars(n: nat, width: nat)
    ensures forall i :: 0 <= i < width ==> '0' <= Digits(n, width)[i] <= '9'
    decreases width
  {
    if width > 0 {
      DigitChars(n / 10, width - 1);
    }
  }
}
