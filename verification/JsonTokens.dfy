/** The scalar tokens of JSON text: strings and numbers, printed as each runtime prints them, and read back (RFC 8259
    sections 6 and 7). */
module JsonTokens {
  import opened Texts

  type Digit = d: int | 0 <= d < 10

  /** `Dec` is 0.d1...dk times ten to the `point`, the shape of a shortest decimal; `Int` is Python's unbounded int.
      `Overflow` is what `JSON.parse` makes of a literal beyond the double range. */
  datatype Number = Int(v: int) | Dec(neg: bool, digits: seq<Digit>, point: int) | Overflow(negative: bool)

  /** `canonical`; `json.dumps` with `separators=(",", ":")`; `json.dumps` with the default separators. */
  datatype Style = Js | PyCompact | PySpaced

  datatype Reading<+T> = Fail | Ok(value: T, rest: Text)

  const QUOTE: Unit := 0x22
  const COMMA: Unit := 0x2C
  const MINUS: Unit := 0x2D
  const DOT: Unit := 0x2E
  const ZERO: Unit := 0x30
  const COLON: Unit := 0x3A
  const LBRACKET: Unit := 0x5B
  const BACKSLASH: Unit := 0x5C
  const RBRACKET: Unit := 0x5D
  const LBRACE: Unit := 0x7B
  const RBRACE: Unit := 0x7D

  // ---------- strings ----------

  predicate High(u: Unit) { 0xD800 <= u < 0xDC00 }

  predicate Low(u: Unit) { 0xDC00 <= u < 0xE000 }

  /** Printed as itself: a lone surrogate is escaped by `JSON.stringify`, everything outside ASCII by `json.dumps`. */
  predicate Plain(u: Unit, st: Style) {
    && 0x20 <= u && u != QUOTE && u != BACKSLASH
    && if st.Js? then !High(u) && !Low(u) else u <= 0x7E
  }

  function HexDigit(d: int): Unit
    requires 0 <= d < 16
  {
    if d < 10 then ZERO + d else 0x61 + d - 10
  }

  function HexValue(u: Unit): Option<int> {
    if IsDigit(u) then Some(u - ZERO)
    else if 0x61 <= u <= 0x66 then Some(u - 0x61 + 10)
    else if 0x41 <= u <= 0x46 then Some(u - 0x41 + 10)
    else None
  }

  function Hex4(u: Unit): Text {
    [HexDigit(u / 16 / 16 / 16), HexDigit(u / 16 / 16 % 16), HexDigit(u / 16 % 16), HexDigit(u % 16)]
  }

  function Escape(u: Unit): Text {
    if u == QUOTE || u == BACKSLASH then [BACKSLASH, u]
    else if u == 8 then [BACKSLASH, Code('b')]
    else if u == 9 then [BACKSLASH, Code('t')]
    else if u == 10 then [BACKSLASH, Code('n')]
    else if u == 12 then [BACKSLASH, Code('f')]
    else if u == 13 then [BACKSLASH, Code('r')]
    else [BACKSLASH, Code('u')] + Hex4(u)
  }

  function Head(u: Unit, st: Style): Text {
    if Plain(u, st) then [u] else Escape(u)
  }

  function QuoteBody(s: Text, st: Style): Text {
    if s == [] then []
    else if st.Js? && |s| >= 2 && High(s[0]) && Low(s[1]) then s[..2] + QuoteBody(s[2..], st)
    else Head(s[0], st) + QuoteBody(s[1..], st)
  }

  function Unescape(u: Unit): Option<Unit> {
    if u == QUOTE || u == BACKSLASH || u == Code('/') then Some(u)
    else if u == Code('b') then Some(8)
    else if u == Code('t') then Some(9)
    else if u == Code('n') then Some(10)
    else if u == Code('f') then Some(12)
    else if u == Code('r') then Some(13)
    else None
  }

  function FromHex(t: Text): Option<Unit>
    requires |t| == 4
  {
    match (HexValue(t[0]), HexValue(t[1]), HexValue(t[2]), HexValue(t[3]))
    case (Some(a), Some(b), Some(c), Some(d)) =>
      if 0 <= a < 16 && 0 <= b < 16 && 0 <= c < 16 && 0 <= d < 16
      then Some(a * 0x1000 + b * 0x100 + c * 16 + d) else None
    case _ => None
  }

  function Prepend(u: Unit, p: Reading<Text>): Reading<Text> {
    match p
    case Fail => Fail
    case Ok(s, rest) => Ok([u] + s, rest)
  }

  /** Reads a string up to and including its closing quote. */
  function ParseString(t: Text): (r: Reading<Text>)
    ensures r.Ok? ==> |r.rest| < |t|
  {
    if t == [] then Fail
    else if t[0] == QUOTE then Ok([], t[1..])
    else if t[0] == BACKSLASH then
      if |t| >= 6 && t[1] == Code('u') then
        match FromHex(t[2..6])
        case None => Fail
        case Some(u) => Prepend(u, ParseString(t[6..]))
      else if |t| >= 2 then
        match Unescape(t[1])
        case None => Fail
        case Some(u) => Prepend(u, ParseString(t[2..]))
      else Fail
    else if t[0] < 0x20 then Fail
    else Prepend(t[0], ParseString(t[1..]))
  }

  lemma HexDigitRoundTrip(d: int)
    requires 0 <= d < 16
    ensures HexValue(HexDigit(d)) == Some(d)
  {
  }

  lemma HexRoundTrip(u: Unit)
    ensures FromHex(Hex4(u)) == Some(u)
  {
    HexDigitRoundTrip(u / 16 / 16 / 16);
    HexDigitRoundTrip(u / 16 / 16 % 16);
    HexDigitRoundTrip(u / 16 % 16);
    HexDigitRoundTrip(u % 16);
  }

  lemma ParsePlain(u: Unit, rest: Text)
    requires 0x20 <= u && u != QUOTE && u != BACKSLASH
    ensures ParseString([u] + rest) == Prepend(u, ParseString(rest))
  {
    assert ([u] + rest)[1..] == rest;
  }

  lemma ParseEscape(u: Unit, rest: Text)
    ensures ParseString(Escape(u) + rest) == Prepend(u, ParseString(rest))
  {
    var t := Escape(u) + rest;
    if |Escape(u)| == 2 {
      assert t[2..] == rest;
    } else {
      HexRoundTrip(u);
      assert t[6..] == rest;
      assert t[2..6] == Hex4(u);
    }
  }

  lemma ParseHead(u: Unit, st: Style, rest: Text)
    ensures ParseString(Head(u, st) + rest) == Prepend(u, ParseString(rest))
  {
    if Plain(u, st) {
      ParsePlain(u, rest);
    } else {
      ParseEscape(u, rest);
    }
  }

  lemma ParsePair(high: Unit, low: Unit, rest: Text)
    requires High(high) && Low(low)
    ensures ParseString([high, low] + rest) == Prepend(high, Prepend(low, ParseString(rest)))
  {
    assert [high, low] + rest == [high] + ([low] + rest);
    ParsePlain(high, [low] + rest);
    ParsePlain(low, rest);
  }

  lemma HeadStep(s: Text, st: Style, rest: Text)
    requires s != [] && !(st.Js? && |s| >= 2 && High(s[0]) && Low(s[1]))
    requires ParseString(QuoteBody(s[1..], st) + [QUOTE] + rest) == Ok(s[1..], rest)
    ensures ParseString(QuoteBody(s, st) + [QUOTE] + rest) == Ok(s, rest)
  {
    var more := QuoteBody(s[1..], st) + [QUOTE] + rest;
    ParseHead(s[0], st, more);
    Regroup(Head(s[0], st), QuoteBody(s[1..], st), [QUOTE], rest);
    assert s == [s[0]] + s[1..];
  }

  lemma PairStep(s: Text, st: Style, rest: Text)
    requires st.Js? && |s| >= 2 && High(s[0]) && Low(s[1])
    requires ParseString(QuoteBody(s[2..], st) + [QUOTE] + rest) == Ok(s[2..], rest)
    ensures ParseString(QuoteBody(s, st) + [QUOTE] + rest) == Ok(s, rest)
  {
    assert s[..2] == [s[0], s[1]];
    ParsePair(s[0], s[1], QuoteBody(s[2..], st) + [QUOTE] + rest);
    Regroup(s[..2], QuoteBody(s[2..], st), [QUOTE], rest);
    assert s == [s[0]] + ([s[1]] + s[2..]);
  }

  lemma {:induction false} StringRoundTrip(s: Text, st: Style, rest: Text)
    ensures ParseString(QuoteBody(s, st) + [QUOTE] + rest) == Ok(s, rest)
  {
    if s == [] {
      assert QuoteBody(s, st) + [QUOTE] + rest == [QUOTE] + rest;
      Uncons(QUOTE, rest);
    } else if st.Js? && |s| >= 2 && High(s[0]) && Low(s[1]) {
      StringRoundTrip(s[2..], st, rest);
      PairStep(s, st, rest);
    } else {
      StringRoundTrip(s[1..], st, rest);
      HeadStep(s, st, rest);
    }
  }

  // ---------- numbers ----------

  /** Integer digits, fraction digits and exponent, as they stand in the text. */
  datatype Layout = Layout(whole: seq<Digit>, frac: Option<seq<Digit>>, exp: Option<int>)

  function Zeros(n: nat): (r: seq<Digit>)
    ensures |r| == n
  {
    seq(n, i => 0)
  }

  /** Points above `HighPoint`, or not above `LowPoint`, are printed with an exponent. */
  function HighPoint(st: Style): int { if st.Js? then 21 else 16 }

  function LowPoint(st: Style): int { if st.Js? then -6 else -4 }

  /** `Number::toString` of ECMAScript for `Js`, `repr(float)` for the Python styles. */
  function LayOut(digits: seq<Digit>, point: int, st: Style): Layout {
    var k := |digits|;
    var whole := if st.Js? then None else Some([0]);
    if k == 0 then Layout([0], whole, None)
    else if k <= point <= HighPoint(st) then Layout(digits + Zeros(point - k), whole, None)
    else if 0 < point <= HighPoint(st) then Layout(digits[..point], Some(digits[point..]), None)
    else if LowPoint(st) < point <= 0 then Layout([0], Some(Zeros(-point) + digits), None)
    else Layout(digits[..1], if k > 1 then Some(digits[1..]) else None, Some(point - 1))
  }

  function DigitText(ds: seq<Digit>): (t: Text)
    ensures |t| == |ds| && forall i | 0 <= i < |t| :: t[i] == ZERO + ds[i]
  {
    seq(|ds|, i requires 0 <= i < |ds| => ZERO + ds[i])
  }

  function FracText(frac: Option<seq<Digit>>): Text {
    match frac
    case None => []
    case Some(ds) => [DOT] + DigitText(ds)
  }

  /** Python pads the exponent to two digits. */
  function Padded(exponent: Text, st: Style): Text {
    if !st.Js? && |exponent| == 1 then [ZERO] + exponent else exponent
  }

  function ExpText(exp: Option<int>, st: Style): Text {
    match exp
    case None => []
    case Some(e) =>
      var size: nat := if e < 0 then -e else e;
      [Code('e'), if e < 0 then MINUS else Code('+')] + Padded(Decimal(size), st)
  }

  function SignText(neg: bool): Text {
    if neg then [MINUS] else []
  }

  function LayoutText(l: Layout, st: Style): Text {
    DigitText(l.whole) + FracText(l.frac) + ExpText(l.exp, st)
  }

  function NumberText(n: Number, st: Style): Text {
    match n
    case Int(v) => SignText(v < 0) + Decimal(if v < 0 then -v else v)
    case Dec(neg, digits, point) => SignText(neg) + LayoutText(LayOut(digits, point, st), st)
    case Overflow(neg) => if st.Js? then Lit("null") else SignText(neg) + Lit("Infinity")
  }

  /** 2^1024 - 2^970, in hexadecimal: from here on a literal rounds to Infinity. */
  const DOUBLE_LIMIT: nat :=
    0xFFFFFFFFFFFFFC
    * 0x1000000000000000000000000000000000000000000000000000000000000000000000000000000000
    * 0x1000000000000000000000000000000000000000000000000000000000000000000000000000000000
    * 0x100000000000000000000000000000000000000000000000000000000000000000000000000000000

  function Power10(n: nat): nat {
    if n == 0 then 1 else 10 * Power10(n - 1)
  }

  /** 0.d1...dk times ten to the `point` is below the limit, which itself has 309 digits; `digits` starts with a nonzero
      one. */
  predicate Fits(digits: seq<Digit>, point: int) {
    || point < 309
    || (point == 309 &&
        if |digits| <= 309 then FromDigits(digits) * Power10(309 - |digits|) < DOUBLE_LIMIT
        else FromDigits(digits) < DOUBLE_LIMIT * Power10(|digits| - 309))
  }

  /** Numbers each runtime holds: JavaScript has only doubles, -0 read as 0; `json.dumps` input is finite. */
  predicate ValidNumber(n: Number, st: Style) {
    match n
    case Int(_) => !st.Js?
    case Dec(neg, digits, point) =>
      if digits == [] then point == 0 && !(st.Js? && neg)
      else digits[0] != 0 && digits[|digits| - 1] != 0 && (st.Js? ==> Fits(digits, point))
    case Overflow(_) => st.Js?
  }

  /** Strips the zeros that carry no value; the value of 0.ds times ten to the point stays. */
  function Normalise(neg: bool, ds: seq<Digit>, point: int): Number {
    if ds == [] then Dec(neg, [], 0)
    else if ds[0] == 0 then Normalise(neg, ds[1..], point - 1)
    else if ds[|ds| - 1] == 0 then Normalise(neg, ds[..|ds| - 1], point)
    else Dec(neg, ds, point)
  }

  lemma {:induction false} NormaliseValid(neg: bool, ds: seq<Digit>, point: int)
    ensures Normalise(neg, ds, point).Dec?
    ensures ValidNumber(Normalise(neg, ds, point), PyCompact)
    ensures Normalise(neg, ds, point).neg == neg
  {
    if ds == [] {
    } else {
      if ds[0] == 0 {
        NormaliseValid(neg, ds[1..], point - 1);
      } else if ds[|ds| - 1] == 0 {
        NormaliseValid(neg, ds[..|ds| - 1], point);
      }
    }
  }

  function FromDigits(ds: seq<Digit>): nat {
    if ds == [] then 0 else FromDigits(ds[..|ds| - 1]) * 10 + ds[|ds| - 1]
  }

  function Signed(neg: bool, size: nat): int {
    if neg then 0 - size else size
  }

  function AllDigits(l: Layout): seq<Digit> {
    l.whole + if l.frac.Some? then l.frac.value else []
  }

  function PointOf(l: Layout): int {
    |l.whole| + if l.exp.Some? then l.exp.value else 0
  }

  function NumberOf(neg: bool, l: Layout, st: Style): Number {
    if !st.Js? && l.frac.None? && l.exp.None? then Int(Signed(neg, FromDigits(l.whole)))
    else
      var n := Normalise(neg, AllDigits(l), PointOf(l));
      if !st.Js? || !n.Dec? then n
      else if n.digits == [] then Dec(false, [], 0)
      else if !Fits(n.digits, n.point) then Overflow(neg)
      else n
  }

  /** The longest run of digits at the front. */
  function TakeDigits(t: Text): (r: (seq<Digit>, Text))
    ensures |r.0| + |r.1| == |t|
  {
    if t != [] && IsDigit(t[0]) then
      var (ds, rest) := TakeDigits(t[1..]);
      ([t[0] - ZERO] + ds, rest)
    else ([], t)
  }

  function ParseFrac(t: Text): (r: Reading<Option<seq<Digit>>>)
    ensures r.Ok? ==> |r.rest| <= |t|
  {
    if t != [] && t[0] == DOT then
      var (ds, rest) := TakeDigits(t[1..]);
      if ds == [] then Fail else Ok(Some(ds), rest)
    else Ok(None, t)
  }

  function ParseExp(t: Text): (r: Reading<Option<int>>)
    ensures r.Ok? ==> |r.rest| <= |t|
  {
    if t != [] && (t[0] == Code('e') || t[0] == Code('E')) then
      var signed := |t| > 1 && (t[1] == MINUS || t[1] == Code('+'));
      var (ds, rest) := TakeDigits(if signed then t[2..] else t[1..]);
      if ds == [] then Fail
      else Ok(Some(Signed(signed && t[1] == MINUS, FromDigits(ds))), rest)
    else Ok(None, t)
  }

  /** RFC 8259 section 6: an integer part of 0 takes no further digit. */
  function ParseWhole(t: Text): (r: Reading<seq<Digit>>)
    ensures r.Ok? ==> |r.rest| < |t|
  {
    if t == [] || !IsDigit(t[0]) then Fail
    else if t[0] == ZERO then Ok([0], t[1..])
    else var (ds, rest) := TakeDigits(t); Ok(ds, rest)
  }

  function ParseNumber(t0: Text, st: Style): (r: Reading<Number>)
    ensures r.Ok? ==> |r.rest| < |t0|
  {
    var neg := t0 != [] && t0[0] == MINUS;
    match ParseWhole(if neg then t0[1..] else t0)
    case Fail => Fail
    case Ok(whole, t1) =>
      match ParseFrac(t1)
      case Fail => Fail
      case Ok(frac, t2) =>
        match ParseExp(t2)
        case Fail => Fail
        case Ok(exp, t3) => Ok(NumberOf(neg, Layout(whole, frac, exp), st), t3)
  }

  /** What may follow a number without being read into it. */
  predicate Stops(rest: Text) {
    rest == [] || (!IsDigit(rest[0]) && rest[0] != DOT && rest[0] != Code('e') && rest[0] != Code('E'))
  }

  lemma TakeOne(d: Digit, t: Text)
    ensures TakeDigits([ZERO + d] + t) == ([d] + TakeDigits(t).0, TakeDigits(t).1)
  {
    Uncons(ZERO + d, t);
  }

  lemma DigitTextCons(d: Digit, ds: seq<Digit>, rest: Text)
    ensures DigitText([d] + ds) + rest == [ZERO + d] + (DigitText(ds) + rest)
  {
    assert DigitText([d] + ds) == [ZERO + d] + DigitText(ds);
    Assoc([ZERO + d], DigitText(ds), rest);
  }

  lemma {:induction false} TakeDigitText(ds: seq<Digit>, rest: Text)
    requires rest == [] || !IsDigit(rest[0])
    ensures TakeDigits(DigitText(ds) + rest) == (ds, rest)
  {
    if ds == [] {
      assert DigitText(ds) + rest == rest;
    } else {
      TakeDigitText(ds[1..], rest);
      TakeOne(ds[0], DigitText(ds[1..]) + rest);
      DigitTextCons(ds[0], ds[1..], rest);
      assert ds == [ds[0]] + ds[1..];
    }
  }

  /** The digits of `Decimal(n)`. */
  function DigitsOf(n: nat): (r: seq<Digit>)
    ensures r != [] && (r == [0] || r[0] != 0)
  {
    if n < 10 then [n] else DigitsOf(n / 10) + [n % 10]
  }

  lemma {:induction false} DigitsOfDecimal(n: nat)
    ensures Decimal(n) == DigitText(DigitsOf(n))
    ensures FromDigits(DigitsOf(n)) == n
  {
    if n >= 10 {
      DigitsOfDecimal(n / 10);
      var ds := DigitsOf(n);
      assert ds[..|ds| - 1] == DigitsOf(n / 10);
    } else {
      assert DigitsOf(n)[..0] == [];
    }
  }

  lemma {:induction false} FromDigitsLeadingZero(ds: seq<Digit>)
    ensures FromDigits([0] + ds) == FromDigits(ds)
  {
    var padded := [0] + ds;
    if ds == [] {
      assert padded[..0] == [];
    } else {
      FromDigitsLeadingZero(ds[..|ds| - 1]);
      assert padded[..|padded| - 1] == [0] + ds[..|ds| - 1];
    }
  }

  function ExpDigits(size: nat, st: Style): (r: seq<Digit>)
    ensures r != []
  {
    (if !st.Js? && size < 10 then [0] else []) + DigitsOf(size)
  }

  lemma ExpDigitsValue(size: nat, st: Style)
    ensures FromDigits(ExpDigits(size, st)) == size
    ensures DigitText(ExpDigits(size, st)) == Padded(Decimal(size), st)
  {
    DigitsOfDecimal(size);
    FromDigitsLeadingZero(DigitsOf(size));
    var ds := ExpDigits(size, st);
    DecimalShort(size);
    if !st.Js? && size < 10 {
      assert ds == [0] + DigitsOf(size);
      assert DigitText(ds) == [ZERO] + DigitText(DigitsOf(size));
    } else {
      assert ds == DigitsOf(size);
    }
  }

  lemma DecimalShort(size: nat)
    ensures |Decimal(size)| == 1 <==> size < 10
  {
  }

  lemma ParseSignedExp(neg: bool, ds: seq<Digit>, rest: Text)
    requires ds != [] && (rest == [] || !IsDigit(rest[0]))
    ensures ParseExp([Code('e'), if neg then MINUS else Code('+')] + DigitText(ds) + rest)
            == Ok(Some(Signed(neg, FromDigits(ds))), rest)
  {
    var t := [Code('e'), if neg then MINUS else Code('+')] + DigitText(ds) + rest;
    assert t[2..] == DigitText(ds) + rest;
    TakeDigitText(ds, rest);
  }

  lemma ExpRoundTrip(exp: Option<int>, st: Style, rest: Text)
    requires Stops(rest)
    ensures ParseExp(ExpText(exp, st) + rest) == Ok(exp, rest)
  {
    match exp
    case None =>
      assert ExpText(exp, st) + rest == rest;
    case Some(e) =>
      var size: nat := if e < 0 then -e else e;
      ExpDigitsValue(size, st);
      ParseSignedExp(e < 0, ExpDigits(size, st), rest);
  }

  lemma FracRoundTrip(frac: Option<seq<Digit>>, rest: Text)
    requires frac.Some? ==> frac.value != []
    requires rest == [] || (!IsDigit(rest[0]) && rest[0] != DOT)
    ensures ParseFrac(FracText(frac) + rest) == Ok(frac, rest)
  {
    match frac
    case None =>
      assert FracText(frac) + rest == rest;
    case Some(ds) =>
      TakeDigitText(ds, rest);
      Assoc([DOT], DigitText(ds), rest);
      Uncons(DOT, DigitText(ds) + rest);
  }

  lemma WholeRoundTrip(whole: seq<Digit>, rest: Text)
    requires whole == [0] || (whole != [] && whole[0] != 0)
    requires rest == [] || !IsDigit(rest[0])
    ensures ParseWhole(DigitText(whole) + rest) == Ok(whole, rest)
  {
    var t := DigitText(whole) + rest;
    if whole == [0] {
      assert t[1..] == rest;
    } else {
      TakeDigitText(whole, rest);
    }
  }

  predicate WellLaid(l: Layout) {
    && (l.whole == [0] || (l.whole != [] && l.whole[0] != 0))
    && (l.frac.Some? ==> l.frac.value != [])
  }

  lemma UnsignedRoundTrip(l: Layout, st: Style, rest: Text)
    requires WellLaid(l) && Stops(rest)
    ensures LayoutText(l, st) != [] && LayoutText(l, st)[0] != MINUS
    ensures var t := LayoutText(l, st) + rest;
            && ParseWhole(t).Ok? && ParseWhole(t).value == l.whole
            && ParseFrac(ParseWhole(t).rest) == Ok(l.frac, ExpText(l.exp, st) + rest)
            && ParseExp(ExpText(l.exp, st) + rest) == Ok(l.exp, rest)
  {
    var t3 := ExpText(l.exp, st) + rest;
    var t2 := FracText(l.frac) + t3;
    Regroup(DigitText(l.whole), FracText(l.frac), ExpText(l.exp, st), rest);
    assert FracText(l.frac) + ExpText(l.exp, st) + rest == t2;
    WholeRoundTrip(l.whole, t2);
    FracRoundTrip(l.frac, t3);
    ExpRoundTrip(l.exp, st, rest);
  }

  lemma SignApart(neg: bool, t: Text, rest: Text)
    requires t != [] && t[0] != MINUS
    ensures var whole := SignText(neg) + t + rest;
            && neg == (whole != [] && whole[0] == MINUS)
            && (if neg then whole[1..] else whole) == t + rest
  {
    var whole := SignText(neg) + t + rest;
    assert neg ==> whole[1..] == t + rest;
    assert !neg ==> whole == t + rest;
  }

  lemma LayoutRoundTrip(neg: bool, l: Layout, st: Style, rest: Text)
    requires WellLaid(l) && Stops(rest)
    ensures ParseNumber(SignText(neg) + LayoutText(l, st) + rest, st) == Ok(NumberOf(neg, l, st), rest)
  {
    UnsignedRoundTrip(l, st, rest);
    SignApart(neg, LayoutText(l, st), rest);
  }

  lemma {:induction false} NormaliseTrailing(neg: bool, ds: seq<Digit>, zeros: nat, point: int)
    requires ds != [] && ds[0] != 0 && ds[|ds| - 1] != 0
    ensures Normalise(neg, ds + Zeros(zeros), point) == Dec(neg, ds, point)
  {
    var all := ds + Zeros(zeros);
    if zeros == 0 {
      assert all == ds;
    } else {
      NormaliseTrailing(neg, ds, zeros - 1, point);
      assert all[..|all| - 1] == ds + Zeros(zeros - 1);
    }
  }

  lemma {:induction false} NormaliseLeading(neg: bool, ds: seq<Digit>, zeros: nat, point: int)
    ensures Normalise(neg, Zeros(zeros) + ds, point) == Normalise(neg, ds, point - zeros)
  {
    var all := Zeros(zeros) + ds;
    if zeros == 0 {
      assert all == ds;
    } else {
      NormaliseLeading(neg, ds, zeros - 1, point - 1);
      assert all[1..] == Zeros(zeros - 1) + ds;
    }
  }

  lemma LayOutDigits(ds: seq<Digit>, point: int, st: Style)
    requires ds != []
    ensures var l, k := LayOut(ds, point, st), |ds|;
            if k <= point <= HighPoint(st) then AllDigits(l) == ds + Zeros(point - k + if st.Js? then 0 else 1)
            else if LowPoint(st) < point <= 0 then AllDigits(l) == Zeros(1 - point) + ds
            else AllDigits(l) == ds
  {
  }

  lemma ZeroKeepsValue(neg: bool, st: Style)
    requires !(st.Js? && neg)
    ensures NumberOf(neg, LayOut([], 0, st), st) == Dec(neg, [], 0)
  {
    var all := AllDigits(LayOut([], 0, st));
    assert all == Zeros(if st.Js? then 1 else 2) + [];
    NormaliseLeading(neg, [], if st.Js? then 1 else 2, 1);
  }

  /** Undoing each of the three shapes a nonzero number is laid out in. */
  lemma NonzeroKeepsValue(neg: bool, ds: seq<Digit>, point: int, st: Style)
    requires ds != [] && ds[0] != 0 && ds[|ds| - 1] != 0
    ensures Normalise(neg, AllDigits(LayOut(ds, point, st)), PointOf(LayOut(ds, point, st))) == Dec(neg, ds, point)
  {
    LayOutDigits(ds, point, st);
    LayOutPoint(ds, point, st);
    if |ds| <= point <= HighPoint(st) {
      NormaliseTrailing(neg, ds, point - |ds| + if st.Js? then 0 else 1, point);
    } else if LowPoint(st) < point <= 0 {
      NormaliseLeading(neg, ds, 1 - point, 1);
      NormalIsItself(neg, ds, point);
    } else {
      NormalIsItself(neg, ds, point);
    }
  }

  lemma NormalIsItself(neg: bool, ds: seq<Digit>, point: int)
    requires ds != [] && ds[0] != 0 && ds[|ds| - 1] != 0
    ensures Normalise(neg, ds, point) == Dec(neg, ds, point)
  {
  }

  lemma LayOutPoint(ds: seq<Digit>, point: int, st: Style)
    requires ds != []
    ensures PointOf(LayOut(ds, point, st)) == if LowPoint(st) < point <= 0 then 1 else point
  {
  }

  lemma LayOutWellLaid(ds: seq<Digit>, point: int, st: Style)
    requires ds == [] || ds[0] != 0
    ensures var l := LayOut(ds, point, st);
            WellLaid(l) && (st.Js? || l.frac.Some? || l.exp.Some?)
  {
  }

  lemma LayOutKeepsValue(n: Number, st: Style)
    requires n.Dec? && ValidNumber(n, st)
    ensures NumberOf(n.neg, LayOut(n.digits, n.point, st), st) == n
  {
    if n.digits == [] {
      ZeroKeepsValue(n.neg, st);
    } else {
      NonzeroKeepsValue(n.neg, n.digits, n.point, st);
      LayOutWellLaid(n.digits, n.point, st);
    }
  }

  lemma IntLayout(size: nat, st: Style)
    ensures var l := Layout(DigitsOf(size), None, None);
            WellLaid(l) && LayoutText(l, st) == Decimal(size) && FromDigits(l.whole) == size
  {
    DigitsOfDecimal(size);
  }

  lemma IntText(v: int, size: nat, st: Style)
    requires size == (if v < 0 then -v else v) && !st.Js?
    ensures NumberText(Int(v), st) == SignText(v < 0) + Decimal(size)
    ensures NumberOf(v < 0, Layout(DigitsOf(size), None, None), st) == Int(v)
  {
    IntLayout(size, st);
  }

  lemma IntRoundTrip(v: int, st: Style, rest: Text)
    requires !st.Js? && Stops(rest)
    ensures ParseNumber(NumberText(Int(v), st) + rest, st) == Ok(Int(v), rest)
  {
    var size: nat := if v < 0 then -v else v;
    IntLayout(size, st);
    IntText(v, size, st);
    LayoutRoundTrip(v < 0, Layout(DigitsOf(size), None, None), st, rest);
  }

  lemma DecRoundTrip(n: Number, st: Style, rest: Text)
    requires n.Dec? && ValidNumber(n, st) && Stops(rest)
    ensures ParseNumber(NumberText(n, st) + rest, st) == Ok(n, rest)
  {
    LayOutKeepsValue(n, st);
    LayOutWellLaid(n.digits, n.point, st);
    LayoutRoundTrip(n.neg, LayOut(n.digits, n.point, st), st, rest);
  }

  lemma NumberRoundTrip(n: Number, st: Style, rest: Text)
    requires ValidNumber(n, st) && !n.Overflow? && Stops(rest)
    ensures ParseNumber(NumberText(n, st) + rest, st) == Ok(n, rest)
  {
    match n
    case Int(v) => IntRoundTrip(v, st, rest);
    case Dec(_, _, _) => DecRoundTrip(n, st, rest);
  }

  /** A literal beyond the double range. */
  const HUGE := Lit("1e+400")

  lemma HugeLayout()
    ensures LayoutText(Layout([1], None, Some(400)), Js) == HUGE
    ensures NumberOf(false, Layout([1], None, Some(400)), Js) == Overflow(false)
  {
    assert Decimal(400) == Decimal(40) + [Code('0')] && Decimal(40) == Decimal(4) + [Code('0')];
    assert AllDigits(Layout([1], None, Some(400))) == [1];
  }

  lemma HugeOverflows(rest: Text)
    requires Stops(rest)
    ensures ParseNumber(HUGE + rest, Js) == Ok(Overflow(false), rest)
  {
    HugeLayout();
    LayoutRoundTrip(false, Layout([1], None, Some(400)), Js, rest);
    assert SignText(false) + HUGE == HUGE;
  }
}
