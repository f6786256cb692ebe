/**
 JSON as the Arena service and the evidence backend hash it. `Canon` is the recursive `canonical` of the Arena service
 and the `json.dumps(..., sort_keys=True)` of the backend, one `Style` each. `ParseValue` reads the RFC 8259 grammar
 and is the printer's inverse.
 */
module Json {
  import opened Texts
  import opened Sorting
  import opened JsonTokens

  datatype Json =
    | Null
    | Bool(b: bool)
    | Num(n: Number)
    | Str(s: Text)
    | Arr(items: seq<Json>)
    | Obj(members: seq<Member>)
  datatype Member = Member(key: Text, value: Json)

  predicate KeyLess(a: Member, b: Member) {
    TextLess(a.key, b.key)
  }

  ghost predicate DistinctKeys(ms: seq<Member>) {
    forall i, j | 0 <= i < j < |ms| :: ms[i].key != ms[j].key
  }

  /** A value the runtime of `st` can hold: no repeated key, and numbers in that runtime's range. */
  ghost predicate Valid(v: Json, st: Style) {
    match v
    case Num(n) => ValidNumber(n, st)
    case Arr(items) => forall i | 0 <= i < |items| :: Valid(items[i], st)
    case Obj(ms) => DistinctKeys(ms) && forall i | 0 <= i < |ms| :: Valid(ms[i].value, st)
    case _ => true
  }

  function ByKey(ms: seq<Member>): (r: seq<Member>)
    ensures |r| == |ms| && forall m :: m in r <==> m in ms
  {
    Sort(KeyLess, ms)
  }

  function Comma(st: Style): Text { if st.PySpaced? then [COMMA, 0x20] else [COMMA] }

  function Colon(st: Style): Text { if st.PySpaced? then [COLON, 0x20] else [COLON] }

  function Quote(s: Text, st: Style): Text {
    [QUOTE] + QuoteBody(s, st) + [QUOTE]
  }

  function Canon(v: Json, st: Style): Text
    decreases v
  {
    match v
    case Null => Lit("null")
    case Bool(b) => if b then Lit("true") else Lit("false")
    case Num(n) => NumberText(n, st)
    case Str(s) => Quote(s, st)
    case Arr(items) => [LBRACKET] + CanonItems(items, v, st) + [RBRACKET]
    case Obj(ms) => [LBRACE] + CanonMembers(ByKey(ms), v, st) + [RBRACE]
  }

  function CanonItems(items: seq<Json>, ghost whole: Json, st: Style): Text
    requires forall i | 0 <= i < |items| :: items[i] < whole
    decreases whole, |items|
  {
    if items == [] then []
    else if |items| == 1 then Canon(items[0], st)
    else Canon(items[0], st) + Comma(st) + CanonItems(items[1..], whole, st)
  }

  function CanonMember(m: Member, ghost whole: Json, st: Style): Text
    requires m.value < whole
    decreases whole, 0
  {
    Quote(m.key, st) + Colon(st) + Canon(m.value, st)
  }

  function CanonMembers(ms: seq<Member>, ghost whole: Json, st: Style): Text
    requires forall m | m in ms :: m.value < whole
    decreases whole, |ms|
  {
    if ms == [] then []
    else if |ms| == 1 then CanonMember(ms[0], whole, st)
    else CanonMember(ms[0], whole, st) + Comma(st) + CanonMembers(ms[1..], whole, st)
  }

  // ---------- reader ----------

  predicate IsSpace(u: Unit) { u == 0x20 || u == 9 || u == 10 || u == 13 }

  function Skip(t: Text): (r: Text)
    ensures |r| <= |t|
    ensures r == [] || !IsSpace(r[0])
  {
    if t != [] && IsSpace(t[0]) then Skip(t[1..]) else t
  }

  /** A repeated key keeps its last value, as `JSON.parse` and `json.loads` do. */
  function Put(m: Member, ms: seq<Member>): seq<Member> {
    if exists i | 0 <= i < |ms| :: ms[i].key == m.key then ms else [m] + ms
  }

  function ParseWord(word: Text, v: Json, t: Text): (r: Reading<Json>)
    requires word != []
    ensures r.Ok? ==> |r.rest| < |t|
  {
    if word <= t then Ok(v, t[|word|..]) else Fail
  }

  function ParseValue(t0: Text, st: Style): (r: Reading<Json>)
    ensures r.Ok? ==> |r.rest| < |t0|
    decreases |t0|, 2
  {
    var t := Skip(t0);
    if t == [] then Fail
    else if t[0] == QUOTE then
      match ParseString(t[1..])
      case Fail => Fail
      case Ok(s, rest) => Ok(Str(s), rest)
    else if t[0] == LBRACKET then
      var u := Skip(t[1..]);
      if u != [] && u[0] == RBRACKET then Ok(Arr([]), u[1..])
      else
        match ParseItems(t[1..], st)
        case Fail => Fail
        case Ok(items, rest) => Ok(Arr(items), rest)
    else if t[0] == LBRACE then
      var u := Skip(t[1..]);
      if u != [] && u[0] == RBRACE then Ok(Obj([]), u[1..])
      else
        match ParseMembers(t[1..], st)
        case Fail => Fail
        case Ok(ms, rest) => Ok(Obj(ms), rest)
    else if t[0] == Code('n') then ParseWord(Lit("null"), Null, t)
    else if t[0] == Code('t') then ParseWord(Lit("true"), Bool(true), t)
    else if t[0] == Code('f') then ParseWord(Lit("false"), Bool(false), t)
    else
      match ParseNumber(t, st)
      case Fail => Fail
      case Ok(n, rest) => Ok(Num(n), rest)
  }

  /** Items up to and including the closing bracket. */
  function ParseItems(t: Text, st: Style): (r: Reading<seq<Json>>)
    ensures r.Ok? ==> |r.rest| < |t|
    decreases |t|, 3
  {
    match ParseValue(t, st)
    case Fail => Fail
    case Ok(v, rest) =>
      var u := Skip(rest);
      if u == [] then Fail
      else if u[0] == RBRACKET then Ok([v], u[1..])
      else if u[0] == COMMA then
        match ParseItems(u[1..], st)
        case Fail => Fail
        case Ok(vs, end) => Ok([v] + vs, end)
      else Fail
  }

  function ParseMember(t0: Text, st: Style): (r: Reading<Member>)
    ensures r.Ok? ==> |r.rest| < |t0|
    decreases |t0|, 3
  {
    var t := Skip(t0);
    if t == [] || t[0] != QUOTE then Fail
    else
      match ParseString(t[1..])
      case Fail => Fail
      case Ok(key, rest) =>
        var u := Skip(rest);
        if u == [] || u[0] != COLON then Fail
        else
          match ParseValue(u[1..], st)
          case Fail => Fail
          case Ok(v, end) => Ok(Member(key, v), end)
  }

  /** Members up to and including the closing brace. */
  function ParseMembers(t: Text, st: Style): (r: Reading<seq<Member>>)
    ensures r.Ok? ==> |r.rest| < |t|
    decreases |t|, 4
  {
    match ParseMember(t, st)
    case Fail => Fail
    case Ok(m, rest) =>
      var u := Skip(rest);
      if u == [] then Fail
      else if u[0] == RBRACE then Ok([m], u[1..])
      else if u[0] == COMMA then
        match ParseMembers(u[1..], st)
        case Fail => Fail
        case Ok(ms, end) => Ok(Put(m, ms), end)
      else Fail
  }

  /** `JSON.parse` or `json.loads` of a whole text. */
  function Load(t: Text, st: Style): Option<Json> {
    match ParseValue(t, st)
    case Fail => None
    case Ok(v, rest) => if Skip(rest) == [] then Some(v) else None
  }

  // ---------- what survives printing ----------

  /** The value a reader gets back: keys in order, an overflowed number read as null. */
  function Norm(v: Json): Json
    decreases v
  {
    match v
    case Num(n) => if n.Overflow? then Null else v
    case Arr(items) => Arr(NormItems(items, v))
    case Obj(ms) => Obj(NormMembers(ByKey(ms), v))
    case _ => v
  }

  function NormItems(items: seq<Json>, ghost whole: Json): (r: seq<Json>)
    requires forall i | 0 <= i < |items| :: items[i] < whole
    ensures |r| == |items| && forall i | 0 <= i < |r| :: r[i] == Norm(items[i])
    decreases whole, |items|
  {
    if items == [] then [] else [Norm(items[0])] + NormItems(items[1..], whole)
  }

  function NormMembers(ms: seq<Member>, ghost whole: Json): (r: seq<Member>)
    requires forall m | m in ms :: m.value < whole
    ensures |r| == |ms| && forall i | 0 <= i < |r| :: r[i] == Member(ms[i].key, Norm(ms[i].value))
    decreases whole, |ms|
  {
    if ms == [] then [] else [Member(ms[0].key, Norm(ms[0].value))] + NormMembers(ms[1..], whole)
  }

  // ---------- the reader inverts the printer ----------

  lemma SkipNothing(u: Unit, t: Text)
    requires !IsSpace(u)
    ensures Skip([u] + t) == [u] + t
  {
  }

  lemma SkipOne(t: Text)
    ensures Skip([0x20] + t) == Skip(t)
  {
    assert ([0x20] + t)[1..] == t;
  }

  lemma FirstUnit(v: Json, st: Style)
    requires Valid(v, st)
    ensures Canon(v, st) != []
    ensures var u := Canon(v, st)[0]; !IsSpace(u) && u != RBRACKET && u != COMMA
  {
    if v.Num? {
      NumberFirstUnit(v.n, st);
    }
  }

  lemma NumberFirstUnit(n: Number, st: Style)
    requires ValidNumber(n, st)
    ensures NumberText(n, st) != []
    ensures n.Overflow? || NumberText(n, st)[0] == MINUS || IsDigit(NumberText(n, st)[0])
    ensures n.Overflow? ==> NumberText(n, st) == Lit("null")
  {
    match n
    case Int(v) =>
      var d := Decimal(if v < 0 then -v else v);
      assert d[0] in d;
    case Dec(neg, digits, point) =>
      LayOutWellLaid(digits, point, st);
      assert DigitText(LayOut(digits, point, st).whole) != [];
    case Overflow(_) =>
  }

  lemma WordRoundTrip(word: Text, v: Json, rest: Text)
    requires word != []
    ensures ParseWord(word, v, word + rest) == Ok(v, rest)
  {
    assert (word + rest)[|word|..] == rest;
  }

  lemma QuoteRoundTrip(s: Text, st: Style, rest: Text)
    ensures Quote(s, st) + rest != [] && (Quote(s, st) + rest)[0] == QUOTE
    ensures ParseString((Quote(s, st) + rest)[1..]) == Ok(s, rest)
  {
    StringRoundTrip(s, st, rest);
    Regroup([QUOTE], QuoteBody(s, st), [QUOTE], rest);
    Uncons(QUOTE, QuoteBody(s, st) + [QUOTE] + rest);
  }

  lemma NumberRead(t: Text, st: Style, n: Number, rest: Text)
    requires t != [] && (t[0] == MINUS || IsDigit(t[0])) && ParseNumber(t, st) == Ok(n, rest)
    ensures ParseValue(t, st) == Ok(Num(n), rest)
  {
    SkipFirst(t);
  }

  lemma NullRead(rest: Text, st: Style)
    ensures ParseValue(Lit("null") + rest, st) == Ok(Null, rest)
  {
    SkipFirst(Lit("null") + rest);
    WordRoundTrip(Lit("null"), Null, rest);
  }

  lemma NumRoundTrip(n: Number, st: Style, rest: Text)
    requires ValidNumber(n, st) && Stops(rest)
    ensures ParseValue(NumberText(n, st) + rest, st) == Ok(Norm(Num(n)), rest)
  {
    NumberFirstUnit(n, st);
    if n.Overflow? {
      NullRead(rest, st);
    } else {
      NumberRoundTrip(n, st, rest);
      var t := NumberText(n, st);
      assert (t + rest)[0] == t[0];
      NumberRead(t + rest, st, n, rest);
    }
  }

  lemma SkipFirst(t: Text)
    requires t != [] && !IsSpace(t[0])
    ensures Skip(t) == t
  {
  }

  lemma StrRoundTrip(s: Text, st: Style, rest: Text)
    ensures ParseValue(Quote(s, st) + rest, st) == Ok(Str(s), rest)
  {
    QuoteRoundTrip(s, st, rest);
    SkipFirst(Quote(s, st) + rest);
  }

  lemma ScalarRoundTrip(v: Json, st: Style, rest: Text)
    requires Valid(v, st) && Stops(rest) && !v.Arr? && !v.Obj?
    ensures ParseValue(Canon(v, st) + rest, st) == Ok(Norm(v), rest)
  {
    match v
    case Null => NullRead(rest, st);
    case Bool(b) =>
      var word := if b then Lit("true") else Lit("false");
      SkipFirst(word + rest);
      WordRoundTrip(word, v, rest);
    case Str(s) => StrRoundTrip(s, st, rest);
    case Num(n) => NumRoundTrip(n, st, rest);
  }

  lemma ItemsLast(t: Text, st: Style, v: Json, rest: Text)
    requires ParseValue(t, st) == Ok(v, [RBRACKET] + rest)
    ensures ParseItems(t, st) == Ok([v], rest)
  {
    SkipNothing(RBRACKET, rest);
    assert ([RBRACKET] + rest)[1..] == rest;
  }

  /** A separator, then the same reading with or without the space that may follow it. */
  lemma AfterSeparator(u: Unit, sep: Text, more: Text, st: Style)
    requires !IsSpace(u) && (sep == [u] || sep == [u, 0x20])
    ensures var t := Skip(sep + more);
            && t == sep + more && t != [] && t[0] == u
            && Skip(t[1..]) == Skip(more)
  {
    var tail := sep[1..] + more;
    assert sep + more == [u] + tail;
    SkipNothing(u, tail);
    assert ([u] + tail)[1..] == tail;
    SkipOne(more);
    assert tail == more || tail == [0x20] + more;
  }

  lemma SameSkip(a: Text, b: Text, st: Style)
    requires Skip(a) == Skip(b)
    ensures ParseValue(a, st) == ParseValue(b, st)
    ensures ParseItems(a, st) == ParseItems(b, st)
  {
  }

  lemma SameSkipMembers(a: Text, b: Text, st: Style)
    requires Skip(a) == Skip(b)
    ensures ParseMember(a, st) == ParseMember(b, st)
    ensures ParseMembers(a, st) == ParseMembers(b, st)
  {
    assert ParseMember(a, st) == ParseMember(b, st);
  }

  lemma ItemsMore(t: Text, st: Style, v: Json, more: Text, vs: seq<Json>, rest: Text)
    requires ParseValue(t, st) == Ok(v, Comma(st) + more)
    requires ParseItems(more, st) == Ok(vs, rest)
    ensures ParseItems(t, st) == Ok([v] + vs, rest)
  {
    AfterSeparator(COMMA, Comma(st), more, st);
    SameSkip((Comma(st) + more)[1..], more, st);
  }

  lemma MemberOpens(key: Text, st: Style, rest: Text)
    ensures var t := Skip(Quote(key, st) + rest);
            t != [] && t[0] == QUOTE && ParseString(t[1..]) == Ok(key, rest)
  {
    QuoteRoundTrip(key, st, rest);
    SkipFirst(Quote(key, st) + rest);
  }

  lemma MemberRead(key: Text, st: Style, body: Text, v: Json, rest: Text)
    requires ParseValue(body, st) == Ok(v, rest)
    ensures ParseMember(Quote(key, st) + (Colon(st) + body), st) == Ok(Member(key, v), rest)
  {
    MemberOpens(key, st, Colon(st) + body);
    AfterSeparator(COLON, Colon(st), body, st);
    SameSkip((Colon(st) + body)[1..], body, st);
  }

  lemma MembersLast(t: Text, st: Style, m: Member, rest: Text)
    requires ParseMember(t, st) == Ok(m, [RBRACE] + rest)
    ensures ParseMembers(t, st) == Ok([m], rest)
  {
    SkipNothing(RBRACE, rest);
    assert ([RBRACE] + rest)[1..] == rest;
  }

  lemma MembersMore(t: Text, st: Style, m: Member, more: Text, ms: seq<Member>, rest: Text)
    requires ParseMember(t, st) == Ok(m, Comma(st) + more)
    requires ParseMembers(more, st) == Ok(ms, rest)
    ensures ParseMembers(t, st) == Ok(Put(m, ms), rest)
  {
    AfterSeparator(COMMA, Comma(st), more, st);
    SameSkipMembers((Comma(st) + more)[1..], more, st);
  }

  lemma LastItem(x: Json, whole: Json, st: Style, rest: Text)
    requires x < whole && ParseValue(Canon(x, st) + ([RBRACKET] + rest), st) == Ok(Norm(x), [RBRACKET] + rest)
    ensures ParseItems(CanonItems([x], whole, st) + [RBRACKET] + rest, st) == Ok(NormItems([x], whole), rest)
  {
    ItemsLast(Canon(x, st) + ([RBRACKET] + rest), st, Norm(x), rest);
    Assoc(Canon(x, st), [RBRACKET], rest);
    assert NormItems([x], whole) == [Norm(x)];
  }

  lemma FirstItem(items: seq<Json>, whole: Json, st: Style, rest: Text)
    requires |items| > 1 && forall i | 0 <= i < |items| :: items[i] < whole
    requires var more := CanonItems(items[1..], whole, st) + [RBRACKET] + rest;
             && ParseItems(more, st) == Ok(NormItems(items[1..], whole), rest)
             && ParseValue(Canon(items[0], st) + (Comma(st) + more), st) == Ok(Norm(items[0]), Comma(st) + more)
    ensures ParseItems(CanonItems(items, whole, st) + [RBRACKET] + rest, st) == Ok(NormItems(items, whole), rest)
  {
    var first, tail := Canon(items[0], st), CanonItems(items[1..], whole, st);
    var more := tail + [RBRACKET] + rest;
    ItemsMore(first + (Comma(st) + more), st, Norm(items[0]), more, NormItems(items[1..], whole), rest);
    RegroupFive(first, Comma(st), tail, [RBRACKET], rest);
  }

  lemma {:induction false} ItemsRoundTrip(items: seq<Json>, whole: Json, st: Style, rest: Text)
    requires items != [] && forall i | 0 <= i < |items| :: items[i] < whole && Valid(items[i], st)
    ensures ParseItems(CanonItems(items, whole, st) + [RBRACKET] + rest, st) == Ok(NormItems(items, whole), rest)
    decreases whole, |items|
  {
    if |items| == 1 {
      ValueRoundTrip(items[0], st, [RBRACKET] + rest);
      LastItem(items[0], whole, st, rest);
      assert items == [items[0]];
    } else {
      var more := CanonItems(items[1..], whole, st) + [RBRACKET] + rest;
      ItemsRoundTrip(items[1..], whole, st, rest);
      ValueRoundTrip(items[0], st, Comma(st) + more);
      FirstItem(items, whole, st, rest);
    }
  }

  lemma RegroupFive(a: Text, b: Text, c: Text, d: Text, e: Text)
    ensures a + b + c + d + e == a + (b + (c + d + e))
  {
  }

  lemma MemberRoundTrip(m: Member, whole: Json, st: Style, rest: Text)
    requires m.value < whole && ParseValue(Canon(m.value, st) + rest, st) == Ok(Norm(m.value), rest)
    ensures ParseMember(CanonMember(m, whole, st) + rest, st) == Ok(Member(m.key, Norm(m.value)), rest)
  {
    MemberRead(m.key, st, Canon(m.value, st) + rest, Norm(m.value), rest);
    RegroupRight(Quote(m.key, st), Colon(st), Canon(m.value, st), rest);
  }

  lemma PutFresh(m: Member, ms: seq<Member>)
    requires forall i | 0 <= i < |ms| :: ms[i].key != m.key
    ensures Put(m, ms) == [m] + ms
  {
  }

  lemma LastMember(x: Member, whole: Json, st: Style, rest: Text)
    requires x.value < whole
    requires ParseValue(Canon(x.value, st) + ([RBRACE] + rest), st) == Ok(Norm(x.value), [RBRACE] + rest)
    ensures ParseMembers(CanonMembers([x], whole, st) + [RBRACE] + rest, st) == Ok(NormMembers([x], whole), rest)
  {
    var m := Member(x.key, Norm(x.value));
    MemberRoundTrip(x, whole, st, [RBRACE] + rest);
    MembersLast(CanonMember(x, whole, st) + ([RBRACE] + rest), st, m, rest);
    Assoc(CanonMember(x, whole, st), [RBRACE], rest);
    assert NormMembers([x], whole) == [m];
  }

  lemma FirstMember(ms: seq<Member>, whole: Json, st: Style, rest: Text)
    requires |ms| > 1 && DistinctKeys(ms) && forall m | m in ms :: m.value < whole
    requires var more := CanonMembers(ms[1..], whole, st) + [RBRACE] + rest;
             && ParseMembers(more, st) == Ok(NormMembers(ms[1..], whole), rest)
             && ParseValue(Canon(ms[0].value, st) + (Comma(st) + more), st) == Ok(Norm(ms[0].value), Comma(st) + more)
    ensures ParseMembers(CanonMembers(ms, whole, st) + [RBRACE] + rest, st) == Ok(NormMembers(ms, whole), rest)
  {
    var first := CanonMember(ms[0], whole, st);
    var m := Member(ms[0].key, Norm(ms[0].value));
    var tail := CanonMembers(ms[1..], whole, st);
    var more := tail + [RBRACE] + rest;
    MemberRoundTrip(ms[0], whole, st, Comma(st) + more);
    MembersMore(first + (Comma(st) + more), st, m, more, NormMembers(ms[1..], whole), rest);
    PutFresh(m, NormMembers(ms[1..], whole));
    RegroupFive(first, Comma(st), tail, [RBRACE], rest);
  }

  lemma {:induction false} MembersRoundTrip(ms: seq<Member>, whole: Json, st: Style, rest: Text)
    requires ms != [] && DistinctKeys(ms) && forall i | 0 <= i < |ms| :: ms[i].value < whole && Valid(ms[i].value, st)
    ensures ParseMembers(CanonMembers(ms, whole, st) + [RBRACE] + rest, st) == Ok(NormMembers(ms, whole), rest)
    decreases whole, |ms|
  {
    if |ms| == 1 {
      ValueRoundTrip(ms[0].value, st, [RBRACE] + rest);
      LastMember(ms[0], whole, st, rest);
      assert ms == [ms[0]];
    } else {
      var more := CanonMembers(ms[1..], whole, st) + [RBRACE] + rest;
      MembersRoundTrip(ms[1..], whole, st, rest);
      ValueRoundTrip(ms[0].value, st, Comma(st) + more);
      FirstMember(ms, whole, st, rest);
    }
  }

  lemma ByKeyValid(ms: seq<Member>, whole: Json, st: Style)
    requires DistinctKeys(ms) && forall i | 0 <= i < |ms| :: ms[i].value < whole && Valid(ms[i].value, st)
    ensures var r := ByKey(ms);
            DistinctKeys(r) && forall i | 0 <= i < |r| :: r[i].value < whole && Valid(r[i].value, st)
  {
    KeysOrdered(ms);
    SortAscending(KeyLess, ms, ms);
    var r := ByKey(ms);
    forall i | 0 <= i < |r|
      ensures r[i].value < whole && Valid(r[i].value, st)
    {
      assert r[i] in r;
    }
    forall i, j | 0 <= i < j < |r|
      ensures r[i].key != r[j].key
    {
      TextLessIrreflexive(r[i].key);
    }
  }

  lemma KeysOrdered(ms: seq<Member>)
    requires DistinctKeys(ms)
    ensures OrdersAll(KeyLess, ms) && Distinct(ms)
  {
    forall a | a in ms
      ensures !KeyLess(a, a)
    {
      TextLessIrreflexive(a.key);
    }
    forall a, b | a in ms && b in ms && a != b
      ensures KeyLess(a, b) || KeyLess(b, a)
    {
      TextLessTotal(a.key, b.key);
    }
    forall a, b, c | a in ms && b in ms && c in ms && KeyLess(a, b) && KeyLess(b, c)
      ensures KeyLess(a, c)
    {
      TextLessTransitive(a.key, b.key, c.key);
    }
  }

  /** Reading back what was printed gives the value, keys in order, whatever text follows. */
  lemma {:induction false} ValueRoundTrip(v: Json, st: Style, rest: Text)
    requires Valid(v, st) && Stops(rest)
    ensures ParseValue(Canon(v, st) + rest, st) == Ok(Norm(v), rest)
    decreases v
  {
    match v
    case Arr(items) =>
      if items == [] {
        EmptyRoundTrip(st, rest);
      } else {
        ItemsRoundTrip(items, v, st, rest);
        ArrayOpens(items, v, st, rest);
      }
    case Obj(ms) =>
      if ms == [] {
        EmptyRoundTrip(st, rest);
      } else {
        ByKeyValid(ms, v, st);
        MembersRoundTrip(ByKey(ms), v, st, rest);
        ObjectOpens(ms, v, st, rest);
      }
    case _ => ScalarRoundTrip(v, st, rest);
  }

  lemma EmptyRoundTrip(st: Style, rest: Text)
    ensures ParseValue(Canon(Arr([]), st) + rest, st) == Ok(Arr([]), rest)
    ensures ParseValue(Canon(Obj([]), st) + rest, st) == Ok(Obj([]), rest)
    ensures Norm(Arr([])) == Arr([]) && Norm(Obj([])) == Obj([])
  {
    Regroup([LBRACKET], [], [RBRACKET], rest);
    EmptyText(LBRACKET, RBRACKET, rest);
    Regroup([LBRACE], [], [RBRACE], rest);
    EmptyText(LBRACE, RBRACE, rest);
  }

  lemma EmptyText(open: Unit, close: Unit, rest: Text)
    requires !IsSpace(open) && !IsSpace(close)
    ensures var t := [open] + ([] + [close] + rest);
            && Skip(t) == t && t[0] == open
            && Skip(t[1..]) == [close] + rest && ([close] + rest)[0] == close && ([close] + rest)[1..] == rest
  {
    assert [] + [close] + rest == [close] + rest;
    Uncons(open, [close] + rest);
    Uncons(close, rest);
    SkipNothing(close, rest);
  }

  lemma ArrayText(body: Text, st: Style, items: seq<Json>, rest: Text)
    requires body != [] && !IsSpace(body[0]) && body[0] != RBRACKET && ParseItems(body, st) == Ok(items, rest)
    ensures ParseValue([LBRACKET] + body, st) == Ok(Arr(items), rest)
  {
    Uncons(LBRACKET, body);
    SkipFirst(body);
  }

  lemma ArrayOpens(items: seq<Json>, v: Json, st: Style, rest: Text)
    requires v == Arr(items) && items != [] && Valid(v, st)
    requires ParseItems(CanonItems(items, v, st) + [RBRACKET] + rest, st) == Ok(NormItems(items, v), rest)
    ensures ParseValue(Canon(v, st) + rest, st) == Ok(Norm(v), rest)
  {
    var inner := CanonItems(items, v, st);
    Regroup([LBRACKET], inner, [RBRACKET], rest);
    FirstUnit(items[0], st);
    assert inner[0] == Canon(items[0], st)[0];
    ArrayText(inner + [RBRACKET] + rest, st, NormItems(items, v), rest);
  }

  lemma MembersFirstUnit(ms: seq<Member>, whole: Json, st: Style)
    requires ms != [] && forall m | m in ms :: m.value < whole
    ensures CanonMembers(ms, whole, st) != [] && CanonMembers(ms, whole, st)[0] == QUOTE
  {
    assert CanonMember(ms[0], whole, st)[0] == QUOTE;
  }

  lemma ObjectText(body: Text, st: Style, ms: seq<Member>, rest: Text)
    requires body != [] && body[0] == QUOTE && ParseMembers(body, st) == Ok(ms, rest)
    ensures ParseValue([LBRACE] + body, st) == Ok(Obj(ms), rest)
  {
    Uncons(LBRACE, body);
    SkipFirst(body);
  }

  lemma ObjectOpens(ms: seq<Member>, v: Json, st: Style, rest: Text)
    requires v == Obj(ms) && ms != []
    requires ParseMembers(CanonMembers(ByKey(ms), v, st) + [RBRACE] + rest, st) == Ok(NormMembers(ByKey(ms), v), rest)
    ensures ParseValue(Canon(v, st) + rest, st) == Ok(Norm(v), rest)
  {
    var inner := CanonMembers(ByKey(ms), v, st);
    Regroup([LBRACE], inner, [RBRACE], rest);
    MembersFirstUnit(ByKey(ms), v, st);
    ObjectText(inner + [RBRACE] + rest, st, NormMembers(ByKey(ms), v), rest);
  }

  /** `json.loads(json.dumps(v))`, and `JSON.parse` of `canonical(v)`. */
  lemma LoadCanon(v: Json, st: Style)
    requires Valid(v, st)
    ensures Load(Canon(v, st), st) == Some(Norm(v))
  {
    ValueRoundTrip(v, st, []);
    assert Canon(v, st) + [] == Canon(v, st);
  }

  // ---------- equal text means the same value up to key order ----------

  function Keys(ms: seq<Member>): (r: seq<Text>)
    ensures |r| == |ms| && forall i | 0 <= i < |r| :: r[i] == ms[i].key
  {
    seq(|ms|, i requires 0 <= i < |ms| => ms[i].key)
  }

  /** A scalar as `JSON.stringify` sees it: a number beyond the double range is null. */
  function Erased(v: Json): Json {
    if v.Num? && v.n.Overflow? then Null else v
  }

  /** The same JSON value up to the order of object keys. */
  ghost predicate Same(v: Json, w: Json) {
    if v.Arr? && w.Arr? then
      |v.items| == |w.items| && forall i | 0 <= i < |v.items| :: Same(v.items[i], w.items[i])
    else if v.Obj? && w.Obj? then
      && |v.members| == |w.members|
      && (forall k :: k in Keys(v.members) <==> k in Keys(w.members))
      && (forall i, j | 0 <= i < |v.members| && 0 <= j < |w.members| && v.members[i].key == w.members[j].key ::
            Same(v.members[i].value, w.members[j].value))
    else Erased(v) == Erased(w)
  }

  lemma SortedKeys(ms: seq<Member>)
    requires DistinctKeys(ms)
    ensures Ascending(TextLess, Keys(ByKey(ms))) && DistinctKeys(ByKey(ms))
    ensures forall k :: k in Keys(ByKey(ms)) <==> k in Keys(ms)
  {
    KeysOrdered(ms);
    SortAscending(KeyLess, ms, ms);
    var r := ByKey(ms);
    forall k
      ensures k in Keys(r) <==> k in Keys(ms)
    {
      KeyOfMember(ms, k);
      KeyOfMember(r, k);
    }
    forall i, j | 0 <= i < j < |r|
      ensures TextLess(Keys(r)[i], Keys(r)[j]) && r[i].key != r[j].key
    {
      assert KeyLess(r[i], r[j]);
      TextLessIrreflexive(r[i].key);
    }
  }

  lemma KeyOfMember(ms: seq<Member>, k: Text)
    ensures k in Keys(ms) <==> exists m :: m in ms && m.key == k
  {
    if k in Keys(ms) {
      var i :| 0 <= i < |ms| && Keys(ms)[i] == k;
      assert ms[i] in ms;
    }
    if m :| m in ms && m.key == k {
      var i :| 0 <= i < |ms| && ms[i] == m;
      assert Keys(ms)[i] == k;
    }
  }

  lemma TextsOrdered(keys: seq<Text>)
    ensures OrdersAll(TextLess, keys)
  {
    forall a
      ensures !TextLess(a, a)
    {
      TextLessIrreflexive(a);
    }
    forall a, b | a != b
      ensures TextLess(a, b) || TextLess(b, a)
    {
      TextLessTotal(a, b);
    }
    forall a, b, c | TextLess(a, b) && TextLess(b, c)
      ensures TextLess(a, c)
    {
      TextLessTransitive(a, b, c);
    }
  }

  lemma SameKeysSorted(a: seq<Member>, b: seq<Member>)
    requires DistinctKeys(a) && DistinctKeys(b) && |a| == |b|
    requires forall k :: k in Keys(a) <==> k in Keys(b)
    ensures Keys(ByKey(a)) == Keys(ByKey(b))
  {
    SortedKeys(a);
    SortedKeys(b);
    TextsOrdered(Keys(ByKey(a)));
    AscendingUnique(TextLess, Keys(ByKey(a)), Keys(ByKey(b)));
  }

  lemma {:induction false} EqualMembersText(a: seq<Member>, v: Json, b: seq<Member>, w: Json, st: Style)
    requires |a| == |b| && forall i | 0 <= i < |a| :: a[i].value < v && b[i].value < w
    requires forall i | 0 <= i < |a| :: a[i].key == b[i].key && Canon(a[i].value, st) == Canon(b[i].value, st)
    ensures CanonMembers(a, v, st) == CanonMembers(b, w, st)
  {
    if |a| <= 1 {
    } else {
      EqualMembersText(a[1..], v, b[1..], w, st);
    }
  }

  lemma {:induction false} EqualItemsText(a: seq<Json>, v: Json, b: seq<Json>, w: Json, st: Style)
    requires |a| == |b| && forall i | 0 <= i < |a| :: a[i] < v && b[i] < w
    requires forall i | 0 <= i < |a| :: Canon(a[i], st) == Canon(b[i], st)
    ensures CanonItems(a, v, st) == CanonItems(b, w, st)
  {
    if |a| <= 1 {
    } else {
      EqualItemsText(a[1..], v, b[1..], w, st);
    }
  }

  lemma {:induction false} SameGivesText(v: Json, w: Json, st: Style)
    requires Valid(v, st) && Valid(w, st) && Same(v, w)
    ensures Canon(v, st) == Canon(w, st)
  {
    if v.Arr? && w.Arr? {
      forall i | 0 <= i < |v.items|
        ensures Canon(v.items[i], st) == Canon(w.items[i], st)
      {
        SameGivesText(v.items[i], w.items[i], st);
      }
      EqualItemsText(v.items, v, w.items, w, st);
    } else if v.Obj? && w.Obj? {
      var a, b := ByKey(v.members), ByKey(w.members);
      SameKeysSorted(v.members, w.members);
      forall i | 0 <= i < |a|
        ensures a[i].key == b[i].key && Canon(a[i].value, st) == Canon(b[i].value, st)
        ensures a[i].value < v && b[i].value < w
      {
        assert Keys(a)[i] == Keys(b)[i];
        assert a[i] in v.members && b[i] in w.members;
        SameGivesText(a[i].value, b[i].value, st);
      }
      EqualMembersText(a, v, b, w, st);
    }
  }

  lemma {:induction false} NormGivesSame(v: Json, w: Json, st: Style)
    requires Valid(v, st) && Valid(w, st) && Norm(v) == Norm(w)
    ensures Same(v, w)
  {
    if v.Arr? && w.Arr? {
      forall i | 0 <= i < |v.items|
        ensures Same(v.items[i], w.items[i])
      {
        assert NormItems(v.items, v)[i] == NormItems(w.items, w)[i];
        NormGivesSame(v.items[i], w.items[i], st);
      }
    } else if v.Obj? && w.Obj? {
      NormGivesKeys(v, w);
      forall i, j | 0 <= i < |v.members| && 0 <= j < |w.members| && v.members[i].key == w.members[j].key
        ensures Same(v.members[i].value, w.members[j].value)
      {
        NormGivesValue(v, w, i, j);
        NormGivesSame(v.members[i].value, w.members[j].value, st);
      }
    }
  }

  lemma NormGivesKeys(v: Json, w: Json)
    requires v.Obj? && w.Obj? && Norm(v) == Norm(w) && DistinctKeys(v.members) && DistinctKeys(w.members)
    ensures |v.members| == |w.members| && Keys(ByKey(v.members)) == Keys(ByKey(w.members))
    ensures forall k :: k in Keys(v.members) <==> k in Keys(w.members)
  {
    KeysOfNorm(ByKey(v.members), v);
    KeysOfNorm(ByKey(w.members), w);
    SortedKeys(v.members);
    SortedKeys(w.members);
  }

  lemma KeysOfNorm(ms: seq<Member>, v: Json)
    requires forall m | m in ms :: m.value < v
    ensures Keys(NormMembers(ms, v)) == Keys(ms)
  {
  }

  /** Where a member stands among the sorted ones. */
  lemma SortedPosition(ms: seq<Member>, i: nat) returns (p: nat)
    requires i < |ms|
    ensures p < |ByKey(ms)| && ByKey(ms)[p] == ms[i]
  {
    assert ms[i] in ByKey(ms);
    p :| p < |ByKey(ms)| && ByKey(ms)[p] == ms[i];
  }

  /** Equal keys stand at equal positions. */
  lemma SamePosition(a: seq<Member>, b: seq<Member>, p: nat, q: nat)
    requires DistinctKeys(b) && Keys(a) == Keys(b) && p < |a| && q < |b| && a[p].key == b[q].key
    ensures p == q
  {
    assert Keys(a)[p] == Keys(b)[p] && |a| == |Keys(a)| == |b|;
    assert b[p].key == b[q].key;
  }

  /** Equal positions hold equal values. */
  lemma SameValue(a: seq<Member>, v: Json, b: seq<Member>, w: Json, p: nat)
    requires (forall m | m in a :: m.value < v) && (forall m | m in b :: m.value < w)
    requires p < |a| && p < |b| && NormMembers(a, v) == NormMembers(b, w)
    ensures Norm(a[p].value) == Norm(b[p].value)
  {
    assert NormMembers(a, v)[p] == Member(a[p].key, Norm(a[p].value));
    assert NormMembers(b, w)[p] == Member(b[p].key, Norm(b[p].value));
  }

  lemma SortedSmaller(ms: seq<Member>, v: Json)
    requires v == Obj(ms)
    ensures forall m | m in ByKey(ms) :: m.value < v
  {
  }

  lemma NormGivesValue(v: Json, w: Json, i: nat, j: nat)
    requires v.Obj? && w.Obj? && Norm(v) == Norm(w) && DistinctKeys(v.members) && DistinctKeys(w.members)
    requires i < |v.members| && j < |w.members| && v.members[i].key == w.members[j].key
    ensures Norm(v.members[i].value) == Norm(w.members[j].value)
  {
    var a, b := ByKey(v.members), ByKey(w.members);
    NormGivesKeys(v, w);
    SortedKeys(w.members);
    var p := SortedPosition(v.members, i);
    var q := SortedPosition(w.members, j);
    SamePosition(a, b, p, q);
    SortedSmaller(v.members, v);
    SortedSmaller(w.members, w);
    SameValue(a, v, b, w, p);
  }

  /** The printed text decides the value up to key order, in every style. */
  lemma CanonInjective(v: Json, w: Json, st: Style)
    requires Valid(v, st) && Valid(w, st)
    ensures Canon(v, st) == Canon(w, st) <==> Same(v, w)
  {
    if Canon(v, st) == Canon(w, st) {
      LoadCanon(v, st);
      LoadCanon(w, st);
      NormGivesSame(v, w, st);
    }
    if Same(v, w) {
      SameGivesText(v, w, st);
    }
  }

  lemma HugeRead(rest: Text)
    requires Stops(rest)
    ensures ParseValue(HUGE + rest, Js) == Ok(Num(Overflow(false)), rest)
  {
    HugeOverflows(rest);
    assert (HUGE + rest)[0] == Code('1');
    NumberRead(HUGE + rest, Js, Overflow(false), rest);
  }

  /** Without the reading of overflow as null the law fails: two texts the service can receive load as different values
      that print alike. */
  lemma OverflowPrintsAsNull()
    ensures Load(HUGE, Js) == Some(Num(Overflow(false))) && Load(Lit("null"), Js) == Some(Null)
    ensures Num(Overflow(false)) != Null && Canon(Num(Overflow(false)), Js) == Canon(Null, Js)
  {
    HugeRead([]);
    assert HUGE + [] == HUGE;
    NullRead([], Js);
    assert Lit("null") + [] == Lit("null");
  }

  /** An object text whose first member's value is any text `raw`; the others are printed. */
  function Spliced(key: Text, raw: Text, tail: seq<Member>): Text {
    [LBRACE] + (Quote(key, Js) + (Colon(Js) + (raw + (Comma(Js) + (CanonMembers(tail, Obj(tail), Js) + [RBRACE])))))
  }

  /** It reads as the value `raw` reads as, among the printed members. */
  lemma SplicedRead(key: Text, raw: Text, v: Json, tail: seq<Member>, rest: Text)
    requires tail != [] && Valid(Obj(tail), Js) && forall m | m in tail :: m.key != key
    requires forall more | Stops(more) :: ParseValue(raw + more, Js) == Ok(v, more)
    ensures ParseValue(Spliced(key, raw, tail) + rest, Js)
            == Ok(Obj([Member(key, v)] + NormMembers(tail, Obj(tail))), rest)
  {
    var end := CanonMembers(tail, Obj(tail), Js) + [RBRACE] + rest;
    var after := Comma(Js) + end;
    MembersRoundTrip(tail, Obj(tail), Js, rest);
    assert ParseValue(raw + after, Js) == Ok(v, after);
    MemberRead(key, Js, raw + after, v, after);
    var body := Quote(key, Js) + (Colon(Js) + (raw + after));
    MembersMore(body, Js, Member(key, v), end, NormMembers(tail, Obj(tail)), rest);
    PutFresh(Member(key, v), NormMembers(tail, Obj(tail)));
    assert body[0] == QUOTE;
    ObjectText(body, Js, [Member(key, v)] + NormMembers(tail, Obj(tail)), rest);
    SplicedText(key, raw, tail, rest);
  }

  lemma SplicedText(key: Text, raw: Text, tail: seq<Member>, rest: Text)
    ensures Spliced(key, raw, tail) + rest
            == [LBRACE] + (Quote(key, Js)
                           + (Colon(Js) + (raw + (Comma(Js) + (CanonMembers(tail, Obj(tail), Js) + [RBRACE] + rest)))))
  {
    var inner := CanonMembers(tail, Obj(tail), Js) + [RBRACE];
    var a := Comma(Js) + inner;
    var b := raw + a;
    var c := Colon(Js) + b;
    var d := Quote(key, Js) + c;
    Assoc(Comma(Js), inner, rest);
    Assoc(raw, a, rest);
    Assoc(Colon(Js), b, rest);
    Assoc(Quote(key, Js), c, rest);
    Assoc([LBRACE], d, rest);
  }

  // ---------- records, lookups and loaded values ----------

  /** Dumping and loading changes a value by key order only. */
  lemma {:induction false} NormSame(v: Json, st: Style)
    requires Valid(v, st)
    ensures Same(Norm(v), v) && Valid(Norm(v), st)
  {
    match v
    case Arr(items) =>
      forall i | 0 <= i < |items|
        ensures Same(Norm(items[i]), items[i]) && Valid(Norm(items[i]), st)
      {
        NormSame(items[i], st);
      }
    case Obj(ms) =>
      var a := ByKey(ms);
      var r := NormMembers(a, v);
      SortedKeys(ms);
      assert Keys(r) == Keys(a);
      forall i | 0 <= i < |r|
        ensures Same(r[i].value, a[i].value) && Valid(r[i].value, st)
      {
        assert a[i] in ms;
        NormSame(a[i].value, st);
      }
      forall i, j | 0 <= i < |r| && 0 <= j < |ms| && r[i].key == ms[j].key
        ensures Same(r[i].value, ms[j].value)
      {
        SameMember(ms, a[i], ms[j]);
      }
    case _ =>
  }

  lemma SameMember(ms: seq<Member>, a: Member, b: Member)
    requires DistinctKeys(ms) && a in ms && b in ms && a.key == b.key
    ensures a == b
  {
    var i :| 0 <= i < |ms| && ms[i] == a;
    var j :| 0 <= j < |ms| && ms[j] == b;
  }

  /** `payload.get(key)`. */
  function Get(v: Json, key: Text): Option<Json> {
    if v.Obj? then Lookup(v.members, key) else None
  }

  function Lookup(ms: seq<Member>, key: Text): Option<Json> {
    if ms == [] then None
    else if ms[0].key == key then Some(ms[0].value)
    else Lookup(ms[1..], key)
  }

  lemma {:induction false} LookupMember(ms: seq<Member>, m: Member)
    requires DistinctKeys(ms) && m in ms
    ensures Lookup(ms, m.key) == Some(m.value)
  {
    if ms[0] == m {
    } else {
      assert m in ms[1..];
      SameMemberHead(ms, m);
      LookupMember(ms[1..], m);
    }
  }

  lemma SameMemberHead(ms: seq<Member>, m: Member)
    requires DistinctKeys(ms) && m in ms && ms[0] != m
    ensures ms[0].key != m.key
  {
    var i :| 0 <= i < |ms| && ms[i] == m;
  }

  lemma NormMember(a: seq<Member>, v: Json, m: Member)
    requires DistinctKeys(a) && m in a && forall i | 0 <= i < |a| :: a[i].value < v
    ensures var r := NormMembers(a, v); DistinctKeys(r) && Member(m.key, Norm(m.value)) in r
  {
    var i :| 0 <= i < |a| && a[i] == m;
    assert NormMembers(a, v)[i] == Member(m.key, Norm(m.value));
  }

  /** A field read from the loaded value is the loaded field. */
  lemma GetLoaded(ms: seq<Member>, m: Member)
    requires DistinctKeys(ms) && m in ms
    ensures Get(Norm(Obj(ms)), m.key) == Some(Norm(m.value))
  {
    SortedKeys(ms);
    forall i | 0 <= i < |ms|
      ensures ByKey(ms)[i].value < Obj(ms)
    {
      assert ByKey(ms)[i] in ms;
    }
    NormMember(ByKey(ms), Obj(ms), m);
    LookupMember(NormMembers(ByKey(ms), Obj(ms)), Member(m.key, Norm(m.value)));
  }

  lemma {:induction false} LookupMissing(ms: seq<Member>, key: Text)
    requires key !in Keys(ms)
    ensures Lookup(ms, key) == None
  {
    if ms == [] {
    } else {
      KeysTail(ms, key);
      LookupMissing(ms[1..], key);
    }
  }

  /** A field that is not there is not there after loading. */
  lemma GetLoadedMissing(ms: seq<Member>, key: Text)
    requires DistinctKeys(ms) && key !in Keys(ms)
    ensures Get(Norm(Obj(ms)), key) == None
  {
    SortedKeys(ms);
    SortedSmaller(ms, Obj(ms));
    KeysOfNorm(ByKey(ms), Obj(ms));
    LookupMissing(NormMembers(ByKey(ms), Obj(ms)), key);
  }

  /** Two records with the same field names agree exactly when their fields do. */
  lemma RecordsSame(a: seq<Member>, b: seq<Member>)
    requires DistinctKeys(a) && |a| == |b| && forall i | 0 <= i < |a| :: a[i].key == b[i].key
    ensures Same(Obj(a), Obj(b)) <==> forall i | 0 <= i < |a| :: Same(a[i].value, b[i].value)
  {
    assert Keys(a) == Keys(b);
    var v, w := Obj(a), Obj(b);
    if forall i | 0 <= i < |a| :: Same(a[i].value, b[i].value) {
      forall i, j | 0 <= i < |a| && 0 <= j < |b| && a[i].key == b[j].key
        ensures Same(a[i].value, b[j].value)
      {
        assert a[j].key == b[j].key;
        assert i == j;
      }
    }
  }

  /** Two records with the same field names print alike exactly when their fields agree. */
  lemma RecordsText(a: seq<Member>, b: seq<Member>, st: Style)
    requires Valid(Obj(a), st) && Valid(Obj(b), st) && |a| == |b| && forall i | 0 <= i < |a| :: a[i].key == b[i].key
    ensures Canon(Obj(a), st) == Canon(Obj(b), st) <==> forall i | 0 <= i < |a| :: Same(a[i].value, b[i].value)
  {
    CanonInjective(Obj(a), Obj(b), st);
    RecordsSame(a, b);
  }

  lemma TextsSame(s: Text, t: Text)
    ensures Same(Str(s), Str(t)) <==> s == t
  {
  }

  lemma PutDistinct(m: Member, ms: seq<Member>)
    requires DistinctKeys(ms)
    ensures DistinctKeys(Put(m, ms))
  {
  }

  lemma NumberOfValid(neg: bool, l: Layout, st: Style)
    ensures ValidNumber(NumberOf(neg, l, st), st)
  {
    NormaliseValid(neg, AllDigits(l), PointOf(l));
  }

  /** Whatever the reader accepts is a value its runtime can hold. */
  lemma {:induction false} ParsedValid(t: Text, st: Style)
    ensures ParseValue(t, st).Ok? ==> Valid(ParseValue(t, st).value, st)
    decreases |t|, 2
  {
    var s := Skip(t);
    if ParseValue(t, st).Ok? {
      if s[0] == LBRACKET {
        ParsedItemsValid(s[1..], st);
      } else if s[0] == LBRACE {
        ParsedMembersValid(s[1..], st);
      } else {
        ParsedScalarValid(t, st);
      }
    }
  }

  lemma ParsedScalarValid(t: Text, st: Style)
    requires ParseValue(t, st).Ok? && Skip(t)[0] != LBRACKET && Skip(t)[0] != LBRACE
    ensures Valid(ParseValue(t, st).value, st)
  {
    forall neg, l
      ensures ValidNumber(NumberOf(neg, l, st), st)
    {
      NumberOfValid(neg, l, st);
    }
  }

  ghost predicate ValidItems(items: seq<Json>, st: Style) {
    forall i | 0 <= i < |items| :: Valid(items[i], st)
  }

  lemma {:induction false} ParsedItemsValid(t: Text, st: Style)
    ensures ParseItems(t, st).Ok? ==> ValidItems(ParseItems(t, st).value, st)
    decreases |t|, 3
  {
    ParsedValid(t, st);
    var p := ParseValue(t, st);
    if p.Ok? && |Skip(p.rest)| > 0 {
      ParsedItemsValid(Skip(p.rest)[1..], st);
      assert ValidItems([p.value], st);
    }
  }

  ghost predicate ValidMembers(ms: seq<Member>, st: Style) {
    DistinctKeys(ms) && forall i | 0 <= i < |ms| :: Valid(ms[i].value, st)
  }

  lemma PutValid(m: Member, ms: seq<Member>, st: Style)
    requires ValidMembers(ms, st) && Valid(m.value, st)
    ensures ValidMembers(Put(m, ms), st)
  {
    PutDistinct(m, ms);
  }

  lemma {:induction false} ParsedMembersValid(t: Text, st: Style)
    ensures ParseMembers(t, st).Ok? ==> ValidMembers(ParseMembers(t, st).value, st)
    decreases |t|, 4
  {
    ParsedMemberValid(t, st);
    var p := ParseMember(t, st);
    if p.Ok? && |Skip(p.rest)| > 0 {
      var u := Skip(p.rest);
      ParsedMembersValid(u[1..], st);
      if ParseMembers(u[1..], st).Ok? {
        PutValid(p.value, ParseMembers(u[1..], st).value, st);
      }
    }
  }

  lemma {:induction false} ParsedMemberValid(t: Text, st: Style)
    ensures ParseMember(t, st).Ok? ==> Valid(ParseMember(t, st).value.value, st)
    decreases |t|, 3
  {
    var s := Skip(t);
    if ParseMember(t, st).Ok? {
      var u := Skip(ParseString(s[1..]).rest);
      ParsedValid(u[1..], st);
    }
  }

  lemma LoadValid(t: Text, st: Style)
    ensures Load(t, st).Some? ==> Valid(Load(t, st).value, st)
  {
    ParsedValid(t, st);
  }

  // ---------- setting a key ----------

  /** `payload[key] = value` on a dict or an object: a present key keeps its place. */
  function SetKey(ms: seq<Member>, key: Text, value: Json): seq<Member> {
    if ms == [] then [Member(key, value)]
    else if ms[0].key == key then [Member(key, value)] + ms[1..]
    else [ms[0]] + SetKey(ms[1..], key, value)
  }

  lemma KeysTail(ms: seq<Member>, key: Text)
    requires ms != []
    ensures key in Keys(ms) <==> key == ms[0].key || key in Keys(ms[1..])
  {
    assert Keys(ms) == [ms[0].key] + Keys(ms[1..]);
  }

  lemma {:induction false} SetFresh(ms: seq<Member>, key: Text, value: Json)
    requires key !in Keys(ms)
    ensures SetKey(ms, key, value) == ms + [Member(key, value)]
  {
    if ms == [] {
    } else {
      KeysTail(ms, key);
      SetFresh(ms[1..], key, value);
      assert ms == [ms[0]] + ms[1..];
    }
  }

  lemma {:induction false} SetKeyMembers(ms: seq<Member>, key: Text, value: Json)
    ensures forall m | m in SetKey(ms, key, value) :: m == Member(key, value) || m in ms
  {
    if ms == [] {
    } else if ms[0].key != key {
      SetKeyMembers(ms[1..], key, value);
      assert ms == [ms[0]] + ms[1..];
    }
  }

  lemma ConsValid(m: Member, ms: seq<Member>, st: Style)
    requires ValidMembers(ms, st) && Valid(m.value, st) && forall x | x in ms :: x.key != m.key
    ensures ValidMembers([m] + ms, st)
  {
  }

  lemma RestValid(ms: seq<Member>, st: Style)
    requires ms != [] && ValidMembers(ms, st)
    ensures ValidMembers(ms[1..], st) && Valid(ms[0].value, st) && forall x | x in ms[1..] :: x.key != ms[0].key
  {
  }

  lemma {:induction false} SetKeyValid(ms: seq<Member>, key: Text, value: Json, st: Style)
    requires ValidMembers(ms, st) && Valid(value, st)
    ensures ValidMembers(SetKey(ms, key, value), st)
  {
    if ms == [] {
      ConsValid(Member(key, value), [], st);
    } else {
      RestValid(ms, st);
      if ms[0].key == key {
        ConsValid(Member(key, value), ms[1..], st);
      } else {
        SetKeyValid(ms[1..], key, value, st);
        SetKeyMembers(ms[1..], key, value);
        ConsValid(ms[0], SetKey(ms[1..], key, value), st);
      }
    }
  }

  lemma {:induction false} GetSet(ms: seq<Member>, key: Text, value: Json, other: Text)
    ensures Get(Obj(SetKey(ms, key, value)), other) == if other == key then Some(value) else Get(Obj(ms), other)
  {
    if ms == [] {
      assert SetKey(ms, key, value) == [Member(key, value)];
      assert Lookup([Member(key, value)][1..], other) == None;
    } else if ms[0].key == key {
      Uncons(Member(key, value), ms[1..]);
    } else {
      GetSet(ms[1..], key, value, other);
      Uncons(ms[0], SetKey(ms[1..], key, value));
    }
  }

  lemma {:induction false} LookupValid(ms: seq<Member>, key: Text, st: Style)
    requires forall i | 0 <= i < |ms| :: Valid(ms[i].value, st)
    ensures Lookup(ms, key).Some? ==> Valid(Lookup(ms, key).value, st)
  {
    if ms == [] || ms[0].key == key {
    } else {
      LookupValid(ms[1..], key, st);
    }
  }
}
