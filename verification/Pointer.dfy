/** JSON Pointer resolution as the assertion checks do it, and the pointer syntax of RFC 6901 sections 3 and 4. */
module Pointer {
  import opened Texts
  import opened JsonTokens
  import opened Json

  const SLASH: Unit := 0x2F
  const TILDE: Unit := 0x7E

  /** `t.replace("~" + digit, out)`, left to right without overlap. */
  function Replace(t: Text, digit: Unit, out: Unit): Text {
    if t == [] then []
    else if |t| >= 2 && t[0] == TILDE && t[1] == digit then [out] + Replace(t[2..], digit, out)
    else [t[0]] + Replace(t[1..], digit, out)
  }

  function Unescaped(part: Text): Text {
    Replace(Replace(part, Code('1'), SLASH), Code('0'), TILDE)
  }

  function StripLeft(t: Text): Text {
    if t != [] && t[0] == SLASH then StripLeft(t[1..]) else t
  }

  function StripRight(t: Text): Text {
    if t != [] && t[|t| - 1] == SLASH then StripRight(t[..|t| - 1]) else t
  }

  /** `t.split("/")`. */
  function Split(t: Text): (r: seq<Text>)
    ensures r != []
  {
    if t == [] then [[]]
    else if t[0] == SLASH then [[]] + Split(t[1..])
    else var r := Split(t[1..]); [[t[0]] + r[0]] + r[1..]
  }

  function NonEmpty(ts: seq<Text>): seq<Text> {
    if ts == [] then [] else if ts[0] == [] then NonEmpty(ts[1..]) else [ts[0]] + NonEmpty(ts[1..])
  }

  function UnescapedAll(ts: seq<Text>): seq<Text> {
    if ts == [] then [] else [Unescaped(ts[0])] + UnescapedAll(ts[1..])
  }

  /** The reference tokens the code reads out of a path: empty ones are dropped. */
  function Parts(path: Text): seq<Text> {
    UnescapedAll(NonEmpty(Split(StripRight(StripLeft(path)))))
  }

  predicate IsIndex(t: Text) {
    t != [] && forall u | u in t :: IsDigit(u)
  }

  /** One step into a document: a dict member, or a list item by decimal index (leading zeros included). */
  function Child(doc: Json, token: Text): Option<Json> {
    match doc
    case Obj(ms) => Lookup(ms, token)
    case Arr(items) => if IsIndex(token) && FromDecimal(token) < |items| then Some(items[FromDecimal(token)]) else None
    case _ => None
  }

  /** Walking a document token by token. */
  function Walk(doc: Json, tokens: seq<Text>): Option<Json>
    decreases |tokens|
  {
    if tokens == [] then Some(doc)
    else
      match Child(doc, tokens[0])
      case None => None
      case Some(next) => Walk(next, tokens[1..])
  }

  method ResolvePath(doc: Json, path: Text) returns (found: Option<Json>)
    ensures found == Walk(doc, Parts(path))
  {
    if path == [] || path == [SLASH] {
      assert Split([]) == [[]];
      assert StripLeft([SLASH]) == [];
      return Some(doc);
    }
    var parts := Parts(path);
    var cur := doc;
    var i := 0;
    while i < |parts|
      invariant 0 <= i <= |parts|
      invariant Walk(doc, parts) == Walk(cur, parts[i..])
    {
      assert parts[i..][1..] == parts[i + 1..];
      match Child(cur, parts[i]) {
        case None =>
          return None;
        case Some(next) =>
          cur := next;
      }
      i := i + 1;
    }
    return Some(cur);
  }

  // ---------- RFC 6901 encoding ----------

  function EscapedUnit(u: Unit): Text {
    if u == TILDE then [TILDE, Code('0')] else if u == SLASH then [TILDE, Code('1')] else [u]
  }

  function Escaped(token: Text): Text {
    if token == [] then [] else EscapedUnit(token[0]) + Escaped(token[1..])
  }

  function Encode(tokens: seq<Text>): Text {
    if tokens == [] then [] else [SLASH] + Escaped(tokens[0]) + Encode(tokens[1..])
  }

  /** After the first replacement only the tildes are still escaped. */
  function HalfEscaped(token: Text): Text {
    if token == [] then []
    else (if token[0] == TILDE then [TILDE, Code('0')] else [token[0]]) + HalfEscaped(token[1..])
  }

  lemma ReplacePlain(u: Unit, t: Text, digit: Unit, out: Unit)
    requires u != TILDE
    ensures Replace([u] + t, digit, out) == [u] + Replace(t, digit, out)
  {
    assert ([u] + t)[1..] == t;
  }

  lemma ReplacePair(t: Text, digit: Unit, out: Unit)
    ensures Replace([TILDE, digit] + t, digit, out) == [out] + Replace(t, digit, out)
  {
    assert ([TILDE, digit] + t)[2..] == t;
  }

  lemma ReplaceOther(other: Unit, t: Text, digit: Unit, out: Unit)
    requires other != digit && other != TILDE
    ensures Replace([TILDE, other] + t, digit, out) == [TILDE, other] + Replace(t, digit, out)
  {
    assert ([TILDE, other] + t)[1..] == [other] + t;
    ReplacePlain(other, t, digit, out);
  }

  lemma {:induction false} FirstReplacement(token: Text)
    ensures Replace(Escaped(token), Code('1'), SLASH) == HalfEscaped(token)
  {
    if token == [] {
    } else {
      var tail := Escaped(token[1..]);
      FirstReplacement(token[1..]);
      if token[0] == TILDE {
        ReplaceOther(Code('0'), tail, Code('1'), SLASH);
      } else if token[0] == SLASH {
        ReplacePair(tail, Code('1'), SLASH);
      } else {
        ReplacePlain(token[0], tail, Code('1'), SLASH);
      }
    }
  }

  lemma {:induction false} SecondReplacement(token: Text)
    ensures Replace(HalfEscaped(token), Code('0'), TILDE) == token
  {
    if token == [] {
    } else {
      var tail := HalfEscaped(token[1..]);
      SecondReplacement(token[1..]);
      assert token == [token[0]] + token[1..];
      if token[0] == TILDE {
        ReplacePair(tail, Code('0'), TILDE);
      } else {
        ReplacePlain(token[0], tail, Code('0'), TILDE);
      }
    }
  }

  lemma {:induction false} EscapedHasNoSlash(token: Text)
    ensures SLASH !in Escaped(token) && (Escaped(token) == [] <==> token == [])
  {
    if token == [] {
    } else {
      EscapedHasNoSlash(token[1..]);
    }
  }

  lemma {:induction false} SplitAtSlash(a: Text, rest: Text)
    requires SLASH !in a
    ensures Split(a + [SLASH] + rest) == [a] + Split(rest)
    ensures Split(a) == [a]
  {
    var t := a + [SLASH] + rest;
    if a == [] {
      assert t[1..] == rest;
    } else {
      SplitAtSlash(a[1..], rest);
      assert t[1..] == a[1..] + [SLASH] + rest;
      assert a == [a[0]] + a[1..];
    }
  }

  lemma {:induction false} SplitTrailing(t: Text)
    ensures Split(t + [SLASH]) == Split(t) + [[]]
  {
    var s := t + [SLASH];
    if t == [] {
      assert s[1..] == [];
    } else {
      SplitTrailing(t[1..]);
      assert s[1..] == t[1..] + [SLASH];
    }
  }

  lemma {:induction false} NonEmptyAppend(a: seq<Text>, b: seq<Text>)
    ensures NonEmpty(a + b) == NonEmpty(a) + NonEmpty(b)
  {
    if a == [] {
      assert a + b == b;
    } else {
      NonEmptyAppend(a[1..], b);
      assert a == [a[0]] + a[1..];
      Assoc([a[0]], a[1..], b);
      Uncons(a[0], a[1..] + b);
      Assoc([a[0]], NonEmpty(a[1..]), NonEmpty(b));
    }
  }

  lemma {:induction false} StripLeftHarmless(t: Text)
    ensures NonEmpty(Split(StripLeft(t))) == NonEmpty(Split(t))
  {
    if t == [] || t[0] != SLASH {
    } else {
      StripLeftHarmless(t[1..]);
      assert Split(t)[1..] == Split(t[1..]);
    }
  }

  lemma {:induction false} StripRightHarmless(t: Text)
    ensures NonEmpty(Split(StripRight(t))) == NonEmpty(Split(t))
  {
    if t == [] || t[|t| - 1] != SLASH {
    } else {
      var front := t[..|t| - 1];
      StripRightHarmless(front);
      assert t == front + [SLASH];
      SplitTrailing(front);
      NonEmptyAppend(Split(front), [[]]);
      assert NonEmpty([[]]) == [];
    }
  }

  function EscapedAll(tokens: seq<Text>): seq<Text> {
    if tokens == [] then [] else [Escaped(tokens[0])] + EscapedAll(tokens[1..])
  }

  lemma {:induction false} SplitEncode(a: Text, tokens: seq<Text>)
    requires SLASH !in a
    ensures Split(a + Encode(tokens)) == [a] + EscapedAll(tokens)
    decreases tokens
  {
    if tokens == [] {
      SplitAtSlash(a, []);
      assert a + Encode(tokens) == a;
    } else {
      var rest := Escaped(tokens[0]) + Encode(tokens[1..]);
      Assoc([SLASH], Escaped(tokens[0]), Encode(tokens[1..]));
      Assoc(a, [SLASH], rest);
      SplitAtSlash(a, rest);
      EscapedHasNoSlash(tokens[0]);
      SplitEncode(Escaped(tokens[0]), tokens[1..]);
    }
  }

  lemma {:induction false} DecodeTokens(tokens: seq<Text>)
    ensures UnescapedAll(NonEmpty(EscapedAll(tokens))) == NonEmpty(tokens)
  {
    if tokens == [] {
    } else {
      DecodeTokens(tokens[1..]);
      EscapedHasNoSlash(tokens[0]);
      FirstReplacement(tokens[0]);
      SecondReplacement(tokens[0]);
      assert EscapedAll(tokens)[1..] == EscapedAll(tokens[1..]);
    }
  }

  /** A pointer is read back as its tokens without the empty ones, so it is read back whole exactly when none is empty.
      */
  lemma PartsOfEncoding(tokens: seq<Text>)
    ensures Parts(Encode(tokens)) == NonEmpty(tokens)
    ensures Parts(Encode(tokens)) == tokens <==> [] !in tokens
  {
    var path := Encode(tokens);
    StripLeftHarmless(path);
    StripRightHarmless(StripLeft(path));
    SplitEncode([], tokens);
    assert [] + path == path;
    NonEmptyAppend([[]], EscapedAll(tokens));
    assert NonEmpty([[]]) == [];
    DecodeTokens(tokens);
    NonEmptyWhole(tokens);
  }

  lemma NonEmptyWhole(tokens: seq<Text>)
    ensures NonEmpty(tokens) == tokens <==> [] !in tokens
  {
    NonEmptyDropsEmpty(tokens);
    if [] !in tokens {
      NonEmptyKeepsAll(tokens);
    }
  }

  lemma {:induction false} NonEmptyDropsEmpty(tokens: seq<Text>)
    ensures [] !in NonEmpty(tokens)
  {
    if tokens == [] {
    } else {
      NonEmptyDropsEmpty(tokens[1..]);
    }
  }

  lemma {:induction false} NonEmptyKeepsAll(tokens: seq<Text>)
    requires [] !in tokens
    ensures NonEmpty(tokens) == tokens
  {
    if tokens == [] {
    } else {
      assert tokens[0] in tokens;
      NonEmptyKeepsAll(tokens[1..]);
      assert tokens == [tokens[0]] + tokens[1..];
    }
  }

  /** Resolving an encoded pointer is walking the document by its tokens. */
  lemma ResolveEncoded(doc: Json, tokens: seq<Text>)
    requires [] !in tokens
    ensures Walk(doc, Parts(Encode(tokens))) == Walk(doc, tokens)
  {
    PartsOfEncoding(tokens);
  }

  /** RFC 6901 lets an empty token name the member with the empty key; the code stays on the object instead. */
  lemma EmptyTokenIsSkipped(v: Json)
    ensures var doc := Obj([Member([], v)]);
            Walk(doc, [[]]) == Some(v) && Walk(doc, Parts(Encode([[]]))) == Some(doc) && Some(v) != Some(doc)
  {
    PartsOfEncoding([[]]);
    assert NonEmpty([[]]) == [];
  }
}
