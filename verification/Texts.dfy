/** Text as both runtimes hash it: a sequence of UTF-16 code units, plus the few helpers every module shares. */
module Texts {

  type Unit = u: int | 0 <= u < 0x1_0000

  type Text = seq<Unit>

  datatype Option<+T> = None | Some(value: T)

  function Code(c: char): Unit {
    if c as int < 0x1_0000 then c as int else 0
  }

  /** A source-code string literal as text. */
  function Lit(s: string): Text {
    seq(|s|, i requires 0 <= i < |s| => Code(s[i]))
  }

  lemma Uncons<T>(u: T, t: seq<T>)
    ensures ([u] + t)[0] == u && ([u] + t)[1..] == t
  {
  }

  lemma RegroupRight(a: Text, b: Text, c: Text, d: Text)
    ensures a + b + c + d == a + (b + (c + d))
  {
  }

  lemma Assoc<T>(a: seq<T>, b: seq<T>, c: seq<T>)
    ensures a + b + c == a + (b + c)
  {
  }

  lemma Regroup(a: Text, b: Text, c: Text, d: Text)
    ensures a + b + c + d == a + (b + c + d)
  {
  }

  lemma {:induction false} SubsetSize<T(!new)>(a: set<T>, b: set<T>)
    requires a <= b
    ensures |a| <= |b|
    decreases |a|
  {
    if a == {} {
    } else {
      var x :| x in a;
      SubsetSize(a - {x}, b - {x});
    }
  }

  predicate IsDigit(u: Unit) {
    Code('0') <= u <= Code('9')
  }

  predicate IsAlnum(u: Unit) {
    IsDigit(u) || Code('A') <= u <= Code('Z') || Code('a') <= u <= Code('z')
  }

  /** Strict lexicographic order by code unit, the order of `Array.prototype.sort` on strings. */
  predicate TextLess(a: Text, b: Text) {
    if b == [] then false
    else if a == [] then true
    else a[0] < b[0] || (a[0] == b[0] && TextLess(a[1..], b[1..]))
  }

  lemma {:induction false} TextLessIrreflexive(a: Text)
    ensures !TextLess(a, a)
  {
    if a == [] {
    } else {
      TextLessIrreflexive(a[1..]);
    }
  }

  lemma {:induction false} TextLessTransitive(a: Text, b: Text, c: Text)
    requires TextLess(a, b) && TextLess(b, c)
    ensures TextLess(a, c)
  {
    if a == [] || !(a[0] == b[0] == c[0]) {
    } else {
      TextLessTransitive(a[1..], b[1..], c[1..]);
    }
  }

  lemma {:induction false} TextLessTotal(a: Text, b: Text)
    ensures a == b || TextLess(a, b) || TextLess(b, a)
  {
    if a == [] || b == [] || a[0] != b[0] {
    } else {
      TextLessTotal(a[1..], b[1..]);
      assert a == [a[0]] + a[1..] && b == [b[0]] + b[1..];
    }
  }

  predicate OccursAt(text: Text, part: Text, i: nat) {
    i + |part| <= |text| && text[i..i + |part|] == part
  }

  /** `text.includes(part)`. */
  predicate Includes(text: Text, part: Text) {
    exists i | 0 <= i <= |text| :: OccursAt(text, part, i)
  }

  lemma IncludesMiddle(before: Text, part: Text, after: Text)
    ensures Includes(before + part + after, part)
  {
    var text := before + part + after;
    assert OccursAt(text, part, |before|);
  }

  /** `n` in decimal, without leading zeros. */
  function Decimal(n: nat): (r: Text)
    ensures r != [] && forall u | u in r :: IsDigit(u)
    ensures |r| > 1 ==> r[0] != Code('0')
  {
    if n < 10 then [Code('0') + n] else Decimal(n / 10) + [Code('0') + n % 10]
  }

  /** The number a run of decimal digits spells; leading zeros are allowed. */
  function FromDecimal(t: Text): nat
    requires forall u | u in t :: IsDigit(u)
  {
    if t == [] then 0
    else
      assert IsDigit(t[|t| - 1]);
      FromDecimal(t[..|t| - 1]) * 10 + (t[|t| - 1] - Code('0'))
  }
}
