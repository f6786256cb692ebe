/** Insertion sort by a caller-supplied strict order: the meaning of `.sort()` and `sorted(...)` on distinct keys. */
module Sorting {

  /** `less` orders any two different elements of `s`, one way only, and transitively. */
  ghost predicate OrdersAll<T(!new)>(less: (T, T) -> bool, s: seq<T>) {
    && (forall a {:trigger less(a, a)} | a in s :: !less(a, a))
    && (forall a, b {:trigger less(a, b)} | a in s && b in s && a != b :: less(a, b) || less(b, a))
    && (forall a, b, c {:trigger less(a, b), less(b, c)} |
         a in s && b in s && c in s && less(a, b) && less(b, c) :: less(a, c))
  }

  ghost predicate Distinct<T(!new)>(s: seq<T>) {
    forall i, j | 0 <= i < j < |s| :: s[i] != s[j]
  }

  ghost predicate Ascending<T(!new)>(less: (T, T) -> bool, s: seq<T>) {
    forall i, j | 0 <= i < j < |s| :: less(s[i], s[j])
  }

  function Insert<T(!new)>(less: (T, T) -> bool, x: T, s: seq<T>): (r: seq<T>)
    ensures |r| == |s| + 1
    ensures forall y :: y in r <==> y == x || y in s
  {
    if s == [] then [x]
    else if less(x, s[0]) then [x] + s
    else [s[0]] + Insert(less, x, s[1..])
  }

  function Sort<T(!new)>(less: (T, T) -> bool, s: seq<T>): (r: seq<T>)
    ensures |r| == |s|
    ensures forall y :: y in r <==> y in s
  {
    if s == [] then [] else Insert(less, s[0], Sort(less, s[1..]))
  }

  lemma {:induction false} InsertKeepsElements<T(!new)>(less: (T, T) -> bool, x: T, s: seq<T>)
    ensures multiset(Insert(less, x, s)) == multiset(s) + multiset{x}
  {
    if s == [] {
    } else {
      assert s == [s[0]] + s[1..];
      InsertKeepsElements(less, x, s[1..]);
    }
  }

  lemma {:induction false} SortKeepsElements<T(!new)>(less: (T, T) -> bool, s: seq<T>)
    ensures multiset(Sort(less, s)) == multiset(s)
  {
    if s == [] {
    } else {
      assert s == [s[0]] + s[1..];
      SortKeepsElements(less, s[1..]);
      InsertKeepsElements(less, s[0], Sort(less, s[1..]));
    }
  }

  lemma PrependAscending<T(!new)>(less: (T, T) -> bool, x: T, s: seq<T>)
    requires Ascending(less, s) && forall y | y in s :: less(x, y)
    ensures Ascending(less, [x] + s)
  {
  }

  lemma {:induction false} InsertAscending<T(!new)>(less: (T, T) -> bool, x: T, s: seq<T>, all: seq<T>)
    requires OrdersAll(less, all) && Ascending(less, s)
    requires x in all && x !in s && forall y | y in s :: y in all
    ensures Ascending(less, Insert(less, x, s))
  {
    if s == [] {
    } else {
      assert s == [s[0]] + s[1..];
      if less(x, s[0]) {
        PrependAscending(less, x, s);
      } else {
        InsertAscending(less, x, s[1..], all);
        PrependAscending(less, s[0], Insert(less, x, s[1..]));
      }
    }
  }

  lemma {:induction false} SortAscending<T(!new)>(less: (T, T) -> bool, s: seq<T>, all: seq<T>)
    requires OrdersAll(less, all) && Distinct(s) && forall y | y in s :: y in all
    ensures Ascending(less, Sort(less, s))
  {
    if s == [] {
    } else {
      assert s == [s[0]] + s[1..];
      SortAscending(less, s[1..], all);
      InsertAscending(less, s[0], Sort(less, s[1..]), all);
    }
  }

  /** Two ascending sequences with the same elements are the same sequence. */
  lemma {:induction false} AscendingUnique<T(!new)>(less: (T, T) -> bool, a: seq<T>, b: seq<T>)
    requires OrdersAll(less, a) && Ascending(less, a) && Ascending(less, b)
    requires |a| == |b| && forall x :: x in a <==> x in b
    ensures a == b
  {
    if a == [] {
    } else {
      assert a[0] in a;
      HeadsAgree(less, a, b);
      assert a == [a[0]] + a[1..] && b == [b[0]] + b[1..];
      forall x
        ensures x in a[1..] <==> x in b[1..]
      {
        TailMembers(less, a, x);
        TailMembers(less, b, x);
      }
      AscendingUnique(less, a[1..], b[1..]);
    }
  }

  lemma TailMembers<T(!new)>(less: (T, T) -> bool, s: seq<T>, x: T)
    requires s != [] && !less(s[0], s[0]) && Ascending(less, s)
    ensures x in s[1..] <==> x in s && x != s[0]
  {
    assert s == [s[0]] + s[1..];
    if x in s[1..] {
      var i :| 0 <= i < |s| - 1 && s[1..][i] == x;
      assert less(s[0], s[i + 1]);
    }
  }

  lemma HeadLeast<T(!new)>(less: (T, T) -> bool, s: seq<T>, x: T)
    requires Ascending(less, s) && x in s
    ensures x == s[0] || less(s[0], x)
  {
    var i :| 0 <= i < |s| && s[i] == x;
    assert i == 0 || less(s[0], s[i]);
  }

  lemma HeadsAgree<T(!new)>(less: (T, T) -> bool, a: seq<T>, b: seq<T>)
    requires OrdersAll(less, a) && Ascending(less, a) && Ascending(less, b)
    requires a != [] && b != []
    requires forall x :: x in a <==> x in b
    ensures a[0] == b[0]
  {
    HeadLeast(less, a, b[0]);
    HeadLeast(less, b, a[0]);
  }

  function Filter<T(!new)>(p: T -> bool, s: seq<T>): (r: seq<T>)
    ensures forall x :: x in r <==> x in s && p(x)
    ensures |r| <= |s|
  {
    if s == [] then [] else if p(s[0]) then [s[0]] + Filter(p, s[1..]) else Filter(p, s[1..])
  }

  lemma {:induction false} FilterAscending<T(!new)>(less: (T, T) -> bool, p: T -> bool, s: seq<T>)
    requires Ascending(less, s)
    ensures Ascending(less, Filter(p, s))
  {
    if s == [] {
    } else {
      FilterAscending(less, p, s[1..]);
      if p(s[0]) {
        forall y | y in Filter(p, s[1..])
          ensures less(s[0], y)
        {
          var i :| 0 <= i < |s| - 1 && s[1..][i] == y;
          assert less(s[0], s[i + 1]);
        }
        PrependAscending(less, s[0], Filter(p, s[1..]));
      }
    }
  }
}
