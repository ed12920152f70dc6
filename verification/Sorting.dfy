/** A stable sort by size, largest first: what `sort((a, b) => b.size - a.size)` does to a list. */
module Sorting {
  function Inserted<T(==)>(x: T, s: seq<T>, size: T -> int): (r: seq<T>)
    ensures multiset(r) == multiset{x} + multiset(s)
  {
    if s == [] || size(x) >= size(s[0]) then [x] + s
    else
      assert s == [s[0]] + s[1..];
      [s[0]] + Inserted(x, s[1..], size)
  }

  function BySize<T(==)>(s: seq<T>, size: T -> int): (r: seq<T>)
    ensures multiset(r) == multiset(s)
  {
    if s == [] then []
    else
      assert s == [s[0]] + s[1..];
      Inserted(s[0], BySize(s[1..], size), size)
  }

  ghost predicate Descending<T>(s: seq<T>, size: T -> int) {
    forall i, j | 0 <= i < j < |s| :: size(s[i]) >= size(s[j])
  }

  /** The elements of one size, in their order. */
  function OfSize<T>(s: seq<T>, size: T -> int, n: int): seq<T> {
    if s == [] then [] else OneOfSize(s[0], size, n) + OfSize(s[1..], size, n)
  }

  function OneOfSize<T>(x: T, size: T -> int, n: int): seq<T> {
    if size(x) == n then [x] else []
  }

  lemma SameElements<T>(a: seq<T>, b: seq<T>)
    requires multiset(a) == multiset(b)
    ensures forall x :: x in a <==> x in b
  {
    forall x ensures x in a <==> x in b {
      assert x in a <==> x in multiset(a);
      assert x in b <==> x in multiset(b);
    }
  }

  lemma InsertedHas<T>(x: T, s: seq<T>, size: T -> int, y: T)
    ensures y in Inserted(x, s, size) <==> y == x || y in s
  {
    hide Inserted;
    assert y in Inserted(x, s, size) <==> y in multiset(Inserted(x, s, size));
    assert y in s <==> y in multiset(s);
  }

  lemma DescendingTail<T>(s: seq<T>, size: T -> int)
    requires s != [] && Descending(s, size)
    ensures Descending(s[1..], size) && forall y | y in s[1..] :: size(s[0]) >= size(y)
  {
    forall y | y in s[1..] ensures size(s[0]) >= size(y) {
      var i :| 0 <= i < |s[1..]| && s[1..][i] == y;
      assert s[i + 1] == y;
    }
  }

  lemma DescendingCons<T>(x: T, s: seq<T>, size: T -> int)
    requires Descending(s, size) && forall y | y in s :: size(x) >= size(y)
    ensures Descending([x] + s, size)
  {
    var r := [x] + s;
    forall i, j | 0 <= i < j < |r| ensures size(r[i]) >= size(r[j]) {
      assert r[j] == s[j - 1] && s[j - 1] in s;
      assert i > 0 ==> r[i] == s[i - 1];
    }
  }

  lemma {:induction false} InsertedDescends<T>(x: T, s: seq<T>, size: T -> int)
    requires Descending(s, size)
    ensures Descending(Inserted(x, s, size), size)
    decreases |s|
  {
    if s == [] {
      DescendingCons(x, s, size);
    } else {
      DescendingTail(s, size);
      assert s == [s[0]] + s[1..];
      if size(x) >= size(s[0]) {
        DescendingCons(x, s, size);
      } else {
        InsertedDescends(x, s[1..], size);
        forall y | y in Inserted(x, s[1..], size) ensures size(s[0]) >= size(y) {
          InsertedHas(x, s[1..], size, y);
        }
        DescendingCons(s[0], Inserted(x, s[1..], size), size);
      }
    }
  }

  lemma OfSizeCons<T>(x: T, s: seq<T>, size: T -> int, n: int)
    ensures OfSize([x] + s, size, n) == OneOfSize(x, size, n) + OfSize(s, size, n)
  {
    assert ([x] + s)[1..] == s;
  }

  lemma {:induction false} InsertedTies<T>(x: T, s: seq<T>, size: T -> int, n: int)
    ensures OfSize(Inserted(x, s, size), size, n) == OneOfSize(x, size, n) + OfSize(s, size, n)
    decreases |s|
  {
    if s == [] || size(x) >= size(s[0]) {
      OfSizeCons(x, s, size, n);
    } else {
      InsertedTies(x, s[1..], size, n);
      var y, rest := s[0], Inserted(x, s[1..], size);
      assert s == [y] + s[1..] && Inserted(x, s, size) == [y] + rest;
      OfSizeCons(y, rest, size, n);
      OfSizeCons(y, s[1..], size, n);
      assert OneOfSize(x, size, n) == [] || OneOfSize(y, size, n) == [];
      hide *;
      OneIsEmpty(OneOfSize(y, size, n), OneOfSize(x, size, n), OfSize(s[1..], size, n));
    }
  }

  lemma OneIsEmpty<T>(a: seq<T>, b: seq<T>, rest: seq<T>)
    requires a == [] || b == []
    ensures a + (b + rest) == b + (a + rest)
  {
    assert [] + rest == rest && [] + (b + rest) == b + rest && [] + (a + rest) == a + rest;
  }

  /** The result is the same elements, largest first. */
  lemma {:induction false} BySizeDescends<T>(s: seq<T>, size: T -> int)
    ensures Descending(BySize(s, size), size)
    decreases |s|
  {
    if s != [] {
      BySizeDescends(s[1..], size);
      InsertedDescends(s[0], BySize(s[1..], size), size);
    }
  }

  /** Elements of one size stay in their order. */
  lemma {:induction false} TiesInOrder<T>(s: seq<T>, size: T -> int, n: int)
    ensures OfSize(BySize(s, size), size, n) == OfSize(s, size, n)
    decreases |s|
  {
    if s != [] {
      TiesInOrder(s[1..], size, n);
      assert s == [s[0]] + s[1..];
      OfSizeCons(s[0], s[1..], size, n);
      InsertedTies(s[0], BySize(s[1..], size), size, n);
    }
  }
}
