/** Which of two entries of a sequence comes first. */
module Orders {
  ghost predicate NoneTwice<T>(s: seq<T>) {
    forall i, j | 0 <= i < j < |s| :: s[i] != s[j]
  }

  ghost predicate Before<T>(s: seq<T>, a: T, b: T) {
    exists x, y :: BeforeAt(s, a, b, x, y)
  }

  ghost predicate BeforeAt<T>(s: seq<T>, a: T, b: T, x: int, y: int) {
    0 <= x < y < |s| && s[x] == a && s[y] == b
  }

  lemma OneWay<T>(s: seq<T>, a: T, b: T)
    requires NoneTwice(s) && Before(s, a, b)
    ensures !Before(s, b, a)
  {
    var x, y :| BeforeAt(s, a, b, x, y);
    forall i, j ensures !BeforeAt(s, b, a, i, j) {
      assert 0 <= i < |s| && s[i] == b ==> i == y;
      assert 0 <= j < |s| && s[j] == a ==> j == x;
    }
  }

  lemma BeforeConcat<T>(s: seq<T>, t: seq<T>, a: T, b: T)
    ensures Before(s, a, b) || Before(t, a, b) || (a in s && b in t) ==> Before(s + t, a, b)
  {
    if x, y :| BeforeAt(s, a, b, x, y) {
      assert BeforeAt(s + t, a, b, x, y);
    }
    if x, y :| BeforeAt(t, a, b, x, y) {
      assert BeforeAt(s + t, a, b, |s| + x, |s| + y);
    }
    if a in s && b in t {
      var x :| 0 <= x < |s| && s[x] == a;
      var y :| 0 <= y < |t| && t[y] == b;
      assert BeforeAt(s + t, a, b, x, |s| + y);
    }
  }

  // ------------------------------------------------------------------- sorted

  /** The positions in `order` by ascending key. */
  ghost predicate SortedBy(keys: seq<int>, order: seq<int>) {
    && (forall x | 0 <= x < |order| :: 0 <= order[x] < |keys|)
    && (forall x, y | 0 <= x < y < |order| :: keys[order[x]] < keys[order[y]])
  }

  lemma SortedLast(keys: seq<int>, a: seq<int>, j: int)
    requires SortedBy(keys, a) && j in a
    ensures 0 <= j < |keys| && keys[j] <= keys[a[|a| - 1]]
    ensures keys[j] == keys[a[|a| - 1]] ==> j == a[|a| - 1]
    ensures j in a[..|a| - 1] <==> j != a[|a| - 1]
  {
    var x :| 0 <= x < |a| && a[x] == j;
    assert x < |a| - 1 ==> a[..|a| - 1][x] == j;
    var c := a[..|a| - 1];
    forall y | 0 <= y < |c| ensures c[y] != a[|a| - 1] {
      assert keys[a[y]] < keys[a[|a| - 1]];
    }
  }

  lemma SortedLess(keys: seq<int>, a: seq<int>)
    requires SortedBy(keys, a) && a != []
    ensures SortedBy(keys, a[..|a| - 1]) && a == a[..|a| - 1] + [a[|a| - 1]] && a[|a| - 1] in a
  {
  }

  /** Two sequences of the same positions, sorted by the same keys, are equal. */
  lemma {:induction false} SortedSame(keys: seq<int>, a: seq<int>, b: seq<int>)
    requires SortedBy(keys, a) && SortedBy(keys, b) && forall j :: j in a <==> j in b
    ensures a == b
    decreases |a|
  {
    assert a == [] || a[0] in a;
    assert b == [] || b[0] in b;
    if a != [] && b != [] {
      SortedLess(keys, a);
      SortedLess(keys, b);
      SortedLast(keys, b, a[|a| - 1]);
      SortedLast(keys, a, b[|b| - 1]);
      var c, d := a[..|a| - 1], b[..|b| - 1];
      forall j ensures j in c <==> j in d {
        assert j in c ==> j in a;
        assert j in d ==> j in b;
        if j in a {
          SortedLast(keys, a, j);
          SortedLast(keys, b, j);
        }
      }
      hide SortedBy;
      SortedSame(keys, c, d);
    }
  }
}
