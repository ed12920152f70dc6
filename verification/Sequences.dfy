/** Facts about sequences that hold the same elements. */
module Sequences {

  /** The last element of one arrangement occurs in the other; what is left of both is alike again. */
  lemma WithoutOne<T>(a: seq<T>, b: seq<T>) returns (i: int)
    requires multiset(a) == multiset(b) && a != []
    ensures 0 <= i < |b| && b[i] == a[|a| - 1] && b == b[..i] + [b[i]] + b[i + 1..]
    ensures multiset(a[..|a| - 1]) == multiset(b[..i] + b[i + 1..])
  {
    var n := |a| - 1;
    assert a == a[..n] + [a[n]];
    assert a[n] in multiset(b);
    i :| 0 <= i < |b| && b[i] == a[n];
    assert b == b[..i] + [b[i]] + b[i + 1..];
    assert multiset(a[..n]) == multiset(a) - multiset{a[n]};
    assert multiset(b[..i] + b[i + 1..]) == multiset(b) - multiset{b[i]};
  }
}
