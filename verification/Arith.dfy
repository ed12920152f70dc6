/** Facts about products and whole multiples that the solver does not find by itself. */
module Arith {
  lemma Distribute(a: int, b: int, m: int)
    ensures (a + b) * m == a * m + b * m
  {
  }

  lemma Positive(a: int, m: int)
    requires a >= 1 && m >= 1
    ensures a * m >= 1
  {
  }

  lemma Multiple(n: nat, size: nat)
    requires size >= 1 && n % size == 0
    ensures (n + size) % size == 0 && n == n / size * size
  {
    assert n == n / size * size + n % size;
    assert n + size == (n / size + 1) * size;
    DivRange(n + size, size, n / size + 1);
  }

  lemma MulMono(a: int, b: int, size: nat)
    requires a <= b
    ensures a * size <= b * size
  {
  }

  lemma DivRange(x: nat, size: nat, q: int)
    requires size >= 1 && q * size <= x < q * size + size
    ensures x / size == q && x % size == x - q * size
  {
    var d := x / size;
    assert x == d * size + x % size;
    assert (d + 1) * size == d * size + size && (q + 1) * size == q * size + size;
    if d < q {
      MulMono(d + 1, q, size);
    } else if d > q {
      MulMono(q + 1, d, size);
    }
  }

  lemma Position(n: nat, x: nat, size: nat)
    requires size >= 1 && n % size == 0 && x < n + size
    ensures n <= x ==> x - x % size == n && x / size == n / size
    ensures x < n ==> x / size < n / size && 0 <= x - x % size < n
  {
    Multiple(n, size);
    var q, d := n / size, x / size;
    assert x == d * size + x % size;
    if n <= x {
      DivRange(x, size, q);
    } else if d >= q {
      MulMono(q, d, size);
      assert false;
    }
  }

  lemma Side(x: nat, k: nat, size: nat)
    requires size >= 1
    ensures x < size * k ==> x / size < k && 0 <= x - x % size < size * k
    ensures x >= size * k ==> x / size >= k
  {
    var d := x / size;
    assert x == d * size + x % size;
    if d >= k {
      MulMono(k, d, size);
    } else {
      MulMono(d + 1, k, size);
      assert (d + 1) * size == d * size + size;
    }
  }

  lemma Whole(n: nat, size: nat)
    requires size >= 1
    ensures 0 <= n / size * size <= n < n / size * size + size
    ensures n / size * size % size == 0
  {
    var q := n / size;
    assert n == q * size + n % size;
    MulMono(0, q, size);
    DivRange(q * size, size, q);
  }

  /** Rounding down to whole sets. */
  lemma WholeSets(blocks: nat, size: nat)
    requires size >= 2
    ensures blocks / size * size % size == 0 && 0 <= blocks - blocks / size * size < size
    ensures blocks < size ==> blocks / size * size == 0
    ensures blocks >= size ==> blocks / size * size >= size
  {
    Whole(blocks, size);
    var q := blocks / size;
    if blocks >= size {
      Side(blocks, 1, size);
      MulMono(1, q, size);
    } else {
      DivRange(blocks, size, 0);
    }
  }

  lemma StripesFit(s: nat, stripe: nat, size: nat)
    requires stripe >= 1 && s >= size && size % stripe == 0
    ensures s / stripe * stripe >= size
  {
    var k := size / stripe;
    assert size == k * stripe + size % stripe;
    Side(s, k, stripe);
    MulMono(k, s / stripe, stripe);
  }
}
