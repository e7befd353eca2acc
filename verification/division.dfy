/** Remainders of products and sums. */
module Division {

  lemma Remainder(k: int, d: int, n: int)
    requires 0 <= d < n
    ensures (n * k + d) % n == d
  {
    var m := n * k + d;
    var x := k - m / n;
    assert n * x == m % n - d;
    Scaled(n, x);
  }

  lemma Scaled(n: int, x: int)
    requires n > 0
    ensures x >= 1 ==> n * x >= n
    ensures x <= -1 ==> n * x <= -n
  {
  }
}
