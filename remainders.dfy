/** Facts about Dafny's Euclidean `%` with a positive divisor. */
module Remainders {
  /** A multiple of `n` leaves no remainder. */
  lemma MultipleMod(q: int, n: int)
    requires n > 0
    ensures (n * q) % n == 0
  {
    var m := n * q;
    var k := m / n;
    var r := m % n;
    assert m == n * k + r;
    var d := q - k;
    assert n * q - n * k == n * d;
    assert r == n * d;
  }
}
