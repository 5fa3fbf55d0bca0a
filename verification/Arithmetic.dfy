/** Facts about products and quotients that the solver does not find by itself. */
module Arithmetic {
  lemma AtLeastOnce(x: int, q: int)
    requires x >= 1 && q > 0
    ensures x * q >= q
  {
  }

  /** Division undoes multiplication, remainder included. */
  lemma Euclid(b: nat, q: nat, r: nat)
    requires r < q
    ensures (b * q + r) / q == b && (b * q + r) % q == r
  {
    var n := b * q + r;
    var d := n / q;
    assert n == d * q + n % q;
    assert (d - b) * q == r - n % q;
    if d > b { AtLeastOnce(d - b, q); }
    if d < b { AtLeastOnce(b - d, q); }
  }

  lemma Fewer(a: nat, b: nat, q: nat)
    requires a <= b
    ensures a * q <= b * q
  {
  }

  lemma RowFits(r: nat, rows: nat, vocab: nat)
    requires r < rows
    ensures (r + 1) * vocab == r * vocab + vocab && (r + 1) * vocab <= rows * vocab
  {
  }

  lemma NotNegative(a: nat, b: nat)
    ensures a * b >= 0
  {
  }
}
