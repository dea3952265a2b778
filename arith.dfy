/** Facts about multiplication of naturals that the index arithmetic needs. */
module Arith {

  lemma {:induction false} MulMonotone(x: nat, y: nat, b: nat)
    requires x <= y
    ensures x * b <= y * b
    decreases b
  {
    if b > 0 {
      MulMonotone(x, y, b - 1);
      assert x * b == x * (b - 1) + x;
      assert y * b == y * (b - 1) + y;
    }
  }

  /** A strictly larger factor gives a product larger by at least one more b. */
  lemma MulStep(x: nat, y: nat, b: nat)
    ensures x < y ==> x * b + b <= y * b
  {
    if x < y {
      MulMonotone(x + 1, y, b);
    }
  }

  /** Dividing an exact multiple n*k by n gives k back, with nothing left over. */
  lemma DivExact(n: nat, k: nat)
    requires n > 0
    ensures (n * k) % n == 0 && (n * k) / n == k
  {
    var q: nat := (n * k) / n;
    assert n * k == q * n + (n * k) % n;
    MulStep(q, k, n);
    MulStep(k, q, n);
  }
}
