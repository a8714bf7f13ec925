/** The few facts about products and quotients that the solver needs stated. */
module Arithmetic {

  const U32_LIMIT := 0x1_0000_0000
  const U64_LIMIT := 0x1_0000_0000_0000_0000

  type u64 = x: nat | x < U64_LIMIT

  lemma {:induction false} MulMonotone(a: int, b: int, c: int)
    requires a <= b && 0 <= c
    ensures a * c <= b * c && c * a <= c * b
  {
    assert (b - a) * c >= 0;
  }

  lemma {:induction false} DivBelow(x: nat, m: nat, b: nat)
    requires m > 0 && x < m * b
    ensures x / m < b
  {
    if x / m >= b {
      MulMonotone(b, x / m, m);
    }
  }

  lemma {:induction false} QuotientAtMost(x: nat, m: nat)
    requires m > 0
    ensures 0 <= x / m <= x
  {
    MulMonotone(1, m, x + 1);
    DivBelow(x, m, x + 1);
  }

  lemma {:induction false} Quotient(x: int, m: int, q: int, r: int)
    requires m > 0 && 0 <= r < m && x == m * q + r
    ensures x / m == q && x % m == r
  {
    if x / m < q {
      MulMonotone(x / m + 1, q, m);
    } else if x / m > q {
      MulMonotone(q + 1, x / m, m);
    }
  }

  lemma {:induction false} Split(x: nat, m: nat)
    requires m > 0
    ensures x == (x / m) * m + x % m && 0 <= x % m < m && 0 <= x / m
  {
  }

  lemma {:induction false} Expand(ah: nat, al: nat, bh: nat, bl: nat, m: nat)
    ensures (ah * m + al) * (bh * m + bl) == m * (m * (ah * bh) + ah * bl + al * bh) + al * bl
  {
    assert (ah * m + al) * (bh * m + bl) == (ah * m) * (bh * m) + (ah * m) * bl + al * (bh * m) + al * bl;
    assert (ah * m) * (bh * m) == m * (m * (ah * bh));
    assert (ah * m) * bl == m * (ah * bl);
    assert al * (bh * m) == m * (al * bh);
  }

  lemma {:induction false} ProductBelow(x: nat, y: nat, m: nat)
    requires x < m && y < m
    ensures 0 <= x * y <= (m - 1) * (m - 1)
  {
    MulMonotone(x, m - 1, y);
    MulMonotone(y, m - 1, m - 1);
  }
}
