module Alignment {
  /** A length is aligned when it is a whole number of pages. */
  predicate Aligned(n: int, ps: int)
    requires ps > 0
  {
    n % ps == 0
  }

  function DivCeil(a: nat, b: nat): (r: nat)
    requires b > 0
  {
    (a + b - 1) / b
  }

  function AlignDown(a: nat, b: nat): (r: nat)
    requires b > 0
  {
    (a / b) * b
  }

  lemma MultipleAligned(q: int, ps: int)
    requires ps > 0
    ensures Aligned(q * ps, ps) && (q * ps) / ps == q
  {
  }

  lemma AlignedSum(a: int, b: int, ps: int)
    requires ps > 0 && Aligned(a, ps) && Aligned(b, ps)
    ensures Aligned(a + b, ps) && Aligned(a - b, ps)
  {
    MultipleAligned(a / ps + b / ps, ps);
    MultipleAligned(a / ps - b / ps, ps);
    assert a + b == (a / ps + b / ps) * ps;
    assert a - b == (a / ps - b / ps) * ps;
  }

  /** Two aligned lengths that differ, differ by at least a page. */
  lemma AlignedGap(a: int, b: int, ps: int)
    requires ps > 0 && Aligned(a, ps) && Aligned(b, ps) && a < b
    ensures a + ps <= b
  {
    AlignedSum(b, a, ps);
  }

  lemma AlignDownGreatest(a: nat, ps: int)
    requires ps > 0
    ensures Aligned(AlignDown(a, ps), ps) && AlignDown(a, ps) <= a < AlignDown(a, ps) + ps
    ensures forall k :: 0 <= k <= a && Aligned(k, ps) ==> k <= AlignDown(a, ps)
  {
    MultipleAligned(a / ps, ps);
    forall k | 0 <= k <= a && Aligned(k, ps) ensures k <= AlignDown(a, ps) {
      if k > AlignDown(a, ps) { AlignedGap(AlignDown(a, ps), k, ps); }
    }
  }

  /** Rounding up to whole pages: the smallest aligned length that covers `a`. */
  lemma DivCeilCovers(a: nat, ps: nat)
    requires ps > 0
    ensures a <= DivCeil(a, ps) * ps < a + ps && Aligned(DivCeil(a, ps) * ps, ps)
  {
    MultipleAligned(DivCeil(a, ps), ps);
  }

  lemma DivCeilMonotone(a: nat, b: nat, ps: nat)
    requires ps > 0 && a <= b
    ensures DivCeil(a, ps) <= DivCeil(b, ps)
  {
    DivCeilCovers(a, ps);
    DivCeilCovers(b, ps);
    Below(DivCeil(a, ps), DivCeil(b, ps) + 1, ps);
  }

  lemma Below(a: int, b: int, m: int)
    requires a * m < b * m && m >= 0
    ensures a < b
  {
  }

  lemma Scaled(a: int, b: int, m: int)
    requires a <= b && m >= 0
    ensures a * m <= b * m
  {
  }

  /** The quotient and the remainder come back. */
  lemma Divided(q: int, m: int, r: int)
    requires 0 <= r < m
    ensures (q * m + r) / m == q && (q * m + r) % m == r
  {
    var d := (q * m + r) / m - q;
    assert (q * m + r) - (q * m + r) / m * m == (q * m + r) % m;
    assert r - d * m == (q * m + r) % m;
    Below(d, 1, m);
    Below(-1, d, m);
  }
}
