/** Integer rounding used by the host-side controller: ceiling division for
    the tile grid and dispatch sizes, and round-up-to-a-multiple for heap
    offsets. */
module Rounding {

  /** `(n + d - 1) / d`: the least q with q * d >= n. */
  function CeilDiv(n: nat, d: nat): (q: nat)
    requires d > 0
    ensures q * d >= n
    ensures q * d < n + d
  {
    var q := (n + d - 1) / d;
    assert (n + d - 1) == q * d + (n + d - 1) % d;
    q
  }

  /** The two bounds of `CeilDiv` pin its result down: no other quotient
      satisfies them. */
  lemma CeilDivUnique(n: nat, d: nat, q: nat)
    requires d > 0
    requires q * d >= n && q * d < n + d
    ensures q == CeilDiv(n, d)
  {
    var c := CeilDiv(n, d);
    assert (q + 1) * d == q * d + d;
    assert (c + 1) * d == c * d + d;
    MulMonotone(q + 1, c, d);
    MulMonotone(c + 1, q, d);
  }

  /** Multiplying by a natural number preserves order. */
  lemma MulMonotone(a: nat, b: nat, d: nat)
    ensures a <= b ==> a * d <= b * d
  {
  }

  /** Of two quotient/remainder decompositions of one number, neither
      quotient exceeds the other. */
  lemma QuotientBound(a: nat, q: nat, r: nat, q': nat, r': nat)
    requires a > 0
    requires q * a + r == q' * a + r' && r < a
    ensures q' <= q
  {
    assert (q + 1) * a == q * a + a;
    MulMonotone(q + 1, q', a);
  }

  /** Euclidean division has one quotient and one remainder. */
  lemma DivModUnique(x: nat, a: nat, q: nat, r: nat)
    requires a > 0
    requires x == q * a + r && r < a
    ensures q == x / a && r == x % a
  {
    var q', r' := x / a, x % a;
    assert x == q' * a + r';
    QuotientBound(a, q', r', q, r);
    QuotientBound(a, q, r, q', r');
  }

  /** Round `value` up to a multiple of `alignment` (the heap allocator's
      align). */
  function Align(value: nat, alignment: nat): (r: nat)
    requires alignment > 0
    ensures r % alignment == 0
    ensures value <= r < value + alignment
  {
    var q := CeilDiv(value, alignment);
    DivModUnique(q * alignment, alignment, q, 0);
    q * alignment
  }

  /** `Align` yields the least multiple of the alignment that is at least
      `value`. */
  lemma AlignIsLeast(value: nat, alignment: nat, m: nat)
    requires alignment > 0
    requires m % alignment == 0 && m >= value
    ensures Align(value, alignment) <= m
  {
    var c := CeilDiv(value, alignment);
    var k := m / alignment;
    assert m == k * alignment;
    assert (k + 1) * alignment == m + alignment;
    MulMonotone(k + 1, c, alignment);
    MulMonotone(c, k, alignment);
  }

  /** An already aligned value is left where it is. */
  lemma AlignAligned(value: nat, alignment: nat)
    requires alignment > 0
    requires value % alignment == 0
    ensures Align(value, alignment) == value
  {
    AlignIsLeast(value, alignment, value);
  }
}
