/** Go's 64-bit signed integers and the truncating division that `/` performs on them. */
module GoInt {

  const MinInt64: int := -0x8000_0000_0000_0000
  const MaxInt64: int := 0x7FFF_FFFF_FFFF_FFFF

  predicate InInt64(n: int) {
    MinInt64 <= n <= MaxInt64
  }

  /** Go's `a / b`: the quotient rounded toward zero (Dafny's `/` is Euclidean). */
  function Quot(a: int, b: int): (q: int)
    requires b > 0
    ensures a >= 0 ==> 0 <= q * b <= a < q * b + b
    ensures a < 0 ==> q * b - b < a <= q * b <= 0
  {
    if a >= 0 then
      DivBounds(a, b);
      a / b
    else
      DivBounds(-a, b);
      NegateProduct((-a) / b, b);
      -((-a) / b)
  }

  lemma DivBounds(n: nat, b: int)
    requires b > 0
    ensures 0 <= (n / b) * b <= n < (n / b) * b + b
  {
    assert n == (n / b) * b + n % b;
  }

  lemma NegateProduct(x: int, b: int)
    ensures (-x) * b == -(x * b)
  {
  }

  /** `v / 1024 / 1024`, the conversion of a byte count to whole MiB used throughout the metrics code. */
  function MiB(v: int): int {
    Quot(Quot(v, 1024), 1024)
  }

  /** On a non-negative byte count, two truncating divisions by 1024 are one floor division by 2^20. */
  lemma MiBOfNonNegative(v: int)
    requires v >= 0
    ensures MiB(v) == v / 1048576
    ensures MiB(v) * 1048576 <= v < MiB(v) * 1048576 + 1048576
  {
    var q1 := v / 1024;
    var q2 := q1 / 1024;
    assert q1 * 1024 <= v < q1 * 1024 + 1024;
    assert q2 * 1024 <= q1 < q2 * 1024 + 1024;
    assert q2 * 1048576 <= v < q2 * 1048576 + 1048576;
  }

  /** Truncation toward zero makes the conversion odd-symmetric: MiB(-v) == -MiB(v). */
  lemma {:induction false} MiBIsOdd(v: int)
    ensures MiB(-v) == -MiB(v)
  {
    if v > 0 {
      assert Quot(-v, 1024) == -Quot(v, 1024);
      assert Quot(-Quot(v, 1024), 1024) == -Quot(Quot(v, 1024), 1024);
    } else if v < 0 {
      assert Quot(v, 1024) == -Quot(-v, 1024);
      assert Quot(-Quot(-v, 1024), 1024) == -Quot(Quot(-v, 1024), 1024);
    }
  }
}
