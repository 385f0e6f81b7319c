/** contracts/lst_staking_hub/src/math.rs: fixed-point arithmetic with 18 decimal digits.

    A `Decimal` is the natural number of its 10^-18 parts ("atomics"), so `ONE` is the rate 1. */
module FixedPoint {
  import opened Sums

  const ONE: nat := 1_000_000_000_000_000_000

  function DecimalDivision(numerator: nat, denominator: nat): nat
    requires denominator > 0
  {
    numerator * ONE / denominator
  }

  function DecimalMultiplication(a: nat, b: nat): nat {
    a * b / ONE
  }

  /** `Decimal::from_ratio`. */
  function FromRatio(numerator: nat, denominator: nat): nat
    requires denominator > 0
  {
    numerator * ONE / denominator
  }

  lemma Products(a: nat, b: nat, d: nat)
    requires d > 0 && a < b
    ensures (a + 1) * d <= b * d
  {
    assert b * d - (a + 1) * d == (b - a - 1) * d;
  }

  /** `n / d` is the one number q with q * d <= n < (q + 1) * d. */
  lemma Floor(n: nat, d: nat, q: nat)
    requires d > 0
    ensures q == n / d <==> q * d <= n < (q + 1) * d
  {
    var f := n / d;
    assert f * d <= n < (f + 1) * d by {
      assert n == d * f + n % d && 0 <= n % d < d;
    }
    if q < f {
      Products(q, f, d);
    } else if f < q {
      Products(f, q, d);
    }
  }

  lemma MultiplicationBounds(a: nat, r: nat)
    ensures DecimalMultiplication(a, r) * ONE <= a * r < (DecimalMultiplication(a, r) + 1) * ONE
  {
    Floor(a * r, ONE, DecimalMultiplication(a, r));
  }

  lemma DivisionBounds(p: nat, r: nat)
    requires r > 0
    ensures DecimalDivision(p, r) * r <= p * ONE < (DecimalDivision(p, r) + 1) * r
  {
    Floor(p * ONE, r, DecimalDivision(p, r));
  }

  /** The ratio is the greatest rate at which `denominator` tokens are worth at most `numerator`. */
  lemma RatioIsGreatest(numerator: nat, denominator: nat, r: nat)
    requires denominator > 0
    ensures r <= FromRatio(numerator, denominator) <==> r * denominator <= numerator * ONE
  {
    var q := FromRatio(numerator, denominator);
    Floor(numerator * ONE, denominator, q);
    if r <= q {
      assert r * denominator <= q * denominator;
    } else {
      assert (q + 1) * denominator <= r * denominator;
    }
  }

  /** Rounding a sum down loses at most one unit against rounding its two parts. */
  lemma MultiplicationOfSum(a: nat, b: nat, r: nat)
    ensures DecimalMultiplication(a, r) + DecimalMultiplication(b, r)
         <= DecimalMultiplication(a + b, r)
         <= DecimalMultiplication(a, r) + DecimalMultiplication(b, r) + 1
  {
    assert (a + b) * r == a * r + b * r;
    MultiplicationBounds(a, r);
    MultiplicationBounds(b, r);
    MultiplicationBounds(a + b, r);
  }

  /** Minting and redeeming at one rate never pays out more than went in, and keeps less than one
      token's worth plus one unit. */
  lemma MintThenRedeem(p: nat, r: nat)
    requires r > 0
    ensures var back := DecimalMultiplication(DecimalDivision(p, r), r);
            back <= p && (p - back) * ONE < r + ONE
  {
    var t := DecimalDivision(p, r);
    DivisionBounds(p, r);
    MultiplicationBounds(t, r);
    assert (t + 1) * r == t * r + r;
  }

  ghost function Scale<K>(m: map<K, nat>, r: nat): map<K, nat> {
    map k | k in m :: DecimalMultiplication(m[k], r)
  }

  /** Splitting an amount over the entries of a map: the entries redeemed one by one get at most
      what the whole is redeemed for, and less by at most one unit per entry but the first. */
  lemma {:induction false} ScaleSum<K>(m: map<K, nat>, r: nat)
    ensures SumValues(Scale(m, r)) <= DecimalMultiplication(SumValues(m), r)
    ensures m != map[] ==> DecimalMultiplication(SumValues(m), r) < SumValues(Scale(m, r)) + |m|
    decreases |m|
  {
    if m != map[] {
      var k :| k in m;
      SumRemove(m, k);
      SumRemove(Scale(m, r), k);
      assert Scale(m, r) - {k} == Scale(m - {k}, r);
      ScaleSum(m - {k}, r);
      MultiplicationOfSum(m[k], SumValues(m - {k}), r);
      if m - {k} == map[] {
        assert DecimalMultiplication(0, r) == 0;
      }
    } else {
      assert DecimalMultiplication(0, r) == 0;
    }
  }
}
