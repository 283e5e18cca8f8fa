/** Rounding to cents: `formatNumber = val => Number(val.toFixed(2))`.
    `toFixed` works on the sign and the magnitude separately and, of two
    equally near candidates, picks the larger magnitude; on exact (real)
    values that is rounding half away from zero. */
module Money {

  /** Whole cents of a non-negative value, rounding half up. */
  function Cents(x: real): (k: int)
    requires x >= 0.0
    ensures k as real <= x * 100.0 + 0.5 < k as real + 1.0
    ensures k >= 0
  {
    (x * 100.0 + 0.5).Floor
  }

  /** `Number(x.toFixed(2))` on an exact value. */
  function RoundCents(x: real): real
  {
    if x >= 0.0 then Cents(x) as real / 100.0 else -(Cents(-x) as real / 100.0)
  }

  predicate IsWhole(y: real)
  {
    y.Floor as real == y
  }

  /** The rounded value is a whole number of cents, at most half a cent
      from the input, and on a tie it is the one farther from zero. */
  lemma RoundCentsNearest(x: real)
    ensures IsWhole(RoundCents(x) * 100.0)
    ensures -0.5 <= RoundCents(x) * 100.0 - x * 100.0 <= 0.5
    ensures RoundCents(x) * 100.0 - x * 100.0 == 0.5 ==> x > 0.0
    ensures RoundCents(x) * 100.0 - x * 100.0 == -0.5 ==> x < 0.0
  {
    var r := RoundCents(x);
    if x >= 0.0 {
      var k := Cents(x);
      assert r * 100.0 == k as real;
      WholeInt(k);
      if x == 0.0 {
        assert k == 0;
      }
    } else {
      var k := Cents(-x);
      assert r * 100.0 == -(k as real);
      WholeInt(-k);
    }
  }

  lemma WholeInt(k: int)
    ensures IsWhole(k as real)
  {
  }

  /** Rounding commutes with negation. */
  lemma RoundCentsOdd(x: real)
    ensures RoundCents(-x) == -RoundCents(x)
  {
    if x == 0.0 {
      assert Cents(0.0) == 0;
    }
  }

  /** A value that already is a whole number of cents is left as it is. */
  lemma RoundCentsKeepsCents(x: real)
    requires IsWhole(x * 100.0)
    ensures RoundCents(x) == x
  {
    var n := (x * 100.0).Floor;
    assert n as real == x * 100.0;
    if x >= 0.0 {
      assert Cents(x) == n;
    } else {
      assert -x * 100.0 == -(n as real);
      assert Cents(-x) == -n;
    }
  }

  /** A bucket of 10.005 appears in the sheet as 10.01. */
  lemma RoundHalfCentUp()
    ensures RoundCents(10.005) == 10.01
  {
    assert 10.005 * 100.0 + 0.5 == 1001.0;
    assert Cents(10.005) == 1001;
  }
}
