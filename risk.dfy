/** What the handlers do with the classifier's positive-class probability:
    the inclusive 0.5 decision threshold, and `round(prob, 3)` for display. */
module Risk {

  datatype Risk = HighRisk | LowRisk

  function RiskLabel(r: Risk): string {
    match r
    case HighRisk => "High risk"
    case LowRisk => "Low risk"
  }

  /** The decision on the unrounded probability, inclusive at 0.5. */
  function Decide(p: real): (r: Risk)
    ensures r == HighRisk <==> p >= 0.5
  {
    if p >= 0.5 then HighRisk else LowRisk
  }

  /** The threshold is inclusive on the high side. */
  lemma DecideThreshold(p: real)
    ensures Decide(p) == HighRisk <==> p >= 0.5
    ensures Decide(0.5) == HighRisk && Decide(0.4999) == LowRisk
  {
  }

  /** The number of thousandths Python's `round(p, 3)` keeps: the integer
      nearest to 1000 * p, ties going to the even one. */
  function Thousandths(p: real): (k: int)
    ensures -0.5 <= k as real - 1000.0 * p <= 0.5
    ensures (k as real - 1000.0 * p == 0.5 || k as real - 1000.0 * p == -0.5) ==> k % 2 == 0
  {
    var v := 1000.0 * p;
    var f := v.Floor;
    var frac := v - f as real;
    if frac < 0.5 then f
    else if frac > 0.5 then f + 1
    else if f % 2 == 0 then f
    else f + 1
  }

  /** A value written with at most three decimals. */
  predicate ThreeDecimals(x: real) {
    (1000.0 * x).Floor as real == 1000.0 * x
  }

  /** `round(p, 3)`. Rounding moves the probability by at most half a
      thousandth and keeps it a probability. */
  function Round3(p: real): (r: real)
    ensures -0.0005 <= r - p <= 0.0005
    ensures 0.0 <= p <= 1.0 ==> 0.0 <= r <= 1.0
    ensures ThreeDecimals(r)
  {
    var k := Thousandths(p);
    assert 0.0 <= p <= 1.0 ==> 0 <= k <= 1000 by {
      if 0.0 <= p <= 1.0 {
        assert -0.5 < k as real && k as real < 1000.5;
      }
    }
    var r := k as real / 1000.0;
    assert 1000.0 * r == k as real;
    assert (k as real).Floor == k;
    r
  }

  /** An exact tie rounds to the even thousandth, as Python does: 0.0625 is
      shown as 0.062. */
  lemma Round3HalfEven()
    ensures Round3(0.0625) == 0.062
  {
    var k := Thousandths(0.0625);
    assert k == 62 || k == 63;
  }

  /** The decision uses the unrounded probability, so a patient can be shown
      the probability 0.5 and still be labelled low risk. */
  lemma DisplayedHalfCanBeLowRisk()
    ensures Decide(0.4996) == LowRisk && Round3(0.4996) == 0.5
  {
    var k := Thousandths(0.4996);
    assert k == 500;
  }
}
