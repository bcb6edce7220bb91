/** The confidence factor of a proposal and the threshold that decides
    whether it is Pended. */
module ConfidenceEngine {
  import opened HCTypes

  /** upstake * PRECISION_MULTIPLIER / downstake, rounded down as the
      contract's unsigned division does. With no downstake the ratio is
      undefined (None). */
  function Confidence(c: Config, upstake: nat, downstake: nat): (r: Option<nat>)
    ensures r.Some? <==> downstake > 0
    ensures r.Some? ==> r.value * downstake <= upstake * c.precision < (r.value + 1) * downstake
  {
    if downstake == 0 then None else Some(upstake * c.precision / downstake)
  }

  /** CONFIDENCE_THRESHOLD_BASE * PRECISION_MULTIPLIER. */
  function Threshold(c: Config): nat
  {
    c.thresholdBase * c.precision
  }

  /** The inclusive threshold test. An undefined confidence (no downstake,
      in particular no stakes at all) does not meet it. */
  predicate MeetsThreshold(c: Config, upstake: nat, downstake: nat)
  {
    match Confidence(c, upstake, downstake)
    case None => false
    case Some(v) => v >= Threshold(c)
  }

  lemma MulLeMono(a: nat, b: nat, k: nat)
    requires a <= b
    ensures a * k <= b * k
  {
  }

  lemma MulLtCancel(a: nat, b: nat, k: nat)
    requires a * k < b * k
    ensures a < b
  {
    if a >= b { MulLeMono(b, a, k); }
  }

  lemma MulLeCancel(a: nat, b: nat, k: nat)
    requires k > 0 && a * k <= b * k
    ensures a <= b
  {
    if a > b {
      MulLeMono(b + 1, a, k);
    }
  }

  /** For a positive precision multiplier the threshold test is exact:
      the proposal meets it iff there is downstake and the upstake is at
      least CONFIDENCE_THRESHOLD_BASE times the downstake. Rounding the
      ratio down never makes a proposal miss the threshold it meets in
      exact arithmetic. */
  lemma MeetsThresholdIff(c: Config, upstake: nat, downstake: nat)
    requires c.precision > 0
    ensures MeetsThreshold(c, upstake, downstake) <==>
              downstake > 0 && upstake >= c.thresholdBase * downstake
  {
    if downstake > 0 {
      var v := Confidence(c, upstake, downstake).value;
      var p, t := c.precision, c.thresholdBase;
      assert v * downstake <= upstake * p < (v + 1) * downstake;
      if upstake >= t * downstake {
        MulLeMono(t * downstake, upstake, p);
        assert (t * p) * downstake == (t * downstake) * p;
        MulLtCancel(t * p, v + 1, downstake);
      }
      if v >= t * p {
        MulLeMono(t * p, v, downstake);
        assert (t * downstake) * p == (t * p) * downstake;
        MulLeCancel(t * downstake, upstake, p);
      }
    }
  }

  /** An upstake that is exactly k times the downstake has confidence
      exactly k * PRECISION_MULTIPLIER: no rounding happens. */
  lemma ConfidenceOfMultiple(c: Config, k: nat, downstake: nat)
    requires downstake > 0
    ensures Confidence(c, k * downstake, downstake) == Some(k * c.precision)
  {
    var v := Confidence(c, k * downstake, downstake).value;
    var q := k * c.precision;
    assert (k * downstake) * c.precision == q * downstake;
    assert v * downstake <= q * downstake < (v + 1) * downstake;
    MulLtCancel(q, v + 1, downstake);
    MulLtCancel(v, q + 1, downstake);
  }

  /** More support or less opposition never loses a met threshold, as long
      as some downstake is left. */
  lemma MeetsThresholdMonotone(c: Config, up: nat, down: nat, up': nat, down': nat)
    requires MeetsThreshold(c, up, down)
    requires up <= up' && 0 < down' <= down
    ensures MeetsThreshold(c, up', down')
  {
    if c.precision > 0 {
      MeetsThresholdIff(c, up, down);
      MeetsThresholdIff(c, up', down');
      MulLeMono(down', down, c.thresholdBase);
    } else {
      assert Confidence(c, up', down') == Some(0);
    }
  }

  /** A proposal exactly at the threshold drops below it as soon as any
      opposing stake is added. */
  lemma OpposingStakeBreaksExactThreshold(c: Config, down: nat, extra: nat)
    requires c.precision > 0 && c.thresholdBase > 0
    requires down > 0 && extra > 0
    ensures MeetsThreshold(c, c.thresholdBase * down, down)
    ensures !MeetsThreshold(c, c.thresholdBase * down, down + extra)
  {
    MeetsThresholdIff(c, c.thresholdBase * down, down);
    MeetsThresholdIff(c, c.thresholdBase * down, down + extra);
    assert c.thresholdBase * (down + extra) == c.thresholdBase * down + c.thresholdBase * extra;
  }

  /** Withdrawing every supporting stake leaves a confidence of zero, below
      any positive threshold. */
  lemma NoSupportMissesThreshold(c: Config, down: nat)
    requires c.precision > 0 && c.thresholdBase > 0
    ensures !MeetsThreshold(c, 0, down)
  {
    MeetsThresholdIff(c, 0, down);
  }
}
