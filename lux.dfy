/** Conversion of the two ALS channel counts into lux, with the piecewise
    calibration table keyed by the channel ratio and the gain divisor. */
module LuxConversion {
  import opened Wrappers

  /** Calibration coefficients for channel 0 and channel 1, per coefficient set. */
  const ALS_CH0_C: seq<int> := [17743, 42785, 5926, 0]
  const ALS_CH1_C: seq<int> := [-11059, 19548, -1185, 0]

  /** Gain multiplier per ALS gain code; codes 2 and 5 have no entry. */
  const ALS_GAIN: map<nat, nat> := map[0 := 1, 1 := 2, 3 := 4, 4 := 8, 6 := 48, 7 := 96]

  /** `lux_ch1 * 100 / (lux_ch1 + lux_ch0)`: the share of channel 1, in percent. */
  function Ratio(ch0: nat, ch1: nat): (ratio: real)
    requires ch0 + ch1 > 0
    ensures 0.0 <= ratio <= 100.0
    ensures ratio == 100.0 <==> ch0 == 0
  {
    (ch1 * 100) as real / (ch1 + ch0) as real
  }

  /** Picks the coefficient set for a ratio. */
  function CoefficientIndex(ratio: real): (i: nat)
    ensures i < 4
  {
    if ratio < 45.0 then 0
    else if ratio < 64.0 then 1
    else if ratio < 85.0 then 2
    else 3
  }

  /** Each coefficient set covers one band of ratios, the bands are half-open
      on the right, and they partition the ratios. */
  lemma CoefficientIndexBands(ratio: real)
    ensures CoefficientIndex(ratio) == 0 <==> ratio < 45.0
    ensures CoefficientIndex(ratio) == 1 <==> 45.0 <= ratio < 64.0
    ensures CoefficientIndex(ratio) == 2 <==> 64.0 <= ratio < 85.0
    ensures CoefficientIndex(ratio) == 3 <==> 85.0 <= ratio
  {
  }

  /** A ratio on a threshold selects the set above it. */
  lemma CoefficientIndexBoundaries()
    ensures CoefficientIndex(45.0) == 1
    ensures CoefficientIndex(64.0) == 2
    ensures CoefficientIndex(85.0) == 3
  {
  }

  /** The coefficient index never decreases as the ratio grows. */
  lemma CoefficientIndexMonotone(r1: real, r2: real)
    requires r1 <= r2
    ensures CoefficientIndex(r1) <= CoefficientIndex(r2)
  {
  }

  /** Reference definition of the coefficient set with integer comparisons only:
      `ratio < k` compared as `100 * ch1 < k * (ch0 + ch1)`. */
  function IntegerIndex(ch0: nat, ch1: nat): (i: nat)
    requires ch0 + ch1 > 0
    ensures i < 4
  {
    var sum := ch0 + ch1;
    if 100 * ch1 < 45 * sum then 0
    else if 100 * ch1 < 64 * sum then 1
    else if 100 * ch1 < 85 * sum then 2
    else 3
  }

  /** Comparing the real-valued ratio with an integer threshold is the same as
      comparing the cross-multiplied integers. */
  lemma RatioBelow(ch0: nat, ch1: nat, k: int)
    requires ch0 + ch1 > 0
    ensures Ratio(ch0, ch1) < k as real <==> 100 * ch1 < k * (ch0 + ch1)
  {
    var sum := (ch1 + ch0) as real;
    var r := Ratio(ch0, ch1);
    assert r * sum == (ch1 * 100) as real;
    assert r < k as real <==> r * sum < k as real * sum;
    assert (k * (ch0 + ch1)) as real == k as real * sum;
  }

  /** The ratio test of the driver selects the same coefficient set as the
      integer reference. */
  lemma IndexOfChannels(ch0: nat, ch1: nat)
    requires ch0 + ch1 > 0
    ensures CoefficientIndex(Ratio(ch0, ch1)) == IntegerIndex(ch0, ch1)
  {
    RatioBelow(ch0, ch1, 45);
    RatioBelow(ch0, ch1, 64);
    RatioBelow(ch0, ch1, 85);
  }

  /** The lux value of the two channel counts under a gain code: `Some(0.0)`
      without light, `None` where the gain table has no multiplier (the
      driver's arithmetic then gives NaN). */
  function Lux(ch0: nat, ch1: nat, gainCode: nat): (lux: Option<real>)
    ensures ch0 + ch1 == 0 ==> lux == Some(0.0)
    ensures ch0 + ch1 > 0 ==> (lux.None? <==> gainCode !in ALS_GAIN)
  {
    if ch0 + ch1 == 0 then Some(0.0)
    else if gainCode !in ALS_GAIN then None
    else
      var i := CoefficientIndex(Ratio(ch0, ch1));
      var raw := ch0 * ALS_CH0_C[i] - ch1 * ALS_CH1_C[i];
      Some(raw as real / ALS_GAIN[gainCode] as real / 10000.0)
  }

  /** With light and a known gain, lux is the calibrated difference for the
      integer-selected coefficient set divided by the gain and by 10000. */
  lemma LuxFormula(ch0: nat, ch1: nat, gainCode: nat)
    requires ch0 + ch1 > 0 && gainCode in ALS_GAIN
    ensures var i := IntegerIndex(ch0, ch1);
            Lux(ch0, ch1, gainCode)
              == Some((ch0 * ALS_CH0_C[i] - ch1 * ALS_CH1_C[i]) as real / (ALS_GAIN[gainCode] * 10000) as real)
  {
    IndexOfChannels(ch0, ch1);
    var i := IntegerIndex(ch0, ch1);
    DivideTwice((ch0 * ALS_CH0_C[i] - ch1 * ALS_CH1_C[i]) as real, ALS_GAIN[gainCode]);
  }

  /** Dividing by the gain and then by 10000 is dividing by their product. */
  lemma DivideTwice(x: real, g: nat)
    requires g > 0
    ensures x / g as real / 10000.0 == x / (g * 10000) as real
  {
    assert (g * 10000) as real == g as real * 10000.0;
  }

  /** Coefficient set 3 (ratio of at least 85) always reports 0 lux. */
  lemma LuxHighRatioIsZero(ch0: nat, ch1: nat, gainCode: nat)
    requires ch0 + ch1 > 0 && gainCode in ALS_GAIN
    requires 100 * ch1 >= 85 * (ch0 + ch1)
    ensures Lux(ch0, ch1, gainCode) == Some(0.0)
  {
    IndexOfChannels(ch0, ch1);
  }

  /** The calibrated difference is never negative: sets 0 and 2 add a
      non-negative multiple of channel 1, set 1 is used only while
      36 * ch1 < 64 * ch0, and set 3 is zero. */
  lemma CalibratedNonNegative(ch0: nat, ch1: nat)
    requires ch0 + ch1 > 0
    ensures var i := IntegerIndex(ch0, ch1); ch0 * ALS_CH0_C[i] - ch1 * ALS_CH1_C[i] >= 0
  {
    if IntegerIndex(ch0, ch1) == 1 {
      assert 36 * ch1 < 64 * ch0;
      assert 19548 * 36 * ch1 <= 42785 * 36 * ch0;
    }
  }

  /** Although the driver does not clamp, every lux value it computes for a
      known gain code is non-negative. */
  lemma LuxNonNegative(ch0: nat, ch1: nat, gainCode: nat)
    ensures Lux(ch0, ch1, gainCode).Some? ==> Lux(ch0, ch1, gainCode).value >= 0.0
  {
    if ch0 + ch1 > 0 && gainCode in ALS_GAIN {
      LuxFormula(ch0, ch1, gainCode);
      CalibratedNonNegative(ch0, ch1);
    }
  }
}
