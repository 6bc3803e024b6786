/**
 The `ALPHA` blend that the listener of `FlutterCompassPlugin` applies to
 every accelerometer and magnetometer sample, and what repeated blending
 amounts to. Android's single-precision floats are modelled as reals, so ALPHA
 is exactly 0.97 here.
 */
module CompassFilter {

  /** The share of each new estimate that the previous estimate keeps. */
  const ALPHA: real := 0.97

  /** One smoothing step for one component: ALPHA * old + (1 - ALPHA) * raw. */
  function Blend(estimate: real, raw: real): (r: real)
    ensures estimate <= raw ==> estimate <= r <= raw
    ensures raw <= estimate ==> raw <= r <= estimate
    ensures r - raw == ALPHA * (estimate - raw)
  {
    ALPHA * estimate + (1.0 - ALPHA) * raw
  }

  /** A smoothed 3-axis estimate, as held in a `float[3]` buffer. */
  predicate IsVector(v: seq<real>) { |v| == 3 }

  /** The zero vector a fresh `float[3]` starts from. */
  const Zero: seq<real> := [0.0, 0.0, 0.0]

  /**
   Blends the first three components of a raw sample into an estimate, each
   axis independently of the others.
   */
  function BlendVector(estimate: seq<real>, raw: seq<real>): (r: seq<real>)
    requires IsVector(estimate) && |raw| >= 3
    ensures IsVector(r)
    ensures forall k :: 0 <= k < 3 ==> r[k] == Blend(estimate[k], raw[k])
  {
    [Blend(estimate[0], raw[0]), Blend(estimate[1], raw[1]), Blend(estimate[2], raw[2])]
  }

  /** Every sample carries at least the three axis components. */
  predicate AllSamples(samples: seq<seq<real>>)
  {
    forall i :: 0 <= i < |samples| ==> |samples[i]| >= 3
  }

  /** The estimate after the given samples have been blended, in order, into Zero. */
  function Smooth(samples: seq<seq<real>>): (r: seq<real>)
    requires AllSamples(samples)
    ensures IsVector(r)
  {
    if samples == [] then Zero
    else BlendVector(Smooth(samples[..|samples| - 1]), samples[|samples| - 1])
  }

  /** One more sample blends into the estimate of the earlier ones. */
  lemma SmoothAppend(samples: seq<seq<real>>, raw: seq<real>)
    requires AllSamples(samples) && |raw| >= 3
    ensures AllSamples(samples + [raw])
    ensures Smooth(samples + [raw]) == BlendVector(Smooth(samples), raw)
  {
    assert (samples + [raw])[..|samples|] == samples;
  }

  /** The exponential moving average of one component stream, starting from 0. */
  function Ema(xs: seq<real>): real
  {
    if xs == [] then 0.0 else Blend(Ema(xs[..|xs| - 1]), xs[|xs| - 1])
  }

  /** Component k of every sample. */
  function Column(samples: seq<seq<real>>, k: nat): (c: seq<real>)
    requires AllSamples(samples) && k < 3
    ensures |c| == |samples|
    ensures forall i :: 0 <= i < |samples| ==> c[i] == samples[i][k]
  {
    seq(|samples|, i requires 0 <= i < |samples| => samples[i][k])
  }

  /** The vector filter is three independent scalar filters: no cross-talk between axes. */
  lemma {:induction false} SmoothIsComponentwise(samples: seq<seq<real>>, k: nat)
    requires AllSamples(samples) && k < 3
    ensures Smooth(samples)[k] == Ema(Column(samples, k))
  {
    if samples != [] {
      var prefix := samples[..|samples| - 1];
      SmoothIsComponentwise(prefix, k);
      assert Column(samples, k)[..|samples| - 1] == Column(prefix, k);
    }
  }

  function Pow(a: real, n: nat): real
  {
    if n == 0 then 1.0 else a * Pow(a, n - 1)
  }

  /**
   The closed form of the filter: sample j of n is weighted by
   (1 - ALPHA) * ALPHA^(n - 1 - j).
   */
  function Weighted(xs: seq<real>): real
  {
    if xs == [] then 0.0
    else (1.0 - ALPHA) * Pow(ALPHA, |xs| - 1) * xs[0] + Weighted(xs[1..])
  }

  lemma {:induction false} WeightedSnoc(xs: seq<real>, x: real)
    ensures Weighted(xs + [x]) == ALPHA * Weighted(xs) + (1.0 - ALPHA) * x
  {
    if xs == [] {
      assert Weighted([x]) == (1.0 - ALPHA) * x + Weighted([]);
    } else {
      var rest := xs[1..];
      assert (xs + [x])[1..] == rest + [x];
      WeightedSnoc(rest, x);
      assert Pow(ALPHA, |xs|) == ALPHA * Pow(ALPHA, |rest|);
    }
  }

  /**
   After n samples the estimate is a fixed-weight sum of all n of them. The
   weights add up to 1 - ALPHA^n, not 1: the zero start keeps the rest.
   */
  lemma {:induction false} EmaClosedForm(xs: seq<real>)
    ensures Ema(xs) == Weighted(xs)
  {
    if xs != [] {
      var prefix := xs[..|xs| - 1];
      EmaClosedForm(prefix);
      assert xs == prefix + [xs[|xs| - 1]];
      WeightedSnoc(prefix, xs[|xs| - 1]);
    }
  }

  /** A steady input c is approached geometrically: the remaining gap is c * ALPHA^n. */
  lemma {:induction false} EmaSteadyInput(xs: seq<real>, c: real)
    requires forall i :: 0 <= i < |xs| ==> xs[i] == c
    ensures Ema(xs) == c - c * Pow(ALPHA, |xs|)
  {
    if xs != [] {
      EmaSteadyInput(xs[..|xs| - 1], c);
    }
  }

  /** Starting from zero, the estimate stays within any range that holds 0 and every sample. */
  lemma {:induction false} EmaBounded(xs: seq<real>, lo: real, hi: real)
    requires lo <= 0.0 <= hi
    requires forall i :: 0 <= i < |xs| ==> lo <= xs[i] <= hi
    ensures lo <= Ema(xs) <= hi
  {
    if xs != [] {
      EmaBounded(xs[..|xs| - 1], lo, hi);
    }
  }
}
