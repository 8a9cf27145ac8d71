/** Scalar arithmetic the waveform post-processing relies on: numpy's clip, max and int16 cast. */
module Numerics {

  /** Full scale of a signed 16-bit sample, the factor the post-processing multiplies by. */
  const FullScale: real := 32767.0

  function Abs(x: real): (r: real)
    ensures 0.0 <= r && (r == x || r == -x)
  {
    if x < 0.0 then -x else x
  }

  /**
   * The cast of a float to int16, for values inside the int16 range: truncation
   * toward zero. Out-of-range values (where numpy wraps around) are not modelled.
   */
  function Trunc(x: real): (r: int)
    ensures 0.0 <= x ==> 0 <= r && r as real <= x < r as real + 1.0
    ensures x < 0.0 ==> r <= 0 && r as real - 1.0 < x <= r as real
  {
    if x >= 0.0 then x.Floor else -((-x).Floor)
  }

  /** Truncation never increases a magnitude, so a bound on the input bounds the integer. */
  lemma TruncWithin(x: real, bound: int)
    requires Abs(x) <= bound as real
    ensures -bound <= Trunc(x) <= bound
  {
  }

  function Distance(a: real, b: real): real
  {
    Abs(a - b)
  }

  /** np.clip of one value: the point of [lo, hi] nearest to x. */
  function Clip(x: real, lo: real, hi: real): (r: real)
    requires lo <= hi
    ensures lo <= r <= hi
    ensures forall y :: lo <= y <= hi ==> Distance(r, x) <= Distance(y, x)
  {
    if x < lo then lo else if x > hi then hi else x
  }

  /** np.max of a non-empty array: an element that no element exceeds. */
  function MaxOf(s: seq<real>): (m: real)
    requires |s| > 0
    ensures forall i :: 0 <= i < |s| ==> s[i] <= m
    ensures exists i :: 0 <= i < |s| && s[i] == m
  {
    if |s| == 1 then s[0]
    else
      var rest := MaxOf(s[1..]);
      if s[0] >= rest then s[0] else rest
  }

  /** np.abs(s).max(): the largest magnitude in a non-empty array. */
  function PeakMagnitude(s: seq<real>): (m: real)
    requires |s| > 0
    ensures 0.0 <= m
    ensures forall i :: 0 <= i < |s| ==> Abs(s[i]) <= m
    ensures exists i :: 0 <= i < |s| && Abs(s[i]) == m
  {
    var mags := seq(|s|, i requires 0 <= i < |s| => Abs(s[i]));
    assert forall i :: 0 <= i < |s| ==> mags[i] == Abs(s[i]);
    MaxOf(mags)
  }

  /** The signed maximum exceeds a threshold only if the peak magnitude does too. */
  lemma PeakDominatesMax(s: seq<real>)
    requires |s| > 0
    ensures MaxOf(s) <= PeakMagnitude(s)
  {
    var i :| 0 <= i < |s| && s[i] == MaxOf(s);
    assert Abs(s[i]) <= PeakMagnitude(s);
  }
}
