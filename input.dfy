/** An optional value, for the source's nullable fields and non-numeric samples. */
module Wrappers {
  datatype Option<+T> = None | Some(value: T)
}

/** Turning raw tilt samples, key flags and the input mode into horizontal
    basket motion. */
module Input {

  datatype InputMode = Tilt | Touch | Keys

  /** Tilt samples are capped to this many degrees either side of zero. */
  const TiltLimit: real := 30.0
  /** Weight of a new sample in the exponential smoothing of the tilt. */
  const TiltAlpha: real := 0.12
  /** Basket speed, in pixels per second, at full tilt. */
  const MaxTiltSpeed: real := 520.0
  /** Basket speed, in pixels per second, while an arrow key is held. */
  const KeySpeed: real := 420.0

  /** `v` forced into `[lo, hi]`: the lower bound is tested first. */
  function Clamp(v: real, lo: real, hi: real): (r: real)
    ensures lo <= hi ==> lo <= r <= hi
    ensures lo <= v <= hi ==> r == v
    ensures r == v || r == lo || r == hi
  {
    if v < lo then lo else if v > hi then hi else v
  }

  /** Clamping never reorders two values. */
  lemma ClampMonotone(u: real, v: real, lo: real, hi: real)
    requires lo <= hi && u <= v
    ensures Clamp(u, lo, hi) <= Clamp(v, lo, hi)
  {
  }

  /** The calibrated sample, capped to the tilt range. */
  function CapTilt(gamma: real, zero: real): (r: real)
    ensures -TiltLimit <= r <= TiltLimit
    ensures -TiltLimit <= gamma - zero <= TiltLimit ==> r == gamma - zero
  {
    Clamp(gamma - zero, -TiltLimit, TiltLimit)
  }

  /** One step of exponential smoothing towards the capped sample. The result
      lies between the previous value and the sample, so it never overshoots. */
  function Smooth(prev: real, capped: real): (r: real)
    ensures prev <= capped ==> prev <= r <= capped
    ensures capped <= prev ==> capped <= r <= prev
  {
    prev + TiltAlpha * (capped - prev)
  }

  /** Smoothing keeps the tilt inside the capped range. */
  lemma SmoothStaysInRange(prev: real, gamma: real, zero: real)
    requires -TiltLimit <= prev <= TiltLimit
    ensures -TiltLimit <= Smooth(prev, CapTilt(gamma, zero)) <= TiltLimit
  {
  }

  /** Each step removes the same fraction of the gap to the sample, so a steady
      sample is approached geometrically. */
  lemma SmoothContracts(prev: real, capped: real)
    ensures Smooth(prev, capped) - capped == (1.0 - TiltAlpha) * (prev - capped)
  {
  }

  /** The smoothed tilt after `n` samples that all cap to the same value. */
  function SteadySamples(prev: real, capped: real, n: nat): real
  {
    if n == 0 then prev else Smooth(SteadySamples(prev, capped, n - 1), capped)
  }

  /** The share of the gap to a steady sample left after `n` samples: 0.88 to the power n. */
  function Decay(n: nat): (r: real)
    ensures 0.0 < r <= 1.0
    ensures 0 < n ==> r < 1.0
  {
    if n == 0 then 1.0 else (1.0 - TiltAlpha) * Decay(n - 1)
  }

  /** Under a steady sample the smoothed tilt closes on it geometrically: after
      `n` samples the gap is 0.88^n times the starting gap, so it shrinks at
      every sample and never changes sign. */
  lemma {:induction false} SteadySamplesConverge(prev: real, capped: real, n: nat)
    ensures SteadySamples(prev, capped, n) - capped == Decay(n) * (prev - capped)
  {
    if n > 0 {
      SteadySamplesConverge(prev, capped, n - 1);
      SmoothContracts(SteadySamples(prev, capped, n - 1), capped);
      assert (1.0 - TiltAlpha) * (Decay(n - 1) * (prev - capped))
          == ((1.0 - TiltAlpha) * Decay(n - 1)) * (prev - capped);
    }
  }

  /** How far the basket moves in a frame of `dt` seconds before clamping. Tilt
      moves it only once tilt input is known to work; touch moves it through
      drag events instead; each held arrow key moves it at key speed. */
  function BasketShift(mode: InputMode, tiltSupported: bool, tilt: real,
                       left: bool, right: bool, dt: real): (r: real)
    ensures mode == Touch ==> r == 0.0
    ensures mode == Tilt && !tiltSupported ==> r == 0.0
    ensures mode == Keys && left == right ==> r == 0.0
    ensures mode == Keys && right && !left ==> r == KeySpeed * dt
    ensures mode == Keys && left && !right ==> r == -KeySpeed * dt
    ensures mode == Tilt && tiltSupported && 0.0 < dt ==> (0.0 < r <==> 0.0 < tilt) && (r < 0.0 <==> tilt < 0.0)
    ensures mode == Tilt && tiltSupported && tilt == TiltLimit ==> r == MaxTiltSpeed * dt
  {
    if mode == Tilt && tiltSupported then
      var k := MaxTiltSpeed / TiltLimit * dt;
      assert tilt / TiltLimit * MaxTiltSpeed * dt == tilt * k;
      assert 0.0 < dt ==> 0.0 < k;
      tilt / TiltLimit * MaxTiltSpeed * dt
    else if mode == Keys then
      (if right then KeySpeed * dt else 0.0) - (if left then KeySpeed * dt else 0.0)
    else 0.0
  }

  /** Within the tilt range the basket never moves faster than the top tilt speed. */
  lemma TiltShiftBounded(tilt: real, dt: real)
    requires -TiltLimit <= tilt <= TiltLimit && 0.0 <= dt
    ensures -MaxTiltSpeed * dt <= BasketShift(Tilt, true, tilt, false, false, dt) <= MaxTiltSpeed * dt
  {
    var v, m := tilt / TiltLimit, MaxTiltSpeed * dt;
    assert BasketShift(Tilt, true, tilt, false, false, dt) == v * m;
    ProductNonNegative(1.0 - v, m);
    ProductNonNegative(1.0 + v, m);
  }

  lemma ProductNonNegative(x: real, y: real)
    requires 0.0 <= x && 0.0 <= y
    ensures 0.0 <= x * y
  {
  }

  /** Keys that steer left, and keys that steer right. */
  predicate IsLeftKey(key: string) { key == "ArrowLeft" || key == "a" }
  predicate IsRightKey(key: string) { key == "ArrowRight" || key == "d" }
}
