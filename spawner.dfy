/** Difficulty ramp and the creation of one falling item. The random draws
    of the source are passed in as values. */
module Spawner {
  import opened Collision
  import Input

  /** Spawn interval, in milliseconds, at the start of a round and at its floor. */
  const StartInterval: real := 1200.0
  const MinInterval: real := 420.0
  /** Fraction of the gap to the target interval closed each frame. */
  const IntervalLag: real := 0.02
  /** Base fall speed, in pixels per second, and its largest score bonus. */
  const StartSpeed: real := 160.0
  const MaxSpeedBonus: real := 360.0
  /** Share of spawns that are bombs. */
  const BombChance: real := 0.3

  /** The interval the spawner drifts towards: 6 ms shorter per point, never below the floor. */
  function TargetInterval(score: int): (r: real)
    ensures MinInterval <= r
    ensures StartInterval - 6.0 * score as real <= r
    ensures 0 <= score ==> r <= StartInterval
    ensures r == MinInterval || r == StartInterval - 6.0 * score as real
  {
    var t := StartInterval - score as real * 6.0;
    if MinInterval < t then t else MinInterval
  }

  /** A higher score never asks for a longer interval. */
  lemma TargetIntervalNonIncreasing(s1: int, s2: int)
    requires s1 <= s2
    ensures TargetInterval(s2) <= TargetInterval(s1)
  {
  }

  /** One frame of the first-order lag towards the target interval. */
  function NextInterval(interval: real, score: int): (r: real)
    ensures interval <= TargetInterval(score) ==> interval <= r <= TargetInterval(score)
    ensures TargetInterval(score) <= interval ==> TargetInterval(score) <= r <= interval
  {
    interval + (TargetInterval(score) - interval) * IntervalLag
  }

  /** The gap to the target shrinks by exactly 2% each frame. */
  lemma NextIntervalContracts(interval: real, score: int)
    ensures NextInterval(interval, score) - TargetInterval(score)
         == (1.0 - IntervalLag) * (interval - TargetInterval(score))
  {
  }

  /** An interval inside the ramp's range stays there. */
  lemma NextIntervalInRange(interval: real, score: int)
    requires 0 <= score && MinInterval <= interval <= StartInterval
    ensures MinInterval <= NextInterval(interval, score) <= StartInterval
  {
  }

  /** Base fall speed: 3 px/s faster per point, capped at 520 px/s. */
  function BaseSpeed(score: int): (r: real)
    ensures r <= StartSpeed + MaxSpeedBonus
    ensures 0 <= score ==> StartSpeed <= r
    ensures 0 <= score && score <= 120 ==> r == StartSpeed + 3.0 * score as real
    ensures 120 <= score ==> r == StartSpeed + MaxSpeedBonus
  {
    StartSpeed + (if MaxSpeedBonus < score as real * 3.0 then MaxSpeedBonus else score as real * 3.0)
  }

  /** The five uniform draws that shape one spawned item. */
  datatype Draws = Draws(size: real, x: real, speed: real, spin: real, kind: real)
  {
    /** Each draw lies in [0, 1), as the platform's uniform source promises. */
    predicate InUnit()
    {
      0.0 <= size < 1.0 && 0.0 <= x < 1.0 && 0.0 <= speed < 1.0 && 0.0 <= spin < 1.0 && 0.0 <= kind < 1.0
    }
  }

  /** The item a spawn creates, just above the top edge of a viewport `width` wide. */
  function NewItem(d: Draws, baseSpeed: real, width: real): (a: Item)
    ensures a.y == -a.size - 10.0 && a.rot == 0.0
    ensures a.kind == Bomb <==> d.kind < BombChance
    ensures d.InUnit() ==> 26.0 <= a.size < 36.0
    ensures d.InUnit() ==> baseSpeed <= a.speed < baseSpeed + 80.0
    ensures d.InUnit() ==> -0.05 <= a.spin < 0.05
    ensures d.InUnit() && a.size <= width ==> 0.0 <= a.x <= width - a.size
  {
    var size := 26.0 + d.size * 10.0;
    var span := width - size;
    var x := d.x * span;
    assert d.InUnit() && 0.0 <= span ==> 0.0 <= x <= span by {
      if d.InUnit() && 0.0 <= span {
        ScaledInSpan(d.x, span);
      }
    }
    var speed := baseSpeed + d.speed * 80.0;
    var spin := (d.spin * 2.0 - 1.0) * 0.05;
    var kind := if d.kind < BombChance then Bomb else Apple;
    Item(kind, x, -size - 10.0, size, speed, spin, 0.0)
  }

  /** A fraction in [0, 1) of a non-negative span stays inside the span. */
  lemma ScaledInSpan(f: real, span: real)
    requires 0.0 <= f < 1.0 && 0.0 <= span
    ensures 0.0 <= f * span <= span
  {
    Input.ProductNonNegative(f, span);
    Input.ProductNonNegative(1.0 - f, span);
    assert (1.0 - f) * span == span - f * span;
  }
}
