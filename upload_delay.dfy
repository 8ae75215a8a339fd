/** `DataUploadDelay`: the interval the upload worker waits between two
    ticks, pushed back after an idle or failed tick and released after an
    accepted upload. It never exceeds `maxUploadDelay`, and once inside
    `[minUploadDelay, maxUploadDelay]` it stays there. */
module UploadDelay {

  /** The upload part of a performance preset (`UploadPerformancePreset`). */
  datatype Performance = Performance(
    initialUploadDelay: real,
    minUploadDelay: real,
    maxUploadDelay: real,
    uploadDelayChangeRate: real)

  /** A preset the delay can work with: a non-negative floor under the
      ceiling, an initial value between zero and the ceiling, and a change
      rate that neither flips the sign nor stands still. The initial value
      may lie under the floor, as in the tests' quick-first-upload presets:
      `increase()` does not lift it to the floor, but the first `decrease()`
      does. */
  predicate ValidPerformance(p: Performance) {
    && 0.0 <= p.minUploadDelay <= p.maxUploadDelay
    && 0.0 <= p.initialUploadDelay <= p.maxUploadDelay
    && 0.0 < p.uploadDelayChangeRate < 1.0
  }

  function MinReal(a: real, b: real): real { if a <= b then a else b }
  function MaxReal(a: real, b: real): real { if a >= b then a else b }

  /** `increase()`: grow by the change rate, capped at the ceiling. */
  function Increased(p: Performance, current: real): (r: real)
    ensures r <= p.maxUploadDelay
    ensures r <= current * (1.0 + p.uploadDelayChangeRate)
    ensures 0.0 <= current <= p.maxUploadDelay && 0.0 <= p.uploadDelayChangeRate ==> current <= r
    ensures 0.0 < current < p.maxUploadDelay && 0.0 < p.uploadDelayChangeRate ==> current < r
  {
    MinReal(current * (1.0 + p.uploadDelayChangeRate), p.maxUploadDelay)
  }

  /** `decrease()`: shrink by the change rate, floored at the minimum. */
  function Decreased(p: Performance, current: real): (r: real)
    ensures p.minUploadDelay <= r
    ensures current * (1.0 - p.uploadDelayChangeRate) <= r
    ensures 0.0 <= current && p.minUploadDelay <= current && 0.0 <= p.uploadDelayChangeRate ==> r <= current
    ensures 0.0 < current && p.minUploadDelay < current && 0.0 < p.uploadDelayChangeRate ==> r < current
  {
    MaxReal(current * (1.0 - p.uploadDelayChangeRate), p.minUploadDelay)
  }

  /** Both moves keep a delay inside the preset's bounds. */
  lemma MovesStayInBounds(p: Performance, current: real)
    requires ValidPerformance(p)
    requires p.minUploadDelay <= current <= p.maxUploadDelay
    ensures p.minUploadDelay <= Increased(p, current) <= p.maxUploadDelay
    ensures p.minUploadDelay <= Decreased(p, current) <= p.maxUploadDelay
  {
  }

  /** From anywhere between zero and the ceiling, `increase()` stays there
      and `decrease()` lands inside the preset's bounds. */
  lemma MovesStayUnderCeiling(p: Performance, current: real)
    requires ValidPerformance(p)
    requires 0.0 <= current <= p.maxUploadDelay
    ensures 0.0 <= Increased(p, current) <= p.maxUploadDelay
    ensures p.minUploadDelay <= Decreased(p, current) <= p.maxUploadDelay
  {
  }

  /** The delay object the worker shares with its owner, who may read
      `current` while the worker changes it. */
  class DataUploadDelay {
    const performance: Performance
    var current: real

    ghost predicate Valid()
      reads this
    {
      ValidPerformance(performance) && 0.0 <= current <= performance.maxUploadDelay
    }

    constructor (performance: Performance)
      requires ValidPerformance(performance)
      ensures Valid()
      ensures this.performance == performance && current == performance.initialUploadDelay
    {
      this.performance := performance;
      current := performance.initialUploadDelay;
    }

    method Increase()
      requires Valid()
      modifies this
      ensures Valid()
      ensures current == Increased(performance, old(current))
    {
      MovesStayUnderCeiling(performance, current);
      current := MinReal(current * (1.0 + performance.uploadDelayChangeRate), performance.maxUploadDelay);
    }

    method Decrease()
      requires Valid()
      modifies this
      ensures Valid()
      ensures current == Decreased(performance, old(current))
    {
      MovesStayUnderCeiling(performance, current);
      current := MaxReal(current * (1.0 - performance.uploadDelayChangeRate), performance.minUploadDelay);
    }
  }
}
