/**
 * The linear tween of lerp.js.
 *
 * A Lerp holds `from`, `to` and `delay`, a running `time` and the last
 * computed `value`. Each update first interpolates with the progress
 * `time / delay` as it stood before the call, then advances `time` by
 * `timeDelta / delay`, notifies the update callback with the value and, once
 * `time` has reached `delay`, notifies the finish callback. Nothing clamps the
 * progress, and `delete this` does not stop later updates.
 *
 * The callbacks are closures in the source; here a registered callback is an
 * identifier, and each call it would receive is recorded as a notification.
 */
module Tween {

  datatype Option<T> = None | Some(value: T)

  /** Identifies a registered callback. */
  type Callback = nat

  /** One call of a registered callback. */
  datatype Notification = Updated(callback: Callback, value: real) | Finished(callback: Callback)

  function Min(a: real, b: real): real {
    if a <= b then a else b
  }

  function Max(a: real, b: real): real {
    if a <= b then b else a
  }

  /** from * (1 - t) + to * t: starts at `from`, reaches `to` at 1, stays between them on [0, 1] and overshoots past 1. */
  function Interpolate(from: real, to: real, t: real): (v: real)
    ensures t == 0.0 ==> v == from
    ensures t == 1.0 ==> v == to
    ensures 0.0 <= t <= 1.0 ==> Min(from, to) <= v <= Max(from, to)
    ensures 1.0 < t && from < to ==> to < v
    ensures 1.0 < t && to < from ==> v < to
  {
    var v := from * (1.0 - t) + to * t;
    assert v == from + (to - from) * t;
    assert v == to + (to - from) * (t - 1.0);
    ScaleSign(to - from, t);
    ScaleSign(to - from, 1.0 - t);
    v
  }

  /** Signs of a product with a non-negative factor. */
  lemma ScaleSign(a: real, b: real)
    ensures 0.0 <= a && 0.0 <= b ==> 0.0 <= a * b
    ensures 0.0 < a && 0.0 < b ==> 0.0 < a * b
    ensures a <= 0.0 && 0.0 <= b ==> a * b <= 0.0
    ensures a < 0.0 && 0.0 < b ==> a * b < 0.0
  {
  }

  /** Interpolation is monotone in t: non-decreasing when from <= to, non-increasing when from >= to. */
  lemma InterpolateMonotone(from: real, to: real, t1: real, t2: real)
    requires t1 <= t2
    ensures from <= to ==> Interpolate(from, to, t1) <= Interpolate(from, to, t2)
    ensures to <= from ==> Interpolate(from, to, t2) <= Interpolate(from, to, t1)
  {
    assert Interpolate(from, to, t2) - Interpolate(from, to, t1) == (to - from) * (t2 - t1);
    ScaleSign(to - from, t2 - t1);
  }

  /** The time after one update: time advances by timeDelta * lerpSpeed, with lerpSpeed = 1 / delay. */
  function Advance(time: real, timeDelta: real, delay: real): real
    requires delay != 0.0
  {
    time + timeDelta * (1.0 / delay)
  }

  /** With a non-negative delta, the progress time / delay never goes back, whatever the sign of delay. */
  lemma ProgressNonDecreasing(time: real, timeDelta: real, delay: real)
    requires delay != 0.0 && 0.0 <= timeDelta
    ensures time / delay <= Advance(time, timeDelta, delay) / delay
  {
    var inv := 1.0 / delay;
    assert Advance(time, timeDelta, delay) / delay == time / delay + timeDelta * (inv * inv);
    ScaleSign(timeDelta, inv * inv);
  }

  /**
   * Finish is reached in units of 1 / delay but compared with delay: from time
   * 0 with delay > 0, a single delta finishes exactly when it is at least
   * delay * delay.
   */
  lemma FinishThreshold(elapsed: real, delay: real)
    requires 0.0 < delay
    ensures Advance(0.0, elapsed, delay) >= delay <==> elapsed >= delay * delay
  {
    assert Advance(0.0, elapsed, delay) * delay == elapsed;
    if elapsed >= delay * delay {
      assert (Advance(0.0, elapsed, delay) - delay) * delay >= 0.0;
    } else {
      assert (Advance(0.0, elapsed, delay) - delay) * delay < 0.0;
    }
  }

  /**
   * Across one update with a non-negative delta, the next value does not move
   * against the direction from `from` to `to`, and a time that has reached
   * delay > 0 stays there.
   */
  lemma AdvanceKeepsDirection(from: real, to: real, delay: real, time: real, timeDelta: real)
    requires delay != 0.0 && 0.0 <= timeDelta
    ensures from <= to ==> Interpolate(from, to, time / delay) <= Interpolate(from, to, Advance(time, timeDelta, delay) / delay)
    ensures to <= from ==> Interpolate(from, to, Advance(time, timeDelta, delay) / delay) <= Interpolate(from, to, time / delay)
    ensures 0.0 < delay ==> time <= Advance(time, timeDelta, delay)
  {
    ProgressNonDecreasing(time, timeDelta, delay);
    InterpolateMonotone(from, to, time / delay, Advance(time, timeDelta, delay) / delay);
    ScaleSign(timeDelta, 1.0 / delay);
  }

  /** What one update reports: the interpolated value and whether finish is reached. */
  datatype Step = Step(value: real, finished: bool)

  function StepAt(from: real, to: real, delay: real, time: real, timeDelta: real): Step
    requires delay != 0.0
  {
    Step(Interpolate(from, to, time / delay), Advance(time, timeDelta, delay) >= delay)
  }

  /** The steps a run of updates with the given deltas reports, starting from `time`. */
  function Run(from: real, to: real, delay: real, time: real, deltas: seq<real>): (steps: seq<Step>)
    requires delay != 0.0
    ensures |steps| == |deltas|
    decreases |deltas|
  {
    if deltas == [] then []
    else [StepAt(from, to, delay, time, deltas[0])] + Run(from, to, delay, Advance(time, deltas[0], delay), deltas[1..])
  }

  predicate NonNegative(deltas: seq<real>) {
    forall i :: 0 <= i < |deltas| ==> 0.0 <= deltas[i]
  }

  /** A fresh tween's first update reports exactly `from`. */
  lemma RunStartsAtFrom(from: real, to: real, delay: real, deltas: seq<real>)
    requires delay != 0.0 && deltas != []
    ensures Run(from, to, delay, 0.0, deltas)[0].value == from
  {
  }

  /** With non-negative deltas, the reported values are non-decreasing when from <= to and non-increasing when from >= to. */
  lemma {:induction false} RunMonotone(from: real, to: real, delay: real, time: real, deltas: seq<real>)
    requires delay != 0.0 && NonNegative(deltas)
    ensures forall i, j :: 0 <= i <= j < |deltas| ==>
      var steps := Run(from, to, delay, time, deltas);
      (from <= to ==> steps[i].value <= steps[j].value) &&
      (to <= from ==> steps[j].value <= steps[i].value)
    decreases |deltas|
  {
    if deltas != [] {
      var next := Advance(time, deltas[0], delay);
      var steps := Run(from, to, delay, time, deltas);
      var rest := Run(from, to, delay, next, deltas[1..]);
      assert steps == [StepAt(from, to, delay, time, deltas[0])] + rest;
      RunMonotone(from, to, delay, next, deltas[1..]);
      if |rest| > 0 {
        ProgressNonDecreasing(time, deltas[0], delay);
        InterpolateMonotone(from, to, time / delay, next / delay);
        assert rest[0].value == Interpolate(from, to, next / delay);
      }
      forall i, j | 0 <= i <= j < |deltas|
        ensures from <= to ==> steps[i].value <= steps[j].value
        ensures to <= from ==> steps[j].value <= steps[i].value
      {
        if 0 < i {
          assert steps[i] == rest[i - 1] && steps[j] == rest[j - 1];
        } else if 0 < j {
          assert steps[j] == rest[j - 1];
        }
      }
    }
  }

  /** Once time has reached delay > 0, every later update with a non-negative delta finishes again. */
  lemma {:induction false} RunFinishedFrom(from: real, to: real, delay: real, time: real, deltas: seq<real>)
    requires 0.0 < delay && delay <= time && NonNegative(deltas)
    ensures forall k :: 0 <= k < |deltas| ==> Run(from, to, delay, time, deltas)[k].finished
    decreases |deltas|
  {
    if deltas != [] {
      var next := Advance(time, deltas[0], delay);
      ScaleSign(deltas[0], 1.0 / delay);
      var steps := Run(from, to, delay, time, deltas);
      var rest := Run(from, to, delay, next, deltas[1..]);
      assert steps == [StepAt(from, to, delay, time, deltas[0])] + rest;
      RunFinishedFrom(from, to, delay, next, deltas[1..]);
      forall k | 0 <= k < |deltas|
        ensures steps[k].finished
      {
        if 0 < k {
          assert steps[k] == rest[k - 1];
        }
      }
    }
  }

  /** With delay > 0 and non-negative deltas, finish is reported on every update after the first one that reports it. */
  lemma {:induction false} RunFinishSticks(from: real, to: real, delay: real, time: real, deltas: seq<real>, i: nat, j: nat)
    requires 0.0 < delay && NonNegative(deltas)
    requires i <= j < |deltas|
    requires Run(from, to, delay, time, deltas)[i].finished
    ensures Run(from, to, delay, time, deltas)[j].finished
    decreases |deltas|
  {
    var next := Advance(time, deltas[0], delay);
    var steps := Run(from, to, delay, time, deltas);
    var rest := Run(from, to, delay, next, deltas[1..]);
    assert steps == [StepAt(from, to, delay, time, deltas[0])] + rest;
    if i == 0 {
      if 0 < j {
        RunFinishedFrom(from, to, delay, next, deltas[1..]);
        assert steps[j] == rest[j - 1];
      }
    } else {
      assert steps[i] == rest[i - 1] && steps[j] == rest[j - 1];
      RunFinishSticks(from, to, delay, next, deltas[1..], i - 1, j - 1);
    }
  }

  /** The sum of a run's deltas. */
  function Sum(deltas: seq<real>): real
    decreases |deltas|
  {
    if deltas == [] then 0.0 else deltas[0] + Sum(deltas[1..])
  }

  /** The last update of a run finishes exactly when the starting time plus the summed deltas, in units of 1 / delay, reaches delay. */
  lemma {:induction false} RunLastFinished(from: real, to: real, delay: real, time: real, deltas: seq<real>)
    requires delay != 0.0 && deltas != []
    ensures Run(from, to, delay, time, deltas)[|deltas| - 1].finished
      == (time + Sum(deltas) * (1.0 / delay) >= delay)
    decreases |deltas|
  {
    var inv := 1.0 / delay;
    var next := Advance(time, deltas[0], delay);
    var steps := Run(from, to, delay, time, deltas);
    var rest := Run(from, to, delay, next, deltas[1..]);
    assert steps == [StepAt(from, to, delay, time, deltas[0])] + rest;
    if |deltas| == 1 {
      assert Sum(deltas) == deltas[0] + Sum([]);
    } else {
      RunLastFinished(from, to, delay, next, deltas[1..]);
      assert steps[|deltas| - 1] == rest[|deltas| - 2];
      assert (deltas[0] + Sum(deltas[1..])) * inv == deltas[0] * inv + Sum(deltas[1..]) * inv;
    }
  }

  /**
   * Over a whole run from a fresh tween with delay > 0, the last update
   * finishes exactly when the deltas sum to at least delay * delay.
   */
  lemma RunFinishThreshold(from: real, to: real, delay: real, deltas: seq<real>)
    requires 0.0 < delay && deltas != []
    ensures Run(from, to, delay, 0.0, deltas)[|deltas| - 1].finished <==> Sum(deltas) >= delay * delay
  {
    RunLastFinished(from, to, delay, 0.0, deltas);
    FinishThreshold(Sum(deltas), delay);
  }

  /**
   * A 20-degree tilt over 0.8: one update of 0.8 already reports finish while
   * still reporting `from`, and the next update overshoots `to`.
   */
  lemma TiltOvershoots()
    ensures Run(0.0, 0.349, 0.8, 0.0, [0.8, 0.1]) == [Step(0.0, true), Step(0.43625, true)]
  {
  }

  /** The notifications one update sends: the update callback, if any, with the value. */
  function UpdateNotes(callback: Option<Callback>, value: real): seq<Notification> {
    if callback.Some? then [Updated(callback.value, value)] else []
  }

  /** The finish callback, if any, when finish is reached. */
  function FinishNotes(callback: Option<Callback>, finished: bool): seq<Notification> {
    if finished && callback.Some? then [Finished(callback.value)] else []
  }

  class Lerp {
    var from: real
    var to: real
    var delay: real
    var time: real
    var value: real
    var lerpSpeed: real
    var onUpdateCallback: Option<Callback>
    var onFinishCallback: Option<Callback>
    /** Every call the callbacks have received, oldest first. */
    ghost var notifications: seq<Notification>

    ghost predicate Valid()
      reads this
    {
      delay != 0.0 && lerpSpeed == 1.0 / delay
    }

    /** The value the next update will compute. */
    ghost function NextValue(): real
      reads this
      requires Valid()
    {
      Interpolate(from, to, time / delay)
    }

    constructor (from: real, to: real, delay: real)
      requires delay != 0.0
      ensures Valid()
      ensures this.from == from && this.to == to && this.delay == delay
      ensures time == 0.0 && value == from && lerpSpeed == 1.0 / delay
      ensures NextValue() == from
      ensures onUpdateCallback == None && onFinishCallback == None && notifications == []
    {
      this.from := from;
      this.to := to;
      this.delay := delay;
      time := 0.0;
      value := from;
      lerpSpeed := 1.0 / delay;
      onUpdateCallback := None;
      onFinishCallback := None;
      notifications := [];
    }

    method Update(timeDelta: real)
      requires Valid()
      modifies this`value, this`time, this`notifications
      ensures Valid()
      ensures Step(value, time >= delay) == StepAt(from, to, delay, old(time), timeDelta)
      ensures value == old(NextValue())
      ensures old(time) == 0.0 ==> value == from
      ensures time == old(time) + timeDelta * (1.0 / delay)
      ensures notifications == old(notifications) + UpdateNotes(onUpdateCallback, value)
                                                  + FinishNotes(onFinishCallback, time >= delay)
      ensures 0.0 <= timeDelta && from <= to ==> value <= NextValue()
      ensures 0.0 <= timeDelta && to <= from ==> NextValue() <= value
      ensures 0.0 < delay && 0.0 <= timeDelta && delay <= old(time) ==> delay <= time
    {
      var t := time / delay;
      value := Interpolate(from, to, t);
      time := time + timeDelta * lerpSpeed;
      if onUpdateCallback.Some? {
        notifications := notifications + [Updated(onUpdateCallback.value, value)];
      }
      if time >= delay {
        if onFinishCallback.Some? {
          notifications := notifications + [Finished(onFinishCallback.value)];
        }
      }
      assert time == Advance(old(time), timeDelta, delay);
      assert NextValue() == Interpolate(from, to, Advance(old(time), timeDelta, delay) / delay);
      if 0.0 <= timeDelta {
        AdvanceKeepsDirection(from, to, delay, old(time), timeDelta);
      }
    }

    method OnUpdate(callback: Option<Callback>) returns (self: Lerp)
      requires Valid()
      modifies this`onUpdateCallback
      ensures self == this && onUpdateCallback == callback
      ensures Valid() && NextValue() == old(NextValue())
    {
      onUpdateCallback := callback;
      self := this;
    }

    method OnFinish(callback: Option<Callback>) returns (self: Lerp)
      requires Valid()
      modifies this`onFinishCallback
      ensures self == this && onFinishCallback == callback
      ensures Valid() && NextValue() == old(NextValue())
    {
      onFinishCallback := callback;
      self := this;
    }
  }
}
