/** `Force` (index.js:254-296): the damped-impulse actuator that moves the
    paddle. A key held down ramps up an impulse timer; `update` turns force and
    timer into a displacement, lets the timer decay when no impulse arrived
    since the previous update, derives a lean angle clamped to 45 degrees either
    way and clamps the position to the bounds it is given.

    Arithmetic is over `real`: the model says nothing about the rounding of
    the source's repeated `+ 0.2` and `- 0.1` on doubles. */
module Forces {
  import opened Util

  const Mass: real := 100.0
  /** `apply` ramps the timer only while it is below this. */
  const RampLimit: real := 20.0
  const RampStep: real := 0.2
  const DecayStep: real := 0.1
  const MaxLean: real := 45.0

  /** The fields of a Force: `_position`, `_rotation`, `_time`, `_force`,
      `_delta` and `_start` (undefined, hence false, until the first `apply`). */
  datatype ForceState = ForceState(position: real, rotation: real, time: real, force: real, delta: real, start: bool)

  /** The range invariant every reachable state keeps: the timer never goes
      negative and overshoots the ramp limit by less than one step, the lean
      is at most 45 degrees either way. */
  predicate Inv(s: ForceState) {
    0.0 <= s.time < RampLimit + RampStep && -MaxLean <= s.rotation <= MaxLean
  }

  /** A new Force at `position` (index.js:254-261). */
  function Initial(position: real): (s: ForceState)
    ensures Inv(s) && !s.start
  {
    ForceState(position, 0.0, 0.0, 0.0, 0.0, false)
  }

  /** The two clamps of index.js:285-286, in the source's order: below the
      lower bound gives the lower bound, then above the upper bound gives the
      upper bound. */
  function Clamp(v: real, lo: real, hi: real): real {
    var above := if v < lo then lo else v;
    if above > hi then hi else above
  }

  /** The clamped value never exceeds the upper bound, lies in the bounds
      whenever they are non-empty, and is the value itself when that already
      lies in them. */
  lemma ClampWithin(v: real, lo: real, hi: real)
    ensures Clamp(v, lo, hi) <= hi
    ensures lo <= hi ==> lo <= Clamp(v, lo, hi)
    ensures lo <= v <= hi ==> Clamp(v, lo, hi) == v
    ensures lo <= hi && v < lo ==> Clamp(v, lo, hi) == lo
  {
  }

  /** The lean of index.js:279-283: `delta * time`, replaced by
      `sign(delta) * 45` when its magnitude exceeds 45. For a non-negative
      timer this is `delta * time` clamped to `[-45, 45]`. */
  function Lean(delta: real, time: real): (r: real)
    ensures -MaxLean <= r <= MaxLean
  {
    var rotation := delta * time;
    if Abs(rotation) > MaxLean then Sign(delta) * MaxLean else rotation
  }

  /** With a non-negative timer the lean keeps the sign of `delta * time`, so
      it is `delta * time` clamped to `[-45, 45]`. */
  lemma LeanIsClamp(delta: real, time: real)
    requires time >= 0.0
    ensures Lean(delta, time) == Clamp(delta * time, -MaxLean, MaxLean)
  {
    var rotation := delta * time;
    if rotation > MaxLean {
      assert delta > 0.0;
    } else if rotation < -MaxLean {
      assert delta < 0.0;
    }
  }

  /** `_force * _time / _mass`: the displacement of one update. */
  function Displacement(force: real, time: real): real {
    force * time / Mass
  }

  /** The timer after an update with no `apply` since the previous one:
      down one step, floored at zero (index.js:273-278). */
  function Decay(time: real): (t: real)
    ensures t == (if time - DecayStep <= 0.0 then 0.0 else time - DecayStep)
    ensures time >= 0.0 ==> 0.0 <= t <= time
    ensures time > 0.0 ==> t < time
  {
    var t := time - DecayStep;
    if t <= 0.0 then 0.0 else t
  }

  /** The timer after one `apply`: up one step while below the ramp limit. */
  function Ramp(time: real): real {
    if time < RampLimit then time + RampStep else time
  }

  /** `apply(force)` (index.js:263-269). */
  function ApplyForce(s: ForceState, force: real): (r: ForceState)
  {
    s.(time := Ramp(s.time), force := force, start := true)
  }

  /** `update(bounds)` with `bounds = [lo, hi]` (index.js:271-288). The
      displacement uses the timer as it was, the lean the decayed timer. */
  function UpdateForce(s: ForceState, lo: real, hi: real): (r: ForceState)
  {
    var delta := Displacement(s.force, s.time);
    var time := if s.start then s.time else Decay(s.time);
    ForceState(Clamp(s.position + delta, lo, hi), Lean(delta, time), time, s.force, delta, false)
  }

  /** `apply` ramps the timer by one step only while it is below 20, records
      the force, raises the start flag, and keeps the invariant. */
  lemma ApplyKeepsInv(s: ForceState, force: real)
    requires Inv(s)
    ensures var r := ApplyForce(s, force);
      && Inv(r) && r.start && r.force == force
      && r.time == (if s.time < RampLimit then s.time + RampStep else s.time)
      && r.position == s.position && r.rotation == s.rotation && r.delta == s.delta
  {
  }

  /** `update` keeps the invariant, leaves the position inside non-empty
      bounds and always at most the upper bound, decays the timer only when no
      `apply` came since the previous update, and always clears the start
      flag. */
  lemma UpdateKeepsInv(s: ForceState, lo: real, hi: real)
    requires Inv(s)
    ensures var r := UpdateForce(s, lo, hi);
      && Inv(r) && !r.start && r.force == s.force
      && (s.start ==> r.time == s.time)
      && (!s.start ==> r.time == Decay(s.time))
      && r.position <= hi
      && (lo <= hi ==> lo <= r.position)
      && (lo <= s.position + r.delta <= hi ==> r.position == s.position + r.delta)
  {
    ClampWithin(s.position + Displacement(s.force, s.time), lo, hi);
  }

  /** `k` updates with no `apply` in between. */
  function Coast(s: ForceState, lo: real, hi: real, k: nat): ForceState
  {
    if k == 0 then s else UpdateForce(Coast(s, lo, hi, k - 1), lo, hi)
  }

  function Max(a: real, b: real): real {
    if a < b then b else a
  }

  /** Without `apply`, each update lowers the timer by one step until it
      reaches zero, and the force stays what the last `apply` set. */
  lemma {:induction false} CoastTime(s: ForceState, lo: real, hi: real, k: nat)
    requires !s.start && s.time >= 0.0
    ensures Coast(s, lo, hi, k).time == Max(0.0, s.time - DecayStep * k as real)
    ensures !Coast(s, lo, hi, k).start && Coast(s, lo, hi, k).force == s.force
  {
    if k > 0 {
      CoastTime(s, lo, hi, k - 1);
    }
  }

  /** Once the keys are released the paddle settles: after 203 updates the
      timer and the lean are zero and the displacement is zero, so the paddle
      stops where it is. */
  lemma CoastSettles(s: ForceState, lo: real, hi: real, k: nat)
    requires Inv(s) && !s.start
    requires k >= 203
    ensures var c := Coast(s, lo, hi, k);
      c.time == 0.0 && c.rotation == 0.0 && c.delta == 0.0
    ensures lo <= hi ==> Coast(s, lo, hi, k + 1).position == Coast(s, lo, hi, k).position
  {
    CoastTime(s, lo, hi, k - 1);
    CoastTime(s, lo, hi, k);
    var c := Coast(s, lo, hi, k);
    var prev := Coast(s, lo, hi, k - 1);
    assert prev.time == 0.0;
    assert c == UpdateForce(prev, lo, hi);
    if lo <= hi {
      assert prev == UpdateForce(Coast(s, lo, hi, k - 2), lo, hi);
      assert lo <= prev.position <= hi;
      assert lo <= c.position <= hi;
    }
  }

  lemma LeanMonotone(a: real, b: real)
    requires Abs(a) <= Abs(b)
    ensures Abs(Clamp(a, -MaxLean, MaxLean)) <= Abs(Clamp(b, -MaxLean, MaxLean))
    ensures Abs(a) < Abs(b) && Abs(b) <= MaxLean ==>
      Abs(Clamp(a, -MaxLean, MaxLean)) < Abs(Clamp(b, -MaxLean, MaxLean))
  {
  }

  /** While the paddle coasts, its lean never grows; it strictly shrinks as
      long as a force was applied, the timer has not reached zero and the
      lean is below the 45-degree cap. */
  lemma CoastLeanShrinks(s: ForceState, lo: real, hi: real)
    requires Inv(s) && !s.start
    ensures var u1 := UpdateForce(s, lo, hi);
      var u2 := UpdateForce(u1, lo, hi);
      && Abs(u2.rotation) <= Abs(u1.rotation)
      && (s.force != 0.0 && u1.time > 0.0 && Abs(u1.rotation) < MaxLean ==> Abs(u2.rotation) < Abs(u1.rotation))
  {
    var t1 := Decay(s.time);
    LeanShrinks(s.force, s.time, t1, Decay(t1));
  }

  lemma LeanShrinks(f: real, t0: real, t1: real, t2: real)
    requires 0.0 <= t2 <= t1 <= t0 && (t1 > 0.0 ==> t2 < t0)
    ensures Abs(Lean(Displacement(f, t1), t2)) <= Abs(Lean(Displacement(f, t0), t1))
    ensures f != 0.0 && t1 > 0.0 && Abs(Lean(Displacement(f, t0), t1)) < MaxLean ==>
      Abs(Lean(Displacement(f, t1), t2)) < Abs(Lean(Displacement(f, t0), t1))
  {
    ProductShrinks(f, t0, t1, t2);
    LeanOrder(Displacement(f, t1), t2, Displacement(f, t0), t1);
  }

  /** A smaller raw lean `delta * time` never gives a larger capped lean. */
  lemma LeanOrder(da: real, ta: real, db: real, tb: real)
    requires 0.0 <= ta && 0.0 <= tb && Abs(da * ta) <= Abs(db * tb)
    ensures Abs(Lean(da, ta)) <= Abs(Lean(db, tb))
    ensures Abs(da * ta) < Abs(db * tb) && Abs(Lean(db, tb)) < MaxLean ==> Abs(Lean(da, ta)) < Abs(Lean(db, tb))
  {
    LeanIsClamp(da, ta);
    LeanIsClamp(db, tb);
    LeanMonotone(da * ta, db * tb);
  }

  /** `|f * t1 / 100 * t2| <= |f * t0 / 100 * t1|` for timers
      `0 <= t2 <= t1 <= t0`, strictly when `f`, `t1` are non-zero and
      `t2 < t0`. */
  lemma ProductShrinks(f: real, t0: real, t1: real, t2: real)
    requires 0.0 <= t2 <= t1 <= t0
    ensures Abs(Displacement(f, t1) * t2) <= Abs(Displacement(f, t0) * t1)
    ensures f != 0.0 && t1 > 0.0 && t2 < t0 ==> Abs(Displacement(f, t1) * t2) < Abs(Displacement(f, t0) * t1)
  {
    var c := Abs(f) / Mass;
    assert Abs(Displacement(f, t1) * t2) == c * (t1 * t2);
    assert Abs(Displacement(f, t0) * t1) == c * (t1 * t0);
    assert t1 * t2 <= t1 * t0;
    if f != 0.0 && t1 > 0.0 && t2 < t0 {
      assert t1 * t2 < t1 * t0;
      assert c > 0.0;
    }
  }

  /** A Force object; `State()` is its fields as a value. */
  class Force {
    var position: real
    var rotation: real
    var time: real
    var force: real
    var delta: real
    var start: bool

    function State(): ForceState
      reads this
    {
      ForceState(position, rotation, time, force, delta, start)
    }

    ghost predicate Valid()
      reads this
    {
      Inv(State())
    }

    constructor (position: real)
      ensures Valid() && State() == Initial(position)
    {
      this.position := position;
      rotation := 0.0;
      time := 0.0;
      force := 0.0;
      delta := 0.0;
      start := false;
    }

    method Apply(f: real)
      requires Valid()
      modifies this
      ensures Valid()
      ensures State() == ApplyForce(old(State()), f)
    {
      if time < RampLimit {
        time := time + RampStep;
      }
      force := f;
      start := true;
      ApplyKeepsInv(old(State()), f);
    }

    method Update(lo: real, hi: real)
      requires Valid()
      modifies this
      ensures Valid()
      ensures State() == UpdateForce(old(State()), lo, hi)
      ensures lo <= hi ==> lo <= position <= hi
      ensures -MaxLean <= rotation <= MaxLean
    {
      delta := Displacement(force, time);
      if !start {
        time := Decay(time);
      }
      rotation := Lean(delta, time);
      position := Clamp(position + delta, lo, hi);
      start := false;
      UpdateKeepsInv(old(State()), lo, hi);
    }

    /** `rotation()`: the current lean, at most 45 degrees either way. */
    function Rotation(): (r: real)
      reads this
      requires Valid()
      ensures -MaxLean <= r <= MaxLean
    {
      rotation
    }
  }
}
