/** `Player` (index.js:298-405): the paddle. Each frame it turns the keys held
    into impulses on its Force, `apply(-20)` for the left key and then
    `apply(20)` for the right key, updates the Force within the arena narrowed
    by half the paddle width and follows the Force's position. */
module Players {
  import opened Util
  import opened Forces

  const PaddleWidth: real := 64.0
  const PaddleHeight: real := 8.0
  /** The magnitude of the impulse one held key applies. */
  const Push: real := 20.0

  /** `keys && keys[code]`: the key table says the key is down. A code never
      pressed is absent from the table. */
  predicate Held(keys: map<int, bool>, code: int) {
    code in keys && keys[code]
  }

  /** The two conditional `apply` calls of `move` (index.js:350-355), left
      first, then right. */
  function PressKeys(s: ForceState, keys: map<int, bool>, left: int, right: int): ForceState {
    var afterLeft := if Held(keys, left) then ApplyForce(s, -Push) else s;
    if Held(keys, right) then ApplyForce(afterLeft, Push) else afterLeft
  }

  /** The Force after a whole `move`: the key impulses, then `update` with the
      bounds `[minx + 32, maxx - 32]` (index.js:349-360). */
  function MoveForce(s: ForceState, bounds: Box, keys: map<int, bool>, left: int, right: int): ForceState {
    UpdateForce(PressKeys(s, keys, left, right), bounds.minx + PaddleWidth / 2.0, bounds.maxx - PaddleWidth / 2.0)
  }

  /** What the keys do to the Force: no key leaves it untouched; any key
      raises the start flag; the force is the right key's `+20` whenever the
      right key is down and `-20` when only the left key is; a held key ramps
      the timer once, and with both keys down it is ramped twice. */
  lemma PressKeysEffect(s: ForceState, keys: map<int, bool>, left: int, right: int)
    requires Inv(s)
    ensures var r := PressKeys(s, keys, left, right);
      && Inv(r)
      && (!Held(keys, left) && !Held(keys, right) ==> r == s)
      && (Held(keys, left) || Held(keys, right) ==> r.start)
      && (Held(keys, right) ==> r.force == Push)
      && (Held(keys, left) && !Held(keys, right) ==> r.force == -Push)
      && (Held(keys, left) != Held(keys, right) ==> r.time == Ramp(s.time))
      && (Held(keys, left) && Held(keys, right) ==> r.time == Ramp(Ramp(s.time)))
      && r.position == s.position && r.rotation == s.rotation
  {
    if Held(keys, left) {
      ApplyKeepsInv(s, -Push);
      if Held(keys, right) {
        ApplyKeepsInv(ApplyForce(s, -Push), Push);
      }
    } else if Held(keys, right) {
      ApplyKeepsInv(s, Push);
    }
  }

  /** A `move` keeps the Force's invariant, leaves its start flag clear, and
      keeps the whole paddle inside the arena whenever the arena is at least
      as wide as the paddle. With no key down the paddle coasts: the force is
      kept and the timer decays by one step. */
  lemma MoveKeepsPaddleInside(s: ForceState, bounds: Box, keys: map<int, bool>, left: int, right: int)
    requires Inv(s) && !s.start
    ensures var r := MoveForce(s, bounds, keys, left, right);
      && Inv(r) && !r.start
      && (bounds.maxx - bounds.minx >= PaddleWidth ==>
            bounds.minx <= r.position - PaddleWidth / 2.0 && r.position + PaddleWidth / 2.0 <= bounds.maxx)
      && (!Held(keys, left) && !Held(keys, right) ==> r.force == s.force && r.time == Decay(s.time))
  {
    var p := PressKeys(s, keys, left, right);
    PressKeysEffect(s, keys, left, right);
    UpdateKeepsInv(p, bounds.minx + PaddleWidth / 2.0, bounds.maxx - PaddleWidth / 2.0);
  }

  /** A Player; its Force is its own and is never replaced. */
  class Player {
    var x: real
    const y: real
    const leftKey: int
    const rightKey: int
    const force: Force
    /** How often the paddle was flashed by `hit`; the timed revert of the
        highlight is not modelled. */
    var flashes: nat

    /** The paddle is drawn where its Force is, and between frames no impulse
        is pending. */
    ghost predicate Valid()
      reads this, force
    {
      force.Valid() && x == force.position && !force.start
    }

    /** `new Player(parent, data)` (index.js:298-347). */
    constructor (width: real, height: real, leftKey: int, rightKey: int)
      ensures Valid() && fresh(force)
      ensures x == width / 2.0 && y == height - PaddleHeight * 4.0
      ensures this.leftKey == leftKey && this.rightKey == rightKey
      ensures force.State() == Initial(width / 2.0) && flashes == 0
    {
      x := width / 2.0;
      y := height - PaddleHeight * 4.0;
      this.leftKey := leftKey;
      this.rightKey := rightKey;
      force := new Force(width / 2.0);
      flashes := 0;
    }

    /** `move(bounds, keys)` (index.js:349-367). */
    method Move(bounds: Box, keys: map<int, bool>)
      requires Valid()
      modifies this, force
      ensures Valid()
      ensures force.State() == MoveForce(old(force.State()), bounds, keys, leftKey, rightKey)
      ensures flashes == old(flashes)
      ensures bounds.maxx - bounds.minx >= PaddleWidth ==>
        bounds.minx <= Feature().minx && Feature().maxx <= bounds.maxx
    {
      if Held(keys, leftKey) {
        force.Apply(-Push);
      }
      if Held(keys, rightKey) {
        force.Apply(Push);
      }
      force.Update(bounds.minx + PaddleWidth / 2.0, bounds.maxx - PaddleWidth / 2.0);
      x := force.position;
      MoveKeepsPaddleInside(old(force.State()), bounds, keys, leftKey, rightKey);
    }

    /** `feature()` (index.js:369-389): the paddle's box, 64 wide and 8 high,
        centred on the paddle. */
    function Feature(): (b: Box)
      reads this
      ensures b.maxx - b.minx == PaddleWidth && b.maxy - b.miny == PaddleHeight
      ensures b.Contains(Pos(x, y))
    {
      BoxAround(Pos(x, y), PaddleWidth / 2.0, PaddleHeight / 2.0)
    }

    /** `rotation()` (index.js:391-393): the Force's lean, at most 45 degrees
        either way. */
    function Rotation(): (r: real)
      reads this, force
      requires Valid()
      ensures -MaxLean <= r <= MaxLean
    {
      force.Rotation()
    }

    /** `hit()` (index.js:395-405): flashes the paddle and moves nothing. */
    method Hit()
      requires Valid()
      modifies this
      ensures Valid()
      ensures flashes == old(flashes) + 1
      ensures x == old(x)
    {
      flashes := flashes + 1;
    }
  }
}
