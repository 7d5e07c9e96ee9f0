/** `Ball` (index.js:123-252): the ball moves a fixed step along its heading
    each frame, rebounds off the left, top and right walls of the arena, is
    lost through the bottom, and is redirected by shapes (`rotate`) and by the
    paddle (`collide`).

    The heading's sine and cosine, the random rebound error and the turf
    overlap test are foreign to the model and come in as parameters. The
    source's random tags `Math.random() + 'HIT'` and `Math.random() + 'PLAYER'`
    are the tags `Rotated` and `Paddle`: what the code relies on is only that
    they never equal a wall's tag. */
module Balls {
  import opened Util
  import opened Players

  const Radius: real := 12.0
  const Speed: real := 6.0
  /** How far below the bottom edge, in radii, the ball is given up. */
  const LostDepth: real := 20.0
  /** The half-width of the random rebound error `Math.random() * 10 - 5`. */
  const MaxJitter: real := 5.0

  /** The wall tags. The source names them after where the ball goes next:
      crossing `maxx` tags `'LEFT'`, crossing `minx` tags `'RIGHT'`. */
  datatype Side = Left | Top | Right | Bottom

  /** `_hit`: undefined at first, a wall's name after a wall contact, a fresh
      random string after `rotate` or a paddle hit. */
  datatype Tag = Unset | Wall(side: Side) | Rotated | Paddle

  /** The outcome of the edge checks: the final tag and the rebound heading
      chosen with it (meaningless for `Bottom`). */
  datatype Contact = Contact(side: Side, rebound: real)

  /** The disc of radius 12 at `next` sticks out of the box. */
  predicate OutOfBounds(next: Pos, b: Box) {
    next.x + Radius > b.maxx || next.y - Radius < b.miny || next.x - Radius < b.minx || next.y + Radius > b.maxy
  }

  /** The four edge checks of index.js:197-207 in the source's order; a later
      check that fires overwrites the tag and heading of an earlier one. The
      rebound depends on the direction of travel from `prev` to `next`. */
  function EdgeContact(prev: Pos, next: Pos, b: Box): (c: Option<Contact>)
    ensures c.None? <==> !OutOfBounds(next, b)
    ensures c.Some? ==> (c.value.side == Bottom <==> next.y + Radius > b.maxy)
    ensures c.Some? ==> (c.value.side == Right <==> next.x - Radius < b.minx && next.y + Radius <= b.maxy)
    ensures c.Some? ==> (c.value.side == Top <==>
      next.y - Radius < b.miny && next.x - Radius >= b.minx && next.y + Radius <= b.maxy)
    ensures c.Some? && c.value.side == Left ==> next.x + Radius > b.maxx
    ensures c.Some? && c.value.side == Left ==> c.value.rebound == (if next.y < prev.y then -45.0 else -135.0)
    ensures c.Some? && c.value.side == Top ==> c.value.rebound == (if next.x < prev.x then -135.0 else 135.0)
    ensures c.Some? && c.value.side == Right ==> c.value.rebound == (if next.y < prev.y then 45.0 else -225.0)
  {
    if !OutOfBounds(next, b) then None
    else
      var c1 := if next.x + Radius > b.maxx
        then Contact(Left, if Sign(next.y - prev.y) < 0.0 then -45.0 else -135.0)
        else Contact(Bottom, 0.0);
      var c2 := if next.y - Radius < b.miny
        then Contact(Top, if Sign(next.x - prev.x) < 0.0 then -135.0 else 135.0)
        else c1;
      var c3 := if next.x - Radius < b.minx
        then Contact(Right, if Sign(next.y - prev.y) < 0.0 then 45.0 else -225.0)
        else c2;
      Some(if next.y + Radius > b.maxy then c3.(side := Bottom) else c3)
  }

  /** The fields `_x`, `_y`, `_rotation`, `_hit`, `_stop` of a Ball. */
  datatype BallState = BallState(x: real, y: real, rotation: real, hit: Tag, stop: bool)

  /** `new Ball(parent, data)` (index.js:123-163). */
  function InitialBall(width: real, height: real): (s: BallState)
    ensures !s.stop && s.hit == Unset && s.rotation == 45.0
    ensures s.x == width / 2.0 && s.y + Radius * 6.0 == height
  {
    BallState(width / 2.0, height - Radius * 6.0, 45.0, Unset, false)
  }

  /** `move(bounds)` (index.js:177-218). `heading` is `(sin, cos)` of the
      current rotation; `jitter` is the random rebound error. */
  function MoveBall(s: BallState, b: Box, heading: Pos, jitter: real): BallState {
    if s.stop then s
    else
      var next := Pos(s.x + heading.x * Speed, s.y - heading.y * Speed);
      match EdgeContact(Pos(s.x, s.y), next, b)
      case None => s.(x := next.x, y := next.y)
      case Some(c) =>
        var tag := Wall(c.side);
        BallState(next.x, next.y,
                  if c.side != Bottom && s.hit != tag then c.rebound + jitter else s.rotation,
                  tag,
                  next.y + Radius > b.maxy + Radius * LostDepth)
  }

  /** `rotate(rotation)` (index.js:172-175). */
  function RotateBall(s: BallState, rotation: real): BallState {
    s.(rotation := rotation, hit := Rotated)
  }

  /** `collide(player)` (index.js:244-252), given the verdict of the overlap
      test and the paddle's lean. */
  function CollideBall(s: BallState, overlapping: bool, lean: real): BallState {
    if overlapping then s.(rotation := lean, hit := Paddle) else s
  }

  /** `feature(full)` (index.js:220-241): the square of half-side `radius`
      (`full`) or `radius / 2` around the centre. */
  function BallBox(center: Pos, full: bool): Box {
    var half := Radius * (if full then 1.0 else 0.5);
    BoxAround(center, half, half)
  }

  /** The ball's box is a square around its centre, of side one diameter
      (`full`) or one radius. */
  lemma BallBoxFacts(center: Pos, full: bool)
    ensures var b := BallBox(center, full);
      && b.Contains(center)
      && b.maxx - b.minx == b.maxy - b.miny == (if full then 2.0 * Radius else Radius)
  {
  }

  /** A stopped ball stays where it is: `move` returns at once, and nothing
      that can happen to the ball clears the flag. */
  lemma StopIsFinal(s: BallState, b: Box, heading: Pos, jitter: real, rotation: real, overlapping: bool, lean: real)
    requires s.stop
    ensures MoveBall(s, b, heading, jitter) == s
    ensures RotateBall(s, rotation).stop && CollideBall(s, overlapping, lean).stop
  {
  }

  /** A moving ball always takes its step, and it is given up exactly when the
      step leaves its lower edge more than 20 radii below the arena. */
  lemma MoveCommits(s: BallState, b: Box, heading: Pos, jitter: real)
    requires !s.stop
    ensures var r := MoveBall(s, b, heading, jitter);
      && r.x == s.x + heading.x * Speed && r.y == s.y - heading.y * Speed
      && (r.stop <==> r.y + Radius > b.maxy + Radius * LostDepth)
  {
  }

  /** When the heading changes in a `move`: only at a contact whose final tag
      is not `Bottom` and differs from the previous tag; the new heading is
      then the wall's rebound angle off by at most five degrees. Without a
      contact the heading and tag are kept; with one the tag is that wall's. */
  lemma MoveRedirects(s: BallState, b: Box, heading: Pos, jitter: real)
    requires !s.stop && -MaxJitter <= jitter < MaxJitter
    ensures var next := Pos(s.x + heading.x * Speed, s.y - heading.y * Speed);
      var c := EdgeContact(Pos(s.x, s.y), next, b);
      var r := MoveBall(s, b, heading, jitter);
      && (c.None? ==> r.rotation == s.rotation && r.hit == s.hit && !r.stop)
      && (c.Some? ==> r.hit == Wall(c.value.side))
      && (c.Some? && c.value.side != Bottom && s.hit != Wall(c.value.side) ==>
            c.value.rebound - MaxJitter <= r.rotation < c.value.rebound + MaxJitter)
      && (r.rotation != s.rotation ==>
            c.Some? && c.value.side != Bottom && s.hit != Wall(c.value.side) && r.rotation == c.value.rebound + jitter)
  {
  }

  /** The tag suppresses re-triggering: a ball that is still beyond the same
      wall on the next frame keeps the heading it was given. */
  lemma NoRetrigger(s: BallState, b: Box, h1: Pos, h2: Pos, j1: real, j2: real)
    requires !s.stop
    requires var r1 := MoveBall(s, b, h1, j1);
      var first := EdgeContact(Pos(s.x, s.y), Pos(r1.x, r1.y), b);
      var second := EdgeContact(Pos(r1.x, r1.y), Pos(r1.x + h2.x * Speed, r1.y - h2.y * Speed), b);
      first.Some? && second.Some? && first.value.side == second.value.side
    ensures var r1 := MoveBall(s, b, h1, j1);
      MoveBall(r1, b, h2, j2).rotation == r1.rotation
  {
    MoveCommits(s, b, h1, j1);
  }

  /** After a shape or the paddle turned the ball, the next contact with the
      left, top or right wall always rebounds it. */
  lemma FreshTagRebounds(s: BallState, b: Box, heading: Pos, jitter: real)
    requires !s.stop && (s.hit == Rotated || s.hit == Paddle || s.hit == Unset)
    requires var c := EdgeContact(Pos(s.x, s.y), Pos(s.x + heading.x * Speed, s.y - heading.y * Speed), b);
      c.Some? && c.value.side != Bottom
    ensures var c := EdgeContact(Pos(s.x, s.y), Pos(s.x + heading.x * Speed, s.y - heading.y * Speed), b);
      MoveBall(s, b, heading, jitter).rotation == c.value.rebound + jitter
  {
  }

  /** A Ball; `State()` is its fields as a value. */
  class Ball {
    var x: real
    var y: real
    var rotation: real
    var hit: Tag
    var stop: bool

    function State(): BallState
      reads this
    {
      BallState(x, y, rotation, hit, stop)
    }

    constructor (width: real, height: real)
      ensures State() == InitialBall(width, height)
    {
      x := width / 2.0;
      y := height - Radius * 6.0;
      rotation := 45.0;
      hit := Unset;
      stop := false;
    }

    /** `position()` (index.js:165-170). */
    function Position(): Pos
      reads this
    {
      Pos(x, y)
    }

    /** `feature(full)` (index.js:220-241). */
    function Feature(full: bool): (b: Box)
      reads this
      ensures b.Contains(Position())
    {
      BallBoxFacts(Position(), full);
      BallBox(Position(), full)
    }

    /** `rotate(rotation)` (index.js:172-175). */
    method Rotate(rotation: real)
      modifies this
      ensures State() == RotateBall(old(State()), rotation)
    {
      this.rotation := rotation;
      hit := Rotated;
    }

    /** `move(bounds)` (index.js:177-218); `heading` gives `(sin, cos)` of a
        rotation in degrees. */
    method Move(bounds: Box, heading: real -> Pos, jitter: real)
      requires -MaxJitter <= jitter < MaxJitter
      modifies this
      ensures State() == MoveBall(old(State()), bounds, heading(old(rotation)), jitter)
    {
      if stop {
        return;
      }
      var h := heading(rotation);
      var nx := x + h.x * Speed;
      var ny := y - h.y * Speed;
      var contact := EdgeContact(Pos(x, y), Pos(nx, ny), bounds);
      if contact.Some? {
        var tag := Wall(contact.value.side);
        if ny + Radius > bounds.maxy + Radius * LostDepth {
          stop := true;
        }
        if contact.value.side != Bottom && hit != tag {
          rotation := contact.value.rebound + jitter;
        }
        hit := tag;
      }
      x := nx;
      y := ny;
    }

    /** `collide(player)` (index.js:244-252); `overlap` is the turf test on
        the ball's full box and the paddle's box. */
    method Collide(player: Player, overlap: (Box, Box) -> bool)
      requires player.Valid()
      modifies this, player
      ensures player.Valid() && player.x == old(player.x)
      ensures var touching := overlap(old(Feature(true)), old(player.Feature()));
        && State() == CollideBall(old(State()), touching, old(player.Rotation()))
        && player.flashes == old(player.flashes) + (if touching then 1 else 0)
    {
      if overlap(Feature(true), player.Feature()) {
        hit := Paddle;
        rotation := player.Rotation();
        player.Hit();
      }
    }
  }
}
