/** `Geometry` (index.js:68-121): one shape of the map wall. Its `collide`
    is a three-state machine: an intact shape that the ball touches turns the
    ball, is marked struck and reports its feature; on the next call a struck
    shape is removed; a removed shape never reports again.

    Whether a point lies in the shape (turf's point-in-polygon test) is a
    parameter `inside`. */
module Shapes {
  import opened Util
  import opened GeoJson
  import opened Balls

  /** `_collide` and `_removed` as one state: `Intact` (neither set),
      `Struck` (`_collide` only), `Removed` (both). */
  datatype Phase = Intact | Struck | Removed

  /** One `collide` call on a shape in phase `p`, given whether the ball
      touches it: the next phase, and whether the feature is returned. */
  function Step(p: Phase, touched: bool): (Phase, bool) {
    match p
    case Intact => if touched then (Struck, true) else (Intact, false)
    case Struck => (Removed, false)
    case Removed => (Removed, false)
  }

  /** A shape is returned exactly when it is intact and touched; the call
      after that removes it; a removed shape stays removed and silent; an
      intact shape that is not touched stays as it is. */
  lemma StepFacts(p: Phase, touched: bool)
    ensures Step(p, touched).1 <==> p == Intact && touched
    ensures p == Struck ==> Step(p, touched) == (Removed, false)
    ensures p == Removed ==> Step(p, touched) == (Removed, false)
    ensures p == Intact && !touched ==> Step(p, touched) == (Intact, false)
  {
  }

  /** A sequence of `collide` calls, one per frame: the final phase and how
      many times the feature was returned. */
  function Run(p: Phase, touches: seq<bool>): (Phase, nat)
    decreases |touches|
  {
    if touches == [] then (p, 0)
    else
      var (q, reported) := Step(p, touches[0]);
      var (last, n) := Run(q, touches[1..]);
      (last, n + if reported then 1 else 0)
  }

  /** A shape reports its feature at most once in its lifetime, and it does
      so exactly when it starts intact and is touched on some frame. */
  lemma {:induction false} RunReportsOnce(p: Phase, touches: seq<bool>)
    ensures Run(p, touches).1 <= 1
    ensures Run(p, touches).1 == 1 <==> p == Intact && exists i :: 0 <= i < |touches| && touches[i]
    decreases |touches|
  {
    if touches != [] {
      var q := Step(p, touches[0]).0;
      RunReportsOnce(q, touches[1..]);
      if p == Intact && touches[0] {
        RemovedIsSilent(touches[1..]);
      }
      if p == Intact && !touches[0] {
        assert forall i :: 1 <= i < |touches| ==> touches[i] == touches[1..][i - 1];
      }
    }
  }

  /** Once removed, a shape stays removed and never reports again. */
  lemma {:induction false} RemovedIsSilent(touches: seq<bool>)
    ensures Run(Removed, touches) == (Removed, 0)
    ensures Run(Struck, touches).1 == 0
  {
    if touches != [] {
      RemovedIsSilent(touches[1..]);
    }
  }

  /** `ballPolygon.geometry.coordinates[0].filter(...)`: the corners that
      lie in the shape, in order. */
  function Hits(corners: seq<Pos>, feature: Feature, inside: (Pos, Feature) -> bool): seq<Pos> {
    if corners == [] then []
    else (if inside(corners[0], feature) then [corners[0]] else []) + Hits(corners[1..], feature, inside)
  }

  /** The filter keeps exactly the corners inside the shape, and no more
      of them than there are. */
  lemma {:induction false} HitsFacts(corners: seq<Pos>, feature: Feature, inside: (Pos, Feature) -> bool)
    ensures |Hits(corners, feature, inside)| <= |corners|
    ensures forall p :: p in Hits(corners, feature, inside) <==> p in corners && inside(p, feature)
  {
    if corners != [] {
      HitsFacts(corners[1..], feature, inside);
      assert corners == [corners[0]] + corners[1..];
    }
  }

  /** The test of index.js:98-101: a corner of the ball's half-size box lies
      in the shape, or the ball's centre does. */
  function Touched(center: Pos, feature: Feature, inside: (Pos, Feature) -> bool): bool {
    |Hits(Corners(BallBox(center, false)), feature, inside)| > 0 || inside(center, feature)
  }

  /** The ball touches a shape exactly when one of the four corners of its
      half-size box, or its centre, is in the shape. */
  lemma TouchedIff(center: Pos, feature: Feature, inside: (Pos, Feature) -> bool)
    ensures Touched(center, feature, inside) <==>
      (exists i :: 0 <= i < 4 && inside(Corners(BallBox(center, false))[i], feature)) || inside(center, feature)
  {
    var corners := Corners(BallBox(center, false));
    var hits := Hits(corners, feature, inside);
    HitsFacts(corners, feature, inside);
    if |hits| > 0 {
      assert hits[0] in hits;
      var i :| 0 <= i < 4 && corners[i] == hits[0];
    }
    if exists i :: 0 <= i < 4 && inside(corners[i], feature) {
      var i :| 0 <= i < 4 && inside(corners[i], feature);
      assert corners[i] in hits;
    }
  }

  /** A shape of the wall; its feature and rebound heading are fixed when it
      is built. */
  class Geometry {
    const feature: Feature
    /** `Math.random() * 360`: the heading a hit gives the ball. */
    const rotation: real
    /** The flags `_collide` and `_removed` together; the combination
        "removed but never struck" does not occur. */
    var phase: Phase

    /** `new Geometry(parent, feature)` (index.js:68-93), with the random
        rebound heading given. The path built for drawing is not modelled. */
    constructor (feature: Feature, rotation: real)
      ensures phase == Intact
      ensures this.feature == feature && this.rotation == rotation
    {
      this.feature := feature;
      this.rotation := rotation;
      phase := Intact;
    }

    /** `collide(ball)` (index.js:95-121). */
    method Collide(ball: Ball, inside: (Pos, Feature) -> bool) returns (r: Option<Feature>)
      modifies this, ball
      ensures (phase, r.Some?) == Step(old(phase), Touched(old(ball.Position()), feature, inside))
      ensures r.Some? ==> r.value == feature
      ensures ball.State() == if r.Some? then RotateBall(old(ball.State()), rotation) else old(ball.State())
      ensures ball.Position() == old(ball.Position()) && ball.stop == old(ball.stop)
    {
      var hit := Hits(Corners(ball.Feature(false)), feature, inside);
      if phase == Intact && (|hit| > 0 || inside(ball.Position(), feature)) {
        ball.Rotate(rotation);
        phase := Struck;
        return Some(feature);
      }
      if phase == Struck {
        phase := Removed;
      }
      return None;
    }
  }
}
