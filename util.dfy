/** Values shared by every part of the game: planar points, axis-aligned boxes,
    an optional value, and the linear range mapping `map` of index.js. */
module Util {

  /** A planar coordinate pair `[x, y]`; also used for a displacement. */
  datatype Pos = Pos(x: real, y: real)

  /** An axis-aligned box, in the order of the source's bounds arrays
      `[minx, miny, maxx, maxy]`. */
  datatype Box = Box(minx: real, miny: real, maxx: real, maxy: real)
  {
    /** True when `p` lies in the closed box. */
    predicate Contains(p: Pos) {
      minx <= p.x <= maxx && miny <= p.y <= maxy
    }
  }

  /** `null` / a value. */
  datatype Option<T> = None | Some(value: T)

  function Abs(v: real): real {
    if v < 0.0 then -v else v
  }

  /** `Math.sign` on a non-NaN number. */
  function Sign(v: real): (r: real)
    ensures r < 0.0 <==> v < 0.0
    ensures r > 0.0 <==> v > 0.0
    ensures r == -1.0 || r == 0.0 || r == 1.0
  {
    if v < 0.0 then -1.0 else if v > 0.0 then 1.0 else 0.0
  }

  /** `map(val, v1, v2, v3, v4)`: the point of `[v3, v4]` that sits where `val`
      sits in `[v1, v2]`. The source divides by `v2 - v1` unguarded, so a
      degenerate source range is excluded here. */
  function MapRange(val: real, v1: real, v2: real, v3: real, v4: real): (r: real)
    requires v1 != v2
    ensures val == v1 ==> r == v3
    ensures val == v2 ==> r == v4
  {
    v3 + (v4 - v3) * ((val - v1) / (v2 - v1))
  }

  /** Mapping forth and back between two non-degenerate ranges gives the value
      back: `map` is an invertible affine map. */
  lemma MapRangeInverse(val: real, v1: real, v2: real, v3: real, v4: real)
    requires v1 != v2 && v3 != v4
    ensures MapRange(MapRange(val, v1, v2, v3, v4), v3, v4, v1, v2) == val
  {
    var t := (val - v1) / (v2 - v1);
    var r := MapRange(val, v1, v2, v3, v4);
    assert r - v3 == (v4 - v3) * t;
    assert (r - v3) / (v4 - v3) == t;
    assert val - v1 == (v2 - v1) * t;
  }

  /** A value inside an increasing source range lands inside an increasing
      target range. */
  lemma MapRangeWithin(val: real, v1: real, v2: real, v3: real, v4: real)
    requires v1 < v2 && v3 <= v4 && v1 <= val <= v2
    ensures v3 <= MapRange(val, v1, v2, v3, v4) <= v4
  {
    var t := (val - v1) / (v2 - v1);
    FractionInUnit(val - v1, v2 - v1);
    ScaleUnit(v4 - v3, t);
  }

  lemma FractionInUnit(u: real, d: real)
    requires 0.0 <= u <= d && d > 0.0
    ensures 0.0 <= u / d <= 1.0
  {
  }

  lemma ScaleUnit(c: real, t: real)
    requires c >= 0.0 && 0.0 <= t <= 1.0
    ensures 0.0 <= c * t <= c
  {
  }

  /** The ring of a box as the feature builders write it:
      `[minx, miny], [minx, maxy], [maxx, maxy], [maxx, miny]`. */
  function Corners(b: Box): (ring: seq<Pos>)
    ensures |ring| == 4
    ensures forall i :: 0 <= i < 4 ==> ring[i].x in {b.minx, b.maxx} && ring[i].y in {b.miny, b.maxy}
    ensures Pos(b.minx, b.miny) in ring && Pos(b.minx, b.maxy) in ring
    ensures Pos(b.maxx, b.maxy) in ring && Pos(b.maxx, b.miny) in ring
  {
    [Pos(b.minx, b.miny), Pos(b.minx, b.maxy), Pos(b.maxx, b.maxy), Pos(b.maxx, b.miny)]
  }

  /** The box of half-width `halfWidth` and half-height `halfHeight` centred
      on `c`, as the `feature` builders compute it. */
  function BoxAround(c: Pos, halfWidth: real, halfHeight: real): (b: Box)
    ensures b.maxx - b.minx == 2.0 * halfWidth && b.maxy - b.miny == 2.0 * halfHeight
    ensures (b.minx + b.maxx) / 2.0 == c.x && (b.miny + b.maxy) / 2.0 == c.y
    ensures 0.0 <= halfWidth && 0.0 <= halfHeight ==> b.Contains(c)
  {
    Box(c.x - halfWidth, c.y - halfHeight, c.x + halfWidth, c.y + halfHeight)
  }
}
