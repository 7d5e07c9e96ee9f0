/** GeoJSON features as the game reads them (the geometry types of section 3.1
    of RFC 7946), `scan` (index.js:37-56), which maps the coordinate arrays of
    every feature while keeping their nesting, and the rescale step of `wall`
    (index.js:541-557), which fits the projected shapes into the arena. */
module GeoJson {
  import opened Util

  /** A GeoJSON geometry object. `Unsupported` stands for a feature with no
      geometry or with a type `scan` does not handle (a GeometryCollection). */
  datatype GeometryObject =
    | Point(coordinates: Pos)
    | MultiPoint(points: seq<Pos>)
    | LineString(line: seq<Pos>)
    | MultiLineString(lines: seq<seq<Pos>>)
    | Polygon(rings: seq<seq<Pos>>)
    | MultiPolygon(polygons: seq<seq<seq<Pos>>>)
    | Unsupported(kind: string)

  /** A feature: its geometry and its property bag (string values only). */
  datatype Feature = Feature(geometry: GeometryObject, properties: map<string, string>)

  /** The coordinate arrays `scan` hands to its `update` callback, in call
      order: `[coordinates]` for a Point, the array itself for a MultiPoint or
      a LineString, each line or ring for a MultiLineString or a Polygon, each
      ring of each polygon for a MultiPolygon. The Geometry constructor uses
      this order (with `replace` off) to build a shape's outline. */
  function Arrays(g: GeometryObject): seq<seq<Pos>> {
    match g
    case Point(c) => [[c]]
    case MultiPoint(ps) => [ps]
    case LineString(ps) => [ps]
    case MultiLineString(ls) => ls
    case Polygon(rs) => rs
    case MultiPolygon(polys) => Concat(polys)
    case Unsupported(_) => []
  }

  function Concat(polys: seq<seq<seq<Pos>>>): seq<seq<Pos>> {
    if polys == [] then [] else polys[0] + Concat(polys[1..])
  }

  /** The callback of both `scan` calls in `wall`: `coords.map(f)`. */
  function MapArray(ps: seq<Pos>, f: Pos -> Pos): (r: seq<Pos>)
    ensures |r| == |ps|
    ensures forall i :: 0 <= i < |ps| ==> r[i] == f(ps[i])
  {
    if ps == [] then [] else [f(ps[0])] + MapArray(ps[1..], f)
  }

  function MapArrays(ls: seq<seq<Pos>>, f: Pos -> Pos): (r: seq<seq<Pos>>)
    ensures |r| == |ls|
    ensures forall i :: 0 <= i < |ls| ==> r[i] == MapArray(ls[i], f)
  {
    if ls == [] then [] else [MapArray(ls[0], f)] + MapArrays(ls[1..], f)
  }

  function MapPolygons(polys: seq<seq<seq<Pos>>>, f: Pos -> Pos): (r: seq<seq<seq<Pos>>>)
    ensures |r| == |polys|
    ensures forall i :: 0 <= i < |polys| ==> r[i] == MapArrays(polys[i], f)
  {
    if polys == [] then [] else [MapArrays(polys[0], f)] + MapPolygons(polys[1..], f)
  }

  /** One feature's geometry after `scan` with `replace` on: every coordinate
      array is passed through the callback, nesting and type kept; a Point is
      wrapped as `[coordinates]` and unwrapped again. A geometry of another
      type keeps no coordinates in the source (`coordinates: false`); the
      model keeps only its type. */
  function ScanGeometry(g: GeometryObject, f: Pos -> Pos): (r: GeometryObject)
    ensures SameShape(r, g)
  {
    match g
    case Point(c) => Point(MapArray([c], f)[0])
    case MultiPoint(ps) => MultiPoint(MapArray(ps, f))
    case LineString(ps) => LineString(MapArray(ps, f))
    case MultiLineString(ls) => MultiLineString(MapArrays(ls, f))
    case Polygon(rs) => Polygon(MapArrays(rs, f))
    case MultiPolygon(polys) => MultiPolygon(MapPolygons(polys, f))
    case Unsupported(k) => Unsupported(k)
  }

  /** `scan(features, coords => coords.map(f))`: one feature out per feature
      in, in order, properties untouched. */
  function Scan(features: seq<Feature>, f: Pos -> Pos): (r: seq<Feature>)
    ensures |r| == |features|
    ensures forall i :: 0 <= i < |features| ==>
      r[i].properties == features[i].properties && SameShape(r[i].geometry, features[i].geometry)
  {
    seq(|features|, i requires 0 <= i < |features| =>
      Feature(ScanGeometry(features[i].geometry, f), features[i].properties))
  }

  /** Same type and the same number of elements at every nesting level. */
  predicate SameShape(a: GeometryObject, b: GeometryObject) {
    match (a, b)
    case (Point(_), Point(_)) => true
    case (MultiPoint(p), MultiPoint(q)) => |p| == |q|
    case (LineString(p), LineString(q)) => |p| == |q|
    case (MultiLineString(p), MultiLineString(q)) => SameLengths(p, q)
    case (Polygon(p), Polygon(q)) => SameLengths(p, q)
    case (MultiPolygon(p), MultiPolygon(q)) =>
      |p| == |q| && forall i :: 0 <= i < |p| ==> SameLengths(p[i], q[i])
    case (Unsupported(k), Unsupported(l)) => k == l
    case _ => false
  }

  predicate SameLengths(p: seq<seq<Pos>>, q: seq<seq<Pos>>) {
    |p| == |q| && forall i :: 0 <= i < |p| ==> |p[i]| == |q[i]|
  }

  lemma {:induction false} ConcatMap(polys: seq<seq<seq<Pos>>>, f: Pos -> Pos)
    ensures Concat(MapPolygons(polys, f)) == MapArrays(Concat(polys), f)
  {
    if polys != [] {
      ConcatMap(polys[1..], f);
      assert MapPolygons(polys, f)[1..] == MapPolygons(polys[1..], f);
      MapArraysAppend(polys[0], Concat(polys[1..]), f);
    }
  }

  lemma MapArraysAppend(a: seq<seq<Pos>>, b: seq<seq<Pos>>, f: Pos -> Pos)
    ensures MapArrays(a + b, f) == MapArrays(a, f) + MapArrays(b, f)
  {
  }

  /** With `replace` on, the arrays of the result are the arrays the
      callback was given, each mapped: `scan` hands every coordinate array
      of the feature to `update` exactly once and puts each answer back in
      its place. */
  lemma ScanMapsEveryArray(g: GeometryObject, f: Pos -> Pos)
    ensures Arrays(ScanGeometry(g, f)) == MapArrays(Arrays(g), f)
  {
    match g
    case Point(c) =>
      assert MapArray([c], f) == [f(c)];
    case MultiPoint(ps) =>
      assert MapArrays([ps], f) == [MapArray(ps, f)];
    case LineString(ps) =>
      assert MapArrays([ps], f) == [MapArray(ps, f)];
    case MultiPolygon(polys) =>
      ConcatMap(polys, f);
    case _ =>
  }

  lemma MapArrayCompose(ps: seq<Pos>, f: Pos -> Pos, h: Pos -> Pos)
    ensures MapArray(MapArray(ps, f), h) == MapArray(ps, p => h(f(p)))
  {
  }

  lemma MapArraysCompose(ls: seq<seq<Pos>>, f: Pos -> Pos, h: Pos -> Pos)
    ensures MapArrays(MapArrays(ls, f), h) == MapArrays(ls, p => h(f(p)))
  {
    forall i | 0 <= i < |ls| {
      MapArrayCompose(ls[i], f, h);
    }
  }

  /** Scanning twice is scanning once with the composed callback, so the
      projection pass and the rescale pass of `wall` act as one pass. */
  lemma ScanCompose(g: GeometryObject, f: Pos -> Pos, h: Pos -> Pos)
    ensures ScanGeometry(ScanGeometry(g, f), h) == ScanGeometry(g, p => h(f(p)))
  {
    match g
    case Point(c) =>
    case MultiPoint(ps) => MapArrayCompose(ps, f, h);
    case LineString(ps) => MapArrayCompose(ps, f, h);
    case MultiLineString(ls) => MapArraysCompose(ls, f, h);
    case Polygon(rs) => MapArraysCompose(rs, f, h);
    case MultiPolygon(polys) =>
      forall i | 0 <= i < |polys| {
        MapArraysCompose(polys[i], f, h);
      }
    case Unsupported(_) =>
  }

  /** A callback that changes no coordinate changes no geometry. */
  lemma ScanIdentity(g: GeometryObject, f: Pos -> Pos)
    requires forall p :: f(p) == p
    ensures ScanGeometry(g, f) == g
  {
    match g
    case Point(c) =>
      assert MapArray([c], f) == [c];
    case MultiPoint(ps) =>
      MapArrayIdentity(ps, f);
    case LineString(ps) =>
      MapArrayIdentity(ps, f);
    case MultiLineString(ls) =>
      MapArraysIdentity(ls, f);
    case Polygon(rs) =>
      MapArraysIdentity(rs, f);
    case MultiPolygon(polys) =>
      forall i | 0 <= i < |polys|
        ensures MapArrays(polys[i], f) == polys[i]
      {
        MapArraysIdentity(polys[i], f);
      }
      assert MapPolygons(polys, f) == polys;
    case Unsupported(_) =>
  }

  lemma MapArrayIdentity(ps: seq<Pos>, f: Pos -> Pos)
    requires forall p :: f(p) == p
    ensures MapArray(ps, f) == ps
  {
    assert forall i :: 0 <= i < |ps| ==> MapArray(ps, f)[i] == ps[i];
  }

  lemma MapArraysIdentity(ls: seq<seq<Pos>>, f: Pos -> Pos)
    requires forall p :: f(p) == p
    ensures MapArrays(ls, f) == ls
  {
    forall i | 0 <= i < |ls|
      ensures MapArrays(ls, f)[i] == ls[i]
    {
      MapArrayIdentity(ls[i], f);
    }
  }

  /** Arena constants of `MapBreaker` (index.js:412-414). */
  const ArenaWidth: real := 700.0
  const ArenaHeight: real := 700.0
  const Margin: real := 10.0

  /** Width `wall` gives the shapes, and the height that keeps the extent's
      aspect ratio. */
  const FitWidth: real := ArenaWidth - Margin * 2.0

  function FitHeight(extent: Box): real
    requires extent.minx != extent.maxx
  {
    FitWidth * (extent.maxy - extent.miny) / (extent.maxx - extent.minx)
  }

  /** The rescale callback of `wall` (index.js:551-556) for one coordinate:
      x maps from `[extent.minx, extent.maxx]` onto `[margin, margin + width]`;
      y maps onto `[margin, margin + height]` from `[extent.miny, extent.maxy]`
      for projected data and from `[extent.maxy, extent.miny]` (flipped, so
      north is up) otherwise. `map` divides by the extent's sides, so a
      degenerate extent is excluded. */
  function Rescale(p: Pos, extent: Box, projected: bool): Pos
    requires extent.minx != extent.maxx && extent.miny != extent.maxy
  {
    var height := FitHeight(extent);
    Pos(MapRange(p.x, extent.minx, extent.maxx, Margin, Margin + FitWidth),
        if projected then MapRange(p.y, extent.miny, extent.maxy, Margin, Margin + height)
        else MapRange(p.y, extent.maxy, extent.miny, Margin, Margin + height))
  }

  /** The box the shapes are fitted into. */
  function FitBox(extent: Box): Box
    requires extent.minx != extent.maxx
  {
    Box(Margin, Margin, Margin + FitWidth, Margin + FitHeight(extent))
  }

  /** The fit box is 680 wide and has the extent's aspect ratio. */
  lemma FitBoxAspect(extent: Box)
    requires extent.minx < extent.maxx
    ensures var fit := FitBox(extent);
      && fit.maxx - fit.minx == FitWidth
      && (fit.maxy - fit.miny) * (extent.maxx - extent.minx) == (fit.maxx - fit.minx) * (extent.maxy - extent.miny)
  {
    var w := extent.maxx - extent.minx;
    var h := extent.maxy - extent.miny;
    assert FitHeight(extent) * w == FitWidth * h by {
      assert FitHeight(extent) == FitWidth * h / w;
    }
  }

  /** Every point of the extent lands in the fit box. */
  lemma RescaleFits(p: Pos, extent: Box, projected: bool)
    requires extent.minx < extent.maxx && extent.miny < extent.maxy
    requires extent.Contains(p)
    ensures FitBox(extent).Contains(Rescale(p, extent, projected))
  {
    var height := FitHeight(extent);
    assert height >= 0.0 by {
      FractionInUnit(0.0, extent.maxx - extent.minx);
      assert height == FitWidth * ((extent.maxy - extent.miny) / (extent.maxx - extent.minx));
    }
    MapRangeWithin(p.x, extent.minx, extent.maxx, Margin, Margin + FitWidth);
    if projected {
      MapRangeWithin(p.y, extent.miny, extent.maxy, Margin, Margin + height);
    } else {
      MapRangeWithin(-p.y, -extent.maxy, -extent.miny, Margin, Margin + height);
      MapRangeNegate(p.y, extent.maxy, extent.miny, Margin, Margin + height);
    }
  }

  /** The extent's edges go to the fit box's edges: west to the left margin
      and east to `margin + 680`; `extent.maxy` (unprojected) or
      `extent.miny` (projected) to the top margin, and the other y edge to
      `margin + height`. Either way the north edge is on top, since latitude
      grows northward and a projection's y grows southward. With
      `RescaleFits`, the image of the extent is exactly the fit box. */
  lemma RescaleEdges(p: Pos, extent: Box, projected: bool)
    requires extent.minx != extent.maxx && extent.miny != extent.maxy
    ensures p.x == extent.minx ==> Rescale(p, extent, projected).x == FitBox(extent).minx
    ensures p.x == extent.maxx ==> Rescale(p, extent, projected).x == FitBox(extent).maxx
    ensures p.y == (if projected then extent.miny else extent.maxy) ==> Rescale(p, extent, projected).y == FitBox(extent).miny
    ensures p.y == (if projected then extent.maxy else extent.miny) ==> Rescale(p, extent, projected).y == FitBox(extent).maxy
  {
  }

  lemma MapRangeNegate(val: real, v1: real, v2: real, v3: real, v4: real)
    requires v1 != v2
    ensures MapRange(val, v1, v2, v3, v4) == MapRange(-val, -v1, -v2, v3, v4)
  {
    assert (-val - -v1) / (-v2 - -v1) == (val - v1) / (v2 - v1);
  }

  /** The callback `wall` passes to its second `scan`. */
  function Rescaler(extent: Box, projected: bool): Pos -> Pos
    requires extent.minx != extent.maxx && extent.miny != extent.maxy
  {
    p => Rescale(p, extent, projected)
  }

  /** The shapes `wall` builds: `scan` with the rescale callback. */
  function Wall(features: seq<Feature>, extent: Box, projected: bool): seq<Feature>
    requires extent.minx != extent.maxx && extent.miny != extent.maxy
  {
    Scan(features, Rescaler(extent, projected))
  }

  /** `q` is a coordinate of the geometry `g`. */
  predicate Covers(g: GeometryObject, q: Pos) {
    exists a :: a in Arrays(g) && q in a
  }

  /** Every coordinate of a scanned geometry is the image of a coordinate of
      the original. */
  lemma ScannedFrom(g: GeometryObject, f: Pos -> Pos, q: Pos)
    requires Covers(ScanGeometry(g, f), q)
    ensures exists src :: Covers(g, src) && q == f(src)
  {
    ScanMapsEveryArray(g, f);
    var arrays := Arrays(g);
    var a :| a in MapArrays(arrays, f) && q in a;
    var k :| 0 <= k < |arrays| && a == MapArrays(arrays, f)[k];
    assert a == MapArray(arrays[k], f);
    var j :| 0 <= j < |a| && a[j] == q;
    var src := arrays[k][j];
    assert q == f(src);
    assert arrays[k] in arrays && src in arrays[k];
    assert Covers(g, src);
  }

  /** A geometry inside the extent is rescaled into the fit box. */
  lemma GeometryFits(g: GeometryObject, extent: Box, projected: bool, q: Pos)
    requires extent.minx < extent.maxx && extent.miny < extent.maxy
    requires forall q :: Covers(g, q) ==> extent.Contains(q)
    requires Covers(ScanGeometry(g, Rescaler(extent, projected)), q)
    ensures FitBox(extent).Contains(q)
  {
    ScannedFrom(g, Rescaler(extent, projected), q);
    var src :| Covers(g, src) && q == Rescaler(extent, projected)(src);
    RescaleFits(src, extent, projected);
  }

  /** When every coordinate of the input lies in the extent, every coordinate
      of every shape `wall` builds lies in the fit box. */
  lemma WallFits(features: seq<Feature>, extent: Box, projected: bool)
    requires extent.minx < extent.maxx && extent.miny < extent.maxy
    requires forall i, q :: 0 <= i < |features| && Covers(features[i].geometry, q) ==> extent.Contains(q)
    ensures forall i, q :: 0 <= i < |features| && Covers(Wall(features, extent, projected)[i].geometry, q) ==>
      FitBox(extent).Contains(q)
  {
    var out := Wall(features, extent, projected);
    forall i, q | 0 <= i < |features| && Covers(out[i].geometry, q)
      ensures FitBox(extent).Contains(q)
    {
      GeometryFits(features[i].geometry, extent, projected, q);
    }
  }
}
