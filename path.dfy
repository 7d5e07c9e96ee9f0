/** `getPathD` (index.js:58-64): the SVG path data of an outline, built by a
    `reduce` over its points. Number formatting is left abstract: the output is
    a sequence of tokens, literal characters and numbers. */
module Path {
  import opened Util

  datatype Token = Char(c: char) | Num(v: real)

  /** `coord[0] + ' ' + coord[1]` */
  function PointText(p: Pos): seq<Token> {
    [Num(p.x), Char(' '), Num(p.y)]
  }

  const LineTo: seq<Token> := [Char(','), Char(' '), Char('L')]

  /** What the reducer appends for point `idx`: the first point opens with
      `'M'`, the last one (when it is not also the first) is an `', L'` segment
      followed by `'Z'` when `close` holds, every other point is an `', L'`
      segment. */
  function Segment(coords: seq<Pos>, idx: nat, close: bool): seq<Token>
    requires idx < |coords|
  {
    if idx == 0 then [Char('M')] + PointText(coords[0])
    else if idx == |coords| - 1 then LineTo + PointText(coords[idx]) + (if close then [Char('Z')] else [])
    else LineTo + PointText(coords[idx])
  }

  /** The accumulator of the reduce after its first `k` steps. */
  function PathPrefix(coords: seq<Pos>, close: bool, k: nat): seq<Token>
    requires k <= |coords|
  {
    if k == 0 then [] else PathPrefix(coords, close, k - 1) + Segment(coords, k - 1, close)
  }

  function PathD(coords: seq<Pos>, close: bool): seq<Token> {
    PathPrefix(coords, close, |coords|)
  }

  /** The numbers of a token sequence, in order. */
  function Numbers(d: seq<Token>): seq<real> {
    if d == [] then []
    else (if d[0].Num? then [d[0].v] else []) + Numbers(d[1..])
  }

  /** How often the character `c` occurs in a token sequence. */
  function Occurrences(d: seq<Token>, c: char): nat {
    if d == [] then 0
    else (if d[0] == Char(c) then 1 else 0) + Occurrences(d[1..], c)
  }

  /** The coordinates of a point list flattened: `x0, y0, x1, y1, ...`. */
  function Flat(coords: seq<Pos>): seq<real> {
    if coords == [] then [] else Flat(coords[..|coords| - 1]) + [coords[|coords| - 1].x, coords[|coords| - 1].y]
  }

  lemma {:induction false} NumbersAppend(a: seq<Token>, b: seq<Token>)
    ensures Numbers(a + b) == Numbers(a) + Numbers(b)
  {
    if a != [] {
      assert (a + b)[1..] == a[1..] + b;
      NumbersAppend(a[1..], b);
    } else {
      assert a + b == b;
    }
  }

  lemma {:induction false} OccurrencesAppend(a: seq<Token>, b: seq<Token>, c: char)
    ensures Occurrences(a + b, c) == Occurrences(a, c) + Occurrences(b, c)
  {
    if a != [] {
      assert (a + b)[1..] == a[1..] + b;
      OccurrencesAppend(a[1..], b, c);
    } else {
      assert a + b == b;
    }
  }

  /** Token counts of the literal pieces a segment is made of. */
  lemma PieceFacts(p: Pos, c: char)
    requires c == 'M' || c == 'L' || c == 'Z'
    ensures Occurrences(PointText(p), c) == 0 && Numbers(PointText(p)) == [p.x, p.y]
    ensures Occurrences(LineTo, c) == (if c == 'L' then 1 else 0) && Numbers(LineTo) == []
    ensures Occurrences([Char('M')], c) == (if c == 'M' then 1 else 0) && Numbers([Char('M')]) == []
    ensures Occurrences([Char('Z')], c) == (if c == 'Z' then 1 else 0) && Numbers([Char('Z')]) == []
  {
    assert PointText(p)[1..] == [Char(' '), Num(p.y)];
    assert PointText(p)[1..][1..] == [Num(p.y)];
    assert Occurrences([Num(p.y)], c) == 0 && Numbers([Num(p.y)]) == [p.y];
    assert Occurrences([Char(' '), Num(p.y)], c) == 0 && Numbers([Char(' '), Num(p.y)]) == [p.y];
    assert LineTo[1..] == [Char(' '), Char('L')];
    assert LineTo[1..][1..] == [Char('L')];
  }

  /** What one step of the reduce appends: a single `'M'` for the first
      point, a single `', L'` for every later point, a single `'Z'` for the
      last of at least two points when `close` holds, and that point's two
      coordinates. */
  lemma SegmentFacts(coords: seq<Pos>, idx: nat, close: bool, c: char)
    requires idx < |coords|
    requires c == 'M' || c == 'L' || c == 'Z'
    ensures var seg := Segment(coords, idx, close);
      && Occurrences(seg, c) == (
           if c == 'Z' then (if close && 0 < idx == |coords| - 1 then 1 else 0)
           else if (idx == 0) == (c == 'M') then 1 else 0)
      && Numbers(seg) == [coords[idx].x, coords[idx].y]
  {
    var p := coords[idx];
    PieceFacts(p, c);
    var tail: seq<Token> := if idx == |coords| - 1 && close then [Char('Z')] else [];
    if idx == 0 {
      OccurrencesAppend([Char('M')], PointText(p), c);
      NumbersAppend([Char('M')], PointText(p));
    } else {
      assert Segment(coords, idx, close) == LineTo + PointText(p) + tail;
      OccurrencesAppend(LineTo, PointText(p), c);
      NumbersAppend(LineTo, PointText(p));
      OccurrencesAppend(LineTo + PointText(p), tail, c);
      NumbersAppend(LineTo + PointText(p), tail);
    }
  }

  /** Length, head and last token of the accumulator after `k >= 1` steps:
      a trailing `'Z'` appears only once the last of at least two points has
      been appended with `close` set. */
  lemma {:induction false} PathPrefixFrame(coords: seq<Pos>, close: bool, k: nat)
    requires 1 <= k <= |coords|
    ensures var d := PathPrefix(coords, close, k);
      && |d| == 4 + 6 * (k - 1) + (if close && k == |coords| && k >= 2 then 1 else 0)
      && d[..4] == [Char('M')] + PointText(coords[0])
      && (d[|d| - 1] == Char('Z') <==> close && k == |coords| && k >= 2)
  {
    var seg := Segment(coords, k - 1, close);
    assert PathPrefix(coords, close, k) == PathPrefix(coords, close, k - 1) + seg;
    if k > 1 {
      PathPrefixFrame(coords, close, k - 1);
    }
  }

  /** The accumulator after `k` steps holds one `'M'` (once a point was
      seen), one `', L'` per later point, and one `'Z'` once the last of at
      least two points was appended with `close` set. */
  lemma {:induction false} PathPrefixCounts(coords: seq<Pos>, close: bool, k: nat, c: char)
    requires k <= |coords|
    requires c == 'M' || c == 'L' || c == 'Z'
    ensures Occurrences(PathPrefix(coords, close, k), c) ==
      if k == 0 then 0
      else if c == 'M' then 1
      else if c == 'L' then k - 1
      else if close && k == |coords| && k >= 2 then 1 else 0
  {
    if k > 0 {
      var prev := PathPrefix(coords, close, k - 1);
      var seg := Segment(coords, k - 1, close);
      assert PathPrefix(coords, close, k) == prev + seg;
      PathPrefixCounts(coords, close, k - 1, c);
      SegmentFacts(coords, k - 1, close, c);
      OccurrencesAppend(prev, seg, c);
    }
  }

  /** The accumulator after `k` steps carries the first `k` points'
      coordinates, in order and nothing else. */
  lemma {:induction false} PathPrefixNumbers(coords: seq<Pos>, close: bool, k: nat)
    requires k <= |coords|
    ensures Numbers(PathPrefix(coords, close, k)) == Flat(coords[..k])
  {
    if k == 0 {
      assert coords[..0] == [];
    } else {
      var prev := PathPrefix(coords, close, k - 1);
      var seg := Segment(coords, k - 1, close);
      assert PathPrefix(coords, close, k) == prev + seg;
      PathPrefixNumbers(coords, close, k - 1);
      SegmentFacts(coords, k - 1, close, 'M');
      NumbersAppend(prev, seg);
      var first := coords[..k];
      assert first[..k - 1] == coords[..k - 1];
      assert first[k - 1] == coords[k - 1];
      assert Flat(first) == Flat(first[..k - 1]) + [first[k - 1].x, first[k - 1].y];
    }
  }

  /** The contract of `getPathD`: an empty list gives the empty string;
      otherwise the path starts with `'M'` and the first point, adds one
      `', L'` segment per later point, carries every coordinate in order, and
      ends with `'Z'` exactly when `close` holds and there are at least two
      points; no other `'Z'` occurs. */
  lemma PathDShape(coords: seq<Pos>, close: bool)
    ensures coords == [] ==> PathD(coords, close) == []
    ensures coords != [] ==> var d := PathD(coords, close);
      && d[..4] == [Char('M')] + PointText(coords[0])
      && Occurrences(d, 'L') == |coords| - 1
      && Occurrences(d, 'M') == 1
      && Occurrences(d, 'Z') == (if close && |coords| >= 2 then 1 else 0)
      && Numbers(d) == Flat(coords)
      && (d[|d| - 1] == Char('Z') <==> close && |coords| >= 2)
  {
    if coords != [] {
      PathPrefixFrame(coords, close, |coords|);
      PathPrefixCounts(coords, close, |coords|, 'M');
      PathPrefixCounts(coords, close, |coords|, 'L');
      PathPrefixCounts(coords, close, |coords|, 'Z');
      PathPrefixNumbers(coords, close, |coords|);
      assert coords[..|coords|] == coords;
    }
  }
}
