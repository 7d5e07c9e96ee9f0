# map-breaker in Dafny

map-breaker is a browser brick-breaker game. A GeoJSON map is its wall of
bricks: every feature of the map is a brick (a "shape"). The player steers a
paddle with two keys, and the paddle leans the way it is moving. A ball
bounces off the arena's edges and off the paddle. The first time the ball
touches a shape, the shape sends it off at the shape's own angle and its
label is shown. The next frame the shape is removed. The game is won when
every shape is struck, and lost when the ball drops far below the bottom edge.

This project models the game's logic in `index.js` and proves properties
about it. The model has one module per part of the game:

- `Util` (util.dfy): points, axis-aligned boxes, the linear range map `map`,
  and box corners.
- `Path` (path.dfy): `getPathD`, the SVG path builder, as a sequence of
  tokens (numbers, `M`, `, L`, `Z`).
- `GeoJson` (geojson.dfy): `scan`, which maps every coordinate array of a
  feature and keeps the nesting that goes with each geometry type (section
  3.1 of RFC 7946). It also holds the rescaling of the map into the arena
  done by `wall`.
- `Forces` (force.dfy): the paddle's damped actuator `Force`, as a class
  over the fields `position`, `rotation`, `time`, `force`, `delta` and
  `start`. Each method is specified by a pure state function
  (`ApplyForce`, `UpdateForce`), and the lemmas are about those functions.
- `Players` (player.dfy): the paddle `Player`. It turns the held keys into
  `apply(-20)`/`apply(20)`, updates the force between narrowed bounds and
  exposes its box.
- `Balls` (ball.dfy): the ball `Ball`. `move` decides the wall contact, the
  rebound and the stop flag. `rotate` and `collide` redirect the ball, and
  `feature` builds its hitbox.
- `Shapes` (shapes.dfy): `Geometry.collide`, a three-phase machine (intact,
  struck, removed).
- `Game` (game.dfy): `MapBreaker`, with `wall` building the shapes and
  `Tick` as one frame of the animation loop. A frame moves the paddle and
  the ball, lets the paddle turn the ball and asks every shape in order. It
  counts the hits, then writes "You Win" or "Game Over".

Things outside the model's reach are parameters of the operations:

- the sine/cosine heading of the ball (`heading: real -> Pos`);
- the random rebound error (`jitter`, in [-5, 5));
- the random rebound angle of each shape (`rotations`);
- turf's `booleanOverlap` (`overlap`) and `booleanPointInPolygon` (`inside`);
- the map's extent computed by turf's `bbox` (`extent`);
- the key table kept by the key listeners (`keys`).

Arithmetic is over `real`.

## Model

| member | source | states |
|---|---|---|
| Util.MapRange | index.js:33-35 | `map` requires distinct `v1`, `v2` (the division is unguarded) and sends `v1` to `v3` and `v2` to `v4` |
| Util.MapRangeInverse | index.js:33-35 | mapping back from `[v3, v4]` to `[v1, v2]` returns the original value |
| Util.MapRangeWithin | index.js:33-35 | a value inside `[v1, v2]` maps inside `[v3, v4]` |
| Util.Sign | index.js:204-206 | `Math.sign` is -1, 0 or 1 and has the sign of its argument |
| Util.Corners | index.js:230-237 | the ring of a box has four points, each a corner of the box, and every one of the box's four corners appears in it |
| Util.BoxAround | index.js:220-225 | a box built from a centre and half sizes has the given width, height and midpoint, and contains its centre |
| Path.PathDShape | index.js:58-64 | no points give the empty path. Otherwise the path starts with `M` and the first point, has one `, L` per later point and exactly one `M`, and lists all the coordinates in order. It ends with `Z` iff `close` holds and there are at least two points, and no other `Z` occurs |
| Path.PathPrefixCounts | index.js:59-63 | after `k` steps of the reduce, the path holds one `M` (if `k > 0`) and `k - 1` `, L` |
| Path.PathPrefixNumbers | index.js:59-63 | after `k` steps of the reduce, the path's numbers are the first `k` points' coordinates in order |
| Path.PathPrefixFrame | index.js:59-63 | every prefix of the reduce starts with `M` and the first point |
| Path.SegmentFacts | index.js:60-62 | the piece added for a point holds its two coordinates, one `M` for the first point, and one `, L` for every other point |
| Path.NumbersAppend | index.js:59 | the numbers of a concatenated path are the concatenation of the numbers |
| Path.OccurrencesAppend | index.js:59 | letter counts add up over concatenation |
| GeoJson.MapArray | index.js:534-537 | mapping an array of positions keeps its length and maps each position |
| GeoJson.MapArrays | index.js:43-44 | mapping a list of arrays maps each array |
| GeoJson.MapPolygons | index.js:45-46 | mapping a MultiPolygon maps each polygon's arrays |
| GeoJson.ScanGeometry | index.js:38-54 | `scan` keeps the geometry type and the nesting of every coordinate array |
| GeoJson.Scan | index.js:37-56 | `scan` returns one feature per input feature, with the properties kept and the same geometry shape |
| GeoJson.ScanMapsEveryArray | index.js:39-46 | the coordinate arrays of the scanned geometry are the mapped arrays of the original, in order, for every geometry type |
| GeoJson.ConcatMap | index.js:45-46 | flattening the mapped polygons equals mapping the flattened arrays |
| GeoJson.MapArraysAppend | index.js:43-46 | mapping distributes over concatenation of array lists |
| GeoJson.ScanCompose | index.js:531-560 | scanning twice, first with `f` then with `h`, equals one scan with `h` after `f`. This is how `wall` projects and then rescales |
| GeoJson.ScanIdentity | index.js:37 | a scan with the default identity update returns the geometry unchanged |
| GeoJson.MapArrayCompose | index.js:534-537 | mapping an array twice is mapping once with the composed function |
| GeoJson.MapArraysCompose | index.js:43-44 | mapping array lists twice is mapping once with the composed function |
| GeoJson.MapArrayIdentity | index.js:37 | mapping with the identity keeps an array |
| GeoJson.MapArraysIdentity | index.js:37 | mapping with the identity keeps a list of arrays |
| GeoJson.RescaleFits | index.js:542-557 | a point inside the extent lands inside the fit box `[10, 690] × [10, 10 + height]`, where `height` keeps the extent's aspect ratio at a width of 680. For a map taller than it is wide this box reaches below the arena |
| GeoJson.RescaleEdges | index.js:548-557 | the extent's west and east edges go to x = 10 and x = 690. `extent.maxy` (unprojected) or `extent.miny` (projected) goes to y = 10 and the other y edge to y = 10 + height, so the north edge is on top in both modes and the image of the extent is exactly the fit box |
| GeoJson.FitBoxAspect | index.js:542-546 | the fit box is 680 wide and has the extent's aspect ratio |
| GeoJson.MapRangeNegate | index.js:554 | mapping from `[v1, v2]` equals mapping the negated value from `[-v1, -v2]` |
| GeoJson.ScannedFrom | index.js:39-46 | every coordinate of a scanned geometry is the callback's image of a coordinate of the original |
| GeoJson.GeometryFits | index.js:548-557 | every position of a rescaled geometry lies inside the fitted box when the original lies inside the extent |
| GeoJson.WallFits | index.js:548-560 | every position of every rescaled wall feature lies inside the fitted box |
| Forces.Initial | index.js:254-261 | a new force holds the invariant and no pending impulse |
| Forces.ClampWithin | index.js:284-286 | clamping lands in `[lo, hi]` when `lo <= hi`, is never above `hi`, and keeps values already inside |
| Forces.Lean | index.js:279-283 | the lean angle lies in `[-45, 45]` |
| Forces.LeanIsClamp | index.js:279-283 | the lean is `delta * time` clamped to `[-45, 45]` |
| Forces.Decay | index.js:273-278 | the timer drops by 0.1 and is floored at 0; it never grows, and a positive timer strictly drops |
| Forces.ApplyKeepsInv | index.js:263-269 | `apply` adds 0.2 to the timer only while it is below 20, records the force, sets `start`, changes nothing else and keeps `0 <= time < 20.2` and `abs(rotation) <= 45` |
| Forces.UpdateKeepsInv | index.js:271-288 | `update` keeps the invariant. It decays the timer only when no `apply` came since the last update, and always clears `start`. The position never exceeds `hi`, lies in `[lo, hi]` when `lo <= hi`, and is the old position plus `delta` whenever that sum is inside |
| Forces.CoastTime | index.js:271-288 | `k` updates without `apply` lower the timer by `0.1 * k`, floored at 0, and keep the force |
| Forces.CoastSettles | index.js:271-288 | after 203 updates without `apply` the timer, lean and delta are zero and the paddle no longer moves |
| Forces.CoastLeanShrinks | index.js:271-283 | while coasting, the lean's magnitude never grows from one update to the next |
| Forces.LeanShrinks | index.js:272-283 | with the timer falling, the lean computed from the delta never grows in magnitude |
| Forces.LeanOrder | index.js:279-283 | the clamped lean is monotone in the magnitude of `delta * time` |
| Forces.LeanMonotone | index.js:281-283 | clamping to `[-45, 45]` is monotone in magnitude |
| Forces.ProductShrinks | index.js:272-279 | `delta * time` shrinks in magnitude as the timer falls |
| Forces.Force.constructor | index.js:254-261 | a new force is at `position` with zero timer, force, delta and lean |
| Forces.Force.Apply | index.js:263-269 | the new state is `ApplyForce` of the old one, and the invariant holds |
| Forces.Force.Update | index.js:271-288 | the new state is `UpdateForce` of the old one; the position lies in `[lo, hi]` when `lo <= hi`, and `abs(rotation) <= 45` |
| Forces.Force.Rotation | index.js:294-296 | the lean read by the paddle lies in `[-45, 45]` |
| Players.PressKeysEffect | index.js:349-355 | with no key held nothing changes. A held key ramps the timer and sets `start` (twice for both keys), and the right key wins, since `apply(20)` comes after `apply(-20)` |
| Players.MoveKeepsPaddleInside | index.js:349-360 | a move keeps the force invariant and clears `start`, and in an arena at least a paddle wide keeps the whole paddle inside the bounds. With no key held the timer decays and the force is kept |
| Players.Player.constructor | index.js:298-347 | the paddle starts in the middle, 32 above the bottom, with a fresh force at its `x` |
| Players.Player.Move | index.js:349-367 | the force's new state is `MoveForce` of the old one, `x` follows the force's position, and the paddle stays inside the bounds |
| Players.Player.Feature | index.js:369-389 | the paddle's box is 64 by 8 and contains the paddle's position |
| Players.Player.Rotation | index.js:391-393 | the paddle's lean lies in `[-45, 45]` |
| Players.Player.Hit | index.js:395-405 | a hit adds one highlight pulse and does not move the paddle |
| Balls.EdgeContact | index.js:197-207 | a contact exists iff some edge is crossed. The checks run in the order maxx, miny, minx, maxy and a later one overwrites an earlier one, so the final tag is `BOTTOM` iff the bottom is crossed, and so on. The rebound angles follow the code's `LEFT`/`TOP`/`RIGHT` tags |
| Balls.InitialBall | index.js:123-163 | a new ball is centred horizontally, 72 above the bottom, heading 45 degrees, not stopped and with no tag |
| Balls.BallBoxFacts | index.js:220-241 | the hitbox is square, of side 24 (full) or 12 (half), and contains the ball's centre |
| Balls.StopIsFinal | index.js:178 | once stopped, `move` changes nothing, and neither `rotate` nor `collide` clears the stop flag |
| Balls.MoveCommits | index.js:184-217 | a move of a live ball always commits the new position, and sets `stop` iff `y + radius > maxy + 20 * radius` |
| Balls.MoveRedirects | index.js:197-214 | without contact, heading and tag are kept. With contact the tag becomes the wall, and the heading becomes `rebound + jitter` exactly when the side is not the bottom and the tag differs from the previous one. Any change of heading comes from such a contact |
| Balls.NoRetrigger | index.js:210-212 | a ball that is still beyond the same wall on the next frame keeps the heading it was given |
| Balls.FreshTagRebounds | index.js:172-212 | after `rotate` or `collide` (a fresh tag), the next side-wall contact always redirects the ball |
| Balls.Ball.constructor | index.js:123-163 | the ball starts in the state `InitialBall` |
| Balls.Ball.Feature | index.js:220-241 | the hitbox contains the ball's position |
| Balls.Ball.Rotate | index.js:172-175 | the ball takes the new heading and a fresh tag |
| Balls.Ball.Move | index.js:177-218 | the new state is `MoveBall` of the old one, with the heading taken from the old rotation |
| Balls.Ball.Collide | index.js:244-252 | when the boxes overlap, the ball takes the paddle's lean with a fresh tag and the paddle gets one hit; the paddle does not move |
| Shapes.StepFacts | index.js:101-120 | a shape reports iff it is intact and touched. A struck shape becomes removed, a removed one stays removed, and neither reports; an intact shape that is not touched stays intact |
| Shapes.RunReportsOnce | index.js:95-121 | over any sequence of frames, a shape reports at most once, and exactly once iff it starts intact and is touched at some frame |
| Shapes.RemovedIsSilent | index.js:112-120 | a removed shape stays removed and silent forever; a struck shape never reports again |
| Shapes.HitsFacts | index.js:96-100 | the filtered corners are exactly the ball box's corners inside the shape |
| Shapes.TouchedIff | index.js:96-101 | the ball touches a shape iff a corner of its half-size box or its centre lies inside the shape |
| Shapes.Geometry.constructor | index.js:68-93 | a new shape is intact, with its feature and rebound angle |
| Shapes.Geometry.Collide | index.js:95-121 | the phase and the report follow `Step`. A report returns the shape's feature and sends the ball off at the shape's angle; otherwise the ball is untouched |
| Game.ReportsStrike | index.js:599-607 | one frame adds exactly as many struck shapes as there are reports, and never more than there are shapes |
| Game.LastReporterFacts | index.js:599-607 | in one pass over the shapes, no shape reports iff none is intact and touched, iff the count does not grow. Otherwise the last reporter is an intact, touched shape, and no later shape reports |
| Game.ShownFacts | index.js:599-607 | after the first `n` shapes were asked, the count grew by the number of reports and the length is kept. The text shows the last reporter's label and the counter shows `count of length`; with no report the board is unchanged |
| Game.NumStruckFull | index.js:609 | all shapes are struck iff none is intact, and none is struck iff all are intact |
| Game.WinMeansAllStruck | index.js:609-610 | a count that tracks the struck shapes equals the length iff no shape is intact |
| Game.BuildShapes | index.js:558-560 | `wall` builds one new, distinct, intact shape per feature, with its rebound angle |
| Game.AskShape | index.js:599-606 | asking shape `i` steps its phase. The board and the ball become those after `i + 1` shapes: on a report the count grows by one, the label and tally are shown, and the ball takes the shape's heading with a fresh tag; otherwise both are unchanged |
| Game.AskShapes | index.js:599-607 | after the `forEach` every shape has stepped once and `count` grew by exactly the number of reports. The text shows the last reporting shape's label, the counter shows `count of length`, and the ball has that shape's heading and a fresh tag. With no report only the phases change |
| Game.MapBreaker.constructor | index.js:407-514 | a new game has the ball and paddle in their start states, no shapes set (`_geometries` is undefined), no loop running, a zero count and blank text |
| Game.MapBreaker.Wall | index.js:528-564 | `_geometries` becomes the rescaled features in order, each new and intact, with its rebound angle. The shapes that already-running frames test are not replaced, and the count stays consistent with them |
| Game.MapBreaker.Start | index.js:566-578 | `loop` copies `_geometries` (unset if `wall` was not called) into the list the frames test, and starts `count` and `length` at zero. This is consistent while all those shapes are intact |
| Game.MapBreaker.Advance | index.js:582-596 | the paddle's force takes the state `MoveForce` of the old one. The ball takes the state `MoveBall`, then, if its full box overlaps the paddle's box, the paddle's lean with a fresh tag, and the paddle flashes once |
| Game.MapBreaker.Resolve | index.js:597-613 | every shape steps once and the count grows by the number of reports, so it stays equal to the number of struck shapes. The ball takes the last reporter's heading. The text is "You Win" when the count equals the length, else "Game Over" when the ball is stopped, else the last reporter's label (or the old text) |
| Game.MapBreaker.Tick | index.js:579-615 | one frame. The paddle and ball move, the paddle may turn the ball and flash, then every shape steps and turns the ball if it reports. The count grows by the reports and stays equal to the struck shapes. The verdict and text are as in `Resolve`. If `loop` started before `wall`, the frame throws after moving the ball, and the board is unchanged |

## Left out

- Rendering: the SVG elements, `createElement`, `updateElement`, `transform`, the fill colours and the path string handed to each shape's `<path>`. None of this is game state.
- The turf calls (`bbox`, `getType`, `getCoords`, `booleanPointInPolygon`, `booleanOverlap`) and the d3 projections are library code. They appear as parameters: the extent, the `overlap` and `inside` predicates, and a flag saying whether a projection was applied.
- `Math.sin`, `Math.cos`, `rad` and `Math.random` give the heading, the jitter, each shape's rebound angle, the hue and the random tags. They are parameters, or are left out in the case of the hue. The random tags are the distinct tags `Rotated` and `Paddle`, which never equal a wall tag.
- IEEE floating point: all arithmetic is over exact reals, so no result depends on rounding of the 0.2 and 0.1 steps.
- Timers and the event loop: the `setTimeout` that removes a shape's element and the one that reverts the paddle's highlight, `requestAnimationFrame`, and the `keydown`/`keyup` listeners. The key table is a parameter of each frame.
- The option defaulting of the key codes and the property key in the `MapBreaker` constructor. Note that the code picks `rightKeyCode` from the options only when `leftKeyCode` was given there. The model takes the resolved key codes and property key as arguments.
- Shapes.Geometry: the two flags `_collide` and `_removed` are one `phase` field. The combination "removed but never struck" cannot arise in the code.
- Players.Player.Hit: the highlight is a counter of hits (`flashes`), not a colour that reverts after 150 ms.
- GeoJson.Scan: the update is a per-position function, as in both calls made by `wall`. The `properties` argument passed to the callback is not used by either call and is left out. The `replace = false` mode that the shape constructor uses only to build its path string is left out with that string.
- Balls.Ball.Position and Forces.Force.State only read fields and carry no contract.
- GeoJson.RescaleFits: `wall` projects with d3 before rescaling. The model starts from the projected positions and the extent of them.
- `Ball.collide` calls `player.hit()` on every frame in which the boxes overlap, not once per contact (index.js:244-252). The model keeps this: `flashes` grows on each such frame.
- A map with no shapes shows "You Win" on the first frame, because `length === count` holds at 0 (index.js:609-610). The model keeps this.
- GeoJson.Rescale: requires an extent with distinct west and east edges and distinct north and south edges. On a flat extent (a map of one Point, or a single east-west line) the code divides by zero and produces NaN coordinates (index.js:546, 553-554). NaN is not modelled.
- Game.MapBreaker.Wall: requires the same non-flat extent as `GeoJson.Rescale`, for the same reason.
- Game.MapBreaker.Start: requires that `loop` was not called before. A second call in the code starts a second chain of frames beside the first, with its own `count`; the model runs one chain.
- Balls.MoveBall: the promise that the ball stays within the bounds widened by one radius, except on the loss path, is not stated. The heading's sine and cosine are a free parameter here, so no bound on a step's length is known.
- Game.Label: property values are taken as strings. The code shows `feature.properties[propertyKey] || ''`, so a value of `0`, `false`, `null` or `NaN` shows as the empty string and a number shows as its digits; the model has neither case, and shows a missing key as the empty string.
