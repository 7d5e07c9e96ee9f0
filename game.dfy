/** `MapBreaker` (index.js:407-617): the game. `wall` builds the shapes from
    the map's features; each animation frame (the `animate` closure of
    `loop`) moves the paddle and the ball, lets the paddle turn the ball, lets
    every shape test the ball, counts the shapes that report a hit, and
    decides "You Win" before "Game Over".

    The frame's inputs that come from outside the model are parameters: the
    key table filled by the key listeners, the heading's sine and cosine, the
    random rebound error, turf's overlap test and its point-in-polygon
    test. */
module Game {
  import opened Util
  import opened GeoJson
  import opened Forces
  import opened Players
  import opened Balls
  import opened Shapes

  /** The bounds every frame passes to `move`: the arena less its margin. */
  const Arena: Box := Box(Margin, Margin, ArenaWidth - Margin, ArenaHeight - Margin)

  /** The text of the `counter` element: blank until the first hit, then
      `count + ' of ' + length`. */
  datatype Counter = Blank | Tally(count: nat, length: nat)

  /** `feature.properties && feature.properties[propertyKey] || ''`. */
  function Label(properties: map<string, string>, key: string): string {
    if key in properties then properties[key] else ""
  }

  /** What a frame shows in the `text` element once the shapes are resolved
      (index.js:609-613). */
  function Verdict(count: nat, length: nat, stop: bool, text: string): string {
    if length == count then "You Win" else if stop then "Game Over" else text
  }

  /** The phases of a list of shapes, in order. The ensures only spells the
      comprehension out pointwise for the solver. */
  function PhasesOf(gs: seq<Geometry>): (ps: seq<Phase>)
    reads gs
    ensures |ps| == |gs| && forall i :: 0 <= i < |gs| ==> ps[i] == gs[i].phase
  {
    seq(|gs|, i requires 0 <= i < |gs| reads gs => gs[i].phase)
  }

  /** Whether the ball at `center` touches each shape. The ensures only
      spells the comprehension out pointwise for the solver; its trigger
      keeps `Touched` from being unfolded where no shape is asked. */
  function TouchesOf(gs: seq<Geometry>, center: Pos, inside: (Pos, Feature) -> bool): (ts: seq<bool>)
    ensures |ts| == |gs|
    ensures forall i {:trigger Touched(center, gs[i].feature, inside)} :: 0 <= i < |gs| ==> ts[i] == Touched(center, gs[i].feature, inside)
  {
    seq(|gs|, i requires 0 <= i < |gs| => Touched(center, gs[i].feature, inside))
  }

  /** The phases after every shape was asked once. */
  function Stepped(ps: seq<Phase>, ts: seq<bool>): (r: seq<Phase>)
    requires |ps| == |ts|
  {
    seq(|ps|, i requires 0 <= i < |ps| && |ps| == |ts| => Step(ps[i], ts[i]).0)
  }

  /** How many of the first `n` shapes report a hit when every shape is
      asked once. */
  function Reports(ps: seq<Phase>, ts: seq<bool>, n: nat): nat
    requires n <= |ps| == |ts|
  {
    if n == 0 then 0 else Reports(ps, ts, n - 1) + if Step(ps[n - 1], ts[n - 1]).1 then 1 else 0
  }

  /** How many of the first `n` shapes have been struck (and possibly
      removed). */
  function NumStruck(ps: seq<Phase>, n: nat): nat
    requires n <= |ps|
  {
    if n == 0 then 0 else NumStruck(ps, n - 1) + if ps[n - 1] != Intact then 1 else 0
  }

  /** Every report strikes one intact shape: the struck shapes grow by
      exactly the number of reports, and never exceed the shapes there are. */
  lemma {:induction false} ReportsStrike(ps: seq<Phase>, ts: seq<bool>, n: nat)
    requires n <= |ps| == |ts|
    ensures NumStruck(Stepped(ps, ts), n) == NumStruck(ps, n) + Reports(ps, ts, n)
    ensures NumStruck(ps, n) + Reports(ps, ts, n) <= n
  {
    if n > 0 {
      ReportsStrike(ps, ts, n - 1);
      StepFacts(ps[n - 1], ts[n - 1]);
    }
  }

  /** All of the first `n` shapes are struck exactly when none of them is
      intact, and none is struck exactly when all are intact. */
  lemma {:induction false} NumStruckFull(ps: seq<Phase>, n: nat)
    requires n <= |ps|
    ensures NumStruck(ps, n) <= n
    ensures NumStruck(ps, n) == n <==> forall i :: 0 <= i < n ==> ps[i] != Intact
    ensures NumStruck(ps, n) == 0 <==> forall i :: 0 <= i < n ==> ps[i] == Intact
  {
    if n > 0 {
      NumStruckFull(ps, n - 1);
    }
  }

  /** The last of the first `n` shapes that reports a hit when every shape
      is asked once, if any. */
  function LastReporter(ps: seq<Phase>, ts: seq<bool>, n: nat): (r: Option<nat>)
    requires n <= |ps| == |ts|
    ensures r.Some? ==> r.value < n
  {
    if n == 0 then None
    else if Step(ps[n - 1], ts[n - 1]).1 then Some(n - 1)
    else LastReporter(ps, ts, n - 1)
  }

  /** No shape reports exactly when none of the first `n` is intact and
      touched, which is when the count does not grow. Otherwise the last
      reporter is an intact, touched shape after which none reports. */
  lemma {:induction false} LastReporterFacts(ps: seq<Phase>, ts: seq<bool>, n: nat)
    requires n <= |ps| == |ts|
    ensures LastReporter(ps, ts, n).None? <==> forall k :: 0 <= k < n ==> !(ps[k] == Intact && ts[k])
    ensures LastReporter(ps, ts, n).None? <==> Reports(ps, ts, n) == 0
    ensures LastReporter(ps, ts, n).Some? ==>
      var j := LastReporter(ps, ts, n).value;
      && j < n && ps[j] == Intact && ts[j]
      && forall k :: j < k < n ==> !(ps[k] == Intact && ts[k])
  {
    if n > 0 {
      LastReporterFacts(ps, ts, n - 1);
      StepFacts(ps[n - 1], ts[n - 1]);
    }
  }

  /** The ball after the shapes that report have turned it: only the last
      one's heading stays. */
  function TurnedBy(s: BallState, gs: seq<Geometry>, last: Option<nat>): BallState
    requires last.Some? ==> last.value < |gs|
  {
    if last.Some? then RotateBall(s, gs[last.value].rotation) else s
  }

  /** The loop of `wall` that builds one new intact shape per feature. */
  method BuildShapes(shapes: seq<Feature>, rotations: seq<real>) returns (built: seq<Geometry>)
    requires |rotations| == |shapes|
    ensures |built| == |shapes|
    ensures forall j :: 0 <= j < |built| ==>
      && fresh(built[j])
      && built[j].feature == shapes[j]
      && built[j].rotation == rotations[j]
      && built[j].phase == Intact
    ensures forall j, k :: 0 <= j < k < |built| ==> built[j] != built[k]
  {
    built := [];
    var i := 0;
    while i < |shapes|
      invariant 0 <= i <= |shapes| && |built| == i
      invariant forall j :: 0 <= j < i ==>
        && fresh(built[j])
        && built[j].feature == shapes[j]
        && built[j].rotation == rotations[j]
        && built[j].phase == Intact
      invariant forall j, k :: 0 <= j < k < i ==> built[j] != built[k]
    {
      var g := new Geometry(shapes[i], rotations[i]);
      built := built + [g];
      i := i + 1;
    }
  }

  /** What a frame carries over and shows: the `count` and `length`
      variables of the `animate` closure of `loop`, and the contents of the
      `text` and `counter` elements. */
  datatype Board = Board(count: nat, length: nat, text: string, counter: Counter)

  /** The board after the first `n` shapes were asked, as `AskShape` leaves
      it turn by turn. */
  function Shown(b0: Board, gs: seq<Geometry>, ps: seq<Phase>, ts: seq<bool>, key: string, n: nat): Board
    requires n <= |gs| == |ps| == |ts|
  {
    if n == 0 then b0
    else
      var b := Shown(b0, gs, ps, ts, key, n - 1);
      if Step(ps[n - 1], ts[n - 1]).1
      then Board(b.count + 1, b.length, Label(gs[n - 1].feature.properties, key), Tally(b.count + 1, b.length))
      else b
  }

  /** After the first `n` shapes were asked, the count grew by the number of
      reports and the length is kept; the text shows the label of the last
      shape that reported and the counter the tally, and with no report the
      board is as it was. */
  lemma {:induction false} ShownFacts(b0: Board, gs: seq<Geometry>, ps: seq<Phase>, ts: seq<bool>, key: string, n: nat)
    requires n <= |gs| == |ps| == |ts|
    ensures var b := Shown(b0, gs, ps, ts, key, n);
      var last := LastReporter(ps, ts, n);
      && b.count == b0.count + Reports(ps, ts, n) && b.length == b0.length
      && (last.None? ==> b == b0)
      && (last.Some? ==> b.text == Label(gs[last.value].feature.properties, key) && b.counter == Tally(b.count, b.length))
  {
    if n > 0 {
      ShownFacts(b0, gs, ps, ts, key, n - 1);
    }
  }

  /** One turn of the `forEach` of index.js:599-607, for the shape `gs[i]`:
      it is asked, and a report adds one to the count, shows the shape's label
      and the tally, and turns the ball to the shape's heading; the ball stays
      where it is. `before` and `ts` are the shapes' phases and whether the
      ball at `center` touches each when the `forEach` starts; `b0` and
      `ball0` are the board and the ball then. */
  method AskShape(gs: seq<Geometry>, i: nat, ball: Ball, inside: (Pos, Feature) -> bool, key: string, b: Board,
                  ghost center: Pos, ghost before: seq<Phase>, ghost ts: seq<bool>, ghost b0: Board, ghost ball0: BallState)
    returns (b': Board)
    requires i < |gs| == |before| == |ts|
    requires gs[i].phase == before[i] && ts[i] == Touched(center, gs[i].feature, inside)
    requires ball.Position() == center
    requires b == Shown(b0, gs, before, ts, key, i)
    requires ball.State() == TurnedBy(ball0, gs, LastReporter(before, ts, i))
    modifies gs[i], ball
    ensures gs[i].phase == Step(before[i], ts[i]).0
    ensures b' == Shown(b0, gs, before, ts, key, i + 1)
    ensures ball.State() == TurnedBy(ball0, gs, LastReporter(before, ts, i + 1))
    ensures ball.Position() == center && ball.stop == old(ball.stop)
  {
    b' := b;
    var feature := gs[i].Collide(ball, inside);
    if feature.Some? {
      var count := b'.count + 1;
      b' := Board(count, b'.length, Label(feature.value.properties, key), Tally(count, b'.length));
      assert LastReporter(before, ts, i + 1) == Some(i);
    } else {
      assert LastReporter(before, ts, i + 1) == LastReporter(before, ts, i);
    }
  }

  /** The `forEach` of index.js:599-607 over the shapes `gs`: every shape is
      asked once, in order, and each report is counted. The text shows the
      label of the last shape that reported, the counter the tally, and the
      ball takes that shape's heading; with no report nothing but the phases
      changes. `center` is where the ball is, and `before` and `ts` are the
      shapes' phases and whether the ball touches each, as they are when the
      loop starts. */
  method AskShapes(gs: seq<Geometry>, ball: Ball, inside: (Pos, Feature) -> bool, key: string, b0: Board,
                   ghost center: Pos, ghost before: seq<Phase>, ghost ts: seq<bool>)
    returns (b: Board)
    requires forall j, k :: 0 <= j < k < |gs| ==> gs[j] != gs[k]
    requires ball.Position() == center
    requires before == PhasesOf(gs) && ts == TouchesOf(gs, center, inside)
    modifies ball, gs
    ensures forall j :: 0 <= j < |gs| ==> gs[j].phase == Step(before[j], ts[j]).0
    ensures b.count == b0.count + Reports(before, ts, |gs|) && b.length == b0.length
    ensures var last := LastReporter(before, ts, |gs|);
      && ball.State() == TurnedBy(old(ball.State()), gs, last)
      && (last.None? ==> b == b0)
      && (last.Some? ==> b.text == Label(gs[last.value].feature.properties, key) && b.counter == Tally(b.count, b.length))
    ensures ball.Position() == center && ball.stop == old(ball.stop)
  {
    b := b0;
    ghost var ball0 := ball.State();
    var i := 0;
    while i < |gs|
      invariant 0 <= i <= |gs|
      invariant forall j :: 0 <= j < |gs| ==> gs[j].phase == if j < i then Step(before[j], ts[j]).0 else before[j]
      invariant b == Shown(b0, gs, before, ts, key, i)
      invariant ball.State() == TurnedBy(ball0, gs, LastReporter(before, ts, i))
      invariant ball.Position() == center && ball.stop == ball0.stop
    {
      label Before:
      b := AskShape(gs, i, ball, inside, key, b, center, before, ts, b0, ball0);
      assert forall j :: 0 <= j < |gs| && j != i ==> gs[j].phase == old@Before(gs[j].phase);
      i := i + 1;
    }
    ShownFacts(b0, gs, before, ts, key, |gs|);
  }

  /** The game object. Its ball and paddle are its own. */
  class MapBreaker {
    const ball: Ball
    const player: Player
    const propertyKey: string
    /** `_geometries`: unset until `wall` is called. */
    var geometries: Option<seq<Geometry>>
    /** Whether `loop` has been called. */
    var running: bool
    /** The shapes the frames test: `loop` copies `_geometries` once, so a
        later `wall` does not reach the running frames. */
    var frames: Option<seq<Geometry>>
    var board: Board

    /** The shapes the frames test, or none. */
    function Frames(): seq<Geometry>
      reads this
    {
      if frames.Some? then frames.value else []
    }

    /** The paddle is consistent and the shapes are distinct objects. */
    ghost predicate Valid()
      reads this, player, player.force
    {
      && player.Valid()
      && (geometries.Some? ==> forall i, j :: 0 <= i < j < |geometries.value| ==> geometries.value[i] != geometries.value[j])
      && (forall i, j :: 0 <= i < j < |Frames()| ==> Frames()[i] != Frames()[j])
    }

    /** The hit counter agrees with the shapes the frames test: it is the
        number of them struck so far. It holds from `loop` on when `loop`
        starts on a fresh wall. */
    ghost predicate Consistent()
      reads this, Frames()
    {
      board.count == NumStruck(PhasesOf(Frames()), |Frames()|)
    }

    /** `new MapBreaker(selector, options)` (index.js:407-514) with the key
        codes and the property key already chosen. No shapes are set. */
    constructor (leftKey: int, rightKey: int, propertyKey: string)
      ensures Valid()
      ensures fresh(ball) && fresh(player) && fresh(player.force)
      ensures ball.State() == InitialBall(ArenaWidth, ArenaHeight)
      ensures player.force.State() == Initial(ArenaWidth / 2.0) && player.flashes == 0
      ensures player.leftKey == leftKey && player.rightKey == rightKey
      ensures this.propertyKey == propertyKey
      ensures geometries == None && frames == None && !running
      ensures board == Board(0, 0, "", Blank)
    {
      ball := new Ball(ArenaWidth, ArenaHeight);
      player := new Player(ArenaWidth, ArenaHeight, leftKey, rightKey);
      this.propertyKey := propertyKey;
      geometries := None;
      running := false;
      frames := None;
      board := Board(0, 0, "", Blank);
    }

    /** `wall(data, projectionName)` (index.js:528-564): one new intact shape
        per feature, rescaled into the arena. `features` are the map's
        features after the projection, `extent` is their bounding box and
        `rotations` are the shapes' random rebound headings. Frames that are
        already running keep testing the shapes they copied. */
    method Wall(features: seq<Feature>, extent: Box, projected: bool, rotations: seq<real>)
      requires Valid()
      requires extent.minx != extent.maxx && extent.miny != extent.maxy
      requires |rotations| == |features|
      modifies this
      ensures Valid()
      ensures geometries.Some? && |geometries.value| == |features|
      ensures forall i :: 0 <= i < |geometries.value| ==>
        && fresh(geometries.value[i])
        && geometries.value[i].feature == GeoJson.Wall(features, extent, projected)[i]
        && geometries.value[i].rotation == rotations[i]
        && geometries.value[i].phase == Intact
      ensures frames == old(frames) && running == old(running) && board == old(board)
      ensures old(Consistent()) ==> Consistent()
    {
      var built := BuildShapes(GeoJson.Wall(features, extent, projected), rotations);
      geometries := Some(built);
      assert Frames() == old(Frames());
    }

    /** `loop()` (index.js:566-578) before its first frame: the frames take
        the shapes set so far (none if `wall` was not called), and the count
        and length start at zero; the elements keep what they show. */
    method Start()
      requires !running
      modifies this
      ensures running && frames == old(geometries) && geometries == old(geometries)
      ensures board == old(board).(count := 0, length := 0)
      ensures (forall i :: 0 <= i < |Frames()| ==> Frames()[i].phase == Intact) ==> Consistent()
      ensures old(Valid()) ==> Valid()
    {
      running := true;
      frames := geometries;
      board := board.(count := 0, length := 0);
      NumStruckFull(PhasesOf(Frames()), |Frames()|);
    }

    /** The first half of a frame (index.js:580-595): the paddle moves, the
        ball moves, and the paddle may turn the ball to its lean and flash. */
    method Advance(keys: map<int, bool>, heading: real -> Pos, jitter: real, overlap: (Box, Box) -> bool)
      requires player.Valid()
      requires -MaxJitter <= jitter < MaxJitter
      modifies ball, player, player.force
      ensures player.Valid()
      ensures player.force.State() == MoveForce(old(player.force.State()), Arena, keys, player.leftKey, player.rightKey)
      ensures var moved := MoveBall(old(ball.State()), Arena, heading(old(ball.rotation)), jitter);
        var touching := overlap(BallBox(Pos(moved.x, moved.y), true), player.Feature());
        && ball.State() == CollideBall(moved, touching, player.Rotation())
        && player.flashes == old(player.flashes) + (if touching then 1 else 0)
    {
      player.Move(Arena, keys);
      ball.Move(Arena, heading, jitter);
      ball.Collide(player, overlap);
    }

    /** The second half of a frame (index.js:596-613): every shape tests
        the ball, then the verdict is shown. */
    method Resolve(gs: seq<Geometry>, inside: (Pos, Feature) -> bool)
      requires frames == Some(gs)
      requires forall i, j :: 0 <= i < j < |gs| ==> gs[i] != gs[j]
      modifies this, ball, gs
      ensures frames == old(frames) && geometries == old(geometries) && running == old(running)
      ensures board.length == |gs|
      ensures ball.Position() == old(ball.Position()) && ball.stop == old(ball.stop)
      ensures var ts := TouchesOf(gs, ball.Position(), inside);
        var before := old(PhasesOf(gs));
        var last := LastReporter(before, ts, |gs|);
        && PhasesOf(gs) == Stepped(before, ts)
        && board.count == old(board.count) + Reports(before, ts, |gs|)
        && ball.State() == TurnedBy(old(ball.State()), gs, last)
        && board.counter == (if last.Some? then Tally(board.count, board.length) else old(board.counter))
        && board.text == Verdict(board.count, board.length, ball.stop,
             if last.Some? then Label(gs[last.value].feature.properties, propertyKey) else old(board.text))
      ensures old(Consistent()) ==> Consistent() && board.count <= board.length
      ensures board.count == board.length ==> board.text == "You Win"
      ensures board.count != board.length && ball.stop ==> board.text == "Game Over"
    {
      ghost var before := PhasesOf(gs);
      ghost var center := ball.Position();
      ghost var ts := TouchesOf(gs, center, inside);
      var b := AskShapes(gs, ball, inside, propertyKey, board.(length := |gs|), center, before, ts);
      assert PhasesOf(gs) == Stepped(before, ts);
      ReportsStrike(before, ts, |gs|);
      board := b.(text := Verdict(b.count, b.length, ball.stop, b.text));
    }

    /** One animation frame (index.js:579-615): move, let every shape test
        the ball, then show "You Win" once every shape is counted, or else
        "Game Over" once the ball is lost. When `loop` started before any
        `wall`, the frame moves the paddle and the ball and then throws at
        `geometries.length` (index.js:597), so it shows nothing. */
    method Tick(keys: map<int, bool>, heading: real -> Pos, jitter: real,
                overlap: (Box, Box) -> bool, inside: (Pos, Feature) -> bool)
      returns (thrown: bool)
      requires Valid() && running
      requires -MaxJitter <= jitter < MaxJitter
      modifies this, ball, player, player.force, Frames()
      ensures Valid()
      ensures frames == old(frames) && geometries == old(geometries) && running
      ensures thrown <==> frames.None?
      ensures player.force.State() == MoveForce(old(player.force.State()), Arena, keys, player.leftKey, player.rightKey)
      ensures var moved := MoveBall(old(ball.State()), Arena, heading(old(ball.rotation)), jitter);
        var touching := overlap(BallBox(Pos(moved.x, moved.y), true), player.Feature());
        var collided := CollideBall(moved, touching, player.Rotation());
        && player.flashes == old(player.flashes) + (if touching then 1 else 0)
        && ball.Position() == Pos(moved.x, moved.y) && ball.stop == moved.stop
        && (thrown ==> ball.State() == collided && board == old(board))
        && (!thrown ==>
              var gs := frames.value;
              var ts := TouchesOf(gs, ball.Position(), inside);
              var last := LastReporter(old(PhasesOf(Frames())), ts, |gs|);
              ball.State() == TurnedBy(collided, gs, last))
      ensures !thrown ==>
        var gs := frames.value;
        var ts := TouchesOf(gs, ball.Position(), inside);
        var before := old(PhasesOf(Frames()));
        var last := LastReporter(before, ts, |gs|);
        && board.length == |gs|
        && PhasesOf(gs) == Stepped(before, ts)
        && board.count == old(board.count) + Reports(before, ts, |gs|)
        && board.counter == (if last.Some? then Tally(board.count, board.length) else old(board.counter))
        && board.text == Verdict(board.count, board.length, ball.stop,
             if last.Some? then Label(gs[last.value].feature.properties, propertyKey) else old(board.text))
      ensures !thrown && old(Consistent()) ==> Consistent() && board.count <= board.length
      ensures !thrown && board.count == board.length ==> board.text == "You Win"
      ensures !thrown && board.count != board.length && ball.stop ==> board.text == "Game Over"
    {
      Advance(keys, heading, jitter, overlap);
      if frames.None? {
        return true;
      }
      Resolve(frames.value, inside);
      return false;
    }
  }

  /** With a consistent counter, a frame shows "You Win" exactly when every
      shape has been struck. */
  lemma WinMeansAllStruck(ps: seq<Phase>, count: nat)
    requires count == NumStruck(ps, |ps|)
    ensures count == |ps| <==> forall i :: 0 <= i < |ps| ==> ps[i] != Intact
  {
    NumStruckFull(ps, |ps|);
  }
}
