/** The obstacle-run simulator of Game.tsx: one frame of scrolling, gravity,
    obstacle interaction and clamping, the jump gate of the input handlers and
    the run reset. Numbers are exact reals, not IEEE doubles. */
module ObstacleRun {
  import opened Numeric

  datatype Kind = Spike | Block | Platform | SpeedBoost

  /** A hand-placed obstacle in world coordinates (y grows downward). */
  datatype Obstacle = Obstacle(x: real, y: real, width: real, height: real, kind: Kind)

  /** The parts of a level the simulation reads: its id, its scroll speed and
      its obstacles in authored order. */
  datatype Level = Level(id: int, speed: real, objects: seq<Obstacle>)

  const PLAYER_SIZE: real := 40.0
  const PLAYER_X: real := 100.0
  const GROUND_Y: real := 360.0
  const GRAVITY: real := 0.6
  const JUMP_STRENGTH: real := -12.0
  const BOOST_STEP: real := 0.5
  const MAX_MULTIPLIER: real := 2.5
  const LEVEL_MARGIN: real := 500.0
  /** playerY before the first run is started. */
  const INITIAL_Y: real := 320.0

  /** The level length is measured from the LAST obstacle's x, whatever its
      place in space. */
  function LevelLength(level: Level): real
    requires |level.objects| > 0
  {
    level.objects[|level.objects| - 1].x + LEVEL_MARGIN
  }

  /** A level the simulation can run: there is a last obstacle to measure the
      length from, the length is positive and the level moves forward. */
  predicate ValidLevel(level: Level) {
    |level.objects| > 0 && LevelLength(level) > 0.0 && level.speed > 0.0
  }

  /** min(cameraX / length * 100, 100). */
  function Progress(cameraX: real, length: real): real
    requires length > 0.0
  {
    Min(cameraX / length * 100.0, 100.0)
  }

  /** Progress lies in [0, 100], is exactly 100 once the camera reaches the
      level length, and below that is the camera's share of the length. */
  lemma ProgressBounds(cameraX: real, length: real)
    requires length > 0.0
    ensures var p := Progress(cameraX, length);
      && p <= 100.0
      && (cameraX >= 0.0 ==> p >= 0.0)
      && (p == 100.0 <==> cameraX >= length)
      && (p < 100.0 ==> p * length == cameraX * 100.0)
  {
    var raw := cameraX / length * 100.0;
    assert raw * length == cameraX * 100.0;
    assert raw >= 100.0 <==> cameraX >= length;
  }

  /** The axis-aligned overlap test between the player's square at the fixed
      screen column PLAYER_X and an obstacle projected to the screen. */
  predicate Overlaps(obj: Obstacle, cameraX: real, playerY: real) {
    var screenX := obj.x - cameraX;
    && PLAYER_X + PLAYER_SIZE > screenX
    && PLAYER_X < screenX + obj.width
    && playerY + PLAYER_SIZE > obj.y
    && playerY < obj.y + obj.height
  }

  /** The multiplier reached after collecting n boosts, starting from 1. */
  function MultiplierFor(n: nat): (m: real)
    ensures 1.0 <= m <= MAX_MULTIPLIER
    ensures n == 0 ==> m == 1.0
    ensures n == 1 ==> m == 1.5
    ensures n == 2 ==> m == 2.0
    ensures n >= 3 ==> m == MAX_MULTIPLIER
  {
    Min(1.0 + BOOST_STEP * (n as real), MAX_MULTIPLIER)
  }

  /** The values the obstacle loop of a tick works on. */
  datatype Sweep = Sweep(y: real, v: real, onGround: bool, multiplier: real, boosts: seq<nat>, hitSpike: bool)

  /** The effect of obstacle i on the loop's values. */
  function Touch(obj: Obstacle, i: nat, cameraX: real, w: Sweep): (r: Sweep)
    ensures !Overlaps(obj, cameraX, w.y) ==> r == w
    ensures r.hitSpike <==> w.hitSpike || (obj.kind == Spike && Overlaps(obj, cameraX, w.y))
    ensures obj.kind == Spike ==> r.(hitSpike := w.hitSpike) == w
    ensures obj.kind == SpeedBoost ==> r.y == w.y && r.v == w.v && r.onGround == w.onGround && r.hitSpike == w.hitSpike
    ensures obj.kind == SpeedBoost && i in w.boosts ==> r == w
    ensures obj.kind == SpeedBoost && Overlaps(obj, cameraX, w.y) && i !in w.boosts ==>
              r.boosts == w.boosts + [i] && r.multiplier == Min(w.multiplier + BOOST_STEP, MAX_MULTIPLIER)
    ensures (obj.kind == Platform || obj.kind == Block) ==>
              r.multiplier == w.multiplier && r.boosts == w.boosts && r.hitSpike == w.hitSpike
    ensures (obj.kind == Platform || obj.kind == Block) && Overlaps(obj, cameraX, w.y) ==>
              if w.v > 0.0 && w.y + PLAYER_SIZE - w.v <= obj.y
              then r.y == obj.y - PLAYER_SIZE && r.v == 0.0 && r.onGround
              else r == w
  {
    if !Overlaps(obj, cameraX, w.y) then w
    else match obj.kind
      case Spike => w.(hitSpike := true)
      case SpeedBoost =>
        if i in w.boosts then w
        else w.(multiplier := Min(w.multiplier + BOOST_STEP, MAX_MULTIPLIER), boosts := w.boosts + [i])
      case _ =>
        if w.v > 0.0 && w.y + PLAYER_SIZE - w.v <= obj.y
        then w.(y := obj.y - PLAYER_SIZE, v := 0.0, onGround := true)
        else w
  }

  /** The obstacle loop from index i on, in authored order, stopping at the
      first spike that overlaps. */
  function SweepFrom(objs: seq<Obstacle>, cameraX: real, i: nat, w: Sweep): Sweep
    requires i <= |objs|
    decreases |objs| - i
  {
    if i == |objs| || w.hitSpike then w
    else SweepFrom(objs, cameraX, i + 1, Touch(objs[i], i, cameraX, w))
  }

  /** The ground and ceiling clamp, applied in that order. */
  function Clamp(w: Sweep): (r: Sweep)
    ensures 0.0 <= r.y <= GROUND_Y
    ensures w.y >= GROUND_Y ==> r == w.(y := GROUND_Y, v := 0.0, onGround := true)
    ensures w.y < 0.0 ==> r == w.(y := 0.0, v := 0.0)
    ensures 0.0 <= w.y < GROUND_Y ==> r == w
  {
    var grounded := if w.y >= GROUND_Y then w.(y := GROUND_Y, v := 0.0, onGround := true) else w;
    if grounded.y < 0.0 then grounded.(y := 0.0, v := 0.0) else grounded
  }

  /** The state slots of the game component that a frame reads and writes. */
  datatype RunState = RunState(
    isPlaying: bool, gameOver: bool, victory: bool,
    playerY: real, velocityY: real, isJumping: bool,
    cameraX: real, progress: real, attempts: nat,
    speedMultiplier: real, collectedBoosts: seq<nat>)
  {
    predicate Running() {
      isPlaying && !gameOver && !victory
    }
  }

  /** The values with which the component starts, before any run. */
  const Initial: RunState :=
    RunState(false, false, false, INITIAL_Y, 0.0, false, 0.0, 0.0, 0, 1.0, [])

  /** The camera after this frame's scroll. */
  function ScrolledCamera(level: Level, s: RunState): real {
    s.cameraX + level.speed * s.speedMultiplier
  }

  /** The loop's starting values: gravity added to the velocity, then the new
      velocity added to the position; not on the ground. */
  function Integrated(s: RunState): Sweep {
    var v := s.velocityY + GRAVITY;
    Sweep(s.playerY + v, v, false, s.speedMultiplier, s.collectedBoosts, false)
  }

  /** The state a frame publishes once its obstacle loop has produced w. */
  function Publish(s: RunState, cam: real, p: real, w: Sweep): RunState {
    if w.hitSpike then
      s.(cameraX := cam, progress := p, gameOver := true, isPlaying := false,
         attempts := s.attempts + 1, speedMultiplier := w.multiplier, collectedBoosts := w.boosts)
    else
      var c := Clamp(w);
      s.(cameraX := cam, progress := p, playerY := c.y, velocityY := c.v, isJumping := !c.onGround,
         speedMultiplier := c.multiplier, collectedBoosts := c.boosts)
  }

  /** One frame of gameLoop. Outside a running game the frame does nothing. */
  function Step(level: Level, s: RunState): RunState
    requires ValidLevel(level)
  {
    if !s.Running() then s
    else
      var cam := ScrolledCamera(level, s);
      var p := Progress(cam, LevelLength(level));
      if p >= 100.0 then
        s.(cameraX := cam, progress := p, victory := true, isPlaying := false)
      else
        Publish(s, cam, p, SweepFrom(level.objects, cam, 0, Integrated(s)))
  }

  /** n frames in a row. */
  function Ticks(level: Level, s: RunState, n: nat): RunState
    requires ValidLevel(level)
  {
    if n == 0 then s else Step(level, Ticks(level, s, n - 1))
  }

  /** The jump handler: velocity becomes JUMP_STRENGTH only while playing and
      not airborne. */
  function Jumped(s: RunState): (r: RunState)
    ensures s.isPlaying && !s.isJumping ==> r == s.(velocityY := JUMP_STRENGTH)
    ensures !(s.isPlaying && !s.isJumping) ==> r == s
  {
    if s.isPlaying && !s.isJumping then s.(velocityY := JUMP_STRENGTH) else s
  }

  /** startGame. It leaves attempts and isJumping as they were. */
  function Restarted(s: RunState): RunState {
    s.(isPlaying := true, gameOver := false, victory := false, playerY := GROUND_Y,
       velocityY := 0.0, cameraX := 0.0, progress := 0.0, speedMultiplier := 1.0, collectedBoosts := [])
  }

  /** Every collected index is a distinct speed boost of the level. */
  ghost predicate BoostsValid(objs: seq<Obstacle>, boosts: seq<nat>) {
    && (forall k :: 0 <= k < |boosts| ==> boosts[k] < |objs| && objs[boosts[k]].kind == SpeedBoost)
    && (forall k, l :: 0 <= k < l < |boosts| ==> boosts[k] != boosts[l])
  }

  /** What holds of the component's state between frames. */
  ghost predicate Inv(level: Level, s: RunState)
    requires ValidLevel(level)
  {
    && 0.0 <= s.playerY <= GROUND_Y
    && s.cameraX >= 0.0
    && s.progress == Progress(s.cameraX, LevelLength(level))
    && (s.victory <==> s.progress == 100.0)
    && BoostsValid(level.objects, s.collectedBoosts)
    && s.speedMultiplier == MultiplierFor(|s.collectedBoosts|)
  }

  // ---------------------------------------------------------------------
  // Lemmas about the obstacle loop

  /** Collecting a boost keeps the multiplier in step with the number of
      distinct boosts collected. */
  lemma TouchKeepsBoosts(objs: seq<Obstacle>, cameraX: real, i: nat, w: Sweep)
    requires i < |objs|
    requires BoostsValid(objs, w.boosts) && w.multiplier == MultiplierFor(|w.boosts|)
    ensures var r := Touch(objs[i], i, cameraX, w);
      && BoostsValid(objs, r.boosts) && r.multiplier == MultiplierFor(|r.boosts|)
      && w.boosts <= r.boosts
  {
    var r := Touch(objs[i], i, cameraX, w);
    if r.boosts != w.boosts {
      assert r.boosts == w.boosts + [i];
      forall k, l | 0 <= k < l < |r.boosts| ensures r.boosts[k] != r.boosts[l] {
        if l == |w.boosts| { assert r.boosts[k] in w.boosts; }
      }
    }
  }

  /** The loop keeps the boost invariant, only appends to the collected
      list and never lowers the multiplier. */
  lemma {:induction false} SweepKeepsBoosts(objs: seq<Obstacle>, cameraX: real, i: nat, w: Sweep)
    requires i <= |objs|
    requires BoostsValid(objs, w.boosts) && w.multiplier == MultiplierFor(|w.boosts|)
    ensures var r := SweepFrom(objs, cameraX, i, w);
      && BoostsValid(objs, r.boosts) && r.multiplier == MultiplierFor(|r.boosts|)
      && w.boosts <= r.boosts && w.multiplier <= r.multiplier <= MAX_MULTIPLIER
    decreases |objs| - i
  {
    if i < |objs| && !w.hitSpike {
      TouchKeepsBoosts(objs, cameraX, i, w);
      SweepKeepsBoosts(objs, cameraX, i + 1, Touch(objs[i], i, cameraX, w));
    }
  }

  /** A spike that overlaps at index i ends the loop there: no later obstacle
      is looked at. */
  lemma SpikeStopsSweep(objs: seq<Obstacle>, cameraX: real, i: nat, w: Sweep)
    requires i < |objs| && !w.hitSpike
    requires objs[i].kind == Spike && Overlaps(objs[i], cameraX, w.y)
    ensures SweepFrom(objs, cameraX, i, w) == w.(hitSpike := true)
  {
  }

  /** When nothing from index i on overlaps the player, the loop changes
      nothing. */
  lemma {:induction false} SweepWithoutOverlap(objs: seq<Obstacle>, cameraX: real, i: nat, w: Sweep)
    requires i <= |objs|
    requires forall j :: i <= j < |objs| ==> !Overlaps(objs[j], cameraX, w.y)
    ensures SweepFrom(objs, cameraX, i, w) == w
    decreases |objs| - i
  {
    if i < |objs| && !w.hitSpike {
      SweepWithoutOverlap(objs, cameraX, i + 1, w);
    }
  }

  /** A collected boost is never collected again: touching it changes
      nothing. */
  lemma {:induction false} CollectedBoostIsInert(objs: seq<Obstacle>, cameraX: real, i: nat, w: Sweep, b: nat)
    requires i <= |objs| && b in w.boosts
    ensures var r := SweepFrom(objs, cameraX, i, w); b in r.boosts && multiset(r.boosts)[b] == multiset(w.boosts)[b]
    decreases |objs| - i
  {
    if i < |objs| && !w.hitSpike {
      var t := Touch(objs[i], i, cameraX, w);
      assert multiset(t.boosts)[b] == multiset(w.boosts)[b] by {
        if t.boosts != w.boosts {
          assert t.boosts == w.boosts + [i] && i != b;
        }
      }
      CollectedBoostIsInert(objs, cameraX, i + 1, t, b);
    }
  }

  // ---------------------------------------------------------------------
  // Lemmas about a frame

  /** A frame keeps the between-frames invariant. */
  lemma StepKeepsInv(level: Level, s: RunState)
    requires ValidLevel(level) && Inv(level, s)
    ensures Inv(level, Step(level, s))
  {
    if s.Running() {
      var cam := ScrolledCamera(level, s);
      assert cam >= s.cameraX;
      var p := Progress(cam, LevelLength(level));
      if p < 100.0 {
        var w0 := Integrated(s);
        SweepKeepsBoosts(level.objects, cam, 0, w0);
      }
    }
  }

  lemma InitialInv(level: Level)
    requires ValidLevel(level)
    ensures Inv(level, Initial)
  {
  }

  lemma RestartedInv(level: Level, s: RunState)
    requires ValidLevel(level)
    ensures Inv(level, Restarted(s))
    ensures Restarted(s).Running()
  {
  }

  lemma JumpedInv(level: Level, s: RunState)
    requires ValidLevel(level) && Inv(level, s)
    ensures Inv(level, Jumped(s))
  {
  }

  /** After every frame the player is between the ceiling and the ground. */
  lemma StepKeepsPlayerInBounds(level: Level, s: RunState)
    requires ValidLevel(level) && Inv(level, s)
    ensures 0.0 <= Step(level, s).playerY <= GROUND_Y
  {
    StepKeepsInv(level, s);
  }

  /** A running frame scrolls the camera by exactly speed * multiplier, so the
      camera moves strictly forward; the multiplier never drops and never
      exceeds 2.5, and collected boosts stay collected. */
  lemma StepAdvances(level: Level, s: RunState)
    requires ValidLevel(level) && Inv(level, s) && s.Running()
    ensures var r := Step(level, s);
      && r.cameraX == s.cameraX + level.speed * s.speedMultiplier
      && r.cameraX > s.cameraX
      && s.speedMultiplier <= r.speedMultiplier <= MAX_MULTIPLIER
      && s.collectedBoosts <= r.collectedBoosts
      && r.progress >= s.progress
  {
    var cam := ScrolledCamera(level, s);
    assert level.speed * s.speedMultiplier > 0.0;
    ProgressMonotone(s.cameraX, cam, LevelLength(level));
    var p := Progress(cam, LevelLength(level));
    if p < 100.0 {
      var w0 := Integrated(s);
      SweepKeepsBoosts(level.objects, cam, 0, w0);
    }
  }

  lemma ProgressMonotone(c0: real, c1: real, length: real)
    requires length > 0.0 && c0 <= c1
    ensures Progress(c0, length) <= Progress(c1, length)
  {
    var r0, r1 := c0 / length * 100.0, c1 / length * 100.0;
    assert r0 * length == c0 * 100.0 && r1 * length == c1 * 100.0;
    assert r0 <= r1;
  }

  /** A frame ends in a win exactly when the scrolled camera reaches the level
      length; a winning frame changes nothing but the camera, the progress and
      the outcome. */
  lemma StepWins(level: Level, s: RunState)
    requires ValidLevel(level) && s.Running()
    ensures var r := Step(level, s);
      var cam := ScrolledCamera(level, s);
      && (r.victory <==> cam >= LevelLength(level))
      && (r.victory ==> r == s.(cameraX := cam, progress := 100.0, victory := true, isPlaying := false))
  {
  }

  /** A frame kills the player exactly when the loop meets an overlapping
      spike; the death counts one attempt and leaves the player where the
      frame found them. */
  lemma StepDies(level: Level, s: RunState)
    requires ValidLevel(level) && s.Running()
    ensures var r := Step(level, s); var cam := ScrolledCamera(level, s);
      && (r.gameOver <==> Progress(cam, LevelLength(level)) < 100.0
                          && SweepFrom(level.objects, cam, 0, Integrated(s)).hitSpike)
      && (r.gameOver ==> !r.isPlaying && !r.victory && r.attempts == s.attempts + 1
                         && r.playerY == s.playerY && r.velocityY == s.velocityY && r.isJumping == s.isJumping)
      && (!r.gameOver ==> r.attempts == s.attempts)
  {
  }

  /** Dead and won runs are sinks: no further frame changes them. */
  lemma OutcomesAreSinks(level: Level, s: RunState, n: nat)
    requires ValidLevel(level) && (s.gameOver || s.victory)
    ensures Ticks(level, s, n) == s
  {
    if n > 0 { OutcomesAreSinks(level, s, n - 1); }
  }

  /** Vertical integration adds gravity to the velocity first and then the new
      velocity to the position; with nothing overlapping and no clamp the
      frame ends exactly there, airborne. */
  lemma StepIntegrates(level: Level, s: RunState)
    requires ValidLevel(level) && s.Running()
    requires Progress(ScrolledCamera(level, s), LevelLength(level)) < 100.0
    requires var cam := ScrolledCamera(level, s);
      forall j :: 0 <= j < |level.objects| ==>
        !Overlaps(level.objects[j], cam, s.playerY + s.velocityY + GRAVITY)
    requires 0.0 <= s.playerY + s.velocityY + GRAVITY < GROUND_Y
    ensures var r := Step(level, s);
      && r.velocityY == s.velocityY + GRAVITY
      && r.playerY == s.playerY + r.velocityY
      && r.isJumping && r.Running()
      && r.speedMultiplier == s.speedMultiplier && r.collectedBoosts == s.collectedBoosts
  {
    var cam := ScrolledCamera(level, s);
    SweepWithoutOverlap(level.objects, cam, 0, Integrated(s));
  }

  /** With nothing overlapping, reaching the ground zeroes the velocity and
      grounds the player; passing the ceiling zeroes it and leaves the player
      airborne. */
  lemma StepClamps(level: Level, s: RunState)
    requires ValidLevel(level) && s.Running()
    requires Progress(ScrolledCamera(level, s), LevelLength(level)) < 100.0
    requires var cam := ScrolledCamera(level, s);
      forall j :: 0 <= j < |level.objects| ==>
        !Overlaps(level.objects[j], cam, s.playerY + s.velocityY + GRAVITY)
    ensures var r := Step(level, s); var y := s.playerY + s.velocityY + GRAVITY;
      && (y >= GROUND_Y ==> r.playerY == GROUND_Y && r.velocityY == 0.0 && !r.isJumping)
      && (y < 0.0 ==> r.playerY == 0.0 && r.velocityY == 0.0 && r.isJumping)
  {
    var cam := ScrolledCamera(level, s);
    SweepWithoutOverlap(level.objects, cam, 0, Integrated(s));
  }

  /** A boost collected earlier in the run does nothing when touched again:
      a frame leaves it in the collected list exactly as often as before. */
  lemma StepBoostIdempotent(level: Level, s: RunState, b: nat)
    requires ValidLevel(level) && Inv(level, s) && b in s.collectedBoosts
    ensures var r := Step(level, s);
      b in r.collectedBoosts && multiset(r.collectedBoosts)[b] == multiset(s.collectedBoosts)[b]
  {
    if s.Running() {
      var cam := ScrolledCamera(level, s);
      if Progress(cam, LevelLength(level)) < 100.0 {
        CollectedBoostIsInert(level.objects, cam, 0, Integrated(s), b);
      }
    }
  }

  /** The obstacle loop of gameLoop: every obstacle in authored order, each
      handled by its kind when it overlaps the player; an overlapping spike
      ends the loop at once. */
  method ResolveObstacles(objs: seq<Obstacle>, currentCameraX: real, start: Sweep) returns (w: Sweep)
    requires !start.hitSpike
    ensures w == SweepFrom(objs, currentCameraX, 0, start)
  {
    var currentPlayerY, currentVelocityY, isOnGround := start.y, start.v, start.onGround;
    var currentSpeedMultiplier, currentCollectedBoosts := start.multiplier, start.boosts;
    var i: nat := 0;
    while i < |objs|
      invariant i <= |objs|
      invariant SweepFrom(objs, currentCameraX, 0, start) ==
        SweepFrom(objs, currentCameraX, i,
          Sweep(currentPlayerY, currentVelocityY, isOnGround, currentSpeedMultiplier, currentCollectedBoosts, false))
    {
      ghost var before := Sweep(currentPlayerY, currentVelocityY, isOnGround, currentSpeedMultiplier, currentCollectedBoosts, false);
      var obj := objs[i];
      var objScreenX := obj.x - currentCameraX;
      if PLAYER_X + PLAYER_SIZE > objScreenX && PLAYER_X < objScreenX + obj.width
         && currentPlayerY + PLAYER_SIZE > obj.y && currentPlayerY < obj.y + obj.height
      {
        if obj.kind == Spike {
          return Sweep(currentPlayerY, currentVelocityY, isOnGround, currentSpeedMultiplier, currentCollectedBoosts, true);
        }
        if obj.kind == SpeedBoost && i !in currentCollectedBoosts {
          currentSpeedMultiplier := Min(currentSpeedMultiplier + BOOST_STEP, MAX_MULTIPLIER);
          currentCollectedBoosts := currentCollectedBoosts + [i];
        }
        if obj.kind == Platform || obj.kind == Block {
          if currentVelocityY > 0.0 && currentPlayerY + PLAYER_SIZE - currentVelocityY <= obj.y {
            currentPlayerY := obj.y - PLAYER_SIZE;
            currentVelocityY := 0.0;
            isOnGround := true;
          }
        }
      }
      assert Sweep(currentPlayerY, currentVelocityY, isOnGround, currentSpeedMultiplier, currentCollectedBoosts, false)
        == Touch(obj, i, currentCameraX, before);
      i := i + 1;
    }
    w := Sweep(currentPlayerY, currentVelocityY, isOnGround, currentSpeedMultiplier, currentCollectedBoosts, false);
  }

  // ---------------------------------------------------------------------
  // The component's state, updated in place

  class Run {
    const level: Level
    var isPlaying: bool
    var gameOver: bool
    var victory: bool
    var playerY: real
    var velocityY: real
    var isJumping: bool
    var cameraX: real
    var progress: real
    var attempts: nat
    var speedMultiplier: real
    var collectedBoosts: seq<nat>

    function State(): RunState
      reads this
    {
      RunState(isPlaying, gameOver, victory, playerY, velocityY, isJumping,
               cameraX, progress, attempts, speedMultiplier, collectedBoosts)
    }

    ghost predicate Valid()
      reads this
    {
      ValidLevel(level) && Inv(level, State())
    }

    constructor (level: Level)
      requires ValidLevel(level)
      ensures Valid() && this.level == level && State() == Initial
    {
      this.level := level;
      isPlaying, gameOver, victory := false, false, false;
      playerY, velocityY, isJumping := INITIAL_Y, 0.0, false;
      cameraX, progress, attempts := 0.0, 0.0, 0;
      speedMultiplier, collectedBoosts := 1.0, [];
    }

    /** The setState calls that end a frame: every field at once. */
    method Commit(r: RunState)
      modifies this
      ensures State() == r
    {
      isPlaying, gameOver, victory := r.isPlaying, r.gameOver, r.victory;
      playerY, velocityY, isJumping := r.playerY, r.velocityY, r.isJumping;
      cameraX, progress, attempts := r.cameraX, r.progress, r.attempts;
      speedMultiplier, collectedBoosts := r.speedMultiplier, r.collectedBoosts;
    }

    /** One frame of gameLoop. */
    method Tick()
      requires Valid()
      modifies this
      ensures State() == Step(level, old(State()))
      ensures Valid()
    {
      var s := State();
      if !isPlaying || gameOver || victory {
        return;
      }
      var currentCameraX := cameraX + level.speed * speedMultiplier;
      var progressPercent := Min(currentCameraX / LevelLength(level) * 100.0, 100.0);
      assert currentCameraX == ScrolledCamera(level, s);
      assert progressPercent == Progress(currentCameraX, LevelLength(level));
      if progressPercent >= 100.0 {
        StepKeepsInv(level, s);
        Commit(s.(cameraX := currentCameraX, progress := progressPercent, victory := true, isPlaying := false));
        return;
      }
      var currentVelocityY := velocityY + GRAVITY;
      var currentPlayerY := playerY + currentVelocityY;
      var w := ResolveObstacles(level.objects, currentCameraX,
        Sweep(currentPlayerY, currentVelocityY, false, speedMultiplier, collectedBoosts, false));
      assert Step(level, s) == Publish(s, currentCameraX, progressPercent, w);
      StepKeepsInv(level, s);
      if w.hitSpike {
        Commit(s.(cameraX := currentCameraX, progress := progressPercent, gameOver := true, isPlaying := false,
          attempts := attempts + 1, speedMultiplier := w.multiplier, collectedBoosts := w.boosts));
        return;
      }
      currentPlayerY, currentVelocityY := w.y, w.v;
      var isOnGround := w.onGround;
      if currentPlayerY >= GROUND_Y {
        currentPlayerY := GROUND_Y;
        currentVelocityY := 0.0;
        isOnGround := true;
      }
      if currentPlayerY < 0.0 {
        currentPlayerY := 0.0;
        currentVelocityY := 0.0;
      }
      assert Clamp(w) == w.(y := currentPlayerY, v := currentVelocityY, onGround := isOnGround);
      Commit(s.(cameraX := currentCameraX, progress := progressPercent,
        playerY := currentPlayerY, velocityY := currentVelocityY, isJumping := !isOnGround,
        speedMultiplier := w.multiplier, collectedBoosts := w.boosts));
    }

    /** The click handler. */
    method Click()
      requires Valid()
      modifies this
      ensures Valid() && State() == Jumped(old(State()))
    {
      JumpedInv(level, State());
      if isPlaying && !isJumping {
        velocityY := JUMP_STRENGTH;
      }
    }

    /** The key handler: only Space and ArrowUp jump. */
    method KeyDown(code: string)
      requires Valid()
      modifies this
      ensures Valid()
      ensures State() == if code == "Space" || code == "ArrowUp" then Jumped(old(State())) else old(State())
    {
      JumpedInv(level, State());
      if (code == "Space" || code == "ArrowUp") && isPlaying && !isJumping {
        velocityY := JUMP_STRENGTH;
      }
    }

    /** startGame. */
    method StartGame()
      requires Valid()
      modifies this
      ensures Valid() && State() == Restarted(old(State()))
    {
      RestartedInv(level, State());
      isPlaying := true;
      gameOver := false;
      victory := false;
      playerY := GROUND_Y;
      velocityY := 0.0;
      cameraX := 0.0;
      progress := 0.0;
      speedMultiplier := 1.0;
      collectedBoosts := [];
    }
  }
}
