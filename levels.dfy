/** The five built-in levels of Game.tsx as concrete data, the lookup that
    picks the level a game runs, and facts about particular runs. */
module Levels {
  import opened Optional
  import opened ObstacleRun

  // Each obstacle is Obstacle(x, y, width, height, kind), in authored order.

  const LEVEL_1: Level := Level(1, 5.0, [
    Obstacle(300.0, 350.0, 40.0, 40.0, Spike), Obstacle(500.0, 350.0, 40.0, 40.0, Spike), Obstacle(700.0, 300.0, 100.0, 50.0, Platform),
    Obstacle(900.0, 350.0, 40.0, 40.0, Spike), Obstacle(1100.0, 250.0, 120.0, 50.0, Platform), Obstacle(1300.0, 350.0, 40.0, 40.0, Spike),
    Obstacle(1500.0, 320.0, 80.0, 50.0, Block), Obstacle(1700.0, 350.0, 40.0, 40.0, Spike), Obstacle(1900.0, 280.0, 100.0, 50.0, Platform),
    Obstacle(2100.0, 350.0, 40.0, 40.0, Spike)
  ])

  const LEVEL_2: Level := Level(2, 6.0, [
    Obstacle(250.0, 350.0, 40.0, 40.0, Spike), Obstacle(400.0, 280.0, 100.0, 50.0, Platform), Obstacle(600.0, 350.0, 40.0, 40.0, Spike),
    Obstacle(700.0, 350.0, 40.0, 40.0, Spike), Obstacle(900.0, 240.0, 120.0, 50.0, Platform), Obstacle(1100.0, 350.0, 40.0, 40.0, Spike),
    Obstacle(1250.0, 300.0, 80.0, 50.0, Block), Obstacle(1450.0, 350.0, 40.0, 40.0, Spike), Obstacle(1600.0, 260.0, 100.0, 50.0, Platform),
    Obstacle(1800.0, 350.0, 40.0, 40.0, Spike), Obstacle(2000.0, 350.0, 40.0, 40.0, Spike), Obstacle(2200.0, 220.0, 120.0, 50.0, Platform)
  ])

  const LEVEL_3: Level := Level(3, 7.0, [
    Obstacle(200.0, 350.0, 40.0, 40.0, Spike), Obstacle(350.0, 250.0, 100.0, 50.0, Platform), Obstacle(550.0, 350.0, 40.0, 40.0, Spike),
    Obstacle(650.0, 350.0, 40.0, 40.0, Spike), Obstacle(800.0, 200.0, 120.0, 50.0, Platform), Obstacle(1000.0, 350.0, 40.0, 40.0, Spike),
    Obstacle(1100.0, 350.0, 40.0, 40.0, Spike), Obstacle(1200.0, 300.0, 50.0, 60.0, SpeedBoost), Obstacle(1250.0, 280.0, 80.0, 50.0, Block),
    Obstacle(1450.0, 350.0, 40.0, 40.0, Spike), Obstacle(1600.0, 230.0, 100.0, 50.0, Platform), Obstacle(1800.0, 350.0, 40.0, 40.0, Spike),
    Obstacle(1900.0, 350.0, 40.0, 40.0, Spike), Obstacle(2100.0, 190.0, 120.0, 50.0, Platform), Obstacle(2300.0, 350.0, 40.0, 40.0, Spike)
  ])

  const LEVEL_4: Level := Level(4, 8.0, [
    Obstacle(180.0, 350.0, 40.0, 40.0, Spike), Obstacle(280.0, 350.0, 40.0, 40.0, Spike), Obstacle(430.0, 240.0, 100.0, 50.0, Platform),
    Obstacle(600.0, 280.0, 50.0, 60.0, SpeedBoost), Obstacle(630.0, 350.0, 40.0, 40.0, Spike), Obstacle(730.0, 350.0, 40.0, 40.0, Spike),
    Obstacle(880.0, 180.0, 120.0, 50.0, Platform), Obstacle(1080.0, 350.0, 40.0, 40.0, Spike), Obstacle(1180.0, 350.0, 40.0, 40.0, Spike),
    Obstacle(1330.0, 270.0, 80.0, 50.0, Block), Obstacle(1530.0, 350.0, 40.0, 40.0, Spike), Obstacle(1680.0, 210.0, 100.0, 50.0, Platform),
    Obstacle(1850.0, 260.0, 50.0, 60.0, SpeedBoost), Obstacle(1880.0, 350.0, 40.0, 40.0, Spike), Obstacle(1980.0, 350.0, 40.0, 40.0, Spike),
    Obstacle(2180.0, 170.0, 120.0, 50.0, Platform), Obstacle(2380.0, 350.0, 40.0, 40.0, Spike), Obstacle(2480.0, 350.0, 40.0, 40.0, Spike)
  ])

  const LEVEL_5: Level := Level(5, 9.0, [
    Obstacle(150.0, 350.0, 40.0, 40.0, Spike), Obstacle(250.0, 350.0, 40.0, 40.0, Spike), Obstacle(350.0, 350.0, 40.0, 40.0, Spike),
    Obstacle(500.0, 230.0, 100.0, 50.0, Platform), Obstacle(670.0, 270.0, 50.0, 60.0, SpeedBoost), Obstacle(700.0, 350.0, 40.0, 40.0, Spike),
    Obstacle(800.0, 350.0, 40.0, 40.0, Spike), Obstacle(950.0, 160.0, 120.0, 50.0, Platform), Obstacle(1150.0, 350.0, 40.0, 40.0, Spike),
    Obstacle(1250.0, 350.0, 40.0, 40.0, Spike), Obstacle(1400.0, 260.0, 80.0, 50.0, Block), Obstacle(1570.0, 280.0, 50.0, 60.0, SpeedBoost),
    Obstacle(1600.0, 350.0, 40.0, 40.0, Spike), Obstacle(1750.0, 190.0, 100.0, 50.0, Platform), Obstacle(1950.0, 350.0, 40.0, 40.0, Spike),
    Obstacle(2050.0, 350.0, 40.0, 40.0, Spike), Obstacle(2220.0, 240.0, 50.0, 60.0, SpeedBoost), Obstacle(2250.0, 150.0, 120.0, 50.0, Platform),
    Obstacle(2450.0, 350.0, 40.0, 40.0, Spike), Obstacle(2550.0, 350.0, 40.0, 40.0, Spike), Obstacle(2650.0, 350.0, 40.0, 40.0, Spike)
  ])
  const LEVELS: seq<Level> := [LEVEL_1, LEVEL_2, LEVEL_3, LEVEL_4, LEVEL_5]

  /** The first level in the list with the given id, if there is one. */
  function FindLevel(levels: seq<Level>, id: int): (r: Option<Level>)
    ensures r.None? <==> forall k :: 0 <= k < |levels| ==> levels[k].id != id
    ensures r.Some? ==> exists k :: 0 <= k < |levels| && levels[k] == r.value && r.value.id == id &&
                                    forall j :: 0 <= j < k ==> levels[j].id != id
  {
    if |levels| == 0 then None
    else if levels[0].id == id then Some(levels[0])
    else
      var r := FindLevel(levels[1..], id);
      if r.Some? then
        ghost var k :| 0 <= k < |levels[1..]| && levels[1..][k] == r.value && r.value.id == id &&
                       forall j :: 0 <= j < k ==> levels[1..][j].id != id;
        assert levels[k + 1] == r.value;
        r
      else r
  }

  /** The level a game runs: the one with the requested id, or the first
      level when no level has that id. */
  function SelectLevel(levelId: int): (l: Level)
    ensures l in LEVELS
    ensures (exists k :: 0 <= k < |LEVELS| && LEVELS[k].id == levelId) ==> l.id == levelId
    ensures (forall k :: 0 <= k < |LEVELS| ==> LEVELS[k].id != levelId) ==> l == LEVEL_1
  {
    match FindLevel(LEVELS, levelId)
    case Some(l) => l
    case None => LEVELS[0]
  }

  /** Obstacles in non-decreasing order of x, each next to the one before. */
  predicate SortedByX(objs: seq<Obstacle>) {
    forall j :: 0 < j < |objs| ==> objs[j - 1].x <= objs[j].x
  }

  /** In a list sorted by x the last obstacle is the farthest, so measuring
      the level from the last obstacle is measuring it from the farthest. */
  lemma {:induction false} LastIsFarthest(objs: seq<Obstacle>, j: nat)
    requires SortedByX(objs) && j < |objs|
    ensures objs[j].x <= objs[|objs| - 1].x
    decreases |objs| - j
  {
    if j < |objs| - 1 {
      LastIsFarthest(objs, j + 1);
    }
  }

  lemma Level1IsSorted()
    ensures ValidLevel(LEVEL_1) && SortedByX(LEVEL_1.objects)
  {
  }

  lemma Level2IsSorted()
    ensures ValidLevel(LEVEL_2) && SortedByX(LEVEL_2.objects)
  {
  }

  lemma Level3IsSorted()
    ensures ValidLevel(LEVEL_3) && SortedByX(LEVEL_3.objects)
  {
  }

  lemma Level4IsSorted()
    ensures ValidLevel(LEVEL_4) && SortedByX(LEVEL_4.objects)
  {
  }

  lemma Level5IsSorted()
    ensures ValidLevel(LEVEL_5) && SortedByX(LEVEL_5.objects)
  {
  }

  /** ...and the first obstacle the nearest. */
  lemma {:induction false} FirstIsNearest(objs: seq<Obstacle>, j: nat)
    requires SortedByX(objs) && j < |objs|
    ensures objs[0].x <= objs[j].x
  {
    if j > 0 {
      FirstIsNearest(objs, j - 1);
    }
  }

  /** Every built-in level is runnable and sorted by x, and the levels carry
      the ids 1 to 5 in order. */
  lemma BuiltInLevels()
    ensures forall k :: 0 <= k < |LEVELS| ==> ValidLevel(LEVELS[k]) && SortedByX(LEVELS[k].objects)
    ensures forall k :: 0 <= k < |LEVELS| ==> LEVELS[k].id == k + 1
  {
    Level1IsSorted();
    Level2IsSorted();
    Level3IsSorted();
    Level4IsSorted();
    Level5IsSorted();
  }

  /** Every selectable level can be run, and its length is 500 past its
      farthest obstacle. */
  lemma SelectedLevelIsRunnable(levelId: int, j: nat)
    requires j < |SelectLevel(levelId).objects|
    ensures ValidLevel(SelectLevel(levelId))
    ensures SelectLevel(levelId).objects[j].x + LEVEL_MARGIN <= LevelLength(SelectLevel(levelId))
  {
    var l := SelectLevel(levelId);
    BuiltInLevels();
    LastIsFarthest(l.objects, j);
  }

  /** The run that Start begins on level 1. */
  const START_1: RunState := Restarted(Initial)

  /** No obstacle of level 1 lies before x = 300. */
  lemma Level1StartsAt300()
    ensures forall j :: 0 <= j < |LEVEL_1.objects| ==> LEVEL_1.objects[j].x >= 300.0
  {
    Level1IsSorted();
    forall j | 0 <= j < |LEVEL_1.objects| ensures LEVEL_1.objects[j].x >= 300.0 {
      FirstIsNearest(LEVEL_1.objects, j);
    }
  }

  /** Level 1 without any input: for the first 32 frames the player slides
      along the ground, 5 units of camera per frame. */
  lemma {:induction false} Level1Slides(k: nat)
    requires k <= 32
    ensures Ticks(LEVEL_1, START_1, k) ==
      START_1.(cameraX := 5.0 * k as real, progress := Progress(5.0 * k as real, LevelLength(LEVEL_1)))
  {
    Level1IsSorted();
    if k > 0 {
      Level1Slides(k - 1);
      var s := Ticks(LEVEL_1, START_1, k - 1);
      var cam := 5.0 * k as real;
      assert ScrolledCamera(LEVEL_1, s) == cam;
      ProgressBounds(cam, LevelLength(LEVEL_1));
      Level1StartsAt300();
      SweepWithoutOverlap(LEVEL_1.objects, cam, 0, Integrated(s));
    }
  }

  /** ...and on frame 33 the first spike, at x = 300, kills the player: the
      run is over with one attempt counted. */
  lemma Level1FlatRunDies()
    ensures forall k :: 0 <= k < 33 ==> Ticks(LEVEL_1, START_1, k).Running()
    ensures var s := Ticks(LEVEL_1, START_1, 33);
      s.gameOver && !s.isPlaying && s.attempts == 1 && s.cameraX == 165.0
  {
    Level1IsSorted();
    forall k | 0 <= k < 33 ensures Ticks(LEVEL_1, START_1, k).Running() {
      Level1Slides(k);
    }
    Level1Slides(32);
    var s := Ticks(LEVEL_1, START_1, 32);
    var cam := ScrolledCamera(LEVEL_1, s);
    assert cam == 165.0;
    ProgressBounds(cam, LevelLength(LEVEL_1));
    SpikeStopsSweep(LEVEL_1.objects, cam, 0, Integrated(s));
  }
}
