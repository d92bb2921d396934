/** The campaign data (components/Game/Level.tsx): ten levels, each a list of box
    platforms in collision order and a goal point. Renderer-only hints (the guide
    arrow markers, which no level sets) are not carried. */
module Level {
  import opened Types
  import opened PlayerMovement

  datatype LevelConfig = LevelConfig(
    id: nat,
    name: string,
    description: string,
    platforms: seq<Platform>,
    goalPosition: Vec3)

  const LEVEL_1: LevelConfig := LevelConfig(0, "SECTOR 01: CALIBRATION",
    "System diagnostics. Basic movement protocols.",
    [
        Platform(Vec3(0.0, -2.0, 0.0), Vec3(10.0, 1.0, 10.0), "#1e293b", false),
        Platform(Vec3(0.0, -2.0, -15.0), Vec3(10.0, 1.0, 15.0), "#334155", false),
        Platform(Vec3(0.0, -2.0, -35.0), Vec3(10.0, 1.0, 15.0), "#334155", false),
        Platform(Vec3(0.0, -2.0, -60.0), Vec3(15.0, 1.0, 15.0), "#05050a", true)
    ],
    Vec3(0.0, 0.0, -60.0))

  const LEVEL_2: LevelConfig := LevelConfig(1, "SECTOR 02: THE GAP",
    "Jump mechanics engaged.",
    [
        Platform(Vec3(0.0, -2.0, 0.0), Vec3(10.0, 1.0, 10.0), "#1e293b", false),
        Platform(Vec3(0.0, -2.0, -18.0), Vec3(8.0, 1.0, 8.0), "#334155", false),
        Platform(Vec3(0.0, -2.0, -36.0), Vec3(8.0, 1.0, 8.0), "#334155", false),
        Platform(Vec3(0.0, 0.0, -54.0), Vec3(8.0, 1.0, 8.0), "#0ea5e9", true),
        Platform(Vec3(0.0, 0.0, -70.0), Vec3(15.0, 1.0, 15.0), "#05050a", true)
    ],
    Vec3(0.0, 0.0, -70.0))

  const LEVEL_3: LevelConfig := LevelConfig(2, "SECTOR 03: STAIRWAY",
    "Vertical traversal required.",
    [
        Platform(Vec3(0.0, -2.0, 0.0), Vec3(10.0, 1.0, 10.0), "#1e293b", false),
        Platform(Vec3(0.0, 2.0, -15.0), Vec3(8.0, 1.0, 8.0), "#334155", false),
        Platform(Vec3(0.0, 6.0, -30.0), Vec3(8.0, 1.0, 8.0), "#334155", false),
        Platform(Vec3(0.0, 12.0, -45.0), Vec3(8.0, 1.0, 8.0), "#d946ef", true),
        Platform(Vec3(0.0, 20.0, -60.0), Vec3(12.0, 1.0, 12.0), "#05050a", true)
    ],
    Vec3(0.0, 20.0, -60.0))

  const LEVEL_4: LevelConfig := LevelConfig(3, "SECTOR 04: ZIGZAG",
    "Lateral movement proficiency.",
    [
        Platform(Vec3(0.0, -2.0, 0.0), Vec3(10.0, 1.0, 10.0), "#1e293b", false),
        Platform(Vec3(-10.0, 0.0, -20.0), Vec3(8.0, 1.0, 8.0), "#334155", false),
        Platform(Vec3(10.0, 2.0, -40.0), Vec3(8.0, 1.0, 8.0), "#334155", false),
        Platform(Vec3(-10.0, 4.0, -60.0), Vec3(8.0, 1.0, 8.0), "#0ea5e9", true),
        Platform(Vec3(0.0, 0.0, -80.0), Vec3(12.0, 1.0, 12.0), "#05050a", true)
    ],
    Vec3(0.0, 0.0, -80.0))

  const LEVEL_5: LevelConfig := LevelConfig(4, "SECTOR 05: ARCHIPELAGO",
    "Momentum maintenance essential.",
    [
        Platform(Vec3(0.0, -2.0, 0.0), Vec3(12.0, 1.0, 12.0), "#1e293b", false),
        Platform(Vec3(0.0, 0.0, -25.0), Vec3(6.0, 1.0, 6.0), "#334155", false),
        Platform(Vec3(0.0, 2.0, -50.0), Vec3(6.0, 1.0, 6.0), "#d946ef", true),
        Platform(Vec3(0.0, 4.0, -75.0), Vec3(6.0, 1.0, 6.0), "#334155", false),
        Platform(Vec3(0.0, 0.0, -100.0), Vec3(15.0, 1.0, 15.0), "#05050a", true)
    ],
    Vec3(0.0, 0.0, -100.0))

  const LEVEL_6: LevelConfig := LevelConfig(5, "SECTOR 06: THE BEAM",
    "Precision footing required.",
    [
        Platform(Vec3(0.0, -2.0, 0.0), Vec3(10.0, 1.0, 10.0), "#1e293b", false),
        Platform(Vec3(0.0, 0.0, -30.0), Vec3(4.0, 1.0, 40.0), "#334155", false),
        Platform(Vec3(0.0, 2.0, -60.0), Vec3(10.0, 1.0, 10.0), "#0ea5e9", true),
        Platform(Vec3(0.0, 4.0, -90.0), Vec3(2.0, 1.0, 40.0), "#d946ef", true),
        Platform(Vec3(0.0, 0.0, -120.0), Vec3(15.0, 1.0, 15.0), "#05050a", true)
    ],
    Vec3(0.0, 0.0, -120.0))

  const LEVEL_7: LevelConfig := LevelConfig(6, "SECTOR 07: ASCENSION",
    "Vertical spiral structure.",
    [
        Platform(Vec3(0.0, -2.0, 0.0), Vec3(15.0, 1.0, 15.0), "#1e293b", false),
        Platform(Vec3(10.0, 5.0, 0.0), Vec3(6.0, 1.0, 6.0), "#334155", false),
        Platform(Vec3(0.0, 12.0, -10.0), Vec3(6.0, 1.0, 6.0), "#334155", false),
        Platform(Vec3(-10.0, 19.0, 0.0), Vec3(6.0, 1.0, 6.0), "#0ea5e9", true),
        Platform(Vec3(0.0, 26.0, 10.0), Vec3(6.0, 1.0, 6.0), "#334155", false),
        Platform(Vec3(10.0, 33.0, 0.0), Vec3(6.0, 1.0, 6.0), "#d946ef", true),
        Platform(Vec3(0.0, 40.0, -10.0), Vec3(6.0, 1.0, 6.0), "#334155", false),
        Platform(Vec3(0.0, 50.0, 0.0), Vec3(10.0, 1.0, 10.0), "#05050a", true)
    ],
    Vec3(0.0, 50.0, 0.0))

  const LEVEL_8: LevelConfig := LevelConfig(7, "SECTOR 08: FRACTURED",
    "Disordered geometry.",
    [
        Platform(Vec3(0.0, -2.0, 0.0), Vec3(10.0, 1.0, 10.0), "#1e293b", false),
        Platform(Vec3(-8.0, 2.0, -20.0), Vec3(6.0, 1.0, 6.0), "#334155", false),
        Platform(Vec3(8.0, 6.0, -40.0), Vec3(6.0, 1.0, 6.0), "#334155", false),
        Platform(Vec3(-12.0, 4.0, -60.0), Vec3(5.0, 1.0, 5.0), "#0ea5e9", true),
        Platform(Vec3(0.0, 10.0, -80.0), Vec3(4.0, 1.0, 4.0), "#d946ef", true),
        Platform(Vec3(20.0, 10.0, -100.0), Vec3(12.0, 1.0, 12.0), "#05050a", true)
    ],
    Vec3(20.0, 10.0, -100.0))

  const LEVEL_9: LevelConfig := LevelConfig(8, "SECTOR 09: VOID RUN",
    "Maximum velocity required. Do not hesitate.",
    [
        Platform(Vec3(0.0, -2.0, 0.0), Vec3(15.0, 1.0, 15.0), "#1e293b", false),
        Platform(Vec3(0.0, 0.0, -40.0), Vec3(8.0, 1.0, 8.0), "#334155", false),
        Platform(Vec3(0.0, 2.0, -80.0), Vec3(8.0, 1.0, 8.0), "#0ea5e9", true),
        Platform(Vec3(0.0, 4.0, -130.0), Vec3(8.0, 1.0, 8.0), "#d946ef", true),
        Platform(Vec3(0.0, 0.0, -180.0), Vec3(20.0, 1.0, 20.0), "#05050a", true)
    ],
    Vec3(0.0, 0.0, -180.0))

  const LEVEL_10: LevelConfig := LevelConfig(9, "SECTOR 10: THE CORE",
    "Final trial. Zero margin for error.",
    [
        Platform(Vec3(0.0, -2.0, 0.0), Vec3(12.0, 1.0, 12.0), "#1e293b", false),
        Platform(Vec3(0.0, 5.0, -20.0), Vec3(4.0, 1.0, 4.0), "#334155", false),
        Platform(Vec3(15.0, 15.0, -20.0), Vec3(4.0, 1.0, 4.0), "#0ea5e9", true),
        Platform(Vec3(0.0, 25.0, -20.0), Vec3(4.0, 1.0, 4.0), "#334155", false),
        Platform(Vec3(-15.0, 35.0, -40.0), Vec3(4.0, 1.0, 4.0), "#d946ef", true),
        Platform(Vec3(0.0, 45.0, -60.0), Vec3(4.0, 1.0, 4.0), "#334155", false),
        Platform(Vec3(0.0, 60.0, -60.0), Vec3(10.0, 1.0, 10.0), "#05050a", true)
    ],
    Vec3(0.0, 60.0, -60.0))

  const LEVELS: seq<LevelConfig> :=
    [LEVEL_1, LEVEL_2, LEVEL_3, LEVEL_4, LEVEL_5, LEVEL_6, LEVEL_7, LEVEL_8, LEVEL_9, LEVEL_10]

  // ---------------------------------------------------------------------------
  // Shape of one level.

  /** Every box has positive extents, so each of its min bounds lies below its max. */
  predicate PositiveSizes(l: LevelConfig) {
    forall k :: 0 <= k < |l.platforms| ==>
      l.platforms[k].size.x > 0.0 && l.platforms[k].size.y > 0.0 && l.platforms[k].size.z > 0.0
  }

  /** The first box is the spawn pad: centred at (0,-2,0), at least 10 wide in X and Z. */
  predicate SpawnPad(l: LevelConfig) {
    && |l.platforms| > 0
    && l.platforms[0].position == Vec3(0.0, -2.0, 0.0)
    && l.platforms[0].size.x >= 10.0 && l.platforms[0].size.z >= 10.0
  }

  /** The goal sits straight above or below the centre of the last box's top face,
      less than the win radius away from it. */
  predicate GoalOnLastPlatform(l: LevelConfig) {
    && |l.platforms| > 0
    && var last := l.platforms[|l.platforms| - 1];
       && l.goalPosition.x == last.position.x && l.goalPosition.z == last.position.z
       && -WIN_RADIUS < l.goalPosition.y - last.Top() < WIN_RADIUS
  }

  /** Two points on one vertical line less than the win radius apart are within
      the win radius in squared distance. */
  lemma VerticallyNear(a: Vec3, b: Vec3)
    requires a.x == b.x && a.z == b.z && -WIN_RADIUS < a.y - b.y < WIN_RADIUS
    ensures SqDistance(a, b) < WIN_RADIUS * WIN_RADIUS
  {
    var d := a.y - b.y;
    assert SqDistance(a, b) == d * d;
    var p, q := WIN_RADIUS - d, WIN_RADIUS + d;
    assert p > 0.0 && q > 0.0;
    assert p * q > 0.0;
    assert WIN_RADIUS * WIN_RADIUS - d * d == p * q;
  }

  /** Every top face lies above the fall-reset height. */
  predicate TopsAboveFall(l: LevelConfig) {
    forall k :: 0 <= k < |l.platforms| ==> l.platforms[k].Top() > FALL_LIMIT
  }

  predicate WellFormed(l: LevelConfig) {
    PositiveSizes(l) && SpawnPad(l) && GoalOnLastPlatform(l) && TopsAboveFall(l)
  }

  // ---------------------------------------------------------------------------
  // Properties of the campaign.

  /** There are ten levels and each level's id is its index. */
  lemma LevelIds()
    ensures |LEVELS| == 10
    ensures forall i :: 0 <= i < |LEVELS| ==> LEVELS[i].id == i
  {
  }

  lemma Level1Shape() ensures WellFormed(LEVEL_1) {}
  lemma Level2Shape() ensures WellFormed(LEVEL_2) {}
  lemma Level3Shape() ensures WellFormed(LEVEL_3) {}
  lemma Level4Shape() ensures WellFormed(LEVEL_4) {}
  lemma Level5Shape() ensures WellFormed(LEVEL_5) {}
  lemma Level6Shape() ensures WellFormed(LEVEL_6) {}
  lemma Level7Shape() ensures WellFormed(LEVEL_7) {}
  lemma Level8Shape() ensures WellFormed(LEVEL_8) {}
  lemma Level9Shape() ensures WellFormed(LEVEL_9) {}
  lemma Level10Shape() ensures WellFormed(LEVEL_10) {}

  /** All ten levels have the shape above. */
  lemma AllWellFormed()
    ensures forall i :: 0 <= i < |LEVELS| ==> WellFormed(LEVELS[i])
  {
    Level1Shape();
    Level2Shape();
    Level3Shape();
    Level4Shape();
    Level5Shape();
    Level6Shape();
    Level7Shape();
    Level8Shape();
    Level9Shape();
    Level10Shape();
  }

  /** In every level the spawn point lies strictly inside the pad's X/Z bounds and
      above its top face at -1.5, so a spawned body falls onto the pad. */
  lemma SpawnAbovePad(i: nat)
    requires i < |LEVELS|
    ensures |LEVELS[i].platforms| > 0
    ensures var pad := LEVELS[i].platforms[0];
      && pad.MinX() < SPAWN.x < pad.MaxX() && pad.MinZ() < SPAWN.z < pad.MaxZ()
      && pad.Top() == -1.5 && SPAWN.y > pad.Top()
  {
    AllWellFormed();
    assert SpawnPad(LEVELS[i]) && PositiveSizes(LEVELS[i]);
    assert LEVELS[i].platforms[0].size.y == 1.0;
  }

  /** A body standing at the centre of the last box's top face reaches the goal. */
  lemma GoalReachableOnLastPlatform(i: nat, s: AgentState, held: set<string>, dir: Vec3,
                                    time: real, delta: real)
    requires i < |LEVELS|
    requires |LEVELS[i].platforms| > 0
    requires var ps := LEVELS[i].platforms;
      Tick(s, held, dir, time, delta, ps, LEVELS[i].goalPosition).next.position
        == ps[|ps| - 1].position.(y := ps[|ps| - 1].Top())
    ensures Tick(s, held, dir, time, delta, LEVELS[i].platforms, LEVELS[i].goalPosition).events.reachedGoal
  {
    AllWellFormed();
    assert GoalOnLastPlatform(LEVELS[i]);
    var ps := LEVELS[i].platforms;
    VerticallyNear(ps[|ps| - 1].position.(y := ps[|ps| - 1].Top()), LEVELS[i].goalPosition);
    WinRadius(s, held, dir, time, delta, LEVELS[i].platforms, LEVELS[i].goalPosition);
  }

  /** On level geometry a tick that lands never triggers the fall-out reset: the
      landing snap puts the body on a top face above the reset height. */
  lemma LandingNeverFallsOut(i: nat, s: AgentState, held: set<string>, dir: Vec3,
                             time: real, delta: real)
    requires i < |LEVELS|
    ensures var t := Tick(s, held, dir, time, delta, LEVELS[i].platforms, LEVELS[i].goalPosition);
      t.next.isGrounded ==> !t.events.fellOut
  {
    AllWellFormed();
    assert TopsAboveFall(LEVELS[i]);
  }
}
