/** The per-tick movement controller of the platformer (components/Game/Player.tsx):
    input to direction, run / dash damping, jump and double jump on the rising edge of
    Space, phase dash on the rising edge of Shift, gravity with terminal speed,
    explicit Euler integration, first-match landing on box platforms, the fall-out
    reset and the goal radius.

    `Tick` is the reference definition on values; `Player.Step` is the tick as the
    component runs it, updating its fields step by step, and is proved equal to it. */
module PlayerMovement {
  import opened Types

  // Physics constants.
  const GRAVITY: real := 40.0
  const MOVE_SPEED: real := 8.5
  const JUMP_FORCE: real := 24.0
  const DOUBLE_JUMP_FORCE: real := 20.0
  const DASH_FORCE: real := 32.0
  const DASH_DURATION: real := 0.2
  const DASH_COOLDOWN: real := 0.6
  const MAX_FALL_SPEED: real := 40.0

  // Literals of the tick body.
  const DASH_DAMPING: real := 0.96
  const DOUBLE_JUMP_STEER: real := 5.0
  const DASH_LIFT: real := 3.0
  const LANDING_TOLERANCE: real := 0.2
  const FALL_LIMIT: real := -50.0
  const FALL_DAMAGE: int := 25
  const WIN_RADIUS: real := 3.0
  const SPAWN: Vec3 := Vec3(0.0, 5.0, 0.0)

  /** 0: no jump used, 1: ground jump used, 2: double jump used. */
  type JumpCount = j: int | 0 <= j <= 2

  // The key map is the set of key codes held down when the tick starts.
  predicate Forward(held: set<string>) { "KeyW" in held || "ArrowUp" in held }
  predicate Backward(held: set<string>) { "KeyS" in held || "ArrowDown" in held }
  predicate Left(held: set<string>) { "KeyA" in held || "ArrowLeft" in held }
  predicate Right(held: set<string>) { "KeyD" in held || "ArrowRight" in held }
  predicate JumpHeld(held: set<string>) { "Space" in held }
  predicate ShiftHeld(held: set<string>) { "ShiftLeft" in held || "ShiftRight" in held }

  function Bit(b: bool): real { if b then 1.0 else 0.0 }

  /** The direction before normalisation: x from right/left, z = -(forward - backward). */
  function RawDirection(held: set<string>): Vec3 {
    Vec3(Bit(Right(held)) - Bit(Left(held)), 0.0, -(Bit(Forward(held)) - Bit(Backward(held))))
  }

  /** `dir` is `raw.normalize()`: the zero vector for a zero vector, otherwise the
      vector of length 1 pointing the same way as `raw`. */
  predicate NormalizedOf(raw: Vec3, dir: Vec3) {
    if !NonZero(raw) then !NonZero(dir)
    else
      && dir.x * raw.y == dir.y * raw.x
      && dir.y * raw.z == dir.z * raw.y
      && dir.z * raw.x == dir.x * raw.z
      && dir.x * raw.x + dir.y * raw.y + dir.z * raw.z > 0.0
      && SqLength(dir) == 1.0
  }

  /** The controller's physical state and edge-detection flags between ticks. */
  datatype AgentState = AgentState(
    position: Vec3,
    velocity: Vec3,
    isGrounded: bool,
    jumps: JumpCount,
    jumpPressed: bool,
    dashPressed: bool,
    lastDashTime: real)

  /** A freshly mounted controller; an unset `lastDashTime` reads as 0. */
  const SPAWNED: AgentState := AgentState(SPAWN, Zero, false, 0, false, false, 0.0)

  /** `fellOut`: `setHealth` was asked to take FALL_DAMAGE; `reachedGoal`: `onWin` was called. */
  datatype TickEvents = TickEvents(fellOut: bool, reachedGoal: bool)

  datatype TickOutcome = TickOutcome(next: AgentState, events: TickEvents)

  /** The state after input, impulses, gravity and integration, before collision. */
  datatype Motion = Motion(velocity: Vec3, position: Vec3, jumps: JumpCount, lastDashTime: real)

  predicate IsDashing(lastDashTime: real, time: real) {
    time - lastDashTime < DASH_DURATION
  }

  /** Horizontal movement: damped while dashing, otherwise set from the input;
      the vertical speed is left alone. */
  function Steer(v: Vec3, dir: Vec3, dashing: bool): (r: Vec3)
    ensures r.y == v.y
  {
    if dashing then v.(x := v.x * DASH_DAMPING, z := v.z * DASH_DAMPING)
    else if NonZero(dir) then v.(x := dir.x * MOVE_SPEED, z := dir.z * MOVE_SPEED)
    else v.(x := 0.0, z := 0.0)
  }

  /** The jump stage: its velocity, the jump count it asks for, and the input
      direction afterwards (a double jump scales `inputDir` by 5 in place). */
  datatype JumpStage = JumpStage(velocity: Vec3, jumps: JumpCount, inputDir: Vec3)

  function Jump(v: Vec3, dir: Vec3, grounded: bool, jumps: JumpCount, edge: bool): JumpStage {
    if !edge then JumpStage(v, jumps, dir)
    else if grounded then JumpStage(v.(y := JUMP_FORCE), 1, dir)
    else if jumps < 2 then
      var d := Scale(dir, DOUBLE_JUMP_STEER);
      JumpStage(Add(v.(y := DOUBLE_JUMP_FORCE), d), 2, d)
    else JumpStage(v, jumps, dir)
  }

  predicate DashFires(edge: bool, time: real, lastDashTime: real, inputDir: Vec3) {
    edge && time - lastDashTime > DASH_COOLDOWN && NonZero(inputDir)
  }

  /** Gravity for `delta` seconds, with the fall speed capped at MAX_FALL_SPEED:
      the vertical speed is the larger of the accelerated one and the cap, and
      the horizontal speed is untouched. */
  function Gravity(v: Vec3, delta: real): (r: Vec3)
    ensures r.x == v.x && r.z == v.z
    ensures r.y >= -MAX_FALL_SPEED && r.y >= v.y - GRAVITY * delta
    ensures r.y == -MAX_FALL_SPEED || r.y == v.y - GRAVITY * delta
  {
    var y := v.y - GRAVITY * delta;
    v.(y := if y < -MAX_FALL_SPEED then -MAX_FALL_SPEED else y)
  }

  /** Strictly inside the box in X and Z, was at or above its top, and is now at
      most LANDING_TOLERANCE above it. */
  predicate LandsOn(p: Platform, oldY: real, c: Vec3) {
    && c.x > p.MinX() && c.x < p.MaxX() && c.z > p.MinZ() && c.z < p.MaxZ()
    && oldY >= p.Top() && c.y <= p.Top() + LANDING_TOLERANCE
  }

  /** The first platform at index `from` or later that the candidate lands on. */
  function FirstLandingFrom(ps: seq<Platform>, from: nat, oldY: real, c: Vec3): (r: Option<nat>)
    requires from <= |ps|
    ensures r.Some? ==> from <= r.value < |ps| && LandsOn(ps[r.value], oldY, c)
    ensures r.Some? ==> forall j :: from <= j < r.value ==> !LandsOn(ps[j], oldY, c)
    ensures r.None? <==> forall j :: from <= j < |ps| ==> !LandsOn(ps[j], oldY, c)
    decreases |ps| - from
  {
    if from == |ps| then None
    else if LandsOn(ps[from], oldY, c) then Some(from)
    else FirstLandingFrom(ps, from + 1, oldY, c)
  }

  function FirstLanding(ps: seq<Platform>, oldY: real, c: Vec3): Option<nat> {
    FirstLandingFrom(ps, 0, oldY, c)
  }

  /** The dash stage: its velocity and the dash time it leaves. */
  datatype DashStage = DashStage(velocity: Vec3, lastDashTime: real)

  function Dash(v: Vec3, inputDir: Vec3, edge: bool, time: real, lastDashTime: real): DashStage {
    if DashFires(edge, time, lastDashTime, inputDir)
    then DashStage(Vec3(inputDir.x * DASH_FORCE, DASH_LIFT, inputDir.z * DASH_FORCE), time)
    else DashStage(v, lastDashTime)
  }

  /** The velocity stage of a tick: input handling, the jump and dash impulses and
      gravity, with the jump count and dash time they leave. */
  datatype Impulse = Impulse(velocity: Vec3, jumps: JumpCount, lastDashTime: real)

  function Accelerate(s: AgentState, held: set<string>, dir: Vec3, time: real, delta: real): Impulse {
    var j := Jump(Steer(s.velocity, dir, IsDashing(s.lastDashTime, time)), dir,
                  s.isGrounded, s.jumps, JumpHeld(held) && !s.jumpPressed);
    var d := Dash(j.velocity, j.inputDir, ShiftHeld(held) && !s.dashPressed, time, s.lastDashTime);
    Impulse(Gravity(d.velocity, delta), j.jumps, d.lastDashTime)
  }

  /** The velocity stage followed by explicit Euler integration. */
  function Move(s: AgentState, held: set<string>, dir: Vec3, time: real, delta: real): Motion {
    var a := Accelerate(s, held, dir, time, delta);
    Motion(a.velocity, Add(s.position, Scale(a.velocity, delta)), a.jumps, a.lastDashTime)
  }

  /** The landing platform of this tick, if any: only a body that is not rising lands. */
  function Landing(s: AgentState, m: Motion, ps: seq<Platform>): Option<nat> {
    if m.velocity.y <= 0.0 then FirstLanding(ps, s.position.y, m.position) else None
  }

  /** The collision stage of a tick: the landing snap, the fall-out reset and the
      goal test, applied to the motion `m` computed from `s`. */
  function Resolve(s: AgentState, held: set<string>, m: Motion, ps: seq<Platform>, goal: Vec3): TickOutcome {
    var hit := Landing(s, m, ps);
    var p1 := if hit.Some? then m.position.(y := ps[hit.value].Top()) else m.position;
    var v1 := if hit.Some? then m.velocity.(y := 0.0) else m.velocity;
    var fell := p1.y < FALL_LIMIT;
    var p2 := if fell then SPAWN else p1;
    var v2 := if fell then Zero else v1;
    TickOutcome(
      AgentState(p2, v2, hit.Some?, if hit.Some? then 0 else m.jumps,
                 JumpHeld(held), ShiftHeld(held), m.lastDashTime),
      TickEvents(fell, SqDistance(p2, goal) < WIN_RADIUS * WIN_RADIUS))
  }

  /** One tick of the controller (the reference definition). */
  function Tick(s: AgentState, held: set<string>, dir: Vec3, time: real, delta: real,
                ps: seq<Platform>, goal: Vec3): TickOutcome
  {
    Resolve(s, held, Move(s, held, dir, time, delta), ps, goal)
  }

  // ---------------------------------------------------------------------------
  // Properties of one tick.

  /** A normalised key direction lies in the ground plane and is zero exactly
      when the held movement keys cancel out or none is held. */
  lemma NormalizedDirection(held: set<string>, dir: Vec3)
    requires NormalizedOf(RawDirection(held), dir)
    ensures dir.y == 0.0
    ensures NonZero(dir) <==> NonZero(RawDirection(held))
  {
    var raw := RawDirection(held);
    if NonZero(raw) {
      assert raw.y == 0.0;
      assert dir.y * raw.x == 0.0 && dir.y * raw.z == 0.0;
      if raw.x == 1.0 || raw.x == -1.0 {
        assert dir.y * raw.x == dir.y * 1.0 || dir.y * raw.x == -(dir.y * 1.0);
      } else {
        assert raw.z == 1.0 || raw.z == -1.0;
        assert dir.y * raw.z == dir.y * 1.0 || dir.y * raw.z == -(dir.y * 1.0);
      }
      assert dir.y == 0.0;
      assert NonZero(dir) by {
        assert SqLength(dir) == 1.0;
      }
    }
  }

  /** Vertical velocity never goes below the terminal fall speed: gravity clamps
      it, and landing and the fall-out reset set it to 0. */
  lemma FallSpeedBounded(s: AgentState, held: set<string>, dir: Vec3, time: real, delta: real,
                         ps: seq<Platform>, goal: Vec3)
    ensures Tick(s, held, dir, time, delta, ps, goal).next.velocity.y >= -MAX_FALL_SPEED
  {
  }

  /** Outside a dash window, with no double jump and no dash this tick, the
      horizontal velocity is the direction times MOVE_SPEED when a net direction
      is held, and zero otherwise. */
  lemma RunVelocity(s: AgentState, held: set<string>, dir: Vec3, time: real, delta: real,
                    ps: seq<Platform>, goal: Vec3)
    requires NormalizedOf(RawDirection(held), dir)
    requires !IsDashing(s.lastDashTime, time)
    requires !(JumpHeld(held) && !s.jumpPressed && !s.isGrounded && s.jumps < 2)
    requires !DashFires(ShiftHeld(held) && !s.dashPressed, time, s.lastDashTime, dir)
    ensures var t := Tick(s, held, dir, time, delta, ps, goal);
      !t.events.fellOut ==>
        if NonZero(RawDirection(held))
        then t.next.velocity.x == dir.x * MOVE_SPEED && t.next.velocity.z == dir.z * MOVE_SPEED
        else t.next.velocity.x == 0.0 && t.next.velocity.z == 0.0
  {
    NormalizedDirection(held, dir);
  }

  /** Inside the dash window, on a tick with no double jump, the horizontal
      velocity decays by DASH_DAMPING and the input direction plays no part (no
      dash can start during the window). A double jump in the window still adds
      its 5 × dir kick. */
  lemma DashGlide(s: AgentState, held: set<string>, dir: Vec3, time: real, delta: real,
                  ps: seq<Platform>, goal: Vec3)
    requires IsDashing(s.lastDashTime, time)
    requires !(JumpHeld(held) && !s.jumpPressed && !s.isGrounded && s.jumps < 2)
    ensures var t := Tick(s, held, dir, time, delta, ps, goal);
      && t.next.lastDashTime == s.lastDashTime
      && (!t.events.fellOut ==>
            t.next.velocity.x == s.velocity.x * DASH_DAMPING
            && t.next.velocity.z == s.velocity.z * DASH_DAMPING)
  {
  }

  /** After a tick the edge flags record whether Space and Shift were held, so the
      next tick's jump and dash logic runs exactly on a rising edge: held keys
      trigger once. */
  lemma RisingEdges(s: AgentState, held: set<string>, dir: Vec3, time: real, delta: real,
                    ps: seq<Platform>, goal: Vec3, nextHeld: set<string>)
    ensures var n := Tick(s, held, dir, time, delta, ps, goal).next;
      && n.jumpPressed == JumpHeld(held)
      && n.dashPressed == ShiftHeld(held)
      && ((JumpHeld(nextHeld) && !n.jumpPressed) <==> (JumpHeld(nextHeld) && !JumpHeld(held)))
      && ((ShiftHeld(nextHeld) && !n.dashPressed) <==> (ShiftHeld(nextHeld) && !ShiftHeld(held)))
  {
  }

  /** A Space key still held from an earlier tick does nothing: the tick is the
      one without Space, except that the latch stays set. */
  lemma HeldJumpIgnored(s: AgentState, held: set<string>, dir: Vec3, time: real, delta: real,
                        ps: seq<Platform>, goal: Vec3)
    requires JumpHeld(held) && s.jumpPressed
    ensures var t := Tick(s, held, dir, time, delta, ps, goal);
      var u := Tick(s, held - {"Space"}, dir, time, delta, ps, goal);
      t.events == u.events && t.next == u.next.(jumpPressed := true)
  {
    assert ShiftHeld(held - {"Space"}) == ShiftHeld(held);
  }

  /** A ground jump sets the vertical speed to JUMP_FORCE (then gravity acts once)
      and uses the first jump. */
  lemma GroundJump(s: AgentState, held: set<string>, dir: Vec3, time: real, delta: real,
                   ps: seq<Platform>, goal: Vec3)
    requires JumpHeld(held) && !s.jumpPressed && s.isGrounded
    requires !DashFires(ShiftHeld(held) && !s.dashPressed, time, s.lastDashTime, dir)
    requires 0.0 <= delta && GRAVITY * delta < JUMP_FORCE
    ensures var t := Tick(s, held, dir, time, delta, ps, goal);
      !t.events.fellOut ==>
        t.next.velocity.y == JUMP_FORCE - GRAVITY * delta && t.next.jumps == 1 && !t.next.isGrounded
  {
  }

  /** An airborne jump with a jump left (also after walking off a ledge, with no
      jump used) and a direction in the ground plane (as every normalised key
      direction is, by NormalizedDirection) sets the vertical speed to
      DOUBLE_JUMP_FORCE, adds 5 times the direction to the horizontal velocity,
      and uses up both jumps. */
  lemma AirJump(s: AgentState, held: set<string>, dir: Vec3, time: real, delta: real,
                ps: seq<Platform>, goal: Vec3)
    requires dir.y == 0.0
    requires JumpHeld(held) && !s.jumpPressed && !s.isGrounded && s.jumps < 2
    requires !(ShiftHeld(held) && !s.dashPressed && time - s.lastDashTime > DASH_COOLDOWN && NonZero(dir))
    requires 0.0 <= delta && GRAVITY * delta < DOUBLE_JUMP_FORCE
    ensures var t := Tick(s, held, dir, time, delta, ps, goal);
      var run := Steer(s.velocity, dir, IsDashing(s.lastDashTime, time));
      !t.events.fellOut ==>
        && t.next.velocity == Add(run, Scale(dir, DOUBLE_JUMP_STEER)).(y := DOUBLE_JUMP_FORCE - GRAVITY * delta)
        && t.next.jumps == 2 && !t.next.isGrounded
  {
    AirJumpMotion(s, held, dir, time, delta);
    var m := Move(s, held, dir, time, delta);
    assert Landing(s, m, ps) == None;
  }

  /** The velocity stage of AirJump: that velocity, rising, and both jumps used. */
  lemma AirJumpMotion(s: AgentState, held: set<string>, dir: Vec3, time: real, delta: real)
    requires dir.y == 0.0
    requires JumpHeld(held) && !s.jumpPressed && !s.isGrounded && s.jumps < 2
    requires !(ShiftHeld(held) && !s.dashPressed && time - s.lastDashTime > DASH_COOLDOWN && NonZero(dir))
    requires 0.0 <= delta && GRAVITY * delta < DOUBLE_JUMP_FORCE
    ensures var a := Accelerate(s, held, dir, time, delta);
      var run := Steer(s.velocity, dir, IsDashing(s.lastDashTime, time));
      && a.velocity == Add(run, Scale(dir, DOUBLE_JUMP_STEER)).(y := DOUBLE_JUMP_FORCE - GRAVITY * delta)
      && a.velocity.y > 0.0 && a.jumps == 2
  {
    AirImpulse(Steer(s.velocity, dir, IsDashing(s.lastDashTime, time)), dir, s.jumps,
               ShiftHeld(held) && !s.dashPressed, time, s.lastDashTime, delta);
  }

  /** AirJumpMotion on the stage inputs: the double jump, no dash, then gravity. */
  lemma AirImpulse(run: Vec3, dir: Vec3, jumps: JumpCount, dashEdge: bool, time: real, lastDashTime: real,
                   delta: real)
    requires dir.y == 0.0 && jumps < 2
    requires !(dashEdge && time - lastDashTime > DASH_COOLDOWN && NonZero(dir))
    requires 0.0 <= delta && GRAVITY * delta < DOUBLE_JUMP_FORCE
    ensures var j := Jump(run, dir, false, jumps, true);
      var d := Dash(j.velocity, j.inputDir, dashEdge, time, lastDashTime);
      Gravity(d.velocity, delta)
        == Add(run, Scale(dir, DOUBLE_JUMP_STEER)).(y := DOUBLE_JUMP_FORCE - GRAVITY * delta)
  {
    var j := Jump(run, dir, false, jumps, true);
    AirJumpNoDash(run, dir, jumps, dashEdge, time, lastDashTime);
    AirJumpStage(run, dir, jumps);
    RisingGravity(j.velocity, delta);
  }

  /** A dash that the key direction does not fire is not fired by the scaled one either. */
  lemma AirJumpNoDash(run: Vec3, dir: Vec3, jumps: JumpCount, dashEdge: bool, time: real, lastDashTime: real)
    requires dir.y == 0.0 && jumps < 2
    requires !(dashEdge && time - lastDashTime > DASH_COOLDOWN && NonZero(dir))
    ensures var j := Jump(run, dir, false, jumps, true);
      Dash(j.velocity, j.inputDir, dashEdge, time, lastDashTime).velocity == j.velocity
  {
    AirJumpStage(run, dir, jumps);
    ScaledZero(dir, DOUBLE_JUMP_STEER);
  }

  /** Gravity does not reach the fall-speed clamp on a body it leaves rising. */
  lemma RisingGravity(v: Vec3, delta: real)
    requires GRAVITY * delta < v.y
    ensures Gravity(v, delta) == v.(y := v.y - GRAVITY * delta)
  {
  }

  /** The double-jump impulse on a planar direction. */
  lemma AirJumpStage(v: Vec3, dir: Vec3, jumps: JumpCount)
    requires dir.y == 0.0 && jumps < 2
    ensures var j := Jump(v, dir, false, jumps, true);
      && j.velocity == Add(v, Scale(dir, DOUBLE_JUMP_STEER)).(y := DOUBLE_JUMP_FORCE)
      && j.jumps == 2 && j.inputDir == Scale(dir, DOUBLE_JUMP_STEER)
  {
  }

  /** Scaling by a non-zero factor keeps a vector non-zero, and zero zero. */
  lemma ScaledZero(v: Vec3, k: real)
    requires k != 0.0
    ensures NonZero(Scale(v, k)) <==> NonZero(v)
  {
    if !NonZero(Scale(v, k)) {
      assert v.x * k == 0.0 && v.y * k == 0.0 && v.z * k == 0.0;
    }
  }

  /** With both jumps used, an airborne Space press changes nothing but the latch. */
  lemma SpentJumpIgnored(s: AgentState, held: set<string>, dir: Vec3, time: real, delta: real,
                         ps: seq<Platform>, goal: Vec3)
    requires JumpHeld(held) && !s.jumpPressed && !s.isGrounded && s.jumps == 2
    ensures Tick(s, held, dir, time, delta, ps, goal)
            == Tick(s.(jumpPressed := true), held, dir, time, delta, ps, goal)
  {
  }

  /** A dash starts exactly on a Shift rising edge past the cooldown with a
      non-zero direction; it records the time and sets the horizontal velocity to
      DASH_FORCE times the input direction, which a double jump on the same tick
      has already scaled by 5. Otherwise the dash time is kept. */
  lemma DashRule(s: AgentState, held: set<string>, dir: Vec3, time: real, delta: real,
                 ps: seq<Platform>, goal: Vec3)
    ensures var fires := ShiftHeld(held) && !s.dashPressed && time - s.lastDashTime > DASH_COOLDOWN && NonZero(dir);
      var k := if JumpHeld(held) && !s.jumpPressed && !s.isGrounded && s.jumps < 2 then DOUBLE_JUMP_STEER else 1.0;
      var t := Tick(s, held, dir, time, delta, ps, goal);
      && t.next.lastDashTime == (if fires then time else s.lastDashTime)
      && (fires && !t.events.fellOut ==>
            t.next.velocity.x == dir.x * k * DASH_FORCE && t.next.velocity.z == dir.z * k * DASH_FORCE)
      && (fires && !t.events.fellOut && !t.next.isGrounded ==>
            t.next.velocity.y == Gravity(Vec3(0.0, DASH_LIFT, 0.0), delta).y)
  {
    DashImpulse(s, held, dir, time, delta);
  }

  /** The velocity stage of DashRule. */
  lemma DashImpulse(s: AgentState, held: set<string>, dir: Vec3, time: real, delta: real)
    ensures var fires := ShiftHeld(held) && !s.dashPressed && time - s.lastDashTime > DASH_COOLDOWN && NonZero(dir);
      var k := if JumpHeld(held) && !s.jumpPressed && !s.isGrounded && s.jumps < 2 then DOUBLE_JUMP_STEER else 1.0;
      var a := Accelerate(s, held, dir, time, delta);
      && a.lastDashTime == (if fires then time else s.lastDashTime)
      && (fires ==> a.velocity == Gravity(Vec3(dir.x * k * DASH_FORCE, DASH_LIFT, dir.z * k * DASH_FORCE), delta))
  {
    JumpDirection(Steer(s.velocity, dir, IsDashing(s.lastDashTime, time)), dir,
                  s.isGrounded, s.jumps, JumpHeld(held) && !s.jumpPressed);
  }

  /** The input direction after the jump stage: scaled by 5 by a double jump only,
      and non-zero exactly when the key direction is. */
  lemma JumpDirection(v: Vec3, dir: Vec3, grounded: bool, jumps: JumpCount, edge: bool)
    ensures var k := if edge && !grounded && jumps < 2 then DOUBLE_JUMP_STEER else 1.0;
      var j := Jump(v, dir, grounded, jumps, edge);
      && j.inputDir == Scale(dir, k)
      && (NonZero(j.inputDir) <==> NonZero(dir))
  {
    if edge && !grounded && jumps < 2 {
      ScaledZero(dir, DOUBLE_JUMP_STEER);
    }
  }

  /** With the dash time still at its default 0, the first DASH_DURATION seconds of
      the clock count as a dash window and no dash starts before DASH_COOLDOWN. */
  lemma NoDashAtStart(s: AgentState, held: set<string>, dir: Vec3, time: real, delta: real,
                      ps: seq<Platform>, goal: Vec3)
    requires s.lastDashTime == 0.0 && time <= DASH_COOLDOWN
    ensures Tick(s, held, dir, time, delta, ps, goal).next.lastDashTime == 0.0
    ensures time < DASH_DURATION ==> IsDashing(s.lastDashTime, time)
  {
  }

  /** Landing: only a body that is not rising lands; the first platform in list
      order that the candidate lands on wins, the body is snapped to its top with
      vertical speed 0 and its jumps reset; no landing means not grounded. */
  lemma LandingRule(s: AgentState, held: set<string>, dir: Vec3, time: real, delta: real,
                    ps: seq<Platform>, goal: Vec3)
    ensures var m := Move(s, held, dir, time, delta);
      var t := Tick(s, held, dir, time, delta, ps, goal);
      && (t.next.isGrounded <==>
            m.velocity.y <= 0.0 && exists i :: 0 <= i < |ps| && LandsOn(ps[i], s.position.y, m.position))
      && (forall i :: 0 <= i < |ps| && LandsOn(ps[i], s.position.y, m.position)
            && (forall j :: 0 <= j < i ==> !LandsOn(ps[j], s.position.y, m.position))
            && m.velocity.y <= 0.0 && !t.events.fellOut
            ==> t.next.position == m.position.(y := ps[i].Top()) && t.next.velocity == m.velocity.(y := 0.0))
      && (t.next.isGrounded ==> t.next.jumps == 0 && t.next.velocity.y == 0.0)
      && (!t.next.isGrounded ==> t.next.jumps == m.jumps)
  {
    var m := Move(s, held, dir, time, delta);
    var hit := FirstLanding(ps, s.position.y, m.position);
    forall i | 0 <= i < |ps| && LandsOn(ps[i], s.position.y, m.position)
      && (forall j :: 0 <= j < i ==> !LandsOn(ps[j], s.position.y, m.position))
      ensures hit == Some(i)
    {
      assert hit.Some?;
      assert !(hit.value < i) && !(i < hit.value);
    }
  }

  /** Falling below FALL_LIMIT (after any landing snap) puts the body back at the
      spawn point at rest and raises the damage event; nothing else does. */
  lemma FallOutRespawn(s: AgentState, held: set<string>, dir: Vec3, time: real, delta: real,
                       ps: seq<Platform>, goal: Vec3)
    ensures var m := Move(s, held, dir, time, delta);
      var hit := Landing(s, m, ps);
      var t := Tick(s, held, dir, time, delta, ps, goal);
      && (t.events.fellOut <==> (if hit.Some? then ps[hit.value].Top() else m.position.y) < FALL_LIMIT)
      && (t.events.fellOut ==> t.next.position == SPAWN && t.next.velocity == Zero)
      && (!t.events.fellOut ==> t.next.position.x == m.position.x && t.next.position.z == m.position.z)
  {
  }

  /** The win event is raised on every tick that ends strictly within WIN_RADIUS of the goal. */
  lemma WinRadius(s: AgentState, held: set<string>, dir: Vec3, time: real, delta: real,
                  ps: seq<Platform>, goal: Vec3)
    ensures var t := Tick(s, held, dir, time, delta, ps, goal);
      t.events.reachedGoal <==> SqDistance(t.next.position, goal) < WIN_RADIUS * WIN_RADIUS
  {
  }

  // A body dropped at (0,5,0) with vertical speed -10 over the box centred at the
  // origin of size (10,1,10), ticking every 0.1 s with no key held.
  const SNAP_BOX: seq<Platform> := [Platform(Zero, Vec3(10.0, 1.0, 10.0), "#1e293b", false)]
  const SNAP_GOAL: Vec3 := Vec3(0.0, 0.0, -60.0)

  function Falling(y: real, vy: real, grounded: bool): AgentState {
    AgentState(Vec3(0.0, y, 0.0), Vec3(0.0, vy, 0.0), grounded, 0, false, false, 0.0)
  }

  /** A free-fall tick of that body that misses the box top. */
  lemma SnapTick(y: real, vy: real, time: real, y': real, vy': real)
    requires time >= DASH_DURATION && vy - 4.0 >= -MAX_FALL_SPEED
    requires vy' == vy - 4.0 && y' == y + vy' * 0.1
    requires !(y >= 0.5 && y' <= 0.7) && y' >= FALL_LIMIT
    ensures Tick(Falling(y, vy, false), {}, Zero, time, 0.1, SNAP_BOX, SNAP_GOAL).next == Falling(y', vy', false)
  {
    assert Move(Falling(y, vy, false), {}, Zero, time, 0.1) == Motion(Vec3(0.0, vy', 0.0), Vec3(0.0, y', 0.0), 0, 0.0);
    assert FirstLanding(SNAP_BOX, y, Vec3(0.0, y', 0.0)) == None;
  }

  /** A tick of that body that ends within LANDING_TOLERANCE of the box top. */
  lemma SnapLand(y: real, vy: real, time: real, grounded: bool)
    requires time >= DASH_DURATION && vy - 4.0 >= -MAX_FALL_SPEED
    requires vy <= 4.0 && y >= 0.5 && y + (vy - 4.0) * 0.1 <= 0.7
    ensures Tick(Falling(y, vy, grounded), {}, Zero, time, 0.1, SNAP_BOX, SNAP_GOAL).next == Falling(0.5, 0.0, true)
  {
    var y' := y + (vy - 4.0) * 0.1;
    assert Move(Falling(y, vy, grounded), {}, Zero, time, 0.1) == Motion(Vec3(0.0, vy - 4.0, 0.0), Vec3(0.0, y', 0.0), 0, 0.0);
    assert LandsOn(SNAP_BOX[0], y, Vec3(0.0, y', 0.0));
    assert FirstLanding(SNAP_BOX, y, Vec3(0.0, y', 0.0)) == Some(0);
  }

  /** The trace of that drop: two free-fall ticks from (0,5,0), each adding
      GRAVITY * 0.1 to the fall speed ... */
  lemma FreeFallExample()
    ensures Tick(Falling(5.0, -10.0, false), {}, Zero, 1.0, 0.1, SNAP_BOX, SNAP_GOAL).next == Falling(3.6, -14.0, false)
    ensures Tick(Falling(3.6, -14.0, false), {}, Zero, 1.1, 0.1, SNAP_BOX, SNAP_GOAL).next == Falling(1.8, -18.0, false)
  {
    SnapTick(5.0, -10.0, 1.0, 3.6, -14.0);
    SnapTick(3.6, -14.0, 1.1, 1.8, -18.0);
  }

  /** ... then the landing tick snaps the body onto the top surface (y = 0.5) at
      rest, and the next tick keeps it there. */
  lemma LandingSnapExample()
    ensures Tick(Falling(1.8, -18.0, false), {}, Zero, 1.2, 0.1, SNAP_BOX, SNAP_GOAL).next == Falling(0.5, 0.0, true)
    ensures Tick(Falling(0.5, 0.0, true), {}, Zero, 1.3, 0.1, SNAP_BOX, SNAP_GOAL).next == Falling(0.5, 0.0, true)
  {
    SnapLand(1.8, -18.0, 1.2, false);
    SnapLand(0.5, 0.0, 1.3, true);
  }

  /** The landing loop: platforms in list order, the first hit wins. */
  method FindLanding(platforms: seq<Platform>, oldY: real, candidate: Vec3) returns (hit: Option<nat>)
    ensures hit == FirstLanding(platforms, oldY, candidate)
  {
    hit := None;
    var i := 0;
    while i < |platforms|
      invariant 0 <= i <= |platforms|
      invariant forall j :: 0 <= j < i ==> !LandsOn(platforms[j], oldY, candidate)
    {
      var plat := platforms[i];
      var pMinX := plat.position.x - plat.size.x / 2.0;
      var pMaxX := plat.position.x + plat.size.x / 2.0;
      var pMinZ := plat.position.z - plat.size.z / 2.0;
      var pMaxZ := plat.position.z + plat.size.z / 2.0;
      var pY := plat.position.y + plat.size.y / 2.0;
      if candidate.x > pMinX && candidate.x < pMaxX && candidate.z > pMinZ && candidate.z < pMaxZ {
        if oldY >= pY && candidate.y <= pY + LANDING_TOLERANCE {
          hit := Some(i);
          break;
        }
      }
      i := i + 1;
    }
  }

  /** The mounted controller: React state (position, velocity, grounded, jumps) and
      the group's `userData` (jumpPressed, dashPressed, lastDashTime); the level's
      platforms and goal are its props. */
  class Player {
    const platforms: seq<Platform>
    const goalPosition: Vec3
    var position: Vec3
    var velocity: Vec3
    var isGrounded: bool
    var jumps: JumpCount
    var jumpPressed: bool
    var dashPressed: bool
    var lastDashTime: real

    function State(): AgentState
      reads this
    {
      AgentState(position, velocity, isGrounded, jumps, jumpPressed, dashPressed, lastDashTime)
    }

    constructor (platforms: seq<Platform>, goalPosition: Vec3)
      ensures this.platforms == platforms && this.goalPosition == goalPosition
      ensures State() == SPAWNED
    {
      this.platforms := platforms;
      this.goalPosition := goalPosition;
      position := SPAWN;
      velocity := Zero;
      isGrounded := false;
      jumps := 0;
      jumpPressed := false;
      dashPressed := false;
      lastDashTime := 0.0;
    }

    /** Horizontal movement: damped while a dash lasts, otherwise set from the input. */
    method Run(dir: Vec3, time: real) returns (newVel: Vec3)
      ensures newVel == Steer(velocity, dir, IsDashing(lastDashTime, time))
    {
      var isDashing := time - lastDashTime < DASH_DURATION;
      newVel := velocity;
      if isDashing {
        newVel := newVel.(x := newVel.x * DASH_DAMPING, z := newVel.z * DASH_DAMPING);
      } else if NonZero(dir) {
        newVel := newVel.(x := dir.x * MOVE_SPEED, z := dir.z * MOVE_SPEED);
      } else {
        newVel := newVel.(x := 0.0, z := 0.0);
      }
    }

    /** The Space handler: the jump or double jump on a rising edge, and the latch. */
    method JumpInput(held: set<string>, vel: Vec3, dir: Vec3)
      returns (newVel: Vec3, newJumps: JumpCount, newJumpPressed: bool, inputDir: Vec3)
      ensures JumpStage(newVel, newJumps, inputDir) == Jump(vel, dir, isGrounded, jumps, JumpHeld(held) && !jumpPressed)
      ensures newJumpPressed == JumpHeld(held)
    {
      newVel, newJumps, newJumpPressed, inputDir := vel, jumps, jumpPressed, dir;
      if JumpHeld(held) {
        if !jumpPressed {
          if isGrounded {
            newVel := newVel.(y := JUMP_FORCE);
            newJumps := 1;
          } else if jumps < 2 {
            newVel := newVel.(y := DOUBLE_JUMP_FORCE);
            newJumps := 2;
            inputDir := Scale(inputDir, DOUBLE_JUMP_STEER);
            newVel := Add(newVel, inputDir);
          }
          newJumpPressed := true;
        }
      } else {
        newJumpPressed := false;
      }
    }

    /** The Shift handler: the phase dash on a rising edge past the cooldown, and the latch. */
    method PhaseDash(held: set<string>, time: real, vel: Vec3, inputDir: Vec3)
      returns (newVel: Vec3, newDashPressed: bool, newDashTime: real)
      ensures DashStage(newVel, newDashTime) == Dash(vel, inputDir, ShiftHeld(held) && !dashPressed, time, lastDashTime)
      ensures newDashPressed == ShiftHeld(held)
    {
      newVel, newDashPressed, newDashTime := vel, dashPressed, lastDashTime;
      var isShiftPressed := ShiftHeld(held);
      if isShiftPressed && !dashPressed {
        if time - lastDashTime > DASH_COOLDOWN {
          if NonZero(inputDir) {
            var dashVel := Scale(inputDir, DASH_FORCE);
            newVel := Vec3(dashVel.x, DASH_LIFT, dashVel.z);
            newDashTime := time;
          }
        }
        newDashPressed := true;
      }
      if !isShiftPressed {
        newDashPressed := false;
      }
    }

    /** The first half of a `useFrame` callback: input, horizontal movement, the
        jump and dash impulses (with their edge flags), gravity and integration.
        It reads the fields and returns the values the tick goes on with. */
    method Integrate(held: set<string>, dir: Vec3, time: real, delta: real)
      returns (newVel: Vec3, newPos: Vec3, newJumps: JumpCount,
               newJumpPressed: bool, newDashPressed: bool, newDashTime: real)
      ensures Motion(newVel, newPos, newJumps, newDashTime) == Move(State(), held, dir, time, delta)
      ensures newJumpPressed == JumpHeld(held) && newDashPressed == ShiftHeld(held)
    {
      newVel := Run(dir, time);
      var inputDir;
      newVel, newJumps, newJumpPressed, inputDir := JumpInput(held, newVel, dir);
      newVel, newDashPressed, newDashTime := PhaseDash(held, time, newVel, inputDir);

      // Vertical physics and integration.
      newVel := newVel.(y := newVel.y - GRAVITY * delta);
      if newVel.y < -MAX_FALL_SPEED {
        newVel := newVel.(y := -MAX_FALL_SPEED);
      }
      newPos := Add(position, Scale(newVel, delta));
    }

    /** The second half of a `useFrame` callback, on the integrated motion `m`:
        the landing loop, the fall-out reset and the goal test. */
    method Settle(held: set<string>, m: Motion)
      returns (newPos: Vec3, newVel: Vec3, groundedThisFrame: bool, newJumps: JumpCount,
               fell: bool, won: bool)
      ensures var r := Resolve(State(), held, m, platforms, goalPosition);
        && newPos == r.next.position && newVel == r.next.velocity
        && groundedThisFrame == r.next.isGrounded && newJumps == r.next.jumps
        && fell == r.events.fellOut && won == r.events.reachedGoal
    {
      newPos, newVel, newJumps := m.position, m.velocity, m.jumps;

      // Collision: the first platform in list order wins.
      groundedThisFrame := false;
      if newVel.y <= 0.0 {
        var hit := FindLanding(platforms, position.y, newPos);
        if hit.Some? {
          newPos := newPos.(y := platforms[hit.value].Top());
          newVel := newVel.(y := 0.0);
          groundedThisFrame := true;
          newJumps := 0;
        }
      }

      // Fall-out reset and goal radius.
      fell := newPos.y < FALL_LIMIT;
      if fell {
        newPos := SPAWN;
        newVel := Zero;
      }
      won := SqDistance(newPos, goalPosition) < WIN_RADIUS * WIN_RADIUS;
    }

    /** One `useFrame` callback. `dir` is the normalised input direction and `time`
        the clock's elapsed time; the returned events are the `setHealth` and
        `onWin` calls the tick made. */
    method Step(held: set<string>, dir: Vec3, time: real, delta: real) returns (events: TickEvents)
      modifies this
      ensures State() == Tick(old(State()), held, dir, time, delta, platforms, goalPosition).next
      ensures events == Tick(old(State()), held, dir, time, delta, platforms, goalPosition).events
    {
      var newVel, newPos, newJumps, newJumpPressed, newDashPressed, newDashTime :=
        Integrate(held, dir, time, delta);
      var groundedThisFrame, fell, won;
      newPos, newVel, groundedThisFrame, newJumps, fell, won :=
        Settle(held, Motion(newVel, newPos, newJumps, newDashTime));

      position, velocity, isGrounded, jumps := newPos, newVel, groundedThisFrame, newJumps;
      jumpPressed, dashPressed, lastDashTime := newJumpPressed, newDashPressed, newDashTime;
      events := TickEvents(fell, won);
    }
  }
}
