/**
 * The local player's movement and grapple state machine: `updatePlayer`
 * (ground movement and the grapple attach/release control) followed by
 * `updateGrapplePhysics` (forces, damping, collision and ground clamp).
 *
 * The pure functions below are the reference definition of one tick; the
 * class `Player` holds the same state in mutable fields and its methods are
 * proved to move that state exactly as the functions say.
 *
 * Square roots are not computed: the caller supplies `norm`, the vector
 * length, and normalisation divides by it as three.js does.
 */
module Motion {
  import opened Options
  import opened Vectors
  import opened Collision

  const MoveSpeed: real := 0.1
  const Gravity: real := 0.025
  const AirResistance: real := 0.992
  const GrappleReelSpeed: real := 0.15
  const GroundLevel: real := 2.0
  const TapBoostForce: real := 0.3
  const TapUpwardBoost: real := 0.25
  /** milliseconds the attach key must be held before reeling starts */
  const ReelStartDelay: int := 150
  const AirControlStrength: real := 0.06
  const MaxAirSpeed: real := 1.2

  // Factors written inline in the source.
  const AirMoveFactor: real := 0.1        // airborne steering in updatePlayer
  const GroundFriction: real := 0.8       // grounded, no steering
  const AirControlFalloff: real := 0.5    // weight of (MaxAirSpeed - speed) in the air-control force
  const GrappleGravityFactor: real := 0.85
  const GrappleControlFactor: real := 0.7
  const ReelDeadZone: real := 5.0
  const ReelGain: real := 0.01
  const TautGain: real := 0.03
  const TautCap: real := 0.1
  const SlackGain: real := 0.015
  const SlackCap: real := 0.06
  const SpeedLimitGain: real := 0.1
  const ReleaseBoost: real := 1.05
  const MomentumKept: real := 0.5
  const BoostHorizontal: real := 0.8
  const BoostSpeedShare: real := 0.2

  /** The key table. */
  datatype Keys = Keys(w: bool, a: bool, s: bool, d: bool, space: bool)

  /** Some movement key is held: the guard of both air-control blocks. */
  predicate AnyMoveKey(k: Keys) {
    k.w || k.s || k.a || k.d
  }

  /** The key-derived move direction is nonzero (opposite keys cancel out). */
  predicate Steering(k: Keys) {
    k.w != k.s || k.a != k.d
  }

  /** The unnormalised key direction: w is -z, s is +z, a is +x, d is -x. */
  function KeyDirection(k: Keys): Vec3 {
    Vec3((if k.a then 1.0 else 0.0) - (if k.d then 1.0 else 0.0), 0.0,
         (if k.s then 1.0 else 0.0) - (if k.w then 1.0 else 0.0))
  }

  /**
   * Steering holds exactly when the key direction is nonzero, and it needs a
   * movement key to be held, though a held key need not steer (w with s).
   */
  lemma SteeringMeansKeyDirection(k: Keys)
    ensures Steering(k) <==> KeyDirection(k) != Zero
    ensures Steering(k) ==> AnyMoveKey(k)
    ensures AnyMoveKey(k) && !Steering(k) ==> (k.w && k.s) || (k.a && k.d)
  {
  }

  /**
   * The inputs of one tick: the keys, the grapple target when the indicator
   * is visible, the view-relative world move direction computed by the
   * camera code, and the clock in milliseconds.
   */
  datatype Frame = Frame(keys: Keys, target: Option<Vec3>, moveDir: Vec3, now: int)

  /** `player.position` together with the fields of `playerState`. */
  datatype PlayerState = PlayerState(
    position: Vec3,
    velocity: Vec3,
    isGrappling: bool,
    grapplePoint: Option<Vec3>,
    ropeLength: real,
    isGrounded: bool,
    grappleStartTime: int,
    isReeling: bool)

  /** The state at startup: at rest at ground height above the origin, airborne. */
  const Initial: PlayerState := PlayerState(Vec3(0.0, GroundLevel, 0.0), Zero, false, None, 0.0, false, 0, false)

  /** A grappling player has an anchor, and only a grappling player reels. */
  predicate Consistent(m: PlayerState) {
    && (m.isGrappling ==> m.grapplePoint.Some?)
    && (m.isReeling ==> m.isGrappling)
  }

  // ---------------------------------------------------------------- control

  /** Ground movement of `updatePlayer`, applied when not grappling. */
  function GroundMove(m: PlayerState, f: Frame): PlayerState {
    var v := m.velocity;
    if Steering(f.keys) then
      if m.isGrounded then
        m.(velocity := v.(x := f.moveDir.x * MoveSpeed, z := f.moveDir.z * MoveSpeed))
      else
        m.(velocity := v.(x := v.x + f.moveDir.x * MoveSpeed * AirMoveFactor,
                          z := v.z + f.moveDir.z * MoveSpeed * AirMoveFactor))
    else if m.isGrounded then
      m.(velocity := v.(x := v.x * GroundFriction, z := v.z * GroundFriction))
    else m
  }

  /** Attaching to `target`: record the anchor, the slack and the time, and apply the tap boost. */
  function Attach(m: PlayerState, target: Vec3, now: int, norm: Vec3 -> real): PlayerState {
    var grappleDir := Normalize(Sub(target, m.position), norm);
    m.(isGrappling := true,
       isReeling := false,
       grapplePoint := Some(target),
       ropeLength := norm(Sub(m.position, target)),
       grappleStartTime := now,
       velocity := TapBoost(m.velocity, BoostDirection(grappleDir, norm), norm(m.velocity)))
  }

  /** The rope direction with its horizontal part reduced and an upward component added. */
  function BoostTilt(grappleDir: Vec3): Vec3 {
    Vec3(grappleDir.x * BoostHorizontal, grappleDir.y + TapUpwardBoost, grappleDir.z * BoostHorizontal)
  }

  /** The boost direction: the tilted rope direction, normalised. */
  function BoostDirection(grappleDir: Vec3, norm: Vec3 -> real): Vec3 {
    Normalize(BoostTilt(grappleDir), norm)
  }

  /** Half the momentum is kept and a push along `boostDir` grows with the current speed. */
  function TapBoost(v: Vec3, boostDir: Vec3, currentSpeed: real): Vec3 {
    Add(Scale(v, MomentumKept), Scale(boostDir, TapBoostForce + currentSpeed * BoostSpeedShare))
  }

  /** Releasing the grapple: the anchor is kept but unused, speed grows by 5%. */
  function Release(m: PlayerState): PlayerState {
    m.(isGrappling := false, isReeling := false, velocity := Scale(m.velocity, ReleaseBoost))
  }

  /** `updatePlayer` up to the call of `updateGrapplePhysics`. */
  function Control(m: PlayerState, f: Frame, norm: Vec3 -> real): (r: PlayerState)
    requires Consistent(m)
    ensures Consistent(r)
    ensures r.position == m.position
  {
    var m1 := if !m.isGrappling then GroundMove(m, f) else m;
    if f.keys.space && !m1.isGrappling && f.target.Some? then Attach(m1, f.target.value, f.now, norm)
    else if !f.keys.space && m1.isGrappling then Release(m1)
    else m1
  }

  // ---------------------------------------------------------------- forces

  /** Free-flight steering with the horizontal speed cap. */
  function AirControl(v: Vec3, f: Frame, norm: Vec3 -> real): Vec3 {
    if AnyMoveKey(f.keys) then
      CapHorizontal(Steer(v, f.moveDir, ControlForce(norm(Vec3(v.x, 0.0, v.z)))), norm)
    else v
  }

  /** The free-flight steering force: stronger the further the horizontal speed is below the cap. */
  function ControlForce(currentHorizontalSpeed: real): real {
    AirControlStrength * (1.0 + (MaxAirSpeed - currentHorizontalSpeed) * AirControlFalloff)
  }

  /** Adds `k` times the horizontal part of `dir` to `v`. */
  function Steer(v: Vec3, dir: Vec3, k: real): Vec3 {
    v.(x := v.x + dir.x * k, z := v.z + dir.z * k)
  }

  /** Rescales the horizontal part of `v` down to `MaxAirSpeed` when it is faster. */
  function CapHorizontal(v: Vec3, norm: Vec3 -> real): Vec3 {
    var h := norm(Vec3(v.x, 0.0, v.z));
    if h > MaxAirSpeed then v.(x := v.x / h * MaxAirSpeed, z := v.z / h * MaxAirSpeed) else v
  }

  /** The reel pull coefficient at `distance` from the anchor. */
  function ReelStrength(distance: real): (s: real)
    ensures s <= GrappleReelSpeed
    ensures distance <= ReelDeadZone ==> s <= 0.0
    ensures distance >= ReelDeadZone + GrappleReelSpeed / ReelGain ==> s == GrappleReelSpeed
  {
    Min((distance - ReelDeadZone) * ReelGain, GrappleReelSpeed)
  }

  /** Rope tension coefficient while reeling. */
  function TautTension(distance: real, ropeLength: real): (t: real)
    ensures t <= TautCap
    ensures distance > ropeLength ==> t > 0.0
  {
    Min((distance - ropeLength) * TautGain, TautCap)
  }

  /** Rope tension coefficient before reeling has started. */
  function SlackTension(distance: real, ropeLength: real): (t: real)
    ensures t <= SlackCap
    ensures distance > ropeLength ==> t > 0.0
  {
    Min((distance - ropeLength) * SlackGain, SlackCap)
  }

  /** The reel-in test: attach key held for longer than the delay. */
  predicate ReelCondition(m: PlayerState, f: Frame) {
    f.keys.space && f.now - m.grappleStartTime > ReelStartDelay
  }

  /**
   * The velocity change the rope causes in one tick. While reeling,
   * three.js `multiplyScalar` has already scaled `grappleDir` by the reel
   * strength in place, so the tension is applied to the reel force.
   */
  function RopePull(reel: bool, wasReeling: bool, distance: real, ropeLength: real, grappleDir: Vec3): Vec3 {
    if reel then
      var reelForce := Scale(grappleDir, ReelStrength(distance));
      if distance > ropeLength then Add(reelForce, Scale(reelForce, TautTension(distance, ropeLength)))
      else reelForce
    else if !wasReeling && distance > ropeLength then
      Scale(grappleDir, SlackTension(distance, ropeLength))
    else Zero
  }

  /** Steering while hanging from the rope: a fixed push along the move direction. */
  function GrappleSteer(v: Vec3, f: Frame): Vec3 {
    if AnyMoveKey(f.keys) then
      v.(x := v.x + f.moveDir.x * AirControlStrength * GrappleControlFactor,
         z := v.z + f.moveDir.z * AirControlStrength * GrappleControlFactor)
    else v
  }

  /** The soft speed limit of the grapple branch: a damping factor that grows with the excess speed. */
  function SpeedLimit(v: Vec3, norm: Vec3 -> real): Vec3 {
    var speed := norm(v);
    if speed > MaxAirSpeed then Scale(v, 1.0 - (speed - MaxAirSpeed) * SpeedLimitGain) else v
  }

  /** The grappling branch of `updateGrapplePhysics`, up to the air resistance. */
  function GrappleForces(m: PlayerState, f: Frame, norm: Vec3 -> real): (r: PlayerState)
    requires m.isGrappling && m.grapplePoint.Some?
    ensures r == m.(velocity := r.velocity, isReeling := r.isReeling)
    ensures r.isReeling == (m.isReeling || ReelCondition(m, f))
  {
    var toGrapple := Sub(m.grapplePoint.value, m.position);
    var distance := norm(toGrapple);
    var grappleDir := Normalize(toGrapple, norm);
    var v0 := m.velocity.(y := m.velocity.y - Gravity * GrappleGravityFactor);
    var reel := ReelCondition(m, f);
    var v1 := Add(v0, RopePull(reel, m.isReeling, distance, m.ropeLength, grappleDir));
    m.(velocity := SpeedLimit(GrappleSteer(v1, f), norm), isReeling := m.isReeling || reel)
  }

  /** The force stage of `updateGrapplePhysics`. */
  function Forces(m: PlayerState, f: Frame, norm: Vec3 -> real): (r: PlayerState)
    requires Consistent(m)
    ensures Consistent(r)
    ensures r == m.(velocity := r.velocity, isReeling := r.isReeling)
  {
    if !m.isGrappling then
      if !m.isGrounded then
        m.(velocity := AirControl(m.velocity.(y := m.velocity.y - Gravity), f, norm))
      else m
    else GrappleForces(m, f, norm)
  }

  // ---------------------------------------------------------- integration

  /** Air resistance, collision with the registry, position commit and ground clamp. */
  function Integrate(m: PlayerState, boxes: seq<Box>): PlayerState {
    var v := Scale(m.velocity, AirResistance);
    match Resolve(boxes, m.position, v, m.isGrounded)
    case Some(c) => m.(position := c.position, velocity := c.velocity, isGrounded := c.grounded)
    case None =>
      var p := Add(m.position, v);
      if p.y < GroundLevel then
        m.(position := p.(y := GroundLevel), velocity := v.(y := 0.0), isGrounded := true)
      else
        m.(position := p, velocity := v, isGrounded := false)
  }

  /** `updateGrapplePhysics` */
  function Physics(m: PlayerState, f: Frame, norm: Vec3 -> real, boxes: seq<Box>): (r: PlayerState)
    requires Consistent(m)
    ensures Consistent(r)
  {
    Integrate(Forces(m, f, norm), boxes)
  }

  /** One tick: `updatePlayer` (state and physics part). */
  function Tick(m: PlayerState, f: Frame, norm: Vec3 -> real, boxes: seq<Box>): (r: PlayerState)
    requires Consistent(m)
    ensures Consistent(r)
  {
    Physics(Control(m, f, norm), f, norm, boxes)
  }

  /** Consecutive ticks. */
  function Run(m: PlayerState, frames: seq<Frame>, norm: Vec3 -> real, boxes: seq<Box>): (r: PlayerState)
    requires Consistent(m)
    ensures Consistent(r)
    decreases |frames|
  {
    if |frames| == 0 then m else Run(Tick(m, frames[0], norm, boxes), frames[1..], norm, boxes)
  }

  // ---------------------------------------------------------------- lemmas

  /** Ground movement: grounded steering sets the horizontal velocity, grounded idling decays it. */
  lemma GroundMovement(m: PlayerState, f: Frame)
    ensures var r := GroundMove(m, f);
      && r == m.(velocity := r.velocity) && r.velocity.y == m.velocity.y
      && (m.isGrounded && Steering(f.keys) ==>
            r.velocity.x == f.moveDir.x * MoveSpeed && r.velocity.z == f.moveDir.z * MoveSpeed)
      && (m.isGrounded && !Steering(f.keys) ==>
            Abs(r.velocity.x) <= Abs(m.velocity.x) && Abs(r.velocity.z) <= Abs(m.velocity.z)
            && r.velocity.x == m.velocity.x * GroundFriction && r.velocity.z == m.velocity.z * GroundFriction)
      && (!m.isGrounded && Steering(f.keys) ==>
            Sub(r.velocity, m.velocity) == Scale(Vec3(f.moveDir.x, 0.0, f.moveDir.z), MoveSpeed * AirMoveFactor))
      && (!m.isGrounded && !Steering(f.keys) ==> r == m)
  {
  }

  /**
   * Attach happens exactly when the key is pressed, the player is free and
   * a target is visible; it starts a fresh, non-reeling grapple whose slack
   * is the distance at that moment. Release happens exactly when the key is
   * up while grappling; it keeps the anchor and multiplies the velocity by 1.05.
   */
  lemma GrappleTransitions(m: PlayerState, f: Frame, norm: Vec3 -> real)
    requires Consistent(m)
    ensures var c := Control(m, f, norm);
      && ((!m.isGrappling && c.isGrappling) <==> (!m.isGrappling && f.keys.space && f.target.Some?))
      && ((m.isGrappling && !c.isGrappling) <==> (m.isGrappling && !f.keys.space))
      && (!m.isGrappling && f.keys.space && f.target.Some? ==>
            && !c.isReeling && c.grapplePoint == f.target
            && c.ropeLength == norm(Sub(m.position, f.target.value))
            && c.grappleStartTime == f.now)
      && (m.isGrappling && !f.keys.space ==>
            c == m.(isGrappling := false, isReeling := false, velocity := Scale(m.velocity, ReleaseBoost)))
      && (m.isGrappling && f.keys.space ==> c == m)
  {
  }

  /** The rope pull in all three regimes, as a multiple of the direction to the anchor. */
  lemma RopePullShape(reel: bool, wasReeling: bool, distance: real, ropeLength: real, dir: Vec3)
    ensures var p := RopePull(reel, wasReeling, distance, ropeLength, dir);
      && (reel && distance <= ropeLength ==> p == Scale(dir, ReelStrength(distance)))
      && (reel && distance > ropeLength ==>
            p == Scale(dir, ReelStrength(distance) * (1.0 + TautTension(distance, ropeLength))))
      && (!reel && !wasReeling && distance > ropeLength ==> p == Scale(dir, SlackTension(distance, ropeLength)))
      && (!reel && (wasReeling || distance <= ropeLength) ==> p == Zero)
  {
    if reel && distance > ropeLength {
      var s, t := ReelStrength(distance), TautTension(distance, ropeLength);
      assert dir.x * s + dir.x * s * t == dir.x * (s * (1.0 + t));
      assert dir.y * s + dir.y * s * t == dir.y * (s * (1.0 + t));
      assert dir.z * s + dir.z * s * t == dir.z * (s * (1.0 + t));
    }
  }

  /** The rope's slack is recorded at attach time and nothing else changes it, nor the anchor or start time. */
  lemma RopeSetOnlyByAttach(m: PlayerState, f: Frame, norm: Vec3 -> real, boxes: seq<Box>)
    requires Consistent(m)
    ensures var r := Tick(m, f, norm, boxes);
      (r.ropeLength != m.ropeLength || r.grapplePoint != m.grapplePoint || r.grappleStartTime != m.grappleStartTime)
      ==> !m.isGrappling && f.keys.space && f.target.Some?
  {
    var c := Control(m, f, norm);
    GrappleTransitions(m, f, norm);
    PhysicsKeepsGrapple(c, f, norm, boxes);
  }

  /** The physics stage never changes the grapple flag, anchor, slack or start time. */
  lemma PhysicsKeepsGrapple(m: PlayerState, f: Frame, norm: Vec3 -> real, boxes: seq<Box>)
    requires Consistent(m)
    ensures var r := Physics(m, f, norm, boxes);
      && r.isGrappling == m.isGrappling && r.grapplePoint == m.grapplePoint
      && r.ropeLength == m.ropeLength && r.grappleStartTime == m.grappleStartTime
  {
    var g := Forces(m, f, norm);
    match Resolve(boxes, g.position, Scale(g.velocity, AirResistance), g.isGrounded)
    case Some(c) =>
    case None =>
  }

  /** Reeling starts only when the key has been held for strictly more than the delay. */
  lemma ReelStartsOnlyAfterDelay(m: PlayerState, f: Frame, norm: Vec3 -> real, boxes: seq<Box>)
    requires Consistent(m)
    ensures var r := Tick(m, f, norm, boxes);
      && (r.isReeling && !m.isReeling ==>
            m.isGrappling && f.keys.space && f.now - m.grappleStartTime > ReelStartDelay)
      && (m.isGrappling && f.keys.space && f.now - m.grappleStartTime > ReelStartDelay ==> r.isReeling)
  {
    var c := Control(m, f, norm);
    GrappleTransitions(m, f, norm);
    var g := Forces(c, f, norm);
    assert c.isGrappling ==> g.isReeling == (c.isReeling || ReelCondition(c, f));
    match Resolve(boxes, g.position, Scale(g.velocity, AirResistance), g.isGrounded)
    case Some(_) =>
    case None =>
  }

  /** The attach tick itself never reels: the elapsed time is zero. */
  lemma AttachTickNeverReels(m: PlayerState, f: Frame, norm: Vec3 -> real, boxes: seq<Box>)
    requires Consistent(m)
    requires !m.isGrappling && f.keys.space && f.target.Some?
    ensures var r := Tick(m, f, norm, boxes);
      r.isGrappling && !r.isReeling && r.grappleStartTime == f.now && r.grapplePoint == f.target
  {
    var c := Control(m, f, norm);
    GrappleTransitions(m, f, norm);
    assert !ReelCondition(c, f);
    PhysicsKeepsGrapple(c, f, norm, boxes);
    var g := Forces(c, f, norm);
    match Resolve(boxes, g.position, Scale(g.velocity, AirResistance), g.isGrounded)
    case Some(_) =>
    case None =>
  }

  /** Holding the key keeps the grapple and its slack, anchor and start time for the whole episode. */
  lemma {:induction false} GrappleEpisodeKeepsRope(m: PlayerState, frames: seq<Frame>, norm: Vec3 -> real, boxes: seq<Box>)
    requires Consistent(m) && m.isGrappling
    requires forall i :: 0 <= i < |frames| ==> frames[i].keys.space
    ensures var r := Run(m, frames, norm, boxes);
      && r.isGrappling && r.ropeLength == m.ropeLength
      && r.grapplePoint == m.grapplePoint && r.grappleStartTime == m.grappleStartTime
    decreases |frames|
  {
    if |frames| > 0 {
      var f := frames[0];
      GrappleTransitions(m, f, norm);
      PhysicsKeepsGrapple(Control(m, f, norm), f, norm, boxes);
      GrappleEpisodeKeepsRope(Tick(m, f, norm, boxes), frames[1..], norm, boxes);
    }
  }

  /** While the delay has not yet passed, a held grapple does not reel, however many ticks elapse. */
  lemma {:induction false} NoReelWithinDelay(m: PlayerState, frames: seq<Frame>, norm: Vec3 -> real, boxes: seq<Box>)
    requires Consistent(m) && m.isGrappling && !m.isReeling
    requires forall i :: 0 <= i < |frames| ==>
      frames[i].keys.space && frames[i].now - m.grappleStartTime <= ReelStartDelay
    ensures Run(m, frames, norm, boxes).isGrappling && !Run(m, frames, norm, boxes).isReeling
    decreases |frames|
  {
    if |frames| > 0 {
      var f := frames[0];
      ReelStartsOnlyAfterDelay(m, f, norm, boxes);
      GrappleTransitions(m, f, norm);
      PhysicsKeepsGrapple(Control(m, f, norm), f, norm, boxes);
      NoReelWithinDelay(Tick(m, f, norm, boxes), frames[1..], norm, boxes);
    }
  }

  /**
   * The end of every tick as written: the velocity is damped by the air
   * resistance; on a collision the position still advances to `position +
   * velocity`, only the z velocity is zeroed and the grounded flag is kept;
   * otherwise the position advances and is clamped to the ground.
   */
  lemma IntegrateAsWritten(m: PlayerState, boxes: seq<Box>)
    ensures var v := Scale(m.velocity, AirResistance);
      var p := Add(m.position, v);
      var r := Integrate(m, boxes);
      && r == m.(position := r.position, velocity := r.velocity, isGrounded := r.isGrounded)
      && if exists j :: 0 <= j < |boxes| && Touches(boxes[j], p) then
           r.position == p && r.velocity == v.(z := 0.0) && r.isGrounded == m.isGrounded
         else if p.y < GroundLevel then
           r.position == p.(y := GroundLevel) && r.velocity == v.(y := 0.0) && r.isGrounded
         else
           r.position == p && r.velocity == v && !r.isGrounded
  {
    ResolveAsWritten(boxes, m.position, Scale(m.velocity, AirResistance), m.isGrounded);
  }

  /** The length oracle is nonnegative and scales with nonnegative factors, as a norm does. */
  ghost predicate Homogeneous(norm: Vec3 -> real) {
    forall u: Vec3, k: real {:trigger norm(Scale(u, k))} ::
      k >= 0.0 ==> norm(u) >= 0.0 && norm(Scale(u, k)) == k * norm(u)
  }

  /** The free-flight cap leaves the horizontal speed at most `MaxAirSpeed` and never touches the vertical velocity. */
  lemma CapHorizontalBounds(v: Vec3, norm: Vec3 -> real)
    requires Homogeneous(norm)
    ensures var w := CapHorizontal(v, norm);
      w.y == v.y && norm(Vec3(w.x, 0.0, w.z)) <= MaxAirSpeed
    ensures norm(Vec3(v.x, 0.0, v.z)) <= MaxAirSpeed ==> CapHorizontal(v, norm) == v
  {
    var h := norm(Vec3(v.x, 0.0, v.z));
    if h > MaxAirSpeed {
      var k := MaxAirSpeed / h;
      var w := CapHorizontal(v, norm);
      assert Vec3(w.x, 0.0, w.z) == Scale(Vec3(v.x, 0.0, v.z), k);
      assert norm(Scale(Vec3(v.x, 0.0, v.z), k)) == k * h;
    }
  }

  /**
   * The attach boost keeps half the momentum and adds a push whose length is
   * the tap force plus a fifth of the current speed, pointing upwards
   * exactly when the tilted rope direction does.
   */
  lemma AttachBoost(m: PlayerState, target: Vec3, now: int, norm: Vec3 -> real)
    requires Homogeneous(norm)
    requires norm(BoostTilt(Normalize(Sub(target, m.position), norm))) != 0.0
    ensures norm(Sub(Attach(m, target, now, norm).velocity, Scale(m.velocity, MomentumKept)))
         == TapBoostForce + norm(m.velocity) * BoostSpeedShare
    ensures Sub(Attach(m, target, now, norm).velocity, Scale(m.velocity, MomentumKept)).y > 0.0
        <==> BoostTilt(Normalize(Sub(target, m.position), norm)).y > 0.0
  {
    var u := BoostTilt(Normalize(Sub(target, m.position), norm));
    var n := norm(u);
    assert norm(Scale(u, 1.0)) == 1.0 * n;
    assert norm(Scale(m.velocity, 1.0)) == 1.0 * norm(m.velocity);
    var d := Scale(u, 1.0 / n);
    assert d == BoostDirection(Normalize(Sub(target, m.position), norm), norm);
    assert norm(d) == 1.0 by {
      assert norm(Scale(u, 1.0 / n)) == (1.0 / n) * n;
    }
    var k := TapBoostForce + norm(m.velocity) * BoostSpeedShare;
    assert k > 0.0;
    var push := Sub(Attach(m, target, now, norm).velocity, Scale(m.velocity, MomentumKept));
    assert push == Scale(d, k);
    assert norm(Scale(d, k)) == k * norm(d);
    assert push.y == u.y * (1.0 / n) * k;
    SignOfPositiveProduct(u.y, 1.0 / n, k);
  }

  /** Multiplying by two positive factors keeps the sign. */
  lemma SignOfPositiveProduct(a: real, p: real, q: real)
    requires p > 0.0 && q > 0.0
    ensures a * p * q > 0.0 <==> a > 0.0
  {
    if a > 0.0 {
      assert a * p > 0.0;
    } else {
      assert a * p <= 0.0;
    }
  }

  /**
   * Steering while grappling never touches the vertical velocity; with a
   * movement key held it pushes along the horizontal part of the move
   * direction by a fixed 0.042 of its length, and otherwise does nothing.
   */
  lemma GrappleSteerPush(v: Vec3, f: Frame, norm: Vec3 -> real)
    requires Homogeneous(norm)
    ensures GrappleSteer(v, f).y == v.y
    ensures !AnyMoveKey(f.keys) ==> GrappleSteer(v, f) == v
    ensures AnyMoveKey(f.keys) ==>
      && Sub(GrappleSteer(v, f), v) == Scale(Vec3(f.moveDir.x, 0.0, f.moveDir.z), AirControlStrength * GrappleControlFactor)
      && norm(Sub(GrappleSteer(v, f), v)) == AirControlStrength * GrappleControlFactor * norm(Vec3(f.moveDir.x, 0.0, f.moveDir.z))
  {
    if AnyMoveKey(f.keys) {
      var h := Vec3(f.moveDir.x, 0.0, f.moveDir.z);
      var k := AirControlStrength * GrappleControlFactor;
      assert Sub(GrappleSteer(v, f), v) == Scale(h, k);
      assert norm(Scale(h, k)) == k * norm(h);
    }
  }

  /**
   * The soft speed limit slows a fast swing without stopping it, as long as
   * the excess stays below `1 / SpeedLimitGain`; slower swings pass unchanged.
   */
  lemma SpeedLimitDamps(v: Vec3, norm: Vec3 -> real)
    requires Homogeneous(norm)
    requires norm(v) < MaxAirSpeed + 1.0 / SpeedLimitGain
    ensures norm(v) <= MaxAirSpeed ==> SpeedLimit(v, norm) == v
    ensures norm(v) > MaxAirSpeed ==> 0.0 < norm(SpeedLimit(v, norm)) < norm(v)
  {
    var speed := norm(v);
    if speed > MaxAirSpeed {
      var k := 1.0 - (speed - MaxAirSpeed) * SpeedLimitGain;
      assert 0.0 < k < 1.0;
      assert norm(Scale(v, k)) == k * speed;
      assert k * speed < speed;
    }
  }

  /**
   * A player at rest on the ground with no input leaves the ground flag on
   * the next tick (the height is not below ground level) and is clamped
   * back on the tick after: the grounded flag alternates while the position
   * and the zero velocity repeat.
   */
  lemma RestingOnGroundAlternates(m: PlayerState, f: Frame, norm: Vec3 -> real, boxes: seq<Box>)
    requires m.position.y == GroundLevel && m.velocity == Zero && m.isGrounded
    requires !m.isGrappling && !m.isReeling
    requires !AnyMoveKey(f.keys) && !f.keys.space
    requires forall j :: 0 <= j < |boxes| ==>
      !Touches(boxes[j], m.position) && !Touches(boxes[j], Add(m.position, Vec3(0.0, -Gravity * AirResistance, 0.0)))
    ensures Tick(m, f, norm, boxes) == m.(isGrounded := false)
    ensures Tick(Tick(m, f, norm, boxes), f, norm, boxes) == m
  {
    assert Add(m.position, Scale(Zero, AirResistance)) == m.position;
    var m1 := m.(isGrounded := false);
    var v := Scale(m.velocity.(y := m.velocity.y - Gravity), AirResistance);
    assert v == Vec3(0.0, -Gravity * AirResistance, 0.0);
    assert Forces(Control(m1, f, norm), f, norm) == m1.(velocity := m.velocity.(y := m.velocity.y - Gravity));
  }

  /** One free-fall tick: gravity, then damping, and no ground contact above ground level. */
  lemma FreeFallTick(m: PlayerState, f: Frame, norm: Vec3 -> real, boxes: seq<Box>)
    requires !m.isGrounded && !m.isGrappling && !m.isReeling
    requires !AnyMoveKey(f.keys) && !f.keys.space
    requires var v := Scale(m.velocity.(y := m.velocity.y - Gravity), AirResistance);
      && (forall j :: 0 <= j < |boxes| ==> !Touches(boxes[j], Add(m.position, v)))
      && m.position.y + v.y >= GroundLevel
    ensures var r := Tick(m, f, norm, boxes);
      && r.velocity == Vec3(m.velocity.x * AirResistance, (m.velocity.y - Gravity) * AirResistance,
                            m.velocity.z * AirResistance)
      && r.position == Add(m.position, r.velocity) && !r.isGrounded
  {
  }

  // ------------------------------------------------------------ the object

  /** `player.position` and `playerState`, updated in place every tick. */
  class Player {
    var position: Vec3
    var velocity: Vec3
    var isGrappling: bool
    var grapplePoint: Option<Vec3>
    var ropeLength: real
    var isGrounded: bool
    var grappleStartTime: int
    var isReeling: bool

    function State(): PlayerState
      reads this
    {
      PlayerState(position, velocity, isGrappling, grapplePoint, ropeLength, isGrounded, grappleStartTime, isReeling)
    }

    ghost predicate Valid()
      reads this
    {
      Consistent(State())
    }

    constructor ()
      ensures Valid() && State() == Initial
    {
      position := Vec3(0.0, GroundLevel, 0.0);
      velocity := Zero;
      isGrappling := false;
      grapplePoint := None;
      ropeLength := 0.0;
      isGrounded := false;
      grappleStartTime := 0;
      isReeling := false;
    }

    /**
     * `checkBuildingCollisions`: walk the registry in order; at the first
     * grown box containing `position + velocity`, apply the response,
     * commit the point and report true. Report false and change nothing
     * when no box contains it.
     */
    method CheckBuildingCollisions(boxes: array<Box>) returns (hit: bool)
      modifies this
      ensures var r := Resolve(boxes[..], old(position), old(velocity), old(isGrounded));
        && hit == r.Some?
        && (if hit then position == r.value.position && velocity == r.value.velocity && isGrounded == r.value.grounded
            else position == old(position) && velocity == old(velocity) && isGrounded == old(isGrounded))
      ensures isGrappling == old(isGrappling) && grapplePoint == old(grapplePoint) && ropeLength == old(ropeLength)
      ensures grappleStartTime == old(grappleStartTime) && isReeling == old(isReeling)
    {
      var nextPos := Add(position, velocity);
      var i := 0;
      while i < boxes.Length
        invariant 0 <= i <= boxes.Length
        invariant forall j :: 0 <= j < i ==> !Touches(boxes[j], nextPos)
        invariant State() == old(State())
      {
        var box := Expand(boxes[i], CollisionCheckRadius);
        if Contains(box, nextPos) {
          var contact := Respond(box, nextPos, velocity, isGrounded);
          velocity := contact.velocity;
          isGrounded := contact.grounded;
          position := contact.position;
          ResolveUsesFirstHit(boxes[..], old(position), old(velocity), old(isGrounded), i);
          return true;
        }
        i := i + 1;
      }
      return false;
    }

    /** `updateGrapplePhysics` */
    method UpdateGrapplePhysics(f: Frame, norm: Vec3 -> real, boxes: array<Box>)
      requires Valid()
      modifies this
      ensures Valid()
      ensures State() == Physics(old(State()), f, norm, boxes[..])
    {
      ApplyForces(f, norm);
      velocity := Scale(velocity, AirResistance);
      var hadCollision := CheckBuildingCollisions(boxes);
      if !hadCollision {
        position := Add(position, velocity);
      }
      if !hadCollision && position.y < GroundLevel {
        position := position.(y := GroundLevel);
        velocity := velocity.(y := 0.0);
        isGrounded := true;
      } else if !hadCollision {
        isGrounded := false;
      }
    }

    /** The force stage of `updateGrapplePhysics`: gravity, steering, rope and speed limit. */
    method ApplyForces(f: Frame, norm: Vec3 -> real)
      requires Valid()
      modifies this
      ensures State() == Forces(old(State()), f, norm)
    {
      if !isGrappling {
        if !isGrounded {
          velocity := velocity.(y := velocity.y - Gravity);
          if AnyMoveKey(f.keys) {
            var currentHorizontalSpeed := norm(Vec3(velocity.x, 0.0, velocity.z));
            ghost var falling := velocity;
            var controlForce := AirControlStrength * (1.0 + (MaxAirSpeed - currentHorizontalSpeed) * AirControlFalloff);
            velocity := velocity.(x := velocity.x + f.moveDir.x * controlForce,
                                  z := velocity.z + f.moveDir.z * controlForce);
            assert velocity == Steer(falling, f.moveDir, ControlForce(currentHorizontalSpeed));
            ghost var steered := velocity;
            var horizontalSpeed := norm(Vec3(velocity.x, 0.0, velocity.z));
            if horizontalSpeed > MaxAirSpeed {
              velocity := velocity.(x := velocity.x / horizontalSpeed * MaxAirSpeed,
                                    z := velocity.z / horizontalSpeed * MaxAirSpeed);
            }
            assert velocity == CapHorizontal(steered, norm);
            assert velocity == AirControl(falling, f, norm);
          }
        }
      } else {
        ApplyGrappleForces(f, norm);
      }
    }

    /** The grappling branch of the force stage. */
    method ApplyGrappleForces(f: Frame, norm: Vec3 -> real)
      requires isGrappling && grapplePoint.Some?
      modifies this
      ensures State() == GrappleForces(old(State()), f, norm)
    {
      var toGrapple := Sub(grapplePoint.value, position);
      var distance := norm(toGrapple);
      var grappleDir := Normalize(toGrapple, norm);
      velocity := velocity.(y := velocity.y - Gravity * GrappleGravityFactor);
      PullRope(f, distance, grappleDir);
      ghost var pulled := velocity;
      if AnyMoveKey(f.keys) {
        velocity := velocity.(x := velocity.x + f.moveDir.x * AirControlStrength * GrappleControlFactor,
                              z := velocity.z + f.moveDir.z * AirControlStrength * GrappleControlFactor);
      }
      assert velocity == GrappleSteer(pulled, f);
      ghost var steered := velocity;
      var speed := norm(velocity);
      if speed > MaxAirSpeed {
        velocity := Scale(velocity, 1.0 - (speed - MaxAirSpeed) * SpeedLimitGain);
      }
      assert velocity == SpeedLimit(steered, norm);
    }

    /** The rope part of the grappling branch: reel in, or pull back a slack rope. */
    method PullRope(f: Frame, distance: real, grappleDir: Vec3)
      modifies this
      ensures State() == old(State()).(
        velocity := Add(old(velocity), RopePull(ReelCondition(old(State()), f), old(isReeling), distance, ropeLength, grappleDir)),
        isReeling := old(isReeling) || ReelCondition(old(State()), f))
    {
      var dir := grappleDir;
      if f.keys.space && f.now - grappleStartTime > ReelStartDelay {
        isReeling := true;
        var reelStrength := Min((distance - ReelDeadZone) * ReelGain, GrappleReelSpeed);
        dir := Scale(dir, reelStrength);   // multiplyScalar scales in place
        velocity := Add(velocity, dir);
        if distance > ropeLength {
          var tensionForce := Min((distance - ropeLength) * TautGain, TautCap);
          velocity := Add(velocity, Scale(dir, tensionForce));
        }
      } else if !isReeling {
        if distance > ropeLength {
          var tensionForce := Min((distance - ropeLength) * SlackGain, SlackCap);
          velocity := Add(velocity, Scale(dir, tensionForce));
        }
      }
    }

    /** `updatePlayer`: ground movement, grapple attach/release, then the physics. */
    method UpdatePlayer(f: Frame, norm: Vec3 -> real, boxes: array<Box>)
      requires Valid()
      modifies this
      ensures Valid()
      ensures State() == Tick(old(State()), f, norm, boxes[..])
    {
      UpdateControls(f, norm);
      UpdateGrapplePhysics(f, norm, boxes);
    }

    /** The part of `updatePlayer` before the physics: steering and the grapple key. */
    method UpdateControls(f: Frame, norm: Vec3 -> real)
      requires Valid()
      modifies this
      ensures Valid()
      ensures State() == Control(old(State()), f, norm)
    {
      if !isGrappling {
        if Steering(f.keys) {
          if isGrounded {
            velocity := velocity.(x := f.moveDir.x * MoveSpeed, z := f.moveDir.z * MoveSpeed);
          } else {
            velocity := velocity.(x := velocity.x + f.moveDir.x * MoveSpeed * AirMoveFactor,
                                  z := velocity.z + f.moveDir.z * MoveSpeed * AirMoveFactor);
          }
        } else if isGrounded {
          velocity := velocity.(x := velocity.x * GroundFriction, z := velocity.z * GroundFriction);
        }
      }

      if f.keys.space && !isGrappling && f.target.Some? {
        StartGrapple(f.target.value, f.now, norm);
      } else if !f.keys.space && isGrappling {
        isGrappling := false;
        isReeling := false;
        velocity := Scale(velocity, ReleaseBoost);
      }
    }

    /** The attach branch of `updatePlayer`. */
    method StartGrapple(target: Vec3, now: int, norm: Vec3 -> real)
      modifies this
      ensures State() == Attach(old(State()), target, now, norm)
    {
      var grappleDir := Normalize(Sub(target, position), norm);
      var boostDir := Normalize(Vec3(grappleDir.x * BoostHorizontal, grappleDir.y + TapUpwardBoost,
                                     grappleDir.z * BoostHorizontal), norm);
      var currentSpeed := norm(velocity);
      isGrappling := true;
      isReeling := false;
      grapplePoint := Some(target);
      ropeLength := norm(Sub(position, target));
      grappleStartTime := now;
      velocity := TapBoost(velocity, boostDir, currentSpeed);
    }
  }
}
