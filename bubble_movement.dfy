/**
 * The ball of the game (class BubbleMovement in
 * Assets/Scripts/BubbleMovement.cs): its shrinking base size, the squish it
 * shows on impact and its recovery, the gravity and floating gates, and the
 * collision responses dispatched on the other object's tag.
 *
 * Floats are `real`; the square root and the angle come from a `MathLib`
 * (see module Vectors). The rigid body's own integration is not modelled:
 * `AddForce(..., ForceMode.Acceleration)` is recorded as an acceleration
 * queued for the physics step, and direct writes to `linearVelocity` are
 * velocity updates.
 */
module BubbleRules {
  import opened Vectors

  /** The serialized tuning fields of the script. */
  datatype Tuning = Tuning(
    groundBounceForce: real,
    playerImpactForce: real,
    playerJumpMultiplier: real,
    maxBounceVelocity: real,
    horizontalBounceFactor: real,   // declared, never read by the script
    bounceDamping: real,
    upwardBias: real,
    gravity: real,
    airResistance: real,
    floatTime: real,
    squishAmount: real,
    squishRecoverySpeed: real,
    startSizeXYZ: real,
    sizeTimer: real,
    minSize: real)

  /** The field initialisers of the script. */
  const Defaults := Tuning(45.0, 25.0, 4.0, 40.0, 0.8, 0.98, 1.5, -15.0, 0.997, 0.5, 0.3, 8.0, 10.0, 40.0, 0.1)

  /** The material the renderer shows: the default one, or the colour of the last player to hit. */
  datatype Material = DefaultMaterial | Player1Material | Player2Material

  function Abs(x: real): (r: real)
    ensures 0.0 <= r && (r == x || r == -x)
  {
    if x < 0.0 then -x else x
  }

  function Uniform(s: real): Vec3 {
    Vec3(s, s, s)
  }

  // ---------------------------------------------------------------- size timer

  /**
   * Each component of the base scale once `elapsed` seconds have passed:
   * the start size scaled by Mathf.Lerp(1, minSize / startSize, elapsed / sizeTimer),
   * floored at minSize.
   */
  function SizeAt(t: Tuning, elapsed: real): (r: real)
    requires t.startSizeXYZ != 0.0 && t.sizeTimer != 0.0
    ensures t.minSize <= r
  {
    Max(t.startSizeXYZ * ShrinkMultiplier(t, elapsed), t.minSize)
  }

  /** The scale multiplier of DecreaseSize: Mathf.Lerp(1, minSize / startSize, elapsed / sizeTimer). */
  function ShrinkMultiplier(t: Tuning, elapsed: real): real
    requires t.startSizeXYZ != 0.0 && t.sizeTimer != 0.0
  {
    MathfLerp(1.0, t.minSize / t.startSizeXYZ, elapsed / t.sizeTimer)
  }

  /** From sizeTimer on, the base size is exactly minSize and stays there. */
  lemma SizeAtEnd(t: Tuning, elapsed: real)
    requires t.startSizeXYZ != 0.0 && 0.0 < t.sizeTimer <= elapsed
    ensures SizeAt(t, elapsed) == t.minSize
  {
    assert elapsed / t.sizeTimer >= 1.0;
    MathfLerpRange(1.0, t.minSize / t.startSizeXYZ, elapsed / t.sizeTimer);
    assert t.startSizeXYZ * (t.minSize / t.startSizeXYZ) == t.minSize;
  }

  /** The default tuning: a size-10 ball shrinks to 0.1 in 40 seconds. */
  lemma DefaultShrinkReachesFloor()
    ensures SizeAt(Defaults, 40.0) == 0.1
  {
    SizeAtEnd(Defaults, 40.0);
  }

  /** At the start of the round the base size is the start size (when that is above the floor). */
  lemma SizeAtStart(t: Tuning)
    requires 0.0 < t.sizeTimer && t.minSize <= t.startSizeXYZ && t.startSizeXYZ != 0.0
    ensures SizeAt(t, 0.0) == t.startSizeXYZ
  {
    MathfLerpRange(1.0, t.minSize / t.startSizeXYZ, 0.0 / t.sizeTimer);
  }

  /** With a positive start size above the floor, the base size never grows as time passes. */
  lemma SizeNonIncreasing(t: Tuning, e1: real, e2: real)
    requires 0.0 < t.sizeTimer && 0.0 < t.minSize <= t.startSizeXYZ
    requires e1 <= e2
    ensures SizeAt(t, e2) <= SizeAt(t, e1)
  {
    var m1, m2 := ShrinkMultiplier(t, e1), ShrinkMultiplier(t, e2);
    var s1, s2 := t.startSizeXYZ * m1, t.startSizeXYZ * m2;
    ShrinkMultiplierAntitone(t, e1, e2);
    MulMonotone(t.startSizeXYZ, m2, m1, s2, s1);
    assert SizeAt(t, e1) == Max(s1, t.minSize);
    assert SizeAt(t, e2) == Max(s2, t.minSize);
  }

  lemma ShrinkMultiplierAntitone(t: Tuning, e1: real, e2: real)
    requires 0.0 < t.sizeTimer && 0.0 < t.minSize <= t.startSizeXYZ
    requires e1 <= e2
    ensures ShrinkMultiplier(t, e2) <= ShrinkMultiplier(t, e1)
  {
    RatioAtMostOne(t.minSize, t.startSizeXYZ);
    DivMonotone(e1, e2, t.sizeTimer);
    MathfLerpAntitone(1.0, t.minSize / t.startSizeXYZ, e1 / t.sizeTimer, e2 / t.sizeTimer);
  }

  /** Mathf.Lerp toward a smaller end point decreases as its parameter grows. */
  lemma MathfLerpAntitone(a: real, b: real, t1: real, t2: real)
    requires b <= a && t1 <= t2
    ensures MathfLerp(a, b, t2) <= MathfLerp(a, b, t1)
  {
    var u1, u2 := Clamp01(t1), Clamp01(t2);
    assert u1 <= u2;
    var x1, x2 := (b - a) * u1, (b - a) * u2;
    MulAntitone(b - a, u1, u2, x1, x2);
    assert MathfLerp(a, b, t1) == a + x1;
    assert MathfLerp(a, b, t2) == a + x2;
  }

  lemma DivMonotone(a: real, b: real, d: real)
    requires a <= b && 0.0 < d
    ensures a / d <= b / d
  {
    var qa, qb := a / d, b / d;
    assert qa * d == a && qb * d == b;
    NonNegFactor(qb - qa, d, b - a);
  }

  lemma MulAntitone(k: real, u1: real, u2: real, x1: real, x2: real)
    requires k <= 0.0 && u1 <= u2 && x1 == k * u1 && x2 == k * u2
    ensures x2 <= x1
  {
    NonNegProduct(-k, u2 - u1);
    assert x1 - x2 == (-k) * (u2 - u1);
  }

  lemma MulMonotone(k: real, a: real, b: real, x: real, y: real)
    requires 0.0 <= k && a <= b && x == k * a && y == k * b
    ensures x <= y
  {
    NonNegProduct(k, b - a);
    assert y - x == k * (b - a);
  }

  // ---------------------------------------------------------------- squish and recovery

  /** The rendered scale right after an impact: flattened on y, widened on x and z. */
  function SquishScale(base: Vec3, squishAmount: real): Vec3 {
    Vec3(base.x * (1.0 + squishAmount * 0.5), base.y * (1.0 - squishAmount), base.z * (1.0 + squishAmount * 0.5))
  }

  /** With 0 < squishAmount < 1 and a positive base, the squish is lower than the base and wider on both other axes. */
  lemma SquishShape(base: Vec3, squishAmount: real)
    requires 0.0 < squishAmount < 1.0
    requires 0.0 < base.x && 0.0 < base.y && 0.0 < base.z
    ensures var s := SquishScale(base, squishAmount);
      0.0 < s.y < base.y && base.x < s.x && base.z < s.z
  {
    var s := SquishScale(base, squishAmount);
    assert s.y == base.y - base.y * squishAmount;
    assert s.x == base.x + base.x * squishAmount * 0.5;
    assert s.z == base.z + base.z * squishAmount * 0.5;
    assert 0.0 < base.y * squishAmount < base.y;
  }

  /** The rendered scale and the squish flag. */
  datatype Visual = Visual(localScale: Vec3, isSquished: bool)

  /**
   * One step of RecoverFromSquish: while squished, move the rendered scale
   * toward the current base by Vector3.Lerp, snapping to the base (and
   * ending the squish) once closer than 0.01; otherwise show the base.
   */
  function Recover(lib: MathLib, v: Visual, base: Vec3, dt: real, recoverySpeed: real): Visual
  {
    if v.isSquished then
      var s := Lerp(v.localScale, base, dt * recoverySpeed);
      if Distance(lib, s, base) < 0.01 then Visual(base, false) else Visual(s, true)
    else
      Visual(base, false)
  }

  /** Whatever the state, after a recovery step the ball is either still squished or shows exactly its base scale. */
  lemma RecoverSettles(lib: MathLib, v: Visual, base: Vec3, dt: real, recoverySpeed: real)
    ensures var r := Recover(lib, v, base, dt, recoverySpeed);
      (r.isSquished || r.localScale == base) &&
      (!v.isSquished ==> r == Visual(base, false)) &&
      (r.isSquished ==> v.isSquished)
  {
  }

  /** A step long enough to cover the whole gap (dt * speed >= 1) always ends the squish. */
  lemma RecoverCompletes(lib: MathLib, v: Visual, base: Vec3, dt: real, recoverySpeed: real)
    requires Lawful(lib) && 1.0 <= dt * recoverySpeed
    ensures Recover(lib, v, base, dt, recoverySpeed) == Visual(base, false)
  {
    LerpRange(v.localScale, base, dt * recoverySpeed);
    DistanceProperties(lib, base, base);
  }

  /** A recovery step never overshoots: on each axis the new scale lies between the old one and the base. */
  lemma RecoverNoOvershoot(lib: MathLib, v: Visual, base: Vec3, dt: real, recoverySpeed: real)
    ensures var r := Recover(lib, v, base, dt, recoverySpeed).localScale;
      v.isSquished ==>
        Between(r.x, v.localScale.x, base.x) && Between(r.y, v.localScale.y, base.y) && Between(r.z, v.localScale.z, base.z)
  {
    LerpRange(v.localScale, base, dt * recoverySpeed);
  }

  // ---------------------------------------------------------------- gravity and floating

  /** ApplyGravity's gate: the float time since the last bounce is over and the ground ray misses. */
  predicate GravityApplies(t: Tuning, now: real, lastBounceTime: real, touchingGround: bool) {
    now - lastBounceTime > t.floatTime && !touchingGround
  }

  /** The acceleration queued by ApplyGravity. */
  function GravityStep(t: Tuning, acc: Vec3, now: real, lastBounceTime: real, touchingGround: bool): Vec3 {
    if GravityApplies(t, now, lastBounceTime, touchingGround) then Add(acc, Scale(Up, t.gravity)) else acc
  }

  /** The acceleration queued by ApplyFloating: a push of 2 upward only while moving down. */
  function FloatingStep(acc: Vec3, velocity: Vec3): Vec3 {
    if velocity.y < 0.0 then Add(acc, Scale(Up, 2.0)) else acc
  }

  /**
   * Gravity is queued exactly when the float time since the last bounce is
   * over and the ball is off the ground, and then only on the vertical axis;
   * the floating push is queued exactly when the ball moves down.
   */
  lemma ForceGates(t: Tuning, acc: Vec3, velocity: Vec3, now: real, lastBounceTime: real, touchingGround: bool)
    ensures var g := GravityStep(t, acc, now, lastBounceTime, touchingGround);
      g.x == acc.x && g.z == acc.z &&
      (t.gravity != 0.0 ==> (g != acc <==> now - lastBounceTime > t.floatTime && !touchingGround)) &&
      (g != acc ==> g.y == acc.y + t.gravity)
    ensures var f := FloatingStep(acc, velocity);
      f.x == acc.x && f.z == acc.z && (f != acc <==> velocity.y < 0.0) && (f != acc ==> f.y == acc.y + 2.0)
  {
  }

  // ---------------------------------------------------------------- bounces

  /** The speed every bounce gives: sqrt(2 * force * (speed + 5)). */
  function LaunchSpeed(lib: MathLib, force: real, speed: real): real {
    Sqrt(lib, 2.0 * force * (speed + 5.0))
  }

  /** With a non-negative force and speed, the launch speed is the non-negative root of 2 * force * (speed + 5). */
  lemma LaunchSpeedSquare(lib: MathLib, force: real, speed: real)
    requires Lawful(lib)
    ensures 0.0 <= force && 0.0 <= speed ==>
      0.0 <= LaunchSpeed(lib, force, speed) && LaunchSpeed(lib, force, speed) * LaunchSpeed(lib, force, speed) == 2.0 * force * (speed + 5.0)
  {
    if 0.0 <= force && 0.0 <= speed {
      NonNegProduct(2.0 * force, speed + 5.0);
    }
  }

  /**
   * HandlePlayerCollision's force: the base impact force, times the jump
   * multiplier when the player moves up, times a further 1.5 when, in
   * addition, the hit comes from less than 45 degrees off vertical.
   */
  function ForceFor(t: Tuning, playerVelocityY: real, verticalAngle: real): real {
    var bounceForce := t.playerImpactForce;
    if playerVelocityY > 0.0 then
      var jumped := bounceForce * t.playerJumpMultiplier;
      if verticalAngle < 45.0 then jumped * 1.5 else jumped
    else
      bounceForce
  }

  /**
   * The multipliers apply only to upward hits, the 1.5 bonus only to hits
   * from below; with positive forces a hit from below gets the larger force
   * and, for the same impact speed, a strictly higher vertical floor.
   */
  lemma HitFromBelowBonus(lib: MathLib, t: Tuning, vy: real, below: real, side: real, impactSpeed: real)
    requires Lawful(lib)
    requires 0.0 < t.playerImpactForce && 0.0 < t.playerJumpMultiplier && 0.0 <= impactSpeed
    requires below < 45.0 <= side
    ensures vy <= 0.0 ==> ForceFor(t, vy, below) == t.playerImpactForce == ForceFor(t, vy, side)
    ensures 0.0 < vy ==> ForceFor(t, vy, side) == t.playerImpactForce * t.playerJumpMultiplier
    ensures 0.0 < vy ==> ForceFor(t, vy, below) == 1.5 * ForceFor(t, vy, side)
    ensures 0.0 < vy ==>
      LaunchSpeed(lib, ForceFor(t, vy, side), impactSpeed) < LaunchSpeed(lib, ForceFor(t, vy, below), impactSpeed)
  {
    if 0.0 < vy {
      PositiveProduct(t.playerImpactForce, t.playerJumpMultiplier);
      LaunchSpeedIncreasing(lib, ForceFor(t, vy, side), ForceFor(t, vy, below), impactSpeed);
    }
  }

  /** A larger positive force gives a strictly larger launch speed. */
  lemma LaunchSpeedIncreasing(lib: MathLib, f1: real, f2: real, speed: real)
    requires Lawful(lib) && 0.0 < f1 < f2 && 0.0 <= speed
    ensures LaunchSpeed(lib, f1, speed) < LaunchSpeed(lib, f2, speed)
  {
    var x1, x2 := 2.0 * f1 * (speed + 5.0), 2.0 * f2 * (speed + 5.0);
    PositiveProduct(2.0 * f1, speed + 5.0);
    PositiveProduct(2.0 * (f2 - f1), speed + 5.0);
    assert x2 - x1 == 2.0 * (f2 - f1) * (speed + 5.0);
    SqrtStrictlyIncreasing(lib, x1, x2);
  }

  lemma PositiveProduct(p: real, q: real)
    requires 0.0 < p && 0.0 < q
    ensures 0.0 < p * q
  {
  }

  /** The force of a player hit: ForceFor at the angle between up and the direction from the contact to the ball. */
  function PlayerForce(lib: MathLib, t: Tuning, position: Vec3, c: Collision): real {
    ForceFor(t, c.relativeVelocity.y, Angle(lib, Up, HitDirection(lib, position, c)))
  }

  function HitDirection(lib: MathLib, position: Vec3, c: Collision): Vec3 {
    Normalized(lib, Sub(position, c.contactPoint))
  }

  /** The lowest vertical speed a player hit leaves: sqrt(2 * force * (impact speed + 5)). */
  function VerticalFloor(lib: MathLib, t: Tuning, position: Vec3, c: Collision): real {
    LaunchSpeed(lib, PlayerForce(lib, t, position, c), Magnitude(lib, c.relativeVelocity))
  }

  /** The velocity HandlePlayerCollision computes before clamping, with its vertical floor applied. */
  function PlayerBounceUnclamped(lib: MathLib, t: Tuning, velocity: Vec3, position: Vec3, c: Collision): (r: Vec3)
    ensures VerticalFloor(lib, t, position, c) <= r.y
  {
    var bounceForce := PlayerForce(lib, t, position, c);
    var bounceDirection := Normalized(lib, Add(HitDirection(lib, position, c), Scale(Up, t.upwardBias)));
    var impactVelocity := Abs(velocity.y);
    var currentHorizontalVelocity := Vec3(velocity.x, 0.0, velocity.z);
    var bounceVelocity := Add(Scale(currentHorizontalVelocity, t.bounceDamping),
                              Scale(bounceDirection, LaunchSpeed(lib, bounceForce, impactVelocity)));
    bounceVelocity.(y := Max(bounceVelocity.y, VerticalFloor(lib, t, position, c)))
  }

  /** The velocity after a player hit: the floored bounce, clamped to maxBounceVelocity. */
  function PlayerBounce(lib: MathLib, t: Tuning, velocity: Vec3, position: Vec3, c: Collision): Vec3
    requires Lawful(lib)
  {
    var unclamped := PlayerBounceUnclamped(lib, t, velocity, position, c);
    ClampMagnitude(lib, unclamped, t.maxBounceVelocity)
  }

  /**
   * A player hit never leaves the ball faster than maxBounceVelocity, and a
   * bounce already within that bound is not altered by the clamp.
   */
  lemma PlayerBounceBounded(lib: MathLib, t: Tuning, velocity: Vec3, position: Vec3, c: Collision)
    requires Lawful(lib)
    ensures var m := t.maxBounceVelocity;
      SqrMagnitude(PlayerBounce(lib, t, velocity, position, c)) <= m * m
    ensures var u := PlayerBounceUnclamped(lib, t, velocity, position, c);
      SqrMagnitude(u) <= t.maxBounceVelocity * t.maxBounceVelocity ==> PlayerBounce(lib, t, velocity, position, c) == u
  {
    ClampMagnitudeProperties(lib, PlayerBounceUnclamped(lib, t, velocity, position, c), t.maxBounceVelocity);
  }

  /**
   * With non-negative forces and bound, a player hit never sends the ball
   * downward: before clamping the vertical speed is at least the floor,
   * which is non-negative, and clamping only shortens the vector.
   */
  lemma PlayerBounceRises(lib: MathLib, t: Tuning, velocity: Vec3, position: Vec3, c: Collision)
    requires Lawful(lib)
    requires 0.0 <= t.playerImpactForce && 0.0 <= t.playerJumpMultiplier && 0.0 <= t.maxBounceVelocity
    ensures 0.0 <= VerticalFloor(lib, t, position, c) <= PlayerBounceUnclamped(lib, t, velocity, position, c).y
    ensures 0.0 <= PlayerBounce(lib, t, velocity, position, c).y
  {
    var u := PlayerBounceUnclamped(lib, t, velocity, position, c);
    var impactSpeed := Magnitude(lib, c.relativeVelocity);
    MagnitudeNonNegative(lib, c.relativeVelocity);
    var force := PlayerForce(lib, t, position, c);
    NonNegProduct(t.playerImpactForce, t.playerJumpMultiplier);
    assert 0.0 <= force;
    LaunchSpeedSquare(lib, force, impactSpeed);
    var r := PlayerBounce(lib, t, velocity, position, c);
    ClampMagnitudeProperties(lib, u, t.maxBounceVelocity);
    var k :| 0.0 <= k <= 1.0 && r == Scale(u, k);
    NonNegProduct(u.y, k);
  }

  /**
   * HandleGroundBounce: the horizontal velocity damped by bounceDamping and
   * a fresh vertical speed of sqrt(2 * groundBounceForce * (|vy| + 5)).
   */
  function GroundBounce(lib: MathLib, t: Tuning, velocity: Vec3): Vec3 {
    var impactVelocity := Abs(velocity.y);
    var currentHorizontalVelocity := Vec3(velocity.x, 0.0, velocity.z);
    Add(Scale(currentHorizontalVelocity, t.bounceDamping),
        Scale(Up, LaunchSpeed(lib, t.groundBounceForce, impactVelocity)))
  }

  /**
   * A ground bounce damps both horizontal components and replaces the
   * vertical one by the launch speed for the landing speed, whichever way
   * the ball was moving: with a non-negative ground force it always goes up.
   */
  lemma GroundBounceShape(lib: MathLib, t: Tuning, velocity: Vec3)
    requires Lawful(lib)
    ensures var r := GroundBounce(lib, t, velocity);
      r.x == velocity.x * t.bounceDamping && r.z == velocity.z * t.bounceDamping &&
      r.y == LaunchSpeed(lib, t.groundBounceForce, Abs(velocity.y)) &&
      GroundBounce(lib, t, velocity.(y := -velocity.y)) == r
    ensures 0.0 <= t.groundBounceForce ==> 0.0 <= GroundBounce(lib, t, velocity).y
  {
    LaunchSpeedSquare(lib, t.groundBounceForce, Abs(velocity.y));
  }

  /** With the default ground force 45, falling at 3 bounces up at sqrt(720). */
  lemma GroundBounceExample(lib: MathLib, velocity: Vec3)
    requires Lawful(lib) && velocity.y == -3.0
    ensures var y := GroundBounce(lib, Defaults, velocity).y;
      0.0 <= y && y * y == 720.0
  {
    LaunchSpeedSquare(lib, 45.0, 3.0);
  }

  /**
   * Unlike a player hit, a ground bounce is not clamped: whenever
   * 2 * groundBounceForce * (|vy| + 5) exceeds the square of
   * maxBounceVelocity, the ball leaves the ground faster than that bound.
   */
  lemma GroundBounceNotClamped(lib: MathLib, t: Tuning, velocity: Vec3)
    requires Lawful(lib) && 0.0 <= t.groundBounceForce
    requires t.maxBounceVelocity * t.maxBounceVelocity < 2.0 * t.groundBounceForce * (Abs(velocity.y) + 5.0)
    ensures t.maxBounceVelocity * t.maxBounceVelocity < SqrMagnitude(GroundBounce(lib, t, velocity))
  {
    var r := GroundBounce(lib, t, velocity);
    LaunchSpeedSquare(lib, t.groundBounceForce, Abs(velocity.y));
    assert r.y == LaunchSpeed(lib, t.groundBounceForce, Abs(velocity.y));
    SqrMagnitudeBounds(r);
  }

  /** With the default tuning, landing at 20 leaves faster than maxBounceVelocity (40). */
  lemma DefaultGroundBounceExceedsBound(lib: MathLib, velocity: Vec3)
    requires Lawful(lib) && velocity.y == -20.0
    ensures Defaults.maxBounceVelocity * Defaults.maxBounceVelocity < SqrMagnitude(GroundBounce(lib, Defaults, velocity))
  {
    GroundBounceNotClamped(lib, Defaults, velocity);
  }

  // ---------------------------------------------------------------- collision dispatch

  /** The parts of Collision the script reads: the other object's tag, the relative velocity, the first contact point. */
  datatype Collision = Collision(tag: string, relativeVelocity: Vec3, contactPoint: Vec3)

  /** What OnCollisionEnter changes. */
  datatype Body = Body(velocity: Vec3, lastBounceTime: real, localScale: Vec3, isSquished: bool, material: Material)

  /**
   * OnCollisionEnter: "Player" and "Player2" get the player response and
   * their colour, "Ground" the ground response, anything else no bounce;
   * every contact ends with the squish of the current base scale.
   */
  function OnCollisionEnter(lib: MathLib, t: Tuning, base: Vec3, position: Vec3, b: Body, c: Collision, now: real): Body
    requires Lawful(lib)
  {
    var hit :=
      if c.tag == "Player" then
        b.(velocity := PlayerBounce(lib, t, b.velocity, position, c),
           lastBounceTime := now, material := Player1Material)
      else if c.tag == "Player2" then
        b.(velocity := PlayerBounce(lib, t, b.velocity, position, c),
           lastBounceTime := now, material := Player2Material)
      else if c.tag == "Ground" then
        b.(velocity := GroundBounce(lib, t, b.velocity), lastBounceTime := now)
      else
        b;
    hit.(localScale := SquishScale(base, t.squishAmount), isSquished := true)
  }

  /**
   * Every contact leaves the ball squished; a player contact records the
   * time, takes that player's colour and leaves at most maxBounceVelocity;
   * a ground contact records the time and keeps the colour; any other tag
   * keeps velocity, bounce time and colour.
   */
  lemma CollisionDispatch(lib: MathLib, t: Tuning, base: Vec3, position: Vec3, b: Body, c: Collision, now: real)
    requires Lawful(lib)
    ensures var r := OnCollisionEnter(lib, t, base, position, b, c, now);
      r.isSquished && r.localScale == SquishScale(base, t.squishAmount) &&
      (c.tag == "Player" || c.tag == "Player2" ==>
         r.lastBounceTime == now &&
         SqrMagnitude(r.velocity) <= t.maxBounceVelocity * t.maxBounceVelocity &&
         r.velocity == PlayerBounce(lib, t, b.velocity, position, c) &&
         r.material == (if c.tag == "Player" then Player1Material else Player2Material)) &&
      (c.tag == "Ground" ==>
         r.lastBounceTime == now && r.velocity == GroundBounce(lib, t, b.velocity) && r.material == b.material) &&
      (c.tag != "Player" && c.tag != "Player2" && c.tag != "Ground" ==>
         r.velocity == b.velocity && r.lastBounceTime == b.lastBounceTime && r.material == b.material)
  {
    if c.tag == "Player" || c.tag == "Player2" {
      PlayerBounceBounded(lib, t, b.velocity, position, c);
    }
  }
}

/** The component itself, whose methods are specified by the functions of BubbleRules. */
module BubbleComponent {
  import opened Vectors
  import opened BubbleRules

  class BubbleMovement {
    const tuning: Tuning
    var currentBaseScale: Vec3
    var elapsedTime: real
    var originalScale: Vec3
    var isSquished: bool
    var lastBounceTime: real
    var material: Material
    /** Rigidbody.linearVelocity. */
    var velocity: Vec3
    /** The accelerations queued with AddForce(..., ForceMode.Acceleration) for the current physics step. */
    var queuedAcceleration: Vec3
    /** Transform.localScale, the rendered scale. */
    var localScale: Vec3
    /** Transform.position, moved by the physics engine only. */
    var position: Vec3

    /** The base scale is uniform, the size timer has not run backwards, and its divisions are defined. */
    ghost predicate Valid()
      reads this
    {
      currentBaseScale == Uniform(currentBaseScale.x) && 0.0 <= elapsedTime && tuning.startSizeXYZ != 0.0
    }

    ghost function Body(): BubbleRules.Body
      reads this
    {
      BubbleRules.Body(velocity, lastBounceTime, localScale, isSquished, material)
    }

    /** The field initialisers and Start: full size, default material, at rest. */
    constructor (tuning: Tuning, position: Vec3)
      requires tuning.startSizeXYZ != 0.0
      ensures Valid() && this.tuning == tuning && this.position == position
      ensures currentBaseScale == Uniform(tuning.startSizeXYZ) && localScale == currentBaseScale
      ensures originalScale == currentBaseScale && elapsedTime == 0.0
      ensures !isSquished && material == DefaultMaterial
      ensures velocity == Zero && queuedAcceleration == Zero && lastBounceTime == 0.0
    {
      this.tuning := tuning;
      this.position := position;
      velocity, queuedAcceleration := Zero, Zero;
      elapsedTime, isSquished, lastBounceTime := 0.0, false, 0.0;
      originalScale := Uniform(tuning.startSizeXYZ);
      localScale := originalScale;
      currentBaseScale := originalScale;
      material := DefaultMaterial;
    }

    /** One physics step, in the script's order. */
    method FixedUpdate(lib: MathLib, dt: real, now: real, touchingGround: bool)
      requires Valid() && 0.0 <= dt
      modifies this`queuedAcceleration, this`velocity, this`elapsedTime, this`currentBaseScale
      modifies this`localScale, this`isSquished
      ensures Valid()
      ensures velocity == Scale(old(velocity), tuning.airResistance)
      ensures queuedAcceleration ==
        FloatingStep(GravityStep(tuning, old(queuedAcceleration), now, lastBounceTime, touchingGround), velocity)
      ensures old(elapsedTime) < tuning.sizeTimer ==>
        elapsedTime == old(elapsedTime) + dt && currentBaseScale == Uniform(SizeAt(tuning, elapsedTime))
      ensures tuning.sizeTimer <= old(elapsedTime) ==>
        elapsedTime == old(elapsedTime) && currentBaseScale == old(currentBaseScale)
      ensures Visual(localScale, isSquished) ==
        Recover(lib, Visual(old(localScale), old(isSquished)), currentBaseScale, dt, tuning.squishRecoverySpeed)
    {
      ApplyGravity(now, touchingGround);
      ApplyAirResistance();
      ApplyFloating();
      DecreaseSize(dt);
      RecoverFromSquish(lib, dt);
    }

    /** Shrinks the base scale while the size timer runs; stops for good once it has run out. */
    method DecreaseSize(dt: real)
      requires Valid() && 0.0 <= dt
      modifies this`elapsedTime, this`currentBaseScale
      ensures Valid()
      ensures old(elapsedTime) < tuning.sizeTimer ==>
        elapsedTime == old(elapsedTime) + dt && currentBaseScale == Uniform(SizeAt(tuning, elapsedTime)) &&
        tuning.minSize <= currentBaseScale.x
      ensures tuning.sizeTimer <= old(elapsedTime) ==>
        elapsedTime == old(elapsedTime) && currentBaseScale == old(currentBaseScale)
    {
      if elapsedTime < tuning.sizeTimer {
        elapsedTime := elapsedTime + dt;
        var scaleMultiplier := MathfLerp(1.0, tuning.minSize / tuning.startSizeXYZ, elapsedTime / tuning.sizeTimer);
        var newScale := Scale(Uniform(tuning.startSizeXYZ), scaleMultiplier);
        newScale := newScale.(x := Max(newScale.x, tuning.minSize));
        newScale := newScale.(y := Max(newScale.y, tuning.minSize));
        newScale := newScale.(z := Max(newScale.z, tuning.minSize));
        currentBaseScale := newScale;
      }
    }

    /** Queues gravity once the float time after the last bounce is over and the ground ray misses. */
    method ApplyGravity(now: real, touchingGround: bool)
      modifies this`queuedAcceleration
      ensures queuedAcceleration == GravityStep(tuning, old(queuedAcceleration), now, lastBounceTime, touchingGround)
    {
      if now - lastBounceTime > tuning.floatTime && !touchingGround {
        queuedAcceleration := Add(queuedAcceleration, Scale(Up, tuning.gravity));
      }
    }

    method ApplyAirResistance()
      modifies this`velocity
      ensures velocity == Scale(old(velocity), tuning.airResistance)
    {
      velocity := Scale(velocity, tuning.airResistance);
    }

    /** Queues a small upward push while the ball moves down. */
    method ApplyFloating()
      modifies this`queuedAcceleration
      ensures queuedAcceleration == FloatingStep(old(queuedAcceleration), velocity)
    {
      if velocity.y < 0.0 {
        queuedAcceleration := Add(queuedAcceleration, Scale(Up, 2.0));
      }
    }

    method HandlePlayerCollision(lib: MathLib, collision: Collision, now: real)
      requires Lawful(lib)
      modifies this`velocity, this`lastBounceTime
      ensures velocity == PlayerBounce(lib, tuning, old(velocity), position, collision)
      ensures lastBounceTime == now
    {
      var playerVelocity := collision.relativeVelocity;
      var impactSpeed := Magnitude(lib, collision.relativeVelocity);
      var hitDirection := Normalized(lib, Sub(position, collision.contactPoint));
      assert hitDirection == HitDirection(lib, position, collision);
      var bounceForce := tuning.playerImpactForce;
      if playerVelocity.y > 0.0 {
        bounceForce := bounceForce * tuning.playerJumpMultiplier;
        var verticalAngle := Angle(lib, Up, hitDirection);
        if verticalAngle < 45.0 {
          bounceForce := bounceForce * 1.5;
        }
        assert bounceForce == ForceFor(tuning, playerVelocity.y, verticalAngle);
      }
      var bounceDirection := Normalized(lib, Add(hitDirection, Scale(Up, tuning.upwardBias)));
      var impactVelocity := Abs(velocity.y);
      var currentHorizontalVelocity := Vec3(velocity.x, 0.0, velocity.z);
      var bounceVelocity := Add(Scale(currentHorizontalVelocity, tuning.bounceDamping),
                                Scale(bounceDirection, LaunchSpeed(lib, bounceForce, impactVelocity)));
      var minY := LaunchSpeed(lib, bounceForce, impactSpeed);
      assert bounceForce == ForceFor(tuning, playerVelocity.y, Angle(lib, Up, hitDirection));
      bounceVelocity := bounceVelocity.(y := Max(bounceVelocity.y, minY));
      assert bounceVelocity == PlayerBounceUnclamped(lib, tuning, old(velocity), position, collision);
      assert ClampMagnitude(lib, bounceVelocity, tuning.maxBounceVelocity) == PlayerBounce(lib, tuning, old(velocity), position, collision);
      velocity := ClampMagnitude(lib, bounceVelocity, tuning.maxBounceVelocity);
      lastBounceTime := now;
    }

    method HandleGroundBounce(lib: MathLib, now: real)
      requires Lawful(lib)
      modifies this`velocity, this`lastBounceTime
      ensures velocity == GroundBounce(lib, tuning, old(velocity))
      ensures lastBounceTime == now
    {
      var impactVelocity := Abs(velocity.y);
      var currentHorizontalVelocity := Vec3(velocity.x, 0.0, velocity.z);
      var bounceVelocity := Add(Scale(currentHorizontalVelocity, tuning.bounceDamping),
                                Scale(Up, LaunchSpeed(lib, tuning.groundBounceForce, impactVelocity)));
      velocity := bounceVelocity;
      lastBounceTime := now;
    }

    method OnCollisionEnter(lib: MathLib, collision: Collision, now: real)
      requires Lawful(lib)
      modifies this`velocity, this`lastBounceTime, this`material, this`localScale, this`isSquished
      ensures Body() == BubbleRules.OnCollisionEnter(lib, tuning, currentBaseScale, position, old(Body()), collision, now)
    {
      if collision.tag == "Player" {
        HandlePlayerCollision(lib, collision, now);
        material := Player1Material;
      } else if collision.tag == "Player2" {
        HandlePlayerCollision(lib, collision, now);
        if collision.tag == "Player2" {
          material := Player2Material;
        }
      } else if collision.tag == "Ground" {
        HandleGroundBounce(lib, now);
      }
      ApplySquishEffect();
    }

    method ApplySquishEffect()
      modifies this`localScale, this`isSquished
      ensures localScale == SquishScale(currentBaseScale, tuning.squishAmount) && isSquished
    {
      var squishScale := currentBaseScale;
      squishScale := squishScale.(y := squishScale.y * (1.0 - tuning.squishAmount));
      squishScale := squishScale.(x := squishScale.x * (1.0 + tuning.squishAmount * 0.5));
      squishScale := squishScale.(z := squishScale.z * (1.0 + tuning.squishAmount * 0.5));
      localScale := squishScale;
      isSquished := true;
    }

    method RecoverFromSquish(lib: MathLib, dt: real)
      modifies this`localScale, this`isSquished
      ensures Visual(localScale, isSquished) ==
        Recover(lib, Visual(old(localScale), old(isSquished)), currentBaseScale, dt, tuning.squishRecoverySpeed)
    {
      var base := currentBaseScale;
      if isSquished {
        var k := dt * tuning.squishRecoverySpeed;
        var s := Lerp(localScale, base, k);
        assert Recover(lib, Visual(localScale, true), base, dt, tuning.squishRecoverySpeed) ==
          if Distance(lib, s, base) < 0.01 then Visual(base, false) else Visual(s, true);
        if Distance(lib, s, base) < 0.01 {
          localScale, isSquished := base, false;
        } else {
          localScale := s;
        }
      } else {
        localScale := base;
      }
    }
  }
}
