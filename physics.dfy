/** Per-particle state and the per-tick state machine of the particle system.
    Floats are modelled as `real`. The random draws and the trigonometric
    values an emission needs come in as a `Draw` record. */
module Physics {

  /** Fixed simulation step, in simulated seconds. */
  const TIME_DELTA: real := 0.025

  /** Horizontal extent of the modelled ground: past it a landing particle is re-emitted. */
  const EDGE: real := 10.0

  /** Height of the elevated platform near the emitter. */
  const PLATFORM: real := 5.0

  /** Fraction of the vertical speed a particle keeps when it bounces. */
  const RESTITUTION: real := 0.8

  /** One slot of the particle store: position, age, planar and vertical
      speed, planar direction, colour and the `down` flag. */
  datatype Particle = Particle(
    x: real, y: real, z: real,
    age: real,
    vPlanar: real, vVertical: real,
    dirX: real, dirZ: real,
    red: real, green: real, blue: real, alpha: real,
    down: bool)

  /** The values one emission draws: a height, the cosine and sine of the
      emission angle (drawn in [60, 70] degrees) and of the heading (drawn in
      [-15, 15] degrees), a speed jitter and a colour. */
  datatype Draw = Draw(
    height: real,
    cosElevation: real, sinElevation: real,
    cosHeading: real, sinHeading: real,
    jitter: real,
    red: real, green: real, blue: real, alpha: real)

  /** The ranges the draws come from. The trigonometric fields are bounded by
      enclosures of cos and sin over the drawn angle ranges. */
  predicate DrawInRange(d: Draw) {
    && 8.0 <= d.height <= 10.0
    && 0.34 <= d.cosElevation <= 0.5
    && 0.86 <= d.sinElevation <= 0.94
    && 0.96 <= d.cosHeading <= 1.0
    && -0.26 <= d.sinHeading <= 0.26
    && -1.0 <= d.jitter <= 1.0
    && 0.1 <= d.red <= 1.0
    && 0.1 <= d.green <= 1.0
    && 0.1 <= d.blue <= 1.0
    && 0.7 <= d.alpha <= 1.0
  }

  predicate DrawsInRange(ds: seq<Draw>) {
    forall k :: 0 <= k < |ds| ==> DrawInRange(ds[k])
  }

  /** What every emitted particle keeps for the rest of its life: a
      non-negative age, a positive planar speed, a planar direction pointing
      forward, and a colour in the emission ranges. */
  predicate WellFormed(p: Particle) {
    && p.age >= 0.0
    && p.vPlanar > 0.0
    && 0.96 <= p.dirX <= 1.0
    && -0.26 <= p.dirZ <= 0.26
    && 0.1 <= p.red <= 1.0
    && 0.1 <= p.green <= 1.0
    && 0.1 <= p.blue <= 1.0
    && 0.7 <= p.alpha <= 1.0
  }

  /** The emission speed: the mean speed plus the jitter, so within 1 of
      the mean. */
  function Speed(d: Draw, meanVelocity: real): (s: real)
    requires DrawInRange(d)
    ensures meanVelocity - 1.0 <= s <= meanVelocity + 1.0
  {
    meanVelocity + d.jitter
  }

  /** A freshly (re-)emitted particle, as `pointInt` writes it: at the
      emitter, age 0, descending, at a drawn height, with a drawn colour, and
      the emission speed split by the emission angle. */
  function Emit(d: Draw, meanVelocity: real): (r: Particle)
    requires DrawInRange(d)
    ensures r.x == 0.0 && r.z == 0.0 && r.age == 0.0 && r.down
    ensures 8.0 <= r.y <= 10.0
    ensures 0.1 <= r.red <= 1.0 && 0.1 <= r.green <= 1.0 && 0.1 <= r.blue <= 1.0
    ensures 0.7 <= r.alpha <= 1.0
    ensures r.dirX == d.cosHeading && r.dirZ == d.sinHeading
    ensures r.vPlanar == Speed(d, meanVelocity) * d.cosElevation
    ensures r.vVertical == Speed(d, meanVelocity) * d.sinElevation
  {
    Particle(
      0.0, d.height, 0.0,
      0.0,
      Speed(d, meanVelocity) * d.cosElevation, Speed(d, meanVelocity) * d.sinElevation,
      d.cosHeading, d.sinHeading,
      d.red, d.green, d.blue, d.alpha,
      true)
  }

  /** With a mean speed above 1, an emitted particle moves outward and
      downward at positive speeds and is well formed. */
  lemma EmitWellFormed(d: Draw, meanVelocity: real)
    requires DrawInRange(d) && meanVelocity > 1.0
    ensures var r := Emit(d, meanVelocity);
      WellFormed(r) && r.vPlanar > 0.0 && r.vVertical > 0.0
  {
  }

  /** Height reached from `y` after one step with upward speed `u` under
      constant downward acceleration `g`: the textbook displacement
      u*dt - g*dt*dt/2. */
  function Projectile(y: real, u: real, g: real): real {
    y + u * TIME_DELTA - g * TIME_DELTA * TIME_DELTA / 2.0
  }

  /** The vertical part of a particle's state. */
  datatype Vert = Vert(y: real, v: real, down: bool)

  /** The vertical step, keyed on `down`. While descending, `vVertical` is a
      downward speed; while ascending it is an upward speed. */
  function Vertical(p: Particle, gravity: real): (r: Vert)
    ensures p.down ==>
      r.down && r.y == Projectile(p.y, -p.vVertical, gravity) && r.v == p.vVertical + gravity * TIME_DELTA
    ensures !p.down && p.vVertical > 0.0 ==>
      !r.down && r.y == Projectile(p.y, p.vVertical, gravity) && r.v == p.vVertical - gravity * TIME_DELTA
    ensures !p.down && p.vVertical <= 0.0 ==>
      r == Vert(p.y, p.vVertical, true)
  {
    if p.down then
      Vert(p.y - (p.vVertical + 0.5 * gravity * TIME_DELTA) * TIME_DELTA,
           p.vVertical + gravity * TIME_DELTA, true)
    else if p.vVertical > 0.0 then
      Vert(p.y + p.vVertical * TIME_DELTA - 0.5 * gravity * TIME_DELTA * TIME_DELTA,
           p.vVertical - gravity * TIME_DELTA, false)
    else
      Vert(p.y, p.vVertical, true)
  }

  /** Planar distance travelled, from the age before the step. */
  function Distance(p: Particle): real {
    p.vPlanar * p.age
  }

  /** The two-tier ground test: the platform at 5.0 below distance 3, the
      ground at 0.0 beyond it. */
  predicate OnGround(y: real, distance: real) {
    (y <= PLATFORM && distance < 3.0) || (y <= 0.0 && distance > 3.0)
  }

  /** Floor height the ground test applies at a given planar distance. */
  function Floor(distance: real): real {
    if distance < 3.0 then PLATFORM else 0.0
  }

  /** The ground test is "at or below the floor that applies here", except at
      distance exactly 3, where no contact is ever detected. */
  lemma OnGroundIsFloor(y: real, distance: real)
    ensures OnGround(y, distance) <==> distance != 3.0 && y <= Floor(distance)
    ensures !OnGround(y, 3.0)
  {
  }

  /** A particle is re-emitted in this step exactly when its post-step height
      is on the ground and it has travelled beyond EDGE. */
  predicate Reemitted(p: Particle, gravity: real) {
    OnGround(Vertical(p, gravity).y, Distance(p)) && Distance(p) > EDGE
  }

  /** A particle bounces in this step exactly when it is on the ground
      within EDGE. */
  predicate Bounces(p: Particle, gravity: real) {
    OnGround(Vertical(p, gravity).y, Distance(p)) && Distance(p) <= EDGE
  }

  /** One slot's update in `updateParticleArray`. `d` is what `pointInt`
      would draw if the slot is re-emitted. */
  function Step(p: Particle, gravity: real, meanVelocity: real, d: Draw): (r: Particle)
    requires DrawInRange(d)
    ensures Reemitted(p, gravity) ==> r == Emit(d, meanVelocity) && r.age == 0.0
    ensures !Reemitted(p, gravity) ==>
      && r.age == p.age + TIME_DELTA
      && r.x == p.dirX * (p.vPlanar * p.age)
      && r.z == p.dirZ * (p.vPlanar * p.age)
      && r.vPlanar == p.vPlanar && r.dirX == p.dirX && r.dirZ == p.dirZ
      && r.red == p.red && r.green == p.green && r.blue == p.blue && r.alpha == p.alpha
    ensures Bounces(p, gravity) ==>
      !r.down && r.y == Vertical(p, gravity).y && r.vVertical == RESTITUTION * Vertical(p, gravity).v
    ensures !OnGround(Vertical(p, gravity).y, Distance(p)) ==>
      Vert(r.y, r.vVertical, r.down) == Vertical(p, gravity)
  {
    var distance := Distance(p);
    var vert := Vertical(p, gravity);
    if OnGround(vert.y, distance) && distance > EDGE then
      Emit(d, meanVelocity)
    else
      var v := if OnGround(vert.y, distance) then Vert(vert.y, vert.v * RESTITUTION, false) else vert;
      p.(x := p.dirX * distance, z := p.dirZ * distance,
         y := v.y, vVertical := v.v, down := v.down,
         age := p.age + TIME_DELTA)
  }

  /** The planar direction is a unit vector, as (cos, sin) of one angle is. */
  predicate UnitDirection(p: Particle) {
    p.dirX * p.dirX + p.dirZ * p.dirZ == 1.0
  }

  /** One tick keeps a particle well formed, re-emitted or not. */
  lemma StepWellFormed(p: Particle, gravity: real, meanVelocity: real, d: Draw)
    requires DrawInRange(d) && WellFormed(p) && meanVelocity > 1.0
    ensures WellFormed(Step(p, gravity, meanVelocity, d))
  {
    if Reemitted(p, gravity) {
      EmitWellFormed(d, meanVelocity);
    }
  }

  /** The heading draw is (cos, sin) of one angle. */
  predicate UnitHeading(d: Draw) {
    d.cosHeading * d.cosHeading + d.sinHeading * d.sinHeading == 1.0
  }

  /** An emission from a unit heading has a unit direction. */
  lemma EmitUnitDirection(d: Draw, meanVelocity: real)
    requires DrawInRange(d) && UnitHeading(d)
    ensures UnitDirection(Emit(d, meanVelocity))
  {
  }

  /** One tick keeps the direction a unit vector, re-emitted or not. */
  lemma StepUnitDirection(p: Particle, gravity: real, meanVelocity: real, d: Draw)
    requires DrawInRange(d) && UnitHeading(d) && UnitDirection(p)
    ensures UnitDirection(Step(p, gravity, meanVelocity, d))
  {
  }

  /** A particle with a unit direction that is not re-emitted sits at planar
      radius equal to the distance travelled before the step. */
  lemma PlacementRadius(p: Particle, gravity: real, meanVelocity: real, d: Draw)
    requires DrawInRange(d) && UnitDirection(p) && !Reemitted(p, gravity)
    ensures var r := Step(p, gravity, meanVelocity, d);
      r.x * r.x + r.z * r.z == Distance(p) * Distance(p)
  {
    var r := Step(p, gravity, meanVelocity, d);
    var D := Distance(p);
    assert r.x * r.x + r.z * r.z == (p.dirX * p.dirX + p.dirZ * p.dirZ) * (D * D);
  }

  /** A well-formed particle that bounces lands within EDGE of the emitter. */
  lemma BounceWithinEdge(p: Particle, gravity: real, meanVelocity: real, d: Draw)
    requires DrawInRange(d) && WellFormed(p) && UnitDirection(p) && Bounces(p, gravity)
    ensures var r := Step(p, gravity, meanVelocity, d);
      r.x * r.x + r.z * r.z <= EDGE * EDGE
  {
    PlacementRadius(p, gravity, meanVelocity, d);
    var D := Distance(p);
    assert 0.0 <= D <= EDGE;
    SquareMonotone(D, EDGE);
  }

  lemma SquareMonotone(a: real, b: real)
    requires 0.0 <= a <= b
    ensures a * a <= b * b
  {
    assert a * a <= a * b;
  }

  /** Re-emission needs ground contact: a particle beyond EDGE that is still
      above both floors is not re-emitted; it ages, keeps its vertical
      motion, and is placed outside EDGE. */
  lemma AirborneBeyondEdge(p: Particle, gravity: real, meanVelocity: real, d: Draw)
    requires DrawInRange(d) && Distance(p) > EDGE && Vertical(p, gravity).y > 0.0
    ensures var r := Step(p, gravity, meanVelocity, d);
      && !Reemitted(p, gravity)
      && r.age == p.age + TIME_DELTA
      && Vert(r.y, r.vVertical, r.down) == Vertical(p, gravity)
      && (UnitDirection(p) ==> r.x * r.x + r.z * r.z > EDGE * EDGE)
  {
    var D := Distance(p);
    if UnitDirection(p) {
      PlacementRadius(p, gravity, meanVelocity, d);
      assert D * D > EDGE * D > EDGE * EDGE;
    }
  }

  /** A particle run through consecutive ticks at fixed gravity and mean
      velocity; `ds[k]` is what tick k would draw on re-emission. */
  function Advance(p: Particle, gravity: real, meanVelocity: real, ds: seq<Draw>): Particle
    requires DrawsInRange(ds)
    decreases |ds|
  {
    if ds == [] then p
    else Advance(Step(p, gravity, meanVelocity, ds[0]), gravity, meanVelocity, ds[1..])
  }

  /** Every emitted particle stays well formed however many ticks it runs:
      its age never goes negative and its planar speed stays positive. */
  lemma {:induction false} AdvanceWellFormed(p: Particle, gravity: real, meanVelocity: real, ds: seq<Draw>)
    requires DrawsInRange(ds) && WellFormed(p) && meanVelocity > 1.0
    ensures WellFormed(Advance(p, gravity, meanVelocity, ds))
    decreases |ds|
  {
    if ds != [] {
      var q := Step(p, gravity, meanVelocity, ds[0]);
      StepWellFormed(p, gravity, meanVelocity, ds[0]);
      AdvanceWellFormed(q, gravity, meanVelocity, ds[1..]);
    }
  }

  /** A particle that is never re-emitted over the ticks ages by exactly
      TIME_DELTA per tick and keeps its planar speed and direction. */
  predicate NeverReemitted(p: Particle, gravity: real, meanVelocity: real, ds: seq<Draw>)
    requires DrawsInRange(ds)
    decreases |ds|
  {
    ds == [] ||
    (!Reemitted(p, gravity) && NeverReemitted(Step(p, gravity, meanVelocity, ds[0]), gravity, meanVelocity, ds[1..]))
  }

  lemma {:induction false} AdvanceAges(p: Particle, gravity: real, meanVelocity: real, ds: seq<Draw>)
    requires DrawsInRange(ds) && NeverReemitted(p, gravity, meanVelocity, ds)
    ensures var r := Advance(p, gravity, meanVelocity, ds);
      && r.age == p.age + (|ds| as real) * TIME_DELTA
      && r.vPlanar == p.vPlanar && r.dirX == p.dirX && r.dirZ == p.dirZ
    decreases |ds|
  {
    if ds != [] {
      var q := Step(p, gravity, meanVelocity, ds[0]);
      AdvanceAges(q, gravity, meanVelocity, ds[1..]);
    }
  }
}
