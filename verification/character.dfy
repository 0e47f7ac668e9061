/** The custom jump/fall/glide controller of the character: a two-state machine
    (on ground or airborne) over an immutable state record.

    Engine services become plain values: the downward line trace is the
    `probeHit` argument of `Tick`, the vertical `LaunchCharacter` request is the
    `launch` a frame emits, and the movement component's `MaxWalkSpeed` is the
    `maxWalkSpeed` field of the record. */
module LimitBreakCharacter {
  import opened Tunables

  datatype Option<T> = None | Some(value: T)

  /** The movement state of one character. */
  datatype Character = Character(
    tunables: Tunables,
    initialUpwardVelocity: real,  // derived when play begins, never written again
    gravity: real,                // derived when play begins, never written again
    isOnGround: bool,
    jumpHeld: bool,
    verticalSpeed: real,
    maxWalkSpeed: real            // the horizontal speed cap last handed to the engine
  )

  /** What one frame produces: the next state, the vertical launch handed to the
      engine (if any), and whether the landing transition fired. */
  datatype Step = Step(next: Character, launch: Option<real>, landed: bool)

  /** The state invariant: standing on the ground means not moving vertically,
      not holding a jump, and running under the walk speed cap. */
  predicate GroundInvariant(c: Character) {
    c.isOnGround ==>
      && c.verticalSpeed == 0.0 && !c.jumpHeld
      && c.maxWalkSpeed == c.tunables.lateralWalkSpeed
  }

  /** The derived quantities are those computed from the tunables when play
      began. */
  predicate Started(c: Character) {
    && c.tunables.lateralDistance != 0.0
    && c.initialUpwardVelocity == InitialUpwardVelocity(c.tunables)
    && c.gravity == Gravity(c.tunables)
  }

  /** `s` has the same tunables and derived quantities as `c`. */
  predicate SameSetup(c: Character, s: Character) {
    s.tunables == c.tunables
    && s.initialUpwardVelocity == c.initialUpwardVelocity
    && s.gravity == c.gravity
  }

  /** Play begins: derive launch velocity and gravity, hand the walk speed to the
      engine, and start from the declared field defaults (airborne, not held, at
      rest). The source divides by the lateral distance without a check, so a
      zero distance is excluded here. */
  function BeginPlay(t: Tunables): (c: Character)
    requires t.lateralDistance != 0.0
    ensures Started(c) && c.tunables == t
    ensures c.maxWalkSpeed == t.lateralWalkSpeed
    ensures !c.isOnGround && !c.jumpHeld && c.verticalSpeed == 0.0
    ensures GroundInvariant(c)
    ensures ValidArc(t) ==> c.initialUpwardVelocity > 0.0 && c.gravity < 0.0
  {
    var c := Character(t, InitialUpwardVelocity(t), Gravity(t), false, false, 0.0,
                       t.lateralWalkSpeed);
    if ValidArc(t) then DerivedSigns(t); c else c
  }

  /** The ground check: a rising character is never on the ground, whatever the
      probe reports; otherwise the probe decides. */
  function CheckGround(c: Character, probeHit: bool): (onGround: bool)
    ensures onGround ==> c.verticalSpeed <= 0.0 && probeHit
    ensures c.verticalSpeed <= 0.0 ==> onGround == probeHit
  {
    if c.verticalSpeed > 0.0 then false else probeHit
  }

  /** The vertical speed after one airborne frame of length `deltaTime`,
      selected by rising or not, then by jump held or not. */
  function Integrate(c: Character, deltaTime: real): real {
    if c.verticalSpeed > 0.0 then
      if c.jumpHeld then
        c.verticalSpeed + c.gravity * deltaTime
      else
        c.verticalSpeed + c.gravity * c.tunables.fallModifier * deltaTime
    else
      if c.jumpHeld then
        c.verticalSpeed + c.gravity * c.tunables.gliderMultiplier * deltaTime
      else
        c.verticalSpeed + c.gravity * c.tunables.fallModifier * deltaTime
  }

  /** The landing transition: back to the walk speed cap, jump released, at
      rest. */
  function Land(c: Character): (r: Character)
    ensures r.maxWalkSpeed == c.tunables.lateralWalkSpeed
    ensures !r.jumpHeld && r.verticalSpeed == 0.0
    ensures r.isOnGround == c.isOnGround && SameSetup(c, r)
  {
    c.(maxWalkSpeed := c.tunables.lateralWalkSpeed, jumpHeld := false, verticalSpeed := 0.0)
  }

  /** One frame: probe for ground; while airborne integrate the vertical speed
      and emit a launch with the new speed; fire the landing transition on the
      airborne-to-ground edge. A frame that starts and ends on the ground
      changes nothing. */
  function Tick(c: Character, deltaTime: real, probeHit: bool): (r: Step)
    ensures r.next.isOnGround == CheckGround(c, probeHit)
    ensures SameSetup(c, r.next)
    ensures r.landed <==> !c.isOnGround && r.next.isOnGround
    ensures r.launch.Some? <==> !r.next.isOnGround
    ensures !r.next.isOnGround ==>
              && r.launch == Some(r.next.verticalSpeed)
              && r.next == c.(isOnGround := false, verticalSpeed := r.next.verticalSpeed)
    ensures r.landed ==> r.next == Land(c.(isOnGround := true))
    ensures c.isOnGround && r.next.isOnGround ==> r.next == c
  {
    var wasOnGround := c.isOnGround;
    var onGround := CheckGround(c, probeHit);
    if !onGround then
      var speed := Integrate(c, deltaTime);
      Step(c.(isOnGround := false, verticalSpeed := speed), Some(speed), false)
    else if !wasOnGround then
      Step(Land(c.(isOnGround := true)), None, true)
    else
      Step(c, None, false)
  }

  /** Jump pressed: accepted only on the ground, where it switches to the air
      speed cap, launches at the derived velocity and marks the jump as held. */
  function Jump(c: Character): (r: Character)
    ensures !c.isOnGround ==> r == c
    ensures c.isOnGround ==>
              && !r.isOnGround && r.jumpHeld
              && r.verticalSpeed == c.initialUpwardVelocity
              && r.maxWalkSpeed == c.tunables.lateralAirSpeed
    ensures SameSetup(c, r)
  {
    if !c.isOnGround then
      c
    else
      c.(maxWalkSpeed := c.tunables.lateralAirSpeed,
         verticalSpeed := c.initialUpwardVelocity,
         isOnGround := false,
         jumpHeld := true)
  }

  /** Jump released: clears the held flag and nothing else. */
  function ReleaseJump(c: Character): (r: Character)
    ensures !r.jumpHeld
    ensures r.isOnGround == c.isOnGround && r.verticalSpeed == c.verticalSpeed
    ensures r.maxWalkSpeed == c.maxWalkSpeed && SameSetup(c, r)
  {
    c.(jumpHeld := false)
  }

  /** What reaches the character: the jump action starting or completing, and
      frames with their length and the probe's answer. */
  datatype Event = Press | Release | Frame(deltaTime: real, probeHit: bool)

  function Apply(c: Character, e: Event): Character {
    match e
    case Press => Jump(c)
    case Release => ReleaseJump(c)
    case Frame(dt, hit) => Tick(c, dt, hit).next
  }

  /** The state after a sequence of events, in order. */
  function Run(c: Character, es: seq<Event>): Character
    decreases |es|
  {
    if |es| == 0 then c else Run(Apply(c, es[0]), es[1..])
  }
}
