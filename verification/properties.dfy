/** Properties of the jump controller: the decision table of an airborne frame,
    the ground invariant and the setup kept by every operation and by any run
    of events, the guards (no double jump, no landing while rising), and the
    worked examples with the shipped tunables. */
module CharacterProperties {
  import opened Tunables
  import opened LimitBreakCharacter
  import JumpArc

  /** Gravity pulls down and both modifiers are positive. */
  predicate DownwardPull(c: Character) {
    c.gravity < 0.0 && PositiveModifiers(c.tunables)
  }

  lemma NegTimesPos(a: real, b: real)
    requires a < 0.0 && b > 0.0
    ensures a * b < 0.0
  {
  }

  lemma NonPosTimesNonNeg(a: real, b: real)
    requires a <= 0.0 && b >= 0.0
    ensures a * b <= 0.0
  {
  }

  /** An airborne frame adds gravity times the frame length, scaled by the row
      of the table that matches the speed BEFORE the update:
      rising and held: 1; rising, not held: fall modifier;
      not rising and held: glider multiplier; not rising, not held: fall modifier. */
  lemma TickDecisionTable(c: Character, dt: real, probeHit: bool)
    requires !(c.verticalSpeed <= 0.0 && probeHit)
    ensures var r := Tick(c, dt, probeHit);
            && !r.next.isOnGround && !r.landed
            && r.launch == Some(r.next.verticalSpeed)
            && (c.verticalSpeed > 0.0 && c.jumpHeld ==>
                  r.next.verticalSpeed == c.verticalSpeed + c.gravity * dt)
            && (c.verticalSpeed > 0.0 && !c.jumpHeld ==>
                  r.next.verticalSpeed
                  == c.verticalSpeed + c.gravity * c.tunables.fallModifier * dt)
            && (c.verticalSpeed <= 0.0 && c.jumpHeld ==>
                  r.next.verticalSpeed
                  == c.verticalSpeed + c.gravity * c.tunables.gliderMultiplier * dt)
            && (c.verticalSpeed <= 0.0 && !c.jumpHeld ==>
                  r.next.verticalSpeed
                  == c.verticalSpeed + c.gravity * c.tunables.fallModifier * dt)
  {
  }

  /** While rising the probe is ignored: both answers give the same frame, and
      the character stays airborne. */
  lemma RisingIgnoresProbe(c: Character, dt: real)
    requires c.verticalSpeed > 0.0
    ensures Tick(c, dt, true) == Tick(c, dt, false)
    ensures !Tick(c, dt, true).next.isOnGround
  {
  }

  /** A probe hit with the character not rising lands it: at rest, jump
      released, walk speed cap restored, no launch emitted. */
  lemma LandingResets(c: Character, dt: real)
    requires !c.isOnGround && c.verticalSpeed <= 0.0
    ensures var r := Tick(c, dt, true);
            && r.landed && r.next.isOnGround && r.launch == None
            && r.next.verticalSpeed == 0.0 && !r.next.jumpHeld
            && r.next.maxWalkSpeed == c.tunables.lateralWalkSpeed
  {
  }

  /** Every airborne frame of positive length strictly lowers the vertical
      speed when gravity pulls down. */
  lemma AirborneTickLowersSpeed(c: Character, dt: real, probeHit: bool)
    requires DownwardPull(c) && dt > 0.0
    requires !Tick(c, dt, probeHit).next.isOnGround
    ensures Tick(c, dt, probeHit).next.verticalSpeed < c.verticalSpeed
  {
    NegTimesPos(c.gravity, dt);
    NegTimesPos(c.gravity, c.tunables.fallModifier);
    NegTimesPos(c.gravity * c.tunables.fallModifier, dt);
    NegTimesPos(c.gravity, c.tunables.gliderMultiplier);
    NegTimesPos(c.gravity * c.tunables.gliderMultiplier, dt);
  }

  /** Releasing the jump early cuts the rise short: with a fall modifier above 1,
      an unheld rising frame ends slower than a held one. */
  lemma UnheldRiseDeceleratesMore(c: Character, dt: real, probeHit: bool)
    requires c.verticalSpeed > 0.0 && c.gravity < 0.0 && dt > 0.0
    requires c.tunables.fallModifier > 1.0
    ensures Tick(c.(jumpHeld := false), dt, probeHit).next.verticalSpeed
            < Tick(c.(jumpHeld := true), dt, probeHit).next.verticalSpeed
  {
    var g, F := c.gravity, c.tunables.fallModifier;
    NegTimesPos(g * dt, F - 1.0);
    assert g * F * dt - g * dt == (g * dt) * (F - 1.0);
  }

  /** Holding the jump glides: with a glider multiplier below the fall
      modifier, a held falling frame gains less downward speed than an unheld
      one (and, with a positive glider multiplier, still gains some). */
  lemma HeldFallIsSlower(c: Character, dt: real)
    requires c.verticalSpeed <= 0.0 && c.gravity < 0.0 && dt > 0.0
    requires 0.0 < c.tunables.gliderMultiplier < c.tunables.fallModifier
    ensures var held := Tick(c.(jumpHeld := true), dt, false).next.verticalSpeed;
            var unheld := Tick(c.(jumpHeld := false), dt, false).next.verticalSpeed;
            unheld < held < c.verticalSpeed
  {
    var g, F, G := c.gravity, c.tunables.fallModifier, c.tunables.gliderMultiplier;
    NegTimesPos(g * dt, F - G);
    assert g * F * dt - g * G * dt == (g * dt) * (F - G);
    NegTimesPos(g, G);
    NegTimesPos(g * G, dt);
  }

  /** Jump is a no-op in the air: pressing twice is pressing once. */
  lemma NoDoubleJump(c: Character)
    ensures Jump(Jump(c)) == Jump(c)
    ensures !c.isOnGround ==> Jump(c).verticalSpeed == c.verticalSpeed
                              && Jump(c).jumpHeld == c.jumpHeld
  {
  }

  /** Releasing twice is releasing once. */
  lemma ReleaseIdempotent(c: Character)
    ensures ReleaseJump(ReleaseJump(c)) == ReleaseJump(c)
  {
  }

  lemma TickPreservesInvariant(c: Character, dt: real, probeHit: bool)
    requires GroundInvariant(c)
    ensures GroundInvariant(Tick(c, dt, probeHit).next)
  {
  }

  lemma JumpPreservesInvariant(c: Character)
    requires GroundInvariant(c)
    ensures GroundInvariant(Jump(c))
  {
  }

  lemma ReleasePreservesInvariant(c: Character)
    requires GroundInvariant(c)
    ensures GroundInvariant(ReleaseJump(c))
  {
  }

  lemma ApplyPreservesInvariant(c: Character, e: Event)
    requires GroundInvariant(c)
    ensures GroundInvariant(Apply(c, e))
  {
    match e
    case Press => JumpPreservesInvariant(c);
    case Release => ReleasePreservesInvariant(c);
    case Frame(dt, hit) => TickPreservesInvariant(c, dt, hit);
  }

  /** The ground invariant holds after any sequence of events that starts
      where it holds, in particular right after play begins. */
  lemma {:induction false} RunPreservesInvariant(c: Character, es: seq<Event>)
    requires GroundInvariant(c)
    ensures GroundInvariant(Run(c, es))
    decreases |es|
  {
    if |es| > 0 {
      ApplyPreservesInvariant(c, es[0]);
      RunPreservesInvariant(Apply(c, es[0]), es[1..]);
    }
  }

  /** No event changes the tunables or the derived launch velocity and gravity:
      only play beginning writes them. */
  lemma {:induction false} RunPreservesSetup(c: Character, es: seq<Event>)
    ensures SameSetup(c, Run(c, es))
    ensures Started(c) ==> Started(Run(c, es))
    decreases |es|
  {
    if |es| > 0 {
      var c' := Apply(c, es[0]);
      assert SameSetup(c, c') by {
        match es[0]
        case Press =>
        case Release =>
        case Frame(dt, hit) =>
      }
      RunPreservesSetup(c', es[1..]);
    }
  }

  /** From the moment play begins, whatever events follow, the ground invariant
      holds and the derived quantities are still those of the tunables. */
  lemma PlayKeepsInvariants(t: Tunables, es: seq<Event>)
    requires t.lateralDistance != 0.0
    ensures GroundInvariant(Run(BeginPlay(t), es))
    ensures Started(Run(BeginPlay(t), es))
    ensures Run(BeginPlay(t), es).tunables == t
  {
    RunPreservesInvariant(BeginPlay(t), es);
    RunPreservesSetup(BeginPlay(t), es);
  }

  /** Events without a jump press and with forward time. */
  predicate NoPressForward(es: seq<Event>) {
    forall i :: 0 <= i < |es| ==>
      es[i] != Press && (es[i].Frame? ==> es[i].deltaTime >= 0.0)
  }

  /** A frame never makes a resting or falling character rise. */
  lemma TickKeepsNonRising(c: Character, dt: real, probeHit: bool)
    requires c.gravity <= 0.0 && c.tunables.fallModifier >= 0.0
    requires c.tunables.gliderMultiplier >= 0.0 && dt >= 0.0
    requires c.verticalSpeed <= 0.0
    ensures Tick(c, dt, probeHit).next.verticalSpeed <= 0.0
  {
    NonPosTimesNonNeg(c.gravity, c.tunables.fallModifier);
    NonPosTimesNonNeg(c.gravity * c.tunables.fallModifier, dt);
    NonPosTimesNonNeg(c.gravity, c.tunables.gliderMultiplier);
    NonPosTimesNonNeg(c.gravity * c.tunables.gliderMultiplier, dt);
  }

  /** Jump is the only way up: without a press, a character that is not rising
      never rises, whatever frames and releases arrive. */
  lemma {:induction false} OnlyJumpRises(c: Character, es: seq<Event>)
    requires c.gravity <= 0.0 && c.tunables.fallModifier >= 0.0
    requires c.tunables.gliderMultiplier >= 0.0
    requires c.verticalSpeed <= 0.0
    requires NoPressForward(es)
    ensures Run(c, es).verticalSpeed <= 0.0
    decreases |es|
  {
    if |es| > 0 {
      var c' := Apply(c, es[0]);
      if es[0].Frame? {
        TickKeepsNonRising(c, es[0].deltaTime, es[0].probeHit);
      }
      assert SameSetup(c, c');
      assert NoPressForward(es[1..]) by {
        forall i | 0 <= i < |es[1..]|
          ensures es[1..][i] != Press && (es[1..][i].Frame? ==> es[1..][i].deltaTime >= 0.0)
        {
          assert es[1..][i] == es[i + 1];
        }
      }
      OnlyJumpRises(c', es[1..]);
    }
  }

  /** `n` frames of the same length and probe answer. */
  function Frames(n: nat, dt: real, probeHit: bool): (es: seq<Event>)
    ensures |es| == n
  {
    if n == 0 then [] else [Frame(dt, probeHit)] + Frames(n - 1, dt, probeHit)
  }

  /** A held rise is integrated exactly: as long as the character is still
      rising before each of `n` equal frames, its speed after them is the
      velocity of the continuous arc at time n * dt, and it is still airborne
      with the jump held. */
  lemma {:induction false} HeldRiseFollowsArc(c: Character, n: nat, dt: real, probeHit: bool)
    requires !c.isOnGround && c.jumpHeld && c.gravity <= 0.0 && dt >= 0.0
    requires n == 0 || c.verticalSpeed + (n - 1) as real * c.gravity * dt > 0.0
    ensures var r := Run(c, Frames(n, dt, probeHit));
            && r.verticalSpeed == JumpArc.ArcVelocity(c.verticalSpeed, c.gravity, n as real * dt)
            && !r.isOnGround && r.jumpHeld
    decreases n
  {
    if n > 0 {
      var g := c.gravity;
      NonPosTimesNonNeg(g, dt);
      NonPosTimesNonNeg(g * dt, (n - 1) as real);
      assert (n - 1) as real * g * dt == (g * dt) * (n - 1) as real;
      assert c.verticalSpeed > 0.0;
      var c' := Tick(c, dt, probeHit).next;
      assert c'.verticalSpeed == c.verticalSpeed + g * dt;
      assert Frames(n, dt, probeHit)[1..] == Frames(n - 1, dt, probeHit);
      assert c'.verticalSpeed + (n - 1 - 1) as real * g * dt
             == c.verticalSpeed + (n - 1) as real * g * dt;
      HeldRiseFollowsArc(c', n - 1, dt, probeHit);
      assert (n - 1) as real * dt * g + g * dt == n as real * dt * g;
    }
  }

  /** With both modifiers at 1 every airborne frame adds plain gravity, so one
      frame moves the speed exactly as the continuous arc's velocity does over
      the same time, whatever the held flag. */
  lemma UnmodifiedTickFollowsArc(c: Character, dt: real, probeHit: bool)
    requires c.tunables.fallModifier == 1.0 && c.tunables.gliderMultiplier == 1.0
    requires !Tick(c, dt, probeHit).next.isOnGround
    ensures Tick(c, dt, probeHit).next.verticalSpeed
            == JumpArc.ArcVelocity(c.verticalSpeed, c.gravity, dt)
  {
  }

  /** The first frame after play begins really probes (the speed is 0, not
      rising), and a hit lands the character. */
  lemma FirstTickProbes(t: Tunables, dt: real, probeHit: bool)
    requires t.lateralDistance != 0.0
    ensures var r := Tick(BeginPlay(t), dt, probeHit);
            && r.landed == probeHit
            && (probeHit ==> r.next.isOnGround && r.next.verticalSpeed == 0.0
                             && r.next.maxWalkSpeed == t.lateralWalkSpeed)
  {
  }

  /** With a valid arc, a jump from the ground launches upward, so the next
      frame cannot land. */
  lemma JumpLaunchesUp(c: Character, dt: real, probeHit: bool)
    requires Started(c) && ValidArc(c.tunables) && c.isOnGround
    ensures Jump(c).verticalSpeed > 0.0
    ensures !Tick(Jump(c), dt, probeHit).next.isOnGround
  {
    DerivedSigns(c.tunables);
  }

  /** The worked examples with the shipped tunables. */
  lemma DefaultScenarios()
    ensures var c0 := BeginPlay(Defaults());
            && c0.initialUpwardVelocity == 400.0 && c0.gravity == -400.0
            && c0.maxWalkSpeed == 300.0
            && var grounded := Tick(c0, 0.01, true).next;
               var jumped := Jump(grounded);
               var released := ReleaseJump(jumped);
               var step := Tick(released, 0.01, false);
               && grounded.isOnGround
               && jumped.verticalSpeed == 400.0 && !jumped.isOnGround
               && jumped.maxWalkSpeed == 100.0
               && step.next.verticalSpeed == 388.0
               && step.launch == Some(388.0)
    ensures var c0 := BeginPlay(Defaults());
            var falling := c0.(verticalSpeed := -50.0, jumpHeld := true);
            var glide := Tick(falling, 0.01, false);
            var landing := Tick(glide.next, 0.01, true);
            && glide.next.verticalSpeed == -50.8
            && landing.landed && landing.next.verticalSpeed == 0.0
            && landing.next.maxWalkSpeed == 300.0
  {
    DefaultDerived();
  }
}
