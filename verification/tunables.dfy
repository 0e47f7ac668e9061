/** The designer-facing parameters of the jump/fall/glide controller and the two
    quantities derived from them once, when play begins: the launch velocity and
    the (downward) gravity of the jump arc. Floats are modelled as `real`. */
module Tunables {

  /** The editable "Character Stats" of the character. */
  datatype Tunables = Tunables(
    lateralWalkSpeed: real,   // horizontal speed cap while on ground
    lateralAirSpeed: real,    // horizontal speed cap while airborne (V)
    lateralDistance: real,    // horizontal distance from launch to apex (D)
    maxJumpHeight: real,      // apex height of a full-strength jump (H)
    fallModifier: real,       // gravity multiplier when falling or not holding jump
    gliderMultiplier: real    // gravity multiplier when falling with jump held
  )

  /** The values the character ships with. */
  function Defaults(): Tunables {
    Tunables(300.0, 100.0, 100.0, 200.0, 3.0, 0.2)
  }

  /** Tunables that describe a real arc: positive height, air speed and distance. */
  predicate ValidArc(t: Tunables) {
    t.maxJumpHeight > 0.0 && t.lateralAirSpeed > 0.0 && t.lateralDistance > 0.0
  }

  /** Gravity modifiers that keep every airborne step pulling downward. */
  predicate PositiveModifiers(t: Tunables) {
    t.fallModifier > 0.0 && t.gliderMultiplier > 0.0
  }

  /** Launch velocity v0 = H * 2 * V / D, as computed when play begins. */
  function InitialUpwardVelocity(t: Tunables): real
    requires t.lateralDistance != 0.0
  {
    t.maxJumpHeight * 2.0 * t.lateralAirSpeed / t.lateralDistance
  }

  /** Gravity g = H * (-2) * V * V / (D * D), as computed when play begins. */
  function Gravity(t: Tunables): real
    requires t.lateralDistance != 0.0
  {
    t.maxJumpHeight * (-2.0) * t.lateralAirSpeed * t.lateralAirSpeed
      / (t.lateralDistance * t.lateralDistance)
  }

  /** Real-arithmetic helpers: the solver needs nonlinear steps spelled out. */
  lemma MulPos(a: real, b: real)
    requires a > 0.0 && b > 0.0
    ensures a * b > 0.0
  {
  }

  lemma SquareNonZero(d: real)
    requires d != 0.0
    ensures d * d != 0.0
  {
    if d > 0.0 {
      assert d * d > 0.0;
    } else {
      assert (-d) * (-d) > 0.0;
    }
  }

  lemma CancelFactor(a: real, b: real, c: real)
    requires c != 0.0 && a * c == b * c
    ensures a == b
  {
    assert (a - b) * c == 0.0;
  }

  lemma CancelSquare(a: real, b: real, d: real)
    requires d != 0.0 && a * (d * d) == b * (d * d)
    ensures a == b
  {
    SquareNonZero(d);
    assert (a - b) * (d * d) == 0.0;
  }

  lemma NegativeFactor(a: real, c: real)
    requires c > 0.0 && a * c < 0.0
    ensures a < 0.0
  {
  }

  /** The two formulas without division: v0 * D = 2 * H * V and
      g * D^2 = -2 * H * V^2. */
  lemma DerivedCleared(t: Tunables)
    requires t.lateralDistance != 0.0
    ensures InitialUpwardVelocity(t) * t.lateralDistance
            == 2.0 * t.maxJumpHeight * t.lateralAirSpeed
    ensures Gravity(t) * (t.lateralDistance * t.lateralDistance)
            == -2.0 * t.maxJumpHeight * t.lateralAirSpeed * t.lateralAirSpeed
  {
  }

  /** With a valid arc the launch goes up and gravity pulls down. */
  lemma DerivedSigns(t: Tunables)
    requires ValidArc(t)
    ensures InitialUpwardVelocity(t) > 0.0
    ensures Gravity(t) < 0.0
  {
    var H, V, D := t.maxJumpHeight, t.lateralAirSpeed, t.lateralDistance;
    DerivedCleared(t);
    MulPos(D, D);
    MulPos(H, V);
    MulPos(H * V, V);
    NegativeFactor(Gravity(t), D * D);
  }

  /** v0^2 = -2 * g * H: a launch at v0 decelerating at g comes to rest exactly
      at height H. */
  lemma LaunchSquared(t: Tunables)
    requires t.lateralDistance != 0.0
    ensures InitialUpwardVelocity(t) * InitialUpwardVelocity(t)
            == -2.0 * Gravity(t) * t.maxJumpHeight
  {
    var H, V, D := t.maxJumpHeight, t.lateralAirSpeed, t.lateralDistance;
    var v0, g := InitialUpwardVelocity(t), Gravity(t);
    DerivedCleared(t);
    calc {
      (v0 * v0) * (D * D);
      (v0 * D) * (v0 * D);
      (2.0 * H * V) * (2.0 * H * V);
      (-2.0 * H) * (-2.0 * H * V * V);
      (-2.0 * H) * (g * (D * D));
      (-2.0 * g * H) * (D * D);
    }
    CancelSquare(v0 * v0, -2.0 * g * H, D);
  }

  /** (-v0 / g) * V = D: at air speed V the character covers exactly the lateral
      distance D while rising to the apex. */
  lemma ApexDistance(t: Tunables)
    requires ValidArc(t)
    ensures Gravity(t) != 0.0
    ensures (-InitialUpwardVelocity(t) / Gravity(t)) * t.lateralAirSpeed == t.lateralDistance
  {
    var H, V, D := t.maxJumpHeight, t.lateralAirSpeed, t.lateralDistance;
    var v0, g := InitialUpwardVelocity(t), Gravity(t);
    DerivedSigns(t);
    DerivedCleared(t);
    MulPos(H, V);
    var x := -v0 / g;
    assert x * g == -v0;
    calc {
      (x * V) * (2.0 * H * V);
      x * (2.0 * H * V * V);
      x * (-(g * (D * D)));
      -(x * g) * (D * D);
      v0 * (D * D);
      (v0 * D) * D;
      (2.0 * H * V) * D;
      D * (2.0 * H * V);
    }
    CancelFactor(x * V, D, 2.0 * H * V);
  }

  /** The default tunables give v0 = 400 and g = -400, and describe a valid arc
      with positive modifiers. */
  lemma DefaultDerived()
    ensures ValidArc(Defaults()) && PositiveModifiers(Defaults())
    ensures InitialUpwardVelocity(Defaults()) == 400.0
    ensures Gravity(Defaults()) == -400.0
    ensures Defaults().lateralWalkSpeed == 300.0 && Defaults().lateralAirSpeed == 100.0
    ensures Defaults().fallModifier > 1.0
    ensures 0.0 < Defaults().gliderMultiplier < 1.0
  {
  }
}
