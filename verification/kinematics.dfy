/** The continuous parabola behind the two derived quantities: a body launched
    upward at v0 under constant acceleration g (g < 0) while moving sideways at
    the air speed V. The derivation is what makes the designer's height H and
    distance D come out exactly. */
module JumpArc {
  import opened Tunables

  /** Height above the launch point after time `s`. */
  function ArcHeight(v0: real, g: real, s: real): real {
    v0 * s + g * s * s / 2.0
  }

  /** Vertical velocity after time `s`. */
  function ArcVelocity(v0: real, g: real, s: real): real {
    v0 + g * s
  }

  /** Time at which a full-strength jump reaches its apex. */
  function ApexTime(t: Tunables): real
    requires ValidArc(t)
  {
    DerivedSigns(t);
    -InitialUpwardVelocity(t) / Gravity(t)
  }

  /** The full-strength arc comes to rest at its apex time, after a positive
      time, having covered exactly the lateral distance D at air speed V. */
  lemma ApexReachedAtDistance(t: Tunables)
    requires ValidArc(t)
    ensures ApexTime(t) > 0.0
    ensures ArcVelocity(InitialUpwardVelocity(t), Gravity(t), ApexTime(t)) == 0.0
    ensures ApexTime(t) * t.lateralAirSpeed == t.lateralDistance
  {
    DerivedSigns(t);
    ApexDistance(t);
    var x := ApexTime(t);
    assert x * Gravity(t) == -InitialUpwardVelocity(t);
  }

  /** The apex of the full-strength arc is exactly the maximum jump height H. */
  lemma ApexHeightIsMaxJumpHeight(t: Tunables)
    requires ValidArc(t)
    ensures ArcHeight(InitialUpwardVelocity(t), Gravity(t), ApexTime(t)) == t.maxJumpHeight
  {
    var v0, g, H := InitialUpwardVelocity(t), Gravity(t), t.maxJumpHeight;
    DerivedSigns(t);
    LaunchSquared(t);
    var x := ApexTime(t);
    assert x * g == -v0;
    calc {
      ArcHeight(v0, g, x) * g;
      (v0 * x + g * x * x / 2.0) * g;
      (v0 * x) * g + (x * g) * (x * g) / 2.0;
      v0 * (x * g) + (x * g) * (x * g) / 2.0;
      -(v0 * v0) + (v0 * v0) / 2.0;
      -(v0 * v0) / 2.0;
      H * g;
    }
    CancelFactor(ArcHeight(v0, g, x), H, g);
  }

  /** No point of the full-strength arc is higher than H: the height is H minus
      a square scaled by -g / 2. */
  lemma ArcNeverAboveMaxJumpHeight(t: Tunables, s: real)
    requires ValidArc(t)
    ensures ArcHeight(InitialUpwardVelocity(t), Gravity(t), s) <= t.maxJumpHeight
  {
    var v0, g, H := InitialUpwardVelocity(t), Gravity(t), t.maxJumpHeight;
    DerivedSigns(t);
    ApexHeightIsMaxJumpHeight(t);
    var x := ApexTime(t);
    assert x * g == -v0;
    calc {
      ArcHeight(v0, g, s) - H;
      ArcHeight(v0, g, s) - ArcHeight(v0, g, x);
      (v0 * s + g * s * s / 2.0) - (v0 * x + g * x * x / 2.0);
      { assert v0 == -(x * g); }
      (-(x * g) * s + g * s * s / 2.0) - (-(x * g) * x + g * x * x / 2.0);
      g * ((s - x) * (s - x)) / 2.0;
    }
    SquareNonNegative(s - x);
    NonNegativeTimesNegative((s - x) * (s - x), g);
  }

  lemma SquareNonNegative(d: real)
    ensures d * d >= 0.0
  {
    if d < 0.0 {
      assert (-d) * (-d) > 0.0;
    }
  }

  lemma NonNegativeTimesNegative(a: real, g: real)
    requires a >= 0.0 && g < 0.0
    ensures g * a <= 0.0
  {
  }

  /** The continuous parabola is symmetric: it is back at launch height after
      twice the apex time. */
  lemma SymmetricLanding(t: Tunables)
    requires ValidArc(t)
    ensures ArcHeight(InitialUpwardVelocity(t), Gravity(t), 2.0 * ApexTime(t)) == 0.0
  {
    var v0, g := InitialUpwardVelocity(t), Gravity(t);
    DerivedSigns(t);
    var x := ApexTime(t);
    assert x * g == -v0;
    calc {
      ArcHeight(v0, g, 2.0 * x);
      v0 * (2.0 * x) + g * (2.0 * x) * (2.0 * x) / 2.0;
      2.0 * (v0 * x) + 2.0 * ((x * g) * x);
      2.0 * (v0 * x) - 2.0 * (v0 * x);
      0.0;
    }
  }
}
