# LimitBreakJump jump controller in Dafny

This project models the custom jump/fall/glide controller of `ALimitBreakCharacter`.
The controller is a two-state machine: the character is either on the ground or
airborne. Four operations drive it:

- **BeginPlay** derives the launch velocity `v0 = H·2·V/D` and the gravity
  `g = H·(−2)·V·V/(D·D)` from the designer tunables. Here H is the max jump
  height, V the lateral air speed and D the lateral distance. It also sets the
  speed cap to the walk speed.
- **Tick** probes for ground. While airborne it integrates the vertical speed
  through a 2×2 table on (rising?, jump held?) and emits a vertical launch with
  the new speed. On the airborne-to-ground edge it fires **Land**.
- **Jump** works only on the ground. It switches to the air speed cap, launches
  at `v0` and marks the jump as held.
- **ReleaseJump** clears the held flag.

Floats are modelled as `real`. The state is an immutable record and every
operation is a pure function. The model replaces the engine services as follows:

- The downward line trace becomes the boolean argument `probeHit` of `Tick`.
- The `LaunchCharacter` request becomes the `launch` field of the `Step` that
  `Tick` returns. It is `None` when the frame emits nothing.
- The movement component's `MaxWalkSpeed` becomes the `maxWalkSpeed` field of
  the state.

Files:

- `tunables.dfy` (module `Tunables`): the tunables record, its defaults, the two
  derived quantities and the algebra behind them.
- `kinematics.dfy` (module `JumpArc`): the continuous parabola those formulas
  come from. Its apex is at height H after lateral distance D.
- `character.dfy` (module `LimitBreakCharacter`): the state record and the
  operations. It also has `Run`, which folds a sequence of press, release and
  frame events over a state.
- `properties.dfy` (module `CharacterProperties`): the decision table, the
  invariants, the guards and the worked examples. The ground invariant is
  "on ground implies speed 0, jump not held and the walk speed cap".

The source gives no default for `m_InitialUpwardVelocity` and `m_Gravity`, so a
`Character` value is meant to come from `BeginPlay`. `Started(c)` says that the
derived fields match the formulas. `RunPreservesSetup` shows that no later event
rewrites them.

The model follows the code in these details:

- The initial state is "not on ground" (`bIsOnGround = false`), not grounded. The
  first frame therefore really probes, and it lands the character on a hit.
- The ground probe is skipped whenever the character is rising, whether or not
  jump is held.
- `BeginPlay` requires only `lateralDistance != 0`, because that is all the
  unchecked division needs. The sign results (`v0 > 0`, `g < 0`) additionally
  require H, V and D to be positive (`ValidArc`).

## Model

| member | source | states |
|---|---|---|
| LimitBreakCharacter.BeginPlay | Source/LimitBreakProject/LimitBreakCharacter.cpp:50-58 | The result carries the formula values of v0 and g and the walk-speed cap. It starts from the declared defaults: airborne, not held, at rest. So the ground invariant holds, and v0 > 0 and g < 0 for a valid arc. |
| LimitBreakCharacter.CheckGround | Source/LimitBreakProject/LimitBreakCharacter.cpp:174-192 | The check reports ground only if the character is not rising and the probe hit. When the character is not rising, the probe's answer is the result. |
| LimitBreakCharacter.Tick | Source/LimitBreakProject/LimitBreakCharacter.cpp:61-108 | The airborne speed update is the helper `Integrate` (the table of cpp:72-94). The new ground flag is the ground check. Land fires exactly on the airborne-to-ground edge. A launch is emitted exactly when the character ends airborne, and it equals the new speed. An airborne frame changes only the speed and the ground flag. A landing frame yields `Land` of the state. A frame that starts and ends on the ground changes nothing. The setup is kept. |
| LimitBreakCharacter.Land | Source/LimitBreakProject/LimitBreakCharacter.cpp:215-220 | Restores the walk-speed cap, clears held and zeroes the speed. Leaves the ground flag and the setup alone. |
| LimitBreakCharacter.Jump | Source/LimitBreakProject/LimitBreakCharacter.cpp:194-206 | In the air it is the identity. On the ground it makes the character airborne and held, with speed v0 and the air-speed cap. |
| LimitBreakCharacter.ReleaseJump | Source/LimitBreakProject/LimitBreakCharacter.cpp:209-212 | Clears held. Keeps the ground flag, the speed, the cap and the setup. |
| Tunables.DerivedSigns | Source/LimitBreakProject/LimitBreakCharacter.cpp:55-56 | With H, V, D > 0 the launch velocity is positive and gravity is negative. |
| Tunables.DerivedCleared | Source/LimitBreakProject/LimitBreakCharacter.cpp:55-56 | Without division, the formulas read v0·D = 2·H·V and g·D² = −2·H·V². |
| Tunables.LaunchSquared | Source/LimitBreakProject/LimitBreakCharacter.cpp:55-56 | v0² = −2·g·H, so a full-strength rise stops exactly at H. |
| Tunables.ApexDistance | Source/LimitBreakProject/LimitBreakCharacter.cpp:55-56 | (−v0/g)·V = D: the lateral distance covered up to the apex is the tunable D. |
| Tunables.DefaultDerived | Source/LimitBreakProject/LimitBreakCharacter.h:51-67 | The shipped tunables (300, 100, 100, 200, 3.0, 0.2) form a valid arc. They give v0 = 400 and g = −400, with the fall modifier above 1 and the glider multiplier in (0, 1). |
| JumpArc.ApexReachedAtDistance | Source/LimitBreakProject/LimitBreakCharacter.cpp:55-56 | The continuous arc from v0 under g comes to rest at a positive apex time. At air speed V that time corresponds to distance D. |
| JumpArc.ApexHeightIsMaxJumpHeight | Source/LimitBreakProject/LimitBreakCharacter.cpp:55-56 | The height of the continuous arc at its apex time is exactly H. |
| JumpArc.ArcNeverAboveMaxJumpHeight | Source/LimitBreakProject/LimitBreakCharacter.cpp:55-56 | No point of the continuous arc is above H. |
| JumpArc.SymmetricLanding | Source/LimitBreakProject/LimitBreakCharacter.cpp:55-56 | The continuous parabola from v0 under g is back at launch height after twice the apex time. |
| CharacterProperties.TickDecisionTable | Source/LimitBreakProject/LimitBreakCharacter.cpp:70-98 | An airborne frame picks its row by the speed before the update. Rising and held adds g·dt. Rising and not held adds g·fall·dt. Not rising and held adds g·glider·dt. Not rising and not held adds g·fall·dt. The launch equals the new speed. |
| CharacterProperties.RisingIgnoresProbe | Source/LimitBreakProject/LimitBreakCharacter.cpp:176-180 | While rising, a hit and a miss give the same frame, and the character stays airborne. |
| CharacterProperties.LandingResets | Source/LimitBreakProject/LimitBreakCharacter.cpp:100-104 | An airborne character that is not rising and whose probe hits lands. It ends at speed 0, not held, with the walk cap, and no launch is emitted. |
| CharacterProperties.AirborneTickLowersSpeed | Source/LimitBreakProject/LimitBreakCharacter.cpp:70-94 | With g < 0, positive modifiers and dt > 0, every airborne frame strictly lowers the vertical speed. |
| CharacterProperties.UnheldRiseDeceleratesMore | Source/LimitBreakProject/LimitBreakCharacter.cpp:73-83 | With a fall modifier above 1, an unheld rising frame ends slower than a held one. |
| CharacterProperties.HeldFallIsSlower | Source/LimitBreakProject/LimitBreakCharacter.cpp:84-94 | With 0 < glider < fall, a held fall gains less downward speed than an unheld fall, but still some. |
| CharacterProperties.NoDoubleJump | Source/LimitBreakProject/LimitBreakCharacter.cpp:196-200 | Pressing jump twice has the same effect as pressing once. In the air the speed and the held flag are untouched. |
| CharacterProperties.ReleaseIdempotent | Source/LimitBreakProject/LimitBreakCharacter.cpp:209-212 | Releasing twice has the same effect as releasing once. |
| CharacterProperties.TickPreservesInvariant | Source/LimitBreakProject/LimitBreakCharacter.cpp:66-104 | A frame keeps "on ground implies speed 0, not held and the walk cap", including the frame that fires Land. |
| CharacterProperties.JumpPreservesInvariant | Source/LimitBreakProject/LimitBreakCharacter.cpp:197-205 | A jump press keeps the ground invariant. |
| CharacterProperties.ReleasePreservesInvariant | Source/LimitBreakProject/LimitBreakCharacter.cpp:209-212 | A jump release keeps the ground invariant. |
| CharacterProperties.RunPreservesInvariant | Source/LimitBreakProject/LimitBreakCharacter.cpp:126-127 | `Run` (through `Apply`) feeds the bound jump start/complete events and frames to the operations. Any such sequence keeps the ground invariant, so every reachable grounded state has speed 0, no held jump and the walk cap. |
| CharacterProperties.RunPreservesSetup | Source/LimitBreakProject/LimitBreakCharacter.h:100-103 | No modelled event (press, release, frame) changes the tunables, v0 or g, so `Started` survives any run. |
| CharacterProperties.PlayKeepsInvariants | Source/LimitBreakProject/LimitBreakCharacter.h:94-105 | From `BeginPlay`, after any events, the ground invariant holds and the derived quantities still match the tunables. |
| CharacterProperties.TickKeepsNonRising | Source/LimitBreakProject/LimitBreakCharacter.cpp:84-94 | With g ≤ 0, non-negative modifiers and dt ≥ 0, a frame never turns a non-rising speed positive. |
| CharacterProperties.OnlyJumpRises | Source/LimitBreakProject/LimitBreakCharacter.cpp:194-206 | Without a jump press, a character that is not rising stays that way through any frames and releases. |
| CharacterProperties.HeldRiseFollowsArc | Source/LimitBreakProject/LimitBreakCharacter.cpp:73-97 | Take n equal frames of a held rise, with the character still rising before each one. The speed afterwards equals the continuous arc's velocity v + g·(n·dt). The character is still airborne and held. |
| CharacterProperties.UnmodifiedTickFollowsArc | Source/LimitBreakProject/LimitBreakCharacter.cpp:72-94 | With fall modifier and glider multiplier both 1, an airborne frame changes the speed exactly as the continuous arc's velocity does over dt, held or not. |
| CharacterProperties.FirstTickProbes | Source/LimitBreakProject/LimitBreakCharacter.h:96-105 | The first frame after `BeginPlay` really probes, because the speed is 0. It lands exactly when the probe hits, with speed 0 and the walk cap. |
| CharacterProperties.JumpLaunchesUp | Source/LimitBreakProject/LimitBreakCharacter.cpp:202-205 | For a valid arc, a grounded jump gives a positive speed, so the next frame cannot land. |
| CharacterProperties.DefaultScenarios | Source/LimitBreakProject/LimitBreakCharacter.h:51-67 | With the shipped tunables: v0 = 400 and g = −400. Jump, release and a 0.01 frame give speed 388. A held fall from −50 gives −50.8, and then a hit lands at 0 with cap 300. |

## Left out

- The constructor's engine configuration (capsule size, rotation flags and rates, walk braking, camera boom, follow camera): engine object setup with no effect on the jump logic.
- The `TickGroup == TG_PrePhysics` line in the constructor: it is a comparison whose result is discarded, so it has no behaviour to model.
- `SetupPlayerInputComponent`, `Move` and `Look`: input-binding plumbing and engine vector/rotation APIs. Only the binding of jump start/complete to `Jump`/`ReleaseJump` is reflected, as the `Press`/`Release` events of `Run`.
- The actor rotation at the end of `Tick`: an engine rotation call with no effect on the modelled state.
- Runtime writes to the tunables: the walk speed is Blueprint-writable and all six are editable, and `Jump`, `Tick` and `Land` read them afresh on every call. The model fixes the tunables for the life of the record. It also does not model that v0 and g stay as play began computed them when H, V or D are changed later, which would leave `Started` false.
- The line trace inside `CheckGround`: it becomes the `probeHit` argument. Collision and the 100-unit trace length are the engine's concern.
- What `LaunchCharacter` and `MaxWalkSpeed` do inside the engine: only the values handed over are recorded.
- IEEE single-precision rounding: arithmetic is on `real`. For example, the default 0.2 is exact here, while in float it is not.
- The game mode (pawn-class lookup by asset path) and the editor build target: glue with no logic.
