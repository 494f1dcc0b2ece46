# TerrariaOverhaul combat and player helpers in Dafny

This project models four pieces of the TerrariaOverhaul mod and proves
properties of the model:

- the generic **melee weapon** overhaul: the attack state set when a swing
  starts, the seven-key swing-rotation curve, the arc-based hit gate, the gore
  scan that knocks at most five gores, the five-way body pose ladder, and the
  velocity-based damage and knockback scaling with its combat-text label;
- the **player extension** helpers: local-player and on-ground tests, key
  direction, accessory enumeration and the accessory queries, grappling-hook
  enumeration, and the in-place release of latched hooks;
- the **bow** overhaul: which items count as bows, the replacement of the
  host's bow sound, and the crosshair flag;
- the local player's **low-health effects**: the intensity that follows life
  through a keyframe table, the low-pass audio modifier, the looping sound and
  the bleeding counter that spawns one blood dust per whole unit.

Files: `host.dfy` (module `Host`: the host game's records, the `Player`
object and MathHelper arithmetic), `gradients.dfy` (module `Gradients`:
keyframe tables and the two evaluator properties the model may assume),
`player_extensions.dfy`, `melee_weapon.dfy`, `bow.dfy` and
`player_health_effects.dfy`.

Objects whose fields the mod updates are classes: the melee weapon's attack
state (`MeleeWeapons.MeleeWeapon`), the player (`Host.Player`, whose
`grappling` buffer is an array updated in place) and the low-health effect
state (`HealthEffects.PlayerHealthEffects`). Loops of the source are `while`
or `for` loops proved against recursive specification functions
(`AccessoriesBelow`, `HooksBelow`, `Released`, `StruckGores`, `BloodDusts`).

Routines whose code is not part of this model are parameters: the keyframe
evaluator `Gradient<T>.GetValue`, the rectangle-versus-arc collision test,
`Vector2.Length`, `SafeNormalize`, `ToRotation`, `ToRotationVector2`,
`MathUtils.Modulo`, `RadiansToPitch`, `InverseLerp`, `StepTowards`, and the
"0.00" number formatting. They are fields of `MeleeWeapons.Collaborators` and
`HealthEffects.HealthCollaborators`. Results that depend on the evaluator are
stated under one of two hypotheses: `Gradients.HoldsEnds` (on a table with
strictly increasing keys, the first value at or before the first key and the
last value at or after the last key) and `Gradients.StaysWithinValues` (the
result lies in any interval that holds all values of the table). Two more
hypotheses name what a contract needs of another collaborator:
`MeleeWeapons.FallsBackOnZero` (SafeNormalize returns its fallback for the
zero vector) and `HealthEffects.StepsTowards` (StepTowards moves from the
value towards the goal by at most the step and never past it). Each
hypothesis is shown satisfiable by a concrete collaborator
(`Gradients.EvaluatorHypothesesSatisfiable`,
`MeleeWeapons.FallsBackOnZeroSatisfiable`,
`HealthEffects.StepsTowardsSatisfiable`), so the contracts that assume them
are not vacuous. Game state that the source reads from globals is
passed in: `Main.myPlayer`, `Main.MouseWorld`, `Main.dedServ`, the projectile
table, the gore table, `TimeSystem.LogicDeltaTime` and the camera's screen
centre. Effects on other systems are returned as values: the gore slots on
which `HitGore` is called, the hooks that are killed, the combat-text filter,
the cooldown notification, and the audio, sound and dust events of a tick.

Floats are modelled as `real`. `Math.Round` is `Host.RoundHalfEven`, the
nearest integer with ties going to the even one; `MathHelper.Clamp` first
caps at the maximum and then raises to the minimum, and `MathHelper.Pi` is
the single-precision value of pi, exactly 3.1415927410125732421875.

## Model

| member | source | states |
|---|---|---|
| Host.RoundHalfEven | Common/ModEntities/Items/Overhauls/Generic/MeleeWeapon.cs:236 | the result is within one half of the argument, and on an exact tie it is even |
| Host.RoundHalfEvenExamples | Common/ModEntities/Items/Overhauls/Generic/MeleeWeapon.cs:236 | 2.5 and -2.5 round to 2 and -2, 3.5 rounds to 4, 2.4 to 2 and 2.6 to 3 |
| MeleeWeapons.DamageScaleColorIncreasing | Common/ModEntities/Items/Overhauls/Generic/MeleeWeapon.cs:21-27 | the five keys of the damage-scale colour table are in strictly increasing position order |
| MeleeWeapons.GetAttackRange | Common/ModEntities/Items/Overhauls/Generic/MeleeWeapon.cs:36-39 | the range is the length of the item's size scaled by scale·1.25 |
| MeleeWeapons.AttackRangeDependsOnSize | Common/ModEntities/Items/Overhauls/Generic/MeleeWeapon.cs:36-39 | two items with the same width, height and scale have the same attack range |
| MeleeWeapons.GetHeavyness | Common/ModEntities/Items/Overhauls/Generic/MeleeWeapon.cs:40-54 | the heaviness lies in [0,1], and equals the inverse lerp of the use speed between 5 and 0.5 whenever that is already in [0,1] |
| MeleeWeapons.HeavynessIgnoresSize | Common/ModEntities/Items/Overhauls/Generic/MeleeWeapon.cs:40-54 | two items with the same use time have the same heaviness whatever their width and height (the size term is computed but unused) |
| MeleeWeapons.ShouldBeAttacking | Common/ModEntities/Items/Overhauls/Generic/MeleeWeapon.cs:55-58 | the player is attacking exactly while itemAnimation is positive |
| MeleeWeapons.AnimationStep | Common/ModEntities/Items/Overhauls/Generic/MeleeWeapon.cs:62 | the swing progress lies in [0,1]; it is 0 when itemAnimation is at or above its maximum and 1 when it has run down to 0 or below |
| MeleeWeapons.StepGrowsAsAnimationRunsDown | Common/ModEntities/Items/Overhauls/Generic/MeleeWeapon.cs:62 | as itemAnimation counts down the swing progress never decreases |
| MeleeWeapons.SwingBounds | Common/ModEntities/Items/Overhauls/Generic/MeleeWeapon.cs:61-70 | the bounds are base - 1.25·π/2 and base + π/2, swapped exactly when direction·(FlippedAttack ? -1 : 1) is negative |
| MeleeWeapons.SwingTable | Common/ModEntities/Items/Overhauls/Generic/MeleeWeapon.cs:72-80 | seven keys in strictly increasing positions 0, 0.1, 0.15, 0.151, 0.5, 0.8, 1; the 0 and 0.1 keys hold the start bound, the 0.15 key the wind-up lerp(min, max, 0.125), the 0.151 key snaps to lerp(min, max, 0.8), the 0.5 key holds the end bound and the 0.8 and 1.0 keys lerp(min, max, 0.8); every value lies between the two bounds |
| MeleeWeapons.MeleeWeapon.GetWeaponRotation | Common/ModEntities/Items/Overhauls/Generic/MeleeWeapon.cs:59-83 | with an evaluator that holds the ends of a strictly increasing table (the swing table is one), the swing starts at the start bound and finishes at lerp(min, max, 0.8); with one that stays within the table's values, the rotation always lies between the two bounds |
| MeleeWeapons.MeleeWeapon.constructor | Common/ModEntities/Items/Overhauls/Generic/MeleeWeapon.cs:29-34 | a fresh weapon has no attack yet (number 0, angle 0, zero direction, not flipped) and the given VelocityBasedDamage flag |
| MeleeWeapons.MeleeWeapon.UseAnimation | Common/ModEntities/Items/Overhauls/Generic/MeleeWeapon.cs:124-129 | the direction is the safe-normalised cursor offset with fallback UnitX, the angle is that direction's rotation, the attack number goes up by exactly one, and nothing else changes; when SafeNormalize returns its fallback for the zero vector, a cursor on the player's centre gives UnitX |
| MeleeWeapons.FallsBackOnZeroSatisfiable | Common/ModEntities/Items/Overhauls/Generic/MeleeWeapon.cs:126 | a normalizer that answers with the fallback meets the SafeNormalize hypothesis |
| MeleeWeapons.MeleeWeapon.CanHitNPC | Common/ModEntities/Items/Overhauls/Generic/MeleeWeapon.cs:130-139 | no hit while itemAnimation is 0 or less, whatever the arc test would say; otherwise exactly the arc test with half-arc π/2 and radius GetAttackRange |
| MeleeWeapons.StruckGoresSpec | Common/ModEntities/Items/Overhauls/Generic/MeleeWeapon.cs:153-165 | the struck slots below n are exactly the active overhaul gores at least 30 ticks old inside the arc, in strictly ascending order |
| MeleeWeapons.StruckGoresPrefix | Common/ModEntities/Items/Overhauls/Generic/MeleeWeapon.cs:153-165 | the struck slots below m are a prefix of those below any n ≥ m |
| MeleeWeapons.KnockedAreFirstStruck | Common/ModEntities/Items/Overhauls/Generic/MeleeWeapon.cs:149-163 | at most five gores are knocked, each one struck, in ascending slot order, and a struck gore is skipped only when five earlier ones were knocked |
| MeleeWeapons.MeleeWeapon.HoldItem | Common/ModEntities/Items/Overhauls/Generic/MeleeWeapon.cs:140-167 | no gore is knocked unless itemAnimation ≥ itemAnimationMax - 1 and the player is attacking; then the knocked slots are the first five struck ones |
| MeleeWeapons.SelectPose | Common/ModEntities/Items/Overhauls/Generic/MeleeWeapon.cs:184-205 | exactly one of five frames is chosen by the strict thresholds 0.95, 0.7, 0.3 and 0.05, each with its offset (-8,-9), (4,-8), (4,2), (4,7), (-8,2) |
| MeleeWeapons.PoseLadderMonotone | Common/ModEntities/Items/Overhauls/Generic/MeleeWeapon.cs:186-205 | a higher pitch never selects a lower frame of the ladder |
| MeleeWeapons.MismatchedFacingPose | Common/ModEntities/Items/Overhauls/Generic/MeleeWeapon.cs:176-178 | when the weapon's x sign differs from the player's direction the pitch is forced, giving the top frame for an upward weapon and the bottom frame otherwise |
| MeleeWeapons.MatchedFacingPose | Common/ModEntities/Items/Overhauls/Generic/MeleeWeapon.cs:176-178 | when the signs agree the computed pitch is used unchanged |
| MeleeWeapons.MeleeWeapon.UseItemFrame | Common/ModEntities/Items/Overhauls/Generic/MeleeWeapon.cs:168-221 | body frame from the ladder on the forced pitch of the wrapped rotation (SwingPose), hand at the centre plus the pose offset with x mirrored by direction (HandLocation), item rotation = wrapped rotation + π/4 (+ π/2 facing left), and a bracing leg frame (Walk8 or Jump for a mostly horizontal attack, by flip; Walk13 otherwise) only when the vertical velocity is 0 and no direction key is held, the leg frame kept otherwise |
| MeleeWeapons.HandLocation | Common/ModEntities/Items/Overhauls/Generic/MeleeWeapon.cs:213 | the hand is at the centre's height plus the offset's; facing right it is centre + offset, facing left the offset's x is mirrored |
| MeleeWeapons.VelocityDamageScale | Common/ModEntities/Items/Overhauls/Generic/MeleeWeapon.cs:233 | the scale is at least 1 and at least 0.78 + speed/8, and equals one of the two |
| MeleeWeapons.VelocityDamageScaleExamples | Common/ModEntities/Items/Overhauls/Generic/MeleeWeapon.cs:233 | speed 0 gives 1 (not 0.78), speed 8 gives 1.78, speed 1.76 gives exactly 1 |
| MeleeWeapons.ScaledDamageNotLess | Common/ModEntities/Items/Overhauls/Generic/MeleeWeapon.cs:236 | a non-negative damage scaled by at least 1 and rounded is never lower |
| MeleeWeapons.ScaledDamageExamples | Common/ModEntities/Items/Overhauls/Generic/MeleeWeapon.cs:233-236 | 10 at scale 1.25 gives 12 and 2 at scale 1.75 gives 4 (ties to even), 20 at speed 8 gives 36, and 7 at rest stays 7 |
| MeleeWeapons.ScaleLabel | Common/ModEntities/Items/Overhauls/Generic/MeleeWeapon.cs:242-243 | the label reads "(CRITx<scale>)" on a crit and "(x<scale>)" otherwise |
| MeleeWeapons.GradientScale | Common/ModEntities/Items/Overhauls/Generic/MeleeWeapon.cs:244-252 | the colour is sampled at the scale, doubled on a crit; so at 1 or more for any hit and at 2 or more for a crit |
| MeleeWeapons.MeleeWeapon.ModifyHitNPC | Common/ModEntities/Items/Overhauls/Generic/MeleeWeapon.cs:228-270 | without velocity-based damage nothing changes; with it knockback is multiplied by the scale, damage becomes the half-to-even rounding of damage·scale, and off a dedicated server one filter with priority 1, the label and the gradient input is registered; non-negative damage and knockback never decrease |
| MeleeWeapons.OnHitNPC | Common/ModEntities/Items/Overhauls/Generic/MeleeWeapon.cs:271-276 | every hit sets the target's attack cooldown to 20 ticks, marked authoritative |
| PlayerExtensions.IsLocal | Utilities/Extensions/PlayerExtensions.cs:11 | true exactly when the player's whoAmI is the local player's index |
| PlayerExtensions.OnGround | Utilities/Extensions/PlayerExtensions.cs:13 | true exactly when the vertical velocity is 0 |
| PlayerExtensions.WasOnGround | Utilities/Extensions/PlayerExtensions.cs:14 | true exactly when the previous vertical velocity is 0 |
| PlayerExtensions.KeyDirection | Utilities/Extensions/PlayerExtensions.cs:16 | -1 exactly when left is held (even with right), 1 exactly when only right is held, 0 exactly when neither is |
| PlayerExtensions.AccessoriesBelowSpec | Utilities/Extensions/PlayerExtensions.cs:30-39 | the accessories below a slot bound are exactly the non-null active items of slots 3 and up, each with its slot, in ascending slot order |
| PlayerExtensions.EnumerateAccessories | Utilities/Extensions/PlayerExtensions.cs:30-39 | yields, in ascending order, exactly the slots 3 ≤ i < 8 + extraAccessorySlots holding a non-null active item |
| PlayerExtensions.AnyOfType | Utilities/Extensions/PlayerExtensions.cs:20 | true exactly when some accessory of the sequence has the item type |
| PlayerExtensions.AnyListed | Utilities/Extensions/PlayerExtensions.cs:25-27 | true exactly when some accessory's type is listed |
| PlayerExtensions.AllListed | Utilities/Extensions/PlayerExtensions.cs:25-27 | true exactly when every accessory's type is listed (so true for none) |
| PlayerExtensions.HasAccessory | Utilities/Extensions/PlayerExtensions.cs:20 | true exactly when some equipped accessory slot holds the item type |
| PlayerExtensions.HasAccessories | Utilities/Extensions/PlayerExtensions.cs:21-28 | with any, true exactly when some equipped accessory's type is listed; without, exactly when every equipped accessory's type is listed, vacuously when none is equipped |
| PlayerExtensions.FirstNegative | Utilities/Extensions/PlayerExtensions.cs:56-61 | the slot where the hook scan stops: every earlier id is non-negative and the id there, if any, is negative |
| PlayerExtensions.HooksBelowSpec | Utilities/Extensions/PlayerExtensions.cs:54-69 | the hooks below a bound are exactly the slots whose projectile is non-null and active, with that projectile, in ascending slot order |
| PlayerExtensions.EnumerateGrapplingHooks | Utilities/Extensions/PlayerExtensions.cs:54-69 | visits slots in order and stops at the first negative id; yields exactly the non-null active projectiles of the earlier slots with their slot, ascending |
| PlayerExtensions.ReleasedIsFilter | Utilities/Extensions/PlayerExtensions.cs:45-46 | the released hooks are exactly the enumerated hooks that are latched (ai[0] == 2) and not exceptFor |
| PlayerExtensions.ReleasedSlotsAreReleasedHooks | Utilities/Extensions/PlayerExtensions.cs:43-52 | a slot is released exactly when it is the slot of a released enumerated hook |
| PlayerExtensions.StopGrappling | Utilities/Extensions/PlayerExtensions.cs:43-52 | every released slot becomes -1 and its hook is killed, in slot order; every other slot keeps its id |
| Bows.ShouldApplyItemOverhaul | Common/ModEntities/Items/Overhauls/Generic/Bow.cs:17-35 | false for an item that does not shoot or has a melee hitbox, for one that does not use arrows, and for a tool or placeable; true exactly when none of these holds |
| Bows.WoodenBowQualifies | Common/ModEntities/Items/Overhauls/Generic/Bow.cs:17-35 | an arrow-firing, no-melee, non-tool item is a bow |
| Bows.SetDefaults | Common/ModEntities/Items/Overhauls/Generic/Bow.cs:37-44 | the host's Item5 use sound becomes the bow fire sound, any other use sound is kept, and no other field changes |
| Bows.SetDefaultsIdempotent | Common/ModEntities/Items/Overhauls/Generic/Bow.cs:41-43 | applying the defaults twice gives the same item as once |
| Bows.SetDefaultsKeepsEligibility | Common/ModEntities/Items/Overhauls/Generic/Bow.cs:17-44 | replacing the sound does not change whether the item is a bow |
| Bows.ShowItemCrosshair | Common/ModEntities/Items/Overhauls/Generic/Bow.cs:46 | always true |
| Gradients.EvaluatorHypothesesSatisfiable | Common/ModEntities/Players/PlayerHealthEffects.cs:48 | an evaluator that returns the first value up to the first key and the last value after it both holds the ends and stays within the values |
| HealthEffects.LowHealthEffectGradientWellFormed | Common/ModEntities/Players/PlayerHealthEffects.cs:19-24 | the keys 0, 20, 50, 100 are strictly increasing and every value lies in [0,1] |
| HealthEffects.GoalIntensity | Common/ModEntities/Players/PlayerHealthEffects.cs:48 | with an evaluator that stays within the table's values the goal lies in [0,1]; with one that holds the ends of a strictly increasing table (this one is) it is 1 at 0 life or less and 0 at 100 life or more |
| HealthEffects.NextIntensity | Common/ModEntities/Players/PlayerHealthEffects.cs:48-50 | when StepTowards steps towards its goal by at most the step and deltaTime is not negative, the intensity moves by at most 0.75·deltaTime, and from [0,1] it stays in [0,1] when the evaluator also stays within the table's values |
| HealthEffects.StepsTowardsSatisfiable | Common/ModEntities/Players/PlayerHealthEffects.cs:50 | clamped stepping (move by the step, never past the goal) meets the StepTowards hypothesis |
| HealthEffects.ApplyLowPass | Common/ModEntities/Players/PlayerHealthEffects.cs:59-64 | the music gains added·intensity low-pass filtering and the sounds exactly 0.75 times the music's gain |
| HealthEffects.LowPassFiltersMusicMore | Common/ModEntities/Players/PlayerHealthEffects.cs:62-63 | with positive filtering and strength both channels gain filtering and the music gains more than the sounds |
| HealthEffects.TickEvents | Common/ModEntities/Players/PlayerHealthEffects.cs:53-69 | the audio modifier (priority 30, named TerrariaOverhaul/PlayerHealthEffects) is registered only for a positive intensity, followed by the looping sound at that volume |
| HealthEffects.BloodDusts | Common/ModEntities/Players/PlayerHealthEffects.cs:74-78 | n dust events, each a blood dust over the player's box |
| HealthEffects.DrainLeavesFraction | Common/ModEntities/Players/PlayerHealthEffects.cs:74-78 | after draining whole units the counter is below 1, not negative if it started at 1 or more, and untouched if it started below 1 |
| HealthEffects.PlayerHealthEffects.constructor | Common/ModEntities/Players/PlayerHealthEffects.cs:26-28 | intensity and bleeding counter start at 0, so the state invariant holds (intensity in [0,1], counter in [0,1)) |
| HealthEffects.PlayerHealthEffects.Update | Common/ModEntities/Players/PlayerHealthEffects.cs:38-45 | for a player other than the local one nothing changes and no event is produced; for the local one it is the low-health update; the state invariant is kept when StepTowards and the evaluator meet their hypotheses and deltaTime is not negative |
| HealthEffects.PlayerHealthEffects.UpdateLowHealthEffects | Common/ModEntities/Players/PlayerHealthEffects.cs:46-79 | the intensity steps towards the goal by 0.75·deltaTime; the counter gains exactly intensity/4 and then loses one per dust, ending below 1, and (counter before the drain) − (counter after) equals the number of blood dusts spawned; events are the modifier (if the intensity is positive), the looping sound and the dusts; the state invariant (intensity in [0,1], counter in [0,1)) is kept when StepTowards and the evaluator meet their hypotheses and deltaTime is not negative |

## Left out

- MeleeWeapon.Load (MeleeWeapon.cs:85-112) rewrites the host's compiled player code to remove the melee attack cooldown; it is code patching with no state of its own, and its failure case is an exception at load time.
- MeleeWeapon.SetDefaults (MeleeWeapon.cs:113-123) and the static sound styles of the bow and the health effects are asset registration; only the bow's fire sound path is kept, as `Bows.BowFireSound`.
- The combat-text filter's body (MeleeWeapon.cs:254-266): font measurement, position tweaks, colour evaluation and the CombatText.NewText call are rendering; the model keeps the filter's priority, label, gradient input and crit flag.
- Debug rendering and commented-out code (MeleeWeapon.cs:182, 199-204, 223-225, 260-264).
- The base-class calls (base.HoldItem, base.UseItemFrame, base.ModifyHitNPC, base.OnHitNPC, base.SetDefaults) belong to classes that are not part of this model.
- Gradient<T>.GetValue, the rectangle-versus-arc test, SafeNormalize, ToRotation, ToRotationVector2, Vector2.Length, MathUtils and StepTowards are uninterpreted parameters; nothing is assumed of them beyond the four named hypotheses (HoldsEnds and StaysWithinValues of the evaluator, FallsBackOnZero of SafeNormalize, StepsTowards of StepTowards) where a contract says so.
- IEEE single-precision behaviour: floats are reals, so rounding of intermediate results is not modelled; the 0/0 case of the swing step (NaN) is excluded by `MeleeWeapons.StepDefined`, while a zero maximum with a non-zero animation is modelled as the clamped infinity.
- MeleeWeapons.MeleeWeapon.ModifyHitNPC: the (int) conversion of the rounded damage is not modelled as overflowing; damage is an unbounded integer.
- MeleeWeapons.MeleeWeapon.UseAnimation: `AttackNumber++` wraps at int.MaxValue in the source; the model's counter is an unbounded integer, so the wrap-around is not modelled.
- The melee overhaul is an abstract class (MeleeWeapon.cs:19) whose ShouldBeAttacking, GetAttackRange, GetHeavyness and GetWeaponRotation are virtual; the model gives them the base bodies and does not model overrides in subclasses, so CanHitNPC, HoldItem and UseItemFrame are stated for the base behaviour only (VelocityBasedDamage alone is a parameter).
- MeleeWeapons.MeleeWeapon.CanHitNPC: the source returns a nullable bool; the model returns a plain bool because the source never returns null.
- Bows.SetDefaults: the source compares sound styles with their own equality; the model compares them as values.
- Projectile identity in StopGrappling's `grapplingHook != exceptFor` is modelled by comparing projectile values, whose `whoAmI` slot stands for the object.
- Projectile.Kill is returned as the list of killed hooks; its effect of deactivating the projectile (which would matter only if one projectile id appeared twice in `grappling`) is not modelled.
- HitGore is returned as the list of knocked gore slots; its effect on the gore (velocity, in-world state) belongs to the gore class, which is not part of this model.
- Reading a slot outside `armor` or an id outside the projectile table throws in the source; the model requires the slots to exist (`AccessorySlotsExist`, `HookIdsValid`) instead of modelling the exception.
- PostUpdate and UpdateDead only call Update and are not modelled separately; the client-only autoload attribute and PlayerHealthEffects.Load (sound registration with the audio system) are left out.
- The looping-sound slot handle kept by PlayerHealthEffects is owned by the sound system; the model records each tick's request as a `LoopingSound` event instead.
