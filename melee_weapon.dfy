/** The generic melee weapon behaviour
    (Common/ModEntities/Items/Overhauls/Generic/MeleeWeapon.cs): per-attacker
    attack state, the swing-rotation keyframe table, the arc-based hit gate, the
    gore scan, the pose ladder and the velocity-based damage scaling. */
module MeleeWeapons {
  import opened Host
  import opened Gradients
  import opened PlayerExtensions

  /** The routines the weapon calls whose code is not part of this model. */
  datatype Collaborators = Collaborators(
    /** Gradient<float>.GetValue(table, position) */
    gradient: RealEvaluator,
    /** CollisionUtils.CheckRectangleVsArcCollision(rect, origin, angle, halfArc, radius) */
    arcTest: (Rect, Vec2, real, real, real) -> bool,
    /** Vector2.Length */
    length: Vec2 -> real,
    /** Vector2.SafeNormalize(vector, fallback) */
    safeNormalize: (Vec2, Vec2) -> Vec2,
    /** Vector2.ToRotation */
    toRotation: Vec2 -> real,
    /** float.ToRotationVector2 */
    toRotationVector: real -> Vec2,
    /** MathUtils.Modulo */
    modulo: (real, real) -> real,
    /** MathUtils.RadiansToPitch */
    radiansToPitch: real -> real,
    /** MathUtils.InverseLerp */
    inverseLerp: (real, real, real) -> real,
    /** formatting of a number with the pattern "0.00" */
    formatScale: real -> string)

  /** SafeNormalize returns its fallback for the zero vector. */
  ghost predicate FallsBackOnZero(safeNormalize: (Vec2, Vec2) -> Vec2)
  {
    forall fallback {:trigger safeNormalize(Zero, fallback)} :: safeNormalize(Zero, fallback) == fallback
  }

  /** A normalizer that always answers with the fallback. */
  function FallbackNormalize(v: Vec2, fallback: Vec2): Vec2
  {
    fallback
  }

  /** The SafeNormalize hypothesis can be met. */
  lemma FallsBackOnZeroSatisfiable()
    ensures FallsBackOnZero(FallbackNormalize)
  {
  }

  /** Colour of the damage-scale combat text, by gradient scale. */
  const DamageScaleColor: seq<Keyframe<Color>> := [
    Keyframe(0.0, Black),
    Keyframe(1.0, LightGray),
    Keyframe(1.25, Green),
    Keyframe(1.75, Yellow),
    Keyframe(2.5, Red)
  ]

  lemma DamageScaleColorIncreasing()
    ensures StrictlyIncreasing(DamageScaleColor)
  {
    AdjacentIncreasingIsIncreasing(DamageScaleColor);
  }

  const HeaviestSpeed: real := 0.5
  const LightestSpeed: real := 5.0
  /** Main.maxGore, the number of gore slots the scan visits. */
  const MaxGore: int := 600
  /** At most this many gores are knocked per frame. */
  const MaxHits: int := 5
  /** Gores younger than this are skipped. */
  const GoreMinTime: real := 30.0
  /** Half-angle of the attack arc. */
  const AttackHalfArc: real := Pi * 0.5
  /** Cooldown set on a target when it is hit. */
  const HitCooldown: int := 20

  /** The length of the item's size scaled by 1.25 times its scale. */
  function GetAttackRange(item: Item, env: Collaborators): (r: real)
    ensures r == env.length(Vec2(item.width as real, item.height as real).Scaled(item.scale * 1.25))
  {
    var size := Vec2(item.width as real, item.height as real);
    assert size.Scaled(item.scale * 1.25) == size.Scaled(item.scale).Scaled(1.25);
    env.length(size.Scaled(item.scale).Scaled(1.25))
  }

  /** The range depends on the item's size and scale only. */
  lemma AttackRangeDependsOnSize(a: Item, b: Item, env: Collaborators)
    requires a.width == b.width && a.height == b.height && a.scale == b.scale
    ensures GetAttackRange(a, env) == GetAttackRange(b, env)
  {
  }

  /** Uses per second: 1 / (max(1, useAnimation) / 60). */
  function UseSpeed(item: Item): real
  {
    1.0 / ((if item.useAnimation >= 1 then item.useAnimation else 1) as real / 60.0)
  }

  /** How heavy the weapon feels, from its use speed only. */
  function GetHeavyness(item: Item, env: Collaborators): (r: real)
    ensures 0.0 <= r <= 1.0
    ensures var t := env.inverseLerp(UseSpeed(item), LightestSpeed, HeaviestSpeed);
      0.0 <= t <= 1.0 ==> r == t
  {
    var speedResult := Clamp(env.inverseLerp(UseSpeed(item), LightestSpeed, HeaviestSpeed), 0.0, 1.0);
    Clamp(speedResult, 0.0, 1.0)
  }

  /** The item's size does not enter the heaviness. */
  lemma HeavynessIgnoresSize(a: Item, b: Item, env: Collaborators)
    requires a.useAnimation == b.useAnimation
    ensures GetHeavyness(a, env) == GetHeavyness(b, env)
  {
  }

  predicate ShouldBeAttacking(player: Player): (r: bool)
    reads player
    ensures r <==> player.itemAnimation > 0
  {
    player.itemAnimation > 0
  }

  // Swing rotation

  /** itemAnimation / itemAnimationMax is a number: 0 / 0 (NaN) is excluded. */
  predicate StepDefined(itemAnimation: int, itemAnimationMax: int)
  {
    itemAnimationMax != 0 || itemAnimation != 0
  }

  /** Progress of the swing, 1 - clamp(itemAnimation / itemAnimationMax, 0, 1).
      A zero maximum gives an infinite quotient, which the clamp takes to 1 or 0. */
  function AnimationStep(itemAnimation: int, itemAnimationMax: int): (s: real)
    requires StepDefined(itemAnimation, itemAnimationMax)
    ensures 0.0 <= s <= 1.0
    ensures itemAnimationMax > 0 && itemAnimation >= itemAnimationMax ==> s == 0.0
    ensures itemAnimationMax > 0 && itemAnimation <= 0 ==> s == 1.0
  {
    if itemAnimationMax == 0 then
      if itemAnimation > 0 then 0.0 else 1.0
    else
      1.0 - Clamp(itemAnimation as real / itemAnimationMax as real, 0.0, 1.0)
  }

  lemma DivMonotone(a: real, b: real, m: real)
    requires m > 0.0 && a <= b
    ensures a / m <= b / m
  {
    assert b / m - a / m == (b - a) / m;
  }

  /** itemAnimation counts down during a swing, so the step only grows. */
  lemma StepGrowsAsAnimationRunsDown(later: int, earlier: int, itemAnimationMax: int)
    requires itemAnimationMax > 0 && later <= earlier
    ensures AnimationStep(later, itemAnimationMax) >= AnimationStep(earlier, itemAnimationMax)
  {
    DivMonotone(later as real, earlier as real, itemAnimationMax as real);
  }

  datatype Bounds = Bounds(min: real, max: real)

  /** The attack's facing: the player's direction, negated for a flipped attack. */
  function Facing(direction: int, flippedAttack: bool): int
  {
    direction * (if flippedAttack then -1 else 1)
  }

  /** The swing's start and end angles around the attack angle: 1.25 right
      angles behind and one right angle ahead, swapped for a negative facing. */
  function SwingBounds(baseAngle: real, direction: int, flippedAttack: bool): (b: Bounds)
    ensures b == Bounds(baseAngle - 1.25 * PiOver2, baseAngle + PiOver2) ||
            b == Bounds(baseAngle + PiOver2, baseAngle - 1.25 * PiOver2)
    ensures b.min > b.max <==> Facing(direction, flippedAttack) < 0
  {
    var minValue := baseAngle - PiOver2 * 1.25;
    var maxValue := baseAngle + PiOver2 * 1.0;
    if Facing(direction, flippedAttack) < 0 then Bounds(maxValue, minValue) else Bounds(minValue, maxValue)
  }

  /** The seven-key swing curve: hold at the start angle, a slow wind-up to
      0.15, a snap at 0.151 to 80% of the way, the end angle at 0.5, then a
      settle back to 80% held to the end. */
  function SwingTable(b: Bounds): (t: seq<Keyframe<real>>)
    ensures |t| == 7 && StrictlyIncreasing(t)
    ensures t[0].position == 0.0 && t[6].position == 1.0
    ensures t[0].value == b.min && t[1] == Keyframe(0.1, b.min)
    ensures t[2] == Keyframe(0.15, Lerp(b.min, b.max, 0.125))
    ensures t[5].position == 0.8
    ensures t[4].position == 0.5 && t[4].value == b.max
    ensures t[3].position == 0.151 && forall k :: 3 <= k < 7 ==> t[k].position >= 0.151
    ensures t[3].value == Lerp(b.min, b.max, 0.8) && t[5].value == Lerp(b.min, b.max, 0.8) && t[6].value == Lerp(b.min, b.max, 0.8)
    ensures ValuesWithin(t, Min(b.min, b.max), Max(b.min, b.max))
  {
    var t := [
      Keyframe(0.0, b.min),
      Keyframe(0.1, b.min),
      Keyframe(0.15, Lerp(b.min, b.max, 0.125)),
      Keyframe(0.151, Lerp(b.min, b.max, 0.8)),
      Keyframe(0.5, b.max),
      Keyframe(0.8, Lerp(b.min, b.max, 0.8)),
      Keyframe(1.0, Lerp(b.min, b.max, 0.8))
    ];
    AdjacentIncreasingIsIncreasing(t);
    t
  }

  // Pose

  /** A body frame and the hand offset that goes with it. */
  datatype Pose = Pose(frame: Frame, offset: Vec2)

  /** The five-way ladder from pitch (1 up, 0 down) to body frame and offset. */
  function SelectPose(pitch: real): (r: Pose)
    ensures r.frame == Use1 <==> pitch > 0.95
    ensures r.frame == Use2 <==> 0.7 < pitch <= 0.95
    ensures r.frame == Use3 <==> 0.3 < pitch <= 0.7
    ensures r.frame == Use4 <==> 0.05 < pitch <= 0.3
    ensures r.frame == Walk5 <==> pitch <= 0.05
    ensures r.frame == Use1 ==> r.offset == Vec2(-8.0, -9.0)
    ensures r.frame == Use2 ==> r.offset == Vec2(4.0, -8.0)
    ensures r.frame == Use3 ==> r.offset == Vec2(4.0, 2.0)
    ensures r.frame == Use4 ==> r.offset == Vec2(4.0, 7.0)
    ensures r.frame == Walk5 ==> r.offset == Vec2(-8.0, 2.0)
  {
    if pitch > 0.95 then Pose(Use1, Vec2(-8.0, -9.0))
    else if pitch > 0.7 then Pose(Use2, Vec2(4.0, -8.0))
    else if pitch > 0.3 then Pose(Use3, Vec2(4.0, 2.0))
    else if pitch > 0.05 then Pose(Use4, Vec2(4.0, 7.0))
    else Pose(Walk5, Vec2(-8.0, 2.0))
  }

  /** The ladder's frames from lowest (0) to highest (4) pitch. */
  function PoseRank(f: Frame): int
  {
    match f
    case Use1 => 4
    case Use2 => 3
    case Use3 => 2
    case Use4 => 1
    case _ => 0
  }

  /** The ladder has no hysteresis: a higher pitch never selects a lower frame. */
  lemma PoseLadderMonotone(low: real, high: real)
    requires low <= high
    ensures PoseRank(SelectPose(low).frame) <= PoseRank(SelectPose(high).frame)
  {
  }

  /** The pitch the ladder sees: forced to 1 (pointing up) or 0 when the weapon
      points away from the player's facing. */
  function FacingPitch(pitch: real, weaponDirection: Vec2, direction: int): real
  {
    if Sign(weaponDirection.x) != direction then
      (if weaponDirection.y < 0.0 then 1.0 else 0.0)
    else pitch
  }

  /** A weapon pointing behind the player is held straight up or low behind. */
  lemma MismatchedFacingPose(pitch: real, weaponDirection: Vec2, direction: int)
    requires Sign(weaponDirection.x) != direction
    ensures SelectPose(FacingPitch(pitch, weaponDirection, direction)) ==
      if weaponDirection.y < 0.0 then Pose(Use1, Vec2(-8.0, -9.0)) else Pose(Walk5, Vec2(-8.0, 2.0))
  {
  }

  /** A weapon pointing the way the player faces uses the pitch unchanged. */
  lemma MatchedFacingPose(pitch: real, weaponDirection: Vec2, direction: int)
    requires Sign(weaponDirection.x) == direction
    ensures SelectPose(FacingPitch(pitch, weaponDirection, direction)) == SelectPose(pitch)
  {
  }

  /** The pose for a (wrapped) weapon rotation: the ladder on the rotation's
      pitch, forced when the weapon points away from the player's facing. */
  function SwingPose(weaponRotation: real, direction: int, env: Collaborators): Pose
  {
    SelectPose(FacingPitch(env.radiansToPitch(weaponRotation), env.toRotationVector(weaponRotation), direction))
  }

  /** The hand location: the centre plus the pose offset, its x mirrored by direction. */
  function HandLocation(center: Vec2, offset: Vec2, direction: int): (l: Vec2)
    ensures l.y == center.y + offset.y
    ensures direction == 1 ==> l == center.Plus(offset)
    ensures direction == -1 ==> l == center.Plus(Vec2(-offset.x, offset.y))
  {
    center.Plus(Vec2(offset.x * direction as real, offset.y))
  }

  // Hitting

  /** max(1, 0.78 + speed / 8) */
  function VelocityDamageScale(speed: real): (s: real)
    ensures s >= 1.0 && s >= 0.78 + speed / 8.0
    ensures s == 1.0 || s == 0.78 + speed / 8.0
  {
    Max(1.0, 0.78 + speed / 8.0)
  }

  lemma VelocityDamageScaleExamples()
    ensures VelocityDamageScale(0.0) == 1.0
    ensures VelocityDamageScale(8.0) == 1.78
    ensures VelocityDamageScale(1.76) == 1.0
  {
  }

  /** (int)Math.Round(damage * scale) */
  function ScaledDamage(damage: int, scale: real): int
  {
    RoundHalfEven(damage as real * scale)
  }

  /** Rounding a damage scaled by at least 1 never lowers it. */
  lemma ScaledDamageNotLess(damage: int, scale: real)
    requires damage >= 0 && scale >= 1.0
    ensures ScaledDamage(damage, scale) >= damage
  {
    assert damage as real * scale - damage as real == damage as real * (scale - 1.0);
    assert damage as real * (scale - 1.0) >= 0.0;
  }

  /** Scaled damage at a few speeds, ties going to the even neighbour. */
  lemma ScaledDamageExamples()
    ensures ScaledDamage(10, VelocityDamageScale(3.76)) == 12
    ensures ScaledDamage(2, VelocityDamageScale(7.76)) == 4
    ensures ScaledDamage(20, VelocityDamageScale(8.0)) == 36
    ensures ScaledDamage(7, VelocityDamageScale(0.0)) == 7
  {
  }

  /** The "(CRITx1.23)" / "(x1.23)" label of the damage-scale text (the
      charged-attack marker is never set). */
  function ScaleLabel(crit: bool, scale: real, formatScale: real -> string): (s: string)
    ensures crit ==> s == "(CRITx" + formatScale(scale) + ")"
    ensures !crit ==> s == "(x" + formatScale(scale) + ")"
  {
    var isCharged := false;
    "(" + (if crit then "CRITx" else "")
        + (if isCharged then "POWERx" else if crit then "" else "x")
        + formatScale(scale) + ")"
  }

  /** The position on DamageScaleColor at which the text colour is sampled:
      the scale, doubled for a crit. */
  function GradientScale(crit: bool, scale: real): (g: real)
    ensures !crit ==> g == scale
    ensures crit ==> g == 2.0 * scale
    ensures scale >= 1.0 ==> g >= 1.0
    ensures crit && scale >= 1.0 ==> g >= 2.0
  {
    var isCharged := false;
    var doubled := if crit then scale * 2.0 else scale;
    if isCharged then doubled * 1.3 else doubled
  }

  /** The deferred combat-text filter registered for a scaled hit. */
  datatype CombatTextFilter = CombatTextFilter(priority: int, text: string, gradientScale: real, crit: bool)

  /** A SetAttackCooldown notification to a target's cooldown tracker. */
  datatype CooldownEvent = CooldownEvent(target: int, duration: int, authoritative: bool)

  /** On every hit the target's cooldown is set to 20 ticks, marked as the best of its class. */
  function OnHitNPC(target: int): (e: CooldownEvent)
    ensures e.target == target && e.duration == 20 && e.authoritative
  {
    CooldownEvent(target, HitCooldown, true)
  }

  // Gore scan

  /** The gore slot holds an active overhaul gore at least 30 ticks old. */
  predicate Knockable(g: Option<Gore>)
  {
    g.Some? && g.value.isOverhaul && g.value.active && g.value.time >= GoreMinTime
  }

  /** Slot `i` holds a knockable gore inside the attack arc. */
  predicate Struck(gores: seq<Option<Gore>>, i: int, env: Collaborators, origin: Vec2, angle: real, range: real)
  {
    0 <= i < |gores| && Knockable(gores[i]) && env.arcTest(gores[i].value.aabb, origin, angle, AttackHalfArc, range)
  }

  /** The struck gore slots below `n`, ascending. */
  function StruckGores(gores: seq<Option<Gore>>, n: nat, env: Collaborators, origin: Vec2, angle: real, range: real): seq<int>
    requires n <= |gores|
  {
    if n == 0 then []
    else
      StruckGores(gores, n - 1, env, origin, angle, range) +
      (if Struck(gores, n - 1, env, origin, angle, range) then [n - 1] else [])
  }

  lemma {:induction false} StruckGoresSpec(gores: seq<Option<Gore>>, n: nat, env: Collaborators, origin: Vec2, angle: real, range: real)
    requires n <= |gores|
    ensures forall i :: i in StruckGores(gores, n, env, origin, angle, range) <==> 0 <= i < n && Struck(gores, i, env, origin, angle, range)
    ensures forall k, l :: 0 <= k < l < |StruckGores(gores, n, env, origin, angle, range)| ==>
      StruckGores(gores, n, env, origin, angle, range)[k] < StruckGores(gores, n, env, origin, angle, range)[l]
  {
    if n > 0 {
      StruckGoresSpec(gores, n - 1, env, origin, angle, range);
      var before := StruckGores(gores, n - 1, env, origin, angle, range);
      var all := StruckGores(gores, n, env, origin, angle, range);
      forall k, l | 0 <= k < l < |all| ensures all[k] < all[l] {
        if l >= |before| {
          assert all[k] == before[k] && before[k] in before;
        } else {
          assert all[k] == before[k] && all[l] == before[l];
        }
      }
    }
  }

  /** The struck slots below `m` are a prefix of those below `n`. */
  lemma {:induction false} StruckGoresPrefix(gores: seq<Option<Gore>>, m: nat, n: nat, env: Collaborators, origin: Vec2, angle: real, range: real)
    requires m <= n <= |gores|
    ensures |StruckGores(gores, m, env, origin, angle, range)| <= |StruckGores(gores, n, env, origin, angle, range)|
    ensures StruckGores(gores, m, env, origin, angle, range) ==
      StruckGores(gores, n, env, origin, angle, range)[..|StruckGores(gores, m, env, origin, angle, range)|]
    decreases n - m
  {
    if m < n {
      StruckGoresPrefix(gores, m, n - 1, env, origin, angle, range);
    }
  }

  /** The first (at most five) struck slots. */
  function FirstStruck(struck: seq<int>): seq<int>
  {
    if |struck| <= MaxHits then struck else struck[..MaxHits]
  }

  /** The knocked gores are the first struck ones in slot order: at most five,
      each struck, ascending, and a struck gore is left out only when five
      earlier ones were knocked. */
  lemma KnockedAreFirstStruck(gores: seq<Option<Gore>>, env: Collaborators, origin: Vec2, angle: real, range: real)
    requires MaxGore <= |gores|
    ensures var knocked := FirstStruck(StruckGores(gores, MaxGore, env, origin, angle, range));
      && |knocked| <= MaxHits
      && (forall k :: 0 <= k < |knocked| ==> knocked[k] < MaxGore && Struck(gores, knocked[k], env, origin, angle, range))
      && (forall k, l :: 0 <= k < l < |knocked| ==> knocked[k] < knocked[l])
      && (forall i :: 0 <= i < MaxGore && Struck(gores, i, env, origin, angle, range) && i !in knocked ==>
            |knocked| == MaxHits && forall k :: 0 <= k < |knocked| ==> knocked[k] < i)
  {
    var all := StruckGores(gores, MaxGore, env, origin, angle, range);
    StruckGoresSpec(gores, MaxGore, env, origin, angle, range);
    var knocked := FirstStruck(all);
    assert forall k :: 0 <= k < |knocked| ==> knocked[k] == all[k] && all[k] in all;
    forall i | 0 <= i < MaxGore && Struck(gores, i, env, origin, angle, range) && i !in knocked
      ensures |knocked| == MaxHits && forall k :: 0 <= k < |knocked| ==> knocked[k] < i
    {
      assert i in all;
      var j :| 0 <= j < |all| && all[j] == i;
      assert j >= |knocked|;
    }
  }

  /** The attack state of one melee weapon instance. */
  class MeleeWeapon {
    /** Whether hits scale with the attacker's speed (true unless a weapon overrides it). */
    const VelocityBasedDamage: bool
    var FlippedAttack: bool
    var AttackDirection: Vec2
    var AttackAngle: real
    var AttackNumber: int

    constructor (velocityBasedDamage: bool)
      ensures VelocityBasedDamage == velocityBasedDamage
      ensures !FlippedAttack && AttackDirection == Zero && AttackAngle == 0.0 && AttackNumber == 0
    {
      VelocityBasedDamage := velocityBasedDamage;
      FlippedAttack := false;
      AttackDirection := Zero;
      AttackAngle := 0.0;
      AttackNumber := 0;
    }

    /** The swing curve evaluated at the swing's progress. For an evaluator
        that holds its end values, the swing starts at the start angle and
        ends at 80% of the way; for one that stays within the curve's values,
        the rotation lies between the two bounds. */
    function GetWeaponRotation(player: Player, env: Collaborators): (r: real)
      reads this, player
      requires StepDefined(player.itemAnimation, player.itemAnimationMax)
      ensures var b := SwingBounds(AttackAngle, player.direction, FlippedAttack);
              var s := AnimationStep(player.itemAnimation, player.itemAnimationMax);
        && (HoldsEnds(env.gradient) && s == 0.0 ==> r == b.min)
        && (HoldsEnds(env.gradient) && s == 1.0 ==> r == Lerp(b.min, b.max, 0.8))
        && (StaysWithinValues(env.gradient) ==> Min(b.min, b.max) <= r <= Max(b.min, b.max))
    {
      var bounds := SwingBounds(AttackAngle, player.direction, FlippedAttack);
      env.gradient(SwingTable(bounds), AnimationStep(player.itemAnimation, player.itemAnimationMax))
    }

    /** At the start of an attack: aim at the cursor (UnitX when the cursor is
        on the player's centre and SafeNormalize falls back on the zero vector),
        take that direction's angle, count the attack. */
    method UseAnimation(player: Player, mouseWorld: Vec2, env: Collaborators)
      modifies this`AttackDirection, this`AttackAngle, this`AttackNumber
      ensures AttackDirection == env.safeNormalize(mouseWorld.Minus(player.center), UnitX)
      ensures AttackAngle == env.toRotation(AttackDirection)
      ensures AttackNumber == old(AttackNumber) + 1
      ensures FlippedAttack == old(FlippedAttack)
      ensures FallsBackOnZero(env.safeNormalize) && mouseWorld == player.center ==>
        AttackDirection == UnitX && AttackAngle == env.toRotation(UnitX)
    {
      AttackDirection := env.safeNormalize(mouseWorld.Minus(player.center), UnitX);
      AttackAngle := env.toRotation(AttackDirection);
      AttackNumber := AttackNumber + 1;
    }

    /** No hit outside an attack; during one, the arc test with a half-arc of
        a right angle and the weapon's range decides. */
    function CanHitNPC(item: Item, player: Player, target: Rect, env: Collaborators): (r: bool)
      reads this, player
      ensures player.itemAnimation <= 0 ==> !r
      ensures player.itemAnimation > 0 ==>
        (r <==> env.arcTest(target, player.center, AttackAngle, AttackHalfArc, GetAttackRange(item, env)))
    {
      if !ShouldBeAttacking(player) then false
      else
        var range := GetAttackRange(item, env);
        env.arcTest(target, player.center, AttackAngle, Pi * 0.5, range)
    }

    /** On the first frames of an attack, knock the first five struck gores.
        Returns the slots on which HitGore(AttackDirection) is called, in call order. */
    method HoldItem(item: Item, player: Player, gores: seq<Option<Gore>>, env: Collaborators) returns (knocked: seq<int>)
      requires MaxGore <= |gores|
      ensures !(player.itemAnimation >= player.itemAnimationMax - 1 && ShouldBeAttacking(player)) ==> knocked == []
      ensures player.itemAnimation >= player.itemAnimationMax - 1 && ShouldBeAttacking(player) ==>
        knocked == FirstStruck(StruckGores(gores, MaxGore, env, player.center, AttackAngle, GetAttackRange(item, env)))
      ensures |knocked| <= MaxHits
    {
      knocked := [];
      if player.itemAnimation >= player.itemAnimationMax - 1 && ShouldBeAttacking(player) {
        var range := GetAttackRange(item, env);
        var arcRadius := Pi * 0.5;
        var numHit := 0;
        for i := 0 to MaxGore
          invariant knocked == StruckGores(gores, i, env, player.center, AttackAngle, range)
          invariant numHit == |knocked| < MaxHits
        {
          var gore := gores[i];
          if !(gore.Some? && gore.value.isOverhaul) || !gore.value.active || gore.value.time < GoreMinTime {
            continue;
          }
          if env.arcTest(gore.value.aabb, player.center, AttackAngle, arcRadius, range) {
            knocked := knocked + [i];
            numHit := numHit + 1;
            if numHit >= MaxHits {
              StruckGoresPrefix(gores, i + 1, MaxGore, env, player.center, AttackAngle, range);
              break;
            }
          }
        }
      }
    }

    /** Poses the player for the current swing: body frame and hand offset from
        the pose ladder, the offset mirrored by facing, the item rotated an
        eighth turn past the swing angle (a further quarter turn when facing
        left), and, with no vertical velocity and no direction key held, a
        bracing leg frame. */
    method UseItemFrame(player: Player, env: Collaborators)
      requires StepDefined(player.itemAnimation, player.itemAnimationMax)
      modifies player`bodyFrame, player`itemRotation, player`itemLocation, player`legFrame
      ensures player.bodyFrame == old(SwingPose(env.modulo(GetWeaponRotation(player, env), TwoPi), player.direction, env).frame)
      ensures player.itemRotation == old(env.modulo(GetWeaponRotation(player, env), TwoPi) + PiOver4 + (if player.direction < 0 then PiOver2 else 0.0))
      ensures player.itemLocation == old(HandLocation(player.center, SwingPose(env.modulo(GetWeaponRotation(player, env), TwoPi), player.direction, env).offset, player.direction))
      ensures player.legFrame ==
        old(if player.velocity.y == 0.0 && KeyDirection(player) == 0 then
              (if Abs(AttackDirection.x) > 0.5 then (if FlippedAttack then Walk8 else Jump) else Walk13)
            else player.legFrame)
    {
      var weaponRotation := env.modulo(GetWeaponRotation(player, env), TwoPi);
      var pose := SwingPose(weaponRotation, player.direction, env);
      var itemRotation := weaponRotation + PiOver4;
      if player.direction < 0 {
        itemRotation := itemRotation + PiOver2;
      }
      var itemLocation := HandLocation(player.center, pose.offset, player.direction);
      var legFrame := player.legFrame;
      if player.velocity.y == 0.0 && KeyDirection(player) == 0 {
        if Abs(AttackDirection.x) > 0.5 {
          legFrame := if FlippedAttack then Walk8 else Jump;
        } else {
          legFrame := Walk13;
        }
      }
      player.bodyFrame, player.itemRotation, player.itemLocation, player.legFrame := pose.frame, itemRotation, itemLocation, legFrame;
    }

    /** Scales a hit by the attacker's speed: knockback times the scale, damage
        times the scale rounded half to even, and (off a dedicated server) a
        combat-text filter with the scale label and the gradient position. */
    method ModifyHitNPC(player: Player, damage: int, knockback: real, crit: bool, dedServ: bool, env: Collaborators)
        returns (newDamage: int, newKnockback: real, filter: Option<CombatTextFilter>)
      ensures !VelocityBasedDamage ==> newDamage == damage && newKnockback == knockback && filter == None
      ensures VelocityBasedDamage ==>
        var scale := VelocityDamageScale(env.length(player.velocity));
        && newKnockback == knockback * scale
        && newDamage == ScaledDamage(damage, scale)
        && filter == if dedServ then None else Some(CombatTextFilter(1, ScaleLabel(crit, scale, env.formatScale), GradientScale(crit, scale), crit))
      ensures damage >= 0 ==> newDamage >= damage
      ensures knockback >= 0.0 ==> newKnockback >= knockback
    {
      newDamage, newKnockback, filter := damage, knockback, None;
      if VelocityBasedDamage {
        var velocityDamageScale := VelocityDamageScale(env.length(player.velocity));
        newKnockback := knockback * velocityDamageScale;
        newDamage := ScaledDamage(damage, velocityDamageScale);
        if damage >= 0 {
          ScaledDamageNotLess(damage, velocityDamageScale);
        }
        assert knockback >= 0.0 ==> knockback * velocityDamageScale - knockback == knockback * (velocityDamageScale - 1.0) >= 0.0;
        if !dedServ {
          var critBackup := crit;
          filter := Some(CombatTextFilter(1, ScaleLabel(critBackup, velocityDamageScale, env.formatScale),
                                          GradientScale(critBackup, velocityDamageScale), critBackup));
        }
      }
    }
  }
}
