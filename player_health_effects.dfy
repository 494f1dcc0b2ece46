/** The local player's low-health effects
    (Common/ModEntities/Players/PlayerHealthEffects.cs): an intensity that
    follows the player's life through a keyframe table, a low-pass audio
    modifier, a looping sound, and a bleeding counter that spawns one blood
    dust per whole unit. The effects on the audio, sound and dust systems are
    returned as events. */
module HealthEffects {
  import opened Host
  import opened Gradients
  import opened PlayerExtensions

  /** Intensity by life: full at 20 life or less, none from 50 up. */
  const LowHealthEffectGradient: seq<Keyframe<real>> := [
    Keyframe(0.0, 1.0),
    Keyframe(20.0, 1.0),
    Keyframe(50.0, 0.0),
    Keyframe(100.0, 0.0)
  ]

  lemma LowHealthEffectGradientWellFormed()
    ensures StrictlyIncreasing(LowHealthEffectGradient)
    ensures ValuesWithin(LowHealthEffectGradient, 0.0, 1.0)
  {
    AdjacentIncreasingIsIncreasing(LowHealthEffectGradient);
  }

  /** Priority and name under which the audio modifier is registered. */
  const ModifierPriority: int := 30
  const ModifierName: string := "TerrariaOverhaul/PlayerHealthEffects"

  /** The routines the update calls whose code is not part of this model. */
  datatype HealthCollaborators = HealthCollaborators(
    /** Gradient<float>.GetValue(table, position) */
    gradient: RealEvaluator,
    /** MathUtils.StepTowards(value, goal, step) */
    stepTowards: (real, real, real) -> real)

  /** The intensity the effect moves towards at the given life. */
  function GoalIntensity(statLife: int, env: HealthCollaborators): (g: real)
    ensures StaysWithinValues(env.gradient) ==> 0.0 <= g <= 1.0
    ensures HoldsEnds(env.gradient) && statLife <= 0 ==> g == 1.0
    ensures HoldsEnds(env.gradient) && statLife >= 100 ==> g == 0.0
  {
    LowHealthEffectGradientWellFormed();
    env.gradient(LowHealthEffectGradient, statLife as real)
  }

  /** The documented behaviour of StepTowards(value, goal, step) for a
      non-negative step: the result lies between value and goal and is at
      most `step` away from value. */
  ghost predicate StepsTowards(stepTowards: (real, real, real) -> real)
  {
    forall v: real, g: real, d: real {:trigger stepTowards(v, g, d)} ::
      d >= 0.0 ==> Min(v, g) <= stepTowards(v, g, d) <= Max(v, g) && Abs(stepTowards(v, g, d) - v) <= d
  }

  /** A step function with that behaviour: move by `d`, stopping at the goal. */
  function StepTowardsByAtMost(v: real, g: real, d: real): real
  {
    if v < g then Min(v + d, g) else Max(v - d, g)
  }

  /** The hypothesis can be met, so results stated under it are not vacuous. */
  lemma StepsTowardsSatisfiable()
    ensures StepsTowards(StepTowardsByAtMost)
  {
  }

  /** The intensity stepped towards the goal by at most 0.75 per second. With
      a well-behaved step and evaluator an intensity in [0,1] stays in [0,1]. */
  function NextIntensity(intensity: real, statLife: int, deltaTime: real, env: HealthCollaborators): (r: real)
    ensures StepsTowards(env.stepTowards) && deltaTime >= 0.0 ==> Abs(r - intensity) <= 0.75 * deltaTime
    ensures StepsTowards(env.stepTowards) && StaysWithinValues(env.gradient) && deltaTime >= 0.0 && 0.0 <= intensity <= 1.0 ==>
      0.0 <= r <= 1.0
  {
    var goalLowHealthEffectIntensity := GoalIntensity(statLife, env);
    env.stepTowards(intensity, goalLowHealthEffectIntensity, 0.75 * deltaTime)
  }

  /** Low-pass filtering of the sound and the music channels. */
  datatype AudioParams = AudioParams(soundLowPass: real, musicLowPass: real)

  /** The registered modifier's callback: it adds `added * intensity` low-pass
      filtering to the music and three quarters of that to the sounds. */
  function ApplyLowPass(added: real, intensity: real, p: AudioParams): (q: AudioParams)
    ensures q.soundLowPass - p.soundLowPass == 0.75 * (q.musicLowPass - p.musicLowPass)
    ensures q.musicLowPass - p.musicLowPass == added * intensity
  {
    AudioParams(p.soundLowPass + added * intensity * 0.75, p.musicLowPass + added * intensity)
  }

  /** With positive filtering and strength, both channels get more filtering
      and the music more than the sounds. */
  lemma LowPassFiltersMusicMore(added: real, intensity: real, p: AudioParams)
    requires added > 0.0 && intensity > 0.0
    ensures var q := ApplyLowPass(added, intensity, p);
      p.soundLowPass < q.soundLowPass && q.soundLowPass - p.soundLowPass < q.musicLowPass - p.musicLowPass
  {
    assert added * intensity > 0.0;
  }

  /** The effects that one update hands to the audio, sound and dust systems. */
  datatype HealthEvent =
    | AudioModifier(priority: int, name: string, addedLowPassFiltering: real)
    | LoopingSound(volume: real, position: Vec2)
    | BloodDust(position: Vec2, width: int, height: int)

  /** `n` blood dusts over the given box. */
  function BloodDusts(n: nat, position: Vec2, width: int, height: int): (d: seq<HealthEvent>)
    ensures |d| == n
    ensures forall k :: 0 <= k < n ==> d[k] == BloodDust(position, width, height)
  {
    if n == 0 then [] else BloodDusts(n - 1, position, width, height) + [BloodDust(position, width, height)]
  }

  /** How many whole units the drain loop takes out of a counter. */
  function DustCount(counter: real): nat
  {
    if counter >= 1.0 then counter.Floor else 0
  }

  /** After the drain the counter is below 1, not negative when it started at
      1 or more, and unchanged when it started below 1. */
  lemma DrainLeavesFraction(counter: real)
    ensures counter - DustCount(counter) as real < 1.0
    ensures counter >= 1.0 ==> 0.0 <= counter - DustCount(counter) as real
    ensures counter < 1.0 ==> DustCount(counter) == 0
  {
  }

  /** The audio modifier (only for a positive intensity) and the looping
      sound at that volume, in registration order. */
  function TickEvents(intensity: real, screenCenter: Vec2): (e: seq<HealthEvent>)
    ensures intensity > 0.0 ==> e == [AudioModifier(ModifierPriority, ModifierName, intensity), LoopingSound(intensity, screenCenter)]
    ensures intensity <= 0.0 ==> e == [LoopingSound(intensity, screenCenter)]
  {
    (if intensity > 0.0 then [AudioModifier(ModifierPriority, ModifierName, intensity)] else []) + [LoopingSound(intensity, screenCenter)]
  }

  class PlayerHealthEffects {
    const player: Player
    var lowHealthEffectIntensity: real
    var lowHealthBleedingCounter: real

    /** The intensity lies in [0,1] and the bleeding counter in [0,1). */
    ghost predicate Valid()
      reads this
    {
      0.0 <= lowHealthEffectIntensity <= 1.0 && 0.0 <= lowHealthBleedingCounter < 1.0
    }

    constructor (player: Player)
      ensures this.player == player
      ensures lowHealthEffectIntensity == 0.0 && lowHealthBleedingCounter == 0.0
      ensures Valid()
    {
      this.player := player;
      lowHealthEffectIntensity := 0.0;
      lowHealthBleedingCounter := 0.0;
    }

    /** The per-tick update: nothing at all for a player other than the local one. */
    method Update(myPlayer: int, deltaTime: real, screenCenter: Vec2, env: HealthCollaborators)
        returns (events: seq<HealthEvent>)
      modifies this`lowHealthEffectIntensity, this`lowHealthBleedingCounter
      ensures !IsLocal(player, myPlayer) ==>
        events == [] && lowHealthEffectIntensity == old(lowHealthEffectIntensity) &&
        lowHealthBleedingCounter == old(lowHealthBleedingCounter)
      ensures IsLocal(player, myPlayer) ==>
        lowHealthEffectIntensity == NextIntensity(old(lowHealthEffectIntensity), player.statLife, deltaTime, env)
      ensures IsLocal(player, myPlayer) ==>
        var added := old(lowHealthBleedingCounter) + lowHealthEffectIntensity / 4.0;
        && lowHealthBleedingCounter < 1.0
        && added - lowHealthBleedingCounter == DustCount(added) as real
        && events == TickEvents(lowHealthEffectIntensity, screenCenter) + BloodDusts(DustCount(added), player.position, player.width, player.height)
      ensures StepsTowards(env.stepTowards) && StaysWithinValues(env.gradient) && deltaTime >= 0.0 && old(Valid()) ==> Valid()
    {
      events := [];
      if !IsLocal(player, myPlayer) {
        return;
      }
      events := UpdateLowHealthEffects(deltaTime, screenCenter, env);
    }

    /** Steps the intensity towards the goal by 0.75 per second, registers the
        audio modifier and the looping sound, adds a quarter of the intensity
        to the bleeding counter and spawns one blood dust per whole unit. */
    method UpdateLowHealthEffects(deltaTime: real, screenCenter: Vec2, env: HealthCollaborators)
        returns (events: seq<HealthEvent>)
      modifies this`lowHealthEffectIntensity, this`lowHealthBleedingCounter
      ensures lowHealthEffectIntensity == NextIntensity(old(lowHealthEffectIntensity), player.statLife, deltaTime, env)
      ensures var added := old(lowHealthBleedingCounter) + lowHealthEffectIntensity / 4.0;
        && lowHealthBleedingCounter < 1.0
        && (added >= 1.0 ==> lowHealthBleedingCounter >= 0.0)
        && (added < 1.0 ==> lowHealthBleedingCounter == added)
        && added - lowHealthBleedingCounter == DustCount(added) as real
        && events == TickEvents(lowHealthEffectIntensity, screenCenter) + BloodDusts(DustCount(added), player.position, player.width, player.height)
      ensures StepsTowards(env.stepTowards) && StaysWithinValues(env.gradient) && deltaTime >= 0.0 && old(Valid()) ==> Valid()
    {
      lowHealthEffectIntensity := NextIntensity(lowHealthEffectIntensity, player.statLife, deltaTime, env);
      events := [];
      if lowHealthEffectIntensity > 0.0 {
        var addedLowPassFiltering := lowHealthEffectIntensity;
        events := events + [AudioModifier(ModifierPriority, ModifierName, addedLowPassFiltering)];
      }
      events := events + [LoopingSound(lowHealthEffectIntensity, screenCenter)];
      ghost var head := events;
      lowHealthBleedingCounter := lowHealthBleedingCounter + lowHealthEffectIntensity / 4.0;
      ghost var added := lowHealthBleedingCounter;
      var dusts: nat := 0;
      while lowHealthBleedingCounter >= 1.0
        modifies this`lowHealthBleedingCounter
        invariant lowHealthBleedingCounter == added - dusts as real
        invariant added < 1.0 ==> dusts == 0
        invariant added >= 1.0 ==> lowHealthBleedingCounter >= 0.0
        invariant events == head + BloodDusts(dusts, player.position, player.width, player.height)
        decreases lowHealthBleedingCounter.Floor
      {
        events := events + [BloodDust(player.position, player.width, player.height)];
        dusts := dusts + 1;
        lowHealthBleedingCounter := lowHealthBleedingCounter - 1.0;
      }
      assert dusts == DustCount(added);
    }
  }
}
