/**
 * UAriaDamageGameplayAbility: an ability that deals one type of damage and carries the
 * damage, knockback and status-effect settings a hit should apply, once for its main
 * hits and once more ("Final") for the hit that ends it. Its class defaults are turned into
 * the FAbilityModifier the damage execution reads.
 */
module DamageGameplayAbility {
  import opened Tags
  import opened UnrealMath
  import opened AbilityTypes
  import opened CombatInterface

  /**
   * FScalableFloat: a value, optionally scaled by a curve-table row. The engine's
   * GetValueAtLevel multiplies the value by the row's value at the level when a table is
   * set, and returns the plain value when none is.
   */
  datatype ScalableFloat = ScalableFloat(value: real, hasCurveTable: bool, curveAt: int -> real)

  function GetValueAtLevel(f: ScalableFloat, level: int): (r: real)
    ensures !f.hasCurveTable ==> r == f.value
  {
    if f.hasCurveTable then f.value * f.curveAt(level) else f.value
  }

  /** FStatusEffect with its nested duration, damage-attribute, trigger, miss and stop groups flattened. */
  datatype StatusEffect = StatusEffect(
    statusEffectType: Tag,
    statusEffectChance: real,
    statusEffectDurationMin: real,
    statusEffectDurationMax: real,
    statusEffectFrequency: real,
    attributeType: Tag,
    attributeDamageAmount: real,
    additionalDamageTrigger: AdditionalDamageTriggers,
    additionalDamageAmount: real,
    randomlyMiss: RandomlyMissAnyActions,
    randomMissPercentage: real,
    randomlyStopActions: RandomlyStopAnyActions,
    reducedActionPercentage: real,
    stopAllActions: StopAllActions,
    reduceMovementSpeed: real,
    randomizeMovements: bool,
    runFromTarget: bool,
    instantKillTarget: bool,
    reduceLevels: int,
    forceAIControl: bool)

  /** One group of the ability's defaults: DamageType … StatusEffect, or FinalDamageType … FinalStatusEffect. */
  datatype DamageSettings = DamageSettings(
    damageType: Tag,
    damage: ScalableFloat,
    knockbackChance: real,
    knockbackForceMagnitude: real,
    deathImpulseMagnitude: real,
    statusEffect: StatusEffect)

  /** The ability's class defaults that the modifiers are built from (the final splash damage is not read here). */
  datatype DamageAbility = DamageAbility(active: DamageSettings, final: DamageSettings)

  /** The buffer both modifier builders multiply the configured death impulse by. */
  const DeathImpulseBuffer: real := 50.0

  /** The status-effect settings as FAbilityModifier carries them. */
  function StatusEffectOf(m: AbilityModifier): StatusEffect
  {
    StatusEffect(m.statusEffectType, m.statusEffectChance, m.statusEffectDurationMin, m.statusEffectDurationMax,
                 m.statusEffectFrequency, m.damagedAttributeType, m.damagedAttributeAmount,
                 m.additionalDamageTrigger, m.additionalDamageAmount, m.randomlyMissActions, m.randomMissPercentage,
                 m.randomlyStopActions, m.reducedActionPercentage, m.stopAllActions, m.reducedMovementSpeed,
                 m.randomizeMovements, m.runFromTarget, m.instantKillTarget, m.reducedLevels, m.forceAIControl)
  }

  /** The assignments both builders make, from one group of settings, onto a default FAbilityModifier. */
  function ModifierFrom(s: DamageSettings, abilityLevel: int): AbilityModifier
  {
    var e := s.statusEffect;
    NewAbilityModifier().(
      abilityLevel := abilityLevel,
      damageType := s.damageType,
      baseDamage := GetValueAtLevel(s.damage, abilityLevel),
      knockbackChance := s.knockbackChance,
      knockbackForceMagnitude := s.knockbackForceMagnitude,
      deathImpulseMagnitude := s.deathImpulseMagnitude * DeathImpulseBuffer,
      statusEffectType := e.statusEffectType,
      statusEffectChance := e.statusEffectChance,
      statusEffectDurationMin := e.statusEffectDurationMin,
      statusEffectDurationMax := e.statusEffectDurationMax,
      statusEffectFrequency := e.statusEffectFrequency,
      damagedAttributeType := e.attributeType,
      damagedAttributeAmount := e.attributeDamageAmount,
      additionalDamageTrigger := e.additionalDamageTrigger,
      additionalDamageAmount := e.additionalDamageAmount,
      randomlyMissActions := e.randomlyMiss,
      randomMissPercentage := e.randomMissPercentage,
      randomlyStopActions := e.randomlyStopActions,
      reducedActionPercentage := e.reducedActionPercentage,
      stopAllActions := e.stopAllActions,
      reducedMovementSpeed := e.reduceMovementSpeed,
      randomizeMovements := e.randomizeMovements,
      runFromTarget := e.runFromTarget,
      instantKillTarget := e.instantKillTarget,
      reducedLevels := e.reduceLevels,
      forceAIControl := e.forceAIControl)
  }

  /** MakeAbilityModifierFromClassDefaults: the modifier for the ability's main hits. */
  function MakeAbilityModifierFromClassDefaults(a: DamageAbility, abilityLevel: int): AbilityModifier
  {
    ModifierFrom(a.active, abilityLevel)
  }

  /** MakeFinalAbilityModifierFromClassDefaults: the modifier for the ability's final hit. */
  function MakeFinalAbilityModifierFromClassDefaults(a: DamageAbility, abilityLevel: int): AbilityModifier
  {
    ModifierFrom(a.final, abilityLevel)
  }

  /**
   * The status effect the modifier carries is the configured one, field for field: reading it
   * back out of the built modifier gives the StatusEffect it was built from.
   */
  lemma StatusEffectRoundTrip(s: DamageSettings, abilityLevel: int)
    ensures StatusEffectOf(ModifierFrom(s, abilityLevel)) == s.statusEffect
  {
  }

  /**
   * The main modifier takes the level, damage type and knockback settings as configured, the
   * damage at the ability's level, 50 times the configured death impulse, the configured
   * status effect, and leaves the knockback and death-impulse vectors at zero.
   */
  lemma MainModifierContents(a: DamageAbility, abilityLevel: int)
    ensures var m := MakeAbilityModifierFromClassDefaults(a, abilityLevel);
      && m.abilityLevel == abilityLevel
      && m.damageType == a.active.damageType
      && m.baseDamage == GetValueAtLevel(a.active.damage, abilityLevel)
      && m.knockbackChance == a.active.knockbackChance
      && m.knockbackForceMagnitude == a.active.knockbackForceMagnitude
      && m.deathImpulseMagnitude == 50.0 * a.active.deathImpulseMagnitude
      && StatusEffectOf(m) == a.active.statusEffect
      && m.knockbackForce == ZeroVector && m.deathImpulse == ZeroVector
  {
    StatusEffectRoundTrip(a.active, abilityLevel);
  }

  /**
   * The final modifier reads only the Final* settings: changing the main settings leaves it
   * alone, and it is what the main builder makes from the final settings.
   */
  lemma FinalModifierUsesFinalSettings(a: DamageAbility, otherActive: DamageSettings, abilityLevel: int)
    ensures MakeFinalAbilityModifierFromClassDefaults(a, abilityLevel)
            == MakeFinalAbilityModifierFromClassDefaults(a.(active := otherActive), abilityLevel)
    ensures MakeFinalAbilityModifierFromClassDefaults(a, abilityLevel)
            == MakeAbilityModifierFromClassDefaults(a.(active := a.final), abilityLevel)
    ensures MakeFinalAbilityModifierFromClassDefaults(a, abilityLevel).deathImpulseMagnitude == 50.0 * a.final.deathImpulseMagnitude
    ensures StatusEffectOf(MakeFinalAbilityModifierFromClassDefaults(a, abilityLevel)) == a.final.statusEffect
  {
    StatusEffectRoundTrip(a.final, abilityLevel);
  }

  /** The damage CauseDamage assigns: the curve value at the level with a curve table, else the plain value. */
  function CauseDamageMagnitude(damage: ScalableFloat, abilityLevel: int): real
  {
    if damage.hasCurveTable then GetValueAtLevel(damage, abilityLevel) else damage.value
  }

  /**
   * The table check in CauseDamage changes nothing: the magnitude is always GetDamageAtLevel,
   * the same base damage the modifier builder uses.
   */
  lemma CauseDamageIsDamageAtLevel(a: DamageAbility, abilityLevel: int)
    ensures CauseDamageMagnitude(a.active.damage, abilityLevel) == GetValueAtLevel(a.active.damage, abilityLevel)
    ensures CauseDamageMagnitude(a.active.damage, abilityLevel) == MakeAbilityModifierFromClassDefaults(a, abilityLevel).baseDamage
  {
  }

  /** The damage spec CauseDamage applies: made at level 1, with one set-by-caller magnitude. */
  datatype DamageSpec = DamageSpec(effectLevel: real, setByCallerTag: Tag, setByCallerMagnitude: real)

  function CauseDamage(a: DamageAbility, abilityLevel: int): (spec: DamageSpec)
    ensures spec.effectLevel == 1.0
    ensures spec.setByCallerTag == a.active.damageType
    ensures spec.setByCallerMagnitude == GetValueAtLevel(a.active.damage, abilityLevel)
  {
    DamageSpec(1.0, a.active.damageType, CauseDamageMagnitude(a.active.damage, abilityLevel))
  }

  /**
   * GetRandomAttackMontage: a default montage for an empty list; otherwise the entry at the
   * index FMath::RandRange(0, Num - 1) drew, given here as `roll`.
   */
  function GetRandomAttackMontage(taggedAttackMontages: seq<TaggedAttackMontage>, roll: int): (m: TaggedAttackMontage)
    requires |taggedAttackMontages| > 0 ==> 0 <= roll < |taggedAttackMontages|
    ensures |taggedAttackMontages| == 0 ==> m == DefaultTaggedAttackMontage
    ensures |taggedAttackMontages| > 0 ==> m in taggedAttackMontages
  {
    if |taggedAttackMontages| > 0 then taggedAttackMontages[roll] else DefaultTaggedAttackMontage
  }

  /** Every entry can be drawn: each index the random range produces selects that entry. */
  lemma EveryMontageCanBeDrawn(taggedAttackMontages: seq<TaggedAttackMontage>, i: int)
    requires 0 <= i < |taggedAttackMontages|
    ensures GetRandomAttackMontage(taggedAttackMontages, i) == taggedAttackMontages[i]
  {
  }
}
