/**
 * The value types shared by the damage pipeline: the four status-action enums and
 * FAbilityModifier, the bundle of damage and status-effect settings an ability hands to
 * the damage effect. Engine object references in FAbilityModifier (world context, effect
 * class, source and target components) are not part of this model.
 */
module AbilityTypes {
  import opened UnrealMath
  import opened Tags

  /** EAdditionalDamageTriggers, a uint8 enum; Disabled is 0. */
  datatype AdditionalDamageTriggers = Disabled | ActionsAttacks | ActionsAbilities | ActionsBoth | Movement | All
  {
    /** The enum's underlying uint8 value, in declaration order. */
    function Ord(): (r: nat)
      ensures r < 6
      ensures r == 0 <==> this == AdditionalDamageTriggers.Disabled
    {
      match this
      case Disabled => 0
      case ActionsAttacks => 1
      case ActionsAbilities => 2
      case ActionsBoth => 3
      case Movement => 4
      case All => 5
    }
  }

  /** ERandomlyMissAnyActions, a uint8 enum; Disabled is 0. */
  datatype RandomlyMissAnyActions = Disabled | Attacks | Abilities | Both
  {
    function Ord(): (r: nat)
      ensures r < 4
      ensures r == 0 <==> this == RandomlyMissAnyActions.Disabled
    {
      match this
      case Disabled => 0
      case Attacks => 1
      case Abilities => 2
      case Both => 3
    }
  }

  /** ERandomlyStopAnyActions, a uint8 enum; Disabled is 0. */
  datatype RandomlyStopAnyActions = Disabled | Attacks | Abilities | Both
  {
    function Ord(): (r: nat)
      ensures r < 4
      ensures r == 0 <==> this == RandomlyStopAnyActions.Disabled
    {
      match this
      case Disabled => 0
      case Attacks => 1
      case Abilities => 2
      case Both => 3
    }
  }

  /** EStopAllActions, a uint8 enum; Disabled is 0. */
  datatype StopAllActions = Disabled | Attacks | Abilities | Both
  {
    function Ord(): (r: nat)
      ensures r < 4
      ensures r == 0 <==> this == StopAllActions.Disabled
    {
      match this
      case Disabled => 0
      case Attacks => 1
      case Abilities => 2
      case Both => 3
    }
  }

  /** FAbilityModifier without its object references. */
  datatype AbilityModifier = AbilityModifier(
    abilityLevel: int,
    // Damage
    damageType: Tag,
    baseDamage: real,
    // Knockbacks
    knockbackChance: real,
    knockbackForceMagnitude: real,
    knockbackForce: Vec,
    deathImpulseMagnitude: real,
    deathImpulse: Vec,
    // Status effects
    statusEffectType: Tag,
    statusEffectChance: real,
    statusEffectDurationMin: real,
    statusEffectDurationMax: real,
    statusEffectFrequency: real,
    damagedAttributeType: Tag,
    damagedAttributeAmount: real,
    additionalDamageTrigger: AdditionalDamageTriggers,
    additionalDamageAmount: real,
    randomlyMissActions: RandomlyMissAnyActions,
    randomMissPercentage: real,
    randomlyStopActions: RandomlyStopAnyActions,
    reducedActionPercentage: real,
    stopAllActions: StopAllActions,
    reducedMovementSpeed: real,
    randomizeMovements: bool,
    runFromTarget: bool,
    instantKillTarget: bool,
    reducedLevels: int,
    forceAIControl: bool)

  /** No damage, knockback or status effect is configured: every setting is at its zero value. */
  predicate ConfiguresNothing(m: AbilityModifier)
  {
    && m.damageType == EmptyTag && m.baseDamage == 0.0
    && m.knockbackChance == 0.0 && m.knockbackForceMagnitude == 0.0 && m.knockbackForce == ZeroVector
    && m.deathImpulseMagnitude == 0.0 && m.deathImpulse == ZeroVector
    && m.statusEffectType == EmptyTag && m.statusEffectChance == 0.0
    && m.statusEffectDurationMin == 0.0 && m.statusEffectDurationMax == 0.0 && m.statusEffectFrequency == 0.0
    && m.damagedAttributeType == EmptyTag && m.damagedAttributeAmount == 0.0
    && m.additionalDamageTrigger == AdditionalDamageTriggers.Disabled && m.additionalDamageAmount == 0.0
    && m.randomlyMissActions == RandomlyMissAnyActions.Disabled && m.randomMissPercentage == 0.0
    && m.randomlyStopActions == RandomlyStopAnyActions.Disabled && m.reducedActionPercentage == 0.0
    && m.stopAllActions == StopAllActions.Disabled && m.reducedMovementSpeed == 0.0
    && !m.randomizeMovements && !m.runFromTarget && !m.instantKillTarget
    && m.reducedLevels == 0 && !m.forceAIControl
  }

  /** A default-constructed FAbilityModifier: level 1 and nothing configured. */
  function NewAbilityModifier(): (m: AbilityModifier)
    ensures m.abilityLevel == 1
    ensures ConfiguresNothing(m)
  {
    AbilityModifier(1, EmptyTag, 0.0, 0.0, 0.0, ZeroVector, 0.0, ZeroVector,
                    EmptyTag, 0.0, 0.0, 0.0, 0.0, EmptyTag, 0.0,
                    AdditionalDamageTriggers.Disabled, 0.0, RandomlyMissAnyActions.Disabled, 0.0,
                    RandomlyStopAnyActions.Disabled, 0.0, StopAllActions.Disabled, 0.0,
                    false, false, false, 0, false)
  }
}
