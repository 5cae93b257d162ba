/**
 * UAriaAttributeSet's reactions to attribute changes: clamping Health and Mana, consuming
 * the IncomingDamage and IncomingXP meta attributes, and topping Health and Mana off after a
 * level-up. What the engine would do to other actors (dying, launching, activating hit-react
 * abilities, floating damage text, the level-up effects) is recorded in an event log.
 */
module AttributeSet {
  import opened UnrealMath
  import opened Wrappers
  import opened Tags
  import opened PlayerState
  import opened LevelUpInfo
  import opened AbilityInfo
  import opened AbilitySystem

  /** The attributes these handlers tell apart; every other attribute is `OtherAttribute`. */
  datatype AttributeKind = Health | Mana | MaxHealth | MaxMana | IncomingDamage | IncomingXP | OtherAttribute

  /**
   * What SetEffectProperties and the effect context tell the handlers about one execution.
   * `targetIsCombat` says the target avatar implements the combat interface; `xpReward` is the
   * target character's XP reward when it does (SendXPEvent), `None` when it does not.
   */
  datatype EffectProps = EffectProps(
    targetIsCombat: bool,
    targetIsDead: bool,
    targetIsBeingShocked: bool,
    xpReward: Option<int>,
    deathImpulse: Vec,
    knockbackForce: Vec,
    dodged: bool,
    blocked: bool,
    critical: bool,
    statusEffectApplied: bool,
    sourceIsTarget: bool,
    sourceHasPlayerController: bool,
    targetHasPlayerController: bool)

  datatype AttributeEvent =
    | Died(deathImpulse: Vec)
    | XPRewardSent(xpReward: int)
    | Launched(force: Vec)
    | AbilitiesTriedByTag(withHitReact: bool)
    | StatusEffectHandled
    | DamageTextShown(damage: real, dodged: bool, blocked: bool, critical: bool)
    | LevelUpEffectsPlayed

  /** A hit is fatal when the health it leaves, before clamping, is at most 0. */
  predicate IsFatal(health: real, damage: real) { damage > 0.0 && health - damage <= 0.0 }

  /** What HandleIncomingDamage sends out, given the health before the hit and the damage. */
  function DamageEvents(health: real, damage: real, props: EffectProps): seq<AttributeEvent>
  {
    HitEvents(health, damage, props) + AfterHitEvents(damage, props)
  }

  /** The consequences of the hit itself: death and XP reward, or knockback and hit react. */
  function HitEvents(health: real, damage: real, props: EffectProps): seq<AttributeEvent>
  {
    if damage <= 0.0 then []
    else if IsFatal(health, damage) then
      (if props.targetIsCombat then [Died(props.deathImpulse)] else []) +
      (match props.xpReward case Some(x) => [XPRewardSent(x)] case None => [])
    else
      (if !IsNearlyZero(props.knockbackForce, 1.0) then [Launched(props.knockbackForce)] else []) +
      [AbilitiesTriedByTag(props.targetIsCombat && !props.targetIsBeingShocked)]
  }

  /** What follows the hit whatever the damage: the status effect and the floating text. */
  function AfterHitEvents(damage: real, props: EffectProps): (r: seq<AttributeEvent>)
    ensures forall e :: e in r ==> e.StatusEffectHandled? || e.DamageTextShown?
  {
    (if props.statusEffectApplied then [StatusEffectHandled] else []) + FloatingText(damage, props)
  }

  /** ShowDamageFloatingText: one text per player controller involved, none for self-damage. */
  function FloatingText(damage: real, props: EffectProps): (r: seq<AttributeEvent>)
    ensures props.sourceIsTarget ==> r == []
    ensures |r| == if props.sourceIsTarget then 0
                   else (if props.sourceHasPlayerController then 1 else 0) + (if props.targetHasPlayerController then 1 else 0)
  {
    if props.sourceIsTarget then []
    else
      var text := DamageTextShown(damage, props.dodged, props.blocked, props.critical);
      (if props.sourceHasPlayerController then [text] else []) +
      (if props.targetHasPlayerController then [text] else [])
  }

  /** An event of the hit is in the whole sequence exactly when it is among the hit's own events. */
  lemma HitEventIn(health: real, damage: real, props: EffectProps, e: AttributeEvent)
    requires !e.StatusEffectHandled? && !e.DamageTextShown?
    ensures e in DamageEvents(health, damage, props) <==> e in HitEvents(health, damage, props)
  {
  }

  /** The target dies exactly on a fatal hit to a combat target. */
  lemma DeathOnlyOnFatalHit(health: real, damage: real, props: EffectProps)
    ensures Died(props.deathImpulse) in DamageEvents(health, damage, props) <==> IsFatal(health, damage) && props.targetIsCombat
    ensures forall d :: d != props.deathImpulse ==> Died(d) !in DamageEvents(health, damage, props)
  {
    HitEventIn(health, damage, props, Died(props.deathImpulse));
    forall d | d != props.deathImpulse
      ensures Died(d) !in DamageEvents(health, damage, props)
    {
      HitEventIn(health, damage, props, Died(d));
    }
  }

  /** The target's XP reward goes out exactly on a fatal hit to a target that has one. */
  lemma XPRewardOnlyOnFatalHit(health: real, damage: real, props: EffectProps, x: int)
    ensures XPRewardSent(x) in DamageEvents(health, damage, props) <==> IsFatal(health, damage) && props.xpReward == Some(x)
  {
    HitEventIn(health, damage, props, XPRewardSent(x));
  }

  /** A hit that leaves the target alive tries the hit-react abilities exactly once. */
  lemma SurvivedHitTriesAbilities(health: real, damage: real, props: EffectProps)
    requires damage > 0.0 && !IsFatal(health, damage)
    ensures AbilitiesTriedByTag(props.targetIsCombat && !props.targetIsBeingShocked) in DamageEvents(health, damage, props)
    ensures forall e :: e in DamageEvents(health, damage, props) ==> !e.Died? && !e.XPRewardSent?
  {
    HitEventIn(health, damage, props, AbilitiesTriedByTag(props.targetIsCombat && !props.targetIsBeingShocked));
  }

  /** The attribute points granted for the levels `from`, …, `from + n - 1`. */
  function AttributeRewards(info: seq<LevelUpEntry>, from: nat, n: nat): int
    requires from + n <= |info|
  {
    if n == 0 then 0 else AttributeRewards(info, from, n - 1) + info[from + n - 1].attributePointReward
  }

  /** The ability points granted for the levels `from`, …, `from + n - 1`. */
  function AbilityRewards(info: seq<LevelUpEntry>, from: nat, n: nat): int
    requires from + n <= |info|
  {
    if n == 0 then 0 else AbilityRewards(info, from, n - 1) + info[from + n - 1].abilityPointReward
  }

  /** The for loop over the levels gained, summing each level's two point rewards. */
  method SumLevelRewards(info: seq<LevelUpEntry>, from: nat, n: nat) returns (attributePointsReward: int, abilityPointsReward: int)
    requires from + n <= |info|
    ensures attributePointsReward == AttributeRewards(info, from, n)
    ensures abilityPointsReward == AbilityRewards(info, from, n)
  {
    attributePointsReward := 0;
    abilityPointsReward := 0;
    for i := 0 to n
      invariant attributePointsReward == AttributeRewards(info, from, i)
      invariant abilityPointsReward == AbilityRewards(info, from, i)
    {
      attributePointsReward := attributePointsReward + info[from + i].attributePointReward;
      abilityPointsReward := abilityPointsReward + info[from + i].abilityPointReward;
    }
  }

  /** Gaining n + m levels at once grants what gaining n and then m more would. */
  lemma {:induction false} RewardsSplit(info: seq<LevelUpEntry>, from: nat, n: nat, m: nat)
    requires from + n + m <= |info|
    ensures AttributeRewards(info, from, n + m) == AttributeRewards(info, from, n) + AttributeRewards(info, from + n, m)
    ensures AbilityRewards(info, from, n + m) == AbilityRewards(info, from, n) + AbilityRewards(info, from + n, m)
  {
    if m > 0 {
      RewardsSplit(info, from, n, m - 1);
    }
  }

  /** With non-negative rewards in the table, a level-up never takes points away. */
  lemma {:induction false} RewardsNonNegative(info: seq<LevelUpEntry>, from: nat, n: nat)
    requires from + n <= |info|
    requires forall l :: from <= l < from + n ==> info[l].attributePointReward >= 0 && info[l].abilityPointReward >= 0
    ensures AttributeRewards(info, from, n) >= 0 && AbilityRewards(info, from, n) >= 0
  {
    if n > 0 {
      RewardsNonNegative(info, from, n - 1);
    }
  }

  /** How many levels the incoming XP is worth: the table's level for the new total, less the current level. */
  function LevelsGained(info: seq<LevelUpEntry>, level: int, xp: int, incomingXP: real): int
  {
    LevelForXP(info, TruncToInt(xp as real + incomingXP)) - level
  }

  /** The levels gained never carry the player past the table's last level. */
  lemma LevelsGainedStayInTable(info: seq<LevelUpEntry>, level: int, xp: int, incomingXP: real)
    requires level >= 1 && LevelsGained(info, level, xp, incomingXP) > 0
    ensures level + LevelsGained(info, level, xp, incomingXP) <= |info| - 1
  {
    LevelForXPBounds(info, TruncToInt(xp as real + incomingXP));
  }

  class AriaAttributeSet {
    var health: real
    var maxHealth: real
    var mana: real
    var maxMana: real
    var incomingDamage: real
    var incomingXP: real
    var topOffHealth: bool
    var topOffMana: bool
    var events: seq<AttributeEvent>

    constructor (health: real, maxHealth: real, mana: real, maxMana: real)
      ensures this.health == health && this.maxHealth == maxHealth && this.mana == mana && this.maxMana == maxMana
      ensures incomingDamage == 0.0 && incomingXP == 0.0 && !topOffHealth && !topOffMana && events == []
    {
      this.health, this.maxHealth, this.mana, this.maxMana := health, maxHealth, mana, maxMana;
      incomingDamage, incomingXP := 0.0, 0.0;
      topOffHealth, topOffMana := false, false;
      events := [];
    }

    /** PreAttributeChange: a new Health or Mana value is clamped into [0, its maximum]; others pass. */
    function PreAttributeChange(attribute: AttributeKind, newValue: real): (r: real)
      reads this
      ensures attribute == Health && maxHealth >= 0.0 ==> 0.0 <= r <= maxHealth
      ensures attribute == Mana && maxMana >= 0.0 ==> 0.0 <= r <= maxMana
      ensures attribute == Health && 0.0 <= newValue <= maxHealth ==> r == newValue
      ensures attribute == Mana && 0.0 <= newValue <= maxMana ==> r == newValue
      ensures attribute != Health && attribute != Mana ==> r == newValue
    {
      if attribute == Health then ClampR(newValue, 0.0, maxHealth)
      else if attribute == Mana then ClampR(newValue, 0.0, maxMana)
      else newValue
    }

    /**
     * HandleIncomingDamage: consumes the pending damage; positive damage lowers Health, kept in
     * [0, MaxHealth], and the hit's consequences are sent out.
     */
    method HandleIncomingDamage(props: EffectProps)
      modifies this
      ensures incomingDamage == 0.0
      ensures health == if old(incomingDamage) > 0.0 then ClampR(old(health) - old(incomingDamage), 0.0, maxHealth) else old(health)
      ensures events == old(events) + DamageEvents(old(health), old(incomingDamage), props)
      ensures maxHealth == old(maxHealth) && mana == old(mana) && maxMana == old(maxMana) && incomingXP == old(incomingXP)
      ensures topOffHealth == old(topOffHealth) && topOffMana == old(topOffMana)
    {
      var localIncomingDamage := incomingDamage;
      incomingDamage := 0.0;
      var hitEvents: seq<AttributeEvent> := [];
      if localIncomingDamage > 0.0 {
        var newHealth := health - localIncomingDamage;
        health := ClampR(newHealth, 0.0, maxHealth);
        var fatal := newHealth <= 0.0;
        if fatal {
          var died: seq<AttributeEvent> := [];
          if props.targetIsCombat {
            died := [Died(props.deathImpulse)];
          }
          var reward: seq<AttributeEvent> := [];
          if props.xpReward.Some? {
            reward := [XPRewardSent(props.xpReward.value)];
          }
          hitEvents := died + reward;
        } else {
          var launched: seq<AttributeEvent> := [];
          if !IsNearlyZero(props.knockbackForce, 1.0) {
            launched := [Launched(props.knockbackForce)];
          }
          var withHitReact := false;
          if props.targetIsCombat && !props.targetIsBeingShocked {
            withHitReact := true;
          }
          hitEvents := launched + [AbilitiesTriedByTag(withHitReact)];
        }
      }
      var statusEvents: seq<AttributeEvent> := [];
      if props.statusEffectApplied {
        statusEvents := [StatusEffectHandled];
      }
      assert hitEvents == HitEvents(old(health), localIncomingDamage, props);
      events := events + (hitEvents + (statusEvents + FloatingText(localIncomingDamage, props)));
    }

    /**
     * The level-up block of HandleIncomingXP: the level rises by numLevelUps (the ASC then grants
     * newly reached abilities as Eligible), the rewards of every level passed are summed into
     * the point pools, Health and Mana are flagged for topping off and the level-up effects play.
     */
    method ApplyLevelUps(source: AriaPlayerState, asc: AriaAbilitySystemComponent?,
                         levelInfo: seq<LevelUpEntry>, abilityInfos: seq<AriaAbilityInfo>, numLevelUps: nat)
      requires source.level >= 1 && source.level + numLevelUps <= |levelInfo|
      modifies this, source, asc
      ensures health == old(health) && maxHealth == old(maxHealth) && mana == old(mana) && maxMana == old(maxMana)
      ensures incomingDamage == old(incomingDamage) && incomingXP == old(incomingXP)
      ensures source.xp == old(source.xp) && source.level == old(source.level) + numLevelUps
      ensures source.attributePoints == old(source.attributePoints) + AttributeRewards(levelInfo, old(source.level), numLevelUps)
      ensures source.abilityPoints == old(source.abilityPoints) + AbilityRewards(levelInfo, old(source.level), numLevelUps)
      ensures topOffHealth && topOffMana && events == old(events) + [LevelUpEffectsPlayed]
      ensures source.broadcasts == old(source.broadcasts) + [LevelChanged(source.level),
                AttributePointsChanged(source.attributePoints), AbilityPointsChanged(source.abilityPoints)]
      ensures asc != null ==>
                asc.specs == GrantByLevel(old(asc.specs), abilityInfos, source.level, StatusEligible).specs &&
                asc.events == old(asc.events) + GrantByLevel(old(asc.specs), abilityInfos, source.level, StatusEligible).events &&
                asc.startupAbilitiesGiven == old(asc.startupAbilitiesGiven)
    {
      var currentLevel := source.level;
      // AAriaCharacter::AddToLevel: the player state's level, then the ASC's eligibility pass.
      source.AddToLevel(numLevelUps);
      if asc != null {
        asc.UpdateAbilitiesEligibilityByLevel(source.level, abilityInfos);
      }
      var attributePointsReward, abilityPointsReward := SumLevelRewards(levelInfo, currentLevel, numLevelUps);
      source.AddToAttributePoints(attributePointsReward);
      source.AddToAbilityPoints(abilityPointsReward);
      topOffHealth := true;
      topOffMana := true;
      events := events + [LevelUpEffectsPlayed];
    }

    /**
     * What HandleIncomingXP does to the player state, the ASC and the level-up flags, given the
     * XP pending before it ran.
     */
    twostate predicate XPHandled(source: AriaPlayerState?, asc: AriaAbilitySystemComponent?,
                                 levelInfo: seq<LevelUpEntry>, abilityInfos: seq<AriaAbilityInfo>)
      requires old(allocated(source)) && old(allocated(asc))
      requires source != null ==> old(source.level) >= 1
      reads this, source, asc
    {
      (source == null || old(incomingXP) <= 0.0 ==>
        topOffHealth == old(topOffHealth) && topOffMana == old(topOffMana) && events == old(events) &&
        (source != null ==> unchanged(source)) && (asc != null ==> unchanged(asc))) &&
      (source != null && old(incomingXP) > 0.0 ==>
        var n := LevelsGained(levelInfo, old(source.level), old(source.xp), old(incomingXP));
        var xpGained := TruncToInt(old(incomingXP));
        source.xp == old(source.xp) + xpGained &&
        if n > 0 then
          n <= |levelInfo| - 1 - old(source.level) &&
          source.level == old(source.level) + n &&
          source.attributePoints == old(source.attributePoints) + AttributeRewards(levelInfo, old(source.level), n) &&
          source.abilityPoints == old(source.abilityPoints) + AbilityRewards(levelInfo, old(source.level), n) &&
          topOffHealth && topOffMana && events == old(events) + [LevelUpEffectsPlayed] &&
          source.broadcasts == old(source.broadcasts) + [LevelChanged(source.level),
            AttributePointsChanged(source.attributePoints), AbilityPointsChanged(source.abilityPoints), XPChanged(source.xp)] &&
          (asc != null ==>
            asc.specs == GrantByLevel(old(asc.specs), abilityInfos, source.level, StatusEligible).specs &&
            asc.events == old(asc.events) + GrantByLevel(old(asc.specs), abilityInfos, source.level, StatusEligible).events &&
            asc.startupAbilitiesGiven == old(asc.startupAbilitiesGiven))
        else
          source.level == old(source.level) && source.attributePoints == old(source.attributePoints) &&
          source.abilityPoints == old(source.abilityPoints) &&
          topOffHealth == old(topOffHealth) && topOffMana == old(topOffMana) && events == old(events) &&
          source.broadcasts == old(source.broadcasts) + [XPChanged(source.xp)] &&
          (asc != null ==> unchanged(asc)))
    }

    /**
     * HandleIncomingXP: consumes the pending XP. When it is positive and the source character
     * has an XP and combat interface (`source` non-null), the XP may raise the level: the
     * level rises, the ASC grants newly reached abilities as Eligible, the rewards of every
     * level passed are summed into the point pools, and Health and Mana are flagged for
     * topping off. The XP is then added to the total in any case.
     */
    method HandleIncomingXP(source: AriaPlayerState?, asc: AriaAbilitySystemComponent?,
                            levelInfo: seq<LevelUpEntry>, abilityInfos: seq<AriaAbilityInfo>)
      requires source != null ==> source.level >= 1
      modifies this, source, asc
      ensures incomingXP == 0.0
      ensures health == old(health) && maxHealth == old(maxHealth) && mana == old(mana) && maxMana == old(maxMana)
      ensures incomingDamage == old(incomingDamage)
      ensures XPHandled(source, asc, levelInfo, abilityInfos)
    {
      var localIncomingXP := incomingXP;
      incomingXP := 0.0;
      if localIncomingXP > 0.0 && source != null {
        var currentLevel := source.level;
        var currentXP := source.xp;
        var newLevel := FindLevelBasedOnTotalXP(levelInfo, TruncToInt(currentXP as real + localIncomingXP));
        var numLevelUps := newLevel - currentLevel;
        if numLevelUps > 0 {
          LevelsGainedStayInTable(levelInfo, currentLevel, currentXP, localIncomingXP);
          ApplyLevelUps(source, asc, levelInfo, abilityInfos, numLevelUps);
        }
        source.AddToXP(TruncToInt(localIncomingXP));
      }
    }

    /**
     * PostGameplayEffectExecute: nothing happens to a dead combat target; otherwise an executed
     * Health or Mana change is clamped into [0, its maximum] and the meta attributes are handled.
     */
    method PostGameplayEffectExecute(attribute: AttributeKind, props: EffectProps,
                                     source: AriaPlayerState?, asc: AriaAbilitySystemComponent?,
                                     levelInfo: seq<LevelUpEntry>, abilityInfos: seq<AriaAbilityInfo>)
      requires source != null ==> source.level >= 1
      modifies this, source, asc
      ensures props.targetIsCombat && props.targetIsDead ==>
        unchanged(this) && (source != null ==> unchanged(source)) && (asc != null ==> unchanged(asc))
      ensures !(props.targetIsCombat && props.targetIsDead) && attribute == Health ==>
        health == ClampR(old(health), 0.0, old(maxHealth)) && mana == old(mana) && events == old(events) &&
        incomingDamage == old(incomingDamage) && incomingXP == old(incomingXP)
      ensures !(props.targetIsCombat && props.targetIsDead) && attribute == Mana ==>
        mana == ClampR(old(mana), 0.0, old(maxMana)) && health == old(health) && events == old(events) &&
        incomingDamage == old(incomingDamage) && incomingXP == old(incomingXP)
      ensures !(props.targetIsCombat && props.targetIsDead) && attribute == IncomingDamage ==>
        incomingDamage == 0.0 && incomingXP == old(incomingXP) &&
        health == (if old(incomingDamage) > 0.0 then ClampR(old(health) - old(incomingDamage), 0.0, maxHealth) else old(health)) &&
        events == old(events) + DamageEvents(old(health), old(incomingDamage), props) && mana == old(mana)
      ensures !(props.targetIsCombat && props.targetIsDead) && attribute == IncomingXP ==>
        incomingXP == 0.0 && incomingDamage == old(incomingDamage) && health == old(health) && mana == old(mana) &&
        XPHandled(source, asc, levelInfo, abilityInfos)
      ensures maxHealth == old(maxHealth) && maxMana == old(maxMana)
      ensures attribute != IncomingXP ==> (source != null ==> unchanged(source)) && (asc != null ==> unchanged(asc))
      ensures attribute != IncomingXP ==> topOffHealth == old(topOffHealth) && topOffMana == old(topOffMana)
    {
      if props.targetIsCombat && props.targetIsDead {
        return;
      }
      if attribute == Health {
        health := ClampR(health, 0.0, maxHealth);
      }
      if attribute == Mana {
        mana := ClampR(mana, 0.0, maxMana);
      }
      if attribute == IncomingDamage {
        HandleIncomingDamage(props);
      }
      if attribute == IncomingXP {
        HandleIncomingXP(source, asc, levelInfo, abilityInfos);
      }
    }

    /**
     * PostAttributeChange: the first MaxHealth (MaxMana) change after a level-up fills Health
     * (Mana) to the maximum and clears the flag; without a pending flag nothing changes.
     */
    method PostAttributeChange(attribute: AttributeKind)
      modifies this
      ensures attribute == MaxHealth && old(topOffHealth) ==> health == maxHealth && !topOffHealth
      ensures !(attribute == MaxHealth && old(topOffHealth)) ==> health == old(health) && topOffHealth == old(topOffHealth)
      ensures attribute == MaxMana && old(topOffMana) ==> mana == maxMana && !topOffMana
      ensures !(attribute == MaxMana && old(topOffMana)) ==> mana == old(mana) && topOffMana == old(topOffMana)
      ensures maxHealth == old(maxHealth) && maxMana == old(maxMana) && events == old(events)
      ensures incomingDamage == old(incomingDamage) && incomingXP == old(incomingXP)
    {
      if attribute == MaxHealth && topOffHealth {
        health := maxHealth;
        topOffHealth := false;
      }
      if attribute == MaxMana && topOffMana {
        mana := maxMana;
        topOffMana := false;
      }
    }
  }
}
