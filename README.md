# Aria core, modelled in Dafny

Aria is an Unreal Engine action RPG built on the Gameplay Ability System. This project models
the rules at its core and proves properties of them:

- the tables that map gameplay tags to ability, attribute and input data, and the XP table that
  turns total XP into a level;
- the player state's XP, level and point pools;
- the attribute set's clamping, incoming-damage and incoming-XP handling, and level-up refills;
- the damage execution (dodge, block, critical hit, resistances, status effects) and the
  attribute formulas (modifier magnitude calculations);
- the ability-system component: granting startup abilities, unlocking abilities by level, the
  status of each ability, spending points, and equipping abilities into input slots;
- the gameplay-effect contexts and their network serialisers, with presence masks;
- the ability-system library: closest actors, friend or foe, attribute lookup, data-table row
  lookup, and the point-pattern generators used by area abilities;
- the ability-menu and overlay widget controllers, and the cooldown listener;
- the damage ability's modifier builders, the effect actor, and the character base.

Gameplay tags are sequences of name parts, with MatchesTag as the parent relation. Floats are
real numbers. Broadcasts, delegates and server RPCs become event logs. Objects whose fields are
updated in place are classes. Engine calls the model cannot see become parameters.

## Model

| member | source | states |
|---|---|---|
| AbilityInfo.FindAbilityInfoForTag | Source/Aria/Private/AbilitySystem/Data/AbilityInfo.cpp:8-25 | When some entry's tag equals the query, the result is the first such entry. When none does, it is the default FAriaAbilityInfo. Logging has no effect on the result. |
| AbilityInfo.FindAbilityInfoIgnoresSuffix | Source/Aria/Private/AbilitySystem/Data/AbilityInfo.cpp:10-16 | Once an entry matches, entries appended after the list cannot change the answer. |
| AttributeInfo.FindAttributeInfoForTag | Source/Aria/Private/AbilitySystem/Data/AttributeInfo.cpp:8-27 | The result is the first entry whose tag exactly matches, or a default record with AttributeValue 0 when none does. Logging has no effect on the result. |
| AttributeInfo.InvalidTagFindsDefault | Source/Aria/Private/AbilitySystem/Data/AttributeInfo.cpp:11-26 | An invalid (empty) query tag matches no entry and always yields the default record. |
| InputConfig.FindAbilityInputActionForTag | Source/Aria/Private/Input/AriaInputConfig.cpp:8-26 | An action is found exactly when some entry has a non-null action and an exactly matching tag. The action found is the first such entry's. Otherwise the result is null. |
| InputConfig.NullActionsSkipped | Source/Aria/Private/Input/AriaInputConfig.cpp:13 | Inserting an entry with a null action, whatever its tag, never changes the result. |
| LevelUpInfo.FindLevelBasedOnTotalXP | Source/Aria/Private/AbilitySystem/Data/LevelUpInfo.cpp:6-34 | The level is at least 1. With two or fewer entries it is 1. Otherwise it is at most Num-1. Every level below it had its requirement met. If it is below Num-1, its own requirement is not met. The loop increments at most Num-2 times. |
| LevelUpInfo.LevelFromAtLeastStart | Source/Aria/Private/AbilitySystem/Data/LevelUpInfo.cpp:12-31 | The table walk never returns a level below the one it started from. |
| LevelUpInfo.LevelFromAtMostLast | Source/Aria/Private/AbilitySystem/Data/LevelUpInfo.cpp:16 | Started inside the table, the walk stops at Num-1 at the latest. |
| LevelUpInfo.LevelForXPBounds | Source/Aria/Private/AbilitySystem/Data/LevelUpInfo.cpp:9-16 | The level is at least 1, at most Num-1 with two or more entries, and exactly 1 with two or fewer entries. |
| LevelUpInfo.LevelFromMonotone | Source/Aria/Private/AbilitySystem/Data/LevelUpInfo.cpp:12-31 | From the same starting level, more XP never yields a lower level. |
| LevelUpInfo.LevelForXPMonotone | Source/Aria/Private/AbilitySystem/Data/LevelUpInfo.cpp:12-31 | More XP never yields a lower level, for any table. |
| LevelUpInfo.LevelFromCharacterized | Source/Aria/Private/AbilitySystem/Data/LevelUpInfo.cpp:12-31 | A level in range whose lower requirements are all met, and whose own requirement is not met unless it is the last, is the one the walk returns. |
| LevelUpInfo.LevelForXPUnique | Source/Aria/Private/AbilitySystem/Data/LevelUpInfo.cpp:12-31 | The level is the unique level with that characterisation, so the table walk is pinned down by its postcondition. |
| LevelUpInfo.LevelFromFacts | Source/Aria/Private/AbilitySystem/Data/LevelUpInfo.cpp:19-30 | Every level the walk passed had its requirement met. If the walk stopped before the last level, the requirement there is not met. |
| PlayerState.AriaPlayerState.constructor | Source/Aria/Public/Player/AriaPlayerState.h:86-96 | A new player state has XP 0, level 1, and both point pools at 0. Nothing has been broadcast yet. |
| PlayerState.AriaPlayerState.AddToXP | Source/Aria/Private/Player/AriaPlayerState.cpp:44-48 | XP becomes XP+n. Level and both pools are unchanged. One XP broadcast carries the new value. |
| PlayerState.AriaPlayerState.AddToLevel | Source/Aria/Private/Player/AriaPlayerState.cpp:50-54 | Level becomes Level+n. Nothing else changes. One level broadcast carries the new value. |
| PlayerState.AriaPlayerState.AddToAttributePoints | Source/Aria/Private/Player/AriaPlayerState.cpp:56-60 | The attribute-point pool grows by a signed amount with no lower bound. One broadcast carries the new pool. |
| PlayerState.AriaPlayerState.AddToAbilityPoints | Source/Aria/Private/Player/AriaPlayerState.cpp:62-66 | The ability-point pool grows by a signed amount with no lower bound. One broadcast carries the new pool. |
| PlayerState.AriaPlayerState.SetXP | Source/Aria/Private/Player/AriaPlayerState.cpp:68-72 | XP is replaced by n. Nothing else changes. One XP broadcast carries n. |
| PlayerState.AriaPlayerState.SetLevel | Source/Aria/Private/Player/AriaPlayerState.cpp:74-78 | Level becomes Level+n: SetLevel adds to the level rather than replacing it. One level broadcast carries the new level. |
| PlayerState.PoolsCanGoNegative | Source/Aria/Private/Player/AriaPlayerState.cpp:56-66 | Starting from a fresh state, subtracting one point leaves both pools at -1. |
| PlayerState.SetLevelAccumulates | Source/Aria/Private/Player/AriaPlayerState.cpp:74-78 | SetLevel(3) then SetLevel(3) on a fresh state gives level 7, and the broadcasts are 4 then 7. |
| ModMagCalc.FloorMonotone | Source/Aria/Private/AbilitySystem/ModMagCalc/MMC_DodgeChance.cpp:46 | FMath::Floor is monotone, which every floored formula below relies on. |
| ModMagCalc.DodgeChance | Source/Aria/Private/AbilitySystem/ModMagCalc/MMC_DodgeChance.cpp:17-50 | Dodge chance is a whole number between 5 and 50. Below 10 agility it is exactly 5. |
| ModMagCalc.DodgeChanceSteps | Source/Aria/Private/AbilitySystem/ModMagCalc/MMC_DodgeChance.cpp:46-47 | For non-negative agility the chance is floor(agility/10)+5, up to the cap of 50 reached at 450 agility. |
| ModMagCalc.DodgeChanceMonotone | Source/Aria/Private/AbilitySystem/ModMagCalc/MMC_DodgeChance.cpp:33-47 | More agility never lowers dodge chance. |
| ModMagCalc.CriticalHitChance | Source/Aria/Private/AbilitySystem/ModMagCalc/MMC_CriticalHitChance.cpp:23-62 | Critical-hit chance is a whole number between 5 and 50. When clamped dexterity does not exceed clamped agility it is exactly 5. |
| ModMagCalc.CriticalHitChanceMonotone | Source/Aria/Private/AbilitySystem/ModMagCalc/MMC_CriticalHitChance.cpp:42-59 | More dexterity never lowers the chance. More agility never raises it. |
| ModMagCalc.Defense | Source/Aria/Private/AbilitySystem/ModMagCalc/MMC_Defense.cpp:17-43 | Defense is the whole number just at or below 1.5 times clamped resilience. It is never negative. |
| ModMagCalc.DefenseMonotone | Source/Aria/Private/AbilitySystem/ModMagCalc/MMC_Defense.cpp:33-40 | More resilience never lowers defense. |
| ModMagCalc.Attack | Source/Aria/Private/AbilitySystem/ModMagCalc/MMC_Attack.cpp:17-43 | Attack is the whole number just at or below twice clamped strength. It is never negative. |
| ModMagCalc.AttackMonotone | Source/Aria/Private/AbilitySystem/ModMagCalc/MMC_Attack.cpp:33-40 | More strength never lowers attack. |
| ModMagCalc.MagicalDefense | Source/Aria/Private/AbilitySystem/ModMagCalc/MMC_MagicalDefense.cpp:23-50 | Magical defense is the whole number just at or below clamped defense plus clamped spirit. It is never negative. |
| ModMagCalc.MagicalDefenseMonotone | Source/Aria/Private/AbilitySystem/ModMagCalc/MMC_MagicalDefense.cpp:42-47 | More defense or more spirit never lowers magical defense. |
| ModMagCalc.SourceLevel | Source/Aria/Private/AbilitySystem/ModMagCalc/MMC_MaxHealth.cpp:39-42 | The level is 1 unless the effect's source object implements the combat interface, in which case it is that object's level. |
| ModMagCalc.MaxHealth | Source/Aria/Private/AbilitySystem/ModMagCalc/MMC_MaxHealth.cpp:18-53 | Max health is 0 for non-positive vitality. It is non-negative at a non-negative level. Without a combat source it is 16.5 per clamped vitality point. |
| ModMagCalc.MaxHealthMonotone | Source/Aria/Private/AbilitySystem/ModMagCalc/MMC_MaxHealth.cpp:34-49 | At a non-negative level, more vitality never lowers max health. |
| ModMagCalc.MaxMana | Source/Aria/Private/AbilitySystem/ModMagCalc/MMC_MaxMana.cpp:18-53 | Max mana is 0 for non-positive intelligence. It is non-negative at a non-negative level. Without a combat source it is 8.5 per clamped intelligence point. |
| ModMagCalc.MaxManaMonotone | Source/Aria/Private/AbilitySystem/ModMagCalc/MMC_MaxMana.cpp:34-49 | At a non-negative level, more intelligence never lowers max mana. |
| ModMagCalc.MulMonotone | Source/Aria/Private/AbilitySystem/ModMagCalc/MMC_MaxMana.cpp:49 | Scaling by a non-negative level preserves order. This is the step both max formulas need. |
| AttributeSet.AfterHitEvents | Source/Aria/Private/AbilitySystem/AriaAttributeSet.cpp:772-777 | Whatever the damage, a hit ends with only status-effect handling and floating-text events. |
| AttributeSet.FloatingText | Source/Aria/Private/AbilitySystem/AriaAttributeSet.cpp:825-840 | Self-damage shows no text. Otherwise one text is shown for each player controller involved, source and target. |
| AttributeSet.HitEventIn | Source/Aria/Private/AbilitySystem/AriaAttributeSet.cpp:718-778 | Apart from status handling and text, an event is sent exactly when it is one of the hit's own consequences. |
| AttributeSet.DeathOnlyOnFatalHit | Source/Aria/Private/AbilitySystem/AriaAttributeSet.cpp:726-737 | The target dies, with the context's death impulse, exactly when the hit is fatal (unclamped Health-d at most 0) and the target implements the combat interface. |
| AttributeSet.XPRewardOnlyOnFatalHit | Source/Aria/Private/AbilitySystem/AriaAttributeSet.cpp:726-740 | The XP reward event is sent exactly on a fatal hit to a target that offers a reward. |
| AttributeSet.SurvivedHitTriesAbilities | Source/Aria/Private/AbilitySystem/AriaAttributeSet.cpp:741-763 | A positive hit that is not fatal tries the hit-react abilities. It sends no death and no XP reward. |
| AttributeSet.SumLevelRewards | Source/Aria/Private/AbilitySystem/AriaAttributeSet.cpp:975-983 | the loop returns, for each of the two pools, the sum of the rewards of levels from..from+n-1, as the table lists them |
| AttributeSet.RewardsSplit | Source/Aria/Private/AbilitySystem/AriaAttributeSet.cpp:965-980 | The points granted for n+m levels equal those for n levels plus those for the next m. |
| AttributeSet.RewardsNonNegative | Source/Aria/Private/AbilitySystem/AriaAttributeSet.cpp:965-980 | With non-negative table rewards, a level-up never takes points away. |
| AttributeSet.LevelsGainedStayInTable | Source/Aria/Private/AbilitySystem/AriaAttributeSet.cpp:959-962 | Levels gained from incoming XP never carry the player past the table's last level. |
| AttributeSet.AriaAttributeSet.constructor | Source/Aria/Public/AbilitySystem/AriaAttributeSet.h:764-765 | A new set holds the given vitals, no pending meta attributes, and no top-off flags. |
| AttributeSet.AriaAttributeSet.PreAttributeChange | Source/Aria/Private/AbilitySystem/AriaAttributeSet.cpp:662-676 | A new Health value is clamped into [0, MaxHealth] and a new Mana value into [0, MaxMana]. Values already in range, and every other attribute, pass unchanged. |
| AttributeSet.AriaAttributeSet.HandleIncomingDamage | Source/Aria/Private/AbilitySystem/AriaAttributeSet.cpp:718-778 | Pending damage is reset to 0 even when it is not positive. For d > 0 Health becomes clamp(Health-d, 0, MaxHealth); otherwise Health is unchanged. The hit's events follow DamageEvents. Nothing else changes. |
| AttributeSet.AriaAttributeSet.ApplyLevelUps | Source/Aria/Private/AbilitySystem/AriaAttributeSet.cpp:968-992 | the level-up block: the level rises by exactly the levels gained; each pool grows by the rewards of the levels passed (and, from the ASC, the newly reached abilities are granted as Eligible); both top-off flags are set and the level-up effects play once; the XP total and the vitals are left alone |
| AttributeSet.AriaAttributeSet.HandleIncomingXP | Source/Aria/Private/AbilitySystem/AriaAttributeSet.cpp:944-1001 | Pending XP is reset to 0. For positive XP from a player source, n = FindLevel(XP+incoming) - level. When n > 0 the level rises by n, the pools grow by the rewards of levels level..level+n-1, the newly reached abilities are granted, and both top-off flags are set. The XP is added to the total in every case. Vitals are unchanged. |
| AttributeSet.AriaAttributeSet.PostGameplayEffectExecute | Source/Aria/Private/AbilitySystem/AriaAttributeSet.cpp:678-714 | Nothing changes for a dead combat target. Otherwise an executed Health or Mana change ends clamped into [0, its maximum], IncomingDamage is handed to its handler, and an IncomingXP change ends in exactly the state HandleIncomingXP promises (XPHandled: the truncated XP added, the levels gained with their point rewards, the vitals topped off and abilities unlocked by the new level, and the broadcasts in order). |
| AttributeSet.AriaAttributeSet.PostAttributeChange | Source/Aria/Private/AbilitySystem/AriaAttributeSet.cpp:1025-1040 | After a level-up, the next MaxHealth (MaxMana) change sets Health (Mana) to its maximum and clears the flag. Without a pending flag nothing changes. |
| ExecCalcDamage.CaptureDefsCoverResistances | Source/Aria/Private/AbilitySystem/ExecCalc/ExecCalc_Damage.cpp:517-539 | The capture map the execution builds holds every resistance tag of both relationship maps, so the `checkf`s at 285-287 and 450-452 always pass. |
| ExecCalcDamage.SetByCallerMagnitude | Source/Aria/Private/AbilitySystem/ExecCalc/ExecCalc_Damage.cpp:280 | A set-by-caller lookup gives the spec's value for a tag the spec holds, and the supplied default otherwise. |
| ExecCalcDamage.CapturedMagnitude | Source/Aria/Private/AbilitySystem/ExecCalc/ExecCalc_Damage.cpp:291-293 | A captured attribute gives its captured value when there is one, and 0 otherwise. |
| ExecCalcDamage.Resisted | Source/Aria/Private/AbilitySystem/ExecCalc/ExecCalc_Damage.cpp:294-300 | The resistance is clamped to [0, 100]. A non-negative damage value never grows and never goes below 0. No resistance leaves it whole, and 100 or more removes it. |
| ExecCalcDamage.DamageUpToBounds | Source/Aria/Private/AbilitySystem/ExecCalc/ExecCalc_Damage.cpp:275-305 | While the first n types have non-negative values, the damage summed over them lies between 0 and the sum of their unresisted values. |
| ExecCalcDamage.BaseDamageBounds | Source/Aria/Private/AbilitySystem/ExecCalc/ExecCalc_Damage.cpp:273-305 | With non-negative per-type values, the summed damage after resistances lies between 0 and the total unresisted damage. |
| ExecCalcDamage.TargetDodgeChance | Source/Aria/Private/AbilitySystem/ExecCalc/ExecCalc_Damage.cpp:310-313 | The dodge chance is never negative. |
| ExecCalcDamage.BlockChanceAsWritten | Source/Aria/Private/AbilitySystem/ExecCalc/ExecCalc_Damage.cpp:331-334 | As written, the block chance always equals the target's dodge chance, whatever block chance was captured. |
| ExecCalcDamage.BlockChanceIntended | Source/Aria/Private/AbilitySystem/ExecCalc/ExecCalc_Damage.cpp:331-334 | The intended block chance is never negative, and it equals the captured block chance whenever that is non-negative. |
| ExecCalcDamage.Outcome | Source/Aria/Private/AbilitySystem/ExecCalc/ExecCalc_Damage.cpp:316-416 | A hit is dodged iff the dodge roll is under the dodge chance. It is blocked iff it is not dodged and the block roll is under the block chance. Otherwise it is critical iff the critical roll is under the effective critical-hit chance. |
| ExecCalcDamage.HitDamage | Source/Aria/Private/AbilitySystem/ExecCalc/ExecCalc_Damage.cpp:319-419 | A dodge leaves 0 and a block halves the damage. A regular hit takes the defence reduction. A critical hit doubles the defended damage and adds the attacker's non-negative critical-hit damage. |
| ExecCalcDamage.HitFlags | Source/Aria/Private/AbilitySystem/ExecCalc/ExecCalc_Damage.cpp:321-416 | A dodge sets only the dodged flag and a block only the blocked flag. A regular hit writes only the critical flag, set to whether it was critical. |
| ExecCalcDamage.SumResistedDamage | Source/Aria/Private/AbilitySystem/ExecCalc/ExecCalc_Damage.cpp:273-305 | The loop over the damage types returns the base damage: each type's set-by-caller value after its resistance, summed. |
| ExecCalcDamage.ApplyDamage | Source/Aria/Private/AbilitySystem/ExecCalc/ExecCalc_Damage.cpp:265-423 | The damage is what the outcome leaves of the base damage, with the corrected block test of the first Findings row (the captured block chance, floored at 0; the code as written tests the dodge chance, see OutcomeAsWritten). The context gets exactly that outcome's hit flags. |
| ExecCalcDamage.DodgeWritesOnlyDodged | Source/Aria/Private/AbilitySystem/ExecCalc/ExecCalc_Damage.cpp:316-322 | A dodged hit is settled as a dodge and leaves the blocked and critical flags as they were. |
| ExecCalcDamage.BlockUsesDodgeChance | Source/Aria/Private/AbilitySystem/ExecCalc/ExecCalc_Damage.cpp:334 | A target with 50 dodge chance and 0 block chance, with dodge roll 60 and block roll 10, is blocked as written. With the intended test the hit is a regular one. |
| ExecCalcDamage.IntendedBlockFollowsBlockChance | Source/Aria/Private/AbilitySystem/ExecCalc/ExecCalc_Damage.cpp:331-343 | With the intended test, a hit that is not dodged is blocked iff the block roll is under the target's own non-negative block chance. |
| ExecCalcDamage.BlockAndCriticalScaling | Source/Aria/Private/AbilitySystem/ExecCalc/ExecCalc_Damage.cpp:340-419 | A block keeps a non-negative damage within [0, base]. A critical hit deals at least twice the damage of the same regular hit. |
| ExecCalcDamage.StatusAppliedWrites | Source/Aria/Private/AbilitySystem/ExecCalc/ExecCalc_Damage.cpp:486-501 | An applied status effect sets the applied flag, the duration and the frequency (default -1). It sets the damage amount only when the damaged-attribute tag is valid. The status and the damaged-attribute types are left alone. |
| ExecCalcDamage.StatusAppliedTwice | Source/Aria/Private/AbilitySystem/ExecCalc/ExecCalc_Damage.cpp:486-501 | Applying a status effect is idempotent. |
| ExecCalcDamage.StatusUpToCharacterized | Source/Aria/Private/AbilitySystem/ExecCalc/ExecCalc_Damage.cpp:433-506 | After the first n pairs, the context has the status effect applied iff some one of them passed its exact-tag match and its roll. Otherwise it is unchanged. |
| ExecCalcDamage.StatusEffectsCharacterized | Source/Aria/Private/AbilitySystem/ExecCalc/ExecCalc_Damage.cpp:425-507 | After all the status pairs, the context has the status effect applied iff some pair's key is exactly the context's status type and its roll came in under the resisted chance. Otherwise it is unchanged. |
| ExecCalcDamage.WriteStatusEffect | Source/Aria/Private/AbilitySystem/ExecCalc/ExecCalc_Damage.cpp:486-501 | The context becomes StatusApplied of its old contents. |
| ExecCalcDamage.ApplyStatusEffects | Source/Aria/Private/AbilitySystem/ExecCalc/ExecCalc_Damage.cpp:425-507 | The loop over the status pairs leaves the context as StatusUpTo over all pairs. |
| ExecCalcDamage.CharacterLevel | Source/Aria/Private/AbilitySystem/ExecCalc/ExecCalc_Damage.cpp:557-566 | A character without the combat interface counts as level 1. Otherwise its own level is used. |
| ExecCalcDamage.Execute | Source/Aria/Private/AbilitySystem/ExecCalc/ExecCalc_Damage.cpp:509-593 | The output is one additive IncomingDamage modifier carrying the hit damage, with the corrected block test of the first Findings row (the code as written tests the dodge chance, see OutcomeAsWritten). The context ends with the status effects rolled first and the hit flags written after. |
| AbilitySystem.GetAbilityTagFromSpec | Source/Aria/Private/AbilitySystem/AriaAbilitySystemComponent.cpp:372-387 | The result is empty iff the ability has no tag under Abilities. Otherwise it is one of the ability's own tags under Abilities. |
| AbilitySystem.GetAbilityTypeTagFromSpec | Source/Aria/Private/AbilitySystem/AriaAbilitySystemComponent.cpp:389-404 | The result is empty iff the ability has no tag under Abilities.Type. Otherwise it is one of the ability's own tags under Abilities.Type. |
| AbilitySystem.GetAbilityStatusTagFromSpec | Source/Aria/Private/AbilitySystem/AriaAbilitySystemComponent.cpp:406-418 | The result is empty iff the spec has no dynamic tag under Abilities.Status. Otherwise it is one of those dynamic tags. |
| AbilitySystem.GetInputActivationTagFromSpec | Source/Aria/Private/AbilitySystem/AriaAbilitySystemComponent.cpp:420-432 | The result is empty iff the spec has no dynamic tag under InputTag. Otherwise it is one of those dynamic tags. |
| AbilitySystem.GetSpecFromAbilityTag | Source/Aria/Private/AbilitySystem/AriaAbilitySystemComponent.cpp:434-451 | There is no result iff no spec's ability carries a tag matching the given one. Otherwise the result is the first spec (by index) that does. |
| AbilitySystem.GetAbilitySpecBoundToSlot | Source/Aria/Private/AbilitySystem/AriaAbilitySystemComponent.cpp:225-238 | There is no result iff the slot is empty. Otherwise the result is the first spec bound to the slot. |
| AbilitySystem.GetAbilityStatusFromAbilityTag | Source/Aria/Private/AbilitySystem/AriaAbilitySystemComponent.cpp:307-314 | An unknown ability has the empty status. Any status returned lies under Abilities.Status. |
| AbilitySystem.GetInputActivationTagFromAbilityTag | Source/Aria/Private/AbilitySystem/AriaAbilitySystemComponent.cpp:360-367 | An unknown ability has the empty slot. Any slot returned lies under InputTag. |
| AbilitySystem.BoundIffInputTag | Source/Aria/Private/AbilitySystem/AriaAbilitySystemComponent.cpp:213-217 | A spec with at most one slot tag is bound to a slot (an exact tag match, as AbilityBoundToSlot tests it) iff that slot is its input tag. |
| AbilitySystem.SlotIsEmptyIffUnheld | Source/Aria/Private/AbilitySystem/AriaAbilitySystemComponent.cpp:198-211 | Over well-formed specs, SlotIsEmpty holds iff no spec has the slot as its input tag. |
| AbilitySystem.ClearBoundAbilityFromSlot | Source/Aria/Private/AbilitySystem/AriaAbilitySystemComponent.cpp:259-263 | Clearing the slot keeps the class, the level and the status tag. A spec with at most one slot tag is left with none. |
| AbilitySystem.InputTagsAreNotStatusTags | Source/Aria/Private/AbilitySystem/AriaAbilitySystemComponent.cpp:250-263 | Slot tags and status tags never overlap, and the empty tag is under neither, so slot changes cannot touch the status. |
| AbilitySystem.AssignSlotToAbility | Source/Aria/Private/AbilitySystem/AriaAbilitySystemComponent.cpp:250-257 | Assignment keeps the class, the level and the status. A slot under InputTag becomes the spec's one and only input tag. |
| AbilitySystem.StartupSpec | Source/Aria/Private/AbilitySystem/AriaAbilitySystemComponent.cpp:25-44 | A startup ability is given at level 1, Equipped, and bound to its startup input tag, with one tag of each kind. |
| AbilitySystem.StartupSpecsAreEquipped | Source/Aria/Private/AbilitySystem/AriaAbilitySystemComponent.cpp:25-44 | Every spec given at startup comes from the list, belongs to an Aria ability class, is level 1 and Equipped, and is well formed. There are no more specs than classes. |
| AbilitySystem.GrantByLevel | Source/Aria/Private/AbilitySystem/AriaAbilitySystemComponent.cpp:144-194 | Granting by level keeps every existing spec in place. It appends only level-1 specs carrying the status tag, with one status event per spec appended and at most one per table entry. |
| AbilitySystem.GrantByLevelCoversReachedAbilities | Source/Aria/Private/AbilitySystem/AriaAbilitySystemComponent.cpp:144-194 | After the grant, every table entry with a valid tag and a requirement the level meets has a spec. |
| AbilitySystem.SpendPointsOnSpec | Source/Aria/Private/AbilitySystem/AriaAbilitySystemComponent.cpp:495-512 | spending a point keeps the spec's ability; what it does to the status and the level is stated by SpendUnlocksEligible and SpendLevelsUpUnlocked |
| AbilitySystem.SpendUnlocksEligible | Source/Aria/Private/AbilitySystem/AriaAbilitySystemComponent.cpp:495-504 | Spending on an Eligible ability makes it Unlocked at the same level, keeps its slot, and reports Unlocked. |
| AbilitySystem.SpendLevelsUpUnlocked | Source/Aria/Private/AbilitySystem/AriaAbilitySystemComponent.cpp:505-512 | Spending on an Unlocked or Equipped ability raises its level by exactly one and changes no tag. |
| AbilitySystem.SpendRaisesCostByOne | Source/Aria/Private/AbilitySystem/AriaAbilitySystemComponent.cpp:617-649 | A known ability of level at least 1 costs at least one point. Each spend raises the next cost by exactly one. |
| AbilitySystem.SpecSearchIgnoresDynamicState | Source/Aria/Private/AbilitySystem/AriaAbilitySystemComponent.cpp:434-451 | Which spec GetSpecFromAbilityTag finds depends only on the specs' ability classes, so changing a spec's level or tags leaves it found. |
| AbilitySystem.EvictSlot | Source/Aria/Private/AbilitySystem/AriaAbilitySystemComponent.cpp:548-576 | Eviction keeps the number of specs. |
| AbilitySystem.MoveToSlot | Source/Aria/Private/AbilitySystem/AriaAbilitySystemComponent.cpp:548-594 | Moving keeps the number of specs. |
| AbilitySystem.Equip | Source/Aria/Private/AbilitySystem/AriaAbilitySystemComponent.cpp:530-603 | Equipping keeps the number of specs. An unknown ability changes nothing and tells the client nothing. |
| AbilitySystem.EquipNeedsUsableStatus | Source/Aria/Private/AbilitySystem/AriaAbilitySystemComponent.cpp:542-544 | An ability that is neither Unlocked nor Equipped changes no spec. The client is only told of the equip request. |
| AbilitySystem.EquipIntoOwnSlotIsNoOp | Source/Aria/Private/AbilitySystem/AriaAbilitySystemComponent.cpp:553-560 | Equipping into the slot that already holds the same ability changes nothing and sends one client notice. |
| AbilitySystem.EvictSlotFreesSlot | Source/Aria/Private/AbilitySystem/AriaAbilitySystemComponent.cpp:548-576 | After eviction no spec holds the slot, the previous holder has no input tag left, every other spec is unchanged, and the specs stay well formed. |
| AbilitySystem.AssignFreeSlot | Source/Aria/Private/AbilitySystem/AriaAbilitySystemComponent.cpp:594 | Binding a spec to a slot nobody holds keeps the specs well formed. The spec then holds the slot with its status kept. |
| AbilitySystem.EquipOnSuccess | Source/Aria/Private/AbilitySystem/AriaAbilitySystemComponent.cpp:544-601 | With a usable status and a slot not already holding the ability, the outcome is MoveToSlot. The events are the evictions, then the activations, then the client notice. |
| AbilitySystem.EquipOnRefusal | Source/Aria/Private/AbilitySystem/AriaAbilitySystemComponent.cpp:542-560 | With an unusable status, or a slot that already holds the ability, only the client notice is sent. |
| AbilitySystem.MoveToSlotBindsAbility | Source/Aria/Private/AbilitySystem/AriaAbilitySystemComponent.cpp:594 | After the move the ability's one input tag is the slot, and its status, level and class are kept. |
| AbilitySystem.MoveToSlotEvictsHolder | Source/Aria/Private/AbilitySystem/AriaAbilitySystemComponent.cpp:548-576 | After the move the slot's previous holder has no input tag, and every other spec is unchanged. |
| AbilitySystem.MoveToSlotKeepsWellFormed | Source/Aria/Private/AbilitySystem/AriaAbilitySystemComponent.cpp:548-594 | The move keeps one slot and one status per spec, with no slot shared. |
| AbilitySystem.EquipMovesAbilityIntoSlot | Source/Aria/Private/AbilitySystem/AriaAbilitySystemComponent.cpp:530-603 | A successful equip puts the ability in the slot with its status kept and the specs still well formed. |
| AbilitySystem.EvictSlotHolder | Source/Aria/Private/AbilitySystem/AriaAbilitySystemComponent.cpp:547-577 | Reports whether the slot already holds the ability. If not, the result is the evicted specs and the passive-deactivation events. |
| AbilitySystem.BindToSlot | Source/Aria/Private/AbilitySystem/AriaAbilitySystemComponent.cpp:579-595 | A passive ability that held no slot is activated first. Then the spec is assigned the slot. |
| AbilitySystem.AriaAbilitySystemComponent.constructor | Source/Aria/Public/AbilitySystem/AriaAbilitySystemComponent.h:107 | A new component holds no abilities and has given no startup abilities. |
| AbilitySystem.AriaAbilitySystemComponent.AddCharacterAbilities | Source/Aria/Private/AbilitySystem/AriaAbilitySystemComponent.cpp:25-44 | The specs grow by exactly the startup specs, in order. Startup abilities are marked given, and one broadcast is made. |
| AbilitySystem.AriaAbilitySystemComponent.GiveAbilitiesByLevel | Source/Aria/Private/AbilitySystem/AriaAbilitySystemComponent.cpp:144-194 | The loop over the table leaves the specs and events as GrantByLevel says. |
| AbilitySystem.AriaAbilitySystemComponent.UnlockAbilitiesByLevel | Source/Aria/Private/AbilitySystem/AriaAbilitySystemComponent.cpp:144-168 | Abilities reached by the level and not yet owned are given Unlocked at level 1, one status event each. |
| AbilitySystem.AriaAbilitySystemComponent.UpdateAbilitiesEligibilityByLevel | Source/Aria/Private/AbilitySystem/AriaAbilitySystemComponent.cpp:170-194 | Abilities reached by the level and not yet owned are given Eligible at level 1, one status event each. |
| AbilitySystem.AriaAbilitySystemComponent.GetAbilityLevelUpRequirementCost | Source/Aria/Private/AbilitySystem/AriaAbilitySystemComponent.cpp:617-649 | The cost is 0 without a spec or without an exactly matching table entry. Otherwise it is the level for an Eligible ability and the level + 1 for the others. |
| AbilitySystem.AriaAbilitySystemComponent.ServerAbilityPointsSpent | Source/Aria/Private/AbilitySystem/AriaAbilitySystemComponent.cpp:467-528 | With a spec, an XP interface, and a positive, affordable cost: exactly the cost is deducted, the ability is unlocked or levelled, and the client is told its status and level. Every other case changes nothing. |
| AbilitySystem.AriaAbilitySystemComponent.ServerEquipAbility | Source/Aria/Private/AbilitySystem/AriaAbilitySystemComponent.cpp:530-603 | The specs and the events end as Equip says. |
| AbilitySystem.AriaAbilitySystemComponent.UpdateAttribute | Source/Aria/Private/AbilitySystem/AriaAbilitySystemComponent.cpp:275-284 | A point is spent only when the avatar has one. It is exactly one point, with one gameplay event of magnitude 1. Otherwise nothing changes. |
| AbilitySystem.AriaAbilitySystemComponent.ServerUpdateAttribute | Source/Aria/Private/AbilitySystem/AriaAbilitySystemComponent.cpp:286-302 | Sends the attribute's gameplay event with magnitude 1 and takes one attribute point. No other pool changes. |
| AriaEffectContext.Wire | Source/Aria/Private/AriaAbilityTypes.cpp:13-145 | the 25 custom members in the order of their mask bits, from bit 7 on |
| AriaEffectContext.SavedBits | Source/Aria/Private/AriaAbilityTypes.cpp:13-145 | only bits 6 to 31 are used; bit 6 is set iff bHasWorldOrigin; each custom bit is set iff its member differs from its default (true, non-null, non-zero or positive) |
| AriaEffectContext.OriginKeepsWire | Source/Aria/Private/AriaAbilityTypes.cpp:181-189 | reading the world origin leaves every custom member as it was |
| AriaEffectContext.OriginCommutes | Source/Aria/Private/AriaAbilityTypes.cpp:181-189 | reading the world origin and storing the custom members commute |
| AriaEffectContext.LoadInSteps | Source/Aria/Private/AriaAbilityTypes.cpp:148-315 | reading the mask, then the origin, then the custom members in bit order is the whole load |
| AriaEffectContext.FromWireKeeps | Source/Aria/Private/AriaAbilityTypes.cpp:191-315 | storing loaded values changes no member whose bit is clear, and every tag member whose bit is set ends up allocated |
| AriaEffectContext.FromWireRestores0 | Source/Aria/Private/AriaAbilityTypes.cpp:191-221 | custom members 0 to 5 come back as the sender had them when sent, and as the receiver had them otherwise |
| AriaEffectContext.FromWireRestores1 | Source/Aria/Private/AriaAbilityTypes.cpp:222-259 | custom members 6 to 11 come back as the sender had them when sent, and as the receiver had them otherwise |
| AriaEffectContext.FromWireRestores2 | Source/Aria/Private/AriaAbilityTypes.cpp:265-303 | custom members 13 to 21 come back as the sender had them when sent, and as the receiver had them otherwise |
| AriaEffectContext.FromWireRestores3 | Source/Aria/Private/AriaAbilityTypes.cpp:304-315 | custom members 22 to 24 come back as the sender had them when sent, and as the receiver had them otherwise |
| AriaEffectContext.FromWireRestores | Source/Aria/Private/AriaAbilityTypes.cpp:191-315 | every custom member and the world origin come back as Received describes |
| AriaEffectContext.LoadedKeeps | Source/Aria/Private/AriaAbilityTypes.cpp:191-315 | loading from any archive keeps each member whose bit is clear and allocates each sent tag |
| AriaEffectContext.LoadOriginKeeps | Source/Aria/Private/AriaAbilityTypes.cpp:181-189 | the world origin step preserves those two facts |
| AriaEffectContext.LoadKeepsUnsent | Source/Aria/Private/AriaAbilityTypes.cpp:148-315 | for any archive: bHasWorldOrigin follows bit 6, the origin is kept when bit 6 is clear, members with a clear bit are kept, sent tags are allocated, and the four enum members are never updated |
| AriaEffectContext.LoadSaved | Source/Aria/Private/AriaAbilityTypes.cpp:9-325 | loading a saved archive reads the mask and origin the sender wrote and then the custom members from the items it wrote |
| AriaEffectContext.LoadWrittenFields | Source/Aria/Private/AriaAbilityTypes.cpp:191-315 | the custom items the sender wrote read back, member by member, as RestoredWire |
| AriaEffectContext.SaveLoad | Source/Aria/Private/AriaAbilityTypes.cpp:9-325 | saving a context and loading the archive into any context yields Received(receiver, sender), consuming exactly the saved items |
| AriaEffectContext.ReceivedFresh | Source/Aria/Public/AriaAbilityTypes.h:293-370 | on a newly constructed receiver, Received is Restored |
| AriaEffectContext.RoundTrip | Source/Aria/Private/AriaAbilityTypes.cpp:9-325 | save then load into a fresh context gives back Restored(f): every member the sender set, except that members that are not positive come back as 0, the enums stay Disabled, and an absent origin stays zero |
| AriaEffectContext.AriaGameplayEffectContext.constructor | Source/Aria/Public/AriaAbilityTypes.h:293-370 | every member at its declared default |
| AriaEffectContext.AriaGameplayEffectContext.SetIsDodgedHit | Source/Aria/Public/AriaAbilityTypes.h:201 | only that member changes, to the argument |
| AriaEffectContext.AriaGameplayEffectContext.SetIsBlockedHit | Source/Aria/Public/AriaAbilityTypes.h:202 | only that member changes, to the argument |
| AriaEffectContext.AriaGameplayEffectContext.SetIsCriticalHit | Source/Aria/Public/AriaAbilityTypes.h:203 | only that member changes, to the argument |
| AriaEffectContext.AriaGameplayEffectContext.SetDamageType | Source/Aria/Public/AriaAbilityTypes.h:204 | only that member changes, to the argument |
| AriaEffectContext.AriaGameplayEffectContext.SetKnockbackForce | Source/Aria/Public/AriaAbilityTypes.h:205 | only that member changes, to the argument |
| AriaEffectContext.AriaGameplayEffectContext.SetDeathImpulse | Source/Aria/Public/AriaAbilityTypes.h:206 | only that member changes, to the argument |
| AriaEffectContext.AriaGameplayEffectContext.SetIsStatusEffectApplied | Source/Aria/Public/AriaAbilityTypes.h:208-211 | only that member changes, to the argument |
| AriaEffectContext.AriaGameplayEffectContext.SetStatusEffectType | Source/Aria/Public/AriaAbilityTypes.h:213-216 | only that member changes, to the argument |
| AriaEffectContext.AriaGameplayEffectContext.SetStatusEffectDuration | Source/Aria/Public/AriaAbilityTypes.h:218 | only that member changes, to the argument |
| AriaEffectContext.AriaGameplayEffectContext.SetStatusEffectFrequency | Source/Aria/Public/AriaAbilityTypes.h:220-223 | only that member changes, to the argument |
| AriaEffectContext.AriaGameplayEffectContext.SetDamagedAttributeType | Source/Aria/Public/AriaAbilityTypes.h:225-228 | only that member changes, to the argument |
| AriaEffectContext.AriaGameplayEffectContext.SetDamagedAttributeAmount | Source/Aria/Public/AriaAbilityTypes.h:230-233 | only that member changes, to the argument |
| AriaEffectContext.AriaGameplayEffectContext.SetAdditionalDamageTrigger | Source/Aria/Public/AriaAbilityTypes.h:235-238 | only that member changes, to the argument |
| AriaEffectContext.AriaGameplayEffectContext.SetAdditionalDamageAmount | Source/Aria/Public/AriaAbilityTypes.h:240-243 | only that member changes, to the argument |
| AriaEffectContext.AriaGameplayEffectContext.SetRandomlyMissActions | Source/Aria/Public/AriaAbilityTypes.h:245-248 | only that member changes, to the argument |
| AriaEffectContext.AriaGameplayEffectContext.SetRandomMissPercentage | Source/Aria/Public/AriaAbilityTypes.h:250 | only that member changes, to the argument |
| AriaEffectContext.AriaGameplayEffectContext.SetRandomlyStopActions | Source/Aria/Public/AriaAbilityTypes.h:252-255 | only that member changes, to the argument |
| AriaEffectContext.AriaGameplayEffectContext.SetReducedActionPercentage | Source/Aria/Public/AriaAbilityTypes.h:257-260 | only that member changes, to the argument |
| AriaEffectContext.AriaGameplayEffectContext.SetStopAllActions | Source/Aria/Public/AriaAbilityTypes.h:262 | only that member changes, to the argument |
| AriaEffectContext.AriaGameplayEffectContext.SetReducedMovementSpeed | Source/Aria/Public/AriaAbilityTypes.h:263 | only that member changes, to the argument |
| AriaEffectContext.AriaGameplayEffectContext.SetIsRandomizeMovements | Source/Aria/Public/AriaAbilityTypes.h:264 | only that member changes, to the argument |
| AriaEffectContext.AriaGameplayEffectContext.SetIsRunFromTarget | Source/Aria/Public/AriaAbilityTypes.h:265 | only that member changes, to the argument |
| AriaEffectContext.AriaGameplayEffectContext.SetIsInstantKillTarget | Source/Aria/Public/AriaAbilityTypes.h:266 | only that member changes, to the argument |
| AriaEffectContext.AriaGameplayEffectContext.SetReducedLevels | Source/Aria/Public/AriaAbilityTypes.h:267 | stores the float argument truncated toward zero into the int32 member; nothing else changes |
| AriaEffectContext.AriaGameplayEffectContext.SetIsIForceAIControl | Source/Aria/Public/AriaAbilityTypes.h:268 | only that member changes, to the argument |
| AriaEffectContext.AriaGameplayEffectContext.Duplicate | Source/Aria/Public/AriaAbilityTypes.h:277-287 | a fresh context holding the same member values |
| AriaEffectContext.AriaGameplayEffectContext.NetSerializeSave | Source/Aria/Private/AriaAbilityTypes.cpp:9-325 | the archive written is SavedArchive of the members (so SaveLoad/RoundTrip apply to it), and success is reported |
| AriaEffectContext.AriaGameplayEffectContext.NetSerializeLoad | Source/Aria/Private/AriaAbilityTypes.cpp:9-325 | the members and the unread items are exactly LoadArchive of the old members and the archive, and success is reported |
| StatusEffectContext.Wire | Source/Aria/Private/AbilitySystem/EffectContexts/AriaStatusEffectContext.cpp:11-127 | the 19 custom members in the order of their mask bits, from bit 7 on |
| StatusEffectContext.SavedBits | Source/Aria/Private/AbilitySystem/EffectContexts/AriaStatusEffectContext.cpp:11-127 | only bits 6 to 25 are used; bit 6 is set iff bHasWorldOrigin; each custom bit is set iff its member differs from its default (true, non-null, non-zero or positive) |
| StatusEffectContext.OriginKeepsWire | Source/Aria/Private/AbilitySystem/EffectContexts/AriaStatusEffectContext.cpp:162-172 | reading the world origin leaves every custom member as it was |
| StatusEffectContext.OriginCommutes | Source/Aria/Private/AbilitySystem/EffectContexts/AriaStatusEffectContext.cpp:162-172 | reading the world origin and storing the custom members commute |
| StatusEffectContext.LoadInSteps | Source/Aria/Private/AbilitySystem/EffectContexts/AriaStatusEffectContext.cpp:129-275 | reading the mask, then the origin, then the custom members in bit order is the whole load |
| StatusEffectContext.FromWireKeeps | Source/Aria/Private/AbilitySystem/EffectContexts/AriaStatusEffectContext.cpp:174-275 | storing loaded values changes no member whose bit is clear, and every tag member whose bit is set ends up allocated |
| StatusEffectContext.FromWireRestores0 | Source/Aria/Private/AbilitySystem/EffectContexts/AriaStatusEffectContext.cpp:174-275 | custom members 0 to 5 come back as the sender had them when sent, and as the receiver had them otherwise |
| StatusEffectContext.FromWireRestores1 | Source/Aria/Private/AbilitySystem/EffectContexts/AriaStatusEffectContext.cpp:174-275 | custom members 7 to 15 come back as the sender had them when sent, and as the receiver had them otherwise |
| StatusEffectContext.FromWireRestores2 | Source/Aria/Private/AbilitySystem/EffectContexts/AriaStatusEffectContext.cpp:174-275 | custom members 16 to 18 come back as the sender had them when sent, and as the receiver had them otherwise |
| StatusEffectContext.FromWireRestores | Source/Aria/Private/AbilitySystem/EffectContexts/AriaStatusEffectContext.cpp:174-275 | every custom member and the world origin come back as Received describes |
| StatusEffectContext.LoadedKeeps | Source/Aria/Private/AbilitySystem/EffectContexts/AriaStatusEffectContext.cpp:174-275 | loading from any archive keeps each member whose bit is clear and allocates each sent tag |
| StatusEffectContext.LoadOriginKeeps | Source/Aria/Private/AbilitySystem/EffectContexts/AriaStatusEffectContext.cpp:162-172 | the world origin step preserves those two facts |
| StatusEffectContext.LoadKeepsUnsent | Source/Aria/Private/AbilitySystem/EffectContexts/AriaStatusEffectContext.cpp:129-275 | for any archive: bHasWorldOrigin follows bit 6, the origin is kept when bit 6 is clear, members with a clear bit are kept, sent tags are allocated, and the four enum members are never updated |
| StatusEffectContext.LoadSaved | Source/Aria/Private/AbilitySystem/EffectContexts/AriaStatusEffectContext.cpp:9-285 | loading a saved archive reads the mask and origin the sender wrote and then the custom members from the items it wrote |
| StatusEffectContext.LoadWrittenFields | Source/Aria/Private/AbilitySystem/EffectContexts/AriaStatusEffectContext.cpp:174-275 | the custom items the sender wrote read back, member by member, as RestoredWire |
| StatusEffectContext.SaveLoad | Source/Aria/Private/AbilitySystem/EffectContexts/AriaStatusEffectContext.cpp:9-285 | saving a context and loading the archive into any context yields Received(receiver, sender), consuming exactly the saved items |
| StatusEffectContext.ReceivedFresh | Source/Aria/Public/AbilitySystem/EffectContexts/AriaStatusEffectContext.h:136-194 | on a newly constructed receiver, Received is Restored |
| StatusEffectContext.RoundTrip | Source/Aria/Private/AbilitySystem/EffectContexts/AriaStatusEffectContext.cpp:9-285 | save then load into a fresh context gives back Restored(f): every member the sender set, except that members that are not positive come back as 0, the enums stay Disabled, and an absent origin stays zero |
| StatusEffectContext.AriaStatusEffectContext.constructor | Source/Aria/Public/AbilitySystem/EffectContexts/AriaStatusEffectContext.h:136-194 | every member at its declared default |
| StatusEffectContext.AriaStatusEffectContext.SetIsStatusEffectApplied | Source/Aria/Public/AbilitySystem/EffectContexts/AriaStatusEffectContext.h:61 | only that member changes, to the argument |
| StatusEffectContext.AriaStatusEffectContext.SetStatusEffectType | Source/Aria/Public/AbilitySystem/EffectContexts/AriaStatusEffectContext.h:62 | only that member changes, to the argument |
| StatusEffectContext.AriaStatusEffectContext.SetStatusEffectDuration | Source/Aria/Public/AbilitySystem/EffectContexts/AriaStatusEffectContext.h:63 | only that member changes, to the argument |
| StatusEffectContext.AriaStatusEffectContext.SetStatusEffectFrequency | Source/Aria/Public/AbilitySystem/EffectContexts/AriaStatusEffectContext.h:64 | only that member changes, to the argument |
| StatusEffectContext.AriaStatusEffectContext.SetDamagedAttributeType | Source/Aria/Public/AbilitySystem/EffectContexts/AriaStatusEffectContext.h:67-92 | a null pointer is refused and leaves the context unchanged; otherwise only DamagedAttributeType changes |
| StatusEffectContext.AriaStatusEffectContext.SetDamagedAttributeAmount | Source/Aria/Public/AbilitySystem/EffectContexts/AriaStatusEffectContext.h:93 | only that member changes, to the argument |
| StatusEffectContext.AriaStatusEffectContext.SetAdditionalDamageTrigger | Source/Aria/Public/AbilitySystem/EffectContexts/AriaStatusEffectContext.h:94 | only that member changes, to the argument |
| StatusEffectContext.AriaStatusEffectContext.SetAdditionalDamageAmount | Source/Aria/Public/AbilitySystem/EffectContexts/AriaStatusEffectContext.h:95 | only that member changes, to the argument |
| StatusEffectContext.AriaStatusEffectContext.SetRandomlyMissActions | Source/Aria/Public/AbilitySystem/EffectContexts/AriaStatusEffectContext.h:97 | only that member changes, to the argument |
| StatusEffectContext.AriaStatusEffectContext.SetRandomMissPercentage | Source/Aria/Public/AbilitySystem/EffectContexts/AriaStatusEffectContext.h:98 | only that member changes, to the argument |
| StatusEffectContext.AriaStatusEffectContext.SetRandomlyStopActions | Source/Aria/Public/AbilitySystem/EffectContexts/AriaStatusEffectContext.h:99 | only that member changes, to the argument |
| StatusEffectContext.AriaStatusEffectContext.SetReducedActionPercentage | Source/Aria/Public/AbilitySystem/EffectContexts/AriaStatusEffectContext.h:100 | only that member changes, to the argument |
| StatusEffectContext.AriaStatusEffectContext.SetStopAllActions | Source/Aria/Public/AbilitySystem/EffectContexts/AriaStatusEffectContext.h:101 | only that member changes, to the argument |
| StatusEffectContext.AriaStatusEffectContext.SetReducedMovementSpeed | Source/Aria/Public/AbilitySystem/EffectContexts/AriaStatusEffectContext.h:103 | only that member changes, to the argument |
| StatusEffectContext.AriaStatusEffectContext.SetIsRandomizeMovements | Source/Aria/Public/AbilitySystem/EffectContexts/AriaStatusEffectContext.h:104 | only that member changes, to the argument |
| StatusEffectContext.AriaStatusEffectContext.SetIsRunFromTarget | Source/Aria/Public/AbilitySystem/EffectContexts/AriaStatusEffectContext.h:105 | only that member changes, to the argument |
| StatusEffectContext.AriaStatusEffectContext.SetIsInstantKillTarget | Source/Aria/Public/AbilitySystem/EffectContexts/AriaStatusEffectContext.h:107 | only that member changes, to the argument |
| StatusEffectContext.AriaStatusEffectContext.SetReducedLevels | Source/Aria/Public/AbilitySystem/EffectContexts/AriaStatusEffectContext.h:108 | stores the float argument truncated toward zero into the int32 member; nothing else changes |
| StatusEffectContext.AriaStatusEffectContext.SetIsIForceAIControl | Source/Aria/Public/AbilitySystem/EffectContexts/AriaStatusEffectContext.h:109 | only that member changes, to the argument |
| StatusEffectContext.AriaStatusEffectContext.Duplicate | Source/Aria/Public/AbilitySystem/EffectContexts/AriaStatusEffectContext.h:120-130 | a fresh context holding the same member values |
| StatusEffectContext.AriaStatusEffectContext.NetSerializeSave | Source/Aria/Private/AbilitySystem/EffectContexts/AriaStatusEffectContext.cpp:9-285 | the archive written is SavedArchive of the members (so SaveLoad/RoundTrip apply to it), and success is reported |
| StatusEffectContext.AriaStatusEffectContext.NetSerializeLoad | Source/Aria/Private/AbilitySystem/EffectContexts/AriaStatusEffectContext.cpp:9-285 | the members and the unread items are exactly LoadArchive of the old members and the archive, and success is reported |
| MainDamageEffectContext.Wire | Source/Aria/Private/AbilitySystem/EffectContexts/AriaMainDamageEffectContext.cpp:11-94 | the 11 custom members in the order of their mask bits, from bit 7 on |
| MainDamageEffectContext.SavedBits | Source/Aria/Private/AbilitySystem/EffectContexts/AriaMainDamageEffectContext.cpp:11-94 | only bits 6 to 17 are used; bit 6 is set iff bHasWorldOrigin; each custom bit is set iff its member differs from its default (true, non-null, non-zero or positive) |
| MainDamageEffectContext.OriginKeepsWire | Source/Aria/Private/AbilitySystem/EffectContexts/AriaMainDamageEffectContext.cpp:129-139 | reading the world origin leaves every custom member as it was |
| MainDamageEffectContext.OriginCommutes | Source/Aria/Private/AbilitySystem/EffectContexts/AriaMainDamageEffectContext.cpp:129-139 | reading the world origin and storing the custom members commute |
| MainDamageEffectContext.LoadInSteps | Source/Aria/Private/AbilitySystem/EffectContexts/AriaMainDamageEffectContext.cpp:96-192 | reading the mask, then the origin, then the custom members in bit order is the whole load |
| MainDamageEffectContext.FromWireKeeps | Source/Aria/Private/AbilitySystem/EffectContexts/AriaMainDamageEffectContext.cpp:140-192 | storing loaded values changes no member whose bit is clear, and every tag member whose bit is set ends up allocated |
| MainDamageEffectContext.FromWireRestores0 | Source/Aria/Private/AbilitySystem/EffectContexts/AriaMainDamageEffectContext.cpp:140-192 | custom members 0 to 5 come back as the sender had them when sent, and as the receiver had them otherwise |
| MainDamageEffectContext.FromWireRestores1 | Source/Aria/Private/AbilitySystem/EffectContexts/AriaMainDamageEffectContext.cpp:140-192 | custom members 6 to 10 come back as the sender had them when sent, and as the receiver had them otherwise |
| MainDamageEffectContext.FromWireRestores | Source/Aria/Private/AbilitySystem/EffectContexts/AriaMainDamageEffectContext.cpp:140-192 | every custom member and the world origin come back as Received describes |
| MainDamageEffectContext.LoadedKeeps | Source/Aria/Private/AbilitySystem/EffectContexts/AriaMainDamageEffectContext.cpp:140-192 | loading from any archive keeps each member whose bit is clear and allocates each sent tag |
| MainDamageEffectContext.LoadOriginKeeps | Source/Aria/Private/AbilitySystem/EffectContexts/AriaMainDamageEffectContext.cpp:129-139 | the world origin step preserves those two facts |
| MainDamageEffectContext.LoadKeepsUnsent | Source/Aria/Private/AbilitySystem/EffectContexts/AriaMainDamageEffectContext.cpp:96-192 | for any archive: bHasWorldOrigin follows bit 6, the origin is kept when bit 6 is clear, members with a clear bit are kept, sent tags are allocated |
| MainDamageEffectContext.LoadSaved | Source/Aria/Private/AbilitySystem/EffectContexts/AriaMainDamageEffectContext.cpp:9-202 | loading a saved archive reads the mask and origin the sender wrote and then the custom members from the items it wrote |
| MainDamageEffectContext.LoadWrittenFields | Source/Aria/Private/AbilitySystem/EffectContexts/AriaMainDamageEffectContext.cpp:140-192 | the custom items the sender wrote read back, member by member, as RestoredWire |
| MainDamageEffectContext.SaveLoad | Source/Aria/Private/AbilitySystem/EffectContexts/AriaMainDamageEffectContext.cpp:9-202 | saving a context and loading the archive into any context yields Received(receiver, sender), consuming exactly the saved items |
| MainDamageEffectContext.ReceivedFresh | Source/Aria/Public/AbilitySystem/EffectContexts/AriaMainDamageEffectContext.h:84-119 | on a newly constructed receiver, Received is Restored |
| MainDamageEffectContext.RoundTrip | Source/Aria/Private/AbilitySystem/EffectContexts/AriaMainDamageEffectContext.cpp:9-202 | save then load into a fresh context gives back Restored(f): every member the sender set, except that non-positive floats come back as 0 and an absent origin stays zero |
| MainDamageEffectContext.AriaMainDamageEffectContext.constructor | Source/Aria/Public/AbilitySystem/EffectContexts/AriaMainDamageEffectContext.h:84-119 | every member at its declared default |
| MainDamageEffectContext.AriaMainDamageEffectContext.SetIsDodgedHit | Source/Aria/Public/AbilitySystem/EffectContexts/AriaMainDamageEffectContext.h:44 | only that member changes, to the argument |
| MainDamageEffectContext.AriaMainDamageEffectContext.SetIsBlockedHit | Source/Aria/Public/AbilitySystem/EffectContexts/AriaMainDamageEffectContext.h:45 | only that member changes, to the argument |
| MainDamageEffectContext.AriaMainDamageEffectContext.SetIsCriticalHit | Source/Aria/Public/AbilitySystem/EffectContexts/AriaMainDamageEffectContext.h:46 | only that member changes, to the argument |
| MainDamageEffectContext.AriaMainDamageEffectContext.SetDamageType | Source/Aria/Public/AbilitySystem/EffectContexts/AriaMainDamageEffectContext.h:48 | only that member changes, to the argument |
| MainDamageEffectContext.AriaMainDamageEffectContext.SetIsRadialDamage | Source/Aria/Public/AbilitySystem/EffectContexts/AriaMainDamageEffectContext.h:50 | only that member changes, to the argument |
| MainDamageEffectContext.AriaMainDamageEffectContext.SetRadialDamageMinimumAmt | Source/Aria/Public/AbilitySystem/EffectContexts/AriaMainDamageEffectContext.h:51 | only that member changes, to the argument |
| MainDamageEffectContext.AriaMainDamageEffectContext.SetRadialDamageInnerRadius | Source/Aria/Public/AbilitySystem/EffectContexts/AriaMainDamageEffectContext.h:52 | only that member changes, to the argument |
| MainDamageEffectContext.AriaMainDamageEffectContext.SetRadialDamageOuterRadius | Source/Aria/Public/AbilitySystem/EffectContexts/AriaMainDamageEffectContext.h:53 | only that member changes, to the argument |
| MainDamageEffectContext.AriaMainDamageEffectContext.SetRadialDamageOrigin | Source/Aria/Public/AbilitySystem/EffectContexts/AriaMainDamageEffectContext.h:54 | only that member changes, to the argument |
| MainDamageEffectContext.AriaMainDamageEffectContext.SetKnockbackForce | Source/Aria/Public/AbilitySystem/EffectContexts/AriaMainDamageEffectContext.h:56 | only that member changes, to the argument |
| MainDamageEffectContext.AriaMainDamageEffectContext.SetDeathImpulse | Source/Aria/Public/AbilitySystem/EffectContexts/AriaMainDamageEffectContext.h:57 | only that member changes, to the argument |
| MainDamageEffectContext.AriaMainDamageEffectContext.Duplicate | Source/Aria/Public/AbilitySystem/EffectContexts/AriaMainDamageEffectContext.h:68-78 | a fresh context holding the same member values |
| MainDamageEffectContext.AriaMainDamageEffectContext.NetSerializeSave | Source/Aria/Private/AbilitySystem/EffectContexts/AriaMainDamageEffectContext.cpp:9-202 | the archive written is SavedArchive of the members (so SaveLoad/RoundTrip apply to it), and success is reported |
| MainDamageEffectContext.AriaMainDamageEffectContext.NetSerializeLoad | Source/Aria/Private/AbilitySystem/EffectContexts/AriaMainDamageEffectContext.cpp:9-202 | the members and the unread items are exactly LoadArchive of the old members and the archive, and success is reported |
| AbilityTypes.AdditionalDamageTriggers.Ord | Source/Aria/Public/AriaAbilityTypes.h:10-18 | the uint8 value is below the number of enumerators and is 0 exactly for Disabled |
| AbilityTypes.RandomlyMissAnyActions.Ord | Source/Aria/Public/AriaAbilityTypes.h:21-27 | the uint8 value is below 4 and is 0 exactly for Disabled |
| AbilityTypes.RandomlyStopAnyActions.Ord | Source/Aria/Public/AriaAbilityTypes.h:30-36 | the uint8 value is below 4 and is 0 exactly for Disabled |
| AbilityTypes.StopAllActions.Ord | Source/Aria/Public/AriaAbilityTypes.h:39-45 | the uint8 value is below 4 and is 0 exactly for Disabled |
| AbilityTypes.NewAbilityModifier | Source/Aria/Public/AriaAbilityTypes.h:50-159 | a default FAbilityModifier has ability level 1 and no damage, knockback or status effect configured |
| NetArchive.Default | Source/Aria/Public/AriaAbilityTypes.h:293-370 | a member's default is of the member's own kind and never sets its mask bit |
| NetArchive.Decode | Source/Aria/Private/AriaAbilityTypes.cpp:191-315 | reading a member back keeps its kind, never changes an enum member (the value is read into a temporary), and always yields an allocated tag for a tag member |
| NetArchive.RestoreSameKind | Source/Aria/Private/AriaAbilityTypes.cpp:191-315 | a member takes the sent value exactly when its bit was set and it is not an enum, and keeps its value otherwise |
| NetArchive.ReadMask | Source/Aria/Private/AriaAbilityTypes.cpp:148 | only the low width bits of the mask are read, and every one of them that was written comes through |
| NetArchive.ReadMaskFits | Source/Aria/Private/AriaAbilityTypes.cpp:148 | a mask that fits the width reads back unchanged |
| NetArchive.Mask | Source/Aria/Private/AriaAbilityTypes.cpp:45-145 | bit first+i is set exactly when member i differs from its default |
| NetArchive.Load | Source/Aria/Private/AriaAbilityTypes.cpp:191-315 | loading keeps one value per member |
| NetArchive.LoadFieldwise | Source/Aria/Private/AriaAbilityTypes.cpp:191-315 | for any archive: members keep their kind, members with a clear bit and enum members keep their value, and sent tags are allocated |
| NetArchive.LoadWritten | Source/Aria/Private/AriaAbilityTypes.cpp:191-315 | loading the items written for a mask consumes exactly those items and gives each member Restore(current, sent) |
| NetArchive.AddMaskBits | Source/Aria/Private/AriaAbilityTypes.cpp:45-145 | the loop of bit tests adds exactly Mask of the members to the bits already set |
| NetArchive.WriteFields | Source/Aria/Private/AriaAbilityTypes.cpp:191-315 | the saving loop writes exactly the items Written describes, in ascending bit order |
| NetArchive.LoadCons | Source/Aria/Private/AriaAbilityTypes.cpp:191-315 | the load of a member list is the load of its first member followed by the load of the rest |
| NetArchive.AppendedTwice | Source/Aria/Private/AriaAbilityTypes.cpp:191-315 | prefixing loaded members twice is prefixing their concatenation |
| NetArchive.ReadFields | Source/Aria/Private/AriaAbilityTypes.cpp:191-315 | the loading loop yields the members and the unread items that Load describes |
| EffectContextAggregator.CombineAsWritten | Source/Aria/Private/AbilitySystem/EffectContexts/AriaEffectContextAggregator.cpp:9-10 | as written, a present sub-context makes the line yield true, because its serialiser overwrites bOutSuccess before `&=` reads it; an absent one makes it false |
| EffectContextAggregator.SuccessAsWrittenIsStatus | Source/Aria/Private/AbilitySystem/EffectContexts/AriaEffectContextAggregator.cpp:8-11 | as written, the reported success depends only on whether the status-effect context is present |
| EffectContextAggregator.MissingMainReportedAsSuccess | Source/Aria/Private/AbilitySystem/EffectContexts/AriaEffectContextAggregator.cpp:9-10 | as written, a missing main-damage context next to a present status context is reported as success; the corrected combination reports failure |
| EffectContextAggregator.CombineIntended | Source/Aria/Private/AbilitySystem/EffectContexts/AriaEffectContextAggregator.cpp:9-10 | corrected: the line yields true exactly when success so far holds and the sub-context is present and serialised |
| EffectContextAggregator.SuccessIntendedBoth | Source/Aria/Private/AbilitySystem/EffectContexts/AriaEffectContextAggregator.cpp:8-11 | corrected: success is reported exactly when both sub-contexts are present |
| EffectContextAggregator.SaveLoadBoth | Source/Aria/Private/AbilitySystem/EffectContexts/AriaEffectContextAggregator.cpp:6-12 | an aggregator with both contexts, saved then loaded: each context receives what it saved, in its own Received sense, and the items after them are left unread |
| EffectContextAggregator.AriaEffectContextAggregator.constructor | Source/Aria/Public/AbilitySystem/EffectContexts/AriaEffectContextAggregator.h:24 | both context pointers are null |
| EffectContextAggregator.AriaEffectContextAggregator.SetMainDamageContext | Source/Aria/Public/AbilitySystem/EffectContexts/AriaEffectContextAggregator.h:32 | only the main-damage pointer changes |
| EffectContextAggregator.AriaEffectContextAggregator.SetStatusEffectContext | Source/Aria/Public/AbilitySystem/EffectContexts/AriaEffectContextAggregator.h:34 | only the status-effect pointer changes |
| EffectContextAggregator.AriaEffectContextAggregator.Duplicate | Source/Aria/Public/AbilitySystem/EffectContexts/AriaEffectContextAggregator.h:42-47 | a fresh aggregator sharing both sub-contexts with the original |
| EffectContextAggregator.AriaEffectContextAggregator.NetSerializeSave | Source/Aria/Private/AbilitySystem/EffectContexts/AriaEffectContextAggregator.cpp:6-12 | the archive is the main context's saved items followed by the status context's, each only when present; success (corrected) is reported exactly when both are present |
| EffectContextAggregator.AriaEffectContextAggregator.NetSerializeLoad | Source/Aria/Private/AbilitySystem/EffectContexts/AriaEffectContextAggregator.cpp:6-12 | the main context, when present, loads from the front of the archive and the status context from what it leaves; success (corrected) exactly when both are present |
| AbilitySystemLibrary.TagOrEmpty | Source/Aria/Private/AbilitySystem/AriaAbilitySystemLibrary.cpp:343-348 | a null tag pointer reads as the empty tag, a non-null one as its tag |
| AbilitySystemLibrary.GetStatusEffectType | Source/Aria/Private/AbilitySystem/AriaAbilitySystemLibrary.cpp:338-349 | the empty tag for a null context or a null pointer, the stored status-effect tag otherwise |
| AbilitySystemLibrary.GetDamagedAttributeType | Source/Aria/Private/AbilitySystem/AriaAbilitySystemLibrary.cpp:402-413 | the empty tag for a null context or a null pointer, the stored damaged-attribute tag otherwise |
| AbilitySystemLibrary.SetIsDodgedHit | Source/Aria/Private/AbilitySystem/AriaAbilitySystemLibrary.cpp:195-203 | a non-null context gets the flag and nothing else changes |
| AbilitySystemLibrary.SetIsBlockedHit | Source/Aria/Private/AbilitySystem/AriaAbilitySystemLibrary.cpp:215-223 | a non-null context gets the flag and nothing else changes |
| AbilitySystemLibrary.SetIsCriticalHit | Source/Aria/Private/AbilitySystem/AriaAbilitySystemLibrary.cpp:235-243 | a non-null context gets the flag and nothing else changes |
| AbilitySystemLibrary.SetStatusEffectApplied | Source/Aria/Private/AbilitySystem/AriaAbilitySystemLibrary.cpp:328-336 | a non-null context gets the flag and nothing else changes |
| AbilitySystemLibrary.SetStatusEffectType | Source/Aria/Private/AbilitySystem/AriaAbilitySystemLibrary.cpp:351-360 | a non-null context gets a newly allocated, hence non-null, pointer to the tag |
| AbilitySystemLibrary.SetStatusEffectDuration | Source/Aria/Private/AbilitySystem/AriaAbilitySystemLibrary.cpp:372-380 | a non-null context gets the duration and nothing else changes |
| AbilitySystemLibrary.SetStatusEffectFrequency | Source/Aria/Private/AbilitySystem/AriaAbilitySystemLibrary.cpp:392-400 | a non-null context gets the frequency and nothing else changes |
| AbilitySystemLibrary.SetDamagedAttributeType | Source/Aria/Private/AbilitySystem/AriaAbilitySystemLibrary.cpp:415-424 | a non-null context gets a newly allocated, hence non-null, pointer to the tag |
| AbilitySystemLibrary.SetDamagedAttributeAmount | Source/Aria/Private/AbilitySystem/AriaAbilitySystemLibrary.cpp:436-444 | a non-null context gets the amount and nothing else changes |
| AbilitySystemLibrary.ClosestIndexUpTo | Source/Aria/Private/AbilitySystem/AriaAbilitySystemLibrary.cpp:767-778 | the inner scan settles on an actor no farther than any other, and on the first of several equally near ones (a candidate is replaced only by a strictly nearer one) |
| AbilitySystemLibrary.RemoveAll | Source/Aria/Private/AbilitySystem/AriaAbilitySystemLibrary.cpp:781 | TArray::Remove takes out every copy of the actor and keeps all others |
| AbilitySystemLibrary.AddUnique | Source/Aria/Private/AbilitySystem/AriaAbilitySystemLibrary.cpp:782 | TArray::AddUnique appends the actor only when it is not already there |
| AbilitySystemLibrary.PickStep | Source/Aria/Private/AbilitySystem/AriaAbilitySystemLibrary.cpp:763-785 | one round of the outer loop (find the nearest remaining actor, Remove it, AddUnique it) keeps the loop invariant: the out array is the old one plus the picks so far, and the picks still to come are those of the remaining actors |
| AbilitySystemLibrary.PickEnd | Source/Aria/Private/AbilitySystem/AriaAbilitySystemLibrary.cpp:763-786 | when the loop stops, because MaxActors rounds ran or no actor is left, the out array holds the old entries plus every pick |
| AbilitySystemLibrary.AddAllUniqueSnoc | Source/Aria/Private/AbilitySystem/AriaAbilitySystemLibrary.cpp:782 | adding the picks one by one and then one more actor is the same as adding the longer pick list |
| AbilitySystemLibrary.FindClosestActor | Source/Aria/Private/AbilitySystem/AriaAbilitySystemLibrary.cpp:767-778 | the for loop returns exactly the actor ClosestIndexUpTo describes |
| AbilitySystemLibrary.GetClosestActors | Source/Aria/Private/AbilitySystem/AriaAbilitySystemLibrary.cpp:746-786 | the out array is the input list when it holds at most MaxActors actors, and otherwise the old out array plus the picks of at most MaxActors rounds |
| AbilitySystemLibrary.ClosestPicksFromList | Source/Aria/Private/AbilitySystem/AriaAbilitySystemLibrary.cpp:760-785 | at most k picks, each from the list, none twice |
| AbilitySystemLibrary.ClosestPicksAreNearest | Source/Aria/Private/AbilitySystem/AriaAbilitySystemLibrary.cpp:763-785 | each pick is no farther than any actor not picked before it, and fewer than k picks means every actor was picked |
| AbilitySystemLibrary.AddAllUniqueKeeps | Source/Aria/Private/AbilitySystem/AriaAbilitySystemLibrary.cpp:782 | AddUnique of several picks keeps the old entries as a prefix, adds every pick, and adds only picks not already present |
| AbilitySystemLibrary.ClosestActorsChosen | Source/Aria/Private/AbilitySystem/AriaAbilitySystemLibrary.cpp:760-785 | for a list longer than MaxActors, the out array keeps its entries and gains at most max(MaxActors, 0) actors, each from the list, none twice, each no farther than any listed actor left out |
| Names.FoldCase | Source/Aria/Private/Actor/AriaEffectActor.cpp:30 | an ASCII capital is folded to its lower-case letter, 32 code points on, and every other character is kept |
| Names.NameEqualsEquivalence | Source/Aria/Private/AbilitySystem/AriaAbilitySystemLibrary.cpp:1731-1732 | FName equality, as ActorHasTag applies it, is reflexive, symmetric and transitive |
| Names.ActorHasTagIgnoresCase | Source/Aria/Private/Actor/AriaEffectActor.cpp:30 | ActorHasTag("Enemy") finds a tag spelled Enemy, enemy or ENEMY |
| Names.LongerNameDiffers | Source/Aria/Private/Actor/AriaEffectActor.cpp:30 | no tag of another length matches, so a tag such as Enemies is not the Enemy tag |
| AbilitySystemLibrary.IsNotFriendIffNoCommonTeam | Source/Aria/Private/AbilitySystem/AriaAbilitySystemLibrary.cpp:1726-1737 | two actors are friends exactly when both carry Player or both carry Enemy, each tag compared as an FName, without case |
| AbilitySystemLibrary.IsNotFriendSymmetric | Source/Aria/Private/AbilitySystem/AriaAbilitySystemLibrary.cpp:1726-1737 | the predicate does not depend on the order of the two actors |
| AbilitySystemLibrary.GetAttributeByTag | Source/Aria/Private/AbilitySystem/AriaAbilitySystemLibrary.cpp:1861-1878 | a tag with no entry yields the default (no) attribute |
| AbilitySystemLibrary.GetAttributeByTagIsLookup | Source/Aria/Private/AbilitySystem/AriaAbilitySystemLibrary.cpp:1861-1878 | with the unique keys of a TMap, the search returns the attribute mapped to the tag |
| AbilitySystemLibrary.MatchesBetweenFront | Source/Aria/Public/AbilitySystem/AriaAbilitySystemLibrary.h:529-540 | counting the matching rows splits at the first row |
| AbilitySystemLibrary.RowSearchFindsMatch | Source/Aria/Public/AbilitySystem/AriaAbilitySystemLibrary.h:529-544 | with counter k the scan returns a row carrying the tag that has exactly k matching rows before it, and returns none exactly when no more than k rows match |
| AbilitySystemLibrary.GetDataTableRowByTagAndRowIndex | Source/Aria/Public/AbilitySystem/AriaAbilitySystemLibrary.h:512-545 | null for a null table, null when RowIndex is not an index of the row-name list whatever matches, and otherwise the (RowIndex+1)-th row carrying the tag or null |
| AbilitySystemLibrary.GetAbilityDescriptionsRow | Source/Aria/Public/AbilitySystem/AriaAbilitySystemLibrary.h:548-574 | null for a null table; a returned row carries both the ability tag and the level and no earlier row does; null otherwise means no row matches |
| AbilitySystemLibrary.FirstDescriptionRow | Source/Aria/Public/AbilitySystem/AriaAbilitySystemLibrary.h:562-570 | the scan from a row on returns the first row carrying both tag and level, or none when no later row does |
| GyroAxisPoints.LessIrreflexive | Source/Aria/Public/AbilitySystem/AriaAbilitySystemLibrary.h:48-51 | no point is smaller than itself |
| GyroAxisPoints.LessTransitive | Source/Aria/Public/AbilitySystem/AriaAbilitySystemLibrary.h:48-51 | operator< is transitive |
| GyroAxisPoints.DefaultIsLeast | Source/Aria/Public/AbilitySystem/AriaAbilitySystemLibrary.h:36-37 | the default point, at the world origin, is smaller than or equal to every point |
| GyroAxisPoints.LinePointsAreSpaced | Source/Aria/Private/AbilitySystem/AriaAbilitySystemLibrary.cpp:971-989 | a line holds max(N, 0) points, point i at offset i times the distance along the direction |
| GyroAxisPoints.CreateGyroAxisPtDirectioned | Source/Aria/Private/AbilitySystem/AriaAbilitySystemLibrary.cpp:960-1001 | the out array gains exactly the points of the line, in order |
| GyroAxisPoints.CrossLinesCount | Source/Aria/Private/AbilitySystem/AriaAbilitySystemLibrary.cpp:1224-1243 | k lines of N points hold k times N points |
| GyroAxisPoints.CrossCount | Source/Aria/Private/AbilitySystem/AriaAbilitySystemLibrary.cpp:1202-1244 | Cross appends TotalCrossDirections times N points, and none when either is not positive |
| GyroAxisPoints.CreateGyroAxisPtCross | Source/Aria/Private/AbilitySystem/AriaAbilitySystemLibrary.cpp:1202-1244 | the out array gains exactly the lines of every cross direction, in order |
| GyroAxisPoints.EdgeSteps | Source/Aria/Private/AbilitySystem/AriaAbilitySystemLibrary.cpp:1300-1306 | the steps from..till-1 of an edge are till-from points, or none |
| GyroAxisPoints.SquareCount | Source/Aria/Private/AbilitySystem/AriaAbilitySystemLibrary.cpp:1252-1311 | Square emits nothing for N < 4 and exactly N points for N >= 4 |
| GyroAxisPoints.AddEdgeSteps | Source/Aria/Private/AbilitySystem/AriaAbilitySystemLibrary.cpp:1300-1306 | one edge's inner loop appends exactly that edge's steps, in order |
| GyroAxisPoints.GenerateGyroPtSquareShape | Source/Aria/Private/AbilitySystem/AriaAbilitySystemLibrary.cpp:1246-1312 | the out array gains exactly SquarePoints, whose count SquareCount gives |
| GyroAxisPoints.AddSquareEdges | Source/Aria/Private/AbilitySystem/AriaAbilitySystemLibrary.cpp:1281-1307 | the edge loop appends the points of all four edges, in order |
| GyroAxisPoints.GenerateGyroPtCircleShape | Source/Aria/Private/AbilitySystem/AriaAbilitySystemLibrary.cpp:1314-1343 | the out array gains exactly the N ring points, and nothing for N < 3 |
| GyroAxisPoints.AdjustedVertexCount | Source/Aria/Private/AbilitySystem/AriaAbilitySystemLibrary.cpp:1362-1365 | a vertex count of 3 is kept, an odd count is raised by one to even, an even count is kept |
| GyroAxisPoints.ComplexSegmentsCount | Source/Aria/Private/AbilitySystem/AriaAbilitySystemLibrary.cpp:1398-1426 | k segments of perSegment+1 points each, plus one extra on the first `remaining` of them |
| GyroAxisPoints.ComplexShapeCount | Source/Aria/Private/AbilitySystem/AriaAbilitySystemLibrary.cpp:1353-1426 | with V the adjusted vertex count: exactly N points when N >= V, and V + N when 3 <= N < V |
| GyroAxisPoints.DivisionBounds | Source/Aria/Private/AbilitySystem/AriaAbilitySystemLibrary.cpp:1398-1399 | the quotient and remainder of a point count by the vertex count obey the division identity SegmentPoints and RemainingPoints depend on |
| GyroAxisPoints.MultipleAtLeast | Source/Aria/Private/AbilitySystem/AriaAbilitySystemLibrary.cpp:1398 | a positive multiple of V is at least V |
| GyroAxisPoints.AddComplexSegments | Source/Aria/Private/AbilitySystem/AriaAbilitySystemLibrary.cpp:1401-1426 | the segment loop, with its RemainingPoints countdown, appends exactly ComplexSegments |
| GyroAxisPoints.GenerateGyroPtComplexShape | Source/Aria/Private/AbilitySystem/AriaAbilitySystemLibrary.cpp:1345-1427 | the out array gains exactly ComplexShapePoints, whose count ComplexShapeCount gives |
| GyroAxisPoints.CeilSqrt | Source/Aria/Private/AbilitySystem/AriaAbilitySystemLibrary.cpp:1524 | the least g whose square reaches N |
| GyroAxisPoints.CeilSqrtFrom | Source/Aria/Private/AbilitySystem/AriaAbilitySystemLibrary.cpp:1524 | the upward search ends at the least g whose square reaches N |
| GyroAxisPoints.GridHalfSize | Source/Aria/Private/AbilitySystem/AriaAbilitySystemLibrary.cpp:1524-1531 | the odd grid side 2h+1 is at least the ceiling of the square root of N, so the grid has at least N cells |
| GyroAxisPoints.SquareMonotone | Source/Aria/Private/AbilitySystem/AriaAbilitySystemLibrary.cpp:1524-1531 | squaring preserves order on naturals |
| GyroAxisPoints.GridWalkCount | Source/Aria/Private/AbilitySystem/AriaAbilitySystemLibrary.cpp:1547-1572 | from a cell with enough cells left, the walk keeps what the array held and ends with max(N, held + 1) entries |
| GyroAxisPoints.GridCount | Source/Aria/Private/AbilitySystem/AriaAbilitySystemLibrary.cpp:1514-1573 | Grid leaves the array alone for N < 9; otherwise it keeps its entries and stops at N entries (at least one point added) |
| GyroAxisPoints.CreateGyroAxisPtGrid | Source/Aria/Private/AbilitySystem/AriaAbilitySystemLibrary.cpp:1504-1574 | the nested loops leave exactly GridPoints in the out array |
| GyroAxisPoints.RotatorsSpreadCount | Source/Aria/Private/AbilitySystem/AriaAbilitySystemLibrary.cpp:1688-1723 | no rotators for RotationPoints <= 0 or a null world context, and exactly RotationPoints otherwise |
| GyroAxisPoints.CreateRotatorsSpread | Source/Aria/Private/AbilitySystem/AriaAbilitySystemLibrary.cpp:1679-1724 | the rotators are those of RotatorsSpread, whose count RotatorsSpreadCount gives |
| AbilityMenu.MenuButtonsCharacterized | Source/Aria/Private/UI/WidgetController/AbilityMenuWidgetController.cpp:215-242 | with both buttons starting disabled: Equip is enabled exactly for an Unlocked or Equipped ability, and Spend exactly when there are points and the ability is Eligible, Unlocked or Equipped |
| AbilityMenu.LockedDisablesButtons | Source/Aria/Private/UI/WidgetController/AbilityMenuWidgetController.cpp:222-226 | a Locked ability disables both buttons whatever the points |
| AbilityMenu.UnknownStatusKeepsButtons | Source/Aria/Private/UI/WidgetController/AbilityMenuWidgetController.cpp:215-242 | a status outside the four leaves both out-parameters as they came in |
| AbilityMenu.SelectedStatus | Source/Aria/Private/UI/WidgetController/AbilityMenuWidgetController.cpp:151-180 | Locked for an invalid tag, a tag under Abilities.None or an ability without a spec; otherwise the spec's own status |
| AbilityMenu.SelectionEnablesEquip | Source/Aria/Private/UI/WidgetController/AbilityMenuWidgetController.cpp:151-196 | selecting a globe enables Equip exactly for an owned, real ability whose spec is Unlocked or Equipped; an ability not owned enables no button |
| AbilityMenu.DeselectedButtonsStayDisabled | Source/Aria/Private/UI/WidgetController/AbilityMenuWidgetController.cpp:198-213 | after a deselection the buttons recomputed for any point count stay disabled |
| AbilityMenu.ClearedSlotInfo | Source/Aria/Private/UI/WidgetController/AbilityMenuWidgetController.cpp:124-132 | the slot left behind is broadcast as Abilities.None, Unlocked, in that slot |
| AbilityMenu.EquippedSlotInfo | Source/Aria/Private/UI/WidgetController/AbilityMenuWidgetController.cpp:134-141 | the new slot is broadcast with the ability's own info entry, the given status and the new slot |
| AbilityMenu.AbilityInfoBroadcasts | Source/Aria/Private/UI/WidgetController/AriaWidgetController.cpp:30-56 | no broadcast before the startup abilities are given, and otherwise exactly one per spec |
| AbilityMenu.AbilityInfoBroadcastsFollowSpecs | Source/Aria/Private/UI/WidgetController/AriaWidgetController.cpp:36-56 | the k-th broadcast is the info for the k-th activatable spec |
| AbilityMenu.AbilityInfoBroadcastsStep | Source/Aria/Private/AbilitySystem/AriaAbilitySystemComponent.cpp:63-71 | the broadcasts for one more spec are the earlier ones followed by that spec's, as the ForEachAbility loop sends them |
| AbilityMenu.SpecAbilityInfoContents | Source/Aria/Private/UI/WidgetController/AriaWidgetController.cpp:39-50 | a spec's info carries its own type, status and slot, and the asset's entry for its ability otherwise; an ability the asset does not know is sent under the empty tag with the defaults |
| AbilityMenu.CollectAbilityInfo | Source/Aria/Private/AbilitySystem/AriaAbilitySystemComponent.cpp:57-72 | the ForEachAbility loop over the activatable specs yields exactly AbilityInfoBroadcasts, one info per spec in order, each built as the lambda at AriaWidgetController.cpp:36-53 builds it |
| AbilityMenu.AbilityMenuWidgetController.constructor | Source/Aria/Public/UI/WidgetController/AbilityMenuWidgetController.h:76-83 | holds the given AbilityInfo asset and whether it is set; nothing selected (Abilities.None, Locked), no points seen, not waiting, no slot, no events |
| AbilityMenu.AbilityMenuWidgetController.BroadcastAbilityInfo | Source/Aria/Private/UI/WidgetController/AriaWidgetController.cpp:28-57 | nothing before the startup abilities are given; then exactly one info per activatable spec, in order (AbilityInfoBroadcasts); the selection and the wait stay as they were |
| AbilityMenu.AbilityMenuWidgetController.BroadcastInitialValues | Source/Aria/Private/UI/WidgetController/AbilityMenuWidgetController.cpp:12-18 | broadcasts every ability's info as BroadcastAbilityInfo does, then the player state's current points, and changes no other state |
| AbilityMenu.AbilityMenuWidgetController.OnAbilityPointsChanged | Source/Aria/Private/UI/WidgetController/AbilityMenuWidgetController.cpp:22-39 | stores the points and broadcasts them, then the buttons recomputed for the selected ability's status and the new points |
| AbilityMenu.AbilityMenuWidgetController.OnAbilityStatusChanged | Source/Aria/Private/UI/WidgetController/AbilityMenuWidgetController.cpp:41-69 | a change for the selected ability updates its status and rebroadcasts the buttons; when the AbilityInfo asset is set, the ability's info is rebroadcast with the new status, and without it nothing more is broadcast |
| AbilityMenu.AbilityMenuWidgetController.SpendPointsButtonPressed | Source/Aria/Private/UI/WidgetController/AbilityMenuWidgetController.cpp:74-80 | asks the server to spend points on the selected ability and changes nothing else |
| AbilityMenu.AbilityMenuWidgetController.EquipButtonPressed | Source/Aria/Private/UI/WidgetController/AbilityMenuWidgetController.cpp:82-96 | starts waiting for a slot for the selected ability's type; the remembered slot is the selected ability's input tag when it is equipped and is kept otherwise. The caller provides the AbilityInfo asset, which line 84 dereferences unchecked. |
| AbilityMenu.AbilityMenuWidgetController.EquippedAbilityGlobePressed | Source/Aria/Private/UI/WidgetController/AbilityMenuWidgetController.cpp:98-113 | while waiting, a slot of the selected ability's own type asks the server to equip it there; any other press does nothing. While waiting, the caller provides the AbilityInfo asset, which line 107 dereferences unchecked. |
| AbilityMenu.AbilityMenuWidgetController.OnAbilityEquipped | Source/Aria/Private/UI/WidgetController/AbilityMenuWidgetController.cpp:115-149 | stops waiting, broadcasts the old slot as cleared and the new slot's info, cancels the wait for the ability's type, reports the globe reassigned, then deselects (no selection, both buttons disabled). The caller provides the AbilityInfo asset, which lines 136 and 144 dereference unchecked. |
| AbilityMenu.AbilityMenuWidgetController.AbilityGlobeSelected | Source/Aria/Private/UI/WidgetController/AbilityMenuWidgetController.cpp:151-196 | cancels a pending wait, selects the ability with the status SelectedStatus gives, and broadcasts the buttons for it and the player's points. While waiting, the caller provides the AbilityInfo asset, which line 156 dereferences unchecked. |
| AbilityMenu.AbilityMenuWidgetController.AbilityGlobeDeselect | Source/Aria/Private/UI/WidgetController/AbilityMenuWidgetController.cpp:198-213 | cancels a pending wait, returns to no selection and broadcasts both buttons disabled. While waiting, the caller provides the AbilityInfo asset, which line 203 dereferences unchecked. |
| OverlayWidget.XPBarAsWrittenOutOfRange | Source/Aria/Private/UI/WidgetController/OverlayWidgetController.cpp:141-149 | as written, the guard lets an index past the end of LevelUpInformation through exactly for a table holding only its placeholder entry |
| OverlayWidget.PlaceholderOnlyTable | Source/Aria/Private/UI/WidgetController/OverlayWidgetController.cpp:144-148 | as written, a one-entry table and 0 XP read entry 1 of 1; the corrected guard broadcasts nothing |
| OverlayWidget.XPBarIntendedInRange | Source/Aria/Private/UI/WidgetController/OverlayWidgetController.cpp:141-160 | corrected: the guard never reads past the table, broadcasts exactly for tables of two entries or more, and agrees with the code as written on every other table |
| OverlayWidget.XPBarIntendedContents | Source/Aria/Private/UI/WidgetController/OverlayWidgetController.cpp:148-159 | a broadcast bar: XP into the level plus the previous requirement is the total, the requirement shown is the level's own, and a finite percent times the gap gives back the XP into the level |
| OverlayWidget.XPBarWithinLevel | Source/Aria/Private/UI/WidgetController/OverlayWidgetController.cpp:141-159 | below the last level, with at least the placeholder's XP, the bar broadcast is finite and lies in [0, 1) |
| OverlayWidget.OverlayWidgetController.constructor | Source/Aria/Public/UI/WidgetController/AriaWidgetController.h:150 | the controller holds the given ability info and level table and has broadcast nothing |
| OverlayWidget.OverlayWidgetController.OnXPChanged | Source/Aria/Private/UI/WidgetController/OverlayWidgetController.cpp:134-161 | broadcasts exactly the events of the corrected XP bar for the new total |
| OverlayWidget.OverlayWidgetController.BroadcastInitialValues | Source/Aria/Private/UI/WidgetController/OverlayWidgetController.cpp:14-27 | broadcasts health, max health, mana and max mana, then the corrected bar for 0 XP |
| OverlayWidget.OverlayWidgetController.BroadcastAbilityInfo | Source/Aria/Private/UI/WidgetController/OverlayWidgetController.cpp:88-99 | once the startup abilities are given, one more event per activatable spec, the k-th being the menu's info record for the k-th spec; earlier events stay |
| OverlayWidget.OverlayWidgetController.OnAttributeValueChanged | Source/Aria/Private/UI/WidgetController/OverlayWidgetController.cpp:55-86 | each vital attribute's change is forwarded with its new value |
| OverlayWidget.OverlayWidgetController.OnPlayerLevelChanged | Source/Aria/Private/UI/WidgetController/OverlayWidgetController.cpp:34-38 | the new level is forwarded |
| OverlayWidget.OverlayWidgetController.OnAbilityEquipped | Source/Aria/Private/UI/WidgetController/OverlayWidgetController.cpp:163-186 | broadcasts the old slot as cleared, then the new slot's info |
| CooldownListener.LongestTimeRemaining | Source/Aria/Private/AbilitySystem/AsyncTasks/ListenForCooldownChange.cpp:62-73 | the greatest of a non-empty list of remaining times: it is in the list and no entry exceeds it |
| CooldownListener.LongestIsUnique | Source/Aria/Private/AbilitySystem/AsyncTasks/ListenForCooldownChange.cpp:64-73 | any value in the list that no entry exceeds is that greatest time |
| CooldownListener.GreatestTimeRemaining | Source/Aria/Private/AbilitySystem/AsyncTasks/ListenForCooldownChange.cpp:65-73 | the loop starting from the first time and keeping any greater one ends with a listed time no entry exceeds |
| CooldownListener.InvalidTagNeverStarts | Source/Aria/Private/AbilitySystem/AsyncTasks/ListenForCooldownChange.cpp:56 | an invalid cooldown tag is never held exactly, so no applied effect starts the cooldown |
| CooldownListener.ListenForCooldownChange.constructor | Source/Aria/Private/AbilitySystem/AsyncTasks/ListenForCooldownChange.cpp:11-13 | the new task holds the component's validity and the tag, and has bound nothing |
| CooldownListener.ListenForCooldownChange.WaitForCooldownChange | Source/Aria/Private/AbilitySystem/AsyncTasks/ListenForCooldownChange.cpp:8-35 | null exactly for an invalid component or an invalid tag; otherwise a fresh task bound to the tag event and to effect additions |
| CooldownListener.ListenForCooldownChange.CooldownTagChanged | Source/Aria/Private/AbilitySystem/AsyncTasks/ListenForCooldownChange.cpp:37-43 | CooldownEnd(0) is broadcast exactly when the tag count reaches 0 |
| CooldownListener.ListenForCooldownChange.OnActiveEffectAdded | Source/Aria/Private/AbilitySystem/AsyncTasks/ListenForCooldownChange.cpp:45-78 | for an effect whose asset or granted tags hold the cooldown tag exactly, with some effect time left, CooldownStart is broadcast with the longest time remaining; otherwise nothing |
| CooldownListener.ListenForCooldownChange.EndTask | Source/Aria/Private/AbilitySystem/AsyncTasks/ListenForCooldownChange.cpp:80-89 | with a valid component, unbinds the tag event and readies the task for destruction; otherwise nothing |
| DamageGameplayAbility.GetValueAtLevel | Source/Aria/Private/AbilitySystem/Abilities/AriaDamageGameplayAbility.cpp:15 | without a curve table the scalable float is its plain value |
| DamageGameplayAbility.StatusEffectRoundTrip | Source/Aria/Private/AbilitySystem/Abilities/AriaDamageGameplayAbility.cpp:57-78 | the status-effect settings read back out of a built modifier are the configured ones, field for field |
| DamageGameplayAbility.MainModifierContents | Source/Aria/Private/AbilitySystem/Abilities/AriaDamageGameplayAbility.cpp:41-79 | the main modifier has the ability level, the damage type, the damage at the level, the configured knockback settings, 50 times the death impulse, the configured status effect, and zero vectors |
| DamageGameplayAbility.FinalModifierUsesFinalSettings | Source/Aria/Private/AbilitySystem/Abilities/AriaDamageGameplayAbility.cpp:81-119 | the final modifier reads only the Final settings, takes 50 times their death impulse and carries their status effect |
| DamageGameplayAbility.CauseDamageIsDamageAtLevel | Source/Aria/Private/AbilitySystem/Abilities/AriaDamageGameplayAbility.cpp:15-16 | the curve-table check changes nothing: the magnitude is GetDamageAtLevel, the base damage of the main modifier |
| DamageGameplayAbility.CauseDamage | Source/Aria/Private/AbilitySystem/Abilities/AriaDamageGameplayAbility.cpp:9-34 | the spec is made at level 1 and carries one set-by-caller magnitude for the damage type, the damage at the ability's level |
| DamageGameplayAbility.GetRandomAttackMontage | Source/Aria/Private/AbilitySystem/Abilities/AriaDamageGameplayAbility.cpp:121-131 | a default montage for an empty list; otherwise an entry of the list |
| DamageGameplayAbility.EveryMontageCanBeDrawn | Source/Aria/Private/AbilitySystem/Abilities/AriaDamageGameplayAbility.cpp:124-128 | every index the random range produces selects its own entry |
| EffectActor.IgnoresEnemyInAnyCase | Source/Aria/Private/Actor/AriaEffectActor.cpp:30 | an actor tagged "enemy" or "ENEMY" is ignored like one tagged "Enemy" when the actor does not apply effects to enemies |
| EffectActor.Applicable | Source/Aria/Private/Actor/AriaEffectActor.cpp:88-95 | the entries an additional-effects helper applies are entries of its list, at most as many, none with DoNotApply |
| EffectActor.ApplyIgnored | Source/Aria/Private/Actor/AriaEffectActor.cpp:30-36 | an enemy (an actor tag equal to Enemy up to case) the actor does not apply effects to, or a target without a component, is left unchanged by ApplyEffectToTarget |
| EffectActor.ApplyRecordsAndDestroys | Source/Aria/Private/Actor/AriaEffectActor.cpp:44-78 | one application is appended at the actor level with the next handle; that handle is recorded exactly for an infinite effect under RemoveOnEndOverlap; the actor is destroyed exactly for a non-infinite effect with both destroy flags set; earlier handles keep their components |
| EffectActor.ApplyKeepsHandles | Source/Aria/Private/Actor/AriaEffectActor.cpp:65-71 | applying never drops a recorded handle and records only handles already handed out |
| EffectActor.AdditionalAppliesApplicable | Source/Aria/Private/Actor/AriaEffectActor.cpp:83-133 | each additional-effects helper applies exactly the entries whose policy is ApplyOnOverlap or ApplyOnEndOverlap, in list order, without destroying |
| EffectActor.ApplyEachKeeps | Source/Aria/Private/Actor/AriaEffectActor.cpp:86-96 | a list applied without destroying never destroys, never removes a handle and keeps the recorded ones |
| EffectActor.ApplyEachIgnored | Source/Aria/Private/Actor/AriaEffectActor.cpp:30-36 | an ignored target or one without a component gets nothing from a whole list |
| EffectActor.IgnoredEnemyUnchanged | Source/Aria/Private/Actor/AriaEffectActor.cpp:138-171 | both overlap events leave the actor unchanged for an enemy it ignores, removal included |
| EffectActor.NoPolicyForEventChangesNothing | Source/Aria/Private/Actor/AriaEffectActor.cpp:141-165 | with no main policy naming the event, the shared body changes nothing |
| EffectActor.MainEffectsKeepHandles | Source/Aria/Private/Actor/AriaEffectActor.cpp:141-165 | the shared body never removes a handle, keeps recorded ones, and destroys exactly when configured to and the instant or duration policy names the event |
| EffectActor.GroupKeepsHandles | Source/Aria/Private/Actor/AriaEffectActor.cpp:161-165 | the infinite main effect with its list never destroys or removes and keeps recorded handles |
| EffectActor.EndOverlapRemovesTargetHandles | Source/Aria/Private/Actor/AriaEffectActor.cpp:202-227 | under RemoveOnEndOverlap every handle recorded for the target's component is removed from it and from the map, and other components' entries stay |
| EffectActor.EndOverlapWithoutRemovalKeepsHandles | Source/Aria/Private/Actor/AriaEffectActor.cpp:202 | without RemoveOnEndOverlap end overlap removes nothing and keeps every recorded handle |
| EffectActor.DestroyWithoutComponent | Source/Aria/Private/Actor/AriaEffectActor.cpp:141-150 | a configured Destroy after the instant group happens even when the target has no component and nothing was applied |
| EffectActor.AriaEffectActor.constructor | Source/Aria/Private/Actor/AriaEffectActor.cpp:9-17 | the actor starts with its settings, no handles, nothing applied or removed, not destroyed |
| EffectActor.AriaEffectActor.ApplyEffectToTarget | Source/Aria/Private/Actor/AriaEffectActor.cpp:25-79 | the actor's new state is the effect application on the old state; the enemy test finds the Enemy tag in any case, as FName comparison does |
| EffectActor.AriaEffectActor.ApplyAdditionalEffectsToTarget | Source/Aria/Private/Actor/AriaEffectActor.cpp:83-133 | the new state applies the list entry by entry, as the additional-effects model states |
| EffectActor.AriaEffectActor.DestroyOnApplication | Source/Aria/Private/Actor/AriaEffectActor.cpp:146-149 | the actor is destroyed when configured to, and nothing else changes |
| EffectActor.AriaEffectActor.ApplyMainEffectsFor | Source/Aria/Private/Actor/AriaEffectActor.cpp:141-165 | the new state is the shared overlap body for the event |
| EffectActor.AriaEffectActor.OnOverlap | Source/Aria/Private/Actor/AriaEffectActor.cpp:135-166 | the new state is the overlap model, ignored enemies (tagged Enemy in any case) included |
| EffectActor.AriaEffectActor.OnEndOverlap | Source/Aria/Private/Actor/AriaEffectActor.cpp:168-228 | the new state is the end-overlap model, with its removal of the target's handles; enemies tagged Enemy in any case are ignored |
| EffectActor.AriaEffectActor.RemoveHandlesFor | Source/Aria/Private/Actor/AriaEffectActor.cpp:207-226 | the two removal loops remove exactly the handles recorded for the component, from it and from the map |
| CharacterBase.HandlersSetTheirFlag | Source/Aria/Private/Characters/AriaCharacterBase.cpp:327-345 | each tag handler sets its flag exactly when the new count is positive, leaves the other flags, and (hit react, stun) zeroes the walk speed exactly while its flag is set |
| CharacterBase.LastHandlerDecidesWalkSpeed | Source/Aria/Private/Characters/AriaCharacterBase.cpp:331-344 | the walk speed follows the handler that ran last: ending a hit react while stunned restores the base speed, and so does ending a stun during a hit react |
| CharacterBase.CombatSocketFor | Source/Aria/Private/Characters/AriaCharacterBase.cpp:157-178 | the socket chosen for a tag: the weapon tip exactly for the weapon tag with a valid weapon, each body socket exactly for its own tag, none otherwise |
| CharacterBase.GetCombatSocketLocation | Source/Aria/Private/Characters/AriaCharacterBase.cpp:152-179 | the location of the chosen socket, or the zero vector when none is chosen |
| CharacterBase.WeaponSocketNeedsWeapon | Source/Aria/Private/Characters/AriaCharacterBase.cpp:157-160 | the weapon tag yields the zero vector without a valid weapon and the weapon tip with one; an empty tag yields the zero vector |
| CharacterBase.AriaCharacterBase.constructor | Source/Aria/Public/Characters/AriaCharacterBase.h:76-80 | a new character has no status flags set, is alive, is not a minion and counts no minions |
| CharacterBase.AriaCharacterBase.BeginPlay | Source/Aria/Private/Characters/AriaCharacterBase.cpp:320-325 | the walk speed becomes the base walk speed and nothing else changes |
| CharacterBase.AriaCharacterBase.HitReactTagChanged | Source/Aria/Private/Characters/AriaCharacterBase.cpp:327-332 | the status becomes the hit-react handler's result, nothing else changes |
| CharacterBase.AriaCharacterBase.BurningTagChanged | Source/Aria/Private/Characters/AriaCharacterBase.cpp:334-337 | the status becomes the burning handler's result, nothing else changes |
| CharacterBase.AriaCharacterBase.StunTagChanged | Source/Aria/Private/Characters/AriaCharacterBase.cpp:339-345 | the status becomes the stun handler's result, nothing else changes |
| CharacterBase.AriaCharacterBase.SetCharacterAsMinion | Source/Aria/Private/Characters/AriaCharacterBase.cpp:294-297 | the character is a minion, nothing else changes |
| CharacterBase.AriaCharacterBase.SetMinionOwningCharacter | Source/Aria/Private/Characters/AriaCharacterBase.cpp:304-307 | the owner is the given character, nothing else changes |
| CharacterBase.AriaCharacterBase.IncrementMinionCount | Source/Aria/Private/Characters/AriaCharacterBase.cpp:314-317 | the minion count grows by exactly the amount |
| CharacterBase.AriaCharacterBase.Die | Source/Aria/Private/Characters/AriaCharacterBase.cpp:224-231 | the weapon is detached, then the death is handled as MulticastHandleDeath states |
| CharacterBase.AriaCharacterBase.MulticastHandleDeath | Source/Aria/Private/Characters/AriaCharacterBase.cpp:233-272 | the character is dead, its death and the impulse are broadcast, and a minion with an owner takes one off the owner's count; the owner's other fields stay |
| CharacterBase.AriaCharacterBase.GetTaggedAttackMontageByTag | Source/Aria/Private/Characters/AriaCharacterBase.cpp:196-207 | the first montage whose tag equals the given tag, or the default montage when none does |

Three places where the code as written disagrees with what it evidently means are listed
under "## Findings". Each has a member that models the code as written, with a lemma showing
the disagreement, and a corrected member with the intended property proved. The methods of
the model (ExecCalcDamage.ApplyDamage and Execute, the aggregator's NetSerializeSave and
NetSerializeLoad, and the overlay's OnXPChanged and BroadcastInitialValues) follow the
corrected members, and "## Left out" names each of them.

Some members carry an ensures but have no row, because they state nothing about the game on
their own. The Tags and UnrealMath modules model engine code that is not part of this model
(FGameplayTag, FGameplayTagContainer and FMath); their contracts are what the rows above
rely on. The rest are proof helpers: the scans from an index behind the ability-system
lookups (SpecWithAbilityTagFrom, SpecBoundToSlotFrom), the slot and tag steps of the
ability-system proofs (AddSlotTag, NotInWhenNoneUnder, SpecFoundInPrefix, EvictHolderFreesSlot,
EvictHolderKeepsSlotsDistinct), the per-field steps of the serialiser round trips
(RestoredWire and the FromWireRestores lemmas of each context), the archive-reading loop
steps (ReadStart, ReadStep, ReadEnd), the steps of the nearest-pick proof (ClosestIsNearest,
NearestAmongRemaining, NotPickedBefore, LaterPickNearest), the ordering on hindrance kinds (AbilityTypes.Ord),
a step of the status-effect proofs (PassesByStatusType), and arithmetic and sequence steps
(MulBetween, QuotientBelowOne, AppendTwo, AppendThree, AppendRegroup, CellsLeftAtStart).

## Left out

- Effect-context engine references: the instigator, effect causer, ability default object, source object, actor list and HitResult (mask bits 0 to 5) are engine pointers and are not part of this model. The mask is modelled from the world-origin bit up, and Duplicate's deep copy of the HitResult is left out with them.
- Effect-context enum fields: the serialisers read the four hindrance enums into temporaries and never store them. The model keeps the value each context held, and lemmas state that these values are not restored.
- The effect-context classes keep all their replicated fields in one record field, and every setter replaces that record with one field changed. The model does not show the fields as separate members updated one by one.
- The byte-level FArchive format and package maps are left out. An archive is a sequence of typed items.
- Replication (GetLifetimeReplicatedProps, OnRep_* notifiers), client, server and multicast RPC transport, and delegate binding are left out. RPCs and broadcasts are recorded in event logs.
- Randomness: every FMath::RandRange roll is a parameter. The combat rolls range over 1..100, and the montage pick is an index into the list.
- Floats are exact reals. IEEE rounding is not modelled, except where the code floors, clamps or truncates explicitly. Division by zero in the XP-bar percent is the NotFinite value.
- int32 counters (XP, level, points, minion count, ability level) are unbounded integers. Wrap-around is not modelled.
- Geometry: positions from RotateAngleAxis, rotation matrices, sines and cosines, GetGroundSurfacePoint traces and debug drawing are left out. The point generators take those positions from a `place` function; what they fix is how many points are emitted and in which order.
- MMC_MagicalAttack is built on FMath::Log2, a transcendental float function, and is not part of this model.
- HandleStatusEffect's dynamic GameplayEffect construction, MakeOutgoingSpec and effect application by the engine are left out. Applying an effect is an entry in a log, and its handle comes from a counter.
- Ability activation from input, projectiles, shock beams, summons, Niagara components, AI, input handling, the HUD and the remaining widget plumbing are engine glue and are not part of this model.
- AbilitySystem.AriaAbilitySystemComponent.ServerAbilityPointsSpent: the optional restart of the ability (clear, then give again) after a level-up is left out. That restart is engine ability management; the status and level changes are modelled.
- CharacterBase.AriaCharacterBase.MulticastHandleDeath: the owner is typed as a character base, so the failed Cast of an owner of another class is not modelled. Sound, visual effects, ragdoll physics and the dissolve timelines are left out as engine calls.
- The library's other effect-context accessors are left out. These are the plain-value getters (IsDodgedHit, GetKnockbackForce and the like), SetDamageType, SetKnockbackForce, SetDeathImpulse and the hindrance setters. Each is the same null-guarded one-line forward as the accessors that are modelled.
- The library's engine-facing helpers are left out: the widget-controller getters, InitializeDefaultAttributes, GiveStartupAbilities, GetCharacterClassInfo, GetCharacterClassAbilities, GetAbilityInfo, GetXPRewardForClassAndLevel, ApplyDamageEffect and ApplyDamageToTarget. They are game-mode lookups or effect application.
- GetLiveActorsWithinRadius and GetActorsAroundTarget are left out. They are engine overlap queries; GetClosestActors is modelled on the actors they return.
- The point generators CreateGyroAxisPtSingle, CreateGyroAxisPtSpread, CreateGyroAxisPtSpiral and GenerateGyroPtPentaStarShape are left out. They are positions from trigonometry, as is GyroAxisPointDebugHelpers.
- CreateRotatorsSpread has a statement `if (!World) TArray<FRotator>();` without `return`. It has no effect on the rotators emitted; the model treats the world as valid.
- ExecCalcDamage.ApplyDamage: follows the corrected block test (OutcomeIntended) of the first Findings row; the block test as written, against the dodge chance, is modelled by ExecCalcDamage.OutcomeAsWritten only.
- ExecCalcDamage.Execute: computes its hit through ApplyDamage, so it too follows the corrected block test; the code as written is ExecCalcDamage.OutcomeAsWritten.
- EffectContextAggregator.AriaEffectContextAggregator.NetSerializeSave: reports the corrected success of the second Findings row (both sub-contexts present); the success as written is EffectContextAggregator.SuccessAsWritten.
- EffectContextAggregator.AriaEffectContextAggregator.NetSerializeLoad: reports the corrected success of the second Findings row as well; the success as written is EffectContextAggregator.SuccessAsWritten.
- OverlayWidget.OverlayWidgetController.OnXPChanged: uses the corrected guard of the third Findings row (XPBarIntended); the guard as written, with its read past the table, is OverlayWidget.XPBarAsWritten.
- OverlayWidget.OverlayWidgetController.BroadcastInitialValues: ends with OnXPChanged(0), so it follows the same corrected guard; the code as written is OverlayWidget.XPBarAsWritten.
- OverlayWidget.OverlayWidgetController.BroadcastAbilityInfo: the overlay either calls it at bind time or binds it to AbilitiesGivenDelegate; that choice is delegate binding, and the method is modelled as the call that happens once the startup abilities are given.
- Names.NameEquals: only the ASCII letters A to Z are folded. FName's handling of other scripts is not modelled. Gameplay tags, unlike actor tags, are compared exactly, as the engine does.
- Tag registration in AriaGameplayTags.cpp is static data. The tags the core compares against are constants of the model.

## Findings

| source | as written | input that shows it | evidently intended | confidence | as-written member | corrected member |
|---|---|---|---|---|---|---|
| Source/Aria/Private/AbilitySystem/ExecCalc/ExecCalc_Damage.cpp:334 | the block chance is set from the target's dodge chance, overwriting the captured block chance | dodge chance 50, block chance 0, dodge roll 60, block roll 10: the hit is blocked | the block test uses the captured block chance, floored at 0, so this hit is a regular hit | not executed | ExecCalcDamage.BlockChanceAsWritten, ExecCalcDamage.OutcomeAsWritten, ExecCalcDamage.BlockUsesDodgeChance | ExecCalcDamage.BlockChanceIntended, ExecCalcDamage.OutcomeIntended, ExecCalcDamage.IntendedBlockFollowsBlockChance |
| Source/Aria/Private/AbilitySystem/EffectContexts/AriaEffectContextAggregator.cpp:9-10 | the sub-serialiser on the right of `&=` runs first and overwrites bOutSuccess with true, so the reported success is only whether the status context is present | a null main-damage context with a present status context: reported as success | success only when every sub-context is present and serialised | not executed | EffectContextAggregator.CombineAsWritten, EffectContextAggregator.SuccessAsWrittenIsStatus, EffectContextAggregator.MissingMainReportedAsSuccess | EffectContextAggregator.CombineIntended, EffectContextAggregator.SuccessIntendedBoth |
| Source/Aria/Private/UI/WidgetController/OverlayWidgetController.cpp:144 | the guard `Level <= MaxLevel` lets Level equal the table size, and entry Level is then read | a LevelUpInformation holding only its placeholder entry, with 0 XP: level 1 is found and entry 1 is read past the end | the guard `Level < MaxLevel`, which keeps every read in the table | not executed | OverlayWidget.XPBarAsWritten, OverlayWidget.XPBarAsWrittenOutOfRange, OverlayWidget.PlaceholderOnlyTable | OverlayWidget.XPBarIntended, OverlayWidget.XPBarIntendedInRange |
