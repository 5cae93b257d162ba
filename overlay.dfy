/**
 * UOverlayWidgetController: the HUD's controller. It forwards vital-attribute and level
 * changes to the HUD, turns the player's total XP into the XP bar's numbers, and fills the
 * equipped-ability row when the ability system reports an equip.
 */
module OverlayWidget {
  import opened Tags
  import opened AbilityInfo
  import opened LevelUpInfo
  import opened AbilitySystem
  import AbilityMenu

  /** The float XPBarPercent: a finite quotient, or the infinity or NaN of a zero divisor. */
  datatype BarPercent = Finite(value: real) | NotFinite

  /** What OnXPChanged does with one XP total. */
  datatype XPBar =
    | NoBroadcast
    | Broadcast(xpForThisLevel: int, levelUpRequirement: int, percent: BarPercent)
    | RequirementOutOfRange  // LevelUpInformation[Level] read past the end of the table

  datatype VitalAttribute = Health | MaxHealth | Mana | MaxMana

  /** The overlay's delegates, in the order broadcast. */
  datatype OverlayEvent =
    | AttributeChanged(attribute: VitalAttribute, newValue: real)
    | XPChanged(xpForThisLevel: int, levelUpRequirement: int, percent: BarPercent)
    | PlayerLevelChanged(newLevel: int)
    | AbilityInfoBroadcast(info: AriaAbilityInfo)

  /** The bar for `level`: XP gained since the previous requirement, over the gap to the next. */
  function XPBarAt(info: seq<LevelUpEntry>, level: int, xp: int): XPBar
    requires 1 <= level < |info|
  {
    var levelUpRequirement := info[level].levelUpRequirement;
    var previousLevelUpRequirement := info[level - 1].levelUpRequirement;
    var deltaLevelUpRequirement := levelUpRequirement - previousLevelUpRequirement;
    var xpForThisLevel := xp - previousLevelUpRequirement;
    var percent := if deltaLevelUpRequirement == 0 then NotFinite
                   else Finite(xpForThisLevel as real / deltaLevelUpRequirement as real);
    Broadcast(xpForThisLevel, levelUpRequirement, percent)
  }

  /** OnXPChanged as written: the guard `Level <= MaxLevel && Level > 0` before reading entry Level. */
  function XPBarAsWritten(info: seq<LevelUpEntry>, xp: int): XPBar
  {
    var level := LevelForXP(info, xp);
    var maxLevel := |info|;
    if level <= maxLevel && level > 0 then
      if level < |info| then XPBarAt(info, level, xp) else RequirementOutOfRange
    else NoBroadcast
  }

  /** OnXPChanged with the evidently intended guard `Level < MaxLevel`, which keeps entry Level in range. */
  function XPBarIntended(info: seq<LevelUpEntry>, xp: int): XPBar
  {
    var level := LevelForXP(info, xp);
    var maxLevel := |info|;
    if level < maxLevel && level > 0 then XPBarAt(info, level, xp) else NoBroadcast
  }

  /**
   * The guard as written reads past the end of the table exactly for a table holding only the
   * placeholder entry: the walk then returns level 1, which equals the table size.
   */
  lemma XPBarAsWrittenOutOfRange(info: seq<LevelUpEntry>, xp: int)
    ensures XPBarAsWritten(info, xp) == RequirementOutOfRange <==> |info| == 1
  {
    LevelForXPBounds(info, xp);
  }

  /** The concrete case: a one-entry table and no XP. */
  lemma PlaceholderOnlyTable()
    ensures XPBarAsWritten([DefaultEntry], 0) == RequirementOutOfRange
    ensures XPBarIntended([DefaultEntry], 0) == NoBroadcast
  {
    LevelForXPBounds([DefaultEntry], 0);
  }

  /**
   * The intended guard never reads past the table, broadcasts exactly for tables of two
   * entries or more, and agrees with the code as written on every other table.
   */
  lemma XPBarIntendedInRange(info: seq<LevelUpEntry>, xp: int)
    ensures XPBarIntended(info, xp) != RequirementOutOfRange
    ensures XPBarIntended(info, xp).Broadcast? <==> |info| >= 2
    ensures |info| != 1 ==> XPBarIntended(info, xp) == XPBarAsWritten(info, xp)
  {
    LevelForXPBounds(info, xp);
  }

  /**
   * A broadcast bar for level L: the XP into the level plus the previous requirement gives
   * back the total, the requirement shown is entry L's, and a finite percent times the gap
   * between the two requirements gives back the XP into the level.
   */
  lemma XPBarIntendedContents(info: seq<LevelUpEntry>, xp: int)
    requires XPBarIntended(info, xp).Broadcast?
    ensures var level := LevelForXP(info, xp);
      var bar := XPBarIntended(info, xp);
      && 1 <= level < |info|
      && bar.xpForThisLevel + info[level - 1].levelUpRequirement == xp
      && bar.levelUpRequirement == info[level].levelUpRequirement
      && (bar.percent.Finite? <==> info[level].levelUpRequirement != info[level - 1].levelUpRequirement)
      && (bar.percent.Finite? ==>
            bar.percent.value * (info[level].levelUpRequirement - info[level - 1].levelUpRequirement) as real
            == bar.xpForThisLevel as real)
  {
    LevelForXPBounds(info, xp);
  }

  /**
   * Below the last level the bar is partly filled: with at least the placeholder's XP, the
   * percent lies in [0, 1), because the walk met the previous requirement and not this one.
   */
  lemma XPBarWithinLevel(info: seq<LevelUpEntry>, xp: int)
    requires |info| >= 2 && xp >= info[0].levelUpRequirement
    requires LevelForXP(info, xp) < |info| - 1
    ensures XPBarIntended(info, xp).Broadcast?
    ensures XPBarIntended(info, xp).percent.Finite?
    ensures 0.0 <= XPBarIntended(info, xp).percent.value < 1.0
  {
    LevelForXPBounds(info, xp);
    LevelFromFacts(info, xp, 1);
    var level := LevelForXP(info, xp);
    if level > 1 {
      assert xp >= info[level - 1].levelUpRequirement;
    }
    var a := (xp - info[level - 1].levelUpRequirement) as real;
    var b := (info[level].levelUpRequirement - info[level - 1].levelUpRequirement) as real;
    assert 0.0 <= a < b;
    QuotientBelowOne(a, b);
  }

  /** A non-negative quotient of a smaller by a larger number lies in [0, 1). */
  lemma QuotientBelowOne(a: real, b: real)
    requires 0.0 <= a < b
    ensures 0.0 <= a / b < 1.0
  {
    assert (a / b) * b == a;
  }

  /** The events OnXPChanged broadcasts. */
  function XPEvents(bar: XPBar): seq<OverlayEvent>
  {
    match bar
    case Broadcast(xpForThisLevel, levelUpRequirement, percent) => [XPChanged(xpForThisLevel, levelUpRequirement, percent)]
    case _ => []
  }

  class OverlayWidgetController {
    /** The AbilityInfo data asset and the player state's LevelUpInfo table. */
    const abilityInfo: seq<AriaAbilityInfo>
    const levelUpInfo: seq<LevelUpEntry>
    /** Everything broadcast so far, oldest first. */
    var events: seq<OverlayEvent>

    constructor (infos: seq<AriaAbilityInfo>, levels: seq<LevelUpEntry>)
      ensures abilityInfo == infos && levelUpInfo == levels && events == []
    {
      abilityInfo := infos;
      levelUpInfo := levels;
      events := [];
    }

    /** OnXPChanged, with the in-range guard (see XPBarAsWritten for the code as written). */
    method OnXPChanged(newXPAmount: int)
      modifies this
      ensures events == old(events) + XPEvents(XPBarIntended(levelUpInfo, newXPAmount))
    {
      var level := FindLevelBasedOnTotalXP(levelUpInfo, newXPAmount);
      var maxLevel := |levelUpInfo|;
      if level < maxLevel && level > 0 {
        var levelUpRequirement := levelUpInfo[level].levelUpRequirement;
        var previousLevelUpRequirement := levelUpInfo[level - 1].levelUpRequirement;
        var deltaLevelUpRequirement := levelUpRequirement - previousLevelUpRequirement;
        var xpForThisLevel := newXPAmount - previousLevelUpRequirement;
        var xpBarPercent := if deltaLevelUpRequirement == 0 then NotFinite
                            else Finite(xpForThisLevel as real / deltaLevelUpRequirement as real);
        events := events + [XPChanged(xpForThisLevel, levelUpRequirement, xpBarPercent)];
      }
    }

    /** BroadcastInitialValues: the four vital attributes, then the bar for zero XP. */
    method BroadcastInitialValues(health: real, maxHealth: real, mana: real, maxMana: real)
      modifies this
      ensures events == old(events)
        + [AttributeChanged(Health, health), AttributeChanged(MaxHealth, maxHealth),
           AttributeChanged(Mana, mana), AttributeChanged(MaxMana, maxMana)]
        + XPEvents(XPBarIntended(levelUpInfo, 0))
    {
      events := events + [AttributeChanged(Health, health), AttributeChanged(MaxHealth, maxHealth)];
      events := events + [AttributeChanged(Mana, mana), AttributeChanged(MaxMana, maxMana)];
      OnXPChanged(0);
    }

    /**
     * UAriaWidgetController::BroadcastAbilityInfo, as the overlay calls it once the startup
     * abilities are given: one info per activatable spec, in order, the same records the
     * ability menu sends (AbilityMenu.SpecAbilityInfo).
     */
    method BroadcastAbilityInfo(specs: seq<AbilitySpec>, startupAbilitiesGiven: bool)
      modifies this
      ensures |events| == |old(events)| + (if startupAbilitiesGiven then |specs| else 0)
      ensures events[..|old(events)|] == old(events)
      ensures forall k :: 0 <= k < |events| - |old(events)| ==>
                events[|old(events)| + k] == AbilityInfoBroadcast(AbilityMenu.SpecAbilityInfo(abilityInfo, specs[k]))
    {
      if !startupAbilitiesGiven {
        return;
      }
      var broadcasts: seq<OverlayEvent> := [];
      for k := 0 to |specs|
        invariant |broadcasts| == k
        invariant forall j :: 0 <= j < k ==> broadcasts[j] == AbilityInfoBroadcast(AbilityMenu.SpecAbilityInfo(abilityInfo, specs[j]))
        modifies {}
      {
        var info := FindAbilityInfoForTag(abilityInfo, GetAbilityTagFromSpec(specs[k]));
        info := info.(abilityType := GetAbilityTypeTagFromSpec(specs[k]));
        info := info.(abilityStatus := GetAbilityStatusTagFromSpec(specs[k]));
        info := info.(inputActivationTag := GetInputActivationTagFromSpec(specs[k]));
        broadcasts := broadcasts + [AbilityInfoBroadcast(info)];
      }
      events := events + broadcasts;
    }

    /** The attribute-change lambdas: each forwards the attribute's new value. */
    method OnAttributeValueChanged(attribute: VitalAttribute, newValue: real)
      modifies this
      ensures events == old(events) + [AttributeChanged(attribute, newValue)]
    {
      events := events + [AttributeChanged(attribute, newValue)];
    }

    /** The level-change lambda: forwards the new level. */
    method OnPlayerLevelChanged(newLevel: int)
      modifies this
      ensures events == old(events) + [PlayerLevelChanged(newLevel)]
    {
      events := events + [PlayerLevelChanged(newLevel)];
    }

    /**
     * OnAbilityEquipped: a cleared record (None, Unlocked) for the old slot, then the
     * ability's own record carrying the given status for the new slot.
     */
    method OnAbilityEquipped(abilityTag: Tag, abilityStatus: Tag, newSlot: Tag, oldSlot: Tag)
      modifies this
      ensures events == old(events) + [AbilityInfoBroadcast(AbilityMenu.ClearedSlotInfo(oldSlot)),
                                       AbilityInfoBroadcast(AbilityMenu.EquippedSlotInfo(abilityInfo, abilityTag, abilityStatus, newSlot))]
    {
      var previousSlotInfo := DefaultAbilityInfo;
      previousSlotInfo := previousSlotInfo.(abilityStatus := StatusUnlocked);
      previousSlotInfo := previousSlotInfo.(inputActivationTag := oldSlot);
      previousSlotInfo := previousSlotInfo.(abilityTag := AbilitiesNone);
      events := events + [AbilityInfoBroadcast(previousSlotInfo)];
      var newSlotInfo := FindAbilityInfoForTag(abilityInfo, abilityTag);
      newSlotInfo := newSlotInfo.(abilityStatus := abilityStatus);
      newSlotInfo := newSlotInfo.(inputActivationTag := newSlot);
      events := events + [AbilityInfoBroadcast(newSlotInfo)];
    }
  }
}
