/**
 * UAbilityMenuWidgetController: the ability-tree menu. It remembers which globe is selected
 * (ability tag and status), the ability points last reported, whether the player is picking
 * an equip slot, and the slot the selected ability held; it answers button presses and
 * ability-system notifications by broadcasting to the menu widgets.
 *
 * The ability-system component and player state it reads are passed in as their current
 * specs and ability points. The two server RPCs it calls (spending a point, equipping an
 * ability) are recorded as request events; what the server then does is AbilitySystem's
 * business. Description texts become the ability tag whose descriptions would be shown.
 */
module AbilityMenu {
  import opened Tags
  import opened Wrappers
  import opened AbilityInfo
  import opened AbilitySystem

  /** FSelectedAbility. */
  datatype SelectedAbility = SelectedAbility(ability: Tag, status: Tag)

  /** The selection the controller starts with and returns to on deselection. */
  const NoSelection := SelectedAbility(AbilitiesNone, StatusLocked)

  /** The widget-facing delegates and the server calls, in the order issued. */
  datatype MenuEvent =
    | AbilityPointsChanged(abilityPoints: int)
    | GlobeSelected(spendPointsEnabled: bool, equipEnabled: bool, descriptionsOf: Option<Tag>)
    | WaitForEquip(abilityType: Tag)
    | CancelWaitForEquip(abilityType: Tag)
    | AbilityInfoBroadcast(info: AriaAbilityInfo)
    | AbilityGlobeReassigned(abilityTag: Tag)
    | SpendPointsRequested(abilityTag: Tag)
    | EquipRequested(abilityTag: Tag, slot: Tag)

  /** The two button states ShouldEnableAbilityMenuButtons writes through its out-parameters. */
  datatype Buttons = Buttons(spendPoints: bool, equip: bool)

  /**
   * ShouldEnableAbilityMenuButtons: the status tags Locked, Eligible, Unlocked and Equipped
   * (matched exactly) decide both buttons; any other status leaves the incoming values.
   */
  function ShouldEnableAbilityMenuButtons(abilityStatus: Tag, abilityPoints: int, incoming: Buttons): Buttons
  {
    if MatchesTagExact(abilityStatus, StatusLocked) then Buttons(false, false)
    else if MatchesTagExact(abilityStatus, StatusEligible) then Buttons(abilityPoints > 0, false)
    else if MatchesTagExact(abilityStatus, StatusUnlocked) then Buttons(abilityPoints > 0, true)
    else if MatchesTagExact(abilityStatus, StatusEquipped) then Buttons(abilityPoints > 0, true)
    else incoming
  }

  /** What every caller passes in: both buttons start disabled. */
  function MenuButtons(abilityStatus: Tag, abilityPoints: int): Buttons
  {
    ShouldEnableAbilityMenuButtons(abilityStatus, abilityPoints, Buttons(false, false))
  }

  /**
   * As every caller uses it: Equip is enabled exactly for an Unlocked or Equipped ability,
   * and Spend exactly when there are points and the ability is Eligible, Unlocked or Equipped.
   */
  lemma MenuButtonsCharacterized(abilityStatus: Tag, abilityPoints: int)
    ensures MenuButtons(abilityStatus, abilityPoints).equip
            <==> abilityStatus == StatusUnlocked || abilityStatus == StatusEquipped
    ensures MenuButtons(abilityStatus, abilityPoints).spendPoints
            <==> abilityPoints > 0
                 && (abilityStatus == StatusEligible || abilityStatus == StatusUnlocked || abilityStatus == StatusEquipped)
  {
    StatusTagsDistinct();
  }

  /** A Locked ability never enables a button, whatever the points. */
  lemma LockedDisablesButtons(abilityPoints: int, incoming: Buttons)
    ensures ShouldEnableAbilityMenuButtons(StatusLocked, abilityPoints, incoming) == Buttons(false, false)
  {
  }

  /** A status outside the four leaves both out-parameters as they were. */
  lemma UnknownStatusKeepsButtons(abilityStatus: Tag, abilityPoints: int, incoming: Buttons)
    requires abilityStatus !in {StatusLocked, StatusEligible, StatusUnlocked, StatusEquipped}
    ensures ShouldEnableAbilityMenuButtons(abilityStatus, abilityPoints, incoming) == incoming
  {
  }

  /**
   * The status AbilityGlobeSelected gives a globe: Locked for an invalid tag, a tag under
   * Abilities.None, or an ability without a spec; otherwise the spec's status.
   */
  function SelectedStatus(specs: seq<AbilitySpec>, abilityTag: Tag): (status: Tag)
    ensures GetSpecFromAbilityTag(specs, abilityTag).None? ==> status == StatusLocked
    ensures !IsValid(abilityTag) || MatchesTag(abilityTag, AbilitiesNone) ==> status == StatusLocked
    ensures status != StatusLocked ==> status == GetAbilityStatusFromAbilityTag(specs, abilityTag)
  {
    var spec := GetSpecFromAbilityTag(specs, abilityTag);
    if !IsValid(abilityTag) || MatchesTag(abilityTag, AbilitiesNone) || spec.None? then StatusLocked
    else GetAbilityStatusTagFromSpec(specs[spec.value])
  }

  /**
   * Selecting a globe enables Equip exactly when the ability is a real, owned one whose spec
   * is Unlocked or Equipped; a globe for an ability not owned never enables a button.
   */
  lemma SelectionEnablesEquip(specs: seq<AbilitySpec>, abilityTag: Tag, abilityPoints: int)
    ensures MenuButtons(SelectedStatus(specs, abilityTag), abilityPoints).equip
            <==> IsValid(abilityTag) && !MatchesTag(abilityTag, AbilitiesNone)
                 && GetSpecFromAbilityTag(specs, abilityTag).Some?
                 && (GetAbilityStatusFromAbilityTag(specs, abilityTag) == StatusUnlocked
                     || GetAbilityStatusFromAbilityTag(specs, abilityTag) == StatusEquipped)
    ensures GetSpecFromAbilityTag(specs, abilityTag).None? ==> MenuButtons(SelectedStatus(specs, abilityTag), abilityPoints) == Buttons(false, false)
  {
    MenuButtonsCharacterized(SelectedStatus(specs, abilityTag), abilityPoints);
    StatusTagsDistinct();
  }

  /**
   * After a deselection the selection is (None, Locked), so whatever the points become, the
   * buttons recomputed for it stay disabled, as the deselection broadcast them.
   */
  lemma DeselectedButtonsStayDisabled(abilityPoints: int)
    ensures MenuButtons(NoSelection.status, abilityPoints) == Buttons(false, false)
  {
  }

  /** The info broadcast for the previous slot when an ability is equipped: None, Unlocked, in that slot. */
  function ClearedSlotInfo(oldSlot: Tag): (info: AriaAbilityInfo)
    ensures info.abilityTag == AbilitiesNone && info.abilityStatus == StatusUnlocked && info.inputActivationTag == oldSlot
    ensures info.abilityType == EmptyTag && info.levelRequirement == 1
  {
    DefaultAbilityInfo.(abilityStatus := StatusUnlocked, inputActivationTag := oldSlot, abilityTag := AbilitiesNone)
  }

  /** The info broadcast for the new slot: the ability's own entry with the given status and slot. */
  function EquippedSlotInfo(infos: seq<AriaAbilityInfo>, abilityTag: Tag, abilityStatus: Tag, newSlot: Tag): (info: AriaAbilityInfo)
    ensures info.abilityStatus == abilityStatus && info.inputActivationTag == newSlot
    ensures info.abilityType == FindAbilityInfoForTag(infos, abilityTag).abilityType
    ensures info.levelRequirement == FindAbilityInfoForTag(infos, abilityTag).levelRequirement
  {
    FindAbilityInfoForTag(infos, abilityTag).(abilityStatus := abilityStatus, inputActivationTag := newSlot)
  }

  /** The type of the ability's info entry, as the equip checks use it. */
  function AbilityTypeOf(infos: seq<AriaAbilityInfo>, abilityTag: Tag): Tag
  {
    FindAbilityInfoForTag(infos, abilityTag).abilityType
  }

  /**
   * The info UAriaWidgetController::BroadcastAbilityInfo sends for one activatable spec: the
   * data asset's entry for the spec's ability tag, with its type, status and input slot
   * overwritten by the spec's own.
   */
  function SpecAbilityInfo(infos: seq<AriaAbilityInfo>, spec: AbilitySpec): AriaAbilityInfo
  {
    FindAbilityInfoForTag(infos, GetAbilityTagFromSpec(spec)).(
      abilityType := GetAbilityTypeTagFromSpec(spec),
      abilityStatus := GetAbilityStatusTagFromSpec(spec),
      inputActivationTag := GetInputActivationTagFromSpec(spec))
  }

  /**
   * What a spec's broadcast says: the spec's type, status and slot; the asset entry's level
   * requirement and cooldown when the asset knows the ability, and otherwise a record under
   * the empty ability tag with the defaults.
   */
  lemma SpecAbilityInfoContents(infos: seq<AriaAbilityInfo>, spec: AbilitySpec)
    ensures var info := SpecAbilityInfo(infos, spec);
      && info.abilityType == GetAbilityTypeTagFromSpec(spec)
      && info.abilityStatus == GetAbilityStatusTagFromSpec(spec)
      && info.inputActivationTag == GetInputActivationTagFromSpec(spec)
    ensures (exists i :: 0 <= i < |infos| && infos[i].abilityTag == GetAbilityTagFromSpec(spec)) ==>
              exists i :: 0 <= i < |infos| && infos[i].abilityTag == GetAbilityTagFromSpec(spec)
                && SpecAbilityInfo(infos, spec) == infos[i].(abilityType := GetAbilityTypeTagFromSpec(spec),
                                                              abilityStatus := GetAbilityStatusTagFromSpec(spec),
                                                              inputActivationTag := GetInputActivationTagFromSpec(spec))
    ensures (forall i :: 0 <= i < |infos| ==> infos[i].abilityTag != GetAbilityTagFromSpec(spec)) ==>
              SpecAbilityInfo(infos, spec).abilityTag == EmptyTag
              && SpecAbilityInfo(infos, spec).levelRequirement == 1
  {
  }

  /**
   * BroadcastAbilityInfo's broadcasts: none before the startup abilities are given, and then
   * one per activatable spec, in the specs' order.
   */
  function AbilityInfoBroadcasts(infos: seq<AriaAbilityInfo>, specs: seq<AbilitySpec>, startupAbilitiesGiven: bool): (r: seq<MenuEvent>)
    ensures |r| == if startupAbilitiesGiven then |specs| else 0
  {
    if !startupAbilitiesGiven || |specs| == 0 then []
    else AbilityInfoBroadcasts(infos, specs[..|specs| - 1], true) + [AbilityInfoBroadcast(SpecAbilityInfo(infos, specs[|specs| - 1]))]
  }

  /** The k-th broadcast is the info for the k-th spec, so every spec's state reaches the widgets. */
  lemma {:induction false} AbilityInfoBroadcastsFollowSpecs(infos: seq<AriaAbilityInfo>, specs: seq<AbilitySpec>)
    ensures forall k :: 0 <= k < |specs| ==>
              AbilityInfoBroadcasts(infos, specs, true)[k] == AbilityInfoBroadcast(SpecAbilityInfo(infos, specs[k]))
  {
    if |specs| > 0 {
      var front := specs[..|specs| - 1];
      AbilityInfoBroadcastsFollowSpecs(infos, front);
      var r := AbilityInfoBroadcasts(infos, specs, true);
      var earlier := AbilityInfoBroadcasts(infos, front, true);
      assert r == earlier + [AbilityInfoBroadcast(SpecAbilityInfo(infos, specs[|specs| - 1]))];
      forall k | 0 <= k < |specs|
        ensures r[k] == AbilityInfoBroadcast(SpecAbilityInfo(infos, specs[k]))
      {
        if k < |front| {
          assert r[k] == earlier[k] && front[k] == specs[k];
        }
      }
    }
  }

  /** The broadcasts for the specs so far, extended by the next spec's. */
  lemma AbilityInfoBroadcastsStep(infos: seq<AriaAbilityInfo>, specs: seq<AbilitySpec>, k: nat)
    requires k < |specs|
    ensures AbilityInfoBroadcasts(infos, specs[..k + 1], true)
            == AbilityInfoBroadcasts(infos, specs[..k], true) + [AbilityInfoBroadcast(SpecAbilityInfo(infos, specs[k]))]
  {
    assert specs[..k + 1][..k] == specs[..k];
  }

  /**
   * The ForEachAbility loop of BroadcastAbilityInfo: the info for each activatable spec, built
   * field by field as the lambda builds it. The infos are gathered in order and then appended
   * to the log together, which leaves the log as the one-by-one broadcasts would.
   */
  method CollectAbilityInfo(infos: seq<AriaAbilityInfo>, specs: seq<AbilitySpec>) returns (broadcasts: seq<MenuEvent>)
    ensures broadcasts == AbilityInfoBroadcasts(infos, specs, true)
  {
    broadcasts := [];
    for k := 0 to |specs|
      invariant broadcasts == AbilityInfoBroadcasts(infos, specs[..k], true)
    {
      var info := FindAbilityInfoForTag(infos, GetAbilityTagFromSpec(specs[k]));
      info := info.(abilityType := GetAbilityTypeTagFromSpec(specs[k]));
      info := info.(abilityStatus := GetAbilityStatusTagFromSpec(specs[k]));
      info := info.(inputActivationTag := GetInputActivationTagFromSpec(specs[k]));
      assert info == SpecAbilityInfo(infos, specs[k]);
      AbilityInfoBroadcastsStep(infos, specs, k);
      broadcasts := broadcasts + [AbilityInfoBroadcast(info)];
    }
    assert specs[..|specs|] == specs;
  }

  class AbilityMenuWidgetController {
    /** The AbilityInfo data asset the controller was given. */
    const abilityInfo: seq<AriaAbilityInfo>
    /** Whether the AbilityInfo pointer is set; only the status callback checks it. */
    const hasAbilityInfo: bool
    var selectedAbility: SelectedAbility
    var currentAbilityPoints: int
    var waitingForEquipSelection: bool
    var selectedAbilitySlot: Tag
    /** Broadcasts and server calls, oldest first. */
    var events: seq<MenuEvent>

    /** The class defaults: nothing selected, no points seen, not waiting. */
    constructor (infos: seq<AriaAbilityInfo>, infoSet: bool)
      ensures abilityInfo == infos && hasAbilityInfo == infoSet
      ensures selectedAbility == NoSelection && currentAbilityPoints == 0
      ensures !waitingForEquipSelection && selectedAbilitySlot == EmptyTag && events == []
    {
      abilityInfo := infos;
      hasAbilityInfo := infoSet;
      selectedAbility := NoSelection;
      currentAbilityPoints := 0;
      waitingForEquipSelection := false;
      selectedAbilitySlot := EmptyTag;
      events := [];
    }

    /**
     * UAriaWidgetController::BroadcastAbilityInfo: once the startup abilities are given,
     * broadcasts the info for each activatable spec in turn. Each one reads the data asset,
     * which the source does not check here.
     */
    method BroadcastAbilityInfo(specs: seq<AbilitySpec>, startupAbilitiesGiven: bool)
      requires startupAbilitiesGiven && |specs| > 0 ==> hasAbilityInfo
      modifies this
      ensures events == old(events) + AbilityInfoBroadcasts(abilityInfo, specs, startupAbilitiesGiven)
      ensures selectedAbility == old(selectedAbility) && currentAbilityPoints == old(currentAbilityPoints)
      ensures waitingForEquipSelection == old(waitingForEquipSelection) && selectedAbilitySlot == old(selectedAbilitySlot)
    {
      if !startupAbilitiesGiven {
        return;
      }
      var broadcasts := CollectAbilityInfo(abilityInfo, specs);
      events := events + broadcasts;
    }

    /** BroadcastInitialValues: the info for every ability, then the player state's current points. */
    method BroadcastInitialValues(specs: seq<AbilitySpec>, startupAbilitiesGiven: bool, playerAbilityPoints: int)
      requires startupAbilitiesGiven && |specs| > 0 ==> hasAbilityInfo
      modifies this
      ensures events == old(events) + AbilityInfoBroadcasts(abilityInfo, specs, startupAbilitiesGiven)
                                    + [AbilityPointsChanged(playerAbilityPoints)]
      ensures selectedAbility == old(selectedAbility) && currentAbilityPoints == old(currentAbilityPoints)
      ensures waitingForEquipSelection == old(waitingForEquipSelection) && selectedAbilitySlot == old(selectedAbilitySlot)
    {
      BroadcastAbilityInfo(specs, startupAbilitiesGiven);
      events := events + [AbilityPointsChanged(playerAbilityPoints)];
    }

    /**
     * The ability-points callback: broadcasts the points, remembers them, and re-sends the
     * selected globe with buttons recomputed for its status and the new points.
     */
    method OnAbilityPointsChanged(abilityPoints: int)
      modifies this
      ensures currentAbilityPoints == abilityPoints
      ensures var b := MenuButtons(old(selectedAbility).status, abilityPoints);
        events == old(events) + [AbilityPointsChanged(abilityPoints),
                                 GlobeSelected(b.spendPoints, b.equip, Some(old(selectedAbility).ability))]
      ensures selectedAbility == old(selectedAbility)
      ensures waitingForEquipSelection == old(waitingForEquipSelection) && selectedAbilitySlot == old(selectedAbilitySlot)
    {
      events := events + [AbilityPointsChanged(abilityPoints)];
      currentAbilityPoints := abilityPoints;
      var buttons := ShouldEnableAbilityMenuButtons(selectedAbility.status, currentAbilityPoints, Buttons(false, false));
      events := events + [GlobeSelected(buttons.spendPoints, buttons.equip, Some(selectedAbility.ability))];
    }

    /**
     * The ability-status callback: when the status is for the selected ability (matched
     * exactly), adopts it and re-sends the globe; then, when the data asset is set, broadcasts
     * the ability's info with the new status.
     */
    method OnAbilityStatusChanged(abilityTag: Tag, abilityStatusTag: Tag, newAbilityLevel: int)
      modifies this
      ensures var info := FindAbilityInfoForTag(abilityInfo, abilityTag).(abilityStatus := abilityStatusTag);
        var infoEvents := if hasAbilityInfo then [AbilityInfoBroadcast(info)] else [];
        if MatchesTagExact(old(selectedAbility).ability, abilityTag) then
          var b := MenuButtons(abilityStatusTag, currentAbilityPoints);
          && selectedAbility == old(selectedAbility).(status := abilityStatusTag)
          && events == old(events) + [GlobeSelected(b.spendPoints, b.equip, Some(abilityTag))] + infoEvents
        else
          && selectedAbility == old(selectedAbility)
          && events == old(events) + infoEvents
      ensures currentAbilityPoints == old(currentAbilityPoints)
      ensures waitingForEquipSelection == old(waitingForEquipSelection) && selectedAbilitySlot == old(selectedAbilitySlot)
    {
      if MatchesTagExact(selectedAbility.ability, abilityTag) {
        selectedAbility := selectedAbility.(status := abilityStatusTag);
        var buttons := ShouldEnableAbilityMenuButtons(abilityStatusTag, currentAbilityPoints, Buttons(false, false));
        events := events + [GlobeSelected(buttons.spendPoints, buttons.equip, Some(abilityTag))];
      }
      if hasAbilityInfo {
        var info := FindAbilityInfoForTag(abilityInfo, abilityTag);
        info := info.(abilityStatus := abilityStatusTag);
        events := events + [AbilityInfoBroadcast(info)];
      }
    }

    /** SpendPointsButtonPressed: asks the server to spend points on the selected ability. */
    method SpendPointsButtonPressed()
      modifies this
      ensures events == old(events) + [SpendPointsRequested(selectedAbility.ability)]
      ensures selectedAbility == old(selectedAbility) && currentAbilityPoints == old(currentAbilityPoints)
      ensures waitingForEquipSelection == old(waitingForEquipSelection) && selectedAbilitySlot == old(selectedAbilitySlot)
    {
      events := events + [SpendPointsRequested(selectedAbility.ability)];
    }

    /**
     * EquipButtonPressed: broadcasts the selected ability's type, starts waiting for a slot,
     * and remembers the ability's current slot only when it is Equipped.
     */
    method EquipButtonPressed(specs: seq<AbilitySpec>)
      requires hasAbilityInfo
      modifies this
      ensures events == old(events) + [WaitForEquip(AbilityTypeOf(abilityInfo, selectedAbility.ability))]
      ensures waitingForEquipSelection
      ensures selectedAbilitySlot
              == if MatchesTagExact(GetAbilityStatusFromAbilityTag(specs, selectedAbility.ability), StatusEquipped)
                 then GetInputActivationTagFromAbilityTag(specs, selectedAbility.ability)
                 else old(selectedAbilitySlot)
      ensures selectedAbility == old(selectedAbility) && currentAbilityPoints == old(currentAbilityPoints)
    {
      var abilityType := FindAbilityInfoForTag(abilityInfo, selectedAbility.ability).abilityType;
      events := events + [WaitForEquip(abilityType)];
      waitingForEquipSelection := true;
      var selectedAbilityStatus := GetAbilityStatusFromAbilityTag(specs, selectedAbility.ability);
      if MatchesTagExact(selectedAbilityStatus, StatusEquipped) {
        selectedAbilitySlot := GetInputActivationTagFromAbilityTag(specs, selectedAbility.ability);
      }
    }

    /**
     * EquippedAbilityGlobePressed: while waiting, and only for a slot whose ability type is
     * exactly the selected ability's, asks the server to equip the selected ability there.
     */
    method EquippedAbilityGlobePressed(equipSlotAbilityTag: Tag, equipSlotAbilityType: Tag)
      requires waitingForEquipSelection ==> hasAbilityInfo
      modifies this
      ensures events
              == if old(waitingForEquipSelection) && MatchesTagExact(AbilityTypeOf(abilityInfo, selectedAbility.ability), equipSlotAbilityType)
                 then old(events) + [EquipRequested(selectedAbility.ability, equipSlotAbilityTag)]
                 else old(events)
      ensures selectedAbility == old(selectedAbility) && currentAbilityPoints == old(currentAbilityPoints)
      ensures waitingForEquipSelection == old(waitingForEquipSelection) && selectedAbilitySlot == old(selectedAbilitySlot)
    {
      if !waitingForEquipSelection {
        return;
      }
      var selectedAbilityType := FindAbilityInfoForTag(abilityInfo, selectedAbility.ability).abilityType;
      if !MatchesTagExact(selectedAbilityType, equipSlotAbilityType) {
        return;
      }
      events := events + [EquipRequested(selectedAbility.ability, equipSlotAbilityTag)];
    }

    /**
     * OnAbilityEquipped: stops waiting, broadcasts a cleared record for the old slot and then
     * the ability's record for the new slot, cancels the wait for its type, reports the globe
     * reassigned, and deselects.
     */
    method OnAbilityEquipped(abilityTag: Tag, abilityStatus: Tag, newSlot: Tag, oldSlot: Tag)
      requires hasAbilityInfo
      modifies this
      ensures !waitingForEquipSelection
      ensures selectedAbility == NoSelection
      ensures events == old(events) + [AbilityInfoBroadcast(ClearedSlotInfo(oldSlot)),
                                       AbilityInfoBroadcast(EquippedSlotInfo(abilityInfo, abilityTag, abilityStatus, newSlot)),
                                       CancelWaitForEquip(AbilityTypeOf(abilityInfo, abilityTag)),
                                       AbilityGlobeReassigned(abilityTag),
                                       GlobeSelected(false, false, None)]
      ensures currentAbilityPoints == old(currentAbilityPoints) && selectedAbilitySlot == old(selectedAbilitySlot)
    {
      waitingForEquipSelection := false;
      var previousSlotInfo := DefaultAbilityInfo;
      previousSlotInfo := previousSlotInfo.(abilityStatus := StatusUnlocked);
      previousSlotInfo := previousSlotInfo.(inputActivationTag := oldSlot);
      previousSlotInfo := previousSlotInfo.(abilityTag := AbilitiesNone);
      events := events + [AbilityInfoBroadcast(previousSlotInfo)];
      var newSlotInfo := FindAbilityInfoForTag(abilityInfo, abilityTag);
      newSlotInfo := newSlotInfo.(abilityStatus := abilityStatus);
      newSlotInfo := newSlotInfo.(inputActivationTag := newSlot);
      events := events + [AbilityInfoBroadcast(newSlotInfo)];
      events := events + [CancelWaitForEquip(FindAbilityInfoForTag(abilityInfo, abilityTag).abilityType)];
      events := events + [AbilityGlobeReassigned(abilityTag)];
      AbilityGlobeDeselect();
    }

    /**
     * AbilityGlobeSelected: cancels a pending equip wait (for the newly selected ability's
     * type), selects the globe with the status SelectedStatus gives it, and broadcasts the
     * buttons for that status and the player's ability points.
     */
    method AbilityGlobeSelected(abilityTag: Tag, specs: seq<AbilitySpec>, playerAbilityPoints: int)
      requires waitingForEquipSelection ==> hasAbilityInfo
      modifies this
      ensures !waitingForEquipSelection
      ensures selectedAbility == SelectedAbility(abilityTag, SelectedStatus(specs, abilityTag))
      ensures var b := MenuButtons(SelectedStatus(specs, abilityTag), playerAbilityPoints);
        events == old(events)
          + (if old(waitingForEquipSelection) then [CancelWaitForEquip(AbilityTypeOf(abilityInfo, abilityTag))] else [])
          + [GlobeSelected(b.spendPoints, b.equip, Some(abilityTag))]
      ensures currentAbilityPoints == old(currentAbilityPoints) && selectedAbilitySlot == old(selectedAbilitySlot)
    {
      if waitingForEquipSelection {
        var selectedAbilityType := FindAbilityInfoForTag(abilityInfo, abilityTag).abilityType;
        events := events + [CancelWaitForEquip(selectedAbilityType)];
        waitingForEquipSelection := false;
      }
      var abilitySpec := GetSpecFromAbilityTag(specs, abilityTag);
      var abilityStatus: Tag;
      var tagValid := IsValid(abilityTag);
      var tagNone := MatchesTag(abilityTag, AbilitiesNone);
      var specValid := abilitySpec.Some?;
      if !tagValid || tagNone || !specValid {
        abilityStatus := StatusLocked;
      } else {
        abilityStatus := GetAbilityStatusTagFromSpec(specs[abilitySpec.value]);
      }
      selectedAbility := SelectedAbility(abilityTag, abilityStatus);
      var buttons := ShouldEnableAbilityMenuButtons(abilityStatus, playerAbilityPoints, Buttons(false, false));
      events := events + [GlobeSelected(buttons.spendPoints, buttons.equip, Some(abilityTag))];
    }

    /**
     * AbilityGlobeDeselect: cancels a pending equip wait (for the selected ability's type),
     * resets the selection to (None, Locked) and broadcasts both buttons disabled with empty
     * descriptions.
     */
    method AbilityGlobeDeselect()
      requires waitingForEquipSelection ==> hasAbilityInfo
      modifies this
      ensures !waitingForEquipSelection
      ensures selectedAbility == NoSelection
      ensures events == old(events)
        + (if old(waitingForEquipSelection) then [CancelWaitForEquip(AbilityTypeOf(abilityInfo, old(selectedAbility).ability))] else [])
        + [GlobeSelected(false, false, None)]
      ensures currentAbilityPoints == old(currentAbilityPoints) && selectedAbilitySlot == old(selectedAbilitySlot)
    {
      if waitingForEquipSelection {
        var selectedAbilityType := FindAbilityInfoForTag(abilityInfo, selectedAbility.ability).abilityType;
        events := events + [CancelWaitForEquip(selectedAbilityType)];
        waitingForEquipSelection := false;
      }
      selectedAbility := NoSelection;
      events := events + [GlobeSelected(false, false, None)];
    }
  }
}
