/**
 * UAriaAbilitySystemComponent: the character's activatable abilities, each with its status
 * tag (Abilities.Status.*) and input-slot tag (InputTag.*) among its dynamic tags, and the
 * server-side rules that grant, unlock, level up and equip them.
 *
 * A spec is identified by its index in the activatable-ability list; the pointer the engine
 * hands back becomes `Option<nat>`. The avatar's XP interface is the player state it forwards
 * to, `null` when the avatar does not implement it. Client RPCs and delegates are events.
 */
module AbilitySystem {
  import opened Tags
  import opened Wrappers
  import opened AbilityInfo
  import opened PlayerState

  /** FGameplayAbilitySpec: the granted class, its level, and its dynamic (status and slot) tags. */
  datatype AbilitySpec = AbilitySpec(ability: AbilityClass, level: int, dynamicAbilityTags: seq<Tag>)

  /** What the component broadcasts, multicasts or sends to its client while it works. */
  datatype AscEvent =
    | AbilitiesGiven
    | AbilityStatusChanged(abilityTag: Tag, statusTag: Tag, abilityLevel: int)
    | AbilityEquipped(abilityTag: Tag, status: Tag, newSlot: Tag, oldSlot: Tag)
    | PassiveEffectActivated(passiveTag: Tag, activate: bool)
    | PassiveAbilityDeactivated(passiveTag: Tag)
    | ActivationTried(specIndex: nat)
    | GameplayEventSent(eventTag: Tag, eventMagnitude: real)

  /** The activatable abilities after an operation, and what the operation emitted. */
  datatype Outcome = Outcome(specs: seq<AbilitySpec>, events: seq<AscEvent>)

  // ---------------------------------------------------------------- tags read off a spec

  /** GetAbilityTagFromSpec: the first of the ability's own tags under Abilities. */
  function GetAbilityTagFromSpec(s: AbilitySpec): (r: Tag)
    ensures r == EmptyTag <==> !HasTag(s.ability.abilityTags, Abilities)
    ensures r != EmptyTag ==> r in s.ability.abilityTags && MatchesTag(r, Abilities)
  {
    FirstMatching(s.ability.abilityTags, Abilities)
  }

  /** GetAbilityTypeTagFromSpec: the first of the ability's own tags under Abilities.Type. */
  function GetAbilityTypeTagFromSpec(s: AbilitySpec): (r: Tag)
    ensures r == EmptyTag <==> !HasTag(s.ability.abilityTags, AbilitiesType)
    ensures r != EmptyTag ==> r in s.ability.abilityTags && MatchesTag(r, AbilitiesType)
  {
    FirstMatching(s.ability.abilityTags, AbilitiesType)
  }

  /** GetAbilityStatusTagFromSpec: the first dynamic tag under Abilities.Status. */
  function GetAbilityStatusTagFromSpec(s: AbilitySpec): (r: Tag)
    ensures r == EmptyTag <==> !HasTag(s.dynamicAbilityTags, AbilitiesStatus)
    ensures r != EmptyTag ==> r in s.dynamicAbilityTags && MatchesTag(r, AbilitiesStatus)
  {
    FirstMatching(s.dynamicAbilityTags, AbilitiesStatus)
  }

  /** GetInputActivationTagFromSpec: the first dynamic tag under InputTag (the slot). */
  function GetInputActivationTagFromSpec(s: AbilitySpec): (r: Tag)
    ensures r == EmptyTag <==> !HasTag(s.dynamicAbilityTags, InputTag)
    ensures r != EmptyTag ==> r in s.dynamicAbilityTags && MatchesTag(r, InputTag)
  {
    FirstMatching(s.dynamicAbilityTags, InputTag)
  }

  // ---------------------------------------------------------------- searches over the specs

  /** GetSpecFromAbilityTag: the first spec with an ability tag that is `abilityTag` or lies under it. */
  function GetSpecFromAbilityTag(specs: seq<AbilitySpec>, abilityTag: Tag): (r: Option<nat>)
    ensures r.None? <==> forall i :: 0 <= i < |specs| ==> !HasTag(specs[i].ability.abilityTags, abilityTag)
    ensures r.Some? ==>
              r.value < |specs| && HasTag(specs[r.value].ability.abilityTags, abilityTag) &&
              forall j :: 0 <= j < r.value ==> !HasTag(specs[j].ability.abilityTags, abilityTag)
  {
    SpecWithAbilityTagFrom(specs, abilityTag, 0)
  }

  function SpecWithAbilityTagFrom(specs: seq<AbilitySpec>, abilityTag: Tag, from: nat): (r: Option<nat>)
    requires from <= |specs|
    decreases |specs| - from
    ensures r.None? <==> forall i :: from <= i < |specs| ==> !HasTag(specs[i].ability.abilityTags, abilityTag)
    ensures r.Some? ==>
              from <= r.value < |specs| && HasTag(specs[r.value].ability.abilityTags, abilityTag) &&
              forall j :: from <= j < r.value ==> !HasTag(specs[j].ability.abilityTags, abilityTag)
  {
    if from == |specs| then None
    else if HasTag(specs[from].ability.abilityTags, abilityTag) then Some(from)
    else SpecWithAbilityTagFrom(specs, abilityTag, from + 1)
  }

  /** AbilityBoundToSlot: the spec carries exactly this slot tag. */
  predicate AbilityBoundToSlot(s: AbilitySpec, slot: Tag)
  {
    HasTagExact(s.dynamicAbilityTags, slot)
  }

  /** AbilityBoundToAnySlot: the spec carries some tag under InputTag. */
  predicate AbilityBoundToAnySlot(s: AbilitySpec)
  {
    HasTag(s.dynamicAbilityTags, InputTag)
  }

  /** SlotIsEmpty: no spec is bound to the slot. */
  predicate SlotIsEmpty(specs: seq<AbilitySpec>, slot: Tag)
  {
    forall i :: 0 <= i < |specs| ==> !AbilityBoundToSlot(specs[i], slot)
  }

  /** GetAbilitySpecBoundToSlot: the first spec bound to the slot; none exactly when the slot is empty. */
  function GetAbilitySpecBoundToSlot(specs: seq<AbilitySpec>, slot: Tag): (r: Option<nat>)
    ensures r.None? <==> SlotIsEmpty(specs, slot)
    ensures r.Some? ==>
              r.value < |specs| && AbilityBoundToSlot(specs[r.value], slot) &&
              forall j :: 0 <= j < r.value ==> !AbilityBoundToSlot(specs[j], slot)
  {
    SpecBoundToSlotFrom(specs, slot, 0)
  }

  function SpecBoundToSlotFrom(specs: seq<AbilitySpec>, slot: Tag, from: nat): (r: Option<nat>)
    requires from <= |specs|
    decreases |specs| - from
    ensures r.None? <==> forall i :: from <= i < |specs| ==> !AbilityBoundToSlot(specs[i], slot)
    ensures r.Some? ==>
              from <= r.value < |specs| && AbilityBoundToSlot(specs[r.value], slot) &&
              forall j :: from <= j < r.value ==> !AbilityBoundToSlot(specs[j], slot)
  {
    if from == |specs| then None
    else if AbilityBoundToSlot(specs[from], slot) then Some(from)
    else SpecBoundToSlotFrom(specs, slot, from + 1)
  }

  /** IsPassiveAbility: the ability's info entry has a type under Abilities.Type.Passive. */
  predicate IsPassiveAbility(s: AbilitySpec, infos: seq<AriaAbilityInfo>)
  {
    MatchesTag(FindAbilityInfoForTag(infos, GetAbilityTagFromSpec(s)).abilityType, TypePassive)
  }

  /** GetAbilityStatusFromAbilityTag: the status of the spec holding the ability, or the empty tag. */
  function GetAbilityStatusFromAbilityTag(specs: seq<AbilitySpec>, abilityTag: Tag): (r: Tag)
    ensures GetSpecFromAbilityTag(specs, abilityTag).None? ==> r == EmptyTag
    ensures r != EmptyTag ==> MatchesTag(r, AbilitiesStatus)
  {
    match GetSpecFromAbilityTag(specs, abilityTag)
    case None => EmptyTag
    case Some(i) => GetAbilityStatusTagFromSpec(specs[i])
  }

  /** GetInputActivationTagFromAbilityTag: the slot of the spec holding the ability, or the empty tag. */
  function GetInputActivationTagFromAbilityTag(specs: seq<AbilitySpec>, abilityTag: Tag): (r: Tag)
    ensures GetSpecFromAbilityTag(specs, abilityTag).None? ==> r == EmptyTag
    ensures r != EmptyTag ==> MatchesTag(r, InputTag)
  {
    match GetSpecFromAbilityTag(specs, abilityTag)
    case None => EmptyTag
    case Some(i) => GetInputActivationTagFromSpec(specs[i])
  }

  // ---------------------------------------------------------------- well-formed dynamic tags

  /** AddTag/RemoveTag keep at most one status tag and at most one slot tag on every spec. */
  predicate WellFormedSpec(s: AbilitySpec)
  {
    AtMostOneUnder(s.dynamicAbilityTags, InputTag) && AtMostOneUnder(s.dynamicAbilityTags, AbilitiesStatus)
  }

  /** No slot is held by two specs. */
  predicate SlotsDistinct(specs: seq<AbilitySpec>)
  {
    forall i, j ::
      0 <= i < |specs| && 0 <= j < |specs| && i != j && GetInputActivationTagFromSpec(specs[i]) != EmptyTag ==>
        GetInputActivationTagFromSpec(specs[i]) != GetInputActivationTagFromSpec(specs[j])
  }

  predicate WellFormed(specs: seq<AbilitySpec>)
  {
    (forall i :: 0 <= i < |specs| ==> WellFormedSpec(specs[i])) && SlotsDistinct(specs)
  }

  /** A spec is bound to a slot exactly when that slot is its one input tag. */
  lemma BoundIffInputTag(s: AbilitySpec, slot: Tag)
    requires WellFormedSpec(s) && MatchesTag(slot, InputTag)
    ensures AbilityBoundToSlot(s, slot) <==> GetInputActivationTagFromSpec(s) == slot
  {
    if AbilityBoundToSlot(s, slot) {
      var k :| 0 <= k < |s.dynamicAbilityTags| && MatchesTagExact(s.dynamicAbilityTags[k], slot);
      FirstMatchingIsOnly(s.dynamicAbilityTags, InputTag, slot);
    }
    if GetInputActivationTagFromSpec(s) == slot {
      var k :| 0 <= k < |s.dynamicAbilityTags| && s.dynamicAbilityTags[k] == slot;
      assert MatchesTagExact(s.dynamicAbilityTags[k], slot);
    }
  }

  /** Over well-formed specs, SlotIsEmpty means that no spec has the slot as its input tag. */
  lemma SlotIsEmptyIffUnheld(specs: seq<AbilitySpec>, slot: Tag)
    requires WellFormed(specs) && MatchesTag(slot, InputTag)
    ensures SlotIsEmpty(specs, slot) <==> forall i :: 0 <= i < |specs| ==> GetInputActivationTagFromSpec(specs[i]) != slot
  {
    forall i | 0 <= i < |specs| ensures AbilityBoundToSlot(specs[i], slot) <==> GetInputActivationTagFromSpec(specs[i]) == slot {
      BoundIffInputTag(specs[i], slot);
    }
  }

  // ---------------------------------------------------------------- slot assignment

  /** ClearBoundAbilityFromSlot: drops the spec's input tag; nothing else about the spec changes. */
  function ClearBoundAbilityFromSlot(s: AbilitySpec): (r: AbilitySpec)
    ensures r.ability == s.ability && r.level == s.level
    ensures GetAbilityStatusTagFromSpec(r) == GetAbilityStatusTagFromSpec(s)
    ensures CountUnder(r.dynamicAbilityTags, AbilitiesStatus) == CountUnder(s.dynamicAbilityTags, AbilitiesStatus)
    ensures AtMostOneUnder(s.dynamicAbilityTags, InputTag) ==>
              CountUnder(r.dynamicAbilityTags, InputTag) == 0 && GetInputActivationTagFromSpec(r) == EmptyTag
  {
    var slot := GetInputActivationTagFromSpec(s);
    InputTagsAreNotStatusTags(slot);
    FirstMatchingRemoveOther(s.dynamicAbilityTags, slot, AbilitiesStatus);
    CountUnderRemove(s.dynamicAbilityTags, slot, AbilitiesStatus);
    var r := s.(dynamicAbilityTags := RemoveTag(s.dynamicAbilityTags, slot));
    if AtMostOneUnder(s.dynamicAbilityTags, InputTag) then
      RemoveOnlyMatching(s.dynamicAbilityTags, InputTag);
      CountUnderZero(r.dynamicAbilityTags, InputTag);
      r
    else
      r
  }

  /** Slot tags and status tags live under different roots; the empty tag is under neither. */
  lemma InputTagsAreNotStatusTags(t: Tag)
    ensures MatchesTag(t, InputTag) ==> !MatchesTag(t, AbilitiesStatus)
    ensures t == EmptyTag ==> !MatchesTag(t, AbilitiesStatus) && !MatchesTag(t, InputTag)
  {
    if |t.parts| >= 2 {
      assert t.parts[..1][0] == t.parts[0] && t.parts[..2][0] == t.parts[0];
    }
  }

  /** A tag under `parent` is not in a container that holds nothing under `parent`. */
  lemma NotInWhenNoneUnder(c: seq<Tag>, parent: Tag, t: Tag)
    requires CountUnder(c, parent) == 0 && MatchesTag(t, parent)
    ensures t !in c
  {
    CountUnderZero(c, parent);
  }

  /**
   * AssignSlotToAbility: clears the spec's old slot, then adds the new one. A slot under
   * InputTag becomes the spec's only input tag; the status tag is untouched.
   */
  function AssignSlotToAbility(s: AbilitySpec, slot: Tag): (r: AbilitySpec)
    ensures r.ability == s.ability && r.level == s.level
    ensures MatchesTag(slot, InputTag) ==>
              GetAbilityStatusTagFromSpec(r) == GetAbilityStatusTagFromSpec(s) &&
              CountUnder(r.dynamicAbilityTags, AbilitiesStatus) == CountUnder(s.dynamicAbilityTags, AbilitiesStatus)
    ensures MatchesTag(slot, InputTag) && AtMostOneUnder(s.dynamicAbilityTags, InputTag) ==>
              GetInputActivationTagFromSpec(r) == slot && CountUnder(r.dynamicAbilityTags, InputTag) == 1
  {
    var cleared := ClearBoundAbilityFromSlot(s);
    if MatchesTag(slot, InputTag) then
      AddSlotTag(cleared.dynamicAbilityTags, slot);
      cleared.(dynamicAbilityTags := AddTag(cleared.dynamicAbilityTags, slot))
    else
      cleared.(dynamicAbilityTags := AddTag(cleared.dynamicAbilityTags, slot))
  }

  /** Adding a slot tag leaves the status tags alone, and into tags with no slot it becomes the only one. */
  lemma AddSlotTag(c: seq<Tag>, slot: Tag)
    requires MatchesTag(slot, InputTag)
    ensures FirstMatching(AddTag(c, slot), AbilitiesStatus) == FirstMatching(c, AbilitiesStatus)
    ensures CountUnder(AddTag(c, slot), AbilitiesStatus) == CountUnder(c, AbilitiesStatus)
    ensures CountUnder(c, InputTag) == 0 ==>
              FirstMatching(AddTag(c, slot), InputTag) == slot && CountUnder(AddTag(c, slot), InputTag) == 1
  {
    InputTagsAreNotStatusTags(slot);
    if slot !in c {
      assert AddTag(c, slot) == c + [slot];
      FirstMatchingAppend(c, slot, AbilitiesStatus);
      CountUnderAppend(c, slot, AbilitiesStatus);
      if CountUnder(c, InputTag) == 0 {
        CountUnderZero(c, InputTag);
        FirstMatchingAppend(c, slot, InputTag);
        CountUnderAppend(c, slot, InputTag);
      }
    } else {
      assert AddTag(c, slot) == c;
      if CountUnder(c, InputTag) == 0 {
        NotInWhenNoneUnder(c, InputTag, slot);
      }
    }
  }

  // ---------------------------------------------------------------- granting abilities

  /** The spec AddCharacterAbilities gives a startup ability: level 1, its startup slot, Equipped. */
  function StartupSpec(c: AbilityClass): (r: AbilitySpec)
    ensures r.ability == c && r.level == 1
    ensures MatchesTag(c.startupInputTag, InputTag) || !IsValid(c.startupInputTag) ==>
              GetAbilityStatusTagFromSpec(r) == StatusEquipped &&
              GetInputActivationTagFromSpec(r) == c.startupInputTag && WellFormedSpec(r)
  {
    var slotted := AddTag([], c.startupInputTag);
    var r := AbilitySpec(c, 1, AddTag(slotted, StatusEquipped));
    if MatchesTag(c.startupInputTag, InputTag) || !IsValid(c.startupInputTag) then
      InputTagsAreNotStatusTags(c.startupInputTag);
      InputTagsAreNotStatusTags(StatusEquipped);
      assert slotted == [] + [c.startupInputTag] || slotted == [];
      if slotted == [] then
        assert c.startupInputTag == EmptyTag;
        assert r.dynamicAbilityTags == [] + [StatusEquipped];
        FirstMatchingAppend([], StatusEquipped, AbilitiesStatus);
        FirstMatchingAppend([], StatusEquipped, InputTag);
        CountUnderAppend([], StatusEquipped, AbilitiesStatus);
        CountUnderAppend([], StatusEquipped, InputTag);
        r
      else
        assert StatusEquipped !in slotted;
        assert r.dynamicAbilityTags == slotted + [StatusEquipped];
        FirstMatchingAppend([], c.startupInputTag, AbilitiesStatus);
        FirstMatchingAppend([], c.startupInputTag, InputTag);
        CountUnderAppend([], c.startupInputTag, AbilitiesStatus);
        CountUnderAppend([], c.startupInputTag, InputTag);
        FirstMatchingAppend(slotted, StatusEquipped, AbilitiesStatus);
        FirstMatchingAppend(slotted, StatusEquipped, InputTag);
        CountUnderAppend(slotted, StatusEquipped, AbilitiesStatus);
        CountUnderAppend(slotted, StatusEquipped, InputTag);
        r
    else
      r
  }

  /** The specs given for a list of startup classes: one per class that is an Aria ability, in order. */
  function StartupSpecs(classes: seq<AbilityClass>): seq<AbilitySpec>
  {
    if |classes| == 0 then []
    else
      var last := classes[|classes| - 1];
      StartupSpecs(classes[..|classes| - 1]) + (if last.isAriaAbility then [StartupSpec(last)] else [])
  }

  /** Every startup spec is an Aria ability of the list, granted Equipped at level 1. */
  lemma {:induction false} StartupSpecsAreEquipped(classes: seq<AbilityClass>)
    requires forall k :: 0 <= k < |classes| ==> MatchesTag(classes[k].startupInputTag, InputTag) || !IsValid(classes[k].startupInputTag)
    ensures |StartupSpecs(classes)| <= |classes|
    ensures forall j :: 0 <= j < |StartupSpecs(classes)| ==>
              var s := StartupSpecs(classes)[j];
              s.ability in classes && s.ability.isAriaAbility && s.level == 1 &&
              GetAbilityStatusTagFromSpec(s) == StatusEquipped && WellFormedSpec(s)
  {
    if |classes| > 0 {
      var init := classes[..|classes| - 1];
      StartupSpecsAreEquipped(init);
      var last := classes[|classes| - 1];
      var before := StartupSpecs(init);
      forall j | 0 <= j < |StartupSpecs(classes)|
        ensures var s := StartupSpecs(classes)[j];
                s.ability in classes && s.ability.isAriaAbility && s.level == 1 &&
                GetAbilityStatusTagFromSpec(s) == StatusEquipped && WellFormedSpec(s)
      {
        if j < |before| {
          assert StartupSpecs(classes)[j] == before[j];
          assert before[j].ability in init;
        } else {
          assert StartupSpecs(classes)[j] == StartupSpec(last);
        }
      }
    }
  }

  /**
   * One iteration of the UnlockAbilitiesByLevel / UpdateAbilitiesEligibilityByLevel loop: an
   * entry with a valid tag whose level requirement is met, and whose ability has no spec yet,
   * is given at level 1 with the status tag.
   */
  function GrantStep(prior: Outcome, info: AriaAbilityInfo, level: int, status: Tag): Outcome
  {
    if !IsValid(info.abilityTag) || level < info.levelRequirement then prior
    else if GetSpecFromAbilityTag(prior.specs, info.abilityTag).Some? then prior
    else Outcome(prior.specs + [AbilitySpec(info.gameplayAbilityClass, 1, AddTag([], status))],
                 prior.events + [AbilityStatusChanged(info.abilityTag, status, 1)])
  }

  /** The whole loop over the ability info table, as a fold over its entries in order. */
  function GrantByLevel(specs: seq<AbilitySpec>, infos: seq<AriaAbilityInfo>, level: int, status: Tag): (r: Outcome)
    ensures |specs| <= |r.specs| && r.specs[..|specs|] == specs
    ensures forall j :: |specs| <= j < |r.specs| ==> r.specs[j].level == 1 && r.specs[j].dynamicAbilityTags == AddTag([], status)
    ensures |r.specs| - |specs| == |r.events| <= |infos|
  {
    if |infos| == 0 then Outcome(specs, [])
    else
      var prior := GrantByLevel(specs, infos[..|infos| - 1], level, status);
      GrantStep(prior, infos[|infos| - 1], level, status)
  }

  /** Having a spec for an ability tag survives appending more specs. */
  lemma SpecFoundInPrefix(specs: seq<AbilitySpec>, more: seq<AbilitySpec>, abilityTag: Tag)
    requires GetSpecFromAbilityTag(specs, abilityTag).Some?
    ensures GetSpecFromAbilityTag(specs + more, abilityTag).Some?
  {
    var i := GetSpecFromAbilityTag(specs, abilityTag).value;
    assert (specs + more)[i] == specs[i];
  }

  /**
   * After the loop, every entry with a valid tag and a requirement the level meets has a spec,
   * provided each entry's class carries the entry's own ability tag.
   */
  lemma {:induction false} GrantByLevelCoversReachedAbilities(specs: seq<AbilitySpec>, infos: seq<AriaAbilityInfo>, level: int, status: Tag)
    requires forall k :: 0 <= k < |infos| ==> HasTag(infos[k].gameplayAbilityClass.abilityTags, infos[k].abilityTag)
    ensures forall k :: 0 <= k < |infos| && IsValid(infos[k].abilityTag) && infos[k].levelRequirement <= level ==>
              GetSpecFromAbilityTag(GrantByLevel(specs, infos, level, status).specs, infos[k].abilityTag).Some?
  {
    if |infos| > 0 {
      var init := infos[..|infos| - 1];
      var info := infos[|infos| - 1];
      var prior := GrantByLevel(specs, init, level, status);
      var r := GrantByLevel(specs, infos, level, status);
      GrantByLevelCoversReachedAbilities(specs, init, level, status);
      assert r == GrantStep(prior, info, level, status);
      assert r.specs == prior.specs || r.specs == prior.specs + [AbilitySpec(info.gameplayAbilityClass, 1, AddTag([], status))];
      forall k | 0 <= k < |infos| && IsValid(infos[k].abilityTag) && infos[k].levelRequirement <= level
        ensures GetSpecFromAbilityTag(r.specs, infos[k].abilityTag).Some?
      {
        if k < |infos| - 1 {
          assert infos[k] == init[k];
          SpecFoundInPrefix(prior.specs, r.specs[|prior.specs|..], infos[k].abilityTag);
          assert prior.specs + r.specs[|prior.specs|..] == r.specs;
        } else if GetSpecFromAbilityTag(prior.specs, info.abilityTag).None? {
          var n := |prior.specs|;
          assert r.specs[n].ability.abilityTags == info.gameplayAbilityClass.abilityTags;
        }
      }
    }
  }

  // ---------------------------------------------------------------- spending ability points

  /** Some info entry's tag exactly matches the ability tag. */
  predicate HasInfoFor(infos: seq<AriaAbilityInfo>, abilityTag: Tag)
  {
    exists k :: 0 <= k < |infos| && MatchesTagExact(infos[k].abilityTag, abilityTag)
  }

  /**
   * The ability points the next unlock or level-up costs: the spec's level when it is
   * Eligible, level + 1 otherwise; 0 without a spec or without an info entry.
   */
  function LevelUpCost(specs: seq<AbilitySpec>, abilityTag: Tag, infos: seq<AriaAbilityInfo>): int
  {
    match GetSpecFromAbilityTag(specs, abilityTag)
    case None => 0
    case Some(i) =>
      if !HasInfoFor(infos, abilityTag) then 0
      else if MatchesTagExact(GetAbilityStatusTagFromSpec(specs[i]), StatusEligible) then specs[i].level
      else specs[i].level + 1
  }

  /** The UnlockOrLevelUpAbility step: Eligible becomes Unlocked; Unlocked or Equipped gains a level. */
  function SpendPointsOnSpec(s: AbilitySpec): (r: AbilitySpec)
    ensures r.ability == s.ability
  {
    var status := GetAbilityStatusTagFromSpec(s);
    if MatchesTagExact(status, StatusEligible) then
      s.(dynamicAbilityTags := AddTag(RemoveTag(s.dynamicAbilityTags, StatusEligible), StatusUnlocked))
    else if MatchesTagExact(status, StatusUnlocked) || MatchesTagExact(status, StatusEquipped) then
      s.(level := s.level + 1)
    else
      s
  }

  /** The status the client is told after spending: Unlocked for an Eligible ability, else the old status. */
  function StatusAfterSpending(s: AbilitySpec): Tag
  {
    var status := GetAbilityStatusTagFromSpec(s);
    if MatchesTagExact(status, StatusEligible) then StatusUnlocked else status
  }

  /** Spending on an Eligible ability unlocks it at the same level and keeps its slot. */
  lemma SpendUnlocksEligible(s: AbilitySpec)
    requires WellFormedSpec(s) && GetAbilityStatusTagFromSpec(s) == StatusEligible
    ensures var r := SpendPointsOnSpec(s);
      r.level == s.level && GetAbilityStatusTagFromSpec(r) == StatusUnlocked && StatusAfterSpending(s) == StatusUnlocked &&
      GetInputActivationTagFromSpec(r) == GetInputActivationTagFromSpec(s) && WellFormedSpec(r)
  {
    InputTagsAreNotStatusTags(StatusEligible);
    InputTagsAreNotStatusTags(StatusUnlocked);
    assert !MatchesTag(StatusEligible, InputTag) && !MatchesTag(StatusUnlocked, InputTag);
    ReplaceUnique(s.dynamicAbilityTags, StatusUnlocked, AbilitiesStatus, InputTag);
  }

  /** Spending on an Unlocked or Equipped ability raises its level by one and changes no tag. */
  lemma SpendLevelsUpUnlocked(s: AbilitySpec)
    requires GetAbilityStatusTagFromSpec(s) == StatusUnlocked || GetAbilityStatusTagFromSpec(s) == StatusEquipped
    ensures SpendPointsOnSpec(s) == s.(level := s.level + 1)
    ensures StatusAfterSpending(s) == GetAbilityStatusTagFromSpec(s)
  {
    Tags.StatusTagsDistinct();
  }

  /** Only the ability field decides which spec GetSpecFromAbilityTag finds. */
  lemma SpecSearchIgnoresDynamicState(specs: seq<AbilitySpec>, i: nat, s: AbilitySpec, abilityTag: Tag)
    requires i < |specs| && s.ability == specs[i].ability
    ensures GetSpecFromAbilityTag(specs[i := s], abilityTag) == GetSpecFromAbilityTag(specs, abilityTag)
  {
    var r1 := GetSpecFromAbilityTag(specs[i := s], abilityTag);
    var r2 := GetSpecFromAbilityTag(specs, abilityTag);
    assert forall j :: 0 <= j < |specs| ==> specs[i := s][j].ability == specs[j].ability;
  }

  /**
   * A known ability costs at least one point while its level is at least 1, and each spend on an
   * Eligible, Unlocked or Equipped ability raises the next cost by exactly one.
   */
  lemma SpendRaisesCostByOne(specs: seq<AbilitySpec>, abilityTag: Tag, infos: seq<AriaAbilityInfo>)
    requires GetSpecFromAbilityTag(specs, abilityTag).Some? && HasInfoFor(infos, abilityTag)
    requires var s := specs[GetSpecFromAbilityTag(specs, abilityTag).value];
      WellFormedSpec(s) && s.level >= 1 &&
      GetAbilityStatusTagFromSpec(s) in {StatusEligible, StatusUnlocked, StatusEquipped}
    ensures LevelUpCost(specs, abilityTag, infos) >= 1
    ensures var i := GetSpecFromAbilityTag(specs, abilityTag).value;
      LevelUpCost(specs[i := SpendPointsOnSpec(specs[i])], abilityTag, infos) == LevelUpCost(specs, abilityTag, infos) + 1
  {
    var i := GetSpecFromAbilityTag(specs, abilityTag).value;
    var s := specs[i];
    SpecSearchIgnoresDynamicState(specs, i, SpendPointsOnSpec(s), abilityTag);
    Tags.StatusTagsDistinct();
    if GetAbilityStatusTagFromSpec(s) == StatusEligible {
      SpendUnlocksEligible(s);
    } else {
      SpendLevelsUpUnlocked(s);
    }
  }

  // ---------------------------------------------------------------- equipping

  /** The slot already holds the very ability being equipped. */
  predicate SlotHoldsAbility(specs: seq<AbilitySpec>, abilityTag: Tag, slot: Tag)
  {
    var bound := GetAbilitySpecBoundToSlot(specs, slot);
    bound.Some? && MatchesTagExact(abilityTag, GetAbilityTagFromSpec(specs[bound.value]))
  }

  /** The spec bound to the slot, if any, with its slot cleared (the SlotNotEmpty region). */
  function EvictSlot(specs: seq<AbilitySpec>, slot: Tag): (r: seq<AbilitySpec>)
    ensures |r| == |specs|
  {
    match GetAbilitySpecBoundToSlot(specs, slot)
    case None => specs
    case Some(b) => specs[b := ClearBoundAbilityFromSlot(specs[b])]
  }

  /** What evicting a passive ability from the slot multicasts and broadcasts. */
  function EvictionEvents(specs: seq<AbilitySpec>, slot: Tag, infos: seq<AriaAbilityInfo>): seq<AscEvent>
  {
    match GetAbilitySpecBoundToSlot(specs, slot)
    case None => []
    case Some(b) =>
      if IsPassiveAbility(specs[b], infos) then
        var passiveTag := GetAbilityTagFromSpec(specs[b]);
        [PassiveEffectActivated(passiveTag, false), PassiveAbilityDeactivated(passiveTag)]
      else []
  }

  /** What binding a passive ability that held no slot tries to activate (the SlotIsEmpty region). */
  function ActivationEvents(s: AbilitySpec, i: nat, abilityTag: Tag, infos: seq<AriaAbilityInfo>): seq<AscEvent>
  {
    if !AbilityBoundToAnySlot(s) && IsPassiveAbility(s, infos) then
      [ActivationTried(i), PassiveEffectActivated(abilityTag, true)]
    else []
  }

  /** The specs after a successful equip: the slot's holder is evicted, then spec `i` is bound to the slot. */
  function MoveToSlot(specs: seq<AbilitySpec>, i: nat, slot: Tag): (r: seq<AbilitySpec>)
    requires i < |specs|
    ensures |r| == |specs|
  {
    var cleared := EvictSlot(specs, slot);
    cleared[i := AssignSlotToAbility(cleared[i], slot)]
  }

  /** ServerEquipAbility, as a function of the activatable abilities before the call. */
  function Equip(specs: seq<AbilitySpec>, abilityTag: Tag, slot: Tag, infos: seq<AriaAbilityInfo>): (r: Outcome)
    ensures |r.specs| == |specs|
    ensures GetSpecFromAbilityTag(specs, abilityTag).None? ==> r == Outcome(specs, [])
  {
    match GetSpecFromAbilityTag(specs, abilityTag)
    case None => Outcome(specs, [])
    case Some(i) =>
      var prevSlot := GetInputActivationTagFromSpec(specs[i]);
      var status := GetAbilityStatusTagFromSpec(specs[i]);
      var done := AbilityEquipped(abilityTag, StatusEquipped, slot, prevSlot);
      if !(status == StatusUnlocked || status == StatusEquipped) then Outcome(specs, [done])
      else if SlotHoldsAbility(specs, abilityTag, slot) then Outcome(specs, [done])
      else
        Outcome(MoveToSlot(specs, i, slot),
                EvictionEvents(specs, slot, infos) + ActivationEvents(EvictSlot(specs, slot)[i], i, abilityTag, infos) + [done])
  }

  /** Equip changes no tag unless the ability's status is exactly Unlocked or Equipped. */
  lemma EquipNeedsUsableStatus(specs: seq<AbilitySpec>, abilityTag: Tag, slot: Tag, infos: seq<AriaAbilityInfo>)
    requires GetSpecFromAbilityTag(specs, abilityTag).Some?
    requires var s := specs[GetSpecFromAbilityTag(specs, abilityTag).value];
      GetAbilityStatusTagFromSpec(s) != StatusUnlocked && GetAbilityStatusTagFromSpec(s) != StatusEquipped
    ensures Equip(specs, abilityTag, slot, infos).specs == specs
    ensures Equip(specs, abilityTag, slot, infos).events ==
              [AbilityEquipped(abilityTag, StatusEquipped, slot, GetInputActivationTagFromSpec(specs[GetSpecFromAbilityTag(specs, abilityTag).value]))]
  {
  }

  /** Equipping into the slot that already holds the same ability changes nothing but tells the client. */
  lemma EquipIntoOwnSlotIsNoOp(specs: seq<AbilitySpec>, abilityTag: Tag, slot: Tag, infos: seq<AriaAbilityInfo>)
    requires GetSpecFromAbilityTag(specs, abilityTag).Some? && SlotHoldsAbility(specs, abilityTag, slot)
    ensures Equip(specs, abilityTag, slot, infos).specs == specs
    ensures |Equip(specs, abilityTag, slot, infos).events| == 1
  {
  }

  /**
   * Evicting: afterwards no spec holds the slot, the previous holder has no input tag left,
   * every other spec is unchanged, and the specs stay well formed.
   */
  lemma EvictSlotFreesSlot(specs: seq<AbilitySpec>, slot: Tag)
    requires WellFormed(specs) && MatchesTag(slot, InputTag)
    ensures var r := EvictSlot(specs, slot);
      WellFormed(r) &&
      forall j :: 0 <= j < |specs| ==>
        GetInputActivationTagFromSpec(r[j]) != slot &&
        if GetInputActivationTagFromSpec(specs[j]) == slot
        then GetInputActivationTagFromSpec(r[j]) == EmptyTag && r[j] == ClearBoundAbilityFromSlot(specs[j])
        else r[j] == specs[j]
  {
    forall j | 0 <= j < |specs| ensures AbilityBoundToSlot(specs[j], slot) <==> GetInputActivationTagFromSpec(specs[j]) == slot {
      BoundIffInputTag(specs[j], slot);
    }
    match GetAbilitySpecBoundToSlot(specs, slot)
    case None =>
    case Some(b) =>
      EvictHolderFreesSlot(specs, slot, b);
  }

  /** EvictSlotFreesSlot when spec `b` holds the slot: only `b` changes, and it loses its input tag. */
  lemma EvictHolderFreesSlot(specs: seq<AbilitySpec>, slot: Tag, b: nat)
    requires WellFormed(specs) && MatchesTag(slot, InputTag)
    requires b < |specs| && GetInputActivationTagFromSpec(specs[b]) == slot
    ensures var r := specs[b := ClearBoundAbilityFromSlot(specs[b])];
      WellFormed(r) &&
      forall j :: 0 <= j < |specs| ==>
        GetInputActivationTagFromSpec(r[j]) != slot &&
        if GetInputActivationTagFromSpec(specs[j]) == slot
        then GetInputActivationTagFromSpec(r[j]) == EmptyTag && r[j] == ClearBoundAbilityFromSlot(specs[j])
        else r[j] == specs[j]
  {
    var r := specs[b := ClearBoundAbilityFromSlot(specs[b])];
    InputTagsAreNotStatusTags(slot);
    assert GetInputActivationTagFromSpec(r[b]) == EmptyTag;
    forall j | 0 <= j < |specs|
      ensures GetInputActivationTagFromSpec(r[j]) != slot
      ensures if GetInputActivationTagFromSpec(specs[j]) == slot
        then GetInputActivationTagFromSpec(r[j]) == EmptyTag && r[j] == ClearBoundAbilityFromSlot(specs[j])
        else r[j] == specs[j]
    {
      if j != b {
        assert GetInputActivationTagFromSpec(specs[j]) != slot;
      }
    }
    EvictHolderKeepsSlotsDistinct(specs, r, b);
  }

  lemma EvictHolderKeepsSlotsDistinct(specs: seq<AbilitySpec>, r: seq<AbilitySpec>, b: nat)
    requires SlotsDistinct(specs) && b < |specs| && |r| == |specs|
    requires GetInputActivationTagFromSpec(r[b]) == EmptyTag
    requires forall j :: 0 <= j < |specs| && j != b ==> r[j] == specs[j]
    ensures SlotsDistinct(r)
  {
    forall a, c | 0 <= a < |r| && 0 <= c < |r| && a != c && GetInputActivationTagFromSpec(r[a]) != EmptyTag
      ensures GetInputActivationTagFromSpec(r[a]) != GetInputActivationTagFromSpec(r[c])
    {
      if c != b {
        assert r[a] == specs[a] && r[c] == specs[c];
      }
    }
  }

  /** Binding a spec to a slot nobody holds keeps the specs well formed and changes no other spec. */
  lemma AssignFreeSlot(specs: seq<AbilitySpec>, i: nat, slot: Tag)
    requires WellFormed(specs) && MatchesTag(slot, InputTag) && i < |specs|
    requires forall j :: 0 <= j < |specs| ==> GetInputActivationTagFromSpec(specs[j]) != slot
    ensures var r := specs[i := AssignSlotToAbility(specs[i], slot)];
      WellFormed(r) && GetInputActivationTagFromSpec(r[i]) == slot &&
      GetAbilityStatusTagFromSpec(r[i]) == GetAbilityStatusTagFromSpec(specs[i])
  {
    var r := specs[i := AssignSlotToAbility(specs[i], slot)];
    assert GetInputActivationTagFromSpec(r[i]) == slot;
    forall a, b | 0 <= a < |r| && 0 <= b < |r| && a != b && GetInputActivationTagFromSpec(r[a]) != EmptyTag
      ensures GetInputActivationTagFromSpec(r[a]) != GetInputActivationTagFromSpec(r[b])
    {
      if a != i && b != i {
        assert r[a] == specs[a] && r[b] == specs[b];
      }
    }
  }

  /** In the success case, Equip evicts the slot's holder and then binds the ability to the slot. */
  lemma EquipOnSuccess(specs: seq<AbilitySpec>, abilityTag: Tag, slot: Tag, infos: seq<AriaAbilityInfo>)
    requires GetSpecFromAbilityTag(specs, abilityTag).Some?
    requires var s := specs[GetSpecFromAbilityTag(specs, abilityTag).value];
      GetAbilityStatusTagFromSpec(s) == StatusUnlocked || GetAbilityStatusTagFromSpec(s) == StatusEquipped
    requires !SlotHoldsAbility(specs, abilityTag, slot)
    ensures var i := GetSpecFromAbilityTag(specs, abilityTag).value;
      Equip(specs, abilityTag, slot, infos) ==
        Outcome(MoveToSlot(specs, i, slot),
                EvictionEvents(specs, slot, infos) + ActivationEvents(EvictSlot(specs, slot)[i], i, abilityTag, infos) +
                [AbilityEquipped(abilityTag, StatusEquipped, slot, GetInputActivationTagFromSpec(specs[i]))])
  {
  }

  /** When the status forbids it, or the slot already holds the ability, Equip only tells the client. */
  lemma EquipOnRefusal(specs: seq<AbilitySpec>, abilityTag: Tag, slot: Tag, infos: seq<AriaAbilityInfo>)
    requires GetSpecFromAbilityTag(specs, abilityTag).Some?
    requires var s := specs[GetSpecFromAbilityTag(specs, abilityTag).value];
      !(GetAbilityStatusTagFromSpec(s) == StatusUnlocked || GetAbilityStatusTagFromSpec(s) == StatusEquipped) ||
      SlotHoldsAbility(specs, abilityTag, slot)
    ensures var i := GetSpecFromAbilityTag(specs, abilityTag).value;
      Equip(specs, abilityTag, slot, infos) ==
        Outcome(specs, [AbilityEquipped(abilityTag, StatusEquipped, slot, GetInputActivationTagFromSpec(specs[i]))])
  {
  }

  /** MoveToSlot binds the spec's one input tag to the slot and keeps its status, level and class. */
  lemma MoveToSlotBindsAbility(specs: seq<AbilitySpec>, i: nat, slot: Tag)
    requires WellFormed(specs) && MatchesTag(slot, InputTag) && i < |specs|
    ensures var r := MoveToSlot(specs, i, slot);
      GetInputActivationTagFromSpec(r[i]) == slot &&
      GetAbilityStatusTagFromSpec(r[i]) == GetAbilityStatusTagFromSpec(specs[i]) &&
      r[i].level == specs[i].level && r[i].ability == specs[i].ability
  {
    var cleared := EvictSlot(specs, slot);
    EvictSlotFreesSlot(specs, slot);
    AssignFreeSlot(cleared, i, slot);
    assert GetAbilityStatusTagFromSpec(cleared[i]) == GetAbilityStatusTagFromSpec(specs[i]);
  }

  /** MoveToSlot leaves the slot's previous holder with no input tag and changes no other spec. */
  lemma MoveToSlotEvictsHolder(specs: seq<AbilitySpec>, i: nat, slot: Tag)
    requires WellFormed(specs) && MatchesTag(slot, InputTag) && i < |specs|
    ensures var r := MoveToSlot(specs, i, slot);
      forall j :: 0 <= j < |specs| && j != i ==>
        if GetInputActivationTagFromSpec(specs[j]) == slot
        then GetInputActivationTagFromSpec(r[j]) == EmptyTag && r[j] == ClearBoundAbilityFromSlot(specs[j])
        else r[j] == specs[j]
  {
    EvictSlotFreesSlot(specs, slot);
  }

  /** MoveToSlot keeps the specs well formed: one slot and one status each, no slot shared. */
  lemma MoveToSlotKeepsWellFormed(specs: seq<AbilitySpec>, i: nat, slot: Tag)
    requires WellFormed(specs) && MatchesTag(slot, InputTag) && i < |specs|
    ensures WellFormed(MoveToSlot(specs, i, slot))
  {
    EvictSlotFreesSlot(specs, slot);
    AssignFreeSlot(EvictSlot(specs, slot), i, slot);
  }

  /**
   * A successful equip: the ability ends up in the slot with its status, level and class kept,
   * and the specs stay well formed.
   */
  lemma EquipMovesAbilityIntoSlot(specs: seq<AbilitySpec>, abilityTag: Tag, slot: Tag, infos: seq<AriaAbilityInfo>)
    requires WellFormed(specs) && MatchesTag(slot, InputTag)
    requires GetSpecFromAbilityTag(specs, abilityTag).Some?
    requires var s := specs[GetSpecFromAbilityTag(specs, abilityTag).value];
      GetAbilityStatusTagFromSpec(s) == StatusUnlocked || GetAbilityStatusTagFromSpec(s) == StatusEquipped
    requires !SlotHoldsAbility(specs, abilityTag, slot)
    ensures var i := GetSpecFromAbilityTag(specs, abilityTag).value;
      var r := Equip(specs, abilityTag, slot, infos).specs;
      r == MoveToSlot(specs, i, slot) && WellFormed(r) &&
      GetInputActivationTagFromSpec(r[i]) == slot && GetAbilityStatusTagFromSpec(r[i]) == GetAbilityStatusTagFromSpec(specs[i])
  {
    var i := GetSpecFromAbilityTag(specs, abilityTag).value;
    EquipOnSuccess(specs, abilityTag, slot, infos);
    MoveToSlotBindsAbility(specs, i, slot);
    MoveToSlotKeepsWellFormed(specs, i, slot);
  }

  /**
   * The SlotNotEmpty region of ServerEquipAbility: reports whether the slot already holds the
   * ability; otherwise deactivates a passive holder and clears the holder's input tag.
   */
  method EvictSlotHolder(specs: seq<AbilitySpec>, abilityTag: Tag, slot: Tag, infos: seq<AriaAbilityInfo>)
    returns (cleared: seq<AbilitySpec>, sent: seq<AscEvent>, holdsIt: bool)
    ensures holdsIt == SlotHoldsAbility(specs, abilityTag, slot)
    ensures !holdsIt ==> cleared == EvictSlot(specs, slot) && sent == EvictionEvents(specs, slot, infos)
  {
    cleared, sent, holdsIt := specs, [], false;
    if !SlotIsEmpty(specs, slot) {
      var bound := GetAbilitySpecBoundToSlot(specs, slot);
      if bound.Some? {
        var b := bound.value;
        if MatchesTagExact(abilityTag, GetAbilityTagFromSpec(specs[b])) {
          holdsIt := true;
          return;
        }
        if IsPassiveAbility(specs[b], infos) {
          var passiveTag := GetAbilityTagFromSpec(specs[b]);
          sent := [PassiveEffectActivated(passiveTag, false), PassiveAbilityDeactivated(passiveTag)];
        }
        cleared := specs[b := ClearBoundAbilityFromSlot(specs[b])];
      }
    }
  }

  /**
   * The SlotIsEmpty region and the final binding of ServerEquipAbility: a passive ability that
   * held no slot is activated first, then the spec's input tag becomes the slot.
   */
  method BindToSlot(specs: seq<AbilitySpec>, i: nat, abilityTag: Tag, slot: Tag, infos: seq<AriaAbilityInfo>)
    returns (equipped: seq<AbilitySpec>, sent: seq<AscEvent>)
    requires i < |specs|
    ensures equipped == specs[i := AssignSlotToAbility(specs[i], slot)]
    ensures sent == ActivationEvents(specs[i], i, abilityTag, infos)
  {
    sent := [];
    if !AbilityBoundToAnySlot(specs[i]) {
      if IsPassiveAbility(specs[i], infos) {
        sent := [ActivationTried(i), PassiveEffectActivated(abilityTag, true)];
      }
    }
    equipped := specs[i := AssignSlotToAbility(specs[i], slot)];
  }

  // ---------------------------------------------------------------- the component

  class AriaAbilitySystemComponent {
    /** The activatable abilities, in the order they were given. */
    var specs: seq<AbilitySpec>
    var startupAbilitiesGiven: bool
    /** Delegate broadcasts, client and multicast calls, and gameplay events, oldest first. */
    var events: seq<AscEvent>

    constructor ()
      ensures specs == [] && !startupAbilitiesGiven && events == []
    {
      specs, startupAbilitiesGiven, events := [], false, [];
    }

    /**
     * AddCharacterAbilities: gives every startup class that is an Aria ability at level 1,
     * bound to its startup slot and Equipped; then records that startup abilities were given.
     */
    method AddCharacterAbilities(initialAbilities: seq<AbilityClass>)
      modifies this
      ensures specs == old(specs) + StartupSpecs(initialAbilities)
      ensures startupAbilitiesGiven
      ensures events == old(events) + [AbilitiesGiven]
    {
      var k := 0;
      while k < |initialAbilities|
        invariant 0 <= k <= |initialAbilities|
        invariant specs == old(specs) + StartupSpecs(initialAbilities[..k])
        invariant events == old(events)
      {
        assert initialAbilities[..k + 1][..k] == initialAbilities[..k];
        var abilityClass := initialAbilities[k];
        if abilityClass.isAriaAbility {
          specs := specs + [StartupSpec(abilityClass)];
        }
        k := k + 1;
      }
      assert initialAbilities[..k] == initialAbilities;
      startupAbilitiesGiven := true;
      events := events + [AbilitiesGiven];
    }

    /** The loop UnlockAbilitiesByLevel and UpdateAbilitiesEligibilityByLevel share. */
    method GiveAbilitiesByLevel(level: int, infos: seq<AriaAbilityInfo>, status: Tag)
      modifies this
      ensures specs == GrantByLevel(old(specs), infos, level, status).specs
      ensures events == old(events) + GrantByLevel(old(specs), infos, level, status).events
      ensures startupAbilitiesGiven == old(startupAbilitiesGiven)
    {
      var k := 0;
      while k < |infos|
        invariant 0 <= k <= |infos|
        invariant specs == GrantByLevel(old(specs), infos[..k], level, status).specs
        invariant events == old(events) + GrantByLevel(old(specs), infos[..k], level, status).events
        invariant startupAbilitiesGiven == old(startupAbilitiesGiven)
      {
        assert infos[..k + 1][..k] == infos[..k];
        var info := infos[k];
        k := k + 1;
        if !IsValid(info.abilityTag) { continue; }
        if level < info.levelRequirement { continue; }
        if GetSpecFromAbilityTag(specs, info.abilityTag).None? {
          specs := specs + [AbilitySpec(info.gameplayAbilityClass, 1, AddTag([], status))];
          events := events + [AbilityStatusChanged(info.abilityTag, status, 1)];
        }
      }
      assert infos[..k] == infos;
    }

    /** UnlockAbilitiesByLevel: abilities reached by the level and not yet owned are given Unlocked. */
    method UnlockAbilitiesByLevel(level: int, infos: seq<AriaAbilityInfo>)
      modifies this
      ensures specs == GrantByLevel(old(specs), infos, level, StatusUnlocked).specs
      ensures events == old(events) + GrantByLevel(old(specs), infos, level, StatusUnlocked).events
      ensures startupAbilitiesGiven == old(startupAbilitiesGiven)
    {
      GiveAbilitiesByLevel(level, infos, StatusUnlocked);
    }

    /** UpdateAbilitiesEligibilityByLevel: abilities reached by the level and not yet owned become Eligible. */
    method UpdateAbilitiesEligibilityByLevel(level: int, infos: seq<AriaAbilityInfo>)
      modifies this
      ensures specs == GrantByLevel(old(specs), infos, level, StatusEligible).specs
      ensures events == old(events) + GrantByLevel(old(specs), infos, level, StatusEligible).events
      ensures startupAbilitiesGiven == old(startupAbilitiesGiven)
    {
      GiveAbilitiesByLevel(level, infos, StatusEligible);
    }

    /**
     * GetAbilityLevelUpRequirementCost: 0 without a spec or an exactly matching info entry;
     * otherwise the spec's level when it is Eligible and level + 1 when it is not.
     */
    method GetAbilityLevelUpRequirementCost(abilityTag: Tag, infos: seq<AriaAbilityInfo>) returns (cost: int)
      ensures cost == LevelUpCost(specs, abilityTag, infos)
      ensures GetSpecFromAbilityTag(specs, abilityTag).None? || !HasInfoFor(infos, abilityTag) ==> cost == 0
      ensures GetSpecFromAbilityTag(specs, abilityTag).Some? && HasInfoFor(infos, abilityTag) ==>
                var s := specs[GetSpecFromAbilityTag(specs, abilityTag).value];
                cost == if GetAbilityStatusTagFromSpec(s) == StatusEligible then s.level else s.level + 1
    {
      var found := GetSpecFromAbilityTag(specs, abilityTag);
      if found.Some? {
        var s := specs[found.value];
        var k := 0;
        while k < |infos|
          invariant 0 <= k <= |infos|
          invariant forall j :: 0 <= j < k ==> !MatchesTagExact(infos[j].abilityTag, abilityTag)
        {
          if MatchesTagExact(infos[k].abilityTag, abilityTag) {
            var status := GetAbilityStatusTagFromSpec(s);
            if MatchesTagExact(status, StatusEligible) {
              return s.level;
            } else {
              return s.level + 1;
            }
          }
          k := k + 1;
        }
      }
      return 0;
    }

    /**
     * ServerAbilityPointsSpent: when the avatar has an XP interface and the cost is positive
     * and affordable, deducts exactly the cost, unlocks or levels the ability, and tells the
     * client its status and level; otherwise nothing changes.
     */
    method ServerAbilityPointsSpent(abilityTag: Tag, avatar: AriaPlayerState?, infos: seq<AriaAbilityInfo>)
      modifies this, avatar
      ensures startupAbilitiesGiven == old(startupAbilitiesGiven)
      ensures var found := GetSpecFromAbilityTag(old(specs), abilityTag);
        var cost := LevelUpCost(old(specs), abilityTag, infos);
        if found.Some? && avatar != null && cost > 0 && old(avatar.abilityPoints) >= cost then
          var s := SpendPointsOnSpec(old(specs)[found.value]);
          avatar.abilityPoints == old(avatar.abilityPoints) - cost &&
          avatar.xp == old(avatar.xp) && avatar.level == old(avatar.level) &&
          avatar.attributePoints == old(avatar.attributePoints) &&
          avatar.broadcasts == old(avatar.broadcasts) + [AbilityPointsChanged(avatar.abilityPoints)] &&
          specs == old(specs)[found.value := s] &&
          events == old(events) + [AbilityStatusChanged(abilityTag, StatusAfterSpending(old(specs)[found.value]), s.level)]
        else
          specs == old(specs) && events == old(events) && (avatar != null ==> unchanged(avatar))
    {
      var found := GetSpecFromAbilityTag(specs, abilityTag);
      if found.None? || avatar == null { return; }
      var i := found.value;
      var currentAbilityPoints := avatar.abilityPoints;
      var abilityLevelUpCost := GetAbilityLevelUpRequirementCost(abilityTag, infos);
      if abilityLevelUpCost > 0 && currentAbilityPoints >= abilityLevelUpCost {
        avatar.AddToAbilityPoints(-abilityLevelUpCost);
        var reported := StatusAfterSpending(specs[i]);
        specs := specs[i := SpendPointsOnSpec(specs[i])];
        events := events + [AbilityStatusChanged(abilityTag, reported, specs[i].level)];
      }
    }

    /** ServerEquipAbility; Equip and the lemmas after it say what it does to the specs. */
    method ServerEquipAbility(abilityTag: Tag, slotToEquip: Tag, infos: seq<AriaAbilityInfo>)
      modifies this
      ensures specs == Equip(old(specs), abilityTag, slotToEquip, infos).specs
      ensures events == old(events) + Equip(old(specs), abilityTag, slotToEquip, infos).events
      ensures startupAbilitiesGiven == old(startupAbilitiesGiven)
    {
      var found := GetSpecFromAbilityTag(specs, abilityTag);
      if found.None? { return; }
      var i := found.value;
      var prevSlot := GetInputActivationTagFromSpec(specs[i]);
      var status := GetAbilityStatusTagFromSpec(specs[i]);
      var done := AbilityEquipped(abilityTag, StatusEquipped, slotToEquip, prevSlot);
      if !(status == StatusUnlocked || status == StatusEquipped) {
        EquipOnRefusal(specs, abilityTag, slotToEquip, infos);
        events := events + [done];
        return;
      }
      var cleared, evictions, holdsIt := EvictSlotHolder(specs, abilityTag, slotToEquip, infos);
      if holdsIt {
        EquipOnRefusal(specs, abilityTag, slotToEquip, infos);
        events := events + [done];
        return;
      }
      var equipped, activations := BindToSlot(cleared, i, abilityTag, slotToEquip, infos);
      EquipOnSuccess(specs, abilityTag, slotToEquip, infos);
      specs := equipped;
      events := events + (evictions + activations + [done]);
    }

    /** UpdateAttribute: asks the server to spend a point only when the avatar has one to spend. */
    method UpdateAttribute(attributeTag: Tag, avatar: AriaPlayerState?)
      modifies this, avatar
      ensures specs == old(specs) && startupAbilitiesGiven == old(startupAbilitiesGiven)
      ensures if avatar != null && old(avatar.attributePoints) > 0 then
          events == old(events) + [GameplayEventSent(attributeTag, 1.0)] &&
          avatar.attributePoints == old(avatar.attributePoints) - 1 &&
          avatar.xp == old(avatar.xp) && avatar.level == old(avatar.level) && avatar.abilityPoints == old(avatar.abilityPoints) &&
          avatar.broadcasts == old(avatar.broadcasts) + [AttributePointsChanged(avatar.attributePoints)]
        else
          events == old(events) && (avatar != null ==> unchanged(avatar))
    {
      if avatar != null {
        if avatar.attributePoints > 0 {
          ServerUpdateAttribute(attributeTag, avatar);
        }
      }
    }

    /** ServerUpdateAttribute: sends the attribute's gameplay event with magnitude 1 and spends one point. */
    method ServerUpdateAttribute(attributeTag: Tag, avatar: AriaPlayerState?)
      modifies this, avatar
      ensures specs == old(specs) && startupAbilitiesGiven == old(startupAbilitiesGiven)
      ensures events == old(events) + [GameplayEventSent(attributeTag, 1.0)]
      ensures avatar != null ==>
        avatar.attributePoints == old(avatar.attributePoints) - 1 &&
        avatar.xp == old(avatar.xp) && avatar.level == old(avatar.level) && avatar.abilityPoints == old(avatar.abilityPoints) &&
        avatar.broadcasts == old(avatar.broadcasts) + [AttributePointsChanged(avatar.attributePoints)]
    {
      var amountToSpend := 1.0;
      events := events + [GameplayEventSent(attributeTag, amountToSpend)];
      if avatar != null {
        avatar.AddToAttributePoints(-(amountToSpend.Floor));
      }
    }
  }
}
