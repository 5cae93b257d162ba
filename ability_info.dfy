/** UAbilityInfo: the data asset describing every ability the game knows about. */
module AbilityInfo {
  import opened Tags

  /**
   * A gameplay-ability class, reduced to the static tags its default object carries, its
   * startup slot, and whether it derives from UAriaGameplayAbility.
   */
  datatype AbilityClass = AbilityClass(id: nat, abilityTags: seq<Tag>, startupInputTag: Tag, isAriaAbility: bool)

  /** FAriaAbilityInfo (UI materials and icons are not modelled). */
  datatype AriaAbilityInfo = AriaAbilityInfo(
    abilityTag: Tag,
    abilityType: Tag,
    abilityStatus: Tag,
    levelRequirement: int,
    itemRequirement: int,
    inputActivationTag: Tag,
    cooldownTag: Tag,
    gameplayAbilityClass: AbilityClass)

  /** A default-constructed FAriaAbilityInfo: empty tags, level requirement 1, item requirement 0. */
  const DefaultAbilityInfo := AriaAbilityInfo(EmptyTag, EmptyTag, EmptyTag, 1, 0, EmptyTag, EmptyTag, AbilityClass(0, [], EmptyTag, false))

  /**
   * FindAbilityInfoForTag: the first entry whose AbilityTag equals the query (plain tag
   * equality), or the default entry when there is none.
   */
  function FindAbilityInfoForTag(infos: seq<AriaAbilityInfo>, abilityTag: Tag): (r: AriaAbilityInfo)
    ensures (exists i :: 0 <= i < |infos| && infos[i].abilityTag == abilityTag) ==>
              exists i :: 0 <= i < |infos| && infos[i] == r && r.abilityTag == abilityTag &&
                forall j :: 0 <= j < i ==> infos[j].abilityTag != abilityTag
    ensures (forall i :: 0 <= i < |infos| ==> infos[i].abilityTag != abilityTag) ==> r == DefaultAbilityInfo
  {
    if |infos| == 0 then DefaultAbilityInfo
    else if infos[0].abilityTag == abilityTag then infos[0]
    else
      var r := FindAbilityInfoForTag(infos[1..], abilityTag);
      assert forall i :: 1 <= i < |infos| ==> infos[i] == infos[1..][i - 1];
      r
  }

  /** Entries after the first match never influence the answer. */
  lemma {:induction false} FindAbilityInfoIgnoresSuffix(infos: seq<AriaAbilityInfo>, rest: seq<AriaAbilityInfo>, abilityTag: Tag)
    requires exists i :: 0 <= i < |infos| && infos[i].abilityTag == abilityTag
    ensures FindAbilityInfoForTag(infos + rest, abilityTag) == FindAbilityInfoForTag(infos, abilityTag)
  {
    if infos[0].abilityTag != abilityTag {
      assert (infos + rest)[1..] == infos[1..] + rest;
      var i :| 0 <= i < |infos| && infos[i].abilityTag == abilityTag;
      assert infos[1..][i - 1].abilityTag == abilityTag;
      FindAbilityInfoIgnoresSuffix(infos[1..], rest, abilityTag);
    }
  }
}
