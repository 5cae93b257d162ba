/**
 * Gameplay tags. A tag is a dotted path such as Abilities.Status.Locked; the empty path
 * is the invalid (default-constructed) tag.
 */
module Tags {
  datatype Tag = Tag(parts: seq<string>)

  /** A default-constructed FGameplayTag. */
  const EmptyTag := Tag([])

  predicate IsValid(t: Tag) { |t.parts| > 0 }

  /** FGameplayTag::MatchesTag: `t` is `other` or one of its descendants. */
  predicate MatchesTag(t: Tag, other: Tag)
  {
    IsValid(other) && |other.parts| <= |t.parts| && t.parts[..|other.parts|] == other.parts
  }

  /** FGameplayTag::MatchesTagExact: the same valid tag. */
  predicate MatchesTagExact(t: Tag, other: Tag)
  {
    IsValid(other) && t == other
  }

  /** FGameplayTagContainer::HasTagExact. */
  predicate HasTagExact(container: seq<Tag>, t: Tag)
  {
    exists i :: 0 <= i < |container| && MatchesTagExact(container[i], t)
  }

  /** FGameplayTagContainer::HasTag: some member is `t` or a descendant of it. */
  predicate HasTag(container: seq<Tag>, t: Tag)
  {
    exists i :: 0 <= i < |container| && MatchesTag(container[i], t)
  }

  lemma ExactImpliesMatches(t: Tag, other: Tag)
    requires MatchesTagExact(t, other)
    ensures MatchesTag(t, other)
  {
    assert t.parts[..|other.parts|] == t.parts;
  }

  /** Tag matching is transitive: a descendant of a descendant is a descendant. */
  lemma MatchesTagTransitive(a: Tag, b: Tag, c: Tag)
    requires MatchesTag(a, b) && MatchesTag(b, c)
    ensures MatchesTag(a, c)
  {
    assert a.parts[..|c.parts|] == a.parts[..|b.parts|][..|c.parts|];
  }

  /** The invalid tag matches nothing. */
  lemma EmptyMatchesNothing(other: Tag)
    ensures !MatchesTag(EmptyTag, other) && !MatchesTagExact(EmptyTag, other)
  {
  }

  /** FGameplayTagContainer::AddTag: an invalid tag, or one already present, is ignored. */
  function AddTag(c: seq<Tag>, t: Tag): (r: seq<Tag>)
    ensures IsValid(t) ==> t in r
    ensures forall x :: x in r <==> x in c || (x == t && IsValid(t))
    ensures t in c || !IsValid(t) ==> r == c
  {
    if IsValid(t) && t !in c then c + [t] else c
  }

  /** FGameplayTagContainer::RemoveTag: drops the first occurrence of `t`, if any. */
  function RemoveTag(c: seq<Tag>, t: Tag): (r: seq<Tag>)
    ensures t !in c ==> r == c
    ensures t in c ==> |r| == |c| - 1
  {
    if |c| == 0 then c
    else if c[0] == t then c[1..]
    else
      assert t in c <==> t in c[1..] by { assert c == [c[0]] + c[1..]; }
      [c[0]] + RemoveTag(c[1..], t)
  }

  /** RemoveTag takes exactly one copy of `t` out of the container, and nothing else. */
  lemma {:induction false} RemoveTagMultiset(c: seq<Tag>, t: Tag)
    ensures multiset(RemoveTag(c, t)) == multiset(c) - multiset{t}
  {
    if |c| > 0 {
      assert c == [c[0]] + c[1..];
      if c[0] != t {
        RemoveTagMultiset(c[1..], t);
      }
    }
  }

  /** The first member of `c` that is `parent` or lies under it; the empty tag if none does. */
  function FirstMatching(c: seq<Tag>, parent: Tag): (r: Tag)
    ensures r == EmptyTag <==> forall i :: 0 <= i < |c| ==> !MatchesTag(c[i], parent)
    ensures r != EmptyTag ==>
              exists i :: 0 <= i < |c| && c[i] == r && MatchesTag(r, parent) &&
                forall j :: 0 <= j < i ==> !MatchesTag(c[j], parent)
  {
    if |c| == 0 then EmptyTag
    else if MatchesTag(c[0], parent) then c[0]
    else
      assert forall i :: 1 <= i < |c| ==> c[i] == c[1..][i - 1];
      FirstMatching(c[1..], parent)
  }

  /** How many members of `c` lie under `parent`. */
  function CountUnder(c: seq<Tag>, parent: Tag): nat
  {
    if |c| == 0 then 0 else (if MatchesTag(c[0], parent) then 1 else 0) + CountUnder(c[1..], parent)
  }

  /** At most one member of `c` lies under `parent` (one input slot, one status per ability). */
  predicate AtMostOneUnder(c: seq<Tag>, parent: Tag) { CountUnder(c, parent) <= 1 }

  lemma {:induction false} CountUnderZero(c: seq<Tag>, parent: Tag)
    ensures CountUnder(c, parent) == 0 <==> forall i :: 0 <= i < |c| ==> !MatchesTag(c[i], parent)
  {
    if |c| > 0 {
      CountUnderZero(c[1..], parent);
      assert forall i :: 1 <= i < |c| ==> c[i] == c[1..][i - 1];
    }
  }

  lemma {:induction false} CountUnderAppend(c: seq<Tag>, t: Tag, parent: Tag)
    ensures CountUnder(c + [t], parent) == CountUnder(c, parent) + (if MatchesTag(t, parent) then 1 else 0)
  {
    if |c| > 0 {
      assert (c + [t])[1..] == c[1..] + [t];
      CountUnderAppend(c[1..], t, parent);
    }
  }

  lemma {:induction false} CountUnderRemove(c: seq<Tag>, x: Tag, parent: Tag)
    ensures CountUnder(RemoveTag(c, x), parent) == CountUnder(c, parent) - (if x in c && MatchesTag(x, parent) then 1 else 0)
  {
    if x in c {
      CountUnderRemovePresent(c, x, parent);
    }
  }

  lemma {:induction false} CountUnderRemovePresent(c: seq<Tag>, x: Tag, parent: Tag)
    requires x in c
    ensures CountUnder(RemoveTag(c, x), parent) == CountUnder(c, parent) - (if MatchesTag(x, parent) then 1 else 0)
  {
    if c[0] != x {
      var rest := RemoveTag(c[1..], x);
      assert x in c[1..] by { assert c == [c[0]] + c[1..]; }
      CountUnderRemovePresent(c[1..], x, parent);
      assert ([c[0]] + rest)[1..] == rest;
    }
  }

  /** When at most one member lies under `parent`, that member is the one FirstMatching finds. */
  lemma {:induction false} FirstMatchingIsOnly(c: seq<Tag>, parent: Tag, x: Tag)
    requires AtMostOneUnder(c, parent) && x in c && MatchesTag(x, parent)
    ensures FirstMatching(c, parent) == x
  {
    if c[0] != x {
      assert x in c[1..] by { assert c == [c[0]] + c[1..]; }
      if MatchesTag(c[0], parent) {
        CountUnderZero(c[1..], parent);
        assert false;
      }
      FirstMatchingIsOnly(c[1..], parent, x);
    }
  }

  /** Removing a tag that is not under `parent` does not change what FirstMatching finds. */
  lemma {:induction false} FirstMatchingRemoveOther(c: seq<Tag>, x: Tag, parent: Tag)
    requires !MatchesTag(x, parent)
    ensures FirstMatching(RemoveTag(c, x), parent) == FirstMatching(c, parent)
  {
    if |c| > 0 && c[0] != x {
      FirstMatchingRemoveOther(c[1..], x, parent);
      assert ([c[0]] + RemoveTag(c[1..], x))[1..] == RemoveTag(c[1..], x);
    }
  }

  /** Appending changes FirstMatching only when nothing matched before and the new tag does. */
  lemma {:induction false} FirstMatchingAppend(c: seq<Tag>, t: Tag, parent: Tag)
    ensures FirstMatching(c, parent) != EmptyTag ==> FirstMatching(c + [t], parent) == FirstMatching(c, parent)
    ensures FirstMatching(c, parent) == EmptyTag ==>
              FirstMatching(c + [t], parent) == if MatchesTag(t, parent) then t else EmptyTag
  {
    if |c| > 0 {
      assert (c + [t])[1..] == c[1..] + [t];
      FirstMatchingAppend(c[1..], t, parent);
    }
  }

  /** Removing the one tag under `parent` leaves none under it, and keeps every other tag. */
  lemma RemoveOnlyMatching(c: seq<Tag>, parent: Tag)
    requires AtMostOneUnder(c, parent)
    ensures CountUnder(RemoveTag(c, FirstMatching(c, parent)), parent) == 0
    ensures forall x :: x != FirstMatching(c, parent) ==> (x in RemoveTag(c, FirstMatching(c, parent)) <==> x in c)
  {
    var f := FirstMatching(c, parent);
    CountUnderRemove(c, f, parent);
    CountUnderZero(c, parent);
    RemoveTagMultiset(c, f);
    forall x | x != f ensures x in RemoveTag(c, f) <==> x in c {
      assert x in multiset(RemoveTag(c, f)) <==> x in multiset(c);
    }
  }

  /**
   * Replacing the one tag under `p` (remove it, then add `t`, also under `p`) leaves `t` as the
   * only tag under `p`, and changes nothing that lies under a disjoint parent `q`.
   */
  lemma ReplaceUnique(c: seq<Tag>, t: Tag, p: Tag, q: Tag)
    requires AtMostOneUnder(c, p) && MatchesTag(t, p)
    requires !MatchesTag(FirstMatching(c, p), q) && !MatchesTag(t, q)
    ensures var r := AddTag(RemoveTag(c, FirstMatching(c, p)), t);
      FirstMatching(r, p) == t && CountUnder(r, p) == 1 &&
      FirstMatching(r, q) == FirstMatching(c, q) && CountUnder(r, q) == CountUnder(c, q)
  {
    var f := FirstMatching(c, p);
    var removed := RemoveTag(c, f);
    RemoveOnlyMatching(c, p);
    FirstMatchingRemoveOther(c, f, q);
    CountUnderRemove(c, f, q);
    CountUnderZero(removed, p);
    assert t !in removed;
    assert AddTag(removed, t) == removed + [t];
    FirstMatchingAppend(removed, t, p);
    FirstMatchingAppend(removed, t, q);
    CountUnderAppend(removed, t, p);
    CountUnderAppend(removed, t, q);
  }

  // Tags registered by the game (Source/Aria/Private/AriaGameplayTags.cpp).
  const Abilities := Tag(["Abilities"])
  const AbilitiesNone := Tag(["Abilities", "None"])
  const AbilitiesType := Tag(["Abilities", "Type"])
  const TypeOffensive := Tag(["Abilities", "Type", "Offensive"])
  const TypePassive := Tag(["Abilities", "Type", "Passive"])
  const AbilitiesStatus := Tag(["Abilities", "Status"])
  const StatusLocked := Tag(["Abilities", "Status", "Locked"])
  const StatusEligible := Tag(["Abilities", "Status", "Eligible"])
  const StatusUnlocked := Tag(["Abilities", "Status", "Unlocked"])
  const StatusEquipped := Tag(["Abilities", "Status", "Equipped"])
  const InputTag := Tag(["InputTag"])

  const DamagePhysical := Tag(["DamageType", "Physical"])
  const DamageArcane := Tag(["DamageType", "Arcane"])
  const DamageFire := Tag(["DamageType", "Fire"])
  const DamageLightning := Tag(["DamageType", "Lightning"])
  const ResistancePhysical := Tag(["Attributes", "Resistance", "Physical"])
  const ResistanceArcane := Tag(["Attributes", "Resistance", "Arcane"])
  const ResistanceFire := Tag(["Attributes", "Resistance", "Fire"])
  const ResistanceLightning := Tag(["Attributes", "Resistance", "Lightning"])
  const ResistanceStun := Tag(["Attributes", "Resistance", "Stun"])
  const ResistanceBurning := Tag(["Attributes", "Resistance", "Burning"])
  const StatusEffectStun := Tag(["StatusEffect", "Negative", "Stun"])
  const StatusEffectBurning := Tag(["StatusEffect", "Negative", "Burning"])
  const StatusEffectChance := Tag(["StatusEffect", "Chance"])
  const StatusEffectDuration := Tag(["StatusEffect", "Duration"])
  const StatusEffectFrequency := Tag(["StatusEffect", "Frequency"])
  const StatusEffectDamage := Tag(["StatusEffect", "Damage"])
  const SecondaryArmorPenetration := Tag(["Attributes", "Secondary", "ArmorPenetration"])
  const SecondaryCriticalHitChance := Tag(["Attributes", "Secondary", "CriticalHitChance"])
  const SecondaryCriticalHitDamage := Tag(["Attributes", "Secondary", "CriticalHitDamage"])
  const SecondaryDefense := Tag(["Attributes", "Secondary", "Defense"])
  const SecondaryDodgeChance := Tag(["Attributes", "Secondary", "DodgeChance"])
  const SecondaryBlockChance := Tag(["Attributes", "Secondary", "BlockChance"])
  const SecondaryCriticalHitResistance := Tag(["Attributes", "Secondary", "CriticalHitResistance"])

  const CombatSocketWeapon := Tag(["CombatSocket", "Weapon"])
  const CombatSocketRightHand := Tag(["CombatSocket", "RightHand"])
  const CombatSocketLeftHand := Tag(["CombatSocket", "LeftHand"])
  const CombatSocketTail := Tag(["CombatSocket", "Tail"])
  const CombatSocketHead := Tag(["CombatSocket", "Head"])

  /** The four status tags are distinct, valid, and all lie under Abilities.Status. */
  lemma StatusTagsDistinct()
    ensures StatusLocked != StatusEligible && StatusLocked != StatusUnlocked && StatusLocked != StatusEquipped
    ensures StatusEligible != StatusUnlocked && StatusEligible != StatusEquipped && StatusUnlocked != StatusEquipped
    ensures MatchesTag(StatusLocked, AbilitiesStatus) && MatchesTag(StatusEquipped, AbilitiesStatus)
  {
  }
}
