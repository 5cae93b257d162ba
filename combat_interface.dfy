/** FTaggedAttackMontage from the combat interface; asset pointers are ids with 0 for null. */
module CombatInterface {
  import opened Tags

  datatype TaggedAttackMontage = TaggedAttackMontage(
    attackMontage: nat,
    attackMontageTag: Tag,
    attackSocketTag: Tag,
    attackMontageImpactVFX: nat,
    attackMontageImpactSFX: nat)

  /** A default-constructed FTaggedAttackMontage: null assets, empty tags. */
  const DefaultTaggedAttackMontage := TaggedAttackMontage(0, EmptyTag, EmptyTag, 0, 0)
}
