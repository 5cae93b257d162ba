/**
 * AAriaCharacterBase: the base of player and enemy characters. The parts modelled here are
 * its reactions to the hit-react, burning and stun tags, its minion bookkeeping, its death
 * flag, and its combat-interface lookups of attack montages and socket locations.
 */
module CharacterBase {
  import opened Tags
  import opened UnrealMath
  import opened CombatInterface
  import opened Wrappers

  /** The flags the tag handlers set, and the movement component's MaxWalkSpeed. */
  datatype StatusFlags = StatusFlags(hitReacting: bool, isBurning: bool, isStunned: bool, maxWalkSpeed: real)

  /** HitReactTagChanged: hit-reacting while the tag is present, and immobile while hit-reacting. */
  function HitReactChanged(s: StatusFlags, baseWalkSpeed: real, newCount: int): StatusFlags
  {
    var hitReacting := newCount > 0;
    s.(hitReacting := hitReacting, maxWalkSpeed := if hitReacting then 0.0 else baseWalkSpeed)
  }

  /** BurningTagChanged: burning while the tag is present; movement is untouched. */
  function BurningChanged(s: StatusFlags, newCount: int): StatusFlags
  {
    s.(isBurning := newCount > 0)
  }

  /** StunTagChanged: stunned while the tag is present, and immobile while stunned. */
  function StunChanged(s: StatusFlags, baseWalkSpeed: real, newCount: int): StatusFlags
  {
    var isStunned := newCount > 0;
    s.(isStunned := isStunned, maxWalkSpeed := if isStunned then 0.0 else baseWalkSpeed)
  }

  /**
   * Each handler sets its flag exactly when the new count is positive, leaves the other flags
   * alone, and (for hit react and stun) sets the walk speed to 0 exactly while its own flag is
   * set and to the base speed otherwise.
   */
  lemma HandlersSetTheirFlag(s: StatusFlags, baseWalkSpeed: real, newCount: int)
    requires baseWalkSpeed != 0.0
    ensures var r := HitReactChanged(s, baseWalkSpeed, newCount);
      && (r.hitReacting <==> newCount > 0)
      && (r.maxWalkSpeed == 0.0 <==> r.hitReacting)
      && (!r.hitReacting ==> r.maxWalkSpeed == baseWalkSpeed)
      && r.isBurning == s.isBurning && r.isStunned == s.isStunned
    ensures var r := StunChanged(s, baseWalkSpeed, newCount);
      && (r.isStunned <==> newCount > 0)
      && (r.maxWalkSpeed == 0.0 <==> r.isStunned)
      && (!r.isStunned ==> r.maxWalkSpeed == baseWalkSpeed)
      && r.hitReacting == s.hitReacting && r.isBurning == s.isBurning
    ensures var r := BurningChanged(s, newCount);
      && (r.isBurning <==> newCount > 0)
      && r.hitReacting == s.hitReacting && r.isStunned == s.isStunned && r.maxWalkSpeed == s.maxWalkSpeed
  {
  }

  /**
   * The walk speed follows whichever of the two handlers ran last: a hit react that ends
   * while the character is stunned gives it back its base speed, and so does a stun that ends
   * during a hit react.
   */
  lemma LastHandlerDecidesWalkSpeed(s: StatusFlags, baseWalkSpeed: real, stunCount: int, hitReactCount: int)
    requires stunCount > 0 && hitReactCount > 0
    ensures var r := HitReactChanged(StunChanged(s, baseWalkSpeed, stunCount), baseWalkSpeed, 0);
      r.isStunned && r.maxWalkSpeed == baseWalkSpeed
    ensures var r := StunChanged(HitReactChanged(s, baseWalkSpeed, hitReactCount), baseWalkSpeed, 0);
      r.hitReacting && r.maxWalkSpeed == baseWalkSpeed
  {
  }

  /** The combat sockets GetCombatSocketLocation can read from. */
  datatype CombatSocket = WeaponTipSocket | RightHandSocket | LeftHandSocket | TailSocket | HeadSocket

  /**
   * The socket GetCombatSocketLocation reads for `socketTag`: the first of weapon (only with
   * a valid weapon), right hand, left hand, tail and head whose tag matches exactly; None for any
   * other tag.
   */
  function CombatSocketFor(socketTag: Tag, weaponValid: bool): (r: Option<CombatSocket>)
    ensures r == Some(WeaponTipSocket) <==> socketTag == CombatSocketWeapon && weaponValid
    ensures r == Some(RightHandSocket) <==> socketTag == CombatSocketRightHand
    ensures r == Some(LeftHandSocket) <==> socketTag == CombatSocketLeftHand
    ensures r == Some(TailSocket) <==> socketTag == CombatSocketTail
    ensures r == Some(HeadSocket) <==> socketTag == CombatSocketHead
  {
    if MatchesTagExact(socketTag, CombatSocketWeapon) && weaponValid then Some(WeaponTipSocket)
    else if MatchesTagExact(socketTag, CombatSocketRightHand) then Some(RightHandSocket)
    else if MatchesTagExact(socketTag, CombatSocketLeftHand) then Some(LeftHandSocket)
    else if MatchesTagExact(socketTag, CombatSocketTail) then Some(TailSocket)
    else if MatchesTagExact(socketTag, CombatSocketHead) then Some(HeadSocket)
    else None
  }

  /**
   * GetCombatSocketLocation: the location of the chosen socket, where `socketLocation` stands
   * for the engine's GetSocketLocation on the weapon or mesh; the zero vector when no socket is
   * chosen.
   */
  function GetCombatSocketLocation(socketTag: Tag, weaponValid: bool, socketLocation: CombatSocket -> Vec): (v: Vec)
    ensures CombatSocketFor(socketTag, weaponValid).None? ==> v == ZeroVector
    ensures CombatSocketFor(socketTag, weaponValid).Some? ==> v == socketLocation(CombatSocketFor(socketTag, weaponValid).value)
  {
    match CombatSocketFor(socketTag, weaponValid)
    case Some(socket) => socketLocation(socket)
    case None => ZeroVector
  }

  /** Without a valid weapon the weapon tag, like an unknown tag, yields the zero vector. */
  lemma WeaponSocketNeedsWeapon(socketLocation: CombatSocket -> Vec)
    ensures GetCombatSocketLocation(CombatSocketWeapon, false, socketLocation) == ZeroVector
    ensures GetCombatSocketLocation(CombatSocketWeapon, true, socketLocation) == socketLocation(WeaponTipSocket)
    ensures GetCombatSocketLocation(EmptyTag, true, socketLocation) == ZeroVector
  {
  }

  /** A montage whose tag equals `tag` (FGameplayTag's ==, not MatchesTagExact). */
  predicate HasMontageTag(m: TaggedAttackMontage, tag: Tag)
  {
    m.attackMontageTag == tag
  }

  /** Events the character broadcasts or hands to the engine. */
  datatype CharacterEvent =
    | WeaponDetached
    | DeathBroadcast
    | DeathImpulseAdded(impulse: Vec)

  class AriaCharacterBase {
    const baseWalkSpeed: real
    const attackMontages: seq<TaggedAttackMontage>
    const weaponValid: bool
    var status: StatusFlags
    var dead: bool
    var minion: bool
    var minionOwningCharacter: AriaCharacterBase?
    var minionCount: int
    var events: seq<CharacterEvent>

    /** A new character: no flags set, not a minion, no minions; `walkSpeed` is the movement component's default. */
    constructor(baseWalkSpeed: real, attackMontages: seq<TaggedAttackMontage>, weaponValid: bool, walkSpeed: real)
      ensures this.baseWalkSpeed == baseWalkSpeed && this.attackMontages == attackMontages && this.weaponValid == weaponValid
      ensures status == StatusFlags(false, false, false, walkSpeed)
      ensures !dead && !minion && minionOwningCharacter == null && minionCount == 0 && events == []
    {
      this.baseWalkSpeed := baseWalkSpeed;
      this.attackMontages := attackMontages;
      this.weaponValid := weaponValid;
      status := StatusFlags(false, false, false, walkSpeed);
      dead := false;
      minion := false;
      minionOwningCharacter := null;
      minionCount := 0;
      events := [];
    }

    method BeginPlay()
      modifies this
      ensures status == old(status).(maxWalkSpeed := baseWalkSpeed)
      ensures dead == old(dead) && minion == old(minion) && minionOwningCharacter == old(minionOwningCharacter)
      ensures minionCount == old(minionCount) && events == old(events)
    {
      status := status.(maxWalkSpeed := baseWalkSpeed);
    }

    method HitReactTagChanged(callbackTag: Tag, newCount: int)
      modifies this
      ensures status == HitReactChanged(old(status), baseWalkSpeed, newCount)
      ensures dead == old(dead) && minion == old(minion) && minionOwningCharacter == old(minionOwningCharacter)
      ensures minionCount == old(minionCount) && events == old(events)
    {
      var hitReacting := newCount > 0;
      status := status.(hitReacting := hitReacting);
      status := status.(maxWalkSpeed := if hitReacting then 0.0 else baseWalkSpeed);
    }

    method BurningTagChanged(callbackTag: Tag, newCount: int)
      modifies this
      ensures status == BurningChanged(old(status), newCount)
      ensures dead == old(dead) && minion == old(minion) && minionOwningCharacter == old(minionOwningCharacter)
      ensures minionCount == old(minionCount) && events == old(events)
    {
      status := status.(isBurning := newCount > 0);
    }

    method StunTagChanged(callbackTag: Tag, newCount: int)
      modifies this
      ensures status == StunChanged(old(status), baseWalkSpeed, newCount)
      ensures dead == old(dead) && minion == old(minion) && minionOwningCharacter == old(minionOwningCharacter)
      ensures minionCount == old(minionCount) && events == old(events)
    {
      var isStunned := newCount > 0;
      status := status.(isStunned := isStunned);
      status := status.(maxWalkSpeed := if isStunned then 0.0 else baseWalkSpeed);
    }

    method SetCharacterAsMinion()
      modifies this
      ensures minion
      ensures status == old(status) && dead == old(dead) && minionOwningCharacter == old(minionOwningCharacter)
      ensures minionCount == old(minionCount) && events == old(events)
    {
      minion := true;
    }

    method SetMinionOwningCharacter(owningCharacter: AriaCharacterBase?)
      modifies this
      ensures minionOwningCharacter == owningCharacter
      ensures status == old(status) && dead == old(dead) && minion == old(minion)
      ensures minionCount == old(minionCount) && events == old(events)
    {
      minionOwningCharacter := owningCharacter;
    }

    function CheckCharacterIsMinion(): bool
      reads this
    {
      minion
    }

    function GetMinionCount(): int
      reads this
    {
      minionCount
    }

    /** IncrementMinionCount: the count grows by exactly `amount`. */
    method IncrementMinionCount(amount: int)
      modifies this
      ensures minionCount == old(minionCount) + amount
      ensures status == old(status) && dead == old(dead) && minion == old(minion)
      ensures minionOwningCharacter == old(minionOwningCharacter) && events == old(events)
    {
      minionCount := minionCount + amount;
    }

    function IsDead(): bool
      reads this
    {
      dead
    }

    /**
     * Die and MulticastHandleDeath: the weapon is detached, the character is marked dead and
     * broadcasts its death, the death impulse is added to its mesh, and a minion with an owner
     * takes one off its owner's minion count.
     */
    method Die(deathImpulse: Vec)
      modifies this, minionOwningCharacter
      ensures IsDead()
      ensures events == old(events) + [WeaponDetached, DeathBroadcast, DeathImpulseAdded(deathImpulse)]
      ensures minionOwningCharacter == old(minionOwningCharacter)
      ensures minion == old(minion) && status == old(status)
      ensures minion && minionOwningCharacter != null ==>
                minionOwningCharacter.minionCount == old(minionOwningCharacter.minionCount) - 1
      ensures minion && minionOwningCharacter != null && minionOwningCharacter != this ==> minionCount == old(minionCount)
      ensures !(minion && minionOwningCharacter != null) ==> minionCount == old(minionCount)
      ensures minionOwningCharacter != null && minionOwningCharacter != this ==>
                && minionOwningCharacter.dead == old(minionOwningCharacter.dead)
                && minionOwningCharacter.events == old(minionOwningCharacter.events)
                && minionOwningCharacter.status == old(minionOwningCharacter.status)
                && minionOwningCharacter.minion == old(minionOwningCharacter.minion)
                && minionOwningCharacter.minionOwningCharacter == old(minionOwningCharacter.minionOwningCharacter)
    {
      events := events + [WeaponDetached];
      MulticastHandleDeath(deathImpulse);
    }

    method MulticastHandleDeath(deathImpulse: Vec)
      modifies this, minionOwningCharacter
      ensures IsDead()
      ensures events == old(events) + [DeathBroadcast, DeathImpulseAdded(deathImpulse)]
      ensures minionOwningCharacter == old(minionOwningCharacter)
      ensures minion == old(minion) && status == old(status)
      ensures minion && minionOwningCharacter != null ==>
                minionOwningCharacter.minionCount == old(minionOwningCharacter.minionCount) - 1
      ensures minion && minionOwningCharacter != null && minionOwningCharacter != this ==> minionCount == old(minionCount)
      ensures !(minion && minionOwningCharacter != null) ==> minionCount == old(minionCount)
      ensures minionOwningCharacter != null && minionOwningCharacter != this ==>
                && minionOwningCharacter.dead == old(minionOwningCharacter.dead)
                && minionOwningCharacter.events == old(minionOwningCharacter.events)
                && minionOwningCharacter.status == old(minionOwningCharacter.status)
                && minionOwningCharacter.minion == old(minionOwningCharacter.minion)
                && minionOwningCharacter.minionOwningCharacter == old(minionOwningCharacter.minionOwningCharacter)
    {
      dead := true;
      events := events + [DeathBroadcast, DeathImpulseAdded(deathImpulse)];
      if minion && minionOwningCharacter != null {
        minionOwningCharacter.minionCount := minionOwningCharacter.minionCount - 1;
      }
    }

    /**
     * GetTaggedAttackMontageByTag: the first attack montage whose tag equals `attackMontageTag`,
     * or a default montage when none does.
     */
    method GetTaggedAttackMontageByTag(attackMontageTag: Tag) returns (m: TaggedAttackMontage)
      ensures (forall i :: 0 <= i < |attackMontages| ==> !HasMontageTag(attackMontages[i], attackMontageTag))
              ==> m == DefaultTaggedAttackMontage
      ensures forall i :: 0 <= i < |attackMontages| && HasMontageTag(attackMontages[i], attackMontageTag) ==>
                (exists j :: 0 <= j <= i && m == attackMontages[j] && HasMontageTag(attackMontages[j], attackMontageTag)
                   && (forall k :: 0 <= k < j ==> !HasMontageTag(attackMontages[k], attackMontageTag)))
    {
      for i := 0 to |attackMontages|
        invariant forall k :: 0 <= k < i ==> !HasMontageTag(attackMontages[k], attackMontageTag)
      {
        var attackMontage := attackMontages[i];
        if attackMontage.attackMontageTag == attackMontageTag {
          return attackMontage;
        }
      }
      return DefaultTaggedAttackMontage;
    }
  }
}
