/**
 * UExecCalc_Damage: the custom execution of the damage effect. It sums the per-type damage
 * of the spec after the target's resistances, then settles dodge, block, defence and
 * critical hit, records the outcome in the effect context, and emits one IncomingDamage
 * modifier. Before that it rolls the status effect the context names. Dice rolls are
 * parameters; the coefficient curves are functions of the character level.
 */
module ExecCalcDamage {
  import opened Wrappers
  import opened UnrealMath
  import opened Tags
  import opened AriaEffectContext
  import opened AbilitySystemLibrary

  /** The attribute capture definitions of FAriaDamageStatics that the execution reads. */
  datatype CaptureDef =
    | ArmorPenetrationDef | CriticalHitChanceDef | CriticalHitDamageDef
    | DefenseDef | DodgeChanceDef | BlockChanceDef | CriticalHitResistanceDef
    | ResistancePhysicalDef | ResistanceArcaneDef | ResistanceFireDef | ResistanceLightningDef
    | StatusResistStunDef | StatusResistBurningDef

  /** FAriaGameplayTags::DamageTypesToResistances, in insertion order. */
  const DamageTypesToResistances: seq<(Tag, Tag)> := [
    (DamagePhysical, ResistancePhysical), (DamageArcane, ResistanceArcane),
    (DamageFire, ResistanceFire), (DamageLightning, ResistanceLightning)]

  /** FAriaGameplayTags::StatusEffectsToResistances, in insertion order. */
  const StatusEffectsToResistances: seq<(Tag, Tag)> := [
    (StatusEffectStun, ResistanceStun), (StatusEffectBurning, ResistanceBurning)]

  /** The TagsToCaptureDefs map Execute_Implementation builds. */
  const TagsToCaptureDefs: map<Tag, CaptureDef> := map[
    SecondaryArmorPenetration := ArmorPenetrationDef,
    SecondaryCriticalHitChance := CriticalHitChanceDef,
    SecondaryCriticalHitDamage := CriticalHitDamageDef,
    SecondaryDefense := DefenseDef,
    SecondaryDodgeChance := DodgeChanceDef,
    SecondaryBlockChance := BlockChanceDef,
    SecondaryCriticalHitResistance := CriticalHitResistanceDef,
    ResistancePhysical := ResistancePhysicalDef,
    ResistanceArcane := ResistanceArcaneDef,
    ResistanceFire := ResistanceFireDef,
    ResistanceLightning := ResistanceLightningDef,
    ResistanceStun := StatusResistStunDef,
    ResistanceBurning := StatusResistBurningDef]

  /** The `checkf`s: every resistance tag of both relationship maps has a capture definition. */
  predicate ResistancesCaptured(defs: map<Tag, CaptureDef>)
  {
    && (forall i :: 0 <= i < |DamageTypesToResistances| ==> DamageTypesToResistances[i].1 in defs)
    && (forall i :: 0 <= i < |StatusEffectsToResistances| ==> StatusEffectsToResistances[i].1 in defs)
  }

  /** The map Execute_Implementation builds satisfies every `checkf` of the execution. */
  lemma CaptureDefsCoverResistances()
    ensures ResistancesCaptured(TagsToCaptureDefs)
  {
    assert DamageTypesToResistances[0].1 == ResistancePhysical;
    assert DamageTypesToResistances[1].1 == ResistanceArcane;
    assert DamageTypesToResistances[2].1 == ResistanceFire;
    assert DamageTypesToResistances[3].1 == ResistanceLightning;
    assert StatusEffectsToResistances[0].1 == ResistanceStun;
    assert StatusEffectsToResistances[1].1 == ResistanceBurning;
  }

  /**
   * What the execution reads from the outside: the spec's SetByCaller magnitudes and the
   * magnitudes of the captured attributes (an attribute that cannot be captured reads as 0).
   */
  datatype ExecutionParams = ExecutionParams(setByCaller: map<Tag, real>, captured: map<CaptureDef, real>)

  /** The class-info coefficient curves, each evaluated at a character level. */
  datatype CoefficientCurves = CoefficientCurves(
    armorPenetration: int -> real,
    effectiveDefense: int -> real,
    criticalHitResistance: int -> real)

  /** The three FMath::RandRange(1, 100) rolls of ApplyDamage, in the order they are drawn. */
  datatype Rolls = Rolls(dodge: int, block: int, critical: int)

  /** GetSetByCallerMagnitude(tag, false, default). */
  function SetByCallerMagnitude(p: ExecutionParams, tag: Tag, default: real): (r: real)
    ensures tag in p.setByCaller ==> r == p.setByCaller[tag]
    ensures tag !in p.setByCaller ==> r == default
  {
    if tag in p.setByCaller then p.setByCaller[tag] else default
  }

  /** AttemptCalculateCapturedAttributeMagnitude into a local initialised to 0. */
  function CapturedMagnitude(p: ExecutionParams, def: CaptureDef): (r: real)
    ensures def in p.captured ==> r == p.captured[def]
    ensures def !in p.captured ==> r == 0.0
  {
    if def in p.captured then p.captured[def] else 0.0
  }

  // ---------------------------------------------------------------------------------------
  // Per-type damage after resistance
  // ---------------------------------------------------------------------------------------

  /** A damage value after a resistance clamped to [0, 100] takes off that many percent. */
  function Resisted(value: real, resistance: real): (r: real)
    ensures 0.0 <= value ==> 0.0 <= r <= value
    ensures resistance <= 0.0 ==> r == value
    ensures resistance >= 100.0 ==> r == 0.0
  {
    var kept := (100.0 - ClampR(resistance, 0.0, 100.0)) / 100.0;
    assert 0.0 <= kept <= 1.0;
    MulBetween(value, kept);
    value * kept
  }

  lemma MulBetween(v: real, k: real)
    requires 0.0 <= k <= 1.0
    ensures 0.0 <= v ==> 0.0 <= v * k <= v
  {
    if 0.0 <= v {
      assert v * k <= v * 1.0;
    }
  }

  /** The raw SetByCaller damage of damage type i. */
  function TypeValue(p: ExecutionParams, i: nat): real
    requires i < |DamageTypesToResistances|
  {
    SetByCallerMagnitude(p, DamageTypesToResistances[i].0, 0.0)
  }

  /** The damage of type i after the target's matching resistance. */
  function TypeDamage(p: ExecutionParams, defs: map<Tag, CaptureDef>, i: nat): real
    requires ResistancesCaptured(defs)
    requires i < |DamageTypesToResistances|
  {
    Resisted(TypeValue(p, i), CapturedMagnitude(p, defs[DamageTypesToResistances[i].1]))
  }

  /** The sum of the first n types' resisted damage. */
  function DamageUpTo(p: ExecutionParams, defs: map<Tag, CaptureDef>, n: nat): real
    requires ResistancesCaptured(defs)
    requires n <= |DamageTypesToResistances|
  {
    if n == 0 then 0.0 else DamageUpTo(p, defs, n - 1) + TypeDamage(p, defs, n - 1)
  }

  /** The sum of the first n types' raw damage. */
  function ValueUpTo(p: ExecutionParams, n: nat): real
    requires n <= |DamageTypesToResistances|
  {
    if n == 0 then 0.0 else ValueUpTo(p, n - 1) + TypeValue(p, n - 1)
  }

  /** The damage before dodge, block, defence and critical hit. */
  function BaseDamage(p: ExecutionParams, defs: map<Tag, CaptureDef>): real
    requires ResistancesCaptured(defs)
  {
    DamageUpTo(p, defs, |DamageTypesToResistances|)
  }

  lemma {:induction false} DamageUpToBounds(p: ExecutionParams, defs: map<Tag, CaptureDef>, n: nat)
    requires ResistancesCaptured(defs)
    requires n <= |DamageTypesToResistances|
    requires forall i :: 0 <= i < n ==> TypeValue(p, i) >= 0.0
    ensures 0.0 <= DamageUpTo(p, defs, n) <= ValueUpTo(p, n)
  {
    if n > 0 {
      DamageUpToBounds(p, defs, n - 1);
      assert TypeValue(p, n - 1) >= 0.0;
    }
  }

  /**
   * With non-negative damage values, resistances never turn damage into healing and never
   * add damage: the base damage lies between 0 and the sum of the raw values.
   */
  lemma BaseDamageBounds(p: ExecutionParams, defs: map<Tag, CaptureDef>)
    requires ResistancesCaptured(defs)
    requires forall i :: 0 <= i < |DamageTypesToResistances| ==> TypeValue(p, i) >= 0.0
    ensures 0.0 <= BaseDamage(p, defs) <= ValueUpTo(p, |DamageTypesToResistances|)
  {
    DamageUpToBounds(p, defs, |DamageTypesToResistances|);
  }

  // ---------------------------------------------------------------------------------------
  // Dodge, block, defence and critical hit
  // ---------------------------------------------------------------------------------------

  /** How a hit was settled; a regular hit records whether it was critical. */
  datatype HitOutcome = Dodged | Blocked | Regular(critical: bool)

  function TargetDodgeChance(p: ExecutionParams): (r: real)
    ensures r >= 0.0
  {
    MaxR(CapturedMagnitude(p, DodgeChanceDef), 0.0)
  }

  /** The block chance as ApplyDamage computes it: the captured block chance is overwritten with the dodge chance. */
  function BlockChanceAsWritten(p: ExecutionParams): (r: real)
    ensures r == TargetDodgeChance(p)
  {
    var captured := CapturedMagnitude(p, BlockChanceDef);
    var blockChance := MaxR(TargetDodgeChance(p), 0.0);
    blockChance
  }

  /** The block chance evidently intended: the captured block chance, at least 0. */
  function BlockChanceIntended(p: ExecutionParams): (r: real)
    ensures r >= 0.0
    ensures CapturedMagnitude(p, BlockChanceDef) >= 0.0 ==> r == CapturedMagnitude(p, BlockChanceDef)
  {
    MaxR(CapturedMagnitude(p, BlockChanceDef), 0.0)
  }

  /** The attacker's critical-hit chance less the target's resistance to it. */
  function EffectiveCriticalHitChance(p: ExecutionParams, curves: CoefficientCurves, targetLevel: int): real
  {
    MaxR(CapturedMagnitude(p, CriticalHitChanceDef), 0.0)
      - MaxR(CapturedMagnitude(p, CriticalHitResistanceDef), 0.0) * curves.criticalHitResistance(targetLevel)
  }

  /** The outcome for a given block chance: dodge first, then block, then a critical-hit roll. */
  function Outcome(p: ExecutionParams, curves: CoefficientCurves, targetLevel: int, rolls: Rolls, blockChance: real): (o: HitOutcome)
    ensures o == Dodged <==> (rolls.dodge as real) < TargetDodgeChance(p)
    ensures o == Blocked <==> !((rolls.dodge as real) < TargetDodgeChance(p)) && (rolls.block as real) < blockChance
    ensures o.Regular? ==> (o.critical <==> (rolls.critical as real) < EffectiveCriticalHitChance(p, curves, targetLevel))
  {
    if (rolls.dodge as real) < TargetDodgeChance(p) then Dodged
    else if (rolls.block as real) < blockChance then Blocked
    else Regular((rolls.critical as real) < EffectiveCriticalHitChance(p, curves, targetLevel))
  }

  /** The outcome ApplyDamage settles on, with the block test as written. */
  function OutcomeAsWritten(p: ExecutionParams, curves: CoefficientCurves, targetLevel: int, rolls: Rolls): HitOutcome
  {
    Outcome(p, curves, targetLevel, rolls, BlockChanceAsWritten(p))
  }

  /** The outcome with the block test against the target's own block chance. */
  function OutcomeIntended(p: ExecutionParams, curves: CoefficientCurves, targetLevel: int, rolls: Rolls): HitOutcome
  {
    Outcome(p, curves, targetLevel, rolls, BlockChanceIntended(p))
  }

  /** The target's defence left once the attacker's armour penetration has taken its percentage. */
  function EffectiveDefense(p: ExecutionParams, curves: CoefficientCurves, sourceLevel: int): real
  {
    MaxR(CapturedMagnitude(p, DefenseDef), 0.0)
      * (100.0 - MaxR(CapturedMagnitude(p, ArmorPenetrationDef), 0.0) * curves.armorPenetration(sourceLevel)) / 100.0
  }

  /** The damage of a regular hit before the critical bonus: the effective defence takes its percentage. */
  function DefendedDamage(base: real, p: ExecutionParams, curves: CoefficientCurves, sourceLevel: int, targetLevel: int): real
  {
    base * ((100.0 - EffectiveDefense(p, curves, sourceLevel) * curves.effectiveDefense(targetLevel)) / 100.0)
  }

  /** The damage an outcome leaves of the base damage. */
  function HitDamage(base: real, o: HitOutcome, p: ExecutionParams, curves: CoefficientCurves, sourceLevel: int, targetLevel: int): (d: real)
    ensures o == Dodged ==> d == 0.0
    ensures o == Blocked ==> d == base / 2.0
    ensures o == Regular(false) ==> d == DefendedDamage(base, p, curves, sourceLevel, targetLevel)
    ensures o == Regular(true) ==>
      d == 2.0 * DefendedDamage(base, p, curves, sourceLevel, targetLevel) + MaxR(CapturedMagnitude(p, CriticalHitDamageDef), 0.0)
  {
    match o
    case Dodged => 0.0
    case Blocked => base / 2.0
    case Regular(critical) =>
      var d := DefendedDamage(base, p, curves, sourceLevel, targetLevel);
      if critical then 2.0 * d + MaxR(CapturedMagnitude(p, CriticalHitDamageDef), 0.0) else d
  }

  /** The context after the hit flags of an outcome are written: one flag, and no other member. */
  function HitFlags(f: EffectContextFields, o: HitOutcome): (r: EffectContextFields)
    ensures o == Dodged ==> r == f.(isDodgedHit := true)
    ensures o == Blocked ==> r == f.(isBlockedHit := true)
    ensures o.Regular? ==> r == f.(isCriticalHit := o.critical)
  {
    match o
    case Dodged => f.(isDodgedHit := true)
    case Blocked => f.(isBlockedHit := true)
    case Regular(critical) => f.(isCriticalHit := critical)
  }

  /** The loop of ApplyDamage over DamageTypesToResistances: each type's value less its resistance's percentage. */
  method SumResistedDamage(defs: map<Tag, CaptureDef>, p: ExecutionParams) returns (damage: real)
    requires ResistancesCaptured(defs)
    ensures damage == BaseDamage(p, defs)
  {
    damage := 0.0;
    for i := 0 to |DamageTypesToResistances|
      invariant damage == DamageUpTo(p, defs, i)
    {
      var damageType := DamageTypesToResistances[i].0;
      var resistanceType := DamageTypesToResistances[i].1;
      var damageTypeValue := SetByCallerMagnitude(p, damageType, 0.0);
      var resistance := CapturedMagnitude(p, defs[resistanceType]);
      resistance := ClampR(resistance, 0.0, 100.0);
      damageTypeValue := damageTypeValue * ((100.0 - resistance) / 100.0);
      damage := damage + damageTypeValue;
    }
  }

  /**
   * ApplyDamage: the loop over DamageTypesToResistances, then the dodge, block, defence and
   * critical-hit branches, each writing its flag into the context through the library.
   */
  method ApplyDamage(defs: map<Tag, CaptureDef>, p: ExecutionParams, curves: CoefficientCurves,
                     sourceLevel: int, targetLevel: int, context: AriaGameplayEffectContext?, rolls: Rolls)
    returns (damage: real)
    requires ResistancesCaptured(defs)
    modifies context
    ensures damage == HitDamage(BaseDamage(p, defs), OutcomeIntended(p, curves, targetLevel, rolls), p, curves, sourceLevel, targetLevel)
    ensures context != null ==> context.fields == HitFlags(old(context.fields), OutcomeIntended(p, curves, targetLevel, rolls))
  {
    damage := SumResistedDamage(defs, p);
    ghost var base := damage;
    ghost var outcome := OutcomeIntended(p, curves, targetLevel, rolls);
    var targetDodgeChance := CapturedMagnitude(p, DodgeChanceDef);
    targetDodgeChance := MaxR(targetDodgeChance, 0.0);
    if (rolls.dodge as real) < targetDodgeChance {
      assert outcome == Dodged;
      damage := 0.0;
      SetIsDodgedHit(context, true);
    } else {
      var targetBlockChance := CapturedMagnitude(p, BlockChanceDef);
      targetBlockChance := MaxR(targetBlockChance, 0.0);
      if (rolls.block as real) < targetBlockChance {
        assert outcome == Blocked;
        damage := damage / 2.0;
        SetIsBlockedHit(context, true);
      } else {
        var targetDefense := MaxR(CapturedMagnitude(p, DefenseDef), 0.0);
        var sourceArmorPenetration := MaxR(CapturedMagnitude(p, ArmorPenetrationDef), 0.0);
        var armorPenetrationCoefficient := curves.armorPenetration(sourceLevel);
        var effectiveDefense := targetDefense * (100.0 - sourceArmorPenetration * armorPenetrationCoefficient) / 100.0;
        var effectiveDefenseCoefficient := curves.effectiveDefense(targetLevel);
        assert effectiveDefense == EffectiveDefense(p, curves, sourceLevel);
        damage := damage * ((100.0 - effectiveDefense * effectiveDefenseCoefficient) / 100.0);
        assert damage == DefendedDamage(base, p, curves, sourceLevel, targetLevel);

        var sourceCriticalHitChance := MaxR(CapturedMagnitude(p, CriticalHitChanceDef), 0.0);
        var sourceCriticalHitDamage := MaxR(CapturedMagnitude(p, CriticalHitDamageDef), 0.0);
        var targetCriticalHitResistance := MaxR(CapturedMagnitude(p, CriticalHitResistanceDef), 0.0);
        var criticalHitResistanceCoefficient := curves.criticalHitResistance(targetLevel);
        var effectiveCriticalHitChance := sourceCriticalHitChance - targetCriticalHitResistance * criticalHitResistanceCoefficient;
        var criticalHit := (rolls.critical as real) < effectiveCriticalHitChance;
        assert outcome == Regular(criticalHit);
        SetIsCriticalHit(context, criticalHit);
        damage := if criticalHit then 2.0 * damage + sourceCriticalHitDamage else damage;
      }
    }
  }

  /**
   * A dodge zeroes the damage and writes only the dodged flag: neither the blocked nor the
   * critical flag is touched.
   */
  lemma DodgeWritesOnlyDodged(f: EffectContextFields, p: ExecutionParams, curves: CoefficientCurves, targetLevel: int, rolls: Rolls)
    requires (rolls.dodge as real) < TargetDodgeChance(p)
    ensures OutcomeIntended(p, curves, targetLevel, rolls) == Dodged
    ensures HitFlags(f, OutcomeIntended(p, curves, targetLevel, rolls)).isBlockedHit == f.isBlockedHit
    ensures HitFlags(f, OutcomeIntended(p, curves, targetLevel, rolls)).isCriticalHit == f.isCriticalHit
  {
  }

  /**
   * As written, a target with no block chance at all blocks whenever the dodge roll misses
   * and the block roll falls under its dodge chance.
   */
  lemma BlockUsesDodgeChance()
    ensures var p := ExecutionParams(map[], map[DodgeChanceDef := 50.0, BlockChanceDef := 0.0]);
            var curves := CoefficientCurves(l => 0.0, l => 0.0, l => 0.0);
            var rolls := Rolls(60, 10, 100);
            && OutcomeAsWritten(p, curves, 1, rolls) == Blocked
            && OutcomeIntended(p, curves, 1, rolls) == Regular(false)
  {
    var p := ExecutionParams(map[], map[DodgeChanceDef := 50.0, BlockChanceDef := 0.0]);
    assert CapturedMagnitude(p, DodgeChanceDef) == 50.0;
    assert CapturedMagnitude(p, BlockChanceDef) == 0.0;
  }

  /**
   * With the intended block test, a hit that is not dodged is blocked exactly when the block
   * roll falls under the target's own block chance, whatever its dodge chance.
   */
  lemma IntendedBlockFollowsBlockChance(p: ExecutionParams, curves: CoefficientCurves, targetLevel: int, rolls: Rolls)
    requires !((rolls.dodge as real) < TargetDodgeChance(p))
    ensures OutcomeIntended(p, curves, targetLevel, rolls) == Blocked
            <==> (rolls.block as real) < MaxR(CapturedMagnitude(p, BlockChanceDef), 0.0)
  {
  }

  /** A block halves a non-negative base damage, and a critical hit at least doubles a non-negative regular hit. */
  lemma BlockAndCriticalScaling(base: real, p: ExecutionParams, curves: CoefficientCurves, sourceLevel: int, targetLevel: int)
    requires base >= 0.0
    ensures 0.0 <= HitDamage(base, Blocked, p, curves, sourceLevel, targetLevel) <= base
    ensures HitDamage(base, Regular(true), p, curves, sourceLevel, targetLevel)
            >= 2.0 * HitDamage(base, Regular(false), p, curves, sourceLevel, targetLevel)
  {
  }

  // ---------------------------------------------------------------------------------------
  // Status effects
  // ---------------------------------------------------------------------------------------

  /** The status type the context names, as the library reads it. */
  function StatusTypeOf(f: EffectContextFields): Tag
  {
    TagOrEmpty(f.statusEffectType)
  }

  /** The chance of status pair i after the target's resistance to it. */
  function EffectiveStatusEffectChance(p: ExecutionParams, defs: map<Tag, CaptureDef>, i: nat): real
    requires ResistancesCaptured(defs)
    requires i < |StatusEffectsToResistances|
  {
    SetByCallerMagnitude(p, StatusEffectChance, -1.0)
      * (100.0 - ClampR(CapturedMagnitude(p, defs[StatusEffectsToResistances[i].1]), 0.0, 100.0)) / 100.0
  }

  /** Status pair i is applied: the context's status type is its key exactly, and its roll comes in under the chance. */
  predicate StatusPairPasses(f: EffectContextFields, p: ExecutionParams, defs: map<Tag, CaptureDef>, rolls: seq<int>, i: nat)
    requires ResistancesCaptured(defs)
    requires |rolls| == |StatusEffectsToResistances|
    requires i < |StatusEffectsToResistances|
  {
    && MatchesTagExact(StatusTypeOf(f), StatusEffectsToResistances[i].0)
    && (rolls[i] as real) < EffectiveStatusEffectChance(p, defs, i)
  }

  /**
   * The context once a status effect is applied: the applied flag, the duration and the
   * frequency are set, and the damaged-attribute amount only when the context names a valid
   * damaged attribute.
   */
  function StatusApplied(f: EffectContextFields, p: ExecutionParams): EffectContextFields
  {
    f.(isStatusEffectApplied := true,
       statusEffectDuration := SetByCallerMagnitude(p, StatusEffectDuration, -1.0),
       statusEffectFrequency := SetByCallerMagnitude(p, StatusEffectFrequency, -1.0),
       damagedAttributeAmount := if IsValid(TagOrEmpty(f.damagedAttributeType))
                                 then SetByCallerMagnitude(p, StatusEffectDamage, -1.0)
                                 else f.damagedAttributeAmount)
  }

  /** Applying a status effect writes the four status settings and no other member of the context. */
  lemma StatusAppliedWrites(f: EffectContextFields, p: ExecutionParams)
    ensures StatusApplied(f, p).isStatusEffectApplied
    ensures StatusApplied(f, p).statusEffectDuration == SetByCallerMagnitude(p, StatusEffectDuration, -1.0)
    ensures StatusApplied(f, p).statusEffectFrequency == SetByCallerMagnitude(p, StatusEffectFrequency, -1.0)
    ensures StatusApplied(f, p).damagedAttributeAmount
            == if IsValid(TagOrEmpty(f.damagedAttributeType)) then SetByCallerMagnitude(p, StatusEffectDamage, -1.0)
               else f.damagedAttributeAmount
    ensures StatusApplied(f, p).statusEffectType == f.statusEffectType
    ensures StatusApplied(f, p).damagedAttributeType == f.damagedAttributeType
  {
  }

  /** Applying a status effect a second time changes nothing more. */
  lemma StatusAppliedTwice(f: EffectContextFields, p: ExecutionParams)
    ensures StatusApplied(StatusApplied(f, p), p) == StatusApplied(f, p)
  {
  }

  /** Whether a pair passes depends on the context only through its status type. */
  lemma PassesByStatusType(f: EffectContextFields, g: EffectContextFields, p: ExecutionParams, defs: map<Tag, CaptureDef>, rolls: seq<int>, i: nat)
    requires ResistancesCaptured(defs)
    requires |rolls| == |StatusEffectsToResistances|
    requires i < |StatusEffectsToResistances|
    requires f.statusEffectType == g.statusEffectType
    ensures StatusPairPasses(f, p, defs, rolls, i) == StatusPairPasses(g, p, defs, rolls, i)
  {
  }

  /** The context after the first n status pairs have been tried. */
  function StatusUpTo(f: EffectContextFields, p: ExecutionParams, defs: map<Tag, CaptureDef>, rolls: seq<int>, n: nat): EffectContextFields
    requires ResistancesCaptured(defs)
    requires |rolls| == |StatusEffectsToResistances|
    requires n <= |StatusEffectsToResistances|
  {
    if n == 0 then f
    else
      var g := StatusUpTo(f, p, defs, rolls, n - 1);
      if StatusPairPasses(g, p, defs, rolls, n - 1) then StatusApplied(g, p) else g
  }

  /** Some status pair is applied to the context as it stands. */
  predicate StatusEffectApplies(f: EffectContextFields, p: ExecutionParams, defs: map<Tag, CaptureDef>, rolls: seq<int>)
    requires ResistancesCaptured(defs)
    requires |rolls| == |StatusEffectsToResistances|
  {
    exists i :: 0 <= i < |StatusEffectsToResistances| && StatusPairPasses(f, p, defs, rolls, i)
  }

  lemma {:induction false} StatusUpToCharacterized(f: EffectContextFields, p: ExecutionParams, defs: map<Tag, CaptureDef>, rolls: seq<int>, n: nat)
    requires ResistancesCaptured(defs)
    requires |rolls| == |StatusEffectsToResistances|
    requires n <= |StatusEffectsToResistances|
    ensures StatusUpTo(f, p, defs, rolls, n)
            == if exists i :: 0 <= i < n && StatusPairPasses(f, p, defs, rolls, i) then StatusApplied(f, p) else f
  {
    if n > 0 {
      StatusUpToCharacterized(f, p, defs, rolls, n - 1);
      var g := StatusUpTo(f, p, defs, rolls, n - 1);
      StatusAppliedWrites(f, p);
      PassesByStatusType(g, f, p, defs, rolls, n - 1);
      StatusAppliedTwice(f, p);
    }
  }

  /**
   * After every pair has been tried, the context is StatusApplied exactly when some pair's
   * key is the context's status type and its roll came in under the resisted chance, and
   * is unchanged otherwise.
   */
  lemma StatusEffectsCharacterized(f: EffectContextFields, p: ExecutionParams, defs: map<Tag, CaptureDef>, rolls: seq<int>)
    requires ResistancesCaptured(defs)
    requires |rolls| == |StatusEffectsToResistances|
    ensures StatusUpTo(f, p, defs, rolls, |StatusEffectsToResistances|)
            == if StatusEffectApplies(f, p, defs, rolls) then StatusApplied(f, p) else f
  {
    StatusUpToCharacterized(f, p, defs, rolls, |StatusEffectsToResistances|);
  }

  /**
   * ApplyStatusEffects: for each status pair whose key is the context's status type, roll
   * against the resisted chance and, on success, write the status settings into the context.
   */
  /** The writes made once a status effect has been rolled: the body of the successful branch. */
  method WriteStatusEffect(p: ExecutionParams, context: AriaGameplayEffectContext?)
    modifies context
    ensures context != null ==> context.fields == StatusApplied(old(context.fields), p)
  {
    SetStatusEffectApplied(context, true);
    var statusEffectDuration := SetByCallerMagnitude(p, StatusEffectDuration, -1.0);
    var statusEffectFrequency := SetByCallerMagnitude(p, StatusEffectFrequency, -1.0);
    var damagedAttributeAmount := SetByCallerMagnitude(p, StatusEffectDamage, -1.0);
    SetStatusEffectDuration(context, statusEffectDuration);
    SetStatusEffectFrequency(context, statusEffectFrequency);
    if IsValid(GetDamagedAttributeType(context)) {
      SetDamagedAttributeAmount(context, damagedAttributeAmount);
    }
  }

  method ApplyStatusEffects(defs: map<Tag, CaptureDef>, p: ExecutionParams, context: AriaGameplayEffectContext?, rolls: seq<int>)
    requires ResistancesCaptured(defs)
    requires |rolls| == |StatusEffectsToResistances|
    modifies context
    ensures context != null ==> context.fields == StatusUpTo(old(context.fields), p, defs, rolls, |StatusEffectsToResistances|)
  {
    for i := 0 to |StatusEffectsToResistances|
      invariant context != null ==> context.fields == StatusUpTo(old(context.fields), p, defs, rolls, i)
    {
      ghost var before := if context != null then context.fields else FreshFields;
      if MatchesTagExact(GetStatusEffectType(context), StatusEffectsToResistances[i].0) {
        var effectResistanceType := StatusEffectsToResistances[i].1;
        var sourceStatusEffectChance := SetByCallerMagnitude(p, StatusEffectChance, -1.0);
        var statusEffectResistance := CapturedMagnitude(p, defs[effectResistanceType]);
        statusEffectResistance := ClampR(statusEffectResistance, 0.0, 100.0);
        var effectiveStatusEffectChance := sourceStatusEffectChance * (100.0 - statusEffectResistance) / 100.0;
        var statusEffectApplied := (rolls[i] as real) < effectiveStatusEffectChance;
        if statusEffectApplied {
          WriteStatusEffect(p, context);
        }
      }
      assert context != null ==>
        context.fields == if StatusPairPasses(before, p, defs, rolls, i) then StatusApplied(before, p) else before;
    }
  }

  // ---------------------------------------------------------------------------------------
  // Execute_Implementation
  // ---------------------------------------------------------------------------------------

  /** The attributes an output modifier can name here. */
  datatype OutputAttribute = IncomingDamageAttribute

  datatype ModifierOp = Additive

  /** FGameplayModifierEvaluatedData. */
  datatype OutputModifier = OutputModifier(attribute: OutputAttribute, op: ModifierOp, magnitude: real)

  /** A character's level: its combat-interface level, or 1 for an actor without one. */
  function CharacterLevel(combatLevel: Option<int>): (l: int)
    ensures combatLevel.None? ==> l == 1
    ensures combatLevel.Some? ==> l == combatLevel.value
  {
    match combatLevel
    case None => 1
    case Some(level) => level
  }

  /**
   * Execute_Implementation: status effects first, then damage, and one additive
   * IncomingDamage modifier carrying the damage.
   */
  method Execute(p: ExecutionParams, curves: CoefficientCurves, sourceCombatLevel: Option<int>, targetCombatLevel: Option<int>,
                 context: AriaGameplayEffectContext?, rolls: Rolls, statusRolls: seq<int>)
    returns (output: seq<OutputModifier>)
    requires |statusRolls| == |StatusEffectsToResistances|
    modifies context
    ensures
      var targetLevel := CharacterLevel(targetCombatLevel);
      var outcome := OutcomeIntended(p, curves, targetLevel, rolls);
      output == [OutputModifier(IncomingDamageAttribute, Additive,
                   HitDamage(BaseDamage(p, TagsToCaptureDefs), outcome, p, curves, CharacterLevel(sourceCombatLevel), targetLevel))]
    ensures
      context != null ==>
        context.fields == HitFlags(StatusUpTo(old(context.fields), p, TagsToCaptureDefs, statusRolls, |StatusEffectsToResistances|),
                                   OutcomeIntended(p, curves, CharacterLevel(targetCombatLevel), rolls))
  {
    CaptureDefsCoverResistances();
    var sourceCharacterLevel := 1;
    if sourceCombatLevel.Some? {
      sourceCharacterLevel := sourceCombatLevel.value;
    }
    var targetCharacterLevel := 1;
    if targetCombatLevel.Some? {
      targetCharacterLevel := targetCombatLevel.value;
    }
    ApplyStatusEffects(TagsToCaptureDefs, p, context, statusRolls);
    var damage := ApplyDamage(TagsToCaptureDefs, p, curves, sourceCharacterLevel, targetCharacterLevel, context, rolls);
    output := [OutputModifier(IncomingDamageAttribute, Additive, damage)];
  }
}
