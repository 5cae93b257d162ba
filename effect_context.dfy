/**
 * FAriaGameplayEffectContext: the effect context every Aria effect carries, with its
 * hit flags, knockback, status-effect and hindrance parameters, and its NetSerialize over a
 * 32-bit presence mask.
 */
module AriaEffectContext {
  import opened UnrealMath
  import opened Tags
  import opened Wrappers
  import opened NetArchive
  import opened AbilityTypes

  /** The bit of the world origin; the custom fields take the bits from FirstCustomBit on. */
  const WorldOriginBit: nat := 6
  const FirstCustomBit: nat := 7
  /** The number of bits `SerializeBits` writes. */
  const MaskWidth: nat := 32

  /** The replicated state of an FAriaGameplayEffectContext: the world origin, then the custom fields in bit order. */
  datatype EffectContextFields = EffectContextFields(
    hasWorldOrigin: bool,
    worldOrigin: Vec,
    isDodgedHit: bool,
    isBlockedHit: bool,
    isCriticalHit: bool,
    damageType: Option<Tag>,
    knockbackForce: Vec,
    deathImpulse: Vec,
    isStatusEffectApplied: bool,
    statusEffectType: Option<Tag>,
    statusEffectDuration: real,
    statusEffectFrequency: real,
    damagedAttributeType: Option<Tag>,
    damagedAttributeAmount: real,
    additionalDamageTrigger: AdditionalDamageTriggers,
    additionalDamageAmount: real,
    randomlyMissActions: RandomlyMissAnyActions,
    randomMissPercentage: real,
    randomlyStopActions: RandomlyStopAnyActions,
    reducedActionPercentage: real,
    stopAllActions: StopAllActions,
    reducedMovementSpeed: real,
    randomizeMovements: bool,
    runFromTarget: bool,
    instantKillTarget: bool,
    reducedLevels: int,
    forceAIControl: bool)

  /** Every field as a newly constructed context holds it. */
  const FreshFields := EffectContextFields(false, ZeroVector, false, false, false, None, ZeroVector, ZeroVector, false, None, 0.0, 0.0, None, 0.0, AdditionalDamageTriggers.Disabled, 0.0, RandomlyMissAnyActions.Disabled, 0.0, RandomlyStopAnyActions.Disabled, 0.0, StopAllActions.Disabled, 0.0, false, false, false, 0, false)

  /** Custom field i, as it travels under bit FirstCustomBit + i. */
  function WireAt(f: EffectContextFields, i: nat): WireField
    requires i < 25
  {
    if i < 12 then
      if i < 6 then
        if i < 3 then
          if i < 1 then
            BoolField(f.isDodgedHit)
          else
            if i == 1 then BoolField(f.isBlockedHit) else BoolField(f.isCriticalHit)
        else
          if i < 4 then
            TagField(f.damageType)
          else
            if i == 4 then VecField(f.knockbackForce) else VecField(f.deathImpulse)
      else
        if i < 9 then
          if i < 7 then
            BoolField(f.isStatusEffectApplied)
          else
            if i == 7 then TagField(f.statusEffectType) else FloatField(f.statusEffectDuration)
        else
          if i < 10 then
            FloatField(f.statusEffectFrequency)
          else
            if i == 10 then TagField(f.damagedAttributeType) else FloatField(f.damagedAttributeAmount)
    else
      if i < 18 then
        if i < 15 then
          if i < 13 then
            EnumField(f.additionalDamageTrigger.Ord())
          else
            if i == 13 then FloatField(f.additionalDamageAmount) else EnumField(f.randomlyMissActions.Ord())
        else
          if i < 16 then
            FloatField(f.randomMissPercentage)
          else
            if i == 16 then EnumField(f.randomlyStopActions.Ord()) else FloatField(f.reducedActionPercentage)
      else
        if i < 21 then
          if i < 19 then
            EnumField(f.stopAllActions.Ord())
          else
            if i == 19 then FloatField(f.reducedMovementSpeed) else BoolField(f.randomizeMovements)
        else
          if i < 23 then
            if i == 21 then BoolField(f.runFromTarget) else BoolField(f.instantKillTarget)
          else
            if i == 23 then IntField(f.reducedLevels) else BoolField(f.forceAIControl)
  }

  /** The custom fields in bit order. */
  function Wire(f: EffectContextFields): (r: seq<WireField>)
    ensures |r| == 25
    ensures forall i :: 0 <= i < 25 ==> r[i] == WireAt(f, i)
  {
    seq(25, i requires 0 <= i < 25 => WireAt(f, i))
  }

  /** Stores the values of `ws` into the custom fields of `g`; the enums are never stored. */
  function FromWire(g: EffectContextFields, ws: seq<WireField>): EffectContextFields
    requires |ws| == 25
  {
    g.(isDodgedHit := AsBool(ws[0]),
       isBlockedHit := AsBool(ws[1]),
       isCriticalHit := AsBool(ws[2]),
       damageType := AsTag(ws[3]),
       knockbackForce := AsVec(ws[4]),
       deathImpulse := AsVec(ws[5]),
       isStatusEffectApplied := AsBool(ws[6]),
       statusEffectType := AsTag(ws[7]),
       statusEffectDuration := AsFloat(ws[8]),
       statusEffectFrequency := AsFloat(ws[9]),
       damagedAttributeType := AsTag(ws[10]),
       damagedAttributeAmount := AsFloat(ws[11]),
       additionalDamageAmount := AsFloat(ws[13]),
       randomMissPercentage := AsFloat(ws[15]),
       reducedActionPercentage := AsFloat(ws[17]),
       reducedMovementSpeed := AsFloat(ws[19]),
       randomizeMovements := AsBool(ws[20]),
       runFromTarget := AsBool(ws[21]),
       instantKillTarget := AsBool(ws[22]),
       reducedLevels := AsInt(ws[23]),
       forceAIControl := AsBool(ws[24]))
  }

  /** The mask saving `f` writes: bit k is set exactly when the field sent under k is not at its default. */
  function SavedBits(f: EffectContextFields): (r: set<nat>)
    ensures forall k :: k in r ==> WorldOriginBit <= k < MaskWidth
    ensures WorldOriginBit in r <==> f.hasWorldOrigin
    ensures forall i :: 0 <= i < 25 ==> (FirstCustomBit + i in r <==> IsSet(WireAt(f, i)))
  {
    (if f.hasWorldOrigin then {WorldOriginBit} else {}) + Mask(Wire(f), FirstCustomBit)
  }

  /** The archive saving `f` produces: the mask, the world origin when present, then the sent fields in bit order. */
  function SavedArchive(f: EffectContextFields): seq<ArchiveItem>
  {
    [MaskItem(SavedBits(f))] + (if f.hasWorldOrigin then [VecItem(f.worldOrigin)] else [])
    + Written(Wire(f), SavedBits(f), FirstCustomBit)
  }

  /** The context after a load, and the archive items left after it. */
  datatype ContextLoad = ContextLoad(fields: EffectContextFields, rest: seq<ArchiveItem>)

  /** The world origin part of a load from an archive whose rest, after the mask, is `items`. */
  function LoadOrigin(f: EffectContextFields, bits: set<nat>, items: seq<ArchiveItem>): EffectContextFields
  {
    f.(hasWorldOrigin := WorldOriginBit in bits,
       worldOrigin := if WorldOriginBit in bits then AsVec(Decode(VecField(f.worldOrigin), Next(items))) else f.worldOrigin)
  }

  /** Loading the world origin leaves the custom fields, and so their wire form, alone. */
  lemma OriginKeepsWire(f: EffectContextFields, bits: set<nat>, items: seq<ArchiveItem>)
    ensures Wire(LoadOrigin(f, bits, items)) == Wire(f)
  {
    assert forall i :: 0 <= i < 25 ==> WireAt(LoadOrigin(f, bits, items), i) == WireAt(f, i);
  }

  /** Loading the world origin and storing the custom fields commute. */
  lemma OriginCommutes(f: EffectContextFields, ws: seq<WireField>, bits: set<nat>, items: seq<ArchiveItem>)
    requires |ws| == 25
    ensures FromWire(LoadOrigin(f, bits, items), ws) == LoadOrigin(FromWire(f, ws), bits, items)
  {
  }

  /**
   * The load may equally read the world origin first, as NetSerialize does, and the custom
   * fields after it.
   */
  lemma LoadInSteps(f: EffectContextFields, archive: seq<ArchiveItem>, g: EffectContextFields, items: seq<ArchiveItem>, loaded: seq<WireField>, rest: seq<ArchiveItem>)
    requires g == LoadOrigin(f, ReadMask(Next(archive), MaskWidth), Rest(archive))
    requires items == if WorldOriginBit in ReadMask(Next(archive), MaskWidth) then Rest(Rest(archive)) else Rest(archive)
    requires Loaded(loaded, rest) == Load(Wire(g), ReadMask(Next(archive), MaskWidth), FirstCustomBit, items)
    ensures |loaded| == 25
    ensures LoadArchive(f, archive) == ContextLoad(FromWire(g, loaded), rest)
  {
    var bits := ReadMask(Next(archive), MaskWidth);
    OriginKeepsWire(f, bits, Rest(archive));
    OriginCommutes(f, loaded, bits, Rest(archive));
  }

  /** Loading `archive` into a context holding `f`. */
  function LoadArchive(f: EffectContextFields, archive: seq<ArchiveItem>): ContextLoad
  {
    var bits := ReadMask(Next(archive), MaskWidth);
    var custom := Load(Wire(f), bits, FirstCustomBit, if WorldOriginBit in bits then Rest(Rest(archive)) else Rest(archive));
    ContextLoad(LoadOrigin(FromWire(f, custom.fields), bits, Rest(archive)), custom.rest)
  }

  /**
   * What a fresh context holds after loading what `f` saved: every field comes back, except
   * that floats and ints that are not positive come back as 0, the enums stay Disabled and
   * an absent world origin stays the zero vector.
   */
  function Restored(f: EffectContextFields): EffectContextFields
  {
    f.(worldOrigin := if f.hasWorldOrigin then f.worldOrigin else ZeroVector,
       statusEffectDuration := MaxR(f.statusEffectDuration, 0.0),
       statusEffectFrequency := MaxR(f.statusEffectFrequency, 0.0),
       damagedAttributeAmount := MaxR(f.damagedAttributeAmount, 0.0),
       additionalDamageTrigger := AdditionalDamageTriggers.Disabled,
       additionalDamageAmount := MaxR(f.additionalDamageAmount, 0.0),
       randomlyMissActions := RandomlyMissAnyActions.Disabled,
       randomMissPercentage := MaxR(f.randomMissPercentage, 0.0),
       randomlyStopActions := RandomlyStopAnyActions.Disabled,
       reducedActionPercentage := MaxR(f.reducedActionPercentage, 0.0),
       stopAllActions := StopAllActions.Disabled,
       reducedMovementSpeed := MaxR(f.reducedMovementSpeed, 0.0),
       reducedLevels := if f.reducedLevels > 0 then f.reducedLevels else 0)
  }

  /**
   * What a context holding `g` holds after loading what `f` saved: the world origin as `f`
   * has it, each field `f` sent (its bit set) with `f`'s value, every other field and every
   * enum as `g` has it.
   */
  function Received(g: EffectContextFields, f: EffectContextFields): EffectContextFields
  {
    g.(hasWorldOrigin := f.hasWorldOrigin,
       worldOrigin := if f.hasWorldOrigin then f.worldOrigin else g.worldOrigin,
       isDodgedHit := if f.isDodgedHit then f.isDodgedHit else g.isDodgedHit,
       isBlockedHit := if f.isBlockedHit then f.isBlockedHit else g.isBlockedHit,
       isCriticalHit := if f.isCriticalHit then f.isCriticalHit else g.isCriticalHit,
       damageType := if f.damageType.Some? then f.damageType else g.damageType,
       knockbackForce := if !IsZero(f.knockbackForce) then f.knockbackForce else g.knockbackForce,
       deathImpulse := if !IsZero(f.deathImpulse) then f.deathImpulse else g.deathImpulse,
       isStatusEffectApplied := if f.isStatusEffectApplied then f.isStatusEffectApplied else g.isStatusEffectApplied,
       statusEffectType := if f.statusEffectType.Some? then f.statusEffectType else g.statusEffectType,
       statusEffectDuration := if f.statusEffectDuration > 0.0 then f.statusEffectDuration else g.statusEffectDuration,
       statusEffectFrequency := if f.statusEffectFrequency > 0.0 then f.statusEffectFrequency else g.statusEffectFrequency,
       damagedAttributeType := if f.damagedAttributeType.Some? then f.damagedAttributeType else g.damagedAttributeType,
       damagedAttributeAmount := if f.damagedAttributeAmount > 0.0 then f.damagedAttributeAmount else g.damagedAttributeAmount,
       additionalDamageAmount := if f.additionalDamageAmount > 0.0 then f.additionalDamageAmount else g.additionalDamageAmount,
       randomMissPercentage := if f.randomMissPercentage > 0.0 then f.randomMissPercentage else g.randomMissPercentage,
       reducedActionPercentage := if f.reducedActionPercentage > 0.0 then f.reducedActionPercentage else g.reducedActionPercentage,
       reducedMovementSpeed := if f.reducedMovementSpeed > 0.0 then f.reducedMovementSpeed else g.reducedMovementSpeed,
       randomizeMovements := if f.randomizeMovements then f.randomizeMovements else g.randomizeMovements,
       runFromTarget := if f.runFromTarget then f.runFromTarget else g.runFromTarget,
       instantKillTarget := if f.instantKillTarget then f.instantKillTarget else g.instantKillTarget,
       reducedLevels := if f.reducedLevels > 0 then f.reducedLevels else g.reducedLevels,
       forceAIControl := if f.forceAIControl then f.forceAIControl else g.forceAIControl)
  }

  /** Every custom field whose bit is clear in `bits` holds in `r` what it holds in `f`. */
  predicate UnsentKept(r: EffectContextFields, f: EffectContextFields, bits: set<nat>)
  {
    (7 !in bits ==> r.isDodgedHit == f.isDodgedHit)
    && (8 !in bits ==> r.isBlockedHit == f.isBlockedHit)
    && (9 !in bits ==> r.isCriticalHit == f.isCriticalHit)
    && (10 !in bits ==> r.damageType == f.damageType)
    && (11 !in bits ==> r.knockbackForce == f.knockbackForce)
    && (12 !in bits ==> r.deathImpulse == f.deathImpulse)
    && (13 !in bits ==> r.isStatusEffectApplied == f.isStatusEffectApplied)
    && (14 !in bits ==> r.statusEffectType == f.statusEffectType)
    && (15 !in bits ==> r.statusEffectDuration == f.statusEffectDuration)
    && (16 !in bits ==> r.statusEffectFrequency == f.statusEffectFrequency)
    && (17 !in bits ==> r.damagedAttributeType == f.damagedAttributeType)
    && (18 !in bits ==> r.damagedAttributeAmount == f.damagedAttributeAmount)
    && (20 !in bits ==> r.additionalDamageAmount == f.additionalDamageAmount)
    && (22 !in bits ==> r.randomMissPercentage == f.randomMissPercentage)
    && (24 !in bits ==> r.reducedActionPercentage == f.reducedActionPercentage)
    && (26 !in bits ==> r.reducedMovementSpeed == f.reducedMovementSpeed)
    && (27 !in bits ==> r.randomizeMovements == f.randomizeMovements)
    && (28 !in bits ==> r.runFromTarget == f.runFromTarget)
    && (29 !in bits ==> r.instantKillTarget == f.instantKillTarget)
    && (30 !in bits ==> r.reducedLevels == f.reducedLevels)
    && (31 !in bits ==> r.forceAIControl == f.forceAIControl)
  }

  /** Every tag pointer whose bit is set in `bits` is non-null in `r`. */
  predicate SentTagsAllocated(r: EffectContextFields, bits: set<nat>)
  {
    (10 in bits ==> r.damageType.Some?)
    && (14 in bits ==> r.statusEffectType.Some?)
    && (17 in bits ==> r.damagedAttributeType.Some?)
  }

  /** Storing a wire form that agrees with `g` on the clear bits changes none of those fields. */
  lemma FromWireKeeps(g: EffectContextFields, ws: seq<WireField>, bits: set<nat>)
    requires |ws| == 25
    requires forall i :: 0 <= i < 25 && FirstCustomBit + i !in bits ==> ws[i] == Wire(g)[i]
    requires forall i :: 0 <= i < 25 && FirstCustomBit + i in bits && Wire(g)[i].TagField? ==> ws[i].TagField? && ws[i].t.Some?
    requires forall i :: 0 <= i < 25 ==> SameKind(ws[i], Wire(g)[i])
    ensures UnsentKept(FromWire(g, ws), g, bits)
    ensures SentTagsAllocated(FromWire(g, ws), bits)
  {
    assert Wire(g)[0] == BoolField(g.isDodgedHit);
    assert Wire(g)[1] == BoolField(g.isBlockedHit);
    assert Wire(g)[2] == BoolField(g.isCriticalHit);
    assert Wire(g)[3] == TagField(g.damageType);
    assert Wire(g)[4] == VecField(g.knockbackForce);
    assert Wire(g)[5] == VecField(g.deathImpulse);
    assert Wire(g)[6] == BoolField(g.isStatusEffectApplied);
    assert Wire(g)[7] == TagField(g.statusEffectType);
    assert Wire(g)[8] == FloatField(g.statusEffectDuration);
    assert Wire(g)[9] == FloatField(g.statusEffectFrequency);
    assert Wire(g)[10] == TagField(g.damagedAttributeType);
    assert Wire(g)[11] == FloatField(g.damagedAttributeAmount);
    assert Wire(g)[13] == FloatField(g.additionalDamageAmount);
    assert Wire(g)[15] == FloatField(g.randomMissPercentage);
    assert Wire(g)[17] == FloatField(g.reducedActionPercentage);
    assert Wire(g)[19] == FloatField(g.reducedMovementSpeed);
    assert Wire(g)[20] == BoolField(g.randomizeMovements);
    assert Wire(g)[21] == BoolField(g.runFromTarget);
    assert Wire(g)[22] == BoolField(g.instantKillTarget);
    assert Wire(g)[23] == IntField(g.reducedLevels);
    assert Wire(g)[24] == BoolField(g.forceAIControl);
  }

  /** The wire form a context holding `g` stores after loading what `f` saved. */
  function RestoredWire(g: EffectContextFields, f: EffectContextFields): (r: seq<WireField>)
    ensures |r| == 25
  {
    seq(25, i requires 0 <= i < 25 => Restore(WireAt(g, i), WireAt(f, i)))
  }

  /** Custom fields 0 to 5 come back as Received describes. */
  lemma FromWireRestores0(g: EffectContextFields, f: EffectContextFields)
    ensures FromWire(g, RestoredWire(g, f)).isDodgedHit == Received(g, f).isDodgedHit
    ensures FromWire(g, RestoredWire(g, f)).isBlockedHit == Received(g, f).isBlockedHit
    ensures FromWire(g, RestoredWire(g, f)).isCriticalHit == Received(g, f).isCriticalHit
    ensures FromWire(g, RestoredWire(g, f)).damageType == Received(g, f).damageType
    ensures FromWire(g, RestoredWire(g, f)).knockbackForce == Received(g, f).knockbackForce
    ensures FromWire(g, RestoredWire(g, f)).deathImpulse == Received(g, f).deathImpulse
  {
  }

  /** Custom fields 6 to 11 come back as Received describes. */
  lemma FromWireRestores1(g: EffectContextFields, f: EffectContextFields)
    ensures FromWire(g, RestoredWire(g, f)).isStatusEffectApplied == Received(g, f).isStatusEffectApplied
    ensures FromWire(g, RestoredWire(g, f)).statusEffectType == Received(g, f).statusEffectType
    ensures FromWire(g, RestoredWire(g, f)).statusEffectDuration == Received(g, f).statusEffectDuration
    ensures FromWire(g, RestoredWire(g, f)).statusEffectFrequency == Received(g, f).statusEffectFrequency
    ensures FromWire(g, RestoredWire(g, f)).damagedAttributeType == Received(g, f).damagedAttributeType
    ensures FromWire(g, RestoredWire(g, f)).damagedAttributeAmount == Received(g, f).damagedAttributeAmount
  {
  }

  /** Custom fields 13 to 21 come back as Received describes. */
  lemma FromWireRestores2(g: EffectContextFields, f: EffectContextFields)
    ensures FromWire(g, RestoredWire(g, f)).additionalDamageAmount == Received(g, f).additionalDamageAmount
    ensures FromWire(g, RestoredWire(g, f)).randomMissPercentage == Received(g, f).randomMissPercentage
    ensures FromWire(g, RestoredWire(g, f)).reducedActionPercentage == Received(g, f).reducedActionPercentage
    ensures FromWire(g, RestoredWire(g, f)).reducedMovementSpeed == Received(g, f).reducedMovementSpeed
    ensures FromWire(g, RestoredWire(g, f)).randomizeMovements == Received(g, f).randomizeMovements
    ensures FromWire(g, RestoredWire(g, f)).runFromTarget == Received(g, f).runFromTarget
  {
  }

  /** Custom fields 22 to 24 come back as Received describes. */
  lemma FromWireRestores3(g: EffectContextFields, f: EffectContextFields)
    ensures FromWire(g, RestoredWire(g, f)).instantKillTarget == Received(g, f).instantKillTarget
    ensures FromWire(g, RestoredWire(g, f)).reducedLevels == Received(g, f).reducedLevels
    ensures FromWire(g, RestoredWire(g, f)).forceAIControl == Received(g, f).forceAIControl
  {
  }

  /** Storing, field by field, what loading the items `f` saved gives, yields what Received describes. */
  lemma FromWireRestores(g: EffectContextFields, f: EffectContextFields)
    ensures WithOriginOf(FromWire(g, RestoredWire(g, f)), f) == Received(g, f)
  {
    FromWireRestores0(g, f);
    FromWireRestores1(g, f);
    FromWireRestores2(g, f);
    FromWireRestores3(g, f);
  }

  /** Loading the custom fields from any items keeps those whose bit is clear and allocates the sent tags. */
  lemma LoadedKeeps(f: EffectContextFields, bits: set<nat>, items: seq<ArchiveItem>)
    ensures UnsentKept(FromWire(f, Load(Wire(f), bits, FirstCustomBit, items).fields), f, bits)
    ensures SentTagsAllocated(FromWire(f, Load(Wire(f), bits, FirstCustomBit, items).fields), bits)
  {
    LoadFieldwise(Wire(f), bits, FirstCustomBit, items);
    FromWireKeeps(f, Load(Wire(f), bits, FirstCustomBit, items).fields, bits);
  }

  /** Loading the world origin touches no custom field. */
  lemma LoadOriginKeeps(r: EffectContextFields, f: EffectContextFields, bits: set<nat>, items: seq<ArchiveItem>)
    requires UnsentKept(r, f, bits)
    requires SentTagsAllocated(r, bits)
    ensures UnsentKept(LoadOrigin(r, bits, items), f, bits)
    ensures SentTagsAllocated(LoadOrigin(r, bits, items), bits)
  {
  }

  /**
   * Loading any archive: bHasWorldOrigin follows bit 6, a field whose bit is clear keeps its
   * value, a tag whose bit is set is allocated, and the enums are never updated.
   */
  lemma LoadKeepsUnsent(f: EffectContextFields, archive: seq<ArchiveItem>)
    ensures LoadArchive(f, archive).fields.hasWorldOrigin <==> WorldOriginBit in ReadMask(Next(archive), MaskWidth)
    ensures WorldOriginBit !in ReadMask(Next(archive), MaskWidth) ==> LoadArchive(f, archive).fields.worldOrigin == f.worldOrigin
    ensures UnsentKept(LoadArchive(f, archive).fields, f, ReadMask(Next(archive), MaskWidth))
    ensures SentTagsAllocated(LoadArchive(f, archive).fields, ReadMask(Next(archive), MaskWidth))
    ensures LoadArchive(f, archive).fields.additionalDamageTrigger == f.additionalDamageTrigger
    ensures LoadArchive(f, archive).fields.randomlyMissActions == f.randomlyMissActions
    ensures LoadArchive(f, archive).fields.randomlyStopActions == f.randomlyStopActions
    ensures LoadArchive(f, archive).fields.stopAllActions == f.stopAllActions
  {
    var bits := ReadMask(Next(archive), MaskWidth);
    var items := if WorldOriginBit in bits then Rest(Rest(archive)) else Rest(archive);
    var r := FromWire(f, Load(Wire(f), bits, FirstCustomBit, items).fields);
    LoadedKeeps(f, bits, items);
    assert LoadArchive(f, archive).fields == LoadOrigin(r, bits, Rest(archive));
    LoadOriginKeeps(r, f, bits, Rest(archive));
  }

  /** The origin a context holding `g` ends up with after loading what `f` saved. */
  function WithOriginOf(g: EffectContextFields, f: EffectContextFields): EffectContextFields
  {
    g.(hasWorldOrigin := f.hasWorldOrigin, worldOrigin := if f.hasWorldOrigin then f.worldOrigin else g.worldOrigin)
  }

  /** Loading what `f` saved, into a context holding `g`, reads the custom fields back from the items written. */
  lemma LoadSaved(g: EffectContextFields, f: EffectContextFields, rest: seq<ArchiveItem>)
    ensures var custom := Load(Wire(g), SavedBits(f), FirstCustomBit, Written(Wire(f), SavedBits(f), FirstCustomBit) + rest);
            LoadArchive(g, SavedArchive(f) + rest) == ContextLoad(WithOriginOf(FromWire(g, custom.fields), f), custom.rest)
  {
    var bits := SavedBits(f);
    ReadMaskFits(bits, MaskWidth);
    var origin: seq<ArchiveItem> := if f.hasWorldOrigin then [VecItem(f.worldOrigin)] else [];
    var written := Written(Wire(f), bits, FirstCustomBit);
    var archive := SavedArchive(f) + rest;
    assert archive == [MaskItem(bits)] + (origin + (written + rest));
    assert Next(archive) == Some(MaskItem(bits));
    assert Rest(archive) == origin + (written + rest);
    if f.hasWorldOrigin {
      assert Next(Rest(archive)) == Some(VecItem(f.worldOrigin));
      assert Rest(Rest(archive)) == written + rest;
    } else {
      assert Rest(archive) == written + rest;
    }
    var custom := Load(Wire(g), bits, FirstCustomBit, written + rest);
    assert LoadOrigin(FromWire(g, custom.fields), bits, Rest(archive)) == WithOriginOf(FromWire(g, custom.fields), f);
  }

  /** The custom items `f` saved read back, over a context holding `g`, as RestoredWire. */
  lemma LoadWrittenFields(g: EffectContextFields, f: EffectContextFields, rest: seq<ArchiveItem>)
    ensures Load(Wire(g), SavedBits(f), FirstCustomBit, Written(Wire(f), SavedBits(f), FirstCustomBit) + rest)
            == Loaded(RestoredWire(g, f), rest)
  {
    var bits := SavedBits(f);
    LoadWritten(Wire(g), Wire(f), bits, FirstCustomBit, rest);
    var l := Load(Wire(g), bits, FirstCustomBit, Written(Wire(f), bits, FirstCustomBit) + rest);
    assert l.fields == RestoredWire(g, f);
  }

  /**
   * Saving then loading into any context gives what Received describes, and leaves what
   * followed the saved items unread.
   */
  lemma SaveLoad(g: EffectContextFields, f: EffectContextFields, rest: seq<ArchiveItem>)
    ensures LoadArchive(g, SavedArchive(f) + rest) == ContextLoad(Received(g, f), rest)
  {
    LoadSaved(g, f, rest);
    LoadWrittenFields(g, f, rest);
    FromWireRestores(g, f);
  }

  /** Received and Restored agree on a freshly constructed receiver. */
  lemma ReceivedFresh(f: EffectContextFields)
    ensures Received(FreshFields, f) == Restored(f)
  {
  }

  /** Saving then loading into a freshly constructed context yields Restored(f). */
  lemma RoundTrip(f: EffectContextFields, rest: seq<ArchiveItem>)
    ensures LoadArchive(FreshFields, SavedArchive(f) + rest) == ContextLoad(Restored(f), rest)
  {
    SaveLoad(FreshFields, f, rest);
    ReceivedFresh(f);
  }

  /**
   * FAriaGameplayEffectContext. Its members are held together as one record value in `fields`;
   * every setter replaces one member of it in place, and each getter is a read of one member.
   */
  class AriaGameplayEffectContext {
    var fields: EffectContextFields

    /** Default member initialisers: false, 0, zero vectors, Disabled and null tag pointers. */
    constructor()
      ensures fields == FreshFields
    {
      fields := FreshFields;
    }

    method SetIsDodgedHit(v: bool)
      modifies this
      ensures fields == old(fields).(isDodgedHit := v)
    {
      fields := fields.(isDodgedHit := v);
    }

    method SetIsBlockedHit(v: bool)
      modifies this
      ensures fields == old(fields).(isBlockedHit := v)
    {
      fields := fields.(isBlockedHit := v);
    }

    method SetIsCriticalHit(v: bool)
      modifies this
      ensures fields == old(fields).(isCriticalHit := v)
    {
      fields := fields.(isCriticalHit := v);
    }

    method SetDamageType(v: Option<Tag>)
      modifies this
      ensures fields == old(fields).(damageType := v)
    {
      fields := fields.(damageType := v);
    }

    method SetKnockbackForce(v: Vec)
      modifies this
      ensures fields == old(fields).(knockbackForce := v)
    {
      fields := fields.(knockbackForce := v);
    }

    method SetDeathImpulse(v: Vec)
      modifies this
      ensures fields == old(fields).(deathImpulse := v)
    {
      fields := fields.(deathImpulse := v);
    }

    method SetIsStatusEffectApplied(v: bool)
      modifies this
      ensures fields == old(fields).(isStatusEffectApplied := v)
    {
      fields := fields.(isStatusEffectApplied := v);
    }

    method SetStatusEffectType(v: Option<Tag>)
      modifies this
      ensures fields == old(fields).(statusEffectType := v)
    {
      fields := fields.(statusEffectType := v);
    }

    method SetStatusEffectDuration(v: real)
      modifies this
      ensures fields == old(fields).(statusEffectDuration := v)
    {
      fields := fields.(statusEffectDuration := v);
    }

    method SetStatusEffectFrequency(v: real)
      modifies this
      ensures fields == old(fields).(statusEffectFrequency := v)
    {
      fields := fields.(statusEffectFrequency := v);
    }

    method SetDamagedAttributeType(v: Option<Tag>)
      modifies this
      ensures fields == old(fields).(damagedAttributeType := v)
    {
      fields := fields.(damagedAttributeType := v);
    }

    method SetDamagedAttributeAmount(v: real)
      modifies this
      ensures fields == old(fields).(damagedAttributeAmount := v)
    {
      fields := fields.(damagedAttributeAmount := v);
    }

    method SetAdditionalDamageTrigger(v: AdditionalDamageTriggers)
      modifies this
      ensures fields == old(fields).(additionalDamageTrigger := v)
    {
      fields := fields.(additionalDamageTrigger := v);
    }

    method SetAdditionalDamageAmount(v: real)
      modifies this
      ensures fields == old(fields).(additionalDamageAmount := v)
    {
      fields := fields.(additionalDamageAmount := v);
    }

    method SetRandomlyMissActions(v: RandomlyMissAnyActions)
      modifies this
      ensures fields == old(fields).(randomlyMissActions := v)
    {
      fields := fields.(randomlyMissActions := v);
    }

    method SetRandomMissPercentage(v: real)
      modifies this
      ensures fields == old(fields).(randomMissPercentage := v)
    {
      fields := fields.(randomMissPercentage := v);
    }

    method SetRandomlyStopActions(v: RandomlyStopAnyActions)
      modifies this
      ensures fields == old(fields).(randomlyStopActions := v)
    {
      fields := fields.(randomlyStopActions := v);
    }

    method SetReducedActionPercentage(v: real)
      modifies this
      ensures fields == old(fields).(reducedActionPercentage := v)
    {
      fields := fields.(reducedActionPercentage := v);
    }

    method SetStopAllActions(v: StopAllActions)
      modifies this
      ensures fields == old(fields).(stopAllActions := v)
    {
      fields := fields.(stopAllActions := v);
    }

    method SetReducedMovementSpeed(v: real)
      modifies this
      ensures fields == old(fields).(reducedMovementSpeed := v)
    {
      fields := fields.(reducedMovementSpeed := v);
    }

    method SetIsRandomizeMovements(v: bool)
      modifies this
      ensures fields == old(fields).(randomizeMovements := v)
    {
      fields := fields.(randomizeMovements := v);
    }

    method SetIsRunFromTarget(v: bool)
      modifies this
      ensures fields == old(fields).(runFromTarget := v)
    {
      fields := fields.(runFromTarget := v);
    }

    method SetIsInstantKillTarget(v: bool)
      modifies this
      ensures fields == old(fields).(instantKillTarget := v)
    {
      fields := fields.(instantKillTarget := v);
    }

    /** Stores a float into the int32 member, truncating it toward zero. */
    method SetReducedLevels(levels: real)
      modifies this
      ensures fields == old(fields).(reducedLevels := TruncToInt(levels))
    {
      fields := fields.(reducedLevels := TruncToInt(levels));
    }

    method SetIsIForceAIControl(v: bool)
      modifies this
      ensures fields == old(fields).(forceAIControl := v)
    {
      fields := fields.(forceAIControl := v);
    }

    /** A new context whose members are a copy of this one's (`*NewContext = *this`). */
    method Duplicate() returns (c: AriaGameplayEffectContext)
      ensures fresh(c) && c.fields == fields
    {
      c := new AriaGameplayEffectContext();
      c.fields := fields;
    }

    /** NetSerialize on a saving archive: returns the items written, and always succeeds. */
    method NetSerializeSave() returns (archive: seq<ArchiveItem>, outSuccess: bool, ok: bool)
      ensures archive == SavedArchive(fields)
      ensures outSuccess && ok
    {
      var repBits: set<nat> := {};
      if fields.hasWorldOrigin {
        repBits := repBits + {WorldOriginBit};
      }
      var wire := Wire(fields);
      repBits := AddMaskBits(repBits, wire, FirstCustomBit);
      assert repBits == SavedBits(fields);
      archive := [MaskItem(repBits)];
      if WorldOriginBit in repBits {
        archive := archive + [VecItem(fields.worldOrigin)];
      }
      var items := WriteFields(wire, repBits, FirstCustomBit);
      archive := archive + items;
      outSuccess, ok := true, true;
    }

    /**
     * NetSerialize on a loading archive: reads the mask, the world origin when bit 6 is set,
     * then every custom field whose bit is set; returns the items left, and always succeeds.
     */
    method NetSerializeLoad(archive: seq<ArchiveItem>) returns (rest: seq<ArchiveItem>, outSuccess: bool, ok: bool)
      modifies this
      ensures ContextLoad(fields, rest) == LoadArchive(old(fields), archive)
      ensures outSuccess && ok
    {
      var repBits := ReadMask(Next(archive), MaskWidth);
      var f := fields;
      rest := Rest(archive);
      ghost var afterMask := rest;
      if WorldOriginBit in repBits {
        f := f.(worldOrigin := AsVec(Decode(VecField(f.worldOrigin), Next(rest))));
        rest := Rest(rest);
        f := f.(hasWorldOrigin := true);
      } else {
        f := f.(hasWorldOrigin := false);
      }
      ghost var items := rest;
      var loaded;
      loaded, rest := ReadFields(Wire(f), repBits, FirstCustomBit, rest);
      LoadInSteps(fields, archive, f, items, loaded, rest);
      fields := FromWire(f, loaded);
      outSuccess, ok := true, true;
    }
  }
}
