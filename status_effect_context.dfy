/**
 * FAriaStatusEffectContext: the status-effect half of the split effect context, with its
 * NetSerialize over a 26-bit presence mask.
 */
module StatusEffectContext {
  import opened UnrealMath
  import opened Tags
  import opened Wrappers
  import opened NetArchive
  import opened AbilityTypes

  /** The bit of the world origin; the custom fields take the bits from FirstCustomBit on. */
  const WorldOriginBit: nat := 6
  const FirstCustomBit: nat := 7
  /** The number of bits `SerializeBits` writes. */
  const MaskWidth: nat := 26

  /** The replicated state of an FAriaStatusEffectContext: the world origin, then the custom fields in bit order. */
  datatype StatusContextFields = StatusContextFields(
    hasWorldOrigin: bool,
    worldOrigin: Vec,
    isStatusEffectApplied: bool,
    statusEffectType: Option<Tag>,
    statusEffectDuration: real,
    statusEffectFrequency: real,
    damagedAttributeType: Option<Tag>,
    damagedAttributeAmount: real,
    additionalDamageTrigger: AdditionalDamageTriggers,
    additionalDamageAmount: real,
    randomlyMissActions: RandomlyMissAnyActions,
    randomMissPercentage: real,
    randomlyStopActions: RandomlyStopAnyActions,
    reducedActionPercentage: real,
    stopAllActions: StopAllActions,
    reducedMovementSpeed: real,
    randomizeMovements: bool,
    runFromTarget: bool,
    instantKillTarget: bool,
    reducedLevels: int,
    forceAIControl: bool)

  /** Every field as a newly constructed context holds it. */
  const FreshFields := StatusContextFields(false, ZeroVector, false, None, 0.0, 0.0, None, 0.0, AdditionalDamageTriggers.Disabled, 0.0, RandomlyMissAnyActions.Disabled, 0.0, RandomlyStopAnyActions.Disabled, 0.0, StopAllActions.Disabled, 0.0, false, false, false, 0, false)

  /** Custom field i, as it travels under bit FirstCustomBit + i. */
  function WireAt(f: StatusContextFields, i: nat): WireField
    requires i < 19
  {
    if i < 9 then
      if i < 4 then
        if i < 2 then
          if i == 0 then BoolField(f.isStatusEffectApplied) else TagField(f.statusEffectType)
        else
          if i == 2 then FloatField(f.statusEffectDuration) else FloatField(f.statusEffectFrequency)
      else
        if i < 6 then
          if i == 4 then TagField(f.damagedAttributeType) else FloatField(f.damagedAttributeAmount)
        else
          if i < 7 then
            EnumField(f.additionalDamageTrigger.Ord())
          else
            if i == 7 then FloatField(f.additionalDamageAmount) else EnumField(f.randomlyMissActions.Ord())
    else
      if i < 14 then
        if i < 11 then
          if i == 9 then FloatField(f.randomMissPercentage) else EnumField(f.randomlyStopActions.Ord())
        else
          if i < 12 then
            FloatField(f.reducedActionPercentage)
          else
            if i == 12 then EnumField(f.stopAllActions.Ord()) else FloatField(f.reducedMovementSpeed)
      else
        if i < 16 then
          if i == 14 then BoolField(f.randomizeMovements) else BoolField(f.runFromTarget)
        else
          if i < 17 then
            BoolField(f.instantKillTarget)
          else
            if i == 17 then IntField(f.reducedLevels) else BoolField(f.forceAIControl)
  }

  /** The custom fields in bit order. */
  function Wire(f: StatusContextFields): (r: seq<WireField>)
    ensures |r| == 19
    ensures forall i :: 0 <= i < 19 ==> r[i] == WireAt(f, i)
  {
    seq(19, i requires 0 <= i < 19 => WireAt(f, i))
  }

  /** Stores the values of `ws` into the custom fields of `g`; the enums are never stored. */
  function FromWire(g: StatusContextFields, ws: seq<WireField>): StatusContextFields
    requires |ws| == 19
  {
    g.(isStatusEffectApplied := AsBool(ws[0]),
       statusEffectType := AsTag(ws[1]),
       statusEffectDuration := AsFloat(ws[2]),
       statusEffectFrequency := AsFloat(ws[3]),
       damagedAttributeType := AsTag(ws[4]),
       damagedAttributeAmount := AsFloat(ws[5]),
       additionalDamageAmount := AsFloat(ws[7]),
       randomMissPercentage := AsFloat(ws[9]),
       reducedActionPercentage := AsFloat(ws[11]),
       reducedMovementSpeed := AsFloat(ws[13]),
       randomizeMovements := AsBool(ws[14]),
       runFromTarget := AsBool(ws[15]),
       instantKillTarget := AsBool(ws[16]),
       reducedLevels := AsInt(ws[17]),
       forceAIControl := AsBool(ws[18]))
  }

  /** The mask saving `f` writes: bit k is set exactly when the field sent under k is not at its default. */
  function SavedBits(f: StatusContextFields): (r: set<nat>)
    ensures forall k :: k in r ==> WorldOriginBit <= k < MaskWidth
    ensures WorldOriginBit in r <==> f.hasWorldOrigin
    ensures forall i :: 0 <= i < 19 ==> (FirstCustomBit + i in r <==> IsSet(WireAt(f, i)))
  {
    (if f.hasWorldOrigin then {WorldOriginBit} else {}) + Mask(Wire(f), FirstCustomBit)
  }

  /** The archive saving `f` produces: the mask, the world origin when present, then the sent fields in bit order. */
  function SavedArchive(f: StatusContextFields): seq<ArchiveItem>
  {
    [MaskItem(SavedBits(f))] + (if f.hasWorldOrigin then [VecItem(f.worldOrigin)] else [])
    + Written(Wire(f), SavedBits(f), FirstCustomBit)
  }

  /** The context after a load, and the archive items left after it. */
  datatype ContextLoad = ContextLoad(fields: StatusContextFields, rest: seq<ArchiveItem>)

  /** The world origin part of a load from an archive whose rest, after the mask, is `items`. */
  function LoadOrigin(f: StatusContextFields, bits: set<nat>, items: seq<ArchiveItem>): StatusContextFields
  {
    f.(hasWorldOrigin := WorldOriginBit in bits,
       worldOrigin := if WorldOriginBit in bits then AsVec(Decode(VecField(f.worldOrigin), Next(items))) else f.worldOrigin)
  }

  /** Loading the world origin leaves the custom fields, and so their wire form, alone. */
  lemma OriginKeepsWire(f: StatusContextFields, bits: set<nat>, items: seq<ArchiveItem>)
    ensures Wire(LoadOrigin(f, bits, items)) == Wire(f)
  {
    assert forall i :: 0 <= i < 19 ==> WireAt(LoadOrigin(f, bits, items), i) == WireAt(f, i);
  }

  /** Loading the world origin and storing the custom fields commute. */
  lemma OriginCommutes(f: StatusContextFields, ws: seq<WireField>, bits: set<nat>, items: seq<ArchiveItem>)
    requires |ws| == 19
    ensures FromWire(LoadOrigin(f, bits, items), ws) == LoadOrigin(FromWire(f, ws), bits, items)
  {
  }

  /**
   * The load may equally read the world origin first, as NetSerialize does, and the custom
   * fields after it.
   */
  lemma LoadInSteps(f: StatusContextFields, archive: seq<ArchiveItem>, g: StatusContextFields, items: seq<ArchiveItem>, loaded: seq<WireField>, rest: seq<ArchiveItem>)
    requires g == LoadOrigin(f, ReadMask(Next(archive), MaskWidth), Rest(archive))
    requires items == if WorldOriginBit in ReadMask(Next(archive), MaskWidth) then Rest(Rest(archive)) else Rest(archive)
    requires Loaded(loaded, rest) == Load(Wire(g), ReadMask(Next(archive), MaskWidth), FirstCustomBit, items)
    ensures |loaded| == 19
    ensures LoadArchive(f, archive) == ContextLoad(FromWire(g, loaded), rest)
  {
    var bits := ReadMask(Next(archive), MaskWidth);
    OriginKeepsWire(f, bits, Rest(archive));
    OriginCommutes(f, loaded, bits, Rest(archive));
  }

  /** Loading `archive` into a context holding `f`. */
  function LoadArchive(f: StatusContextFields, archive: seq<ArchiveItem>): ContextLoad
  {
    var bits := ReadMask(Next(archive), MaskWidth);
    var custom := Load(Wire(f), bits, FirstCustomBit, if WorldOriginBit in bits then Rest(Rest(archive)) else Rest(archive));
    ContextLoad(LoadOrigin(FromWire(f, custom.fields), bits, Rest(archive)), custom.rest)
  }

  /**
   * What a fresh context holds after loading what `f` saved: every field comes back, except
   * that floats and ints that are not positive come back as 0, the enums stay Disabled and
   * an absent world origin stays the zero vector.
   */
  function Restored(f: StatusContextFields): StatusContextFields
  {
    f.(worldOrigin := if f.hasWorldOrigin then f.worldOrigin else ZeroVector,
       statusEffectDuration := MaxR(f.statusEffectDuration, 0.0),
       statusEffectFrequency := MaxR(f.statusEffectFrequency, 0.0),
       damagedAttributeAmount := MaxR(f.damagedAttributeAmount, 0.0),
       additionalDamageTrigger := AdditionalDamageTriggers.Disabled,
       additionalDamageAmount := MaxR(f.additionalDamageAmount, 0.0),
       randomlyMissActions := RandomlyMissAnyActions.Disabled,
       randomMissPercentage := MaxR(f.randomMissPercentage, 0.0),
       randomlyStopActions := RandomlyStopAnyActions.Disabled,
       reducedActionPercentage := MaxR(f.reducedActionPercentage, 0.0),
       stopAllActions := StopAllActions.Disabled,
       reducedMovementSpeed := MaxR(f.reducedMovementSpeed, 0.0),
       reducedLevels := if f.reducedLevels > 0 then f.reducedLevels else 0)
  }

  /**
   * What a context holding `g` holds after loading what `f` saved: the world origin as `f`
   * has it, each field `f` sent (its bit set) with `f`'s value, every other field and every
   * enum as `g` has it.
   */
  function Received(g: StatusContextFields, f: StatusContextFields): StatusContextFields
  {
    g.(hasWorldOrigin := f.hasWorldOrigin,
       worldOrigin := if f.hasWorldOrigin then f.worldOrigin else g.worldOrigin,
       isStatusEffectApplied := if f.isStatusEffectApplied then f.isStatusEffectApplied else g.isStatusEffectApplied,
       statusEffectType := if f.statusEffectType.Some? then f.statusEffectType else g.statusEffectType,
       statusEffectDuration := if f.statusEffectDuration > 0.0 then f.statusEffectDuration else g.statusEffectDuration,
       statusEffectFrequency := if f.statusEffectFrequency > 0.0 then f.statusEffectFrequency else g.statusEffectFrequency,
       damagedAttributeType := if f.damagedAttributeType.Some? then f.damagedAttributeType else g.damagedAttributeType,
       damagedAttributeAmount := if f.damagedAttributeAmount > 0.0 then f.damagedAttributeAmount else g.damagedAttributeAmount,
       additionalDamageAmount := if f.additionalDamageAmount > 0.0 then f.additionalDamageAmount else g.additionalDamageAmount,
       randomMissPercentage := if f.randomMissPercentage > 0.0 then f.randomMissPercentage else g.randomMissPercentage,
       reducedActionPercentage := if f.reducedActionPercentage > 0.0 then f.reducedActionPercentage else g.reducedActionPercentage,
       reducedMovementSpeed := if f.reducedMovementSpeed > 0.0 then f.reducedMovementSpeed else g.reducedMovementSpeed,
       randomizeMovements := if f.randomizeMovements then f.randomizeMovements else g.randomizeMovements,
       runFromTarget := if f.runFromTarget then f.runFromTarget else g.runFromTarget,
       instantKillTarget := if f.instantKillTarget then f.instantKillTarget else g.instantKillTarget,
       reducedLevels := if f.reducedLevels > 0 then f.reducedLevels else g.reducedLevels,
       forceAIControl := if f.forceAIControl then f.forceAIControl else g.forceAIControl)
  }

  /** Every custom field whose bit is clear in `bits` holds in `r` what it holds in `f`. */
  predicate UnsentKept(r: StatusContextFields, f: StatusContextFields, bits: set<nat>)
  {
    (7 !in bits ==> r.isStatusEffectApplied == f.isStatusEffectApplied)
    && (8 !in bits ==> r.statusEffectType == f.statusEffectType)
    && (9 !in bits ==> r.statusEffectDuration == f.statusEffectDuration)
    && (10 !in bits ==> r.statusEffectFrequency == f.statusEffectFrequency)
    && (11 !in bits ==> r.damagedAttributeType == f.damagedAttributeType)
    && (12 !in bits ==> r.damagedAttributeAmount == f.damagedAttributeAmount)
    && (14 !in bits ==> r.additionalDamageAmount == f.additionalDamageAmount)
    && (16 !in bits ==> r.randomMissPercentage == f.randomMissPercentage)
    && (18 !in bits ==> r.reducedActionPercentage == f.reducedActionPercentage)
    && (20 !in bits ==> r.reducedMovementSpeed == f.reducedMovementSpeed)
    && (21 !in bits ==> r.randomizeMovements == f.randomizeMovements)
    && (22 !in bits ==> r.runFromTarget == f.runFromTarget)
    && (23 !in bits ==> r.instantKillTarget == f.instantKillTarget)
    && (24 !in bits ==> r.reducedLevels == f.reducedLevels)
    && (25 !in bits ==> r.forceAIControl == f.forceAIControl)
  }

  /** Every tag pointer whose bit is set in `bits` is non-null in `r`. */
  predicate SentTagsAllocated(r: StatusContextFields, bits: set<nat>)
  {
    (8 in bits ==> r.statusEffectType.Some?)
    && (11 in bits ==> r.damagedAttributeType.Some?)
  }

  /** Storing a wire form that agrees with `g` on the clear bits changes none of those fields. */
  lemma FromWireKeeps(g: StatusContextFields, ws: seq<WireField>, bits: set<nat>)
    requires |ws| == 19
    requires forall i :: 0 <= i < 19 && FirstCustomBit + i !in bits ==> ws[i] == Wire(g)[i]
    requires forall i :: 0 <= i < 19 && FirstCustomBit + i in bits && Wire(g)[i].TagField? ==> ws[i].TagField? && ws[i].t.Some?
    requires forall i :: 0 <= i < 19 ==> SameKind(ws[i], Wire(g)[i])
    ensures UnsentKept(FromWire(g, ws), g, bits)
    ensures SentTagsAllocated(FromWire(g, ws), bits)
  {
    assert Wire(g)[0] == BoolField(g.isStatusEffectApplied);
    assert Wire(g)[1] == TagField(g.statusEffectType);
    assert Wire(g)[2] == FloatField(g.statusEffectDuration);
    assert Wire(g)[3] == FloatField(g.statusEffectFrequency);
    assert Wire(g)[4] == TagField(g.damagedAttributeType);
    assert Wire(g)[5] == FloatField(g.damagedAttributeAmount);
    assert Wire(g)[7] == FloatField(g.additionalDamageAmount);
    assert Wire(g)[9] == FloatField(g.randomMissPercentage);
    assert Wire(g)[11] == FloatField(g.reducedActionPercentage);
    assert Wire(g)[13] == FloatField(g.reducedMovementSpeed);
    assert Wire(g)[14] == BoolField(g.randomizeMovements);
    assert Wire(g)[15] == BoolField(g.runFromTarget);
    assert Wire(g)[16] == BoolField(g.instantKillTarget);
    assert Wire(g)[17] == IntField(g.reducedLevels);
    assert Wire(g)[18] == BoolField(g.forceAIControl);
  }

  /** The wire form a context holding `g` stores after loading what `f` saved. */
  function RestoredWire(g: StatusContextFields, f: StatusContextFields): (r: seq<WireField>)
    ensures |r| == 19
  {
    seq(19, i requires 0 <= i < 19 => Restore(WireAt(g, i), WireAt(f, i)))
  }

  /** Custom fields 0 to 5 come back as Received describes. */
  lemma FromWireRestores0(g: StatusContextFields, f: StatusContextFields)
    ensures FromWire(g, RestoredWire(g, f)).isStatusEffectApplied == Received(g, f).isStatusEffectApplied
    ensures FromWire(g, RestoredWire(g, f)).statusEffectType == Received(g, f).statusEffectType
    ensures FromWire(g, RestoredWire(g, f)).statusEffectDuration == Received(g, f).statusEffectDuration
    ensures FromWire(g, RestoredWire(g, f)).statusEffectFrequency == Received(g, f).statusEffectFrequency
    ensures FromWire(g, RestoredWire(g, f)).damagedAttributeType == Received(g, f).damagedAttributeType
    ensures FromWire(g, RestoredWire(g, f)).damagedAttributeAmount == Received(g, f).damagedAttributeAmount
  {
  }

  /** Custom fields 7 to 15 come back as Received describes. */
  lemma FromWireRestores1(g: StatusContextFields, f: StatusContextFields)
    ensures FromWire(g, RestoredWire(g, f)).additionalDamageAmount == Received(g, f).additionalDamageAmount
    ensures FromWire(g, RestoredWire(g, f)).randomMissPercentage == Received(g, f).randomMissPercentage
    ensures FromWire(g, RestoredWire(g, f)).reducedActionPercentage == Received(g, f).reducedActionPercentage
    ensures FromWire(g, RestoredWire(g, f)).reducedMovementSpeed == Received(g, f).reducedMovementSpeed
    ensures FromWire(g, RestoredWire(g, f)).randomizeMovements == Received(g, f).randomizeMovements
    ensures FromWire(g, RestoredWire(g, f)).runFromTarget == Received(g, f).runFromTarget
  {
  }

  /** Custom fields 16 to 18 come back as Received describes. */
  lemma FromWireRestores2(g: StatusContextFields, f: StatusContextFields)
    ensures FromWire(g, RestoredWire(g, f)).instantKillTarget == Received(g, f).instantKillTarget
    ensures FromWire(g, RestoredWire(g, f)).reducedLevels == Received(g, f).reducedLevels
    ensures FromWire(g, RestoredWire(g, f)).forceAIControl == Received(g, f).forceAIControl
  {
  }

  /** Storing, field by field, what loading the items `f` saved gives, yields what Received describes. */
  lemma FromWireRestores(g: StatusContextFields, f: StatusContextFields)
    ensures WithOriginOf(FromWire(g, RestoredWire(g, f)), f) == Received(g, f)
  {
    FromWireRestores0(g, f);
    FromWireRestores1(g, f);
    FromWireRestores2(g, f);
  }

  /** Loading the custom fields from any items keeps those whose bit is clear and allocates the sent tags. */
  lemma LoadedKeeps(f: StatusContextFields, bits: set<nat>, items: seq<ArchiveItem>)
    ensures UnsentKept(FromWire(f, Load(Wire(f), bits, FirstCustomBit, items).fields), f, bits)
    ensures SentTagsAllocated(FromWire(f, Load(Wire(f), bits, FirstCustomBit, items).fields), bits)
  {
    LoadFieldwise(Wire(f), bits, FirstCustomBit, items);
    FromWireKeeps(f, Load(Wire(f), bits, FirstCustomBit, items).fields, bits);
  }

  /** Loading the world origin touches no custom field. */
  lemma LoadOriginKeeps(r: StatusContextFields, f: StatusContextFields, bits: set<nat>, items: seq<ArchiveItem>)
    requires UnsentKept(r, f, bits)
    requires SentTagsAllocated(r, bits)
    ensures UnsentKept(LoadOrigin(r, bits, items), f, bits)
    ensures SentTagsAllocated(LoadOrigin(r, bits, items), bits)
  {
  }

  /**
   * Loading any archive: bHasWorldOrigin follows bit 6, a field whose bit is clear keeps its
   * value, a tag whose bit is set is allocated, and the enums are never updated.
   */
  lemma LoadKeepsUnsent(f: StatusContextFields, archive: seq<ArchiveItem>)
    ensures LoadArchive(f, archive).fields.hasWorldOrigin <==> WorldOriginBit in ReadMask(Next(archive), MaskWidth)
    ensures WorldOriginBit !in ReadMask(Next(archive), MaskWidth) ==> LoadArchive(f, archive).fields.worldOrigin == f.worldOrigin
    ensures UnsentKept(LoadArchive(f, archive).fields, f, ReadMask(Next(archive), MaskWidth))
    ensures SentTagsAllocated(LoadArchive(f, archive).fields, ReadMask(Next(archive), MaskWidth))
    ensures LoadArchive(f, archive).fields.additionalDamageTrigger == f.additionalDamageTrigger
    ensures LoadArchive(f, archive).fields.randomlyMissActions == f.randomlyMissActions
    ensures LoadArchive(f, archive).fields.randomlyStopActions == f.randomlyStopActions
    ensures LoadArchive(f, archive).fields.stopAllActions == f.stopAllActions
  {
    var bits := ReadMask(Next(archive), MaskWidth);
    var items := if WorldOriginBit in bits then Rest(Rest(archive)) else Rest(archive);
    var r := FromWire(f, Load(Wire(f), bits, FirstCustomBit, items).fields);
    LoadedKeeps(f, bits, items);
    assert LoadArchive(f, archive).fields == LoadOrigin(r, bits, Rest(archive));
    LoadOriginKeeps(r, f, bits, Rest(archive));
  }

  /** The origin a context holding `g` ends up with after loading what `f` saved. */
  function WithOriginOf(g: StatusContextFields, f: StatusContextFields): StatusContextFields
  {
    g.(hasWorldOrigin := f.hasWorldOrigin, worldOrigin := if f.hasWorldOrigin then f.worldOrigin else g.worldOrigin)
  }

  /** Loading what `f` saved, into a context holding `g`, reads the custom fields back from the items written. */
  lemma LoadSaved(g: StatusContextFields, f: StatusContextFields, rest: seq<ArchiveItem>)
    ensures var custom := Load(Wire(g), SavedBits(f), FirstCustomBit, Written(Wire(f), SavedBits(f), FirstCustomBit) + rest);
            LoadArchive(g, SavedArchive(f) + rest) == ContextLoad(WithOriginOf(FromWire(g, custom.fields), f), custom.rest)
  {
    var bits := SavedBits(f);
    ReadMaskFits(bits, MaskWidth);
    var origin: seq<ArchiveItem> := if f.hasWorldOrigin then [VecItem(f.worldOrigin)] else [];
    var written := Written(Wire(f), bits, FirstCustomBit);
    var archive := SavedArchive(f) + rest;
    assert archive == [MaskItem(bits)] + (origin + (written + rest));
    assert Next(archive) == Some(MaskItem(bits));
    assert Rest(archive) == origin + (written + rest);
    if f.hasWorldOrigin {
      assert Next(Rest(archive)) == Some(VecItem(f.worldOrigin));
      assert Rest(Rest(archive)) == written + rest;
    } else {
      assert Rest(archive) == written + rest;
    }
    var custom := Load(Wire(g), bits, FirstCustomBit, written + rest);
    assert LoadOrigin(FromWire(g, custom.fields), bits, Rest(archive)) == WithOriginOf(FromWire(g, custom.fields), f);
  }

  /** The custom items `f` saved read back, over a context holding `g`, as RestoredWire. */
  lemma LoadWrittenFields(g: StatusContextFields, f: StatusContextFields, rest: seq<ArchiveItem>)
    ensures Load(Wire(g), SavedBits(f), FirstCustomBit, Written(Wire(f), SavedBits(f), FirstCustomBit) + rest)
            == Loaded(RestoredWire(g, f), rest)
  {
    var bits := SavedBits(f);
    LoadWritten(Wire(g), Wire(f), bits, FirstCustomBit, rest);
    var l := Load(Wire(g), bits, FirstCustomBit, Written(Wire(f), bits, FirstCustomBit) + rest);
    assert l.fields == RestoredWire(g, f);
  }

  /**
   * Saving then loading into any context gives what Received describes, and leaves what
   * followed the saved items unread.
   */
  lemma SaveLoad(g: StatusContextFields, f: StatusContextFields, rest: seq<ArchiveItem>)
    ensures LoadArchive(g, SavedArchive(f) + rest) == ContextLoad(Received(g, f), rest)
  {
    LoadSaved(g, f, rest);
    LoadWrittenFields(g, f, rest);
    FromWireRestores(g, f);
  }

  /** Received and Restored agree on a freshly constructed receiver. */
  lemma ReceivedFresh(f: StatusContextFields)
    ensures Received(FreshFields, f) == Restored(f)
  {
  }

  /** Saving then loading into a freshly constructed context yields Restored(f). */
  lemma RoundTrip(f: StatusContextFields, rest: seq<ArchiveItem>)
    ensures LoadArchive(FreshFields, SavedArchive(f) + rest) == ContextLoad(Restored(f), rest)
  {
    SaveLoad(FreshFields, f, rest);
    ReceivedFresh(f);
  }

  /**
   * FAriaStatusEffectContext. Its members are held together as one record value in `fields`;
   * every setter replaces one member of it in place, and each getter is a read of one member.
   */
  class AriaStatusEffectContext {
    /** bIsAriaStatusEffectContext: never changed. */
    const isAriaStatusEffectContext := true
    
    var fields: StatusContextFields

    /** Default member initialisers: false, 0, zero vectors, Disabled and null tag pointers. */
    constructor()
      ensures fields == FreshFields
    {
      fields := FreshFields;
    }

    method SetIsStatusEffectApplied(v: bool)
      modifies this
      ensures fields == old(fields).(isStatusEffectApplied := v)
    {
      fields := fields.(isStatusEffectApplied := v);
    }

    method SetStatusEffectType(v: Option<Tag>)
      modifies this
      ensures fields == old(fields).(statusEffectType := v)
    {
      fields := fields.(statusEffectType := v);
    }

    method SetStatusEffectDuration(v: real)
      modifies this
      ensures fields == old(fields).(statusEffectDuration := v)
    {
      fields := fields.(statusEffectDuration := v);
    }

    method SetStatusEffectFrequency(v: real)
      modifies this
      ensures fields == old(fields).(statusEffectFrequency := v)
    {
      fields := fields.(statusEffectFrequency := v);
    }

    /** Ignores a null pointer; stores any other. */
    method SetDamagedAttributeType(v: Option<Tag>)
      modifies this
      ensures v.None? ==> fields == old(fields)
      ensures v.Some? ==> fields == old(fields).(damagedAttributeType := v)
    {
      if v.None? {
        return;
      }
      fields := fields.(damagedAttributeType := v);
    }

    method SetDamagedAttributeAmount(v: real)
      modifies this
      ensures fields == old(fields).(damagedAttributeAmount := v)
    {
      fields := fields.(damagedAttributeAmount := v);
    }

    method SetAdditionalDamageTrigger(v: AdditionalDamageTriggers)
      modifies this
      ensures fields == old(fields).(additionalDamageTrigger := v)
    {
      fields := fields.(additionalDamageTrigger := v);
    }

    method SetAdditionalDamageAmount(v: real)
      modifies this
      ensures fields == old(fields).(additionalDamageAmount := v)
    {
      fields := fields.(additionalDamageAmount := v);
    }

    method SetRandomlyMissActions(v: RandomlyMissAnyActions)
      modifies this
      ensures fields == old(fields).(randomlyMissActions := v)
    {
      fields := fields.(randomlyMissActions := v);
    }

    method SetRandomMissPercentage(v: real)
      modifies this
      ensures fields == old(fields).(randomMissPercentage := v)
    {
      fields := fields.(randomMissPercentage := v);
    }

    method SetRandomlyStopActions(v: RandomlyStopAnyActions)
      modifies this
      ensures fields == old(fields).(randomlyStopActions := v)
    {
      fields := fields.(randomlyStopActions := v);
    }

    method SetReducedActionPercentage(v: real)
      modifies this
      ensures fields == old(fields).(reducedActionPercentage := v)
    {
      fields := fields.(reducedActionPercentage := v);
    }

    method SetStopAllActions(v: StopAllActions)
      modifies this
      ensures fields == old(fields).(stopAllActions := v)
    {
      fields := fields.(stopAllActions := v);
    }

    method SetReducedMovementSpeed(v: real)
      modifies this
      ensures fields == old(fields).(reducedMovementSpeed := v)
    {
      fields := fields.(reducedMovementSpeed := v);
    }

    method SetIsRandomizeMovements(v: bool)
      modifies this
      ensures fields == old(fields).(randomizeMovements := v)
    {
      fields := fields.(randomizeMovements := v);
    }

    method SetIsRunFromTarget(v: bool)
      modifies this
      ensures fields == old(fields).(runFromTarget := v)
    {
      fields := fields.(runFromTarget := v);
    }

    method SetIsInstantKillTarget(v: bool)
      modifies this
      ensures fields == old(fields).(instantKillTarget := v)
    {
      fields := fields.(instantKillTarget := v);
    }

    /** Stores a float into the int32 member, truncating it toward zero. */
    method SetReducedLevels(levels: real)
      modifies this
      ensures fields == old(fields).(reducedLevels := TruncToInt(levels))
    {
      fields := fields.(reducedLevels := TruncToInt(levels));
    }

    method SetIsIForceAIControl(v: bool)
      modifies this
      ensures fields == old(fields).(forceAIControl := v)
    {
      fields := fields.(forceAIControl := v);
    }

    /** A new context whose members are a copy of this one's (`*NewContext = *this`). */
    method Duplicate() returns (c: AriaStatusEffectContext)
      ensures fresh(c) && c.fields == fields
    {
      c := new AriaStatusEffectContext();
      c.fields := fields;
    }

    /** NetSerialize on a saving archive: returns the items written, and always succeeds. */
    method NetSerializeSave() returns (archive: seq<ArchiveItem>, outSuccess: bool, ok: bool)
      ensures archive == SavedArchive(fields)
      ensures outSuccess && ok
    {
      var repBits: set<nat> := {};
      if fields.hasWorldOrigin {
        repBits := repBits + {WorldOriginBit};
      }
      var wire := Wire(fields);
      repBits := AddMaskBits(repBits, wire, FirstCustomBit);
      assert repBits == SavedBits(fields);
      archive := [MaskItem(repBits)];
      if WorldOriginBit in repBits {
        archive := archive + [VecItem(fields.worldOrigin)];
      }
      var items := WriteFields(wire, repBits, FirstCustomBit);
      archive := archive + items;
      outSuccess, ok := true, true;
    }

    /**
     * NetSerialize on a loading archive: reads the mask, the world origin when bit 6 is set,
     * then every custom field whose bit is set; returns the items left, and always succeeds.
     */
    method NetSerializeLoad(archive: seq<ArchiveItem>) returns (rest: seq<ArchiveItem>, outSuccess: bool, ok: bool)
      modifies this
      ensures ContextLoad(fields, rest) == LoadArchive(old(fields), archive)
      ensures outSuccess && ok
    {
      var repBits := ReadMask(Next(archive), MaskWidth);
      var f := fields;
      rest := Rest(archive);
      ghost var afterMask := rest;
      if WorldOriginBit in repBits {
        f := f.(worldOrigin := AsVec(Decode(VecField(f.worldOrigin), Next(rest))));
        rest := Rest(rest);
        f := f.(hasWorldOrigin := true);
      } else {
        f := f.(hasWorldOrigin := false);
      }
      ghost var items := rest;
      var loaded;
      loaded, rest := ReadFields(Wire(f), repBits, FirstCustomBit, rest);
      LoadInSteps(fields, archive, f, items, loaded, rest);
      fields := FromWire(f, loaded);
      outSuccess, ok := true, true;
    }
  }
}
