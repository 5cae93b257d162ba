/**
 * FAriaMainDamageEffectContext: the damage half of the split effect context (hit flags,
 * damage type, radial damage, knockback), with its NetSerialize over an 18-bit presence mask.
 */
module MainDamageEffectContext {
  import opened UnrealMath
  import opened Tags
  import opened Wrappers
  import opened NetArchive

  /** The bit of the world origin; the custom fields take the bits from FirstCustomBit on. */
  const WorldOriginBit: nat := 6
  const FirstCustomBit: nat := 7
  /** The number of bits `SerializeBits` writes. */
  const MaskWidth: nat := 18

  /** The replicated state of an FAriaMainDamageEffectContext: the world origin, then the custom fields in bit order. */
  datatype DamageContextFields = DamageContextFields(
    hasWorldOrigin: bool,
    worldOrigin: Vec,
    isDodgedHit: bool,
    isBlockedHit: bool,
    isCriticalHit: bool,
    damageType: Option<Tag>,
    isRadialDamage: bool,
    radialDamageMinimumAmt: real,
    radialDamageInnerRadius: real,
    radialDamageOuterRadius: real,
    radialDamageOrigin: Vec,
    knockbackForce: Vec,
    deathImpulse: Vec)

  /** Every field as a newly constructed context holds it. */
  const FreshFields := DamageContextFields(false, ZeroVector, false, false, false, None, false, 0.0, 0.0, 0.0, ZeroVector, ZeroVector, ZeroVector)

  /** Custom field i, as it travels under bit FirstCustomBit + i. */
  function WireAt(f: DamageContextFields, i: nat): WireField
    requires i < 11
  {
    if i < 5 then
      if i < 2 then
        if i == 0 then BoolField(f.isDodgedHit) else BoolField(f.isBlockedHit)
      else
        if i < 3 then
          BoolField(f.isCriticalHit)
        else
          if i == 3 then TagField(f.damageType) else BoolField(f.isRadialDamage)
    else
      if i < 8 then
        if i < 6 then
          FloatField(f.radialDamageMinimumAmt)
        else
          if i == 6 then FloatField(f.radialDamageInnerRadius) else FloatField(f.radialDamageOuterRadius)
      else
        if i < 9 then
          VecField(f.radialDamageOrigin)
        else
          if i == 9 then VecField(f.knockbackForce) else VecField(f.deathImpulse)
  }

  /** The custom fields in bit order. */
  function Wire(f: DamageContextFields): (r: seq<WireField>)
    ensures |r| == 11
    ensures forall i :: 0 <= i < 11 ==> r[i] == WireAt(f, i)
  {
    seq(11, i requires 0 <= i < 11 => WireAt(f, i))
  }

  /** Stores the values of `ws` into the custom fields of `g`. */
  function FromWire(g: DamageContextFields, ws: seq<WireField>): DamageContextFields
    requires |ws| == 11
  {
    g.(isDodgedHit := AsBool(ws[0]),
       isBlockedHit := AsBool(ws[1]),
       isCriticalHit := AsBool(ws[2]),
       damageType := AsTag(ws[3]),
       isRadialDamage := AsBool(ws[4]),
       radialDamageMinimumAmt := AsFloat(ws[5]),
       radialDamageInnerRadius := AsFloat(ws[6]),
       radialDamageOuterRadius := AsFloat(ws[7]),
       radialDamageOrigin := AsVec(ws[8]),
       knockbackForce := AsVec(ws[9]),
       deathImpulse := AsVec(ws[10]))
  }

  /** The mask saving `f` writes: bit k is set exactly when the field sent under k is not at its default. */
  function SavedBits(f: DamageContextFields): (r: set<nat>)
    ensures forall k :: k in r ==> WorldOriginBit <= k < MaskWidth
    ensures WorldOriginBit in r <==> f.hasWorldOrigin
    ensures forall i :: 0 <= i < 11 ==> (FirstCustomBit + i in r <==> IsSet(WireAt(f, i)))
  {
    (if f.hasWorldOrigin then {WorldOriginBit} else {}) + Mask(Wire(f), FirstCustomBit)
  }

  /** The archive saving `f` produces: the mask, the world origin when present, then the sent fields in bit order. */
  function SavedArchive(f: DamageContextFields): seq<ArchiveItem>
  {
    [MaskItem(SavedBits(f))] + (if f.hasWorldOrigin then [VecItem(f.worldOrigin)] else [])
    + Written(Wire(f), SavedBits(f), FirstCustomBit)
  }

  /** The context after a load, and the archive items left after it. */
  datatype ContextLoad = ContextLoad(fields: DamageContextFields, rest: seq<ArchiveItem>)

  /** The world origin part of a load from an archive whose rest, after the mask, is `items`. */
  function LoadOrigin(f: DamageContextFields, bits: set<nat>, items: seq<ArchiveItem>): DamageContextFields
  {
    f.(hasWorldOrigin := WorldOriginBit in bits,
       worldOrigin := if WorldOriginBit in bits then AsVec(Decode(VecField(f.worldOrigin), Next(items))) else f.worldOrigin)
  }

  /** Loading the world origin leaves the custom fields, and so their wire form, alone. */
  lemma OriginKeepsWire(f: DamageContextFields, bits: set<nat>, items: seq<ArchiveItem>)
    ensures Wire(LoadOrigin(f, bits, items)) == Wire(f)
  {
    assert forall i :: 0 <= i < 11 ==> WireAt(LoadOrigin(f, bits, items), i) == WireAt(f, i);
  }

  /** Loading the world origin and storing the custom fields commute. */
  lemma OriginCommutes(f: DamageContextFields, ws: seq<WireField>, bits: set<nat>, items: seq<ArchiveItem>)
    requires |ws| == 11
    ensures FromWire(LoadOrigin(f, bits, items), ws) == LoadOrigin(FromWire(f, ws), bits, items)
  {
  }

  /**
   * The load may equally read the world origin first, as NetSerialize does, and the custom
   * fields after it.
   */
  lemma LoadInSteps(f: DamageContextFields, archive: seq<ArchiveItem>, g: DamageContextFields, items: seq<ArchiveItem>, loaded: seq<WireField>, rest: seq<ArchiveItem>)
    requires g == LoadOrigin(f, ReadMask(Next(archive), MaskWidth), Rest(archive))
    requires items == if WorldOriginBit in ReadMask(Next(archive), MaskWidth) then Rest(Rest(archive)) else Rest(archive)
    requires Loaded(loaded, rest) == Load(Wire(g), ReadMask(Next(archive), MaskWidth), FirstCustomBit, items)
    ensures |loaded| == 11
    ensures LoadArchive(f, archive) == ContextLoad(FromWire(g, loaded), rest)
  {
    var bits := ReadMask(Next(archive), MaskWidth);
    OriginKeepsWire(f, bits, Rest(archive));
    OriginCommutes(f, loaded, bits, Rest(archive));
  }

  /** Loading `archive` into a context holding `f`. */
  function LoadArchive(f: DamageContextFields, archive: seq<ArchiveItem>): ContextLoad
  {
    var bits := ReadMask(Next(archive), MaskWidth);
    var custom := Load(Wire(f), bits, FirstCustomBit, if WorldOriginBit in bits then Rest(Rest(archive)) else Rest(archive));
    ContextLoad(LoadOrigin(FromWire(f, custom.fields), bits, Rest(archive)), custom.rest)
  }

  /**
   * What a fresh context holds after loading what `f` saved: every field comes back, except
   * that the three radial-damage floats come back as 0 when they are not positive and an
   * absent world origin stays the zero vector.
   */
  function Restored(f: DamageContextFields): DamageContextFields
  {
    f.(worldOrigin := if f.hasWorldOrigin then f.worldOrigin else ZeroVector,
       radialDamageMinimumAmt := MaxR(f.radialDamageMinimumAmt, 0.0),
       radialDamageInnerRadius := MaxR(f.radialDamageInnerRadius, 0.0),
       radialDamageOuterRadius := MaxR(f.radialDamageOuterRadius, 0.0))
  }

  /**
   * What a context holding `g` holds after loading what `f` saved: the world origin as `f`
   * has it, each field `f` sent (its bit set) with `f`'s value, and every other field as `g`
   * has it.
   */
  function Received(g: DamageContextFields, f: DamageContextFields): DamageContextFields
  {
    g.(hasWorldOrigin := f.hasWorldOrigin,
       worldOrigin := if f.hasWorldOrigin then f.worldOrigin else g.worldOrigin,
       isDodgedHit := if f.isDodgedHit then f.isDodgedHit else g.isDodgedHit,
       isBlockedHit := if f.isBlockedHit then f.isBlockedHit else g.isBlockedHit,
       isCriticalHit := if f.isCriticalHit then f.isCriticalHit else g.isCriticalHit,
       damageType := if f.damageType.Some? then f.damageType else g.damageType,
       isRadialDamage := if f.isRadialDamage then f.isRadialDamage else g.isRadialDamage,
       radialDamageMinimumAmt := if f.radialDamageMinimumAmt > 0.0 then f.radialDamageMinimumAmt else g.radialDamageMinimumAmt,
       radialDamageInnerRadius := if f.radialDamageInnerRadius > 0.0 then f.radialDamageInnerRadius else g.radialDamageInnerRadius,
       radialDamageOuterRadius := if f.radialDamageOuterRadius > 0.0 then f.radialDamageOuterRadius else g.radialDamageOuterRadius,
       radialDamageOrigin := if !IsZero(f.radialDamageOrigin) then f.radialDamageOrigin else g.radialDamageOrigin,
       knockbackForce := if !IsZero(f.knockbackForce) then f.knockbackForce else g.knockbackForce,
       deathImpulse := if !IsZero(f.deathImpulse) then f.deathImpulse else g.deathImpulse)
  }

  /** Every custom field whose bit is clear in `bits` holds in `r` what it holds in `f`. */
  predicate UnsentKept(r: DamageContextFields, f: DamageContextFields, bits: set<nat>)
  {
    (7 !in bits ==> r.isDodgedHit == f.isDodgedHit)
    && (8 !in bits ==> r.isBlockedHit == f.isBlockedHit)
    && (9 !in bits ==> r.isCriticalHit == f.isCriticalHit)
    && (10 !in bits ==> r.damageType == f.damageType)
    && (11 !in bits ==> r.isRadialDamage == f.isRadialDamage)
    && (12 !in bits ==> r.radialDamageMinimumAmt == f.radialDamageMinimumAmt)
    && (13 !in bits ==> r.radialDamageInnerRadius == f.radialDamageInnerRadius)
    && (14 !in bits ==> r.radialDamageOuterRadius == f.radialDamageOuterRadius)
    && (15 !in bits ==> r.radialDamageOrigin == f.radialDamageOrigin)
    && (16 !in bits ==> r.knockbackForce == f.knockbackForce)
    && (17 !in bits ==> r.deathImpulse == f.deathImpulse)
  }

  /** Every tag pointer whose bit is set in `bits` is non-null in `r`. */
  predicate SentTagsAllocated(r: DamageContextFields, bits: set<nat>)
  {
    (10 in bits ==> r.damageType.Some?)
  }

  /** Storing a wire form that agrees with `g` on the clear bits changes none of those fields. */
  lemma FromWireKeeps(g: DamageContextFields, ws: seq<WireField>, bits: set<nat>)
    requires |ws| == 11
    requires forall i :: 0 <= i < 11 && FirstCustomBit + i !in bits ==> ws[i] == Wire(g)[i]
    requires forall i :: 0 <= i < 11 && FirstCustomBit + i in bits && Wire(g)[i].TagField? ==> ws[i].TagField? && ws[i].t.Some?
    requires forall i :: 0 <= i < 11 ==> SameKind(ws[i], Wire(g)[i])
    ensures UnsentKept(FromWire(g, ws), g, bits)
    ensures SentTagsAllocated(FromWire(g, ws), bits)
  {
    assert Wire(g)[0] == BoolField(g.isDodgedHit);
    assert Wire(g)[1] == BoolField(g.isBlockedHit);
    assert Wire(g)[2] == BoolField(g.isCriticalHit);
    assert Wire(g)[3] == TagField(g.damageType);
    assert Wire(g)[4] == BoolField(g.isRadialDamage);
    assert Wire(g)[5] == FloatField(g.radialDamageMinimumAmt);
    assert Wire(g)[6] == FloatField(g.radialDamageInnerRadius);
    assert Wire(g)[7] == FloatField(g.radialDamageOuterRadius);
    assert Wire(g)[8] == VecField(g.radialDamageOrigin);
    assert Wire(g)[9] == VecField(g.knockbackForce);
    assert Wire(g)[10] == VecField(g.deathImpulse);
  }

  /** The wire form a context holding `g` stores after loading what `f` saved. */
  function RestoredWire(g: DamageContextFields, f: DamageContextFields): (r: seq<WireField>)
    ensures |r| == 11
  {
    seq(11, i requires 0 <= i < 11 => Restore(WireAt(g, i), WireAt(f, i)))
  }

  /** Custom fields 0 to 5 come back as Received describes. */
  lemma FromWireRestores0(g: DamageContextFields, f: DamageContextFields)
    ensures FromWire(g, RestoredWire(g, f)).isDodgedHit == Received(g, f).isDodgedHit
    ensures FromWire(g, RestoredWire(g, f)).isBlockedHit == Received(g, f).isBlockedHit
    ensures FromWire(g, RestoredWire(g, f)).isCriticalHit == Received(g, f).isCriticalHit
    ensures FromWire(g, RestoredWire(g, f)).damageType == Received(g, f).damageType
    ensures FromWire(g, RestoredWire(g, f)).isRadialDamage == Received(g, f).isRadialDamage
    ensures FromWire(g, RestoredWire(g, f)).radialDamageMinimumAmt == Received(g, f).radialDamageMinimumAmt
  {
  }

  /** Custom fields 6 to 10 come back as Received describes. */
  lemma FromWireRestores1(g: DamageContextFields, f: DamageContextFields)
    ensures FromWire(g, RestoredWire(g, f)).radialDamageInnerRadius == Received(g, f).radialDamageInnerRadius
    ensures FromWire(g, RestoredWire(g, f)).radialDamageOuterRadius == Received(g, f).radialDamageOuterRadius
    ensures FromWire(g, RestoredWire(g, f)).radialDamageOrigin == Received(g, f).radialDamageOrigin
    ensures FromWire(g, RestoredWire(g, f)).knockbackForce == Received(g, f).knockbackForce
    ensures FromWire(g, RestoredWire(g, f)).deathImpulse == Received(g, f).deathImpulse
  {
  }

  /** Storing, field by field, what loading the items `f` saved gives, yields what Received describes. */
  lemma FromWireRestores(g: DamageContextFields, f: DamageContextFields)
    ensures WithOriginOf(FromWire(g, RestoredWire(g, f)), f) == Received(g, f)
  {
    FromWireRestores0(g, f);
    FromWireRestores1(g, f);
  }

  /** Loading the custom fields from any items keeps those whose bit is clear and allocates the sent tags. */
  lemma LoadedKeeps(f: DamageContextFields, bits: set<nat>, items: seq<ArchiveItem>)
    ensures UnsentKept(FromWire(f, Load(Wire(f), bits, FirstCustomBit, items).fields), f, bits)
    ensures SentTagsAllocated(FromWire(f, Load(Wire(f), bits, FirstCustomBit, items).fields), bits)
  {
    LoadFieldwise(Wire(f), bits, FirstCustomBit, items);
    FromWireKeeps(f, Load(Wire(f), bits, FirstCustomBit, items).fields, bits);
  }

  /** Loading the world origin touches no custom field. */
  lemma LoadOriginKeeps(r: DamageContextFields, f: DamageContextFields, bits: set<nat>, items: seq<ArchiveItem>)
    requires UnsentKept(r, f, bits)
    requires SentTagsAllocated(r, bits)
    ensures UnsentKept(LoadOrigin(r, bits, items), f, bits)
    ensures SentTagsAllocated(LoadOrigin(r, bits, items), bits)
  {
  }

  /**
   * Loading any archive: bHasWorldOrigin follows bit 6, a field whose bit is clear keeps its
   * value, and a tag whose bit is set is allocated.
   */
  lemma LoadKeepsUnsent(f: DamageContextFields, archive: seq<ArchiveItem>)
    ensures LoadArchive(f, archive).fields.hasWorldOrigin <==> WorldOriginBit in ReadMask(Next(archive), MaskWidth)
    ensures WorldOriginBit !in ReadMask(Next(archive), MaskWidth) ==> LoadArchive(f, archive).fields.worldOrigin == f.worldOrigin
    ensures UnsentKept(LoadArchive(f, archive).fields, f, ReadMask(Next(archive), MaskWidth))
    ensures SentTagsAllocated(LoadArchive(f, archive).fields, ReadMask(Next(archive), MaskWidth))
  {
    var bits := ReadMask(Next(archive), MaskWidth);
    var items := if WorldOriginBit in bits then Rest(Rest(archive)) else Rest(archive);
    var r := FromWire(f, Load(Wire(f), bits, FirstCustomBit, items).fields);
    LoadedKeeps(f, bits, items);
    assert LoadArchive(f, archive).fields == LoadOrigin(r, bits, Rest(archive));
    LoadOriginKeeps(r, f, bits, Rest(archive));
  }

  /** The origin a context holding `g` ends up with after loading what `f` saved. */
  function WithOriginOf(g: DamageContextFields, f: DamageContextFields): DamageContextFields
  {
    g.(hasWorldOrigin := f.hasWorldOrigin, worldOrigin := if f.hasWorldOrigin then f.worldOrigin else g.worldOrigin)
  }

  /** Loading what `f` saved, into a context holding `g`, reads the custom fields back from the items written. */
  lemma LoadSaved(g: DamageContextFields, f: DamageContextFields, rest: seq<ArchiveItem>)
    ensures var custom := Load(Wire(g), SavedBits(f), FirstCustomBit, Written(Wire(f), SavedBits(f), FirstCustomBit) + rest);
            LoadArchive(g, SavedArchive(f) + rest) == ContextLoad(WithOriginOf(FromWire(g, custom.fields), f), custom.rest)
  {
    var bits := SavedBits(f);
    ReadMaskFits(bits, MaskWidth);
    var origin: seq<ArchiveItem> := if f.hasWorldOrigin then [VecItem(f.worldOrigin)] else [];
    var written := Written(Wire(f), bits, FirstCustomBit);
    var archive := SavedArchive(f) + rest;
    assert archive == [MaskItem(bits)] + (origin + (written + rest));
    assert Next(archive) == Some(MaskItem(bits));
    assert Rest(archive) == origin + (written + rest);
    if f.hasWorldOrigin {
      assert Next(Rest(archive)) == Some(VecItem(f.worldOrigin));
      assert Rest(Rest(archive)) == written + rest;
    } else {
      assert Rest(archive) == written + rest;
    }
    var custom := Load(Wire(g), bits, FirstCustomBit, written + rest);
    assert LoadOrigin(FromWire(g, custom.fields), bits, Rest(archive)) == WithOriginOf(FromWire(g, custom.fields), f);
  }

  /** The custom items `f` saved read back, over a context holding `g`, as RestoredWire. */
  lemma LoadWrittenFields(g: DamageContextFields, f: DamageContextFields, rest: seq<ArchiveItem>)
    ensures Load(Wire(g), SavedBits(f), FirstCustomBit, Written(Wire(f), SavedBits(f), FirstCustomBit) + rest)
            == Loaded(RestoredWire(g, f), rest)
  {
    var bits := SavedBits(f);
    LoadWritten(Wire(g), Wire(f), bits, FirstCustomBit, rest);
    var l := Load(Wire(g), bits, FirstCustomBit, Written(Wire(f), bits, FirstCustomBit) + rest);
    assert l.fields == RestoredWire(g, f);
  }

  /**
   * Saving then loading into any context gives what Received describes, and leaves what
   * followed the saved items unread.
   */
  lemma SaveLoad(g: DamageContextFields, f: DamageContextFields, rest: seq<ArchiveItem>)
    ensures LoadArchive(g, SavedArchive(f) + rest) == ContextLoad(Received(g, f), rest)
  {
    LoadSaved(g, f, rest);
    LoadWrittenFields(g, f, rest);
    FromWireRestores(g, f);
  }

  /** Received and Restored agree on a freshly constructed receiver. */
  lemma ReceivedFresh(f: DamageContextFields)
    ensures Received(FreshFields, f) == Restored(f)
  {
  }

  /** Saving then loading into a freshly constructed context yields Restored(f). */
  lemma RoundTrip(f: DamageContextFields, rest: seq<ArchiveItem>)
    ensures LoadArchive(FreshFields, SavedArchive(f) + rest) == ContextLoad(Restored(f), rest)
  {
    SaveLoad(FreshFields, f, rest);
    ReceivedFresh(f);
  }

  /**
   * FAriaMainDamageEffectContext. Its members are held together as one record value in `fields`;
   * every setter replaces one member of it in place, and each getter is a read of one member.
   */
  class AriaMainDamageEffectContext {
    /** bIsAriaMainDamageEffectContext: never changed. */
    const isAriaMainDamageEffectContext := true
    
    var fields: DamageContextFields

    /** Default member initialisers: false, 0, zero vectors, Disabled and null tag pointers. */
    constructor()
      ensures fields == FreshFields
    {
      fields := FreshFields;
    }

    method SetIsDodgedHit(v: bool)
      modifies this
      ensures fields == old(fields).(isDodgedHit := v)
    {
      fields := fields.(isDodgedHit := v);
    }

    method SetIsBlockedHit(v: bool)
      modifies this
      ensures fields == old(fields).(isBlockedHit := v)
    {
      fields := fields.(isBlockedHit := v);
    }

    method SetIsCriticalHit(v: bool)
      modifies this
      ensures fields == old(fields).(isCriticalHit := v)
    {
      fields := fields.(isCriticalHit := v);
    }

    method SetDamageType(v: Option<Tag>)
      modifies this
      ensures fields == old(fields).(damageType := v)
    {
      fields := fields.(damageType := v);
    }

    method SetIsRadialDamage(v: bool)
      modifies this
      ensures fields == old(fields).(isRadialDamage := v)
    {
      fields := fields.(isRadialDamage := v);
    }

    method SetRadialDamageMinimumAmt(v: real)
      modifies this
      ensures fields == old(fields).(radialDamageMinimumAmt := v)
    {
      fields := fields.(radialDamageMinimumAmt := v);
    }

    method SetRadialDamageInnerRadius(v: real)
      modifies this
      ensures fields == old(fields).(radialDamageInnerRadius := v)
    {
      fields := fields.(radialDamageInnerRadius := v);
    }

    method SetRadialDamageOuterRadius(v: real)
      modifies this
      ensures fields == old(fields).(radialDamageOuterRadius := v)
    {
      fields := fields.(radialDamageOuterRadius := v);
    }

    method SetRadialDamageOrigin(v: Vec)
      modifies this
      ensures fields == old(fields).(radialDamageOrigin := v)
    {
      fields := fields.(radialDamageOrigin := v);
    }

    method SetKnockbackForce(v: Vec)
      modifies this
      ensures fields == old(fields).(knockbackForce := v)
    {
      fields := fields.(knockbackForce := v);
    }

    method SetDeathImpulse(v: Vec)
      modifies this
      ensures fields == old(fields).(deathImpulse := v)
    {
      fields := fields.(deathImpulse := v);
    }

    /** A new context whose members are a copy of this one's (`*NewContext = *this`). */
    method Duplicate() returns (c: AriaMainDamageEffectContext)
      ensures fresh(c) && c.fields == fields
    {
      c := new AriaMainDamageEffectContext();
      c.fields := fields;
    }

    /** NetSerialize on a saving archive: returns the items written, and always succeeds. */
    method NetSerializeSave() returns (archive: seq<ArchiveItem>, outSuccess: bool, ok: bool)
      ensures archive == SavedArchive(fields)
      ensures outSuccess && ok
    {
      var repBits: set<nat> := {};
      if fields.hasWorldOrigin {
        repBits := repBits + {WorldOriginBit};
      }
      var wire := Wire(fields);
      repBits := AddMaskBits(repBits, wire, FirstCustomBit);
      assert repBits == SavedBits(fields);
      archive := [MaskItem(repBits)];
      if WorldOriginBit in repBits {
        archive := archive + [VecItem(fields.worldOrigin)];
      }
      var items := WriteFields(wire, repBits, FirstCustomBit);
      archive := archive + items;
      outSuccess, ok := true, true;
    }

    /**
     * NetSerialize on a loading archive: reads the mask, the world origin when bit 6 is set,
     * then every custom field whose bit is set; returns the items left, and always succeeds.
     */
    method NetSerializeLoad(archive: seq<ArchiveItem>) returns (rest: seq<ArchiveItem>, outSuccess: bool, ok: bool)
      modifies this
      ensures ContextLoad(fields, rest) == LoadArchive(old(fields), archive)
      ensures outSuccess && ok
    {
      var repBits := ReadMask(Next(archive), MaskWidth);
      var f := fields;
      rest := Rest(archive);
      ghost var afterMask := rest;
      if WorldOriginBit in repBits {
        f := f.(worldOrigin := AsVec(Decode(VecField(f.worldOrigin), Next(rest))));
        rest := Rest(rest);
        f := f.(hasWorldOrigin := true);
      } else {
        f := f.(hasWorldOrigin := false);
      }
      ghost var items := rest;
      var loaded;
      loaded, rest := ReadFields(Wire(f), repBits, FirstCustomBit, rest);
      LoadInSteps(fields, archive, f, items, loaded, rest);
      fields := FromWire(f, loaded);
      outSuccess, ok := true, true;
    }
  }
}
