/**
 * The shared shape of the effect contexts' NetSerialize: a presence mask built from the
 * field values, then every field whose bit is set written (or read) in ascending bit order.
 * The archive is a sequence of typed items; its byte-level format is not modelled.
 */
module NetArchive {
  import opened UnrealMath
  import opened Tags
  import opened Wrappers

  /** One value as it travels through an FArchive. */
  datatype ArchiveItem =
    | MaskItem(bits: set<nat>)   // Ar.SerializeBits(&RepBits, width): the positions of the set bits
    | BoolItem(b: bool)
    | FloatItem(f: real)
    | VecItem(v: Vec)
    | TagItem(t: Tag)
    | ByteItem(n: nat)
    | IntItem(i: int)

  /** A replicated field of an effect context, in the form the serializer treats it. */
  datatype WireField =
    | BoolField(b: bool)
    | FloatField(f: real)
    | VecField(v: Vec)
    | TagField(t: Option<Tag>)   // a TSharedPtr<FGameplayTag>; None is the null pointer
    | EnumField(e: nat)          // a uint8 enum; 0 is Disabled
    | IntField(i: int)

  predicate SameKind(a: WireField, b: WireField)
  {
    (a.BoolField? && b.BoolField?) || (a.FloatField? && b.FloatField?) || (a.VecField? && b.VecField?)
    || (a.TagField? && b.TagField?) || (a.EnumField? && b.EnumField?) || (a.IntField? && b.IntField?)
  }

  /** The test that sets a field's bit when saving: true, > 0, non-zero, non-null, not Disabled. */
  predicate IsSet(w: WireField)
  {
    match w
    case BoolField(b) => b
    case FloatField(f) => f > 0.0
    case VecField(v) => !IsZero(v)
    case TagField(t) => t.Some?
    case EnumField(e) => e != 0
    case IntField(i) => i > 0
  }

  /** A field's value in a newly constructed context. */
  function Default(w: WireField): (r: WireField)
    ensures SameKind(r, w) && !IsSet(r)
  {
    match w
    case BoolField(_) => BoolField(false)
    case FloatField(_) => FloatField(0.0)
    case VecField(_) => VecField(ZeroVector)
    case TagField(_) => TagField(None)
    case EnumField(_) => EnumField(0)
    case IntField(_) => IntField(0)
  }

  /** `Ar << field` when saving; a tag is only ever written through a non-null pointer. */
  function Encode(w: WireField): ArchiveItem
  {
    match w
    case BoolField(b) => BoolItem(b)
    case FloatField(f) => FloatItem(f)
    case VecField(v) => VecItem(v)
    case TagField(t) => TagItem(if t.Some? then t.value else EmptyTag)
    case EnumField(e) => ByteItem(e)
    case IntField(i) => IntItem(i)
  }

  /**
   * `Ar << field` when loading into a field that holds `w`. A missing or mismatched item reads
   * as zero. A null tag pointer is allocated before the tag is read into it; an enum is read
   * into a local copy, so the field keeps its value.
   */
  function Decode(w: WireField, x: Option<ArchiveItem>): (r: WireField)
    ensures SameKind(r, w)
    ensures w.EnumField? ==> r == w
    ensures w.TagField? ==> r.t.Some?
  {
    match w
    case BoolField(_) => BoolField(x.Some? && x.value.BoolItem? && x.value.b)
    case FloatField(_) => FloatField(if x.Some? && x.value.FloatItem? then x.value.f else 0.0)
    case VecField(_) => VecField(if x.Some? && x.value.VecItem? then x.value.v else ZeroVector)
    case TagField(_) => TagField(Some(if x.Some? && x.value.TagItem? then x.value.t else EmptyTag))
    case EnumField(_) => w
    case IntField(_) => IntField(if x.Some? && x.value.IntItem? then x.value.i else 0)
  }

  /** The value a field carries, read back out of its wire form (a mismatched kind reads as zero). */
  function AsBool(w: WireField): bool { w.BoolField? && w.b }

  function AsFloat(w: WireField): real { if w.FloatField? then w.f else 0.0 }

  function AsVec(w: WireField): Vec { if w.VecField? then w.v else ZeroVector }

  function AsTag(w: WireField): Option<Tag> { if w.TagField? then w.t else None }

  function AsInt(w: WireField): int { if w.IntField? then w.i else 0 }

  /** Loading the item saved for `w` into a field of the same kind yields `w` if it went out, and keeps the field otherwise. */
  lemma RestoreSameKind(c: WireField, w: WireField)
    requires SameKind(c, w)
    ensures Restore(c, w) == if IsSet(w) && !w.EnumField? then w else c
  {
  }

  /** The next item of an archive being read, if any. */
  function Next(items: seq<ArchiveItem>): Option<ArchiveItem>
  {
    if |items| > 0 then Some(items[0]) else None
  }

  function Rest(items: seq<ArchiveItem>): seq<ArchiveItem>
  {
    if |items| > 0 then items[1..] else []
  }

  /** Reading `SerializeBits(&RepBits, width)`: only the low `width` bits come through. */
  function ReadMask(x: Option<ArchiveItem>, width: nat): (r: set<nat>)
    ensures forall k :: k in r ==> k < width
    ensures x.Some? && x.value.MaskItem? ==> forall k :: k in x.value.bits && k < width ==> k in r
  {
    if x.Some? && x.value.MaskItem? then set k | k in x.value.bits && k < width else {}
  }

  /** A mask that fits its width is read back unchanged. */
  lemma ReadMaskFits(bits: set<nat>, width: nat)
    requires forall k :: k in bits ==> k < width
    ensures ReadMask(Some(MaskItem(bits)), width) == bits
  {
  }

  /** The bits the fields `ws` set when they occupy positions `first`, `first + 1`, ... */
  function Mask(ws: seq<WireField>, first: nat): (r: set<nat>)
    ensures forall k :: k in r <==> first <= k < first + |ws| && IsSet(ws[k - first])
    decreases |ws|
  {
    if |ws| == 0 then {} else (if IsSet(ws[0]) then {first} else {}) + Mask(ws[1..], first + 1)
  }

  /** The items saved for the fields whose bits are in `bits`, in ascending bit order. */
  function Written(ws: seq<WireField>, bits: set<nat>, first: nat): seq<ArchiveItem>
    decreases |ws|
  {
    if |ws| == 0 then []
    else (if first in bits then [Encode(ws[0])] else []) + Written(ws[1..], bits, first + 1)
  }

  datatype Loaded = Loaded(fields: seq<WireField>, rest: seq<ArchiveItem>)

  /**
   * Loading fields that hold `cur` from `items`: a field is read only when its bit is set, and
   * the unread items are returned.
   */
  function Load(cur: seq<WireField>, bits: set<nat>, first: nat, items: seq<ArchiveItem>): (r: Loaded)
    ensures |r.fields| == |cur|
    decreases |cur|
  {
    if |cur| == 0 then Loaded([], items)
    else
      var head := if first in bits then Decode(cur[0], Next(items)) else cur[0];
      var tail := Load(cur[1..], bits, first + 1, if first in bits then Rest(items) else items);
      Loaded([head] + tail.fields, tail.rest)
  }

  /**
   * Loading keeps every field's kind; a field whose bit is clear, and every enum, keeps its
   * value; a tag whose bit is set ends up non-null.
   */
  lemma {:induction false} LoadFieldwise(cur: seq<WireField>, bits: set<nat>, first: nat, items: seq<ArchiveItem>)
    ensures forall i :: 0 <= i < |cur| ==> SameKind(Load(cur, bits, first, items).fields[i], cur[i])
    ensures forall i :: 0 <= i < |cur| && first + i !in bits ==> Load(cur, bits, first, items).fields[i] == cur[i]
    ensures forall i :: 0 <= i < |cur| && cur[i].EnumField? ==> Load(cur, bits, first, items).fields[i] == cur[i]
    ensures forall i :: 0 <= i < |cur| && first + i in bits && cur[i].TagField? ==>
              Load(cur, bits, first, items).fields[i].TagField? && Load(cur, bits, first, items).fields[i].t.Some?
    decreases |cur|
  {
    if |cur| > 0 {
      var next := if first in bits then Rest(items) else items;
      LoadFieldwise(cur[1..], bits, first + 1, next);
      var r := Load(cur, bits, first, items);
      var t := Load(cur[1..], bits, first + 1, next);
      forall i | 0 < i < |cur|
        ensures r.fields[i] == t.fields[i - 1] && cur[1..][i - 1] == cur[i]
      {
      }
    }
  }

  /** What loading the item saved for `w` does to a field holding `c`. */
  function Restore(c: WireField, w: WireField): WireField
  {
    if IsSet(w) then Decode(c, Some(Encode(w))) else c
  }

  /**
   * Loading what was saved reads back, field by field, exactly the items written, and leaves
   * whatever followed them in the archive.
   */
  lemma {:induction false} LoadWritten(cur: seq<WireField>, ws: seq<WireField>, bits: set<nat>, first: nat,
                                       rest: seq<ArchiveItem>)
    requires |cur| == |ws|
    requires forall i :: 0 <= i < |ws| ==> (first + i in bits <==> IsSet(ws[i]))
    ensures forall i :: 0 <= i < |ws| ==>
              Load(cur, bits, first, Written(ws, bits, first) + rest).fields[i] == Restore(cur[i], ws[i])
    ensures Load(cur, bits, first, Written(ws, bits, first) + rest).rest == rest
    decreases |ws|
  {
    if |ws| > 0 {
      var tailItems := Written(ws[1..], bits, first + 1) + rest;
      var items := Written(ws, bits, first) + rest;
      if first in bits {
        assert items == [Encode(ws[0])] + tailItems;
        assert Next(items) == Some(Encode(ws[0])) && Rest(items) == tailItems;
      } else {
        assert items == tailItems;
      }
      assert forall i :: 0 <= i < |ws[1..]| ==> (first + 1 + i in bits <==> IsSet(ws[1..][i])) by {
        forall i | 0 <= i < |ws[1..]| ensures first + 1 + i in bits <==> IsSet(ws[1..][i]) {
          assert ws[1..][i] == ws[i + 1];
        }
      }
      LoadWritten(cur[1..], ws[1..], bits, first + 1, rest);
      var r := Load(cur, bits, first, items);
      var t := Load(cur[1..], bits, first + 1, tailItems);
      assert r.fields == [r.fields[0]] + t.fields;
      forall i | 0 <= i < |ws|
        ensures r.fields[i] == Restore(cur[i], ws[i])
      {
        if i > 0 {
          assert r.fields[i] == t.fields[i - 1];
          assert cur[1..][i - 1] == cur[i] && ws[1..][i - 1] == ws[i];
        }
      }
    }
  }

  /** `RepBits |= 1 << k` for every field `ws[k - first]` that is set, one field after the other. */
  method AddMaskBits(repBits: set<nat>, ws: seq<WireField>, first: nat) returns (bits: set<nat>)
    ensures bits == repBits + Mask(ws, first)
  {
    bits := repBits;
    for i := 0 to |ws|
      invariant forall k :: k in bits <==> k in repBits || (first <= k < first + i && IsSet(ws[k - first]))
    {
      if IsSet(ws[i]) {
        bits := bits + {first + i};
      }
    }
  }

  /** `Ar << field` while saving, for every field whose bit is set, in ascending bit order. */
  method WriteFields(ws: seq<WireField>, bits: set<nat>, first: nat) returns (items: seq<ArchiveItem>)
    ensures items == Written(ws, bits, first)
  {
    items := [];
    for i := 0 to |ws|
      invariant items + Written(ws[i..], bits, first + i) == Written(ws, bits, first)
    {
      assert ws[i..][1..] == ws[i + 1..];
      var item := if first + i in bits then [Encode(ws[i])] else [];
      assert Written(ws[i..], bits, first + i) == item + Written(ws[i + 1..], bits, first + i + 1);
      items := items + item;
    }
    assert ws[|ws|..] == [];
  }

  /** The fields `fields` read before the ones `l` describes. */
  function Appended(fields: seq<WireField>, l: Loaded): Loaded
  {
    Loaded(fields + l.fields, l.rest)
  }

  lemma LoadCons(cur: seq<WireField>, bits: set<nat>, first: nat, items: seq<ArchiveItem>)
    requires |cur| > 0
    ensures Load(cur, bits, first, items)
            == if first in bits then Appended([Decode(cur[0], Next(items))], Load(cur[1..], bits, first + 1, Rest(items)))
               else Appended([cur[0]], Load(cur[1..], bits, first + 1, items))
  {
  }

  lemma AppendedTwice(a: seq<WireField>, b: seq<WireField>, l: Loaded)
    ensures Appended(a, Appended(b, l)) == Appended(a + b, l)
  {
    assert a + (b + l.fields) == (a + b) + l.fields;
  }

  /**
   * The loading loop's invariant: the fields read so far, followed by loading the fields from
   * `i` on out of what is left of the archive, give the whole load.
   */
  predicate ReadSoFar(fields: seq<WireField>, cur: seq<WireField>, bits: set<nat>, first: nat, i: nat,
                      rest: seq<ArchiveItem>, whole: Loaded)
  {
    i <= |cur| && Appended(fields, Load(cur[i..], bits, first + i, rest)) == whole
  }

  /** Before the loop nothing has been read, and the whole load is still ahead. */
  lemma ReadStart(cur: seq<WireField>, bits: set<nat>, first: nat, items: seq<ArchiveItem>)
    ensures ReadSoFar([], cur, bits, first, 0, items, Load(cur, bits, first, items))
  {
    assert cur[0..] == cur;
    assert [] + Load(cur, bits, first, items).fields == Load(cur, bits, first, items).fields;
  }

  /** One step of the loading loop: the field at `i` is read (or kept) and the rest follows. */
  lemma ReadStep(fields: seq<WireField>, cur: seq<WireField>, bits: set<nat>, first: nat, i: nat, rest: seq<ArchiveItem>,
                 field: WireField, next: seq<ArchiveItem>, whole: Loaded)
    requires i < |cur|
    requires field == if first + i in bits then Decode(cur[i], Next(rest)) else cur[i]
    requires next == if first + i in bits then Rest(rest) else rest
    requires ReadSoFar(fields, cur, bits, first, i, rest, whole)
    ensures ReadSoFar(fields + [field], cur, bits, first, i + 1, next, whole)
  {
    assert cur[i..][1..] == cur[i + 1..];
    LoadCons(cur[i..], bits, first + i, rest);
    assert cur[i..][0] == cur[i];
    assert Load(cur[i..], bits, first + i, rest) == Appended([field], Load(cur[i + 1..], bits, first + i + 1, next));
    AppendedTwice(fields, [field], Load(cur[i + 1..], bits, first + i + 1, next));
  }

  /** After the loop every field has been read: what was read is the whole load. */
  lemma ReadEnd(fields: seq<WireField>, cur: seq<WireField>, bits: set<nat>, first: nat, rest: seq<ArchiveItem>, whole: Loaded)
    requires ReadSoFar(fields, cur, bits, first, |cur|, rest, whole)
    ensures Loaded(fields, rest) == whole
  {
    assert cur[|cur|..] == [];
    assert fields + [] == fields;
  }

  /** `Ar << field` while loading, for every field whose bit is set, in ascending bit order. */
  method ReadFields(cur: seq<WireField>, bits: set<nat>, first: nat, items: seq<ArchiveItem>)
    returns (fields: seq<WireField>, rest: seq<ArchiveItem>)
    ensures Loaded(fields, rest) == Load(cur, bits, first, items)
  {
    fields, rest := [], items;
    ReadStart(cur, bits, first, items);
    for i := 0 to |cur|
      invariant ReadSoFar(fields, cur, bits, first, i, rest, Load(cur, bits, first, items))
    {
      var field := if first + i in bits then Decode(cur[i], Next(rest)) else cur[i];
      var next := if first + i in bits then Rest(rest) else rest;
      ReadStep(fields, cur, bits, first, i, rest, field, next, Load(cur, bits, first, items));
      fields, rest := fields + [field], next;
    }
    ReadEnd(fields, cur, bits, first, rest, Load(cur, bits, first, items));
  }
}
