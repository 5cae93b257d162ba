/**
 * FAriaEffectContextAggregator: an effect context holding shared pointers to a main-damage
 * context and a status-effect context, either of which may be null. Its serialiser runs the
 * main context's serialiser and then the status context's over the same archive.
 */
module EffectContextAggregator {
  import opened Wrappers
  import opened NetArchive
  import MainDamageEffectContext
  import StatusEffectContext

  /**
   * One `bOutSuccess &= Ctx.IsValid() && Ctx->NetSerialize(Ar, Map, bOutSuccess)` line as
   * C++17 evaluates it: the right operand runs first, and a present sub-context's serialiser
   * overwrites bOutSuccess with true and returns true before the old value is read.
   */
  function CombineAsWritten(outSuccess: bool, present: bool): (r: bool)
    ensures present ==> r
    ensures !present ==> !r
  {
    var rhs := present;
    var successAfterRhs := if present then true else outSuccess;
    successAfterRhs && rhs
  }

  /** The success the serialiser reports, as written: true, combined with main then status. */
  function SuccessAsWritten(hasMain: bool, hasStatus: bool): (r: bool)
  {
    CombineAsWritten(CombineAsWritten(true, hasMain), hasStatus)
  }

  /** The reported success depends on the status context alone. */
  lemma SuccessAsWrittenIsStatus(hasMain: bool, hasStatus: bool)
    ensures SuccessAsWritten(hasMain, hasStatus) <==> hasStatus
  {
  }

  /** A missing main context next to a present status context is reported as success. */
  lemma MissingMainReportedAsSuccess()
    ensures SuccessAsWritten(false, true)
    ensures !SuccessIntended(false, true)
  {
  }

  /**
   * The evidently intended combination: the sub-serialiser's result is taken into a temporary
   * first, so `&=` accumulates over the earlier value instead of one the call overwrote.
   */
  function CombineIntended(outSuccess: bool, present: bool): (r: bool)
    ensures r <==> outSuccess && present
  {
    var subResult := present;
    outSuccess && subResult
  }

  function SuccessIntended(hasMain: bool, hasStatus: bool): (r: bool)
  {
    CombineIntended(CombineIntended(true, hasMain), hasStatus)
  }

  /** With the intended combination, success means both sub-contexts were serialised. */
  lemma SuccessIntendedBoth(hasMain: bool, hasStatus: bool)
    ensures SuccessIntended(hasMain, hasStatus) <==> hasMain && hasStatus
  {
  }

  /**
   * An aggregator holding both contexts, saved and then loaded into one holding both: each
   * context receives what it saved, in the sense of its own Received, and the items that
   * followed are left unread.
   */
  lemma SaveLoadBoth(gm: MainDamageEffectContext.DamageContextFields, fm: MainDamageEffectContext.DamageContextFields,
                     gs: StatusEffectContext.StatusContextFields, fs: StatusEffectContext.StatusContextFields,
                     rest: seq<ArchiveItem>)
    ensures MainDamageEffectContext.LoadArchive(gm, MainDamageEffectContext.SavedArchive(fm) + StatusEffectContext.SavedArchive(fs) + rest)
            == MainDamageEffectContext.ContextLoad(MainDamageEffectContext.Received(gm, fm), StatusEffectContext.SavedArchive(fs) + rest)
    ensures StatusLoadRest(Some(gs), StatusEffectContext.SavedArchive(fs) + rest) == rest
    ensures StatusEffectContext.LoadArchive(gs, StatusEffectContext.SavedArchive(fs) + rest)
            == StatusEffectContext.ContextLoad(StatusEffectContext.Received(gs, fs), rest)
  {
    var tail := StatusEffectContext.SavedArchive(fs) + rest;
    assert MainDamageEffectContext.SavedArchive(fm) + StatusEffectContext.SavedArchive(fs) + rest
        == MainDamageEffectContext.SavedArchive(fm) + tail;
    MainDamageEffectContext.SaveLoad(gm, fm, tail);
    StatusEffectContext.SaveLoad(gs, fs, rest);
  }

  class AriaEffectContextAggregator {
    var mainDamageContext: MainDamageEffectContext.AriaMainDamageEffectContext?
    var statusEffectContext: StatusEffectContext.AriaStatusEffectContext?

    /** The defaulted constructor: both shared pointers null. */
    constructor()
      ensures mainDamageContext == null && statusEffectContext == null
    {
      mainDamageContext := null;
      statusEffectContext := null;
    }

    method SetMainDamageContext(c: MainDamageEffectContext.AriaMainDamageEffectContext?)
      modifies this
      ensures mainDamageContext == c
      ensures statusEffectContext == old(statusEffectContext)
    {
      mainDamageContext := c;
    }

    method SetStatusEffectContext(c: StatusEffectContext.AriaStatusEffectContext?)
      modifies this
      ensures statusEffectContext == c
      ensures mainDamageContext == old(mainDamageContext)
    {
      statusEffectContext := c;
    }

    /** A copy of the struct: the copy shares both sub-contexts with the original. */
    method Duplicate() returns (c: AriaEffectContextAggregator)
      ensures fresh(c)
      ensures c.mainDamageContext == mainDamageContext
      ensures c.statusEffectContext == statusEffectContext
    {
      c := new AriaEffectContextAggregator();
      c.mainDamageContext := mainDamageContext;
      c.statusEffectContext := statusEffectContext;
    }

    /**
     * NetSerialize while saving: the main context's items, then the status context's. The
     * success flag takes each sub-serialiser's result into a temporary (CombineIntended), so it
     * reports whether both contexts were present.
     */
    method NetSerializeSave() returns (archive: seq<ArchiveItem>, outSuccess: bool, ok: bool)
      ensures archive
        == (if mainDamageContext != null then MainDamageEffectContext.SavedArchive(mainDamageContext.fields) else [])
        + (if statusEffectContext != null then StatusEffectContext.SavedArchive(statusEffectContext.fields) else [])
      ensures outSuccess == SuccessIntended(mainDamageContext != null, statusEffectContext != null)
      ensures ok == outSuccess
    {
      archive := [];
      outSuccess := true;
      var subResult := false;
      if mainDamageContext != null {
        var items, subSuccess;
        items, subSuccess, subResult := mainDamageContext.NetSerializeSave();
        archive := items;
      }
      outSuccess := outSuccess && subResult;
      assert outSuccess == CombineIntended(true, mainDamageContext != null);
      subResult := false;
      if statusEffectContext != null {
        var items, subSuccess;
        items, subSuccess, subResult := statusEffectContext.NetSerializeSave();
        archive := archive + items;
      }
      outSuccess := outSuccess && subResult;
      ok := outSuccess;
    }

    /**
     * NetSerialize while loading: the main context, when present, reads from the front of the
     * archive and the status context, when present, from what it left; success as in
     * CombineIntended.
     */
    method NetSerializeLoad(archive: seq<ArchiveItem>) returns (rest: seq<ArchiveItem>, outSuccess: bool, ok: bool)
      modifies mainDamageContext, statusEffectContext
      ensures mainDamageContext == null ==> rest == StatusLoadRest(old(StatusFieldsOrNull()), archive)
      ensures mainDamageContext != null ==>
        var m := MainDamageEffectContext.LoadArchive(old(mainDamageContext.fields), archive);
        && mainDamageContext.fields == m.fields
        && rest == StatusLoadRest(old(StatusFieldsOrNull()), m.rest)
      ensures statusEffectContext != null ==>
        var afterMain := if mainDamageContext != null
          then MainDamageEffectContext.LoadArchive(old(mainDamageContext.fields), archive).rest
          else archive;
        statusEffectContext.fields == StatusEffectContext.LoadArchive(old(statusEffectContext.fields), afterMain).fields
      ensures outSuccess == SuccessIntended(mainDamageContext != null, statusEffectContext != null)
      ensures ok == outSuccess
    {
      rest := archive;
      outSuccess := true;
      var subResult := false;
      if mainDamageContext != null {
        var subSuccess;
        rest, subSuccess, subResult := mainDamageContext.NetSerializeLoad(rest);
      }
      outSuccess := outSuccess && subResult;
      subResult := false;
      if statusEffectContext != null {
        var subSuccess;
        rest, subSuccess, subResult := statusEffectContext.NetSerializeLoad(rest);
      }
      outSuccess := outSuccess && subResult;
      ok := outSuccess;
    }

    /** The status context's members, or None while its pointer is null. */
    function StatusFieldsOrNull(): Option<StatusEffectContext.StatusContextFields>
      reads this, statusEffectContext
    {
      if statusEffectContext == null then None else Some(statusEffectContext.fields)
    }
  }

  /** What is left of `archive` once the status context, if any, has read its items. */
  function StatusLoadRest(status: Option<StatusEffectContext.StatusContextFields>, archive: seq<ArchiveItem>): seq<ArchiveItem>
  {
    match status
    case None => archive
    case Some(f) => StatusEffectContext.LoadArchive(f, archive).rest
  }
}
