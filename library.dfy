/**
 * UAriaAbilitySystemLibrary: static helpers over effect contexts, actors, attribute maps,
 * data-table rows and point patterns.
 */
module AbilitySystemLibrary {
  import opened Wrappers
  import opened Tags
  import opened Names
  import opened AriaEffectContext

  // ---------------------------------------------------------------------------------------
  // Effect-context accessors. An FGameplayEffectContextHandle is modelled by the Aria
  // effect context it holds, or null when it holds none; every accessor does nothing (or
  // returns the default) for null.
  // ---------------------------------------------------------------------------------------

  /** The tag behind an optional tag pointer, or the empty tag for null. */
  function TagOrEmpty(t: Option<Tag>): (r: Tag)
    ensures t.None? ==> r == EmptyTag
    ensures t.Some? ==> r == t.value
  {
    match t
    case None => EmptyTag
    case Some(v) => v
  }

  /** GetStatusEffectType: the stored status type, or the empty tag for null context or pointer. */
  function GetStatusEffectType(h: AriaGameplayEffectContext?): (r: Tag)
    reads h
    ensures h == null ==> r == EmptyTag
    ensures h != null ==> r == TagOrEmpty(h.fields.statusEffectType)
  {
    if h == null then EmptyTag else TagOrEmpty(h.fields.statusEffectType)
  }

  /** GetDamagedAttributeType: the stored damaged attribute, or the empty tag. */
  function GetDamagedAttributeType(h: AriaGameplayEffectContext?): (r: Tag)
    reads h
    ensures h == null ==> r == EmptyTag
    ensures h != null ==> r == TagOrEmpty(h.fields.damagedAttributeType)
  {
    if h == null then EmptyTag else TagOrEmpty(h.fields.damagedAttributeType)
  }

  method SetIsDodgedHit(h: AriaGameplayEffectContext?, v: bool)
    modifies h
    ensures h != null ==> h.fields == old(h.fields).(isDodgedHit := v)
  {
    if h != null {
      h.SetIsDodgedHit(v);
    }
  }

  method SetIsBlockedHit(h: AriaGameplayEffectContext?, v: bool)
    modifies h
    ensures h != null ==> h.fields == old(h.fields).(isBlockedHit := v)
  {
    if h != null {
      h.SetIsBlockedHit(v);
    }
  }

  method SetIsCriticalHit(h: AriaGameplayEffectContext?, v: bool)
    modifies h
    ensures h != null ==> h.fields == old(h.fields).(isCriticalHit := v)
  {
    if h != null {
      h.SetIsCriticalHit(v);
    }
  }

  method SetStatusEffectApplied(h: AriaGameplayEffectContext?, v: bool)
    modifies h
    ensures h != null ==> h.fields == old(h.fields).(isStatusEffectApplied := v)
  {
    if h != null {
      h.SetIsStatusEffectApplied(v);
    }
  }

  /** SetStatusEffectType stores a newly allocated copy of the tag: the pointer is never null. */
  method SetStatusEffectType(h: AriaGameplayEffectContext?, v: Tag)
    modifies h
    ensures h != null ==> h.fields == old(h.fields).(statusEffectType := Some(v))
  {
    if h != null {
      h.SetStatusEffectType(Some(v));
    }
  }

  method SetStatusEffectDuration(h: AriaGameplayEffectContext?, v: real)
    modifies h
    ensures h != null ==> h.fields == old(h.fields).(statusEffectDuration := v)
  {
    if h != null {
      h.SetStatusEffectDuration(v);
    }
  }

  method SetStatusEffectFrequency(h: AriaGameplayEffectContext?, v: real)
    modifies h
    ensures h != null ==> h.fields == old(h.fields).(statusEffectFrequency := v)
  {
    if h != null {
      h.SetStatusEffectFrequency(v);
    }
  }

  /** SetDamagedAttributeType, like SetStatusEffectType, stores a fresh non-null pointer. */
  method SetDamagedAttributeType(h: AriaGameplayEffectContext?, v: Tag)
    modifies h
    ensures h != null ==> h.fields == old(h.fields).(damagedAttributeType := Some(v))
  {
    if h != null {
      h.SetDamagedAttributeType(Some(v));
    }
  }

  method SetDamagedAttributeAmount(h: AriaGameplayEffectContext?, v: real)
    modifies h
    ensures h != null ==> h.fields == old(h.fields).(damagedAttributeAmount := v)
  {
    if h != null {
      h.SetDamagedAttributeAmount(v);
    }
  }

  // ---------------------------------------------------------------------------------------
  // GetClosestActors. An actor is a value of any type with equality (an actor pointer), and
  // `dist` gives each actor's distance from the origin, (location - origin).Length().
  // ---------------------------------------------------------------------------------------

  /**
   * The index of the closest of the first n actors, as the inner loop finds it: a candidate
   * is replaced only by a strictly nearer actor, so the first of several nearest ones wins.
   */
  function ClosestIndexUpTo<A>(s: seq<A>, dist: A -> real, n: nat): (i: nat)
    requires 0 < n <= |s|
    ensures i < n
    ensures forall j :: 0 <= j < n ==> dist(s[i]) <= dist(s[j])
    ensures forall j :: 0 <= j < i ==> dist(s[j]) > dist(s[i])
    decreases n
  {
    if n == 1 then 0
    else
      var c := ClosestIndexUpTo(s, dist, n - 1);
      if dist(s[n - 1]) < dist(s[c]) then n - 1 else c
  }

  /** The actor the inner loop settles on. */
  function ClosestOf<A>(s: seq<A>, dist: A -> real): A
    requires |s| > 0
  {
    s[ClosestIndexUpTo(s, dist, |s|)]
  }

  /** TArray::Remove: every element equal to `a` is taken out, the rest keep their order. */
  function RemoveAll<A(==,!new)>(s: seq<A>, a: A): (r: seq<A>)
    ensures forall x :: x in r <==> x in s && x != a
    ensures |r| <= |s|
  {
    if s == [] then []
    else (if s[0] == a then [] else [s[0]]) + RemoveAll(s[1..], a)
  }

  /** TArray::AddUnique. */
  function AddUnique<A(==)>(s: seq<A>, a: A): (r: seq<A>)
    ensures a in r
    ensures a in s ==> r == s
    ensures a !in s ==> r == s + [a]
  {
    if a in s then s else s + [a]
  }

  /** AddUnique of every pick in turn. */
  function AddAllUnique<A(==)>(out: seq<A>, picks: seq<A>): seq<A>
    decreases |picks|
  {
    if picks == [] then out
    else AddUnique(AddAllUnique(out, picks[..|picks| - 1]), picks[|picks| - 1])
  }

  /** The actors the outer loop picks, in order, when it may pick at most k. */
  function ClosestPicks<A(==,!new)>(toCheck: seq<A>, dist: A -> real, k: nat): seq<A>
    decreases k
  {
    if k == 0 || |toCheck| == 0 then []
    else
      var c := ClosestOf(toCheck, dist);
      [c] + ClosestPicks(RemoveAll(toCheck, c), dist, k - 1)
  }

  /** What GetClosestActors leaves in its out array. */
  function ClosestActors<A(==,!new)>(maxActors: int, actorsWithinRadius: seq<A>, outClosestActors: seq<A>, dist: A -> real): seq<A>
  {
    if |actorsWithinRadius| <= maxActors then actorsWithinRadius
    else AddAllUnique(outClosestActors, ClosestPicks(actorsWithinRadius, dist, if maxActors > 0 then maxActors else 0))
  }

  /**
   * The outer loop's invariant: after n rounds, `out` holds the original out array with the
   * rounds' picks added, and the picks still to come are those of the remaining actors.
   */
  ghost predicate PickedSoFar<A(!new)>(whole: seq<A>, out0: seq<A>, dist: A -> real, k: nat,
                                          n: nat, picked: seq<A>, out: seq<A>, toCheck: seq<A>)
  {
    n <= k && out == AddAllUnique(out0, picked) && ClosestPicks(whole, dist, k) == picked + ClosestPicks(toCheck, dist, k - n)
  }

  /** One round moves the nearest remaining actor to `out` and keeps the invariant. */
  lemma PickStep<A(!new)>(whole: seq<A>, out0: seq<A>, dist: A -> real, k: nat,
                             n: nat, picked: seq<A>, out: seq<A>, toCheck: seq<A>, c: A)
    requires PickedSoFar(whole, out0, dist, k, n, picked, out, toCheck)
    requires n < k && |toCheck| > 0 && c == ClosestOf(toCheck, dist)
    ensures PickedSoFar(whole, out0, dist, k, n + 1, picked + [c], AddUnique(out, c), RemoveAll(toCheck, c))
  {
    var rest := RemoveAll(toCheck, c);
    assert ClosestPicks(toCheck, dist, k - n) == [c] + ClosestPicks(rest, dist, k - n - 1);
    AppendRegroup(picked, c, ClosestPicks(rest, dist, k - n - 1));
    AddAllUniqueSnoc(out0, picked, c);
  }

  /** `p + ([c] + q)` regrouped. */
  lemma AppendRegroup<A>(p: seq<A>, c: A, q: seq<A>)
    ensures p + ([c] + q) == (p + [c]) + q
  {
  }

  /** Adding `picks` and then `c` is adding `picks + [c]`. */
  lemma AddAllUniqueSnoc<A>(out: seq<A>, picks: seq<A>, c: A)
    ensures AddAllUnique(out, picks + [c]) == AddUnique(AddAllUnique(out, picks), c)
  {
    assert (picks + [c])[..|picks|] == picks;
  }

  /** When the rounds are used up or no actor is left, `out` holds every pick. */
  lemma PickEnd<A(!new)>(whole: seq<A>, out0: seq<A>, dist: A -> real, k: nat,
                            n: nat, picked: seq<A>, out: seq<A>, toCheck: seq<A>)
    requires PickedSoFar(whole, out0, dist, k, n, picked, out, toCheck)
    requires n == k || |toCheck| == 0
    ensures out == AddAllUnique(out0, ClosestPicks(whole, dist, k))
  {
    assert ClosestPicks(toCheck, dist, k - n) == [];
    assert picked + [] == picked;
  }

  /** The inner for loop: a scan for the nearest remaining actor. */
  method FindClosestActor<A>(actorsToCheck: seq<A>, dist: A -> real) returns (closestActor: A)
    requires |actorsToCheck| > 0
    ensures closestActor == ClosestOf(actorsToCheck, dist)
  {
    var closestDistance := dist(actorsToCheck[0]);
    closestActor := actorsToCheck[0];
    for k := 1 to |actorsToCheck|
      invariant closestActor == actorsToCheck[ClosestIndexUpTo(actorsToCheck, dist, k)]
      invariant closestDistance == dist(closestActor)
    {
      var distanceToOrigin := dist(actorsToCheck[k]);
      if distanceToOrigin < closestDistance {
        closestDistance := distanceToOrigin;
        closestActor := actorsToCheck[k];
      }
    }
  }

  /**
   * GetClosestActors: the whole list when it holds no more than MaxActors actors; otherwise up
   * to MaxActors rounds, each moving the nearest remaining actor to the out array.
   */
  method GetClosestActors<A(==,!new)>(maxActors: int, actorsWithinRadius: seq<A>, outClosestActors: seq<A>, dist: A -> real)
    returns (out: seq<A>)
    ensures out == ClosestActors(maxActors, actorsWithinRadius, outClosestActors, dist)
  {
    if |actorsWithinRadius| <= maxActors {
      out := actorsWithinRadius;
      return;
    }
    out := outClosestActors;
    var actorsToCheck := actorsWithinRadius;
    var numActorsFound := 0;
    ghost var k: nat := if maxActors > 0 then maxActors else 0;
    ghost var picked: seq<A> := [];
    assert [] + ClosestPicks(actorsWithinRadius, dist, k) == ClosestPicks(actorsWithinRadius, dist, k);
    while numActorsFound < maxActors
      invariant PickedSoFar(actorsWithinRadius, outClosestActors, dist, k, numActorsFound, picked, out, actorsToCheck)
    {
      if |actorsToCheck| == 0 {
        break;
      }
      var closestActor := FindClosestActor(actorsToCheck, dist);
      PickStep(actorsWithinRadius, outClosestActors, dist, k, numActorsFound, picked, out, actorsToCheck, closestActor);
      actorsToCheck := RemoveAll(actorsToCheck, closestActor);
      out := AddUnique(out, closestActor);
      picked := picked + [closestActor];
      numActorsFound := numActorsFound + 1;
    }
    PickEnd(actorsWithinRadius, outClosestActors, dist, k, numActorsFound, picked, out, actorsToCheck);
  }

  /** The picks come from the list, none twice, and there are at most k of them. */
  lemma {:induction false} ClosestPicksFromList<A(!new)>(toCheck: seq<A>, dist: A -> real, k: nat)
    ensures |ClosestPicks(toCheck, dist, k)| <= k
    ensures forall x :: x in ClosestPicks(toCheck, dist, k) ==> x in toCheck
    ensures forall i, j :: 0 <= i < j < |ClosestPicks(toCheck, dist, k)| ==>
              ClosestPicks(toCheck, dist, k)[i] != ClosestPicks(toCheck, dist, k)[j]
    decreases k
  {
    if k != 0 && |toCheck| != 0 {
      var c := ClosestOf(toCheck, dist);
      var rest := RemoveAll(toCheck, c);
      ClosestPicksFromList(rest, dist, k - 1);
      var q := ClosestPicks(rest, dist, k - 1);
      var p := ClosestPicks(toCheck, dist, k);
      assert p == [c] + q;
      assert c !in q;
      forall i, j | 0 <= i < j < |p|
        ensures p[i] != p[j]
      {
        assert p[j] == q[j - 1];
        if i > 0 {
          assert p[i] == q[i - 1];
        }
      }
    }
  }

  /**
   * Each pick is no farther than any actor not picked before it; and when fewer than k were
   * picked, the list was used up.
   */
  lemma {:induction false} ClosestPicksAreNearest<A(!new)>(toCheck: seq<A>, dist: A -> real, k: nat)
    ensures forall i, a :: 0 <= i < |ClosestPicks(toCheck, dist, k)| && a in toCheck && a !in ClosestPicks(toCheck, dist, k)[..i] ==>
              dist(ClosestPicks(toCheck, dist, k)[i]) <= dist(a)
    ensures |ClosestPicks(toCheck, dist, k)| < k ==> forall a :: a in toCheck ==> a in ClosestPicks(toCheck, dist, k)
    decreases k
  {
    if k != 0 && |toCheck| != 0 {
      var c := ClosestOf(toCheck, dist);
      var rest := RemoveAll(toCheck, c);
      ClosestPicksAreNearest(rest, dist, k - 1);
      var q := ClosestPicks(rest, dist, k - 1);
      var p := ClosestPicks(toCheck, dist, k);
      assert p == [c] + q;
      forall i, a | 0 <= i < |p| && a in toCheck && a !in p[..i]
        ensures dist(p[i]) <= dist(a)
      {
        NearestAmongRemaining(toCheck, dist, q, i, a);
      }
    }
  }

  /** The first pick is no farther than any actor to check. */
  lemma ClosestIsNearest<A>(toCheck: seq<A>, dist: A -> real, a: A)
    requires a in toCheck
    ensures dist(ClosestOf(toCheck, dist)) <= dist(a)
  {
    var m :| 0 <= m < |toCheck| && toCheck[m] == a;
  }

  /** One pick: the first is nearest of all, and a later one is nearest of what the first left. */
  lemma NearestAmongRemaining<A(!new)>(toCheck: seq<A>, dist: A -> real, q: seq<A>, i: nat, a: A)
    requires |toCheck| > 0
    requires forall j, b :: 0 <= j < |q| && b in RemoveAll(toCheck, ClosestOf(toCheck, dist)) && b !in q[..j] ==>
               dist(q[j]) <= dist(b)
    requires i < 1 + |q| && a in toCheck && a !in ([ClosestOf(toCheck, dist)] + q)[..i]
    ensures dist(([ClosestOf(toCheck, dist)] + q)[i]) <= dist(a)
  {
    var c := ClosestOf(toCheck, dist);
    if i == 0 {
      ClosestIsNearest(toCheck, dist, a);
    } else {
      var rest := RemoveAll(toCheck, c);
      NotPickedBefore(c, q, i, a);
      assert a in rest;
      LaterPickNearest(rest, dist, q, i - 1, a);
    }
  }

  /** An actor not among the first i elements of [c] + q is not c and not among the first i - 1 of q. */
  lemma NotPickedBefore<A>(c: A, q: seq<A>, i: nat, a: A)
    requires 0 < i <= 1 + |q| && a !in ([c] + q)[..i]
    ensures a != c && a !in q[..i - 1]
  {
    assert ([c] + q)[..i] == [c] + q[..i - 1];
  }

  /** A later pick is no farther than any remaining actor not picked before it. */
  lemma LaterPickNearest<A>(rest: seq<A>, dist: A -> real, q: seq<A>, j: nat, a: A)
    requires forall k, b :: 0 <= k < |q| && b in rest && b !in q[..k] ==> dist(q[k]) <= dist(b)
    requires j < |q| && a in rest && a !in q[..j]
    ensures dist(q[j]) <= dist(a)
  {
  }

  /** AddAllUnique keeps what was there, adds only picks, and never adds a duplicate. */
  lemma {:induction false} AddAllUniqueKeeps<A>(out: seq<A>, picks: seq<A>)
    ensures |out| <= |AddAllUnique(out, picks)| <= |out| + |picks|
    ensures AddAllUnique(out, picks)[..|out|] == out
    ensures forall a :: a in picks ==> a in AddAllUnique(out, picks)
    ensures forall m :: |out| <= m < |AddAllUnique(out, picks)| ==>
              AddAllUnique(out, picks)[m] in picks && AddAllUnique(out, picks)[m] !in AddAllUnique(out, picks)[..m]
    decreases |picks|
  {
    if picks != [] {
      var front := picks[..|picks| - 1];
      var last := picks[|picks| - 1];
      AddAllUniqueKeeps(out, front);
      var before := AddAllUnique(out, front);
      var r := AddAllUnique(out, picks);
      assert r == AddUnique(before, last);
      assert picks == front + [last];
      if last !in before {
        assert r[..|before|] == before;
        assert r[..|out|] == before[..|out|];
      }
      forall m | |out| <= m < |r|
        ensures r[m] in picks && r[m] !in r[..m]
      {
        if m < |before| {
          assert r[..m] == before[..m];
          assert r[m] == before[m];
        } else {
          assert r[..m] == before;
        }
      }
    }
  }

  /**
   * GetClosestActors on a list longer than MaxActors: the out array keeps its entries and
   * gains at most max(MaxActors, 0) actors, each from the list and none twice, each no
   * farther from the origin than any listed actor left out.
   */
  lemma ClosestActorsChosen<A(!new)>(maxActors: int, actorsWithinRadius: seq<A>, outClosestActors: seq<A>, dist: A -> real)
    requires |actorsWithinRadius| > maxActors
    ensures var r := ClosestActors(maxActors, actorsWithinRadius, outClosestActors, dist);
      && |outClosestActors| <= |r|
      && r[..|outClosestActors|] == outClosestActors
      && |r| - |outClosestActors| <= (if maxActors > 0 then maxActors else 0)
      && (forall m :: |outClosestActors| <= m < |r| ==> r[m] in actorsWithinRadius && r[m] !in r[..m])
      && (forall m, a :: |outClosestActors| <= m < |r| && a in actorsWithinRadius && a !in r ==> dist(r[m]) <= dist(a))
  {
    var k: nat := if maxActors > 0 then maxActors else 0;
    var p := ClosestPicks(actorsWithinRadius, dist, k);
    var r := ClosestActors(maxActors, actorsWithinRadius, outClosestActors, dist);
    ClosestPicksFromList(actorsWithinRadius, dist, k);
    ClosestPicksAreNearest(actorsWithinRadius, dist, k);
    AddAllUniqueKeeps(outClosestActors, p);
    forall m, a | |outClosestActors| <= m < |r| && a in actorsWithinRadius && a !in r
      ensures dist(r[m]) <= dist(a)
    {
      var i :| 0 <= i < |p| && p[i] == r[m];
      assert a !in p;
      assert a !in p[..i];
    }
  }

  // ---------------------------------------------------------------------------------------
  // IsNotFriend. An actor is given by its actor tags (FNames, compared without case); the
  // code never checks the pointers for null.
  // ---------------------------------------------------------------------------------------

  function IsNotFriend(firstActorTags: seq<string>, secondActorTags: seq<string>): bool
  {
    var bothArePlayers := ActorHasTag(firstActorTags, "Player") && ActorHasTag(secondActorTags, "Player");
    var bothAreEnemies := ActorHasTag(firstActorTags, "Enemy") && ActorHasTag(secondActorTags, "Enemy");
    var friends := bothArePlayers || bothAreEnemies;
    !friends
  }

  /** The teams an actor belongs to: "Player" and "Enemy", each when some actor tag names it. */
  function Teams(actorTags: seq<string>): set<string>
  {
    set t | t in ["Player", "Enemy"] && ActorHasTag(actorTags, t)
  }

  /** Two actors are friends exactly when they carry a common team tag. */
  lemma IsNotFriendIffNoCommonTeam(firstActorTags: seq<string>, secondActorTags: seq<string>)
    ensures IsNotFriend(firstActorTags, secondActorTags) <==> Teams(firstActorTags) * Teams(secondActorTags) == {}
  {
    if !IsNotFriend(firstActorTags, secondActorTags) {
      var t := if ActorHasTag(firstActorTags, "Player") && ActorHasTag(secondActorTags, "Player") then "Player" else "Enemy";
      assert t in Teams(firstActorTags) * Teams(secondActorTags);
    } else {
      forall t | t in Teams(firstActorTags) * Teams(secondActorTags)
        ensures false
      {
      }
    }
  }

  /** Friendship does not depend on the order of the two actors. */
  lemma IsNotFriendSymmetric(firstActorTags: seq<string>, secondActorTags: seq<string>)
    ensures IsNotFriend(firstActorTags, secondActorTags) == IsNotFriend(secondActorTags, firstActorTags)
  {
  }

  // ---------------------------------------------------------------------------------------
  // GetAttributeByTag. The TMap is given by its entries in iteration order; each value is
  // the attribute its static function pointer returns.
  // ---------------------------------------------------------------------------------------

  /** FGameplayAttribute: no attribute (the default), or the attribute of the given name. */
  datatype GameplayAttribute = NoAttribute | Attribute(name: string)

  /** GetAttributeByTag: the attribute of the first entry whose key equals the tag. */
  function GetAttributeByTag(tagToAttributeContainer: seq<(Tag, GameplayAttribute)>, attributeTag: Tag): (r: GameplayAttribute)
    ensures (forall i :: 0 <= i < |tagToAttributeContainer| ==> tagToAttributeContainer[i].0 != attributeTag) ==> r == NoAttribute
  {
    if |tagToAttributeContainer| == 0 then NoAttribute
    else if tagToAttributeContainer[0].0 == attributeTag then tagToAttributeContainer[0].1
    else
      var r := GetAttributeByTag(tagToAttributeContainer[1..], attributeTag);
      assert forall i :: 1 <= i < |tagToAttributeContainer| ==> tagToAttributeContainer[i] == tagToAttributeContainer[1..][i - 1];
      r
  }

  /** A TMap holds each key once. */
  predicate KeysUnique(entries: seq<(Tag, GameplayAttribute)>)
  {
    forall i, j :: 0 <= i < j < |entries| ==> entries[i].0 != entries[j].0
  }

  /** With unique keys the search is the map lookup: the attribute mapped to the tag. */
  lemma {:induction false} GetAttributeByTagIsLookup(entries: seq<(Tag, GameplayAttribute)>, attributeTag: Tag, i: nat)
    requires KeysUnique(entries)
    requires i < |entries| && entries[i].0 == attributeTag
    ensures GetAttributeByTag(entries, attributeTag) == entries[i].1
  {
    if i > 0 {
      assert entries[0].0 != attributeTag;
      assert entries[1..][i - 1] == entries[i];
      GetAttributeByTagIsLookup(entries[1..], attributeTag, i - 1);
    }
  }

  // ---------------------------------------------------------------------------------------
  // Data-table row lookups. A UDataTable pointer is None for null or the table's rows in
  // row-name order; a row of type T is found by its index. FindRow on one of the table's own
  // row names never fails, so the code's null check on the row always passes.
  // ---------------------------------------------------------------------------------------

  /** How many of rows[from..till] carry the tag. */
  function MatchesBetween<T>(rows: seq<T>, tagOf: T -> Tag, tag: Tag, from: nat, till: nat): nat
    requires from <= till <= |rows|
    decreases till
  {
    if from == till then 0
    else MatchesBetween(rows, tagOf, tag, from, till - 1) + (if tagOf(rows[till - 1]) == tag then 1 else 0)
  }

  /**
   * The loop of GetDataTableRowByTagAndRowIndex from row `from` on, with `rowIndex` as the
   * counter it decrements on every matching row.
   */
  function RowSearch<T>(rows: seq<T>, tagOf: T -> Tag, tag: Tag, rowIndex: int, from: nat): Option<nat>
    requires from <= |rows|
    decreases |rows| - from
  {
    if from == |rows| then None
    else if tagOf(rows[from]) == tag then
      if rowIndex - 1 < 0 then Some(from) else RowSearch(rows, tagOf, tag, rowIndex - 1, from + 1)
    else RowSearch(rows, tagOf, tag, rowIndex, from + 1)
  }

  /** Counting splits at the first row. */
  lemma {:induction false} MatchesBetweenFront<T>(rows: seq<T>, tagOf: T -> Tag, tag: Tag, from: nat, till: nat)
    requires from < till <= |rows|
    ensures MatchesBetween(rows, tagOf, tag, from, till)
            == (if tagOf(rows[from]) == tag then 1 else 0) + MatchesBetween(rows, tagOf, tag, from + 1, till)
    decreases till
  {
    if from + 1 < till {
      MatchesBetweenFront(rows, tagOf, tag, from, till - 1);
    }
  }

  /**
   * The search for a non-negative counter k yields a row carrying the tag with exactly k
   * matching rows before it; it yields none exactly when no more than k rows match.
   */
  lemma {:induction false} RowSearchFindsMatch<T>(rows: seq<T>, tagOf: T -> Tag, tag: Tag, k: nat, from: nat)
    requires from <= |rows|
    ensures RowSearch(rows, tagOf, tag, k, from).Some? ==>
              var i := RowSearch(rows, tagOf, tag, k, from).value;
              from <= i < |rows| && tagOf(rows[i]) == tag && MatchesBetween(rows, tagOf, tag, from, i) == k
    ensures RowSearch(rows, tagOf, tag, k, from).None? <==> MatchesBetween(rows, tagOf, tag, from, |rows|) <= k
    decreases |rows| - from
  {
    if from < |rows| {
      MatchesBetweenFront(rows, tagOf, tag, from, |rows|);
      var r := RowSearch(rows, tagOf, tag, k, from);
      if tagOf(rows[from]) == tag {
        if k == 0 {
          assert MatchesBetween(rows, tagOf, tag, from, from) == 0;
        } else {
          RowSearchFindsMatch(rows, tagOf, tag, k - 1, from + 1);
          if r.Some? {
            MatchesBetweenFront(rows, tagOf, tag, from, r.value);
          }
        }
      } else {
        RowSearchFindsMatch(rows, tagOf, tag, k, from + 1);
        if r.Some? {
          MatchesBetweenFront(rows, tagOf, tag, from, r.value);
        }
      }
    }
  }

  /**
   * GetDataTableRowByTagAndRowIndex: null for a null table or for a RowIndex that is not an
   * index of the row-name list; otherwise the rows are scanned in order and the row that
   * brings the decremented RowIndex below zero is returned.
   */
  method GetDataTableRowByTagAndRowIndex<T>(dataTable: Option<seq<T>>, tagOf: T -> Tag, tag: Tag, rowIndex: int)
    returns (row: Option<nat>)
    ensures dataTable.None? ==> row.None?
    ensures dataTable.Some? && !(0 <= rowIndex < |dataTable.value|) ==> row.None?
    ensures dataTable.Some? && 0 <= rowIndex < |dataTable.value| ==> row == RowSearch(dataTable.value, tagOf, tag, rowIndex, 0)
  {
    if dataTable.None? {
      return None;
    }
    var rowNames := dataTable.value;
    if 0 <= rowIndex < |rowNames| {
      var remaining := rowIndex;
      for i := 0 to |rowNames|
        invariant RowSearch(rowNames, tagOf, tag, remaining, i) == RowSearch(rowNames, tagOf, tag, rowIndex, 0)
      {
        if tagOf(rowNames[i]) == tag {
          remaining := remaining - 1;
          if remaining < 0 {
            return Some(i);
          }
        }
      }
    }
    return None;
  }

  /**
   * GetAbilityDescriptionsRow: the first row carrying both the ability tag and the level, or
   * null for a null table or when no row matches.
   */
  function GetAbilityDescriptionsRow<T>(dataTable: Option<seq<T>>, tagOf: T -> Tag, levelOf: T -> int, abilityTag: Tag, abilityLevel: int): (r: Option<nat>)
    ensures dataTable.None? ==> r.None?
    ensures r.Some? ==>
              && dataTable.Some? && r.value < |dataTable.value|
              && tagOf(dataTable.value[r.value]) == abilityTag && levelOf(dataTable.value[r.value]) == abilityLevel
              && forall j :: 0 <= j < r.value ==> !(tagOf(dataTable.value[j]) == abilityTag && levelOf(dataTable.value[j]) == abilityLevel)
    ensures dataTable.Some? && r.None? ==>
              forall j :: 0 <= j < |dataTable.value| ==> !(tagOf(dataTable.value[j]) == abilityTag && levelOf(dataTable.value[j]) == abilityLevel)
  {
    match dataTable
    case None => None
    case Some(rows) => FirstDescriptionRow(rows, tagOf, levelOf, abilityTag, abilityLevel, 0)
  }

  function FirstDescriptionRow<T>(rows: seq<T>, tagOf: T -> Tag, levelOf: T -> int, abilityTag: Tag, abilityLevel: int, from: nat): (r: Option<nat>)
    requires from <= |rows|
    ensures r.Some? ==>
              && from <= r.value < |rows|
              && tagOf(rows[r.value]) == abilityTag && levelOf(rows[r.value]) == abilityLevel
              && forall j :: from <= j < r.value ==> !(tagOf(rows[j]) == abilityTag && levelOf(rows[j]) == abilityLevel)
    ensures r.None? ==> forall j :: from <= j < |rows| ==> !(tagOf(rows[j]) == abilityTag && levelOf(rows[j]) == abilityLevel)
    decreases |rows| - from
  {
    if from == |rows| then None
    else if tagOf(rows[from]) == abilityTag && levelOf(rows[from]) == abilityLevel then Some(from)
    else FirstDescriptionRow(rows, tagOf, levelOf, abilityTag, abilityLevel, from + 1)
  }
}
