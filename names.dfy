/**
 * FName: an engine name. Two names are equal when they are spelled the same up to the case of
 * their letters, so `ActorHasTag(FName("Enemy"))` also finds an actor tagged "enemy".
 */
module Names {

  /** An ASCII letter folded to lower case; every other character is kept. */
  function FoldCase(c: char): (r: char)
    ensures 'A' <= c <= 'Z' ==> r as int == c as int + 32
    ensures !('A' <= c <= 'Z') ==> r == c
  {
    if 'A' <= c <= 'Z' then (c as int + 32) as char else c
  }

  /** FName equality: same length, and equal character by character once the case is folded. */
  predicate NameEquals(a: string, b: string)
  {
    |a| == |b| && forall i :: 0 <= i < |a| ==> FoldCase(a[i]) == FoldCase(b[i])
  }

  /** AActor::ActorHasTag: some actor tag equals the name as an FName. */
  predicate ActorHasTag(actorTags: seq<string>, name: string)
  {
    exists t :: t in actorTags && NameEquals(t, name)
  }

  /** Name equality is an equivalence: reflexive, symmetric and transitive. */
  lemma NameEqualsEquivalence(a: string, b: string, c: string)
    ensures NameEquals(a, a)
    ensures NameEquals(a, b) ==> NameEquals(b, a)
    ensures NameEquals(a, b) && NameEquals(b, c) ==> NameEquals(a, c)
  {
    if NameEquals(a, b) && NameEquals(b, c) {
      forall i | 0 <= i < |a|
        ensures FoldCase(a[i]) == FoldCase(c[i])
      {
        assert FoldCase(a[i]) == FoldCase(b[i]);
      }
    }
  }

  /** A tag spelled exactly as the name is found; one spelled in lower case is found too. */
  lemma ActorHasTagIgnoresCase(actorTags: seq<string>)
    ensures "Enemy" in actorTags ==> ActorHasTag(actorTags, "Enemy")
    ensures "enemy" in actorTags ==> ActorHasTag(actorTags, "Enemy")
    ensures "ENEMY" in actorTags ==> ActorHasTag(actorTags, "Enemy")
  {
    NameEqualsEquivalence("Enemy", "Enemy", "Enemy");
    if "enemy" in actorTags {
      assert NameEquals("enemy", "Enemy") by {
        forall i | 0 <= i < 5
          ensures FoldCase("enemy"[i]) == FoldCase("Enemy"[i])
        {
        }
      }
    }
    if "ENEMY" in actorTags {
      assert NameEquals("ENEMY", "Enemy") by {
        forall i | 0 <= i < 5
          ensures FoldCase("ENEMY"[i]) == FoldCase("Enemy"[i])
        {
        }
      }
    }
  }

  /** Names of different lengths never match, so an actor tagged only "Enemies" is no enemy. */
  lemma LongerNameDiffers(actorTags: seq<string>, name: string)
    requires forall t :: t in actorTags ==> |t| != |name|
    ensures !ActorHasTag(actorTags, name)
  {
  }
}
