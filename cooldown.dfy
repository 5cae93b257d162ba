/**
 * UListenForCooldownChange: an async task an ability globe uses to follow one cooldown tag
 * on an ability-system component. It reports the cooldown's start, with the longest time
 * remaining among the effects that grant the tag, and its end, when the tag's count drops to
 * zero.
 *
 * The component is reduced to whether the pointer is valid; what it would answer to the
 * time-remaining query arrives as a parameter. Delegate bindings and the task's clean-up
 * calls are recorded as events.
 */
module CooldownListener {
  import opened Tags

  datatype CooldownEvent =
    | CooldownStart(timeRemaining: real)
    | CooldownEnd(timeRemaining: real)
    | TagEventBound(cooldownTag: Tag)       // RegisterGameplayTagEvent(...).AddUObject
    | EffectAddedBound                      // OnActiveGameplayEffectAddedDelegateToSelf.AddUObject
    | TagEventUnbound(cooldownTag: Tag)     // RegisterGameplayTagEvent(...).RemoveAll
    | ReadyToDestroy                        // SetReadyToDestroy and MarkAsGarbage

  /** The longest of a non-empty list of remaining times. */
  function LongestTimeRemaining(timesRemaining: seq<real>): (longest: real)
    requires |timesRemaining| > 0
    ensures longest in timesRemaining
    ensures forall i :: 0 <= i < |timesRemaining| ==> timesRemaining[i] <= longest
  {
    if |timesRemaining| == 1 then timesRemaining[0]
    else
      var rest := LongestTimeRemaining(timesRemaining[1..]);
      if timesRemaining[0] > rest then timesRemaining[0] else rest
  }

  /** Only one value is both in the list and at least every entry of it. */
  lemma LongestIsUnique(timesRemaining: seq<real>, t: real)
    requires |timesRemaining| > 0
    requires t in timesRemaining
    requires forall i :: 0 <= i < |timesRemaining| ==> timesRemaining[i] <= t
    ensures t == LongestTimeRemaining(timesRemaining)
  {
    var longest := LongestTimeRemaining(timesRemaining);
    var j :| 0 <= j < |timesRemaining| && timesRemaining[j] == longest;
    assert longest <= t;
  }

  /** The loop of OnActiveEffectAdded: start from the first time and keep any greater one. */
  method GreatestTimeRemaining(timesRemaining: seq<real>) returns (timeRemaining: real)
    requires |timesRemaining| > 0
    ensures timeRemaining in timesRemaining
    ensures forall i :: 0 <= i < |timesRemaining| ==> timesRemaining[i] <= timeRemaining
  {
    timeRemaining := timesRemaining[0];
    for i := 0 to |timesRemaining|
      invariant timeRemaining in timesRemaining
      invariant forall k :: 0 <= k < i ==> timesRemaining[k] <= timeRemaining
    {
      if timesRemaining[i] > timeRemaining {
        timeRemaining := timesRemaining[i];
      }
    }
  }

  /** Whether an applied effect is this cooldown: its asset or granted tags hold the tag exactly. */
  predicate IsCooldownEffect(assetTags: seq<Tag>, grantedTags: seq<Tag>, cooldownTag: Tag)
  {
    HasTagExact(assetTags, cooldownTag) || HasTagExact(grantedTags, cooldownTag)
  }

  /** An invalid cooldown tag is never found exactly, so no effect starts its cooldown. */
  lemma InvalidTagNeverStarts(assetTags: seq<Tag>, grantedTags: seq<Tag>, cooldownTag: Tag)
    requires !IsValid(cooldownTag)
    ensures !IsCooldownEffect(assetTags, grantedTags, cooldownTag)
  {
  }

  class ListenForCooldownChange {
    /** Whether the AbilitySystemComponent pointer is valid. */
    var componentValid: bool
    var cooldownTag: Tag
    var events: seq<CooldownEvent>

    constructor (abilitySystemComponentValid: bool, inCooldownTag: Tag)
      ensures componentValid == abilitySystemComponentValid && cooldownTag == inCooldownTag && events == []
    {
      componentValid := abilitySystemComponentValid;
      cooldownTag := inCooldownTag;
      events := [];
    }

    /**
     * WaitForCooldownChange: no task for an invalid component or tag (the half-made task is
     * ended); otherwise a task bound to the tag's count changes and to added effects.
     */
    static method WaitForCooldownChange(abilitySystemComponentValid: bool, inCooldownTag: Tag)
      returns (task: ListenForCooldownChange?)
      ensures task == null <==> !abilitySystemComponentValid || !IsValid(inCooldownTag)
      ensures task != null ==>
        && fresh(task)
        && task.componentValid && task.cooldownTag == inCooldownTag
        && task.events == [TagEventBound(inCooldownTag), EffectAddedBound]
    {
      var waitCooldownChange := new ListenForCooldownChange(abilitySystemComponentValid, inCooldownTag);
      if !abilitySystemComponentValid || !IsValid(inCooldownTag) {
        waitCooldownChange.EndTask();
        return null;
      }
      waitCooldownChange.events := waitCooldownChange.events + [TagEventBound(inCooldownTag)];
      waitCooldownChange.events := waitCooldownChange.events + [EffectAddedBound];
      return waitCooldownChange;
    }

    /** CooldownTagChanged: the cooldown has ended, reported with 0, exactly when the count reaches 0. */
    method CooldownTagChanged(inCooldownTag: Tag, newCount: int)
      modifies this
      ensures events == old(events) + (if newCount == 0 then [CooldownEnd(0.0)] else [])
      ensures componentValid == old(componentValid) && cooldownTag == old(cooldownTag)
    {
      if newCount == 0 {
        events := events + [CooldownEnd(0.0)];
      }
    }

    /**
     * OnActiveEffectAdded: for an effect carrying the cooldown tag exactly, and when some
     * effect still has time left, the cooldown starts with the longest time remaining.
     */
    method OnActiveEffectAdded(assetTags: seq<Tag>, grantedTags: seq<Tag>, timesRemaining: seq<real>)
      modifies this
      ensures events == old(events)
        + (if IsCooldownEffect(assetTags, grantedTags, cooldownTag) && |timesRemaining| > 0
           then [CooldownStart(LongestTimeRemaining(timesRemaining))] else [])
      ensures componentValid == old(componentValid) && cooldownTag == old(cooldownTag)
    {
      if HasTagExact(assetTags, cooldownTag) || HasTagExact(grantedTags, cooldownTag) {
        if |timesRemaining| > 0 {
          var timeRemaining := GreatestTimeRemaining(timesRemaining);
          LongestIsUnique(timesRemaining, timeRemaining);
          events := events + [CooldownStart(timeRemaining)];
        }
      }
    }

    /** EndTask: with a valid component, unbinds the tag event and lets the task be destroyed. */
    method EndTask()
      modifies this
      ensures events == old(events) + (if old(componentValid) then [TagEventUnbound(cooldownTag), ReadyToDestroy] else [])
      ensures componentValid == old(componentValid) && cooldownTag == old(cooldownTag)
    {
      if !componentValid {
        return;
      }
      events := events + [TagEventUnbound(cooldownTag)];
      events := events + [ReadyToDestroy];
    }
  }
}
