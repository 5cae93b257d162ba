/**
 * AAriaEffectActor: a placed actor that applies configured gameplay effects to whatever
 * overlaps it. Each of the three main effects (instant, duration, infinite) has an
 * application policy naming the overlap event that applies it, and a list of additional
 * effects applied alongside it. Infinite effects can be recorded so that ending the overlap
 * removes them again.
 *
 * Actors and ability-system components are ids (0 for a null component); the engine's
 * effect application is recorded in the state's `applied` log, and the handles it returns
 * are drawn from a counter.
 */
module EffectActor {
  import opened Wrappers
  import opened Names

  datatype EffectApplicationPolicy = ApplyOnOverlap | ApplyOnEndOverlap | DoNotApply

  datatype EffectRemovalPolicy = RemoveOnEndOverlap | DoNotRemove

  /** The duration policy of the UGameplayEffect a class describes. */
  datatype DurationType = Instant | HasDuration | Infinite

  /** A UGameplayEffect class; an unset TSubclassOf is None where it is held. */
  datatype GameplayEffectClass = GameplayEffectClass(id: nat, durationPolicy: DurationType)

  /**
   * FInstantGameplayEffect, FDurationGameplayEffect and FInfiniteGameplayEffect: an effect
   * class and the policy saying when to apply it.
   */
  datatype AdditionalEffect = AdditionalEffect(effectClass: Option<GameplayEffectClass>,
                                               effectApplicationPolicy: EffectApplicationPolicy)

  /** The actor that overlapped: its actor tags and its ability-system component (0 for none). */
  datatype TargetActor = TargetActor(tags: seq<string>, abilitySystemComponent: nat)

  /** The actor's editor settings; nothing in the actor writes them. */
  datatype EffectActorConfig = EffectActorConfig(
    actorLevel: real,
    destroyOnEffectApplication: bool,
    applyEffectsToEnemies: bool,
    instantGameplayEffectClass: Option<GameplayEffectClass>,
    instantEffectApplicationPolicy: EffectApplicationPolicy,
    durationGameplayEffectClass: Option<GameplayEffectClass>,
    durationEffectApplicationPolicy: EffectApplicationPolicy,
    infiniteGameplayEffectClass: Option<GameplayEffectClass>,
    infiniteEffectApplicationPolicy: EffectApplicationPolicy,
    infiniteEffectRemovalPolicy: EffectRemovalPolicy,
    instantGameplayEffects: seq<AdditionalEffect>,
    durationGameplayEffects: seq<AdditionalEffect>,
    infiniteGameplayEffects: seq<AdditionalEffect>)

  /** One ApplyGameplayEffectSpecToSelf on a target's component, and the handle it returned. */
  datatype AppliedEffect = AppliedEffect(abilitySystemComponent: nat, effectClass: GameplayEffectClass,
                                         level: real, handle: nat)

  /**
   * What the actor changes: the ActiveEffectHandles map, the effects applied so far, the
   * handles removed from their components, whether Destroy has been called, and the next
   * handle the engine hands out.
   */
  datatype EffectActorState = EffectActorState(
    activeEffectHandles: map<nat, nat>,
    applied: seq<AppliedEffect>,
    removed: set<nat>,
    destroyed: bool,
    nextHandle: nat)

  const InitialState := EffectActorState(map[], [], {}, false, 0)

  /** Every recorded handle was handed out already, so a new one never overwrites it. */
  predicate HandlesIssued(st: EffectActorState)
  {
    forall h :: h in st.activeEffectHandles ==> h < st.nextHandle
  }

  /** The target carries the "Enemy" actor tag (in any case) and the actor does not apply effects to enemies. */
  predicate IgnoresTarget(c: EffectActorConfig, target: TargetActor)
  {
    ActorHasTag(target.tags, "Enemy") && !c.applyEffectsToEnemies
  }

  /** An actor tagged "enemy" or "ENEMY" is an enemy too, and is ignored when effects skip enemies. */
  lemma IgnoresEnemyInAnyCase(c: EffectActorConfig, target: TargetActor)
    requires "enemy" in target.tags || "ENEMY" in target.tags
    requires !c.applyEffectsToEnemies
    ensures IgnoresTarget(c, target)
  {
    ActorHasTagIgnoresCase(target.tags);
  }

  /** The `check` on the effect class: it must be set whenever the application gets that far. */
  predicate ApplyDemands(c: EffectActorConfig, target: TargetActor, effectClass: Option<GameplayEffectClass>)
  {
    !IgnoresTarget(c, target) && target.abilitySystemComponent != 0 ==> effectClass.Some?
  }

  /** ApplyEffectToTarget on the state: ignored targets and targets without a component change nothing. */
  function Apply(c: EffectActorConfig, st: EffectActorState, target: TargetActor,
                 effectClass: Option<GameplayEffectClass>, destroyImmediately: bool): EffectActorState
    requires ApplyDemands(c, target, effectClass)
  {
    if IgnoresTarget(c, target) || target.abilitySystemComponent == 0 then st
    else
      var asc := target.abilitySystemComponent;
      var handle := st.nextHandle;
      var isInfinite := effectClass.value.durationPolicy == Infinite;
      st.(applied := st.applied + [AppliedEffect(asc, effectClass.value, c.actorLevel, handle)],
          nextHandle := handle + 1,
          activeEffectHandles :=
            if isInfinite && c.infiniteEffectRemovalPolicy == RemoveOnEndOverlap
            then st.activeEffectHandles[handle := asc] else st.activeEffectHandles,
          destroyed := st.destroyed || (!isInfinite && c.destroyOnEffectApplication && destroyImmediately))
  }

  /** The entries an additional-effects helper applies: those whose policy is not DoNotApply, in order. */
  function Applicable(effects: seq<AdditionalEffect>): (r: seq<AdditionalEffect>)
    ensures |r| <= |effects|
    ensures forall e :: e in r ==> e in effects && e.effectApplicationPolicy != DoNotApply
  {
    if |effects| == 0 then []
    else
      var rest := Applicable(effects[..|effects| - 1]);
      if effects[|effects| - 1].effectApplicationPolicy != DoNotApply then rest + [effects[|effects| - 1]] else rest
  }

  predicate AdditionalDemands(c: EffectActorConfig, target: TargetActor, effects: seq<AdditionalEffect>)
  {
    forall e :: e in effects && e.effectApplicationPolicy != DoNotApply ==> ApplyDemands(c, target, e.effectClass)
  }

  /** One entry of an additional-effects list: applied when its policy names either overlap event. */
  function ApplyEntry(c: EffectActorConfig, st: EffectActorState, target: TargetActor, e: AdditionalEffect): EffectActorState
    requires e.effectApplicationPolicy != DoNotApply ==> ApplyDemands(c, target, e.effectClass)
  {
    var s1 := if e.effectApplicationPolicy == ApplyOnOverlap then Apply(c, st, target, e.effectClass, false) else st;
    if e.effectApplicationPolicy == ApplyOnEndOverlap then Apply(c, s1, target, e.effectClass, false) else s1
  }

  /** The additional-effects helpers on the state, entry by entry in list order. */
  function ApplyAdditional(c: EffectActorConfig, st: EffectActorState, target: TargetActor,
                           effects: seq<AdditionalEffect>): EffectActorState
    requires AdditionalDemands(c, target, effects)
  {
    if |effects| == 0 then st
    else
      var last := effects[|effects| - 1];
      assert last in effects;
      ApplyEntry(c, ApplyAdditional(c, st, target, effects[..|effects| - 1]), target, last)
  }

  /** Applying the effects of `effects` one after another, each without destroying the actor. */
  function ApplyEach(c: EffectActorConfig, st: EffectActorState, target: TargetActor,
                     effects: seq<AdditionalEffect>): EffectActorState
    requires forall e :: e in effects ==> ApplyDemands(c, target, e.effectClass)
  {
    if |effects| == 0 then st
    else
      assert effects[|effects| - 1] in effects;
      Apply(c, ApplyEach(c, st, target, effects[..|effects| - 1]), target, effects[|effects| - 1].effectClass, false)
  }

  /** What an event's main effect and its list need: both checks pass for every effect applied. */
  predicate EventDemands(c: EffectActorConfig, target: TargetActor, policy: EffectApplicationPolicy)
  {
    && (c.instantEffectApplicationPolicy == policy ==>
          ApplyDemands(c, target, c.instantGameplayEffectClass) && AdditionalDemands(c, target, c.instantGameplayEffects))
    && (c.durationEffectApplicationPolicy == policy ==>
          ApplyDemands(c, target, c.durationGameplayEffectClass) && AdditionalDemands(c, target, c.durationGameplayEffects))
    && (c.infiniteEffectApplicationPolicy == policy ==>
          ApplyDemands(c, target, c.infiniteGameplayEffectClass) && AdditionalDemands(c, target, c.infiniteGameplayEffects))
  }

  function DestroyIfConfigured(c: EffectActorConfig, st: EffectActorState): EffectActorState
  {
    if c.destroyOnEffectApplication then st.(destroyed := true) else st
  }

  /**
   * The part OnOverlap and OnEndOverlap share, for the event `policy` names: the instant, then
   * the duration, then the infinite main effect with its list when its policy names the event,
   * destroying the actor after the instant and after the duration group when configured to.
   */
  function ApplyMainEffects(c: EffectActorConfig, st: EffectActorState, target: TargetActor,
                            policy: EffectApplicationPolicy): EffectActorState
    requires EventDemands(c, target, policy)
  {
    var s1 := if c.instantEffectApplicationPolicy == policy
      then DestroyIfConfigured(c, ApplyAdditional(c, Apply(c, st, target, c.instantGameplayEffectClass, false),
                                                  target, c.instantGameplayEffects))
      else st;
    var s2 := if c.durationEffectApplicationPolicy == policy
      then DestroyIfConfigured(c, ApplyAdditional(c, Apply(c, s1, target, c.durationGameplayEffectClass, false),
                                                  target, c.durationGameplayEffects))
      else s1;
    if c.infiniteEffectApplicationPolicy == policy
    then ApplyAdditional(c, Apply(c, s2, target, c.infiniteGameplayEffectClass, false), target, c.infiniteGameplayEffects)
    else s2
  }

  function Overlap(c: EffectActorConfig, st: EffectActorState, target: TargetActor): EffectActorState
    requires EventDemands(c, target, ApplyOnOverlap)
  {
    if IgnoresTarget(c, target) then st else ApplyMainEffects(c, st, target, ApplyOnOverlap)
  }

  /** The handles recorded for `asc`. */
  function HandlesOf(handles: map<nat, nat>, asc: nat): set<nat>
  {
    set h | h in handles && handles[h] == asc
  }

  function Elements(s: seq<nat>): set<nat>
  {
    set k | k in s
  }

  /** The end-overlap removal: every handle recorded for `asc` is removed from the component and from the map. */
  function RemoveHandlesOf(st: EffectActorState, asc: nat): EffectActorState
  {
    st.(activeEffectHandles := st.activeEffectHandles - HandlesOf(st.activeEffectHandles, asc),
        removed := st.removed + HandlesOf(st.activeEffectHandles, asc))
  }

  function EndOverlap(c: EffectActorConfig, st: EffectActorState, target: TargetActor): EffectActorState
    requires EventDemands(c, target, ApplyOnEndOverlap)
  {
    if IgnoresTarget(c, target) then st
    else
      var s := ApplyMainEffects(c, st, target, ApplyOnEndOverlap);
      if c.infiniteEffectRemovalPolicy == RemoveOnEndOverlap && target.abilitySystemComponent != 0
      then RemoveHandlesOf(s, target.abilitySystemComponent)
      else s
  }

  // ----- Properties of the specification -----

  /** An ignored enemy, or a target without a component, is left alone by ApplyEffectToTarget. */
  lemma ApplyIgnored(c: EffectActorConfig, st: EffectActorState, target: TargetActor,
                     effectClass: Option<GameplayEffectClass>, destroyImmediately: bool)
    requires IgnoresTarget(c, target) || target.abilitySystemComponent == 0
    ensures Apply(c, st, target, effectClass, destroyImmediately) == st
  {
  }

  /**
   * A handle is recorded exactly when the effect is infinite and the removal policy is
   * RemoveOnEndOverlap, and the actor destroys itself exactly for a non-infinite effect with
   * both destroy flags set. Recorded handles are never lost or overwritten.
   */
  lemma ApplyRecordsAndDestroys(c: EffectActorConfig, st: EffectActorState, target: TargetActor,
                                effectClass: GameplayEffectClass, destroyImmediately: bool)
    requires !IgnoresTarget(c, target) && target.abilitySystemComponent != 0
    requires HandlesIssued(st)
    ensures var r := Apply(c, st, target, Some(effectClass), destroyImmediately);
      && r.applied == st.applied + [AppliedEffect(target.abilitySystemComponent, effectClass, c.actorLevel, st.nextHandle)]
      && (st.nextHandle in r.activeEffectHandles
          <==> effectClass.durationPolicy == Infinite && c.infiniteEffectRemovalPolicy == RemoveOnEndOverlap)
      && (forall h :: h in st.activeEffectHandles ==> h in r.activeEffectHandles && r.activeEffectHandles[h] == st.activeEffectHandles[h])
      && (r.destroyed <==>
            (st.destroyed || (effectClass.durationPolicy != Infinite && c.destroyOnEffectApplication && destroyImmediately)))
      && HandlesIssued(r)
  {
  }

  /** Applying never removes or rewrites a recorded handle and keeps every recorded handle issued. */
  lemma ApplyKeepsHandles(c: EffectActorConfig, st: EffectActorState, target: TargetActor,
                          effectClass: Option<GameplayEffectClass>, destroyImmediately: bool)
    requires ApplyDemands(c, target, effectClass)
    requires HandlesIssued(st)
    ensures var r := Apply(c, st, target, effectClass, destroyImmediately);
      && HandlesIssued(r)
      && st.activeEffectHandles.Keys <= r.activeEffectHandles.Keys
      && (forall h :: h in st.activeEffectHandles ==> r.activeEffectHandles[h] == st.activeEffectHandles[h])
      && r.removed == st.removed
      && (!destroyImmediately ==> r.destroyed == st.destroyed)
  {
  }

  /**
   * The additional-effects helpers apply exactly the entries whose policy is ApplyOnOverlap
   * or ApplyOnEndOverlap, in list order, whichever event called them, and never destroy the
   * actor or remove a handle.
   */
  lemma {:induction false} AdditionalAppliesApplicable(c: EffectActorConfig, st: EffectActorState, target: TargetActor,
                                                       effects: seq<AdditionalEffect>)
    requires AdditionalDemands(c, target, effects)
    ensures forall e :: e in Applicable(effects) ==> ApplyDemands(c, target, e.effectClass)
    ensures ApplyAdditional(c, st, target, effects) == ApplyEach(c, st, target, Applicable(effects))
  {
    if |effects| > 0 {
      var init := effects[..|effects| - 1];
      var last := effects[|effects| - 1];
      assert forall e :: e in init ==> e in effects;
      AdditionalAppliesApplicable(c, st, target, init);
      var rest := Applicable(init);
      if last.effectApplicationPolicy != DoNotApply {
        assert last in effects;
        assert (rest + [last])[..|rest + [last]| - 1] == rest;
      }
    }
  }

  /** Applying a list of effects without destroying: never destroys, never removes, keeps old handles. */
  lemma {:induction false} ApplyEachKeeps(c: EffectActorConfig, st: EffectActorState, target: TargetActor,
                                          effects: seq<AdditionalEffect>)
    requires forall e :: e in effects ==> ApplyDemands(c, target, e.effectClass)
    requires HandlesIssued(st)
    ensures var r := ApplyEach(c, st, target, effects);
      && HandlesIssued(r)
      && r.destroyed == st.destroyed
      && r.removed == st.removed
      && st.activeEffectHandles.Keys <= r.activeEffectHandles.Keys
      && (forall h :: h in st.activeEffectHandles ==> r.activeEffectHandles[h] == st.activeEffectHandles[h])
  {
    if |effects| > 0 {
      var init := effects[..|effects| - 1];
      assert forall e :: e in init ==> e in effects;
      assert effects[|effects| - 1] in effects;
      ApplyEachKeeps(c, st, target, init);
      ApplyKeepsHandles(c, ApplyEach(c, st, target, init), target, effects[|effects| - 1].effectClass, false);
    }
  }

  /** An ignored target, or one without a component, gets nothing from a list either. */
  lemma {:induction false} ApplyEachIgnored(c: EffectActorConfig, st: EffectActorState, target: TargetActor,
                                            effects: seq<AdditionalEffect>)
    requires IgnoresTarget(c, target) || target.abilitySystemComponent == 0
    ensures forall e :: e in effects ==> ApplyDemands(c, target, e.effectClass)
    ensures ApplyEach(c, st, target, effects) == st
  {
    if |effects| > 0 {
      ApplyEachIgnored(c, st, target, effects[..|effects| - 1]);
    }
  }

  /** An enemy the actor ignores is left alone by both overlap events, removal included. */
  lemma IgnoredEnemyUnchanged(c: EffectActorConfig, st: EffectActorState, target: TargetActor)
    requires IgnoresTarget(c, target)
    ensures EventDemands(c, target, ApplyOnOverlap) && EventDemands(c, target, ApplyOnEndOverlap)
    ensures Overlap(c, st, target) == st
    ensures EndOverlap(c, st, target) == st
  {
  }

  /** With no main policy naming the event, the shared part changes nothing. */
  lemma NoPolicyForEventChangesNothing(c: EffectActorConfig, st: EffectActorState, target: TargetActor,
                                       policy: EffectApplicationPolicy)
    requires c.instantEffectApplicationPolicy != policy
    requires c.durationEffectApplicationPolicy != policy
    requires c.infiniteEffectApplicationPolicy != policy
    ensures EventDemands(c, target, policy)
    ensures ApplyMainEffects(c, st, target, policy) == st
  {
  }

  /** The shared part of an overlap never removes a handle and keeps the recorded ones. */
  lemma MainEffectsKeepHandles(c: EffectActorConfig, st: EffectActorState, target: TargetActor,
                               policy: EffectApplicationPolicy)
    requires EventDemands(c, target, policy)
    requires HandlesIssued(st)
    ensures var r := ApplyMainEffects(c, st, target, policy);
      && HandlesIssued(r)
      && r.removed == st.removed
      && st.activeEffectHandles.Keys <= r.activeEffectHandles.Keys
      && (forall h :: h in st.activeEffectHandles ==> r.activeEffectHandles[h] == st.activeEffectHandles[h])
      && (r.destroyed <==>
            (st.destroyed || (c.destroyOnEffectApplication
              && (c.instantEffectApplicationPolicy == policy || c.durationEffectApplicationPolicy == policy))))
  {
    var s0 := st;
    var s1 := if c.instantEffectApplicationPolicy == policy
      then DestroyIfConfigured(c, ApplyAdditional(c, Apply(c, st, target, c.instantGameplayEffectClass, false),
                                                  target, c.instantGameplayEffects))
      else st;
    if c.instantEffectApplicationPolicy == policy {
      GroupKeepsHandles(c, st, target, c.instantGameplayEffectClass, c.instantGameplayEffects);
    }
    var s2 := if c.durationEffectApplicationPolicy == policy
      then DestroyIfConfigured(c, ApplyAdditional(c, Apply(c, s1, target, c.durationGameplayEffectClass, false),
                                                  target, c.durationGameplayEffects))
      else s1;
    if c.durationEffectApplicationPolicy == policy {
      GroupKeepsHandles(c, s1, target, c.durationGameplayEffectClass, c.durationGameplayEffects);
    }
    if c.infiniteEffectApplicationPolicy == policy {
      GroupKeepsHandles(c, s2, target, c.infiniteGameplayEffectClass, c.infiniteGameplayEffects);
    }
  }

  /** One main effect followed by its list: never destroys, never removes, keeps the recorded handles. */
  lemma GroupKeepsHandles(c: EffectActorConfig, st: EffectActorState, target: TargetActor,
                          main: Option<GameplayEffectClass>, effects: seq<AdditionalEffect>)
    requires ApplyDemands(c, target, main) && AdditionalDemands(c, target, effects)
    requires HandlesIssued(st)
    ensures var r := ApplyAdditional(c, Apply(c, st, target, main, false), target, effects);
      && HandlesIssued(r)
      && r.removed == st.removed
      && r.destroyed == st.destroyed
      && st.activeEffectHandles.Keys <= r.activeEffectHandles.Keys
      && (forall h :: h in st.activeEffectHandles ==> r.activeEffectHandles[h] == st.activeEffectHandles[h])
  {
    var s := Apply(c, st, target, main, false);
    ApplyKeepsHandles(c, st, target, main, false);
    AdditionalAppliesApplicable(c, s, target, effects);
    ApplyEachKeeps(c, s, target, Applicable(effects));
  }

  /**
   * On end overlap under RemoveOnEndOverlap, every handle recorded for the target's component
   * is removed from it and leaves the map, and the entries of every other component stay.
   */
  lemma EndOverlapRemovesTargetHandles(c: EffectActorConfig, st: EffectActorState, target: TargetActor)
    requires EventDemands(c, target, ApplyOnEndOverlap)
    requires !IgnoresTarget(c, target) && target.abilitySystemComponent != 0
    requires c.infiniteEffectRemovalPolicy == RemoveOnEndOverlap
    requires HandlesIssued(st)
    ensures var r := EndOverlap(c, st, target);
      && HandlesOf(r.activeEffectHandles, target.abilitySystemComponent) == {}
      && HandlesOf(st.activeEffectHandles, target.abilitySystemComponent) <= r.removed
      && (forall h :: h in st.activeEffectHandles && st.activeEffectHandles[h] != target.abilitySystemComponent
            ==> h in r.activeEffectHandles && r.activeEffectHandles[h] == st.activeEffectHandles[h])
      && HandlesIssued(r)
  {
    MainEffectsKeepHandles(c, st, target, ApplyOnEndOverlap);
  }

  /** Without RemoveOnEndOverlap nothing is ever removed on end overlap. */
  lemma EndOverlapWithoutRemovalKeepsHandles(c: EffectActorConfig, st: EffectActorState, target: TargetActor)
    requires EventDemands(c, target, ApplyOnEndOverlap)
    requires c.infiniteEffectRemovalPolicy == DoNotRemove
    requires HandlesIssued(st)
    ensures var r := EndOverlap(c, st, target);
      && r.removed == st.removed
      && (forall h :: h in st.activeEffectHandles ==> h in r.activeEffectHandles && r.activeEffectHandles[h] == st.activeEffectHandles[h])
  {
    if !IgnoresTarget(c, target) {
      MainEffectsKeepHandles(c, st, target, ApplyOnEndOverlap);
    }
  }

  /**
   * A configured Destroy after the instant or duration group happens on the event even when
   * the target has no ability-system component, so nothing was applied.
   */
  lemma DestroyWithoutComponent(c: EffectActorConfig, st: EffectActorState, target: TargetActor)
    requires !IgnoresTarget(c, target) && target.abilitySystemComponent == 0
    requires c.destroyOnEffectApplication && c.instantEffectApplicationPolicy == ApplyOnOverlap
    ensures EventDemands(c, target, ApplyOnOverlap)
    ensures Overlap(c, st, target).destroyed
    ensures Overlap(c, st, target).applied == st.applied
  {
    forall effects: seq<AdditionalEffect>, s: EffectActorState
      ensures AdditionalDemands(c, target, effects) && ApplyAdditional(c, s, target, effects) == s
    {
      AdditionalAppliesApplicable(c, s, target, effects);
      ApplyEachIgnored(c, s, target, Applicable(effects));
    }
  }

  // ----- The actor -----

  class AriaEffectActor {
    const config: EffectActorConfig
    var state: EffectActorState

    constructor(config: EffectActorConfig)
      ensures this.config == config && state == InitialState
    {
      this.config := config;
      state := InitialState;
    }

    method ApplyEffectToTarget(target: TargetActor, effectClass: Option<GameplayEffectClass>, destroyImmediately: bool)
      requires ApplyDemands(config, target, effectClass)
      modifies this
      ensures state == Apply(config, old(state), target, effectClass, destroyImmediately)
    {
      if ActorHasTag(target.tags, "Enemy") && !config.applyEffectsToEnemies {
        return;
      }
      var targetAsc := target.abilitySystemComponent;
      if targetAsc == 0 {
        return;
      }
      var gameplayEffectClass := effectClass.value;
      var activeEffectHandle := state.nextHandle;
      state := state.(applied := state.applied + [AppliedEffect(targetAsc, gameplayEffectClass, config.actorLevel, activeEffectHandle)],
                      nextHandle := activeEffectHandle + 1);
      var isInfinite := gameplayEffectClass.durationPolicy == Infinite;
      if isInfinite && config.infiniteEffectRemovalPolicy == RemoveOnEndOverlap {
        state := state.(activeEffectHandles := state.activeEffectHandles[activeEffectHandle := targetAsc]);
      }
      if !isInfinite && config.destroyOnEffectApplication && destroyImmediately {
        state := state.(destroyed := true);
      }
    }

    /** The three additional-effects helpers, which differ only in the struct their list holds. */
    method ApplyAdditionalEffectsToTarget(target: TargetActor, additionalEffects: seq<AdditionalEffect>)
      requires AdditionalDemands(config, target, additionalEffects)
      modifies this
      ensures state == ApplyAdditional(config, old(state), target, additionalEffects)
    {
      for i := 0 to |additionalEffects|
        invariant AdditionalDemands(config, target, additionalEffects[..i])
        invariant state == ApplyAdditional(config, old(state), target, additionalEffects[..i])
      {
        var gameplayEffect := additionalEffects[i];
        assert gameplayEffect in additionalEffects;
        assert additionalEffects[..i + 1][..i] == additionalEffects[..i];
        if gameplayEffect.effectApplicationPolicy == ApplyOnOverlap {
          ApplyEffectToTarget(target, gameplayEffect.effectClass, false);
        }
        if gameplayEffect.effectApplicationPolicy == ApplyOnEndOverlap {
          ApplyEffectToTarget(target, gameplayEffect.effectClass, false);
        }
      }
      assert additionalEffects[..|additionalEffects|] == additionalEffects;
    }

    method DestroyOnApplication()
      modifies this
      ensures state == DestroyIfConfigured(config, old(state))
    {
      if config.destroyOnEffectApplication {
        state := state.(destroyed := true);
      }
    }

    /** The body OnOverlap and OnEndOverlap share, for the event `policy` names. */
    method ApplyMainEffectsFor(target: TargetActor, policy: EffectApplicationPolicy)
      requires EventDemands(config, target, policy)
      modifies this
      ensures state == ApplyMainEffects(config, old(state), target, policy)
    {
      if config.instantEffectApplicationPolicy == policy {
        ApplyEffectToTarget(target, config.instantGameplayEffectClass, false);
        ApplyAdditionalEffectsToTarget(target, config.instantGameplayEffects);
        DestroyOnApplication();
      }
      if config.durationEffectApplicationPolicy == policy {
        ApplyEffectToTarget(target, config.durationGameplayEffectClass, false);
        ApplyAdditionalEffectsToTarget(target, config.durationGameplayEffects);
        DestroyOnApplication();
      }
      if config.infiniteEffectApplicationPolicy == policy {
        ApplyEffectToTarget(target, config.infiniteGameplayEffectClass, false);
        ApplyAdditionalEffectsToTarget(target, config.infiniteGameplayEffects);
      }
    }

    method OnOverlap(target: TargetActor)
      requires EventDemands(config, target, ApplyOnOverlap)
      modifies this
      ensures state == Overlap(config, old(state), target)
    {
      if ActorHasTag(target.tags, "Enemy") && !config.applyEffectsToEnemies {
        return;
      }
      ApplyMainEffectsFor(target, ApplyOnOverlap);
    }

    method OnEndOverlap(target: TargetActor)
      requires EventDemands(config, target, ApplyOnEndOverlap)
      modifies this
      ensures state == EndOverlap(config, old(state), target)
    {
      if ActorHasTag(target.tags, "Enemy") && !config.applyEffectsToEnemies {
        return;
      }
      ApplyMainEffectsFor(target, ApplyOnEndOverlap);
      if config.infiniteEffectRemovalPolicy == RemoveOnEndOverlap {
        var targetAsc := target.abilitySystemComponent;
        if targetAsc == 0 {
          return;
        }
        RemoveHandlesFor(targetAsc);
      }
    }

    /**
     * The removal loops of OnEndOverlap: a pass over the map, in its unspecified order, removing
     * each effect recorded for `targetAsc` from the component and queueing its handle, then a
     * pass over the queue taking each handle out of the map.
     */
    method RemoveHandlesFor(targetAsc: nat)
      modifies this
      ensures state == RemoveHandlesOf(old(state), targetAsc)
    {
      var handles := state.activeEffectHandles;
      var handlesToRemove: seq<nat> := [];
      var pending := handles.Keys;
      while pending != {}
        invariant pending <= handles.Keys
        invariant state.activeEffectHandles == handles
        invariant state == old(state).(removed := old(state).removed + (HandlesOf(handles, targetAsc) - pending))
        invariant forall h :: h in handlesToRemove <==> h in HandlesOf(handles, targetAsc) && h !in pending
        invariant forall i, j :: 0 <= i < j < |handlesToRemove| ==> handlesToRemove[i] != handlesToRemove[j]
        decreases pending
      {
        var handlePair :| handlePair in pending;
        if handles[handlePair] == targetAsc {
          state := state.(removed := state.removed + {handlePair});
          handlesToRemove := handlesToRemove + [handlePair];
        }
        pending := pending - {handlePair};
      }
      for i := 0 to |handlesToRemove|
        invariant state.removed == old(state).removed + HandlesOf(handles, targetAsc)
        invariant state == old(state).(removed := state.removed, activeEffectHandles := state.activeEffectHandles)
        invariant state.activeEffectHandles == handles - Elements(handlesToRemove[..i])
      {
        var handle := handlesToRemove[i];
        assert handle !in handlesToRemove[..i];
        assert handle in state.activeEffectHandles;
        assert Elements(handlesToRemove[..i + 1]) == Elements(handlesToRemove[..i]) + {handle};
        state := state.(activeEffectHandles := state.activeEffectHandles - {handle});
      }
      assert Elements(handlesToRemove[..|handlesToRemove|]) == HandlesOf(handles, targetAsc);
    }
  }
}
