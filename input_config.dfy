/** UAriaInputConfig: the mapping from input actions to the input tags abilities listen for. */
module InputConfig {
  import opened Tags
  import opened Wrappers

  /** An input action is an engine object, reduced to an id. */
  type InputActionId = nat

  /** FAriaInputAction: an input action pointer (possibly null) and the tag it fires. */
  datatype AriaInputAction = AriaInputAction(inputAction: Option<InputActionId>, inputTag: Tag)

  /**
   * FindAbilityInputActionForTag: the action of the first entry that has a non-null
   * action AND a tag exactly matching the query; null when no entry qualifies.
   */
  function FindAbilityInputActionForTag(actions: seq<AriaInputAction>, inputTag: Tag): (r: Option<InputActionId>)
    ensures r.Some? <==> exists i :: 0 <= i < |actions| && actions[i].inputAction.Some? && MatchesTagExact(actions[i].inputTag, inputTag)
    ensures r.Some? ==>
              exists i :: 0 <= i < |actions| && actions[i].inputAction == r && MatchesTagExact(actions[i].inputTag, inputTag) &&
                forall j :: 0 <= j < i ==> !(actions[j].inputAction.Some? && MatchesTagExact(actions[j].inputTag, inputTag))
  {
    if |actions| == 0 then None
    else if actions[0].inputAction.Some? && MatchesTagExact(actions[0].inputTag, inputTag) then actions[0].inputAction
    else
      var r := FindAbilityInputActionForTag(actions[1..], inputTag);
      assert forall i :: 1 <= i < |actions| ==> actions[i] == actions[1..][i - 1];
      r
  }

  /** An entry with a null action is skipped even when its tag matches: removing it changes nothing. */
  lemma {:induction false} NullActionsSkipped(pre: seq<AriaInputAction>, t: Tag, post: seq<AriaInputAction>, inputTag: Tag)
    ensures FindAbilityInputActionForTag(pre + [AriaInputAction(None, t)] + post, inputTag)
         == FindAbilityInputActionForTag(pre + post, inputTag)
  {
    if |pre| == 0 {
      assert pre + [AriaInputAction(None, t)] + post == [AriaInputAction(None, t)] + post;
      assert ([AriaInputAction(None, t)] + post)[1..] == post;
      assert pre + post == post;
    } else {
      assert (pre + [AriaInputAction(None, t)] + post)[1..] == pre[1..] + [AriaInputAction(None, t)] + post;
      assert (pre + post)[1..] == pre[1..] + post;
      assert (pre + [AriaInputAction(None, t)] + post)[0] == pre[0] == (pre + post)[0];
      NullActionsSkipped(pre[1..], t, post, inputTag);
    }
  }
}
