/** UAttributeInfo: the data asset naming and describing each attribute shown in the UI. */
module AttributeInfo {
  import opened Tags

  /** FAriaAttributeInfo; the user-facing texts are plain strings. */
  datatype AriaAttributeInfo = AriaAttributeInfo(attributeTag: Tag, attributeName: string, attributeDescription: string, attributeValue: real)

  /** A default-constructed FAriaAttributeInfo: empty tag and texts, value 0. */
  const DefaultAttributeInfo := AriaAttributeInfo(EmptyTag, "", "", 0.0)

  /**
   * FindAttributeInfoForTag: the first entry whose tag exactly matches the query, or the
   * default entry when there is none.
   */
  function FindAttributeInfoForTag(infos: seq<AriaAttributeInfo>, attributeTag: Tag): (r: AriaAttributeInfo)
    ensures (exists i :: 0 <= i < |infos| && MatchesTagExact(infos[i].attributeTag, attributeTag)) ==>
              exists i :: 0 <= i < |infos| && infos[i] == r && MatchesTagExact(r.attributeTag, attributeTag) &&
                forall j :: 0 <= j < i ==> !MatchesTagExact(infos[j].attributeTag, attributeTag)
    ensures (forall i :: 0 <= i < |infos| ==> !MatchesTagExact(infos[i].attributeTag, attributeTag)) ==>
              r == DefaultAttributeInfo
  {
    if |infos| == 0 then DefaultAttributeInfo
    else if MatchesTagExact(infos[0].attributeTag, attributeTag) then infos[0]
    else
      var r := FindAttributeInfoForTag(infos[1..], attributeTag);
      assert forall i :: 1 <= i < |infos| ==> infos[i] == infos[1..][i - 1];
      r
  }

  /** The invalid tag never finds anything: only the default comes back. */
  lemma {:induction false} InvalidTagFindsDefault(infos: seq<AriaAttributeInfo>)
    ensures FindAttributeInfoForTag(infos, EmptyTag) == DefaultAttributeInfo
  {
    if |infos| > 0 {
      InvalidTagFindsDefault(infos[1..]);
    }
  }
}
