/**
 * The decision taken after the image classifier has answered: which of the
 * returned tags, if any, counts as a photo of the target item.  The HTTP
 * exchange with the classifier is not modelled; its outcome is an input.
 */
module Tagging {
  import opened Wrappers

  /** One tag of the classifier's answer: a name and a confidence in [0, 1]. */
  datatype Tag = Tag(name: string, confidence: real)

  /**
   * What the classifier call produced.  NoVerdict: the service is not
   * configured, the request failed or the answer was not HTTP-ok (the call
   * returns `false`).  Crashed: the call threw (for example an answer without
   * a tag list).  Tagged: the answer's tags, in the order the service gave them.
   */
  datatype Reply = NoVerdict | Crashed | Tagged(tags: seq<Tag>)

  /**
   * The `{ isCorrect, confidence }` pair seen by the upload handler.
   * NoMatch(None) is what destructuring `false` yields (both fields undefined);
   * Threw is an exception that reaches the handler's catch.
   */
  datatype Verdict = Threw | NoMatch(reported: Option<real>) | Match(confidence: real)

  /** The fixed confidence a tag must reach. */
  const Threshold: real := 0.6

  function LowerChar(c: char): (d: char)
    ensures 'A' <= c <= 'Z' ==> d as int == c as int + 32
    ensures !('A' <= c <= 'Z') ==> d == c
  {
    if 'A' <= c <= 'Z' then (c as int + 32) as char else c
  }

  /** Lower-casing, on the ASCII letters. */
  function ToLower(s: string): (r: string)
    ensures |r| == |s|
    ensures forall i :: 0 <= i < |s| ==> r[i] == LowerChar(s[i])
  {
    if s == [] then [] else [LowerChar(s[0])] + ToLower(s[1..])
  }

  /** `needle` is a prefix of `hay`. */
  predicate StartsWith(hay: string, needle: string) {
    |needle| <= |hay| && hay[..|needle|] == needle
  }

  /** `hay.includes(needle)`: `needle` occurs in `hay` at some position. */
  predicate Includes(hay: string, needle: string)
    decreases |hay|
  {
    StartsWith(hay, needle) || (|hay| > |needle| && Includes(hay[1..], needle))
  }

  /** The `find` callback: confident enough, and the lower-cased names equal or one contains the other. */
  predicate Qualifies(tag: Tag, lowerTarget: string) {
    var name := ToLower(tag.name);
    tag.confidence >= Threshold &&
    (name == lowerTarget || Includes(name, lowerTarget) || Includes(lowerTarget, name))
  }

  /** The position `data.tags.find(...)` stops at, or None when no tag qualifies. */
  function FirstQualifying(tags: seq<Tag>, lowerTarget: string): (r: Option<nat>)
    ensures r.Some? ==> r.value < |tags| && Qualifies(tags[r.value], lowerTarget)
    ensures r.Some? ==> forall j :: 0 <= j < r.value ==> !Qualifies(tags[j], lowerTarget)
    ensures r.None? <==> forall j :: 0 <= j < |tags| ==> !Qualifies(tags[j], lowerTarget)
  {
    if tags == [] then None
    else if Qualifies(tags[0], lowerTarget) then Some(0)
    else match FirstQualifying(tags[1..], lowerTarget)
      case Some(k) => Some(k + 1)
      case None => None
  }

  /** What the classifier call hands back to the upload handler for `targetLabel`. */
  function CheckImage(reply: Reply, targetLabel: string): (v: Verdict)
    ensures v.Threw? <==> reply.Crashed?
    ensures reply.NoVerdict? ==> v == NoMatch(None)
    ensures reply.Tagged? ==>
      (v.Match? <==> exists i :: 0 <= i < |reply.tags| && Qualifies(reply.tags[i], ToLower(targetLabel)))
    ensures reply.Tagged? && v.NoMatch? ==> v.reported == Some(0.0)
    ensures v.Match? ==> (reply.Tagged? &&
      exists i :: 0 <= i < |reply.tags| && Qualifies(reply.tags[i], ToLower(targetLabel)) &&
        (forall j :: 0 <= j < i ==> !Qualifies(reply.tags[j], ToLower(targetLabel))) &&
        v.confidence == reply.tags[i].confidence)
    ensures v.Match? ==> v.confidence >= Threshold
  {
    match reply
    case NoVerdict => NoMatch(None)
    case Crashed => Threw
    case Tagged(tags) =>
      match FirstQualifying(tags, ToLower(targetLabel))
      case Some(i) => Match(tags[i].confidence)
      case None => NoMatch(Some(0.0))
  }

  lemma {:induction false} ToLowerIdempotent(s: string)
    ensures ToLower(ToLower(s)) == ToLower(s)
  {
    if s != [] {
      ToLowerIdempotent(s[1..]);
      assert ToLower(s)[1..] == ToLower(s[1..]);
    }
  }

  /**
   * Matching is case-insensitive: the verdict does not change when the target
   * label or any tag name is replaced by its lower-cased form.
   */
  lemma MatchIgnoresCase(tags: seq<Tag>, targetLabel: string)
    ensures CheckImage(Tagged(tags), ToLower(targetLabel)) == CheckImage(Tagged(tags), targetLabel)
    ensures CheckImage(Tagged(LowerNames(tags)), targetLabel) == CheckImage(Tagged(tags), targetLabel)
  {
    ToLowerIdempotent(targetLabel);
    var lowered := LowerNames(tags);
    forall i | 0 <= i < |tags|
      ensures Qualifies(lowered[i], ToLower(targetLabel)) == Qualifies(tags[i], ToLower(targetLabel))
    {
      ToLowerIdempotent(tags[i].name);
    }
    LowerNamesQualify(tags, ToLower(targetLabel));
  }

  /** Every tag with its name lower-cased. */
  function LowerNames(tags: seq<Tag>): (r: seq<Tag>)
    ensures |r| == |tags|
    ensures forall i :: 0 <= i < |tags| ==> r[i] == Tag(ToLower(tags[i].name), tags[i].confidence)
  {
    if tags == [] then [] else [Tag(ToLower(tags[0].name), tags[0].confidence)] + LowerNames(tags[1..])
  }

  lemma LowerNamesQualify(tags: seq<Tag>, lowerTarget: string)
    requires forall i :: 0 <= i < |tags| ==> Qualifies(LowerNames(tags)[i], lowerTarget) == Qualifies(tags[i], lowerTarget)
    ensures FirstQualifying(LowerNames(tags), lowerTarget) == FirstQualifying(tags, lowerTarget)
  {
  }
}
