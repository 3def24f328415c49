/**
 * The signal-type label that the relay hub computes for its log line
 * (backend/Hubs/VideoCallHub.cs, SendSignal). The label is found by plain
 * substring search on the serialized payload, with ordinal comparison as
 * .NET's `String.Contains(string)` does; nothing is parsed.
 */
module Classifier {
  import opened Wrappers

  const OfferTag: string := "\"type\":\"offer\""
  const AnswerTag: string := "\"type\":\"answer\""
  const CandidateTag: string := "\"type\":\"candidate\""

  /** `pat` occurs in `s` starting at index `i`. */
  ghost predicate OccursAt(s: string, pat: string, i: int) {
    0 <= i && i + |pat| <= |s| && s[i..i + |pat|] == pat
  }

  /** Reference definition of "`s` contains `pat`". */
  ghost predicate Mentions(s: string, pat: string) {
    exists i :: OccursAt(s, pat, i)
  }

  /** The first index at or after `from` where `pat` occurs in `s`, if any. */
  function IndexOfFrom(s: string, pat: string, from: nat): (r: Option<nat>)
    decreases |s| - from
    ensures r.Some? ==> from <= r.value && OccursAt(s, pat, r.value)
    ensures r.Some? ==> forall i :: from <= i < r.value ==> !OccursAt(s, pat, i)
    ensures r.None? ==> forall i :: from <= i ==> !OccursAt(s, pat, i)
  {
    if from + |pat| > |s| then None
    else if s[from..from + |pat|] == pat then Some(from)
    else IndexOfFrom(s, pat, from + 1)
  }

  /** `String.Contains`: true exactly when `pat` occurs somewhere in `s`. */
  function Contains(s: string, pat: string): (b: bool)
    ensures b <==> Mentions(s, pat)
  {
    var r := IndexOfFrom(s, pat, 0);
    if r.Some? then
      assert OccursAt(s, pat, r.value);
      true
    else
      false
  }

  /**
   * The label logged for a relayed signal: the offer tag wins over the
   * answer tag, which wins over the candidate tag; "unknown" when none
   * of the three occurs.
   */
  function ClassifySignal(signal: string): (kind: string)
    ensures kind in {"offer", "answer", "candidate", "unknown"}
    ensures kind == "offer" <==> Mentions(signal, OfferTag)
    ensures kind == "answer" <==> !Mentions(signal, OfferTag) && Mentions(signal, AnswerTag)
    ensures kind == "candidate" <==>
      !Mentions(signal, OfferTag) && !Mentions(signal, AnswerTag) && Mentions(signal, CandidateTag)
    ensures kind == "unknown" <==>
      !Mentions(signal, OfferTag) && !Mentions(signal, AnswerTag) && !Mentions(signal, CandidateTag)
  {
    if Contains(signal, OfferTag) then "offer"
    else if Contains(signal, AnswerTag) then "answer"
    else if Contains(signal, CandidateTag) then "candidate"
    else "unknown"
  }

  /**
   * A serialized offer as the browser sends it (`{"type":"offer",...}`)
   * is labelled "offer", whatever follows the tag.
   */
  lemma SerializedOfferIsOffer(rest: string)
    ensures ClassifySignal("{" + OfferTag + rest) == "offer"
  {
    var s := "{" + OfferTag + rest;
    assert s[1..1 + |OfferTag|] == OfferTag;
    assert OccursAt(s, OfferTag, 1);
  }

  /**
   * A serialized answer is labelled "answer" as long as the offer tag does
   * not also appear in it (the offer tag takes precedence).
   */
  lemma SerializedAnswerIsAnswer(rest: string)
    requires !Mentions("{" + AnswerTag + rest, OfferTag)
    ensures ClassifySignal("{" + AnswerTag + rest) == "answer"
  {
    var s := "{" + AnswerTag + rest;
    assert s[1..1 + |AnswerTag|] == AnswerTag;
    assert OccursAt(s, AnswerTag, 1);
  }

  /** A payload carrying both the offer and the answer tag is labelled "offer". */
  lemma OfferTagWins(prefix: string, middle: string, suffix: string)
    ensures ClassifySignal(prefix + AnswerTag + middle + OfferTag + suffix) == "offer"
  {
    var s := prefix + AnswerTag + middle + OfferTag + suffix;
    var i := |prefix| + |AnswerTag| + |middle|;
    assert s[i..i + |OfferTag|] == OfferTag;
    assert OccursAt(s, OfferTag, i);
  }
}
