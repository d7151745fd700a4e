/**
 * The pure decisions of the chat screen: which text an SDK error shows, whether a
 * final assistant utterance is the closing phrase, and what the status line reads.
 */
module Decisions {
  import opened Text

  /** `callStatus`: exactly one of the four values at a time. */
  datatype CallStatus = Inactive | Connecting | Active | Ended

  /** `getStatusText`: the label shown for each call status. */
  function StatusText(status: CallStatus): (r: string)
    ensures r == "Connecting..." <==> status == Connecting
    ensures r == "In Call" <==> status == Active
    ensures r == "Call Ended" <==> status == Ended
    ensures r == "Ready to Call" <==> status == Inactive
  {
    match status
    case Connecting => "Connecting..."
    case Active => "In Call"
    case Ended => "Call Ended"
    case Inactive => "Ready to Call"
  }

  /**
   * The error object the SDK hands to its `error` callback. Each field is the
   * string found there, or "" when the field is missing or empty (both are
   * falsy in the source's tests): `type`, `error.message` and `message`.
   */
  datatype SdkError = SdkError(errorType: string, nestedMessage: string, message: string)

  const StartMethodError := "start-method-error"
  const StartFailureText := "Failed to start call. Please check your VAPI configuration."
  const ConnectionFailed := "Connection failed"

  /** The first non-empty string of `candidates`, or "" when there is none. */
  function FirstNonEmpty(candidates: seq<string>): (r: string)
    ensures r == "" <==> forall k :: 0 <= k < |candidates| ==> candidates[k] == ""
    ensures r != "" ==> exists k :: 0 <= k < |candidates| && candidates[k] == r
                                  && forall l :: 0 <= l < k ==> candidates[l] == ""
  {
    if candidates == [] then ""
    else if candidates[0] != "" then candidates[0]
    else
      var r := FirstNonEmpty(candidates[1..]);
      assert forall k :: 1 <= k < |candidates| ==> candidates[k] == candidates[1..][k - 1];
      r
  }

  /** The message the `error` handler picks, by the if/else-if chain on the error's fields. */
  function ErrorText(e: SdkError): (r: string)
    ensures r != ""
    ensures r in {StartFailureText, e.nestedMessage, e.message, ConnectionFailed}
  {
    if e.errorType == StartMethodError then StartFailureText
    else if e.nestedMessage != "" then e.nestedMessage
    else if e.message != "" then e.message
    else ConnectionFailed
  }

  /**
   * The chain takes the first match in priority order: the start failure, then the
   * nested message, then the top-level message, then the fallback.
   */
  lemma ErrorTextIsFirstMatch(e: SdkError)
    ensures ErrorText(e) == FirstNonEmpty([
      if e.errorType == StartMethodError then StartFailureText else "",
      e.nestedMessage, e.message, ConnectionFailed])
  {
    var c := [if e.errorType == StartMethodError then StartFailureText else "",
              e.nestedMessage, e.message, ConnectionFailed];
    assert c[1..] == [e.nestedMessage, e.message, ConnectionFailed];
    assert c[1..][1..] == [e.message, ConnectionFailed];
    assert c[1..][1..][1..] == [ConnectionFailed];
    assert FirstNonEmpty(c[1..][1..][1..]) == ConnectionFailed;
    assert FirstNonEmpty(c[1..][1..]) == if e.message != "" then e.message else ConnectionFailed;
  }

  /** The phrase whose appearance in a final assistant utterance ends the assessment. */
  const ClosingPhrase := "assessment completed"

  /** The phrase, in any mix of upper and lower case, starts at index `i` of `t`. */
  ghost predicate ClosingPhraseAt(t: string, i: int)
  {
    0 <= i && i + |ClosingPhrase| <= |t| && ToLower(t[i..i + |ClosingPhrase|]) == ClosingPhrase
  }

  /**
   * `transcript.toLowerCase().includes("assessment completed")`: true exactly when
   * some slice of the utterance spells the phrase, ignoring case.
   */
  predicate MentionsClosingPhrase(transcript: string): (r: bool)
    ensures r <==> exists i :: ClosingPhraseAt(transcript, i)
  {
    ClosingPhraseIff(transcript);
    Contains(ToLower(transcript), ClosingPhrase)
  }

  /** Lowering first and then scanning finds the phrase exactly where a slice lowers to it. */
  lemma ClosingPhraseIff(t: string)
    ensures Contains(ToLower(t), ClosingPhrase) <==> exists i :: ClosingPhraseAt(t, i)
  {
    var n := |ClosingPhrase|;
    ContainsIffOccurs(ToLower(t), ClosingPhrase);
    if Contains(ToLower(t), ClosingPhrase) {
      var i :| OccursAt(ToLower(t), ClosingPhrase, i);
      ToLowerSlice(t, i, i + n);
      assert ClosingPhraseAt(t, i);
    }
    if i :| ClosingPhraseAt(t, i) {
      ToLowerSlice(t, i, i + n);
      assert OccursAt(ToLower(t), ClosingPhrase, i);
    }
  }

  /** Any spelling of the phrase that lowers to it, found anywhere in the utterance, ends the assessment. */
  lemma ClosingPhraseAnyCase(t: string, u: string)
    requires ToLower(u) == ClosingPhrase && Contains(t, u)
    ensures MentionsClosingPhrase(t)
  {
    ContainsIffOccurs(t, u);
    var i :| OccursAt(t, u, i);
    assert ClosingPhraseAt(t, i);
  }

  /** Lower-casing the utterance first does not change the outcome. */
  lemma ClosingPhraseIgnoresCase(t: string)
    ensures MentionsClosingPhrase(ToLower(t)) == MentionsClosingPhrase(t)
  {
    ToLowerNormalises(t);
    ToLowerNormalises(ToLower(t));
  }
}
