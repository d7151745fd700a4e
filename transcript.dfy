/**
 * The chat transcript: an ordered list of `{id, text, type}` entries and the
 * two ways the screen rewrites it when speech turns into final text.
 */
module Transcript {
  import opened Text

  datatype MessageType = Ai | User | System | Error

  /** One transcript entry; its timestamp is not modelled. */
  datatype Message = Message(id: nat, text: string, kind: MessageType)

  /** The greeting the list starts with; it holds id 1, so the id counter starts at 2. */
  const Welcome := Message(1, "Welcome to the M-CHAT-R screening assessment. I'm here to help evaluate your child's development through a few simple questions. You can speak using the microphone or type your responses.", Ai)
  const FirstFreeId: nat := 2

  /** The text `speech-start` appends as an ai entry. */
  const SpeakingText := "speaking"
  /** The marker `updateLastMessage` looks for in the last entry. */
  const LiveMarker := "speaking..."

  /** The `filter` test of `updateLastAIMessage`: an ai entry whose text contains "speaking". */
  predicate IsSpeakingPlaceholder(m: Message): (r: bool)
    ensures r <==> m.kind == Ai && exists i :: OccursAt(m.text, SpeakingText, i)
  {
    ContainsIffOccurs(m.text, SpeakingText);
    m.kind == Ai && Contains(m.text, SpeakingText)
  }

  /** The guard of `updateLastMessage`: the last entry has this type and contains "speaking...". */
  predicate ReplacesLast(log: seq<Message>, kind: MessageType): (r: bool)
    ensures r <==> |log| > 0 && log[|log| - 1].kind == kind
                   && (var last := log[|log| - 1].text; exists i :: OccursAt(last, LiveMarker, i))
  {
    |log| > 0 && log[|log| - 1].kind == kind
    && (ContainsIffOccurs(log[|log| - 1].text, LiveMarker); Contains(log[|log| - 1].text, LiveMarker))
  }

  /** Ids strictly increase along the list, so list order is id order. */
  ghost predicate IdsIncreasing(log: seq<Message>)
  {
    forall i, j :: 0 <= i < j < |log| ==> log[i].id < log[j].id
  }

  /** Every id in the list is below `bound` (the next id the counter hands out). */
  ghost predicate IdsBelow(log: seq<Message>, bound: nat)
  {
    forall i :: 0 <= i < |log| ==> log[i].id < bound
  }

  /** `a` is `b` with some entries dropped and the rest kept in order. */
  ghost predicate IsSubsequence(a: seq<Message>, b: seq<Message>)
    decreases |b|
  {
    a == [] || (b != [] && (if a[0] == b[0] then IsSubsequence(a[1..], b[1..]) else IsSubsequence(a, b[1..])))
  }

  /** Number of speaking placeholders in the list. */
  function PlaceholderCount(log: seq<Message>): nat
  {
    if log == [] then 0 else (if IsSpeakingPlaceholder(log[0]) then 1 else 0) + PlaceholderCount(log[1..])
  }

  /**
   * `log.filter(m => !(m.type === "ai" && m.text.includes("speaking")))`:
   * keeps exactly the entries that are not speaking placeholders, in their order.
   */
  function WithoutPlaceholders(log: seq<Message>): (r: seq<Message>)
    ensures forall m :: m in r <==> m in log && !IsSpeakingPlaceholder(m)
    ensures |r| + PlaceholderCount(log) == |log|
    ensures IsSubsequence(r, log)
  {
    if log == [] then []
    else if IsSpeakingPlaceholder(log[0]) then WithoutPlaceholders(log[1..])
    else [log[0]] + WithoutPlaceholders(log[1..])
  }

  /** Filtering keeps the ids increasing. */
  lemma {:induction false} WithoutPlaceholdersKeepsIds(log: seq<Message>)
    requires IdsIncreasing(log)
    ensures IdsIncreasing(WithoutPlaceholders(log))
  {
    if log != [] {
      var rest := WithoutPlaceholders(log[1..]);
      WithoutPlaceholdersKeepsIds(log[1..]);
      if !IsSpeakingPlaceholder(log[0]) {
        var r := [log[0]] + rest;
        forall i, j | 0 <= i < j < |r| ensures r[i].id < r[j].id {
          if i == 0 {
            assert r[j] in rest;
            assert r[j] in log[1..];
          }
        }
      }
    }
  }

  /** Filtering twice removes nothing more. */
  lemma {:induction false} WithoutPlaceholdersIdempotent(log: seq<Message>)
    ensures WithoutPlaceholders(WithoutPlaceholders(log)) == WithoutPlaceholders(log)
  {
    if log != [] {
      WithoutPlaceholdersIdempotent(log[1..]);
      if !IsSpeakingPlaceholder(log[0]) {
        var r := WithoutPlaceholders(log);
        assert r[0] == log[0] && r[1..] == WithoutPlaceholders(log[1..]);
      }
    }
  }

  /** Filtering a concatenation filters each part. */
  lemma {:induction false} WithoutPlaceholdersAppend(a: seq<Message>, b: seq<Message>)
    ensures WithoutPlaceholders(a + b) == WithoutPlaceholders(a) + WithoutPlaceholders(b)
  {
    if a != [] {
      assert (a + b)[1..] == a[1..] + b;
      WithoutPlaceholdersAppend(a[1..], b);
    } else {
      assert a + b == b;
    }
  }

  /** A list made only of speaking placeholders filters to nothing. */
  lemma {:induction false} OnlyPlaceholdersVanish(live: seq<Message>)
    requires forall m :: m in live ==> IsSpeakingPlaceholder(m)
    ensures WithoutPlaceholders(live) == []
  {
    if live != [] {
      assert live[0] in live;
      assert forall m :: m in live[1..] ==> m in live;
      OnlyPlaceholdersVanish(live[1..]);
    }
  }

  /**
   * Any number of speaking placeholders appended after `log` (one per `speech-start`)
   * collapse under the filter: only `log`'s own non-placeholders remain.
   */
  lemma PlaceholdersCollapse(log: seq<Message>, live: seq<Message>)
    requires forall m :: m in live ==> IsSpeakingPlaceholder(m)
    ensures WithoutPlaceholders(log + live) == WithoutPlaceholders(log)
  {
    WithoutPlaceholdersAppend(log, live);
    OnlyPlaceholdersVanish(live);
  }

  /** Appending an entry with an id from the counter keeps both id invariants, with the counter one larger. */
  lemma AppendKeepsIds(log: seq<Message>, next: nat, m: Message)
    requires IdsIncreasing(log) && IdsBelow(log, next)
    requires m.id == next
    ensures IdsIncreasing(log + [m]) && IdsBelow(log + [m], next + 1)
  {
    forall i, j | 0 <= i < j < |log + [m]| ensures (log + [m])[i].id < (log + [m])[j].id {
      if j == |log| {
        assert log[i] in log;
      }
    }
  }

  /** Rewriting the last entry's text keeps every id, so both id invariants hold. */
  lemma ReplaceLastTextKeepsIds(log: seq<Message>, next: nat, text: string)
    requires |log| > 0 && IdsIncreasing(log) && IdsBelow(log, next)
    ensures var r := log[|log| - 1 := log[|log| - 1].(text := text)];
      IdsIncreasing(r) && IdsBelow(r, next)
  {
    var n := |log|;
    var r := log[n - 1 := log[n - 1].(text := text)];
    assert forall i :: 0 <= i < n ==> r[i].id == log[i].id;
    forall m | m in r ensures m.id < next {
      var i :| 0 <= i < n && r[i] == m;
      assert log[i] in log;
    }
  }

  /**
   * The `speech-start` entry is never what `updateLastMessage` replaces: its text is
   * "speaking", which does not contain "speaking...".
   */
  lemma SpeechStartEntryNeverReplaced(log: seq<Message>, id: nat, kind: MessageType)
    ensures !ReplacesLast(log + [Message(id, SpeakingText, Ai)], kind)
  {
    LongerNeverContained(SpeakingText, LiveMarker);
  }

  /** An ai entry `updateLastMessage` would treat as live is one `updateLastAIMessage` removes. */
  lemma LiveAiEntryIsPlaceholder(log: seq<Message>)
    requires ReplacesLast(log, Ai)
    ensures IsSpeakingPlaceholder(log[|log| - 1])
  {
    PrefixOfContainedIsContained(log[|log| - 1].text, LiveMarker, SpeakingText);
  }

  /**
   * The list `updateLastMessage(text, kind)` leaves, with `next` the counter's value:
   * the last entry's text rewritten in place when it is a live entry of that type,
   * otherwise a fresh entry appended. Either way every entry before the last one
   * is the old entry at that place, and the last one carries the new text and type;
   * rewriting keeps the length and the old id, appending adds one entry with `next`.
   */
  function AfterUpdateLast(log: seq<Message>, next: nat, text: string, kind: MessageType): (r: seq<Message>)
    ensures |r| == |log| + (if ReplacesLast(log, kind) then 0 else 1)
    ensures forall k :: 0 <= k < |r| - 1 ==> r[k] == log[k]
    ensures r[|r| - 1].text == text && r[|r| - 1].kind == kind
    ensures r[|r| - 1].id == if ReplacesLast(log, kind) then log[|log| - 1].id else next
  {
    if ReplacesLast(log, kind) then log[|log| - 1 := log[|log| - 1].(text := text)]
    else log + [Message(next, text, kind)]
  }

  /** `updateLastMessage` keeps both id invariants; the counter advances only when it appends. */
  lemma UpdateLastKeepsIds(log: seq<Message>, next: nat, text: string, kind: MessageType)
    requires IdsIncreasing(log) && IdsBelow(log, next)
    ensures var r := AfterUpdateLast(log, next, text, kind);
      IdsIncreasing(r) && IdsBelow(r, if ReplacesLast(log, kind) then next else next + 1)
  {
    if ReplacesLast(log, kind) {
      ReplaceLastTextKeepsIds(log, next, text);
    } else {
      AppendKeepsIds(log, next, Message(next, text, kind));
    }
  }

  /**
   * The list `updateLastAIMessage(text)` leaves: every speaking placeholder dropped,
   * then one ai entry. Everything before the new entry is an old entry that is not a
   * placeholder, and the new entry is last.
   */
  function AfterFinalAi(log: seq<Message>, next: nat, text: string): (r: seq<Message>)
    ensures r != [] && r[|r| - 1] == Message(next, text, Ai)
    ensures |r| == |log| - PlaceholderCount(log) + 1
    ensures forall k :: 0 <= k < |r| - 1 ==> r[k] in log && !IsSpeakingPlaceholder(r[k])
  {
    var kept := WithoutPlaceholders(log);
    assert forall k :: 0 <= k < |kept| ==> kept[k] in kept;
    kept + [Message(next, text, Ai)]
  }

  /**
   * After `updateLastAIMessage` the only ai entry containing "speaking" that can be left is the new one,
   * the length is the number of kept entries plus one, and both id invariants hold.
   */
  lemma FinalAiShape(log: seq<Message>, next: nat, text: string)
    requires IdsIncreasing(log) && IdsBelow(log, next)
    ensures var r := AfterFinalAi(log, next, text);
      && |r| == |log| - PlaceholderCount(log) + 1
      && r[|r| - 1] == Message(next, text, Ai)
      && (forall k :: 0 <= k < |r| - 1 ==> !IsSpeakingPlaceholder(r[k]))
      && IdsIncreasing(r) && IdsBelow(r, next + 1)
  {
    var kept := WithoutPlaceholders(log);
    WithoutPlaceholdersKeepsIds(log);
    assert IdsBelow(kept, next) by {
      forall m | m in kept ensures m.id < next {
        assert m in log;
      }
    }
    assert forall k :: 0 <= k < |kept| ==> kept[k] in kept;
    AppendKeepsIds(kept, next, Message(next, text, Ai));
  }

  /**
   * Two `speech-start` placeholders followed by the final assistant transcript leave
   * exactly one new ai entry, carrying the final text, and no placeholder.
   */
  lemma TwoPlaceholdersCollapseToOne(log: seq<Message>, next: nat, text: string)
    ensures AfterFinalAi(log + [Message(next, SpeakingText, Ai), Message(next + 1, SpeakingText, Ai)], next + 2, text)
         == WithoutPlaceholders(log) + [Message(next + 2, text, Ai)]
  {
    var live := [Message(next, SpeakingText, Ai), Message(next + 1, SpeakingText, Ai)];
    assert StartsWith(SpeakingText, SpeakingText);
    assert forall m :: m in live ==> IsSpeakingPlaceholder(m);
    PlaceholdersCollapse(log, live);
  }

  /**
   * A final user transcript after `speech-start` does not replace the "speaking" entry:
   * the user text is appended after it and the placeholder stays.
   */
  lemma UserFinalAfterSpeechStartAppends(log: seq<Message>, next: nat, text: string)
    ensures AfterUpdateLast(log + [Message(next, SpeakingText, Ai)], next + 1, text, User)
         == log + [Message(next, SpeakingText, Ai), Message(next + 1, text, User)]
  {
  }

  /**
   * The filter does not tell a placeholder from a committed utterance: a final
   * assistant text that itself contains "speaking" is deleted, in full, by the
   * next final assistant transcript.
   */
  lemma {:induction false} SpokenWordDeletedByNextFinal(log: seq<Message>, next: nat, said: string, text: string)
    requires Contains(said, SpeakingText)
    ensures AfterFinalAi(AfterFinalAi(log, next, said), next + 1, text)
         == WithoutPlaceholders(log) + [Message(next + 1, text, Ai)]
  {
    var m := Message(next, said, Ai);
    WithoutPlaceholdersAppend(WithoutPlaceholders(log), [m]);
    WithoutPlaceholdersIdempotent(log);
    OnlyPlaceholdersVanish([m]);
  }

  /**
   * A user entry whose own text contains "speaking..." (say, typed text) is taken
   * for a live entry: the next final user transcript overwrites it in place.
   */
  lemma TypedMarkerOverwrittenByNextFinal(log: seq<Message>, next: nat, typed: string, text: string)
    requires Contains(typed, LiveMarker)
    ensures AfterUpdateLast(log + [Message(next, typed, User)], next + 1, text, User)
         == log + [Message(next, text, User)]
  {
    assert (log + [Message(next, typed, User)])[|log|] == Message(next, typed, User);
  }
}
