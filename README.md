# Chat screen session and transcript model

This project models the non-visual logic of the M-CHAT-R chat/voice screen
(`src/components/ChatInterface.js`) in Dafny. That logic has three parts:

- **The transcript** (`transcript.dfy`, module `Transcript`). It is an ordered list of `{id, text, type}`
  entries, with type ai, user, system or error. It starts with the welcome entry, which has id 1. A
  counter that starts at 2 hands out the ids. The screen changes the list in three ways:
  `addMessage` appends an entry. `updateLastMessage` rewrites the last entry in place when that
  entry has the same type and its text contains `"speaking..."`; otherwise it appends.
  `updateLastAIMessage` drops every ai entry whose text contains `"speaking"` and then appends the
  final ai entry.
- **The session** (`session.dfy`, class `Session.ChatSession`). The class holds the component's state:
  `callStatus`, `isConnecting`, `isMicOn`, `isMuted`, `callId`, `textInput`, `currentAssistant`,
  the counter and the list. Each user action (`startCall`, `endCall`, `handleTextSubmit`,
  `sendTextToAssistant`, `handleMicToggle`, `handleMuteToggle`) is a method. So is each voice-SDK
  callback (`call-start`, `call-end`, `speech-start`, `message`, `error`). Every call the screen makes
  on the SDK is appended to the `outbox` field: start, stop, send and set-muted. What the SDK answers
  to `start` and `send` is a method parameter. A 2000 ms teardown timer scheduled by the closing
  phrase is counted in `pendingTeardowns`, and `FireTeardown` is that timer firing.
- **Pure decisions** (`decisions.dfy`, module `Decisions`). These are the error-message
  classification, the closing-phrase test (a case-insensitive search for `"assessment completed"`)
  and `getStatusText`. `text.dfy` (module `Text`) defines the JavaScript string operations they
  rely on: `includes`, `toLowerCase` and `trim`.

The class invariant `Valid()` says three things. Ids strictly increase along the list, so list order
is id order. Every id is below the counter. `isConnecting` holds exactly when the status is
connecting. Every method keeps it. `MicOnlyWhenActive()` (the microphone is on only during an active
call) is kept by every handler. `startCall` keeps it only when it is not called from the active
state, and both of its callers make sure of that.

The model follows the code as written. The list of consequences is:

- `speech-start` appends the ai text `"speaking"`, which does not contain `"speaking..."`. So
  `updateLastMessage` never rewrites it, and a final user transcript is appended after the
  placeholder (`SpeechStartEntryNeverReplaced`, `UserFinalAfterSpeechStartAppends`).
- A final assistant transcript removes every such placeholder (`TwoPlaceholdersCollapseToOne`).
- The filter cannot tell a placeholder from a committed utterance. A final assistant text that
  itself contains "speaking" (for example "Thanks for speaking with me") is deleted in full by the
  next final assistant transcript (`SpokenWordDeletedByNextFinal`).
- In the same way, a user entry whose text contains "speaking..." counts as live. The next final
  user transcript overwrites it in place (`TypedMarkerOverwrittenByNextFinal`).
- `handleTextSubmit` calls `startCall` whenever the status is not active, including while a call is
  already connecting.
- After a failed start, the text is still handed to `sendTextToAssistant`.

## Model

| member | source | states |
|---|---|---|
| `Text.ContainsIffOccurs` | src/components/ChatInterface.js:223 | the left-to-right `includes` scan succeeds exactly when the pattern occurs at some index |
| `Text.LongerNeverContained` | src/components/ChatInterface.js:223 | a pattern longer than the text is never found |
| `Text.PrefixOfContainedIsContained` | src/components/ChatInterface.js:220-250 | where "speaking..." (or any pattern) occurs, each prefix of it ("speaking") occurs too |
| `Text.ToLowerSlice` | src/components/ChatInterface.js:139 | lower-casing keeps the length and commutes with slicing |
| `Text.ToLowerNormalises` | src/components/ChatInterface.js:139 | lowered text has no upper-case letter; text without one is left alone |
| `Text.TrimStartSpec` | src/components/ChatInterface.js:330 | leading trim returns the suffix from the first non-space; everything it drops is white space |
| `Text.TrimEndSpec` | src/components/ChatInterface.js:330 | trailing trim returns the prefix up to the last non-space; everything it drops is white space |
| `Text.TrimEmptyIff` | src/components/ChatInterface.js:330 | `trim()` is empty exactly when every character is white space |
| `Text.TrimIsTrimmedSlice` | src/components/ChatInterface.js:330 | `trim()` is a slice of the input that neither starts nor ends with white space |
| `Text.TrimIdempotent` | src/components/ChatInterface.js:330-337 | trimming the already trimmed text changes nothing, so the text sent passes the send guard |
| `Transcript.IsSpeakingPlaceholder` | src/components/ChatInterface.js:247-250 | the filter's test: an entry is a placeholder exactly when it is of type ai and "speaking" occurs somewhere in its text |
| `Transcript.ReplacesLast` | src/components/ChatInterface.js:219-224 | the guard of `updateLastMessage`: the list is non-empty, its last entry has the given type, and "speaking..." occurs somewhere in that entry's text |
| `Transcript.WithoutPlaceholders` | src/components/ChatInterface.js:247-250 | the filter keeps exactly the entries that are not ai-with-"speaking", in their original order, and its length is the input length minus the number of placeholders |
| `Transcript.WithoutPlaceholdersKeepsIds` | src/components/ChatInterface.js:247-250 | filtering keeps ids strictly increasing |
| `Transcript.WithoutPlaceholdersIdempotent` | src/components/ChatInterface.js:247-250 | filtering twice removes nothing more |
| `Transcript.WithoutPlaceholdersAppend` | src/components/ChatInterface.js:247-250 | filtering a concatenation filters each part |
| `Transcript.OnlyPlaceholdersVanish` | src/components/ChatInterface.js:247-250 | a list of placeholders filters to nothing |
| `Transcript.PlaceholdersCollapse` | src/components/ChatInterface.js:242-262 | any run of placeholders appended after the list is gone after the filter |
| `Transcript.AppendKeepsIds` | src/components/ChatInterface.js:206-214 | appending an entry with the counter's id keeps ids increasing and below the advanced counter |
| `Transcript.ReplaceLastTextKeepsIds` | src/components/ChatInterface.js:225-229 | rewriting the last entry's text keeps every id |
| `Transcript.AfterUpdateLast` | src/components/ChatInterface.js:216-240 | the list `updateLastMessage` leaves: every entry before the last is the old one at that place; the last carries the new text and type; on a live entry the length and the old id are kept, otherwise the list grows by one entry with the counter's id |
| `Transcript.UpdateLastKeepsIds` | src/components/ChatInterface.js:216-240 | `updateLastMessage` keeps both id invariants; the counter advances only when it appends |
| `Transcript.SpeechStartEntryNeverReplaced` | src/components/ChatInterface.js:77-80 | the "speaking" entry that `speech-start` appends is never what `updateLastMessage` rewrites |
| `Transcript.LiveAiEntryIsPlaceholder` | src/components/ChatInterface.js:220-250 | an ai entry that `updateLastMessage` treats as live is one that `updateLastAIMessage` removes |
| `Transcript.AfterFinalAi` | src/components/ChatInterface.js:242-262 | the list `updateLastAIMessage` leaves: length is old length minus placeholders plus one; the new ai entry with the counter's id is last; every entry before it is an old entry that is not a placeholder |
| `Transcript.FinalAiShape` | src/components/ChatInterface.js:242-262 | after `updateLastAIMessage`: length is kept entries + 1, last entry is the new ai text with the fresh id, no placeholder before it, ids still increasing and below the counter |
| `Transcript.TwoPlaceholdersCollapseToOne` | src/components/ChatInterface.js:242-262 | two placeholders then a final assistant transcript leave exactly one new ai entry with the final text |
| `Transcript.UserFinalAfterSpeechStartAppends` | src/components/ChatInterface.js:121-127 | a final user transcript after `speech-start` is appended and the placeholder stays |
| `Transcript.SpokenWordDeletedByNextFinal` | src/components/ChatInterface.js:242-262 | a committed final assistant text that contains "speaking" is deleted in full by the next final assistant transcript, leaving only the new entry after the kept old entries |
| `Transcript.TypedMarkerOverwrittenByNextFinal` | src/components/ChatInterface.js:216-240 | a user entry whose text contains "speaking..." is rewritten in place by the next final user transcript: its text is lost and its id reused |
| `Decisions.StatusText` | src/components/ChatInterface.js:362-373 | each status has its own label: connecting, in call, call ended, ready |
| `Decisions.ErrorText` | src/components/ChatInterface.js:161-169 | the classification is total, never empty, and is one of the four candidate texts |
| `Decisions.ErrorTextIsFirstMatch` | src/components/ChatInterface.js:161-169 | the classification is the first match in order: start-method-error text, nested message, top-level message, "Connection failed" |
| `Decisions.MentionsClosingPhrase` | src/components/ChatInterface.js:139 | the closing-phrase test holds exactly when some slice of the utterance spells "assessment completed" in any letter case |
| `Decisions.ClosingPhraseIff` | src/components/ChatInterface.js:139 | lowering the whole utterance and then scanning for the phrase finds it exactly when some slice of the utterance lowers to "assessment completed" |
| `Decisions.ClosingPhraseAnyCase` | src/components/ChatInterface.js:139 | any spelling that lowers to the phrase, found anywhere in the utterance, triggers the test |
| `Decisions.ClosingPhraseIgnoresCase` | src/components/ChatInterface.js:139 | lower-casing the utterance first does not change the outcome |
| `Session.SwitchingText` | src/components/ChatInterface.js:106-108 | the hand-off entry is the switching prefix, then the assistant's name when one is given and "assistant" otherwise, then "..."; the name part is never empty |
| `Session.ErrorEntryText` | src/components/ChatInterface.js:171 | the `error` callback's entry is the error prefix followed by a reason that is never empty |
| `Session.StartFailedText` | src/components/ChatInterface.js:290 | a failed start's entry is the error prefix followed by the thrown message, or "Connection failed" when it has none; the reason is never empty |
| `Session.SendFailedText` | src/components/ChatInterface.js:323 | a failed send's entry is the send-failure prefix followed by the message, with no fallback: an empty message leaves the bare prefix |
| `Session.SendEntries` | src/components/ChatInterface.js:304-325 | a send commits the user entry first with the counter's id; a failure adds exactly one error entry after it, with the next id. `SendTextToAssistant` appends these to the old list, so nothing is removed |
| `Session.IsFinalTranscript` | src/components/ChatInterface.js:121-135 | the guard of the two final-transcript branches: a transcript event of final type from the given role; the branches it guards are stated in `Session.ChatSession.OnMessage` |
| `Session.ChatSession.constructor` | src/components/ChatInterface.js:11-34 | initial state: inactive, flags off, no call id, counter 2, list holding only the welcome entry |
| `Session.ChatSession.InitVapi` | src/components/ChatInterface.js:55-57 | the mount effect makes the SDK instance available |
| `Session.ChatSession.SetTextInput` | src/components/ChatInterface.js:461 | the input's change handler stores the typed text |
| `Session.ChatSession.GenerateMessageId` | src/components/ChatInterface.js:21-25 | returns the counter's value; the counter is then exactly one larger |
| `Session.ChatSession.AddMessage` | src/components/ChatInterface.js:206-214 | the list grows by one entry with the given text and type and the fresh id; earlier entries unchanged and in order |
| `Session.ChatSession.UpdateLastMessage` | src/components/ChatInterface.js:216-240 | new list is `AfterUpdateLast` of the old one; counter advances only on append; invariant kept |
| `Session.ChatSession.UpdateLastAIMessage` | src/components/ChatInterface.js:242-262 | new list is the filtered old list plus one ai entry with the fresh id; invariant kept |
| `Session.ChatSession.OnCallStart` | src/components/ChatInterface.js:60-67 | active, mic on, not connecting, unmuted, one system "session started" entry |
| `Session.ChatSession.OnCallEnd` | src/components/ChatInterface.js:69-75 | ended, mic off, not connecting, one system "session ended" entry |
| `Session.ChatSession.OnSpeechStart` | src/components/ChatInterface.js:77-80 | appends the ai entry "speaking" |
| `Session.ChatSession.OnMessage` | src/components/ChatInterface.js:87-153 | hand-off: one system entry naming the assistant (or "assistant"), assistant recorded if given. Final user transcript: `updateLastMessage`. Final assistant transcript: `updateLastAIMessage`, and with the closing phrase exactly one completion entry and one scheduled teardown. Any other message: nothing changes |
| `Session.ChatSession.FireTeardown` | src/components/ChatInterface.js:145-150 | a scheduled teardown stops the call: stop sent, ended, mic off, not connecting |
| `Session.ChatSession.OnError` | src/components/ChatInterface.js:155-172 | inactive, not connecting, mic off, exactly one error entry carrying the classified text |
| `Session.ChatSession.StartCall` | src/components/ChatInterface.js:267-292 | with the SDK present: start sent with the English assistant id; success gives connecting and records a non-empty call id; failure gives inactive and one error entry. Without it nothing changes |
| `Session.ChatSession.EndCall` | src/components/ChatInterface.js:294-301 | only an active or connecting call is stopped (stop sent, ended, mic off, not connecting); in every other status nothing changes |
| `Session.ChatSession.SendTextToAssistant` | src/components/ChatInterface.js:304-325 | blank text or no SDK: nothing changes. Otherwise the user entry is committed, the text is sent, and a failure adds an error entry after the user entry |
| `Session.ChatSession.HandleTextSubmit` | src/components/ChatInterface.js:328-341 | input that trims to empty: nothing changes. Otherwise the trimmed text is sent (after a start when not active), its entries committed, and the input cleared |
| `Session.ChatSession.HandleMicToggle` | src/components/ChatInterface.js:344-350 | inactive starts a call, active ends it, connecting and ended change nothing |
| `Session.ChatSession.HandleMuteToggle` | src/components/ChatInterface.js:353-360 | only during an active call: `isMuted` flips and the new value is sent; otherwise nothing changes |

## Left out

- Rendering: the JSX, the auto-scroll effect, `getStatusColor` and the CSS choices (lines 38-44, 375-639) are display only.
- The voice SDK: the `Vapi` constructor and what `start`, `stop`, `send` and `setMuted` do inside the SDK are not visible here. The screen's calls appear only as `outbox` records. The answers of `start` and `send` are parameters.
- The `localStorage` read of the child's name (lines 47-52) is browser I/O.
- The navigation effect (lines 182-204) depends on the router and on a 1500 ms timer.
- The unmount cleanup that stops the SDK (lines 175-179) is component lifecycle.
- Timing: the 2000 ms teardown is only a pending count and its eventual effect. The source has no cancellation and no guard against double firing, and neither does the model. Timestamps are not modelled: they are wall-clock values and never compared.
- React semantics: the counter and the list are ordinary fields, updated at once. In the source, the SDK callbacks are registered once, so they keep the first render's `generateMessageId`. State updates are also batched. Together these can hand the same id out more than once. The model does not reproduce that.
- Session.ChatSession.HandleTextSubmit: `startCall().then(...)` is modelled as the start followed by the send. Events that arrive while the start is pending are not modelled. The contract does not state that the user entry is committed before the send is issued: that order is visible only in the method body.
- Console logging is left out. This covers the `speech-end` handler and the `function-call`, `tool-calls` and `transfer` message types, which only log. For those types `OnMessage` states that nothing changes.
- JavaScript values: a missing field and an empty string are both falsy in the source, so the model represents both as `""`. A failed send whose error has no message shows "undefined" in the source; the model passes on whatever message string it is given.
- `toLowerCase` is modelled for ASCII letters only. Only two non-ASCII characters lower-case to ASCII letters ('i' and 'k'), and neither letter is in "assessment completed". So the closing-phrase test gives the same answer either way.
