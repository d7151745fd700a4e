/**
 * The chat screen's state and its handlers: the call-status flags, the id
 * counter and the transcript, driven by user actions (start, end, mute, text
 * submit) and by the voice SDK's callbacks (call-start, call-end, speech-start,
 * message, error). Calls made on the SDK are recorded in `outbox`; what the SDK
 * answers is passed in as a parameter.
 */
module Session {
  import opened Text
  import opened Transcript
  import opened Decisions

  datatype Option<T> = None | Some(value: T)

  /** The assistant named in an `assistant-request` destination; `name` is "" when it has none. */
  datatype Assistant = Assistant(name: string)

  /**
   * A `message` event from the SDK, with the fields the handler reads: `type`,
   * `transcriptType`, `role`, `transcript` and `destination.assistant`
   * (strings are "" when the field is missing).
   */
  datatype SdkMessage = SdkMessage(
    msgType: string, transcriptType: string, role: string, transcript: string,
    assistant: Option<Assistant>)

  /** What `vapi.start` settles to: a call response (its id, "" if it has none) or a thrown error's message. */
  datatype StartOutcome = Started(callId: string) | StartFailed(message: string)

  /** What `vapi.send` settles to. */
  datatype SendOutcome = Sent | SendFailed(message: string)

  /** A call the screen makes on the SDK. */
  datatype Outbound = VapiStart(assistantId: string) | VapiStop | VapiSend(content: string) | VapiSetMuted(muted: bool)

  /** The squad member every call starts with. */
  const EnglishAssistantId := "02311fd6-4974-47a3-a03b-930e0110f73d"

  const SessionStartedText := "📞 Assessment session started"
  const SessionEndedText := "📞 Assessment session ended"
  const CompletionText := "✅ The assessment is now complete. Thank you for your participation!"

  const SwitchingPrefix := "🔄 Switching to "
  const ErrorPrefix := "❌ Error: "
  const SendFailurePrefix := "❌ Failed to send message: "

  /**
   * The system entry for an assistant hand-off: the prefix, then the assistant's
   * name or, when none is given, "assistant" — so the name part is never empty.
   */
  function SwitchingText(a: Option<Assistant>): (r: string)
    ensures |r| > |SwitchingPrefix| + 3
    ensures r[..|SwitchingPrefix|] == SwitchingPrefix
    ensures r[|r| - 3..] == "..."
    ensures a.Some? && a.value.name != "" ==> r[|SwitchingPrefix|..|r| - 3] == a.value.name
    ensures !(a.Some? && a.value.name != "") ==> r[|SwitchingPrefix|..|r| - 3] == "assistant"
  {
    SwitchingPrefix + (if a.Some? && a.value.name != "" then a.value.name else "assistant") + "..."
  }

  /** The error entry the `error` callback appends: the prefix and then a reason that is never empty. */
  function ErrorEntryText(e: SdkError): (r: string)
    ensures |r| > |ErrorPrefix|
    ensures r[..|ErrorPrefix|] == ErrorPrefix
  {
    ErrorPrefix + ErrorText(e)
  }

  /**
   * The error entry a failed `vapi.start` appends: the thrown message when there
   * is one, otherwise the "Connection failed" fallback; never an empty reason.
   */
  function StartFailedText(message: string): (r: string)
    ensures |r| > |ErrorPrefix|
    ensures r[..|ErrorPrefix|] == ErrorPrefix
    ensures message != "" ==> r[|ErrorPrefix|..] == message
    ensures message == "" ==> r[|ErrorPrefix|..] == ConnectionFailed
  {
    ErrorPrefix + (if message != "" then message else ConnectionFailed)
  }

  /**
   * The error entry a failed `vapi.send` appends. Unlike a failed start there is no
   * fallback: a send error without a message leaves only the prefix.
   */
  function SendFailedText(message: string): (r: string)
    ensures |r| >= |SendFailurePrefix|
    ensures r[..|SendFailurePrefix|] == SendFailurePrefix
    ensures r[|SendFailurePrefix|..] == message
    ensures message == "" ==> r == SendFailurePrefix
  {
    SendFailurePrefix + message
  }

  /**
   * The entries `sendTextToAssistant` commits, starting at id `next`: the user's
   * text first, and after it exactly one error entry when the send failed.
   */
  function SendEntries(text: string, next: nat, outcome: SendOutcome): (r: seq<Message>)
    ensures |r| == (if outcome.SendFailed? then 2 else 1)
    ensures r[0] == Message(next, text, User)
    ensures forall k :: 1 <= k < |r| ==> r[k].kind == Error && r[k].id == next + k
  {
    [Message(next, text, User)]
    + match outcome
      case Sent => []
      case SendFailed(why) => [Message(next + 1, SendFailedText(why), Error)]
  }

  /** A final transcript event from the given speaker role. */
  predicate IsFinalTranscript(msg: SdkMessage, role: string)
  {
    msg.msgType == "transcript" && msg.transcriptType == "final" && msg.role == role
  }

  class ChatSession {
    /** Whether the SDK instance exists (it is created by the mount effect). */
    var vapiReady: bool
    var isMicOn: bool
    var isConnecting: bool
    var callStatus: CallStatus
    var isMuted: bool
    var textInput: string
    var callId: Option<string>
    var messageIdCounter: nat
    var currentAssistant: Option<Assistant>
    var messages: seq<Message>
    /** Every call made on the SDK, oldest first. */
    var outbox: seq<Outbound>
    /** Teardown timers scheduled by the closing phrase that have not fired yet. */
    var pendingTeardowns: nat

    /** Ids follow list order and stay below the counter; `isConnecting` mirrors the connecting status. */
    ghost predicate Valid()
      reads this
    {
      && IdsIncreasing(messages)
      && IdsBelow(messages, messageIdCounter)
      && isConnecting == (callStatus == Connecting)
    }

    /** The microphone is only on during an active call. */
    ghost predicate MicOnlyWhenActive()
      reads this
    {
      isMicOn ==> callStatus == Active
    }

    /** The state of the first render: the welcome entry, id counter 2, no call. */
    constructor ()
      ensures Valid() && MicOnlyWhenActive()
      ensures !vapiReady && !isMicOn && !isConnecting && callStatus == Inactive && !isMuted
      ensures textInput == "" && callId == None && currentAssistant == None
      ensures messageIdCounter == FirstFreeId && messages == [Welcome]
      ensures outbox == [] && pendingTeardowns == 0
    {
      vapiReady, isMicOn, isConnecting, callStatus, isMuted := false, false, false, Inactive, false;
      textInput, callId, currentAssistant := "", None, None;
      messageIdCounter, messages := FirstFreeId, [Welcome];
      outbox, pendingTeardowns := [], 0;
    }

    /** The mount effect creates the SDK instance. */
    method InitVapi()
      requires Valid()
      modifies this`vapiReady
      ensures Valid()
      ensures vapiReady
    {
      vapiReady := true;
    }

    /** The input's `onChange`. */
    method SetTextInput(s: string)
      requires Valid()
      modifies this`textInput
      ensures Valid()
      ensures textInput == s
    {
      textInput := s;
    }

    /** `generateMessageId`: hands out the counter's value and advances it by one. */
    method GenerateMessageId() returns (id: nat)
      modifies this`messageIdCounter
      ensures id == old(messageIdCounter)
      ensures messageIdCounter == old(messageIdCounter) + 1
    {
      id := messageIdCounter;
      messageIdCounter := messageIdCounter + 1;
    }

    /** `addMessage`: appends one entry with a fresh id; earlier entries stay as they were. */
    method AddMessage(text: string, kind: MessageType)
      requires Valid()
      modifies this`messages, this`messageIdCounter
      ensures Valid()
      ensures messages == old(messages) + [Message(old(messageIdCounter), text, kind)]
      ensures messageIdCounter == old(messageIdCounter) + 1
    {
      AppendKeepsIds(messages, messageIdCounter, Message(messageIdCounter, text, kind));
      var id := GenerateMessageId();
      messages := messages + [Message(id, text, kind)];
    }

    /** `updateLastMessage`: rewrites a live last entry of this type in place, otherwise appends. */
    method UpdateLastMessage(text: string, kind: MessageType)
      requires Valid()
      modifies this`messages, this`messageIdCounter
      ensures Valid()
      ensures messages == AfterUpdateLast(old(messages), old(messageIdCounter), text, kind)
      ensures messageIdCounter == old(messageIdCounter) + (if ReplacesLast(old(messages), kind) then 0 else 1)
    {
      UpdateLastKeepsIds(messages, messageIdCounter, text, kind);
      var n := |messages|;
      if n > 0 && messages[n - 1].kind == kind && Contains(messages[n - 1].text, LiveMarker) {
        messages := messages[n - 1 := messages[n - 1].(text := text)];
      } else {
        var id := GenerateMessageId();
        messages := messages + [Message(id, text, kind)];
      }
    }

    /** `updateLastAIMessage`: drops every speaking placeholder, then appends the final ai entry. */
    method UpdateLastAIMessage(text: string)
      requires Valid()
      modifies this`messages, this`messageIdCounter
      ensures Valid()
      ensures messages == AfterFinalAi(old(messages), old(messageIdCounter), text)
      ensures messageIdCounter == old(messageIdCounter) + 1
    {
      FinalAiShape(messages, messageIdCounter, text);
      var kept := WithoutPlaceholders(messages);
      var id := GenerateMessageId();
      messages := kept + [Message(id, text, Ai)];
    }

    /** The `call-start` callback. */
    method OnCallStart()
      requires Valid()
      modifies this`isMicOn, this`callStatus, this`isConnecting, this`isMuted, this`messages, this`messageIdCounter
      ensures Valid() && MicOnlyWhenActive()
      ensures isMicOn && callStatus == Active && !isConnecting && !isMuted
      ensures messages == old(messages) + [Message(old(messageIdCounter), SessionStartedText, System)]
      ensures messageIdCounter == old(messageIdCounter) + 1
    {
      isMicOn, callStatus, isConnecting, isMuted := true, Active, false, false;
      AddMessage(SessionStartedText, System);
    }

    /** The `call-end` callback. */
    method OnCallEnd()
      requires Valid()
      modifies this`isMicOn, this`callStatus, this`isConnecting, this`messages, this`messageIdCounter
      ensures Valid() && MicOnlyWhenActive()
      ensures !isMicOn && callStatus == Ended && !isConnecting
      ensures messages == old(messages) + [Message(old(messageIdCounter), SessionEndedText, System)]
      ensures messageIdCounter == old(messageIdCounter) + 1
    {
      isMicOn, callStatus, isConnecting := false, Ended, false;
      AddMessage(SessionEndedText, System);
    }

    /** The `speech-start` callback: appends the ai placeholder "speaking". */
    method OnSpeechStart()
      requires Valid()
      modifies this`messages, this`messageIdCounter
      ensures Valid()
      ensures messages == old(messages) + [Message(old(messageIdCounter), SpeakingText, Ai)]
      ensures messageIdCounter == old(messageIdCounter) + 1
    {
      AddMessage(SpeakingText, Ai);
    }

    /**
     * The `message` callback: an assistant hand-off adds a system entry (and records
     * the assistant when one is given); a final user transcript goes through
     * `updateLastMessage`; a final assistant transcript goes through
     * `updateLastAIMessage` and, when it holds the closing phrase, adds the
     * completion entry and schedules one teardown. Anything else changes nothing.
     */
    method OnMessage(msg: SdkMessage)
      requires Valid()
      modifies this`messages, this`messageIdCounter, this`currentAssistant, this`pendingTeardowns
      ensures Valid()
      ensures msg.msgType == "assistant-request" ==>
        && messages == old(messages) + [Message(old(messageIdCounter), SwitchingText(msg.assistant), System)]
        && messageIdCounter == old(messageIdCounter) + 1
        && currentAssistant == (if msg.assistant.Some? then msg.assistant else old(currentAssistant))
        && pendingTeardowns == old(pendingTeardowns)
      ensures IsFinalTranscript(msg, "user") ==>
        && messages == AfterUpdateLast(old(messages), old(messageIdCounter), msg.transcript, User)
        && messageIdCounter == old(messageIdCounter) + (if ReplacesLast(old(messages), User) then 0 else 1)
        && currentAssistant == old(currentAssistant)
        && pendingTeardowns == old(pendingTeardowns)
      ensures IsFinalTranscript(msg, "assistant") ==>
        var closing := MentionsClosingPhrase(msg.transcript);
        && messages == AfterFinalAi(old(messages), old(messageIdCounter), msg.transcript)
                       + (if closing then [Message(old(messageIdCounter) + 1, CompletionText, System)] else [])
        && messageIdCounter == old(messageIdCounter) + (if closing then 2 else 1)
        && pendingTeardowns == old(pendingTeardowns) + (if closing then 1 else 0)
        && currentAssistant == old(currentAssistant)
      ensures msg.msgType != "assistant-request" && !IsFinalTranscript(msg, "user")
              && !IsFinalTranscript(msg, "assistant") ==>
        && messages == old(messages)
        && messageIdCounter == old(messageIdCounter)
        && currentAssistant == old(currentAssistant)
        && pendingTeardowns == old(pendingTeardowns)
    {
      if msg.msgType == "assistant-request" {
        AddMessage(SwitchingText(msg.assistant), System);
      }
      if msg.msgType == "assistant-request" && msg.assistant.Some? {
        currentAssistant := msg.assistant;
      }
      if IsFinalTranscript(msg, "user") {
        UpdateLastMessage(msg.transcript, User);
        return;
      }
      if IsFinalTranscript(msg, "assistant") {
        UpdateLastAIMessage(msg.transcript);
        if MentionsClosingPhrase(msg.transcript) {
          AddMessage(CompletionText, System);
          pendingTeardowns := pendingTeardowns + 1;
        }
      }
    }

    /** A teardown timer scheduled by the closing phrase fires: stop the call and mark it ended. */
    method FireTeardown()
      requires Valid() && pendingTeardowns > 0
      modifies this`outbox, this`callStatus, this`isMicOn, this`isConnecting, this`pendingTeardowns
      ensures Valid() && MicOnlyWhenActive()
      ensures outbox == old(outbox) + [VapiStop]
      ensures callStatus == Ended && !isMicOn && !isConnecting
      ensures pendingTeardowns == old(pendingTeardowns) - 1
    {
      outbox := outbox + [VapiStop];
      callStatus, isMicOn, isConnecting := Ended, false, false;
      pendingTeardowns := pendingTeardowns - 1;
    }

    /** The `error` callback: back to inactive, then one error entry with the classified text. */
    method OnError(e: SdkError)
      requires Valid()
      modifies this`isConnecting, this`isMicOn, this`callStatus, this`messages, this`messageIdCounter
      ensures Valid() && MicOnlyWhenActive()
      ensures !isConnecting && !isMicOn && callStatus == Inactive
      ensures messages == old(messages) + [Message(old(messageIdCounter), ErrorEntryText(e), Error)]
      ensures messageIdCounter == old(messageIdCounter) + 1
    {
      isConnecting, isMicOn, callStatus := false, false, Inactive;
      AddMessage(ErrorEntryText(e), Error);
    }

    /** What `startCall` does, with the SDK's answer `outcome`. */
    twostate predicate StartCallEffect(outcome: StartOutcome)
      reads this
    {
      if !old(vapiReady) then
        && callStatus == old(callStatus) && isConnecting == old(isConnecting) && callId == old(callId)
        && outbox == old(outbox) && messages == old(messages) && messageIdCounter == old(messageIdCounter)
      else
        && outbox == old(outbox) + [VapiStart(EnglishAssistantId)]
        && match outcome
           case Started(id) =>
             && callStatus == Connecting && isConnecting
             && callId == (if id != "" then Some(id) else old(callId))
             && messages == old(messages) && messageIdCounter == old(messageIdCounter)
           case StartFailed(why) =>
             && callStatus == Inactive && !isConnecting && callId == old(callId)
             && messages == old(messages) + [Message(old(messageIdCounter), StartFailedText(why), Error)]
             && messageIdCounter == old(messageIdCounter) + 1
    }

    /** `startCall`: go to connecting and ask the SDK to start; a failure goes back to inactive with an error entry. */
    method StartCall(outcome: StartOutcome)
      requires Valid()
      modifies this`isConnecting, this`callStatus, this`callId, this`outbox, this`messages, this`messageIdCounter
      ensures Valid()
      ensures old(MicOnlyWhenActive()) && old(callStatus) != Active ==> MicOnlyWhenActive()
      ensures StartCallEffect(outcome)
    {
      if !vapiReady {
        return;
      }
      isConnecting, callStatus := true, Connecting;
      outbox := outbox + [VapiStart(EnglishAssistantId)];
      match outcome {
        case Started(id) =>
          if id != "" {
            callId := Some(id);
          }
        case StartFailed(why) =>
          isConnecting, callStatus := false, Inactive;
          AddMessage(StartFailedText(why), Error);
      }
    }

    /** What `endCall` does: only an active or connecting call is stopped; otherwise nothing changes. */
    twostate predicate EndCallEffect()
      reads this
    {
      if old(vapiReady) && (old(callStatus) == Active || old(callStatus) == Connecting) then
        && outbox == old(outbox) + [VapiStop]
        && callStatus == Ended && !isMicOn && !isConnecting
      else
        && outbox == old(outbox) && callStatus == old(callStatus)
        && isMicOn == old(isMicOn) && isConnecting == old(isConnecting)
    }

    /** `endCall`. */
    method EndCall()
      requires Valid()
      modifies this`outbox, this`callStatus, this`isMicOn, this`isConnecting
      ensures Valid()
      ensures old(MicOnlyWhenActive()) ==> MicOnlyWhenActive()
      ensures EndCallEffect()
    {
      if vapiReady && (callStatus == Active || callStatus == Connecting) {
        outbox := outbox + [VapiStop];
        callStatus, isMicOn, isConnecting := Ended, false, false;
      }
    }

    /**
     * `sendTextToAssistant`: text that trims to nothing is dropped; otherwise the
     * user entry is committed, the text is sent, and a failed send adds an error
     * entry after the user entry.
     */
    method SendTextToAssistant(text: string, outcome: SendOutcome)
      requires Valid()
      modifies this`outbox, this`messages, this`messageIdCounter
      ensures Valid()
      ensures !old(vapiReady) || Trim(text) == "" ==>
        outbox == old(outbox) && messages == old(messages) && messageIdCounter == old(messageIdCounter)
      ensures old(vapiReady) && Trim(text) != "" ==>
        && messages == old(messages) + SendEntries(text, old(messageIdCounter), outcome)
        && messageIdCounter == old(messageIdCounter) + (if outcome.SendFailed? then 2 else 1)
        && outbox == old(outbox) + [VapiSend(text)]
    {
      if !vapiReady || Trim(text) == "" {
        return;
      }
      AddMessage(text, User);
      outbox := outbox + [VapiSend(text)];
      if outcome.SendFailed? {
        AddMessage(SendFailedText(outcome.message), Error);
      }
    }

    /**
     * `handleTextSubmit`: when the input trims to something, start a call first
     * unless one is active, then send the trimmed text and clear the input.
     */
    method HandleTextSubmit(startOutcome: StartOutcome, sendOutcome: SendOutcome)
      requires Valid()
      modifies this`textInput, this`isConnecting, this`callStatus, this`callId, this`outbox,
               this`messages, this`messageIdCounter
      ensures Valid()
      ensures old(MicOnlyWhenActive()) ==> MicOnlyWhenActive()
      ensures Trim(old(textInput)) == "" ==>
        && textInput == old(textInput) && callStatus == old(callStatus) && callId == old(callId)
        && outbox == old(outbox) && messages == old(messages) && messageIdCounter == old(messageIdCounter)
      ensures Trim(old(textInput)) != "" ==> textInput == ""
      ensures Trim(old(textInput)) != "" && !old(vapiReady) ==>
        && callStatus == old(callStatus) && callId == old(callId)
        && outbox == old(outbox) && messages == old(messages) && messageIdCounter == old(messageIdCounter)
      ensures Trim(old(textInput)) != "" && old(vapiReady) && old(callStatus) == Active ==>
        var text := Trim(old(textInput));
        && outbox == old(outbox) + [VapiSend(text)]
        && messages == old(messages) + SendEntries(text, old(messageIdCounter), sendOutcome)
        && messageIdCounter == old(messageIdCounter) + (if sendOutcome.SendFailed? then 2 else 1)
        && callStatus == Active && callId == old(callId)
      ensures Trim(old(textInput)) != "" && old(vapiReady) && old(callStatus) != Active ==>
        var text := Trim(old(textInput));
        && outbox == old(outbox) + [VapiStart(EnglishAssistantId), VapiSend(text)]
        && match startOutcome
           case Started(id) =>
             && callId == (if id != "" then Some(id) else old(callId))
             && messages == old(messages) + SendEntries(text, old(messageIdCounter), sendOutcome)
             && messageIdCounter == old(messageIdCounter) + (if sendOutcome.SendFailed? then 2 else 1)
             && callStatus == Connecting
           case StartFailed(why) =>
             && callId == old(callId)
             && messages == old(messages) + [Message(old(messageIdCounter), StartFailedText(why), Error)]
                            + SendEntries(text, old(messageIdCounter) + 1, sendOutcome)
             && messageIdCounter == old(messageIdCounter) + 1 + (if sendOutcome.SendFailed? then 2 else 1)
             && callStatus == Inactive
    {
      var text := Trim(textInput);
      if text != "" {
        TrimIdempotent(textInput);
        if callStatus != Active {
          StartCall(startOutcome);
          SendTextToAssistant(text, sendOutcome);
        } else {
          SendTextToAssistant(text, sendOutcome);
        }
        textInput := "";
      }
    }

    /** `handleMicToggle`: inactive starts a call, active ends it, connecting and ended do nothing. */
    method HandleMicToggle(startOutcome: StartOutcome)
      requires Valid()
      modifies this`isConnecting, this`callStatus, this`callId, this`outbox, this`messages,
               this`messageIdCounter, this`isMicOn
      ensures Valid()
      ensures old(MicOnlyWhenActive()) ==> MicOnlyWhenActive()
      ensures old(callStatus) == Inactive ==> StartCallEffect(startOutcome) && isMicOn == old(isMicOn)
      ensures old(callStatus) == Active ==>
        EndCallEffect() && callId == old(callId) && messages == old(messages)
        && messageIdCounter == old(messageIdCounter)
      ensures old(callStatus) == Connecting || old(callStatus) == Ended ==> unchanged(this)
    {
      if callStatus == Inactive {
        StartCall(startOutcome);
      } else if callStatus == Active {
        EndCall();
      }
    }

    /** `handleMuteToggle`: during an active call, flip `isMuted` and forward the new value. */
    method HandleMuteToggle()
      requires Valid()
      modifies this`isMuted, this`outbox
      ensures Valid()
      ensures old(vapiReady) && old(callStatus) == Active ==>
        isMuted == !old(isMuted) && outbox == old(outbox) + [VapiSetMuted(isMuted)]
      ensures !(old(vapiReady) && old(callStatus) == Active) ==> unchanged(this)
    {
      if vapiReady && callStatus == Active {
        var muted := !isMuted;
        outbox := outbox + [VapiSetMuted(muted)];
        isMuted := muted;
      }
    }
  }
}
