/**
 * The `VoiceAgent` controller as an object: the fields its handlers update in place and
 * one method per handler, each proved to leave the object in the state the matching
 * function of `Session` gives for the state it started from.
 */
module Agent {
  import opened Wrappers
  import opened Text
  import opened Ledger
  import opened Transcript
  import opened Protocol
  import Session

  class VoiceAgent {
    var isConnected: bool
    /** `this.dataChannel && this.dataChannel.readyState === 'open'`. */
    var channelOpen: bool
    var isMuted: bool
    /** `this.mediaStream` is set: the microphone stream exists. */
    var hasMediaStream: bool
    var isAssistantSpeaking: bool
    var hasActiveResponse: bool
    var voiceActivityDuration: int
    // The four counters of `this.tokenUsage`.
    var inputTextTokens: nat
    var inputAudioTokens: nat
    var outputTextTokens: nat
    var outputAudioTokens: nat
    /** The children of the conversation-log element, oldest first. */
    var conversationLog: seq<Entry>
    var eventLog: seq<Event>
    /** Everything written to the data channel, in order. */
    var sent: seq<Outbound>
    var sessionData: Option<Session.SessionData>

    /** The four counters as a value. */
    function TokenUsage(): Usage
      reads this
    {
      Usage(inputTextTokens, inputAudioTokens, outputTextTokens, outputAudioTokens)
    }

    /** The object's state as a value. */
    function Snapshot(): Session.State
      reads this
    {
      Session.State(isConnected, channelOpen, isMuted, hasMediaStream, isAssistantSpeaking, hasActiveResponse,
                    voiceActivityDuration,
                    TokenUsage(),
                    conversationLog, eventLog, sent, sessionData)
    }

    ghost predicate Valid()
      reads this
    {
      Session.Valid(Snapshot())
    }

    /** The fields the constructor initializes: disconnected, silent, empty logs and zero counters. */
    constructor()
      ensures Snapshot() == Session.Initial && Valid()
    {
      isConnected := false;
      channelOpen := false;
      isMuted := false;
      hasMediaStream := false;
      eventLog := [];
      isAssistantSpeaking := false;
      hasActiveResponse := false;
      voiceActivityDuration := 0;
      inputTextTokens, inputAudioTokens, outputTextTokens, outputAudioTokens := 0, 0, 0, 0;
      conversationLog := [];
      sent := [];
      sessionData := None;
    }

    /** `log(type, message)`. */
    method Log(kind: string, message: string)
      modifies this`conversationLog
      ensures conversationLog == Logged(old(conversationLog), kind, message)
    {
      conversationLog := conversationLog + [Plain(kind, message)];
    }

    /** `appendAssistantTranscript(delta)`: opens a streaming entry if needed, then extends its text. */
    method AppendAssistantTranscript(delta: string)
      modifies this`conversationLog
      ensures conversationLog == AppendDelta(old(conversationLog), delta)
    {
      if conversationLog == [] || !Last(conversationLog).streaming {
        conversationLog := conversationLog + [Entry(Assistant, "", true, true)];
      }
      var n := |conversationLog|;
      var last := conversationLog[n - 1];
      conversationLog := conversationLog[n - 1 := last.(text := last.text + delta)];
    }

    /** `finalizeAssistantTranscript(fullTranscript)`. */
    method FinalizeAssistantTranscript(fullTranscript: string)
      modifies this`conversationLog
      ensures conversationLog == Finalize(old(conversationLog), fullTranscript)
    {
      if conversationLog != [] && Last(conversationLog).streaming {
        var n := |conversationLog|;
        var last := conversationLog[n - 1];
        conversationLog := conversationLog[n - 1 := last.(text := fullTranscript, streaming := false, speaking := false)];
      } else {
        Log(Assistant, fullTranscript);
      }
    }

    /** `ensureAssistantTranscript(transcript)`. */
    method EnsureAssistantTranscript(transcript: string)
      modifies this`conversationLog
      ensures conversationLog == Ensure(old(conversationLog), transcript)
    {
      if conversationLog != [] && Last(conversationLog).kind == Assistant {
        if Trim(Last(conversationLog).text) == Trim(transcript) {
          var n := |conversationLog|;
          var last := conversationLog[n - 1];
          conversationLog := conversationLog[n - 1 := last.(streaming := false, speaking := false)];
          return;
        }
      }
      FinalizeAssistantTranscript(transcript);
    }

    /** `showAssistantSpeaking(speaking)`. */
    method ShowAssistantSpeaking(speaking: bool)
      modifies this`conversationLog
      ensures conversationLog == ShowSpeaking(old(conversationLog), speaking)
    {
      if conversationLog != [] && (Last(conversationLog).kind == Assistant || Last(conversationLog).streaming) {
        var n := |conversationLog|;
        conversationLog := conversationLog[n - 1 := conversationLog[n - 1].(speaking := speaking)];
      }
    }

    /** `addTokenUsage(type, tokens)`. */
    method AddTokenUsage(c: Category, tokens: int)
      modifies this`inputTextTokens, this`inputAudioTokens, this`outputTextTokens, this`outputAudioTokens
      ensures TokenUsage() == Add(old(TokenUsage()), c, tokens)
    {
      if tokens > 0 {
        match c
        case InputText => inputTextTokens := inputTextTokens + tokens;
        case InputAudio => inputAudioTokens := inputAudioTokens + tokens;
        case OutputText => outputTextTokens := outputTextTokens + tokens;
        case OutputAudio => outputAudioTokens := outputAudioTokens + tokens;
      }
    }

    /** `resetTokenUsage()`. */
    method ResetTokenUsage()
      modifies this`inputTextTokens, this`inputAudioTokens, this`outputTextTokens, this`outputAudioTokens
      ensures TokenUsage() == Zero
    {
      inputTextTokens, inputAudioTokens, outputTextTokens, outputAudioTokens := 0, 0, 0, 0;
    }

    /** `clearConversationLog()`. */
    method ClearConversationLog()
      requires Valid()
      modifies this
      ensures Snapshot() == Session.ClearConversationLog(old(Snapshot()))
      ensures Valid()
    {
      conversationLog := [];
      Log("system", Session.LogClearedNote);
      ResetTokenUsage();
      Log("system", Session.UsageResetNote);
      Session.ClearConversationLogResets(old(Snapshot()));
    }

    /**
     * `trackTokenUsage(event)`: a usage report is logged and its non-zero totals replace the
     * counters; otherwise the event's estimate, if it has one, is counted and logged.
     */
    method TrackTokenUsage(e: Event)
      modifies this`conversationLog, this`inputTextTokens, this`inputAudioTokens, this`outputTextTokens, this`outputAudioTokens
      ensures Snapshot() == Session.Track(old(Snapshot()), e)
    {
      if e.UsageReported? {
        ApplyUsageReport(e.usage);
      } else {
        CountEstimate(Session.Estimated(e));
      }
    }

    /** The `response.usage` branch: the report is logged, then reconciled into the counters. */
    method ApplyUsageReport(usage: Option<Report>)
      modifies this`conversationLog, this`inputTextTokens, this`inputAudioTokens, this`outputTextTokens, this`outputAudioTokens
      ensures Snapshot() == Session.ApplyReport(old(Snapshot()), usage)
    {
      if usage.Some? {
        Log("system", Session.UsageNote);
        var report := usage.value;
        if report.inputTokens != 0 {
          inputTextTokens := report.inputTokens;
          inputAudioTokens := report.inputAudioTokens;
        }
        if report.outputTokens != 0 {
          outputTextTokens := report.outputTokens;
          outputAudioTokens := report.outputAudioTokens;
        }
      }
    }

    /** The estimating branches: the estimate, if any, is counted, then reported in a system line. */
    method CountEstimate(estimation: Option<Session.Estimation>)
      modifies this`conversationLog, this`inputTextTokens, this`inputAudioTokens, this`outputTextTokens, this`outputAudioTokens
      ensures Snapshot() == Session.CountEstimate(old(Snapshot()), estimation)
    {
      if estimation.Some? {
        var category := estimation.value.category;
        AddTokenUsage(category, Estimate(estimation.value.text));
        Log("system", Session.EstimateNote(category));
      }
    }

    /**
     * `handleRealtimeEvent(event)`; `threw` is true when the handler throws (a
     * `conversation.item.created` event without an item).
     */
    method HandleRealtimeEvent(e: Event) returns (threw: bool)
      requires Valid()
      modifies this
      ensures (Snapshot(), threw) == Session.Dispatch(old(Snapshot()), e)
      ensures Valid()
    {
      RecordEvent(e);
      TrackTokenUsage(e);
      threw := RespondTo(e);
      Session.DispatchRecordsEvent(old(Snapshot()), e);
    }

    /** The type switch, stated on the whole state. */
    method RespondTo(e: Event) returns (threw: bool)
      modifies this`conversationLog, this`hasActiveResponse, this`isAssistantSpeaking
      ensures (Snapshot(), threw) == Session.Respond(old(Snapshot()), e)
    {
      threw := SwitchOnType(e);
    }

    /** `this.eventLog.push(event)`. */
    method RecordEvent(e: Event)
      modifies this`eventLog
      ensures Snapshot() == Session.Record(old(Snapshot()), e)
    {
      eventLog := eventLog + [e];
    }

    /**
     * The type switch of `handleRealtimeEvent`: it touches only the log and the two response
     * flags, and throws, touching nothing, for a `conversation.item.created` event without an item.
     */
    method SwitchOnType(e: Event) returns (threw: bool)
      modifies this`conversationLog, this`hasActiveResponse, this`isAssistantSpeaking
      ensures threw <==> e == ItemCreated(None)
      ensures conversationLog == Session.Replied(old(conversationLog), e)
      ensures hasActiveResponse == Session.ActiveAfter(old(hasActiveResponse), e)
      ensures isAssistantSpeaking == Session.SpeakingAfter(old(isAssistantSpeaking), e)
    {
      threw := false;
      match e
      case SessionCreated => Log("system", Session.SessionCreatedNote);
      case ResponseCreated => hasActiveResponse := true;
      case ResponseDone => hasActiveResponse := false;
      case ResponseCancelled => hasActiveResponse := false;
      case ItemCreated(item) =>
        if item.None? {
          threw := true;
          return;
        }
        if item.value.itemType == "message" {
          Log(item.value.role, Session.ItemContent(item.value));
        }
      case TranscriptDelta(_) => ShowTranscript(e);
      case TranscriptDone(_) => ShowTranscript(e);
      case AudioDelta =>
        isAssistantSpeaking := true;
        ShowAssistantSpeaking(true);
      case AudioDone =>
        isAssistantSpeaking := false;
        ShowAssistantSpeaking(false);
      case InputTranscriptionCompleted(transcript) =>
        if transcript != "" {
          Log("user", transcript);
        }
      case ContentPartDone(_) => ShowTranscript(e);
      case OutputItemDone(_) => ShowTranscript(e);
      case TextDelta(_) => ShowTranscript(e);
      case Error(message) =>
        Log("error", "API Error: " + (if message != "" then message else "Unknown error"));
        if Session.IsCancellationFailure(message) {
          hasActiveResponse := false;
        }
      case UsageReported(_) =>
      case Other(_) =>
    }

    /** The cases of the type switch that stream, finalize or ensure the assistant's transcript. */
    method ShowTranscript(e: Event)
      requires e.TranscriptDelta? || e.TranscriptDone? || e.ContentPartDone? || e.OutputItemDone? || e.TextDelta?
      modifies this`conversationLog
      ensures conversationLog == Session.Replied(old(conversationLog), e)
    {
      match e
      case TranscriptDelta(delta) => AppendAssistantTranscript(delta);
      case TranscriptDone(transcript) =>
        if transcript != "" {
          FinalizeAssistantTranscript(transcript);
        }
      case ContentPartDone(part) =>
        if part.Some? && part.value.partType == "audio" && part.value.transcript != "" {
          EnsureAssistantTranscript(part.value.transcript);
        }
      case OutputItemDone(item) =>
        if item.Some? && item.value.role == "assistant" && FirstTranscript(item.value) != "" {
          EnsureAssistantTranscript(FirstTranscript(item.value));
        }
      case TextDelta(delta) => AppendAssistantTranscript(delta);
    }

    /** `sendEvent(event)`: `ok` is false where the source throws "Data channel not available". */
    method SendEvent(ev: Outbound) returns (ok: bool)
      modifies this`sent
      ensures (Snapshot(), ok) == Session.Send(old(Snapshot()), ev)
    {
      if channelOpen {
        sent := sent + [ev];
        ok := true;
      } else {
        ok := false;
      }
    }

    /**
     * `detectVoiceActivity(inputLevel)` with the interruption checkbox `enabled`; `threw` is
     * true when the cancel could not be sent.
     */
    method DetectVoiceActivity(inputLevel: real, enabled: bool) returns (threw: bool)
      requires Valid()
      modifies this
      ensures (Snapshot(), threw) == Session.VoiceTick(old(Snapshot()), inputLevel, enabled)
      ensures Valid()
    {
      threw := false;
      if enabled {
        if inputLevel > Session.VoiceActivityThreshold {
          voiceActivityDuration := voiceActivityDuration + 1;
          if voiceActivityDuration >= Session.VoiceActivityCountThreshold && hasActiveResponse {
            Log("system", Session.InterruptingNote);
            var ok := SendEvent(ResponseCancel);
            if ok {
              voiceActivityDuration := 0;
            } else {
              threw := true;
            }
          }
        } else {
          voiceActivityDuration := if voiceActivityDuration - 1 > 0 then voiceActivityDuration - 1 else 0;
        }
      }
      Session.VoiceTickValid(old(Snapshot()), inputLevel, enabled);
    }

    /**
     * `sendContext()` with the text of the context box and the two checkboxes: counts the
     * estimate, then sends and logs step by step; the first send that fails ends it with an
     * error line.
     */
    method SendContext(text: string, interruptMode: bool, backgroundMode: bool) returns (outcome: Session.ContextOutcome)
      requires Valid()
      modifies this
      ensures (Snapshot(), outcome) == Session.SendContext(old(Snapshot()), text, interruptMode, backgroundMode)
      ensures Valid()
    {
      Session.SendContextValid(Snapshot(), text, interruptMode, backgroundMode);
      var contextText := Trim(text);
      if contextText == [] || !isConnected {
        return Session.Skipped;
      }
      outcome := DeliverContext(contextText, interruptMode, backgroundMode);
    }

    /** The `try` block of `sendContext` with the trimmed text: the estimate is counted before anything is sent. */
    method DeliverContext(contextText: string, interruptMode: bool, backgroundMode: bool) returns (outcome: Session.ContextOutcome)
      modifies this`sent, this`conversationLog
      modifies this`inputTextTokens, this`inputAudioTokens, this`outputTextTokens, this`outputAudioTokens
      ensures (Snapshot(), outcome) == Session.Deliver(old(Snapshot()), contextText, interruptMode, backgroundMode)
    {
      ghost var counted := Session.Count(Snapshot(), InputText, Estimate(contextText));
      AddTokenUsage(InputText, Estimate(contextText));
      assert Snapshot() == counted;
      outcome := InjectContext(contextText, interruptMode, backgroundMode);
    }

    /**
     * The `try` block of `sendContext` after the estimate is counted: on an open channel
     * every send goes through, on a closed one the first send throws and the `catch` logs it.
     */
    method InjectContext(contextText: string, interruptMode: bool, backgroundMode: bool) returns (outcome: Session.ContextOutcome)
      modifies this`sent, this`conversationLog
      ensures old(channelOpen) ==>
                outcome == Session.Injected && Snapshot() == Session.Inject(old(Snapshot()), contextText, interruptMode, backgroundMode)
      ensures !old(channelOpen) ==>
                outcome == Session.SendFailed && Snapshot() == Session.Log(old(Snapshot()), "error", Session.ContextFailedNote)
    {
      var ok: bool;
      if interruptMode {
        ok := SendThenLog(ResponseCancel, Session.InterruptedNote);
        if !ok {
          return Session.SendFailed;
        }
      }
      ok := SendThenLog(ItemCreate(contextText), Session.InjectedNote);
      if !ok {
        return Session.SendFailed;
      }
      if !backgroundMode {
        ok := SendThenLog(ResponseCreate, Session.RequestingNote);
      } else {
        Log("system", Session.BackgroundNote);
      }
      Log("system", Session.ModeNote(interruptMode, backgroundMode));
      outcome := Session.Injected;
    }

    /**
     * One step of `sendContext`: `sendEvent(ev)` followed by a system line; when the send
     * throws, the `catch` logs the error line instead and the step reports false.
     */
    method SendThenLog(ev: Outbound, note: string) returns (ok: bool)
      modifies this`sent, this`conversationLog
      ensures ok == channelOpen
      ensures ok ==> Snapshot() == Session.Log(Session.Sent(old(Snapshot()), ev), "system", note)
      ensures !ok ==> Snapshot() == Session.Log(old(Snapshot()), "error", Session.ContextFailedNote)
    {
      ok := SendEvent(ev);
      if ok {
        Log("system", note);
      } else {
        Log("error", Session.ContextFailedNote);
      }
    }

    /** `sendSessionUpdate()` with the text of the instructions box; `threw` when there is no session data. */
    method SendSessionUpdate(instructionsBox: string) returns (threw: bool)
      requires Valid()
      modifies this
      ensures (Snapshot(), threw) == Session.SendSessionUpdate(old(Snapshot()), instructionsBox)
      ensures Valid()
    {
      Session.SendSessionUpdateValid(Snapshot(), instructionsBox);
      threw := false;
      if !channelOpen {
        return;
      }
      if sessionData.None? {
        threw := true;
        return;
      }
      if sessionData.value.voice == "" {
        Log("error", Session.NoVoiceNote);
        return;
      }
      var payload := SessionUpdatePayload(instructionsBox, sessionData.value.voice);
      ghost var before := Snapshot();
      sent := sent + [SessionUpdate(payload)];
      assert Snapshot() == Session.Sent(before, SessionUpdate(payload));
      Log("system", Session.ConfiguredNote);
    }

    /** The data channel's `open` listener. */
    method OnChannelOpen(instructionsBox: string) returns (threw: bool)
      requires Valid()
      modifies this
      ensures (Snapshot(), threw) == Session.ChannelOpened(old(Snapshot()), instructionsBox)
      ensures Valid()
    {
      channelOpen := true;
      Log("system", Session.ChannelOpenedNote);
      threw := SendSessionUpdate(instructionsBox);
    }

    /** The data channel's `close` listener. */
    method OnChannelClose()
      requires Valid()
      modifies this
      ensures Snapshot() == Session.ChannelClosed(old(Snapshot()))
      ensures Valid()
    {
      Session.ChannelClosedValid(Snapshot());
      channelOpen := false;
      Log("system", Session.ChannelClosedNote);
    }

    /** The peer connection's `connectionstatechange` listener. */
    method OnConnectionStateChange(state: ConnectionState)
      requires Valid()
      modifies this
      ensures Snapshot() == Session.ConnectionChange(old(Snapshot()), state)
      ensures Valid()
    {
      Session.ConnectionChangeValid(Snapshot(), state);
      Log("system", "Connection state: " + state.Name());
      if state == Connected {
        isConnected := true;
      } else if state == ConnectionState.Failed || state == Disconnected {
        isConnected := false;
      }
    }

    /** `stopSession()`. */
    method StopSession()
      requires Valid()
      modifies this
      ensures Snapshot() == Session.StopSession(old(Snapshot()))
      ensures Valid()
    {
      Session.StopSessionValid(Snapshot());
      channelOpen := false;
      hasMediaStream := false;
      isConnected := false;
      isMuted := false;
      Log("system", Session.SessionEndedNote);
    }

    /** The step of `setupWebRTC` where `getUserMedia` has granted a microphone stream. */
    method AcquireMicrophone()
      requires Valid()
      modifies this`hasMediaStream
      ensures Snapshot() == Session.AcquireMicrophone(old(Snapshot()))
      ensures Valid()
    {
      Session.AcquireMicrophoneValid(Snapshot());
      hasMediaStream := true;
    }

    /** `toggleMute()`. */
    method ToggleMute()
      requires Valid()
      modifies this
      ensures Snapshot() == Session.ToggleMute(old(Snapshot()))
      ensures Valid()
    {
      Session.ToggleMuteValid(Snapshot());
      if !hasMediaStream {
        return;
      }
      isMuted := !isMuted;
      Log("system", if isMuted then "Microphone muted" else "Microphone unmuted");
    }

    /** `startSession()` once `/api/session` has answered with `data`. */
    method BeginSession(data: Session.SessionData)
      requires Valid()
      modifies this
      ensures Snapshot() == Session.BeginSession(old(Snapshot()), data)
      ensures Valid()
    {
      Session.BeginSessionResets(Snapshot(), data);
      ResetTokenUsage();
      sessionData := Some(data);
      Log("system", Session.SessionTokenNote);
    }
  }
}
