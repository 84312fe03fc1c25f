/**
 * The session controller's state and, for every operation of `VoiceAgent`, a
 * function giving the state it leaves behind: the inbound dispatcher with its
 * token tracking, the voice-activity interrupter, context injection, session
 * configuration, the data-channel and peer-connection listeners and teardown.
 * The lemmas state the lifecycle, interruption, ledger and ordering properties
 * of these functions.
 */
module Session {
  import opened Wrappers
  import opened Text
  import opened Ledger
  import opened Transcript
  import opened Protocol

  /** `this.sessionData`, as returned by `/api/session`; an absent field is "". */
  datatype SessionData = SessionData(model: string, voice: string)

  /**
   * The fields of `VoiceAgent` this model covers. `channelOpen` stands for
   * `this.dataChannel && this.dataChannel.readyState === 'open'`, `hasMediaStream` for
   * `this.mediaStream` being set, `conversation` for the
   * children of the conversation-log element and `sent` for what went out on the data
   * channel, in order.
   */
  datatype State = State(
    isConnected: bool,
    channelOpen: bool,
    isMuted: bool,
    hasMediaStream: bool,
    isAssistantSpeaking: bool,
    hasActiveResponse: bool,
    voiceActivityDuration: int,
    tokenUsage: Usage,
    conversation: seq<Entry>,
    eventLog: seq<Event>,
    sent: seq<Outbound>,
    sessionData: Option<SessionData>)

  /** The invariant every operation keeps. */
  ghost predicate Valid(s: State) {
    s.voiceActivityDuration >= 0 && WellFormed(s.conversation)
  }

  /** The state the constructor leaves. */
  const Initial := State(false, false, false, false, false, false, 0, Zero, [], [], [], None)

  lemma InitialValid()
    ensures Valid(Initial)
  {
  }

  // The texts of the system and error lines. Where the source embeds a formatted number,
  // a length or JSON, only the fixed words before it are kept.
  const SessionTokenNote := "Session token obtained successfully"
  const SessionCreatedNote := "Session created successfully"
  const AudioInputNote := "\U{1F3A4} Audio input: ~"
  const AudioOutputNote := "\U{1F50A} Audio output: ~"
  const TextInputNote := "\U{1F4AC} Text input: ~"
  const TextOutputNote := "\U{1F916} Text output: ~"
  const UsageNote := "\U{1F4CA} Actual usage data received: "
  const InterruptingNote := "\U{1F5E3}\U{FE0F} User voice detected during AI response - interrupting AI"
  const InterruptedNote := "\U{1F6D1} Interrupted current response for context injection"
  const InjectedNote := "\U{1F4DD} Context injected: "
  const RequestingNote := "\U{1F916} Requesting AI response to context"
  const BackgroundNote := "\U{1F507} Context processed in background mode (no response requested)"
  const ContextFailedNote := "Failed to send context: Data channel not available"
  const NoVoiceNote := "No voice specified in session data"
  const ConfiguredNote := "\U{2705} Session configured with custom instructions ("
  const ChannelOpenedNote := "Data channel opened"
  const ChannelClosedNote := "Data channel closed"
  const SessionEndedNote := "Session ended"
  const LogClearedNote := "Conversation log cleared"
  const UsageResetNote := "Token usage reset"

  /** `this.log(kind, message)`. */
  function Log(s: State, kind: string, message: string): State {
    s.(conversation := Logged(s.conversation, kind, message))
  }

  /** `addTokenUsage(category, tokens)`. */
  function Count(s: State, c: Category, tokens: int): State {
    s.(tokenUsage := Add(s.tokenUsage, c, tokens))
  }

  /** The model named by the session data, "" when there is none. */
  function ModelOf(s: State): string {
    if s.sessionData.Some? then s.sessionData.value.model else ""
  }

  /** The figures `updateCostDisplay` shows for the current counters. */
  function CostDisplay(s: State): Costs {
    Cost(s.tokenUsage, PricingFor(ModelOf(s)))
  }

  /** `resetTokenUsage`. */
  function ResetTokenUsage(s: State): State {
    s.(tokenUsage := Zero)
  }

  /** An estimate the token tracker makes: the counter it feeds and the text it measures. */
  datatype Estimation = Estimation(category: Category, text: string)

  /**
   * The estimating branches of `trackTokenUsage`: a transcribed user utterance is input
   * audio, a finished assistant transcript is output audio, and the first text content of a
   * created item is input or output text by the item's role (other roles are not counted).
   */
  function Estimated(e: Event): (r: Option<Estimation>)
    ensures r.Some? ==> r.value.text != []
    ensures r.Some? && (e.InputTranscriptionCompleted? || e.TranscriptDone?) ==> r.value.text == e.transcript
    ensures r.Some? && e.ItemCreated? && e.item.Some? ==> r.value.text == FirstText(e.item.value)
    ensures r.Some? && r.value.category == InputAudio <==> e.InputTranscriptionCompleted? && e.transcript != ""
    ensures r.Some? && r.value.category == OutputAudio <==> e.TranscriptDone? && e.transcript != ""
    ensures r.Some? && r.value.category == InputText <==>
              e.ItemCreated? && e.item.Some? && FirstText(e.item.value) != "" && e.item.value.role == "user"
    ensures r.Some? && r.value.category == OutputText <==>
              e.ItemCreated? && e.item.Some? && FirstText(e.item.value) != "" && e.item.value.role == "assistant"
  {
    match e
    case InputTranscriptionCompleted(t) => if t == "" then None else Some(Estimation(InputAudio, t))
    case TranscriptDone(t) => if t == "" then None else Some(Estimation(OutputAudio, t))
    case ItemCreated(item) =>
      if item.None? || FirstText(item.value) == "" then None
      else if item.value.role == "user" then Some(Estimation(InputText, FirstText(item.value)))
      else if item.value.role == "assistant" then Some(Estimation(OutputText, FirstText(item.value)))
      else None
    case _ => None
  }

  /** The system line that reports an estimate of each category. */
  function EstimateNote(c: Category): string {
    match c
    case InputAudio => AudioInputNote
    case OutputAudio => AudioOutputNote
    case InputText => TextInputNote
    case OutputText => TextOutputNote
  }

  /** The `response.usage` branch of `trackTokenUsage`: a usage object is reported and reconciled. */
  function ApplyReport(s: State, usage: Option<Report>): State {
    if usage.None? then s
    else Log(s, "system", UsageNote).(tokenUsage := Reconcile(s.tokenUsage, usage.value))
  }

  /** The estimating branches of `trackTokenUsage`: an estimate is counted and reported in a system line. */
  function CountEstimate(s: State, estimation: Option<Estimation>): State {
    match estimation
    case None => s
    case Some(est) => Log(Count(s, est.category, Estimate(est.text)), "system", EstimateNote(est.category))
  }

  /** `trackTokenUsage(event)`; events that carry neither an estimate nor a report change nothing. */
  function Track(s: State, e: Event): (t: State) {
    if e.UsageReported? then ApplyReport(s, e.usage) else CountEstimate(s, Estimated(e))
  }

  /**
   * The token tracker touches only the counters and the conversation log, keeps the log
   * well formed, appends at most one system line, and lowers no counter unless it applies a report.
   */
  lemma TrackIsLocal(s: State, e: Event)
    ensures var t := Track(s, e);
            t == s.(tokenUsage := t.tokenUsage, conversation := t.conversation) &&
            (WellFormed(s.conversation) ==> WellFormed(t.conversation)) &&
            (t.conversation == s.conversation || exists m :: t.conversation == Logged(s.conversation, "system", m)) &&
            (!e.UsageReported? ==> forall k :: t.tokenUsage.Get(k) >= s.tokenUsage.Get(k))
  {
    TrackFrame(s, e);
    TrackLogsOneLine(s, e);
  }

  /** The fields the token tracker changes, and the counters it never lowers outside a report. */
  lemma TrackFrame(s: State, e: Event)
    ensures var t := Track(s, e);
            t == s.(tokenUsage := t.tokenUsage, conversation := t.conversation) &&
            (!e.UsageReported? ==> forall k :: t.tokenUsage.Get(k) >= s.tokenUsage.Get(k))
  {
    if e.UsageReported? {
      ReportFrame(s, e.usage);
    } else {
      EstimateFrame(s, Estimated(e));
    }
  }

  lemma ReportFrame(s: State, usage: Option<Report>)
    ensures var t := ApplyReport(s, usage);
            t == s.(tokenUsage := t.tokenUsage, conversation := t.conversation)
  {
    if usage.Some? {
      var noted := Log(s, "system", UsageNote);
      assert ApplyReport(s, usage) == noted.(tokenUsage := Reconcile(s.tokenUsage, usage.value));
    }
  }

  lemma EstimateFrame(s: State, estimation: Option<Estimation>)
    ensures var t := CountEstimate(s, estimation);
            t == s.(tokenUsage := t.tokenUsage, conversation := t.conversation) &&
            forall k :: t.tokenUsage.Get(k) >= s.tokenUsage.Get(k)
  {
    if estimation.Some? {
      var est := estimation.value;
      assert CountEstimate(s, estimation).tokenUsage == Add(s.tokenUsage, est.category, Estimate(est.text));
    }
  }

  /** The token tracker appends at most one system line. */
  lemma TrackLogsOneLine(s: State, e: Event)
    ensures var t := Track(s, e);
            (WellFormed(s.conversation) ==> WellFormed(t.conversation)) &&
            (t.conversation == s.conversation || exists m :: t.conversation == Logged(s.conversation, "system", m))
  {
    if e.UsageReported? {
      if e.usage.Some? {
        assert ApplyReport(s, e.usage).conversation == Logged(s.conversation, "system", UsageNote);
      }
    } else {
      match Estimated(e)
      case None =>
      case Some(est) =>
        assert CountEstimate(s, Some(est)).conversation == Logged(s.conversation, "system", EstimateNote(est.category));
    }
  }

  /** What a `conversation.item.created` message logs: its transcript, else its text, else a placeholder. */
  function ItemContent(item: Item): string {
    if FirstTranscript(item) != "" then FirstTranscript(item)
    else if FirstText(item) != "" then FirstText(item)
    else "[Audio message]"
  }

  /** The error messages that mean a cancel found nothing to cancel. */
  predicate IsCancellationFailure(message: string) {
    Contains(message, "Cancellation failed") || Contains(message, "no active response")
  }

  /** What the type switch of `handleRealtimeEvent` does to the conversation log. */
  function Replied(log: seq<Entry>, e: Event): seq<Entry> {
    match e
    case SessionCreated => Logged(log, "system", SessionCreatedNote)
    case ItemCreated(item) =>
      if item.Some? && item.value.itemType == "message" then Logged(log, item.value.role, ItemContent(item.value))
      else log
    case TranscriptDelta(delta) => AppendDelta(log, delta)
    case TranscriptDone(transcript) => if transcript != "" then Finalize(log, transcript) else log
    case AudioDelta => ShowSpeaking(log, true)
    case AudioDone => ShowSpeaking(log, false)
    case InputTranscriptionCompleted(transcript) => if transcript != "" then Logged(log, "user", transcript) else log
    case ContentPartDone(part) =>
      if part.Some? && part.value.partType == "audio" && part.value.transcript != "" then
        Ensure(log, part.value.transcript)
      else log
    case OutputItemDone(item) =>
      if item.Some? && item.value.role == "assistant" && FirstTranscript(item.value) != "" then
        Ensure(log, FirstTranscript(item.value))
      else log
    case TextDelta(delta) => AppendDelta(log, delta)
    case Error(message) => Logged(log, "error", "API Error: " + (if message != "" then message else "Unknown error"))
    case _ => log
  }

  /** What the type switch does to `hasActiveResponse`. */
  function ActiveAfter(active: bool, e: Event): bool {
    match e
    case ResponseCreated => true
    case ResponseDone => false
    case ResponseCancelled => false
    case Error(message) => if IsCancellationFailure(message) then false else active
    case _ => active
  }

  /** What the type switch does to `isAssistantSpeaking`. */
  function SpeakingAfter(speaking: bool, e: Event): bool {
    match e
    case AudioDelta => true
    case AudioDone => false
    case _ => speaking
  }

  /** The first step of `handleRealtimeEvent`: the event is pushed onto the event log. */
  function Record(s: State, e: Event): State {
    s.(eventLog := s.eventLog + [e])
  }

  /**
   * The type switch of `handleRealtimeEvent`: it touches only the log and the two response
   * flags. The flag is true when it throws, which happens only for a
   * `conversation.item.created` event without an `item`, and then without any effect.
   */
  function Respond(t: State, e: Event): (r: (State, bool)) {
    if e == ItemCreated(None) then (t, true)
    else
      (t.(conversation := Replied(t.conversation, e),
          hasActiveResponse := ActiveAfter(t.hasActiveResponse, e),
          isAssistantSpeaking := SpeakingAfter(t.isAssistantSpeaking, e)),
       false)
  }

  /** `handleRealtimeEvent(event)`: records the event, tracks its tokens, then switches on its type. */
  function Dispatch(s: State, e: Event): (r: (State, bool)) {
    Respond(Track(Record(s, e), e), e)
  }

  /** The type switch keeps the log well formed. */
  lemma RepliedWellFormed(log: seq<Entry>, e: Event)
    requires WellFormed(log)
    ensures WellFormed(Replied(log, e))
  {
  }

  /** Every event is recorded exactly once, and the dispatcher keeps the invariant. */
  lemma DispatchRecordsEvent(s: State, e: Event)
    requires Valid(s)
    ensures Dispatch(s, e).0.eventLog == s.eventLog + [e]
    ensures Valid(Dispatch(s, e).0)
  {
    var t := Track(Record(s, e), e);
    TrackIsLocal(Record(s, e), e);
    RepliedWellFormed(t.conversation, e);
  }

  /**
   * The response lifecycle: `response.created` sets `hasActiveResponse`; `response.done`,
   * `response.cancelled` and a cancellation-failure error clear it; every other event leaves it.
   */
  lemma DispatchActiveResponse(s: State, e: Event)
    ensures Dispatch(s, e).0.hasActiveResponse ==
            if e.ResponseCreated? then true
            else if e.ResponseDone? || e.ResponseCancelled? || (e.Error? && IsCancellationFailure(e.message)) then false
            else s.hasActiveResponse
  {
    TrackIsLocal(Record(s, e), e);
  }

  /** Only `response.audio.delta` (sets) and `response.audio.done` (clears) touch `isAssistantSpeaking`. */
  lemma DispatchAssistantSpeaking(s: State, e: Event)
    ensures Dispatch(s, e).0.isAssistantSpeaking ==
            if e.AudioDelta? then true else if e.AudioDone? then false else s.isAssistantSpeaking
  {
    TrackIsLocal(Record(s, e), e);
  }

  /** An event of an unknown type changes nothing but the event log. */
  lemma DispatchUnknownEvent(s: State, name: string)
    requires !KnownType(name)
    ensures Dispatch(s, Other(name)) == (s.(eventLog := s.eventLog + [Other(name)]), false)
  {
  }

  /** Inbound events never send anything, never touch the connection flags, and throw only on a missing item. */
  lemma DispatchIsLocal(s: State, e: Event)
    ensures Dispatch(s, e).0.sent == s.sent
    ensures Dispatch(s, e).0.isConnected == s.isConnected && Dispatch(s, e).0.channelOpen == s.channelOpen
    ensures Dispatch(s, e).1 <==> e == ItemCreated(None)
  {
    TrackIsLocal(Record(s, e), e);
  }

  /**
   * The counters move only by estimates (never down) or by a usage report; an estimate for
   * one event moves at most one counter.
   */
  lemma DispatchTokenUsage(s: State, e: Event, k: Category)
    requires !e.UsageReported?
    ensures Dispatch(s, e).0.tokenUsage.Get(k) >= s.tokenUsage.Get(k)
  {
    TrackIsLocal(Record(s, e), e);
  }

  /** Outside a usage report, the counters move by exactly the event's estimate, if it has one. */
  lemma DispatchCountsEstimate(s: State, e: Event)
    requires !e.UsageReported?
    ensures Dispatch(s, e).0.tokenUsage ==
            match Estimated(e)
            case None => s.tokenUsage
            case Some(est) => Add(s.tokenUsage, est.category, Estimate(est.text))
  {
    TrackIsLocal(Record(s, e), e);
  }

  /**
   * `response.audio_transcript.done` after a streamed turn: the token tracker logs its
   * system line first, so the finalizer no longer sees the streaming entry. That entry
   * stays open with its partial text and the full transcript is appended as a second
   * assistant entry, after the system line.
   */
  lemma TranscriptDoneAfterStreaming(s: State, transcript: string)
    requires Valid(s) && LastStreaming(s.conversation) && transcript != ""
    ensures Dispatch(s, TranscriptDone(transcript)).0.conversation ==
            s.conversation + [Plain("system", AudioOutputNote), Plain(Assistant, transcript)]
  {
  }

  /** `response.audio_transcript.done` finalizes the log as it stands after the token tracker's line. */
  lemma TranscriptDoneLog(s: State, transcript: string)
    requires transcript != ""
    ensures Dispatch(s, TranscriptDone(transcript)).0.conversation ==
            Finalize(Logged(s.conversation, "system", AudioOutputNote), transcript)
  {
  }

  /** The completion events estimate nothing: the log changes only by `Ensure`, and only when they carry a transcript. */
  lemma CompletionEventLog(s: State, e: Event)
    requires e.ContentPartDone? || e.OutputItemDone?
    ensures Dispatch(s, e).0.conversation == Replied(s.conversation, e)
    ensures e.ContentPartDone? && e.part.Some? && e.part.value.partType == "audio" && e.part.value.transcript != "" ==>
            Replied(s.conversation, e) == Ensure(s.conversation, e.part.value.transcript)
    ensures e.OutputItemDone? && e.outputItem.Some? && e.outputItem.value.role == "assistant" &&
            FirstTranscript(e.outputItem.value) != "" ==>
            Replied(s.conversation, e) == Ensure(s.conversation, FirstTranscript(e.outputItem.value))
  {
    assert Estimated(e) == None;
  }

  /** The two completion events that follow repeat the transcript and add no entry. */
  lemma CompletionEventsAfterTranscriptDone(s: State, transcript: string, part: Part, item: Item)
    requires Valid(s) && transcript != ""
    requires part.partType == "audio" && part.transcript == transcript
    requires item.role == "assistant" && FirstTranscript(item) == transcript
    ensures var s1 := Dispatch(s, TranscriptDone(transcript)).0;
            var s2 := Dispatch(s1, ContentPartDone(Some(part))).0;
            var s3 := Dispatch(s2, OutputItemDone(Some(item))).0;
            s3.conversation == s1.conversation
  {
    var noted := Logged(s.conversation, "system", AudioOutputNote);
    var s1 := Dispatch(s, TranscriptDone(transcript)).0;
    TranscriptDoneLog(s, transcript);
    EnsureAfterFinalize(noted, transcript);
    var s2 := Dispatch(s1, ContentPartDone(Some(part))).0;
    CompletionEventLog(s1, ContentPartDone(Some(part)));
    CompletionEventLog(s2, OutputItemDone(Some(item)));
  }

  /** The level above which a tick counts as voice (`voiceActivityThreshold`). */
  const VoiceActivityThreshold: real := 0.005
  /** The count at which sustained voice interrupts (`voiceActivityCountThreshold`). */
  const VoiceActivityCountThreshold: int := 5

  /**
   * `detectVoiceActivity(level)` with the interruption checkbox `enabled`. The flag is
   * true when the cancel could not be sent: `sendEvent` throws, so the counter is not reset.
   */
  function VoiceTick(s: State, level: real, enabled: bool): (r: (State, bool)) {
    if !enabled then (s, false)
    else if level > VoiceActivityThreshold then
      var d := s.voiceActivityDuration + 1;
      if d >= VoiceActivityCountThreshold && s.hasActiveResponse then
        var noted := Log(s.(voiceActivityDuration := d), "system", InterruptingNote);
        if noted.channelOpen then (noted.(sent := noted.sent + [ResponseCancel], voiceActivityDuration := 0), false)
        else (noted, true)
      else (s.(voiceActivityDuration := d), false)
    else
      (s.(voiceActivityDuration := if s.voiceActivityDuration - 1 > 0 then s.voiceActivityDuration - 1 else 0), false)
  }

  /** With interruption switched off a tick changes nothing. */
  lemma VoiceTickDisabled(s: State, level: real)
    ensures VoiceTick(s, level, false) == (s, false)
  {
  }

  /** The counter never goes below 0, and a tick keeps the invariant. */
  lemma VoiceTickValid(s: State, level: real, enabled: bool)
    requires Valid(s)
    ensures Valid(VoiceTick(s, level, enabled).0)
    ensures VoiceTick(s, level, enabled).0.voiceActivityDuration >= 0
  {
  }

  /**
   * A cancel goes out exactly when the tick is enabled and above the level threshold, the
   * incremented counter has reached the trigger count, a response is active and the channel
   * is open; the counter is then 0. Sending the cancel does not clear `hasActiveResponse`.
   */
  lemma VoiceTickCancel(s: State, level: real, enabled: bool)
    ensures var (t, _) := VoiceTick(s, level, enabled);
            var fires := enabled && level > VoiceActivityThreshold &&
                         s.voiceActivityDuration + 1 >= VoiceActivityCountThreshold && s.hasActiveResponse;
            (t.sent != s.sent <==> fires && s.channelOpen) &&
            (t.sent != s.sent ==> t.sent == s.sent + [ResponseCancel] && t.voiceActivityDuration == 0) &&
            (VoiceTick(s, level, enabled).1 <==> fires && !s.channelOpen) &&
            t.hasActiveResponse == s.hasActiveResponse && t.isAssistantSpeaking == s.isAssistantSpeaking
  {
  }

  /** A tick at or below the level threshold lowers the counter by one, but not below 0, and does nothing else. */
  lemma VoiceTickDecays(s: State, level: real)
    requires level <= VoiceActivityThreshold
    ensures VoiceTick(s, level, true) ==
            (s.(voiceActivityDuration := if s.voiceActivityDuration > 0 then s.voiceActivityDuration - 1 else 0), false)
  {
  }

  /** Without an active response the counter keeps growing past the trigger count. */
  lemma VoiceCounterUnbounded(s: State, level: real)
    requires !s.hasActiveResponse && level > VoiceActivityThreshold
    ensures VoiceTick(s, level, true).0.voiceActivityDuration == s.voiceActivityDuration + 1
  {
  }

  /** `n` consecutive enabled ticks at `level`. */
  function Ticks(s: State, level: real, n: nat): State
    decreases n
  {
    if n == 0 then s else Ticks(VoiceTick(s, level, true).0, level, n - 1)
  }

  function Repeat(x: Outbound, n: nat): (r: seq<Outbound>)
    ensures |r| == n && forall i :: 0 <= i < n ==> r[i] == x
  {
    seq(n, _ => x)
  }

  /**
   * Sustained voice over an active response on an open channel cancels again every
   * `VoiceActivityCountThreshold` ticks: after `n` ticks, (d + n) / 5 cancels have been
   * sent and the counter is at (d + n) % 5.
   */
  lemma {:induction false} SustainedVoiceRepeatsCancel(s: State, level: real, n: nat)
    requires s.hasActiveResponse && s.channelOpen && level > VoiceActivityThreshold
    requires 0 <= s.voiceActivityDuration < VoiceActivityCountThreshold
    ensures Ticks(s, level, n).sent ==
            s.sent + Repeat(ResponseCancel, (s.voiceActivityDuration + n) / VoiceActivityCountThreshold)
    ensures Ticks(s, level, n).voiceActivityDuration == (s.voiceActivityDuration + n) % VoiceActivityCountThreshold
    decreases n
  {
    if n > 0 {
      var d := s.voiceActivityDuration;
      var next := VoiceTick(s, level, true).0;
      SustainedVoiceRepeatsCancel(next, level, n - 1);
      if d + 1 == VoiceActivityCountThreshold {
        assert next.sent == s.sent + [ResponseCancel];
        assert (d + n) / VoiceActivityCountThreshold == 1 + (n - 1) / VoiceActivityCountThreshold;
        assert Repeat(ResponseCancel, 1 + (n - 1) / VoiceActivityCountThreshold) ==
               [ResponseCancel] + Repeat(ResponseCancel, (n - 1) / VoiceActivityCountThreshold);
      } else {
        assert next.sent == s.sent;
      }
    }
  }

  /** `sendEvent(event)`: sends when the channel is open; otherwise it throws (the flag is false). */
  function Send(s: State, ev: Outbound): (r: (State, bool)) {
    if s.channelOpen then (s.(sent := s.sent + [ev]), true) else (s, false)
  }

  /** What `sendContext` came to: it returned early, it ran to the end, or a send threw. */
  datatype ContextOutcome = Skipped | Injected | SendFailed

  function ModeNote(interruptMode: bool, backgroundMode: bool): string {
    "Context injection mode: " +
    (if interruptMode then "Interrupt: ON" else "Interrupt: OFF") + ", " +
    (if backgroundMode then "Background: ON" else "Background: OFF")
  }

  /** The events a successful context injection sends, in order. */
  function ContextEvents(contextText: string, interruptMode: bool, backgroundMode: bool): seq<Outbound> {
    (if interruptMode then [ResponseCancel] else []) + [ItemCreate(contextText)] +
    (if backgroundMode then [] else [ResponseCreate])
  }

  /** The system lines a successful context injection logs, in order. */
  function ContextNotes(interruptMode: bool, backgroundMode: bool): seq<Entry> {
    (if interruptMode then [Plain("system", InterruptedNote)] else []) + [Plain("system", InjectedNote)] +
    [Plain("system", if backgroundMode then BackgroundNote else RequestingNote)] +
    [Plain("system", ModeNote(interruptMode, backgroundMode))]
  }

  /**
   * `sendContext()` with the (untrimmed) box text and the two checkboxes. Nothing happens
   * for a text that trims to nothing or while not connected. Otherwise the estimate is
   * counted as input text first; then either every send goes through, or (the channel being
   * closed) the first send throws, nothing is sent and one error line is logged.
   */
  function SendContext(s: State, text: string, interruptMode: bool, backgroundMode: bool): (r: (State, ContextOutcome)) {
    var contextText := Trim(text);
    if contextText == [] || !s.isConnected then (s, Skipped)
    else Deliver(s, contextText, interruptMode, backgroundMode)
  }

  /** The `try` block of `sendContext`, given the trimmed text: count the estimate, then send or fail. */
  function Deliver(s: State, contextText: string, interruptMode: bool, backgroundMode: bool): (r: (State, ContextOutcome)) {
    var counted := Count(s, InputText, Estimate(contextText));
    if !s.channelOpen then (Log(counted, "error", ContextFailedNote), SendFailed)
    else (Inject(counted, contextText, interruptMode, backgroundMode), Injected)
  }

  /** Appends one event to what was sent. */
  function Sent(s: State, ev: Outbound): State {
    s.(sent := s.sent + [ev])
  }

  /**
   * The sends and lines of `sendContext` on an open channel, in the order the source makes
   * them: the cancel and its line, the item and its line, the response request or the
   * background line, and the mode line.
   */
  function Inject(s: State, contextText: string, interruptMode: bool, backgroundMode: bool): State {
    var cancelled := if interruptMode then Log(Sent(s, ResponseCancel), "system", InterruptedNote) else s;
    var item := Log(Sent(cancelled, ItemCreate(contextText)), "system", InjectedNote);
    var requested := if backgroundMode then Log(item, "system", BackgroundNote)
                     else Log(Sent(item, ResponseCreate), "system", RequestingNote);
    Log(requested, "system", ModeNote(interruptMode, backgroundMode))
  }

  /** Injection adds exactly `ContextEvents` to what was sent and `ContextNotes` to the log, and nothing else. */
  lemma InjectAppends(s: State, contextText: string, interruptMode: bool, backgroundMode: bool)
    ensures Inject(s, contextText, interruptMode, backgroundMode) ==
            s.(sent := s.sent + ContextEvents(contextText, interruptMode, backgroundMode),
               conversation := s.conversation + ContextNotes(interruptMode, backgroundMode))
  {
    var r := Inject(s, contextText, interruptMode, backgroundMode);
    InjectLines(s.conversation, interruptMode, backgroundMode);
    InjectSends(s.sent, contextText, interruptMode, backgroundMode);
    assert r.conversation == s.conversation + ContextNotes(interruptMode, backgroundMode);
    assert r.sent == s.sent + ContextEvents(contextText, interruptMode, backgroundMode);
  }

  /** The lines `Inject` logs, one after the other, are `ContextNotes`. */
  lemma InjectLines(c: seq<Entry>, interruptMode: bool, backgroundMode: bool)
    ensures var cancelled := if interruptMode then Logged(c, "system", InterruptedNote) else c;
            var item := Logged(cancelled, "system", InjectedNote);
            var requested := Logged(item, "system", if backgroundMode then BackgroundNote else RequestingNote);
            Logged(requested, "system", ModeNote(interruptMode, backgroundMode)) == c + ContextNotes(interruptMode, backgroundMode)
  {
    var first := if interruptMode then [Plain("system", InterruptedNote)] else [];
    var rest := [Plain("system", InjectedNote), Plain("system", if backgroundMode then BackgroundNote else RequestingNote),
                 Plain("system", ModeNote(interruptMode, backgroundMode))];
    assert ContextNotes(interruptMode, backgroundMode) == first + rest;
    assert c + (first + rest) == (c + first) + rest;
  }

  /** The events `Inject` sends, one after the other, are `ContextEvents`. */
  lemma InjectSends(x: seq<Outbound>, contextText: string, interruptMode: bool, backgroundMode: bool)
    ensures var cancelled := if interruptMode then x + [ResponseCancel] else x;
            var item := cancelled + [ItemCreate(contextText)];
            (if backgroundMode then item else item + [ResponseCreate]) == x + ContextEvents(contextText, interruptMode, backgroundMode)
  {
    var head := if interruptMode then [ResponseCancel] else [];
    var tail := if backgroundMode then [] else [ResponseCreate];
    assert x + ContextEvents(contextText, interruptMode, backgroundMode) == (x + head) + [ItemCreate(contextText)] + tail;
  }

  /** An empty (after trimming) text or a lost connection make `sendContext` a no-op. */
  lemma SendContextSkips(s: State, text: string, interruptMode: bool, backgroundMode: bool)
    requires Trim(text) == [] || !s.isConnected
    ensures SendContext(s, text, interruptMode, backgroundMode) == (s, Skipped)
  {
  }

  /**
   * A connected injection counts `Estimate` of the trimmed text as input text whether or not
   * the sends succeed, and sends [cancel if interrupting] + [item] + [response.create unless
   * background] on an open channel, nothing on a closed one.
   */
  lemma SendContextEffects(s: State, text: string, interruptMode: bool, backgroundMode: bool)
    requires Trim(text) != [] && s.isConnected
    ensures var (t, outcome) := SendContext(s, text, interruptMode, backgroundMode);
            t.tokenUsage == Add(s.tokenUsage, InputText, Estimate(Trim(text))) &&
            t.tokenUsage.inputTextTokens > s.tokenUsage.inputTextTokens &&
            (s.channelOpen ==> outcome == Injected && t.sent == s.sent + ContextEvents(Trim(text), interruptMode, backgroundMode)) &&
            (!s.channelOpen ==> outcome == SendFailed && t.sent == s.sent) &&
            t.hasActiveResponse == s.hasActiveResponse
  {
    var counted := Count(s, InputText, Estimate(Trim(text)));
    InjectAppends(counted, Trim(text), interruptMode, backgroundMode);
  }

  /**
   * Injecting a text over an active response with interrupt on and background off sends a
   * cancel, the item and a `response.create`, in that order, and counts its estimate.
   */
  lemma InjectWithInterrupt(s: State, text: string)
    requires s.isConnected && s.channelOpen && s.hasActiveResponse
    requires text != [] && Trim(text) == text
    ensures var (t, _) := SendContext(s, text, true, false);
            t.sent == s.sent + [ResponseCancel, ItemCreate(text), ResponseCreate] &&
            t.tokenUsage.inputTextTokens == s.tokenUsage.inputTextTokens + Estimate(text)
  {
    SendContextEffects(s, text, true, false);
  }

  /**
   * Injecting "Hello" on an open channel with both checkboxes off: the item and a
   * `response.create` are sent, and the five code units are counted as 2 input-text tokens.
   */
  lemma HelloInjection(s: State)
    requires s.isConnected && s.channelOpen
    ensures var (t, outcome) := SendContext(s, "Hello", false, false);
            outcome == Injected &&
            t.sent == s.sent + [ItemCreate("Hello"), ResponseCreate] &&
            t.tokenUsage.inputTextTokens == s.tokenUsage.inputTextTokens + 2
  {
    TrimStartNoOp("Hello");
    TrimEndNoOp("Hello");
    assert Utf16Length("Hello") == 5;
    SendContextEffects(s, "Hello", false, false);
  }

  /**
   * The server's `conversation.item.created` echo of an injected text is estimated again:
   * the injected text ends up counted twice as input text.
   */
  lemma InjectedContextCountedTwice(s: State, text: string, interruptMode: bool, backgroundMode: bool)
    requires Trim(text) != [] && s.isConnected && s.channelOpen
    ensures var t := SendContext(s, text, interruptMode, backgroundMode).0;
            var echo := ItemCreated(Some(Item("message", "user", [Part("input_text", "", Trim(text))])));
            Dispatch(t, echo).0.tokenUsage.inputTextTokens ==
            s.tokenUsage.inputTextTokens + 2 * Estimate(Trim(text))
  {
    var t := SendContext(s, text, interruptMode, backgroundMode).0;
    var echo := ItemCreated(Some(Item("message", "user", [Part("input_text", "", Trim(text))])));
    SendContextEffects(s, text, interruptMode, backgroundMode);
    assert Estimated(echo) == Some(Estimation(InputText, Trim(text)));
    DispatchCountsEstimate(t, echo);
  }

  /**
   * `sendSessionUpdate()` with the instructions box text: nothing unless the channel is open;
   * throws (flag true) without session data; logs an error without a voice; otherwise sends
   * the `session.update` payload and logs it.
   */
  function SendSessionUpdate(s: State, instructionsBox: string): (r: (State, bool)) {
    if !s.channelOpen then (s, false)
    else if s.sessionData.None? then (s, true)
    else if s.sessionData.value.voice == "" then (Log(s, "error", NoVoiceNote), false)
    else
      var payload := SessionUpdatePayload(instructionsBox, s.sessionData.value.voice);
      (Log(Sent(s, SessionUpdate(payload)), "system", ConfiguredNote), false)
  }

  /** A configured session announces exactly one `session.update`, with non-empty instructions and the session's voice. */
  lemma SessionUpdateSends(s: State, instructionsBox: string)
    requires s.channelOpen && s.sessionData.Some? && s.sessionData.value.voice != ""
    ensures var t := SendSessionUpdate(s, instructionsBox).0;
            |t.sent| == |s.sent| + 1 && t.sent[..|s.sent|] == s.sent &&
            t.sent[|s.sent|].SessionUpdate? &&
            t.sent[|s.sent|].session.voice == s.sessionData.value.voice &&
            t.sent[|s.sent|].session.instructions != []
    ensures SendSessionUpdate(s, instructionsBox) ==
            (s.(sent := s.sent + [SessionUpdate(SessionUpdatePayload(instructionsBox, s.sessionData.value.voice))],
                conversation := s.conversation + [Plain("system", ConfiguredNote)]),
             false)
  {
  }

  /**
   * The two early exits of `sendSessionUpdate`: on a closed channel nothing happens and nothing
   * is thrown; with session data that names no voice, one error line is logged and nothing is sent.
   */
  lemma SessionUpdateEarlyExits(s: State, instructionsBox: string)
    ensures !s.channelOpen ==> SendSessionUpdate(s, instructionsBox) == (s, false)
    ensures s.channelOpen && s.sessionData.Some? && s.sessionData.value.voice == "" ==>
            SendSessionUpdate(s, instructionsBox) == (s.(conversation := s.conversation + [Plain("error", NoVoiceNote)]), false)
  {
  }

  /**
   * Announcing the configuration again, with a box that trims to the same text, sends the same
   * `session.update` a second time and logs a second line; nothing else changes.
   */
  lemma SessionUpdateRepeats(s: State, box1: string, box2: string)
    requires s.channelOpen && s.sessionData.Some? && s.sessionData.value.voice != ""
    requires Trim(box1) == Trim(box2)
    ensures var (t1, threw1) := SendSessionUpdate(s, box1);
            var (t2, threw2) := SendSessionUpdate(t1, box2);
            var update := SessionUpdate(SessionUpdatePayload(box1, s.sessionData.value.voice));
            !threw1 && !threw2 &&
            t2 == s.(sent := s.sent + [update, update],
                     conversation := s.conversation + [Plain("system", ConfiguredNote), Plain("system", ConfiguredNote)])
  {
    var voice := s.sessionData.value.voice;
    var update := SessionUpdate(SessionUpdatePayload(box1, voice));
    var line := Plain("system", ConfiguredNote);
    assert SessionUpdatePayload(box2, voice) == SessionUpdatePayload(box1, voice);
    SessionUpdateSends(s, box1);
    var t1 := SendSessionUpdate(s, box1).0;
    SessionUpdateSends(t1, box2);
    assert (s.sent + [update]) + [update] == s.sent + [update, update];
    assert (s.conversation + [line]) + [line] == s.conversation + [line, line];
  }

  /** The data channel's `open` listener: logs, then configures the session. */
  function ChannelOpened(s: State, instructionsBox: string): (r: (State, bool)) {
    SendSessionUpdate(Log(s.(channelOpen := true), "system", ChannelOpenedNote), instructionsBox)
  }

  /** The data channel's `close` listener. */
  function ChannelClosed(s: State): State {
    Log(s.(channelOpen := false), "system", ChannelClosedNote)
  }

  /**
   * Opening the channel of a session whose data names a voice logs the opening, then
   * sends exactly one `session.update` with that voice and the box's instructions.
   */
  lemma ChannelOpenedConfigures(s: State, instructionsBox: string)
    requires s.sessionData.Some? && s.sessionData.value.voice != ""
    ensures var (t, threw) := ChannelOpened(s, instructionsBox);
            !threw && t.channelOpen &&
            t.sent == s.sent + [SessionUpdate(SessionUpdatePayload(instructionsBox, s.sessionData.value.voice))] &&
            t.conversation == s.conversation + [Plain("system", ChannelOpenedNote), Plain("system", ConfiguredNote)]
  {
    var announced := Log(s.(channelOpen := true), "system", ChannelOpenedNote);
    assert announced.conversation + [Plain("system", ConfiguredNote)] ==
           s.conversation + [Plain("system", ChannelOpenedNote), Plain("system", ConfiguredNote)];
  }

  /** Opening the channel before any session data exists throws, after logging the opening, and sends nothing. */
  lemma ChannelOpenedWithoutSessionThrows(s: State, instructionsBox: string)
    requires s.sessionData.None?
    ensures ChannelOpened(s, instructionsBox).1
    ensures ChannelOpened(s, instructionsBox).0.sent == s.sent
  {
  }

  /**
   * Once the channel has closed every send throws, and a connected context injection
   * still counts its estimate but ends in the failure line.
   */
  lemma ChannelClosedFailsSends(s: State, ev: Outbound, text: string, interruptMode: bool, backgroundMode: bool)
    ensures !Send(ChannelClosed(s), ev).1
    ensures s.isConnected && Trim(text) != [] ==>
            var (t, outcome) := SendContext(ChannelClosed(s), text, interruptMode, backgroundMode);
            outcome == SendFailed && t.sent == s.sent &&
            t.tokenUsage == Add(s.tokenUsage, InputText, Estimate(Trim(text))) &&
            Last(t.conversation) == Plain("error", ContextFailedNote)
  {
  }

  /** The peer connection's `connectionstatechange` listener. */
  function ConnectionChange(s: State, state: ConnectionState): State {
    var noted := Log(s, "system", "Connection state: " + state.Name());
    if state == Connected then noted.(isConnected := true)
    else if state == ConnectionState.Failed || state == Disconnected then noted.(isConnected := false)
    else noted
  }

  /** `connected` connects, `failed` and `disconnected` disconnect, the other states leave the flag. */
  lemma ConnectionChangeFlag(s: State, state: ConnectionState)
    ensures ConnectionChange(s, state).isConnected ==
            if state == Connected then true
            else if state == ConnectionState.Failed || state == Disconnected then false
            else s.isConnected
    ensures ConnectionChange(s, state).hasActiveResponse == s.hasActiveResponse
  {
  }

  /**
   * `stopSession()`, as far as the modelled state goes: the channel and the microphone
   * stream are gone, the connection and mute flags are reset and one line is logged. The response and speaking flags, the counter and the
   * ledger are left as they were.
   */
  function StopSession(s: State): State {
    Log(s.(channelOpen := false, isConnected := false, isMuted := false, hasMediaStream := false), "system", SessionEndedNote)
  }

  /** Stopping twice leaves the same flags as stopping once; only the log grows. */
  lemma StopSessionIdempotent(s: State)
    ensures var once := StopSession(s);
            StopSession(once) == Log(once, "system", SessionEndedNote)
    ensures !StopSession(s).isConnected && !StopSession(s).channelOpen && !StopSession(s).hasMediaStream
  {
  }

  /** Once stopped, no send can succeed and context injection does nothing. */
  lemma StoppedSessionIsInert(s: State, text: string, interruptMode: bool, backgroundMode: bool, ev: Outbound)
    ensures Send(StopSession(s), ev) == (StopSession(s), false)
    ensures SendContext(StopSession(s), text, interruptMode, backgroundMode) == (StopSession(s), Skipped)
  {
  }

  /** The step of `setupWebRTC` where `getUserMedia` has granted a microphone stream. */
  function AcquireMicrophone(s: State): State {
    s.(hasMediaStream := true)
  }

  /** `toggleMute()`: nothing without a microphone stream; otherwise the flag flips and one line says which way. */
  function ToggleMute(s: State): State {
    if !s.hasMediaStream then s
    else
      var flipped := s.(isMuted := !s.isMuted);
      Log(flipped, "system", if flipped.isMuted then "Microphone muted" else "Microphone unmuted")
  }

  /** One toggle with a stream flips the flag and logs the line naming the new state; without one nothing happens. */
  lemma ToggleMuteOnce(s: State)
    ensures !s.hasMediaStream ==> ToggleMute(s) == s
    ensures s.hasMediaStream ==>
            ToggleMute(s) == s.(isMuted := !s.isMuted,
                                conversation := s.conversation + [Plain("system", if s.isMuted then "Microphone unmuted" else "Microphone muted")])
  {
  }

  /** Toggling twice restores the mute flag and logs two lines. */
  lemma ToggleMuteTwice(s: State)
    requires s.hasMediaStream
    ensures var t := ToggleMute(ToggleMute(s));
            t.isMuted == s.isMuted && |t.conversation| == |s.conversation| + 2 &&
            t == s.(conversation := t.conversation)
  {
  }

  /** `stopSession` drops the stream, so a later toggle does nothing until a new stream is acquired. */
  lemma ToggleMuteAfterStop(s: State)
    ensures ToggleMute(StopSession(s)) == StopSession(s)
    ensures !StopSession(s).isMuted
  {
  }

  /** The part of `startSession` after `/api/session` answered: reset the ledger, keep the session data, log. */
  function BeginSession(s: State, data: SessionData): State {
    Log(ResetTokenUsage(s).(sessionData := Some(data)), "system", SessionTokenNote)
  }

  /** `clearConversationLog()`: an emptied log with two system lines, and a reset ledger. */
  function ClearConversationLog(s: State): State {
    Log(Log(s.(conversation := []), "system", LogClearedNote).(tokenUsage := Zero), "system", UsageResetNote)
  }

  /** Nothing costs anything on a reset ledger, whatever the model. */
  lemma ZeroCostsNothing(s: State)
    requires s.tokenUsage == Zero
    ensures CostDisplay(s).total == 0.0
  {
  }

  /** A new session starts from a reset ledger priced at the session's model, and logs one line. */
  lemma BeginSessionResets(s: State, data: SessionData)
    ensures var t := BeginSession(s, data);
            t.tokenUsage == Zero && ModelOf(t) == data.model && CostDisplay(t).total == 0.0 &&
            t.conversation == s.conversation + [Plain("system", SessionTokenNote)] &&
            (Valid(s) ==> Valid(t))
  {
    ZeroCostsNothing(BeginSession(s, data));
  }

  /** Clearing leaves exactly the two system lines and a reset ledger; no other field changes. */
  lemma ClearConversationLogResets(s: State)
    ensures var t := ClearConversationLog(s);
            t.conversation == [Plain("system", LogClearedNote), Plain("system", UsageResetNote)] &&
            t == s.(conversation := t.conversation, tokenUsage := Zero) &&
            CostDisplay(t).total == 0.0 &&
            (Valid(s) ==> Valid(t))
  {
    ZeroCostsNothing(ClearConversationLog(s));
  }

  // Every handler keeps the invariant.

  /** Logging a line keeps the invariant. */
  lemma LogValid(s: State, kind: string, message: string)
    requires Valid(s)
    ensures Valid(Log(s, kind, message))
  {
  }

  /** The invariant reads only the log and the voice counter. */
  lemma SameValid(s: State, t: State)
    requires Valid(s)
    requires t.conversation == s.conversation && t.voiceActivityDuration == s.voiceActivityDuration
    ensures Valid(t)
  {
  }

  lemma InjectValid(s: State, contextText: string, interruptMode: bool, backgroundMode: bool)
    requires Valid(s)
    ensures Valid(Inject(s, contextText, interruptMode, backgroundMode))
  {
    var cancelled := s;
    if interruptMode {
      SameValid(s, Sent(s, ResponseCancel));
      LogValid(Sent(s, ResponseCancel), "system", InterruptedNote);
      cancelled := Log(Sent(s, ResponseCancel), "system", InterruptedNote);
    }
    SameValid(cancelled, Sent(cancelled, ItemCreate(contextText)));
    LogValid(Sent(cancelled, ItemCreate(contextText)), "system", InjectedNote);
    var item := Log(Sent(cancelled, ItemCreate(contextText)), "system", InjectedNote);
    var requested := item;
    if backgroundMode {
      LogValid(item, "system", BackgroundNote);
      requested := Log(item, "system", BackgroundNote);
    } else {
      SameValid(item, Sent(item, ResponseCreate));
      LogValid(Sent(item, ResponseCreate), "system", RequestingNote);
      requested := Log(Sent(item, ResponseCreate), "system", RequestingNote);
    }
    LogValid(requested, "system", ModeNote(interruptMode, backgroundMode));
    assert Inject(s, contextText, interruptMode, backgroundMode) == Log(requested, "system", ModeNote(interruptMode, backgroundMode));
  }

  lemma SendContextValid(s: State, text: string, interruptMode: bool, backgroundMode: bool)
    requires Valid(s)
    ensures Valid(SendContext(s, text, interruptMode, backgroundMode).0)
  {
    var contextText := Trim(text);
    if contextText != [] && s.isConnected {
      var counted := Count(s, InputText, Estimate(contextText));
      SameValid(s, counted);
      if s.channelOpen {
        InjectValid(counted, contextText, interruptMode, backgroundMode);
      } else {
        LogValid(counted, "error", ContextFailedNote);
      }
    }
  }

  lemma SendSessionUpdateValid(s: State, instructionsBox: string)
    requires Valid(s)
    ensures Valid(SendSessionUpdate(s, instructionsBox).0)
  {
    if s.channelOpen && s.sessionData.Some? {
      if s.sessionData.value.voice == "" {
        LogValid(s, "error", NoVoiceNote);
      } else {
        var update := SessionUpdate(SessionUpdatePayload(instructionsBox, s.sessionData.value.voice));
        SameValid(s, Sent(s, update));
        LogValid(Sent(s, update), "system", ConfiguredNote);
      }
    }
  }

  lemma ChannelOpenedValid(s: State, instructionsBox: string)
    requires Valid(s)
    ensures Valid(ChannelOpened(s, instructionsBox).0)
  {
    SameValid(s, s.(channelOpen := true));
    LogValid(s.(channelOpen := true), "system", ChannelOpenedNote);
    SendSessionUpdateValid(Log(s.(channelOpen := true), "system", ChannelOpenedNote), instructionsBox);
  }

  lemma ChannelClosedValid(s: State)
    requires Valid(s)
    ensures Valid(ChannelClosed(s))
  {
    SameValid(s, s.(channelOpen := false));
    LogValid(s.(channelOpen := false), "system", ChannelClosedNote);
  }

  lemma ConnectionChangeValid(s: State, state: ConnectionState)
    requires Valid(s)
    ensures Valid(ConnectionChange(s, state))
  {
    var noted := Log(s, "system", "Connection state: " + state.Name());
    LogValid(s, "system", "Connection state: " + state.Name());
    SameValid(noted, ConnectionChange(s, state));
  }

  lemma StopSessionValid(s: State)
    requires Valid(s)
    ensures Valid(StopSession(s))
  {
    var stopped := s.(channelOpen := false, isConnected := false, isMuted := false, hasMediaStream := false);
    SameValid(s, stopped);
    LogValid(stopped, "system", SessionEndedNote);
  }

  lemma ToggleMuteValid(s: State)
    requires Valid(s)
    ensures Valid(ToggleMute(s))
  {
    if s.hasMediaStream {
      var flipped := s.(isMuted := !s.isMuted);
      SameValid(s, flipped);
      LogValid(flipped, "system", if flipped.isMuted then "Microphone muted" else "Microphone unmuted");
    }
  }

  lemma AcquireMicrophoneValid(s: State)
    requires Valid(s)
    ensures Valid(AcquireMicrophone(s))
  {
    SameValid(s, AcquireMicrophone(s));
  }
}
