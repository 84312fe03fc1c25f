# VoiceAgent session controller, modelled in Dafny

This project models the browser-side session controller of a realtime voice assistant. That controller is the `VoiceAgent` class of `public/voice-agent.js`. It keeps one WebRTC session with the OpenAI Realtime API. Its data channel carries JSON events:

- **Inbound events.** The controller dispatches them and updates a few flags:
  - `hasActiveResponse`: whether a response is open and can be cancelled.
  - `isAssistantSpeaking`.
  - `isConnected`.
- **Voice interruption.** A per-tick counter of the microphone level sends `response.cancel` when the user talks over an active response.
- **Usage ledger.**
  - Four token counters, fed by length-based estimates and replaced by authoritative `response.usage` reports.
  - Priced per model, per 1,000,000 tokens.
- **Conversation log.** A sequence of entries; assistant turns are streamed into it delta by delta, then finalized.
- **Outbound events.**
  - `session.update`, with the instructions from a text box.
  - Context injection: an optional cancel, a `conversation.item.create` and an optional `response.create`, in that order.
  - Every send through `sendEvent` throws when the channel is not open; `sendSessionUpdate` checks the channel itself and returns quietly instead.

The project has seven modules:

- `Wrappers` (wrappers.dfy): `Option`.
- `Text` (text.dfy): JavaScript's `includes`, `trim` and UTF-16 `length`.
- `Ledger` (ledger.dfy): the counters, the estimate, reconciliation, the pricing table and the cost arithmetic.
- `Transcript` (transcript.dfy): the conversation log as a `seq<Entry>`. It holds the pure rewrites done by `log`, `appendAssistantTranscript`, `finalizeAssistantTranscript`, `ensureAssistantTranscript` and `showAssistantSpeaking`.
- `Protocol` (protocol.dfy): the inbound event union, the outbound events, the `session.update` payload, the SDP-answer check and the peer-connection states.
- `Session` (session.dfy): the controller's state as a value, and one function per handler giving the state that handler leaves. Its lemmas state the properties of those functions.
- `Agent` (agent.dfy): `class VoiceAgent`. Its fields are the ones the source updates in place. Each handler is a `method` that changes those fields step by step, in the source's order. Each method's `ensures` says the new state, `Snapshot()`, is what the matching `Session` function gives for the old state.

Five conventions hold throughout:

- A thrown exception is a `threw`/`ok` flag or an outcome constructor.
- An absent string field is `""`.
- The microphone level, the interruption checkbox, the context box text, the two context checkboxes and the instructions box are parameters.
- Without session data the cost display uses the default model: `Session.ModelOf` gives `""`, which `Ledger.PricingFor` prices as `gpt-4o-realtime-preview`.
- Whether a microphone stream exists is the state field `hasMediaStream`: `getUserMedia` granting one sets it (`Session.AcquireMicrophone`), `stopSession` clears it, and `toggleMute` reads it.

## Model

| member | source | states |
|---|---|---|
| Text.Contains | public/voice-agent.js:293 | reference definition of `includes`; its properties are the lemmas `ContainsIffOccurs`, `Protocol.ValidSdpAnswerIff` |
| Text.ContainsIffOccurs | public/voice-agent.js:293 | `includes(sub)` holds exactly when `sub` occurs at some offset |
| Text.TrimStart | public/voice-agent.js:841 | drops leading white space; the result is a suffix, the dropped prefix is all white space, and the result does not start with white space |
| Text.TrimEnd | public/voice-agent.js:841 | the mirror image for trailing white space |
| Text.Trim | public/voice-agent.js:841 | `trim()` leaves nothing, or a string with non-space characters at both ends, and is never longer than its input |
| Text.TrimIsSlice | public/voice-agent.js:841 | the trimmed text is the slice between an all-space prefix and an all-space suffix |
| Text.TrimIdempotent | public/voice-agent.js:432 | trimming twice is trimming once |
| Text.TrimEmptyIffAllSpace | public/voice-agent.js:842 | a text trims to nothing exactly when it is all white space (the early return of `sendContext`) |
| Text.Utf16Length | public/voice-agent.js:643 | `text.length` counts UTF-16 code units: between \|s\| and 2\|s\|, and exactly \|s\| for text in the Basic Multilingual Plane |
| Text.Utf16LengthOfOne | public/voice-agent.js:643 | one character has length 1, or 2 above the Basic Multilingual Plane |
| Text.Utf16LengthAppend | public/voice-agent.js:643 | the length of a concatenation is the sum of the lengths |
| Text.EmojiCountsTwice | public/voice-agent.js:643 | "\U{1F600}" has length 2, and "Hi \U{1F600}" has length 5 |
| Ledger.Estimate | public/voice-agent.js:639-644 | 0 exactly for the empty text; otherwise the least n with length ≤ 4n, i.e. ceil(length / 4) |
| Ledger.Add | public/voice-agent.js:975-994 | only the named counter moves, by exactly `tokens`, and nothing moves unless `tokens > 0` |
| Ledger.AddNeverDecreases | public/voice-agent.js:975-994 | an estimate never lowers any counter |
| Ledger.Reconcile | public/voice-agent.js:617-632 | a non-zero `input_tokens` replaces the input pair (`input_audio_tokens` or 0 into the audio counter); likewise for output; a zero `input_tokens` or `output_tokens` leaves its pair |
| Ledger.ReconcileForgetsEstimates | public/voice-agent.js:617-632 | with both totals reported, the result does not depend on any estimate added before: replaced, not summed |
| Ledger.ReconcileReplacesAudioEstimate | public/voice-agent.js:622-625 | an estimate of 50 input-audio tokens, then a report of 120 (with `input_tokens` 10), leaves 120, not 170 |
| Ledger.ReconcileNeedsInputTokens | public/voice-agent.js:622-625 | a report carrying `input_audio_tokens` 120 but no `input_tokens` leaves the estimate of 50 |
| Ledger.PricingFor | public/voice-agent.js:936-937 | a known model gets its table entry; an unknown model gets `this.pricing`; no model gets the `gpt-4o-realtime-preview` entry |
| Ledger.MissingAndUnknownModelAgree | public/voice-agent.js:37-73 | an absent model and an unknown one are priced alike, at the default rates |
| Ledger.Cost | public/voice-agent.js:934-953 | the total is the sum of the four displayed category costs |
| Ledger.CategoryCost | public/voice-agent.js:941-944 | reference definition of one displayed category cost; its properties are the lemmas `CostPerCategory`, `CategoryCostAdd`, `CostOfAdd` |
| Ledger.CostPerCategory | public/voice-agent.js:941-944 | each category costs its counter ÷ 1,000,000 × that category's rate; cached rates are never used |
| Ledger.MillionOutputAudioTokensCostTheRate | public/voice-agent.js:941-951 | 1,000,000 output-audio tokens cost exactly the model's `audioOutput` rate, and that is the whole total |
| Ledger.DefaultOutputAudioCost | public/voice-agent.js:48-56 | under the default model, 1,000,000 output-audio tokens cost 80.00 |
| Ledger.CostOfAdd | public/voice-agent.js:941-951 | adding tokens to one counter raises the total by exactly those tokens at that category's rate |
| Ledger.CategoryCostAdd | public/voice-agent.js:941-944 | one category's cost is additive in its tokens |
| Transcript.Logged | public/voice-agent.js:794-806 | `log` appends one undecorated entry and keeps the log well formed (only assistant entries stream) |
| Transcript.AppendDelta | public/voice-agent.js:646-669 | the log ends in an open streaming turn holding the earlier streamed text plus `delta`; nothing before that turn changes; a new turn starts speaking |
| Transcript.Finalize | public/voice-agent.js:671-685 | the open turn is closed with exactly the full transcript; without one, a new assistant entry is appended |
| Transcript.Ensure | public/voice-agent.js:687-710 | if the last assistant entry already holds the trimmed transcript, only its decorations are cleared and the length is unchanged; otherwise it acts as `Finalize`; at most one entry is added |
| Transcript.ShowSpeaking | public/voice-agent.js:712-721 | only the speaking decoration of the last entry changes, and only when that entry is an assistant or streaming entry |
| Transcript.EnsureAfterFinalize | public/voice-agent.js:671-710 | `ensure(T)` right after `finalize(T)` changes nothing |
| Transcript.AppendAll | public/voice-agent.js:646-669 | reference definition of a run of `appendAssistantTranscript` calls; its properties are the lemmas `AppendAllStreams`, `AppendAllWellFormed`, `FinalizeAfterDeltas` |
| Transcript.AppendAllStreams | public/voice-agent.js:646-669 | a run of deltas keeps the settled part of the log and streams exactly their concatenation into one open turn |
| Transcript.AppendAllWellFormed | public/voice-agent.js:646-669 | a run of deltas keeps the log well formed |
| Transcript.FinalizeAfterDeltas | public/voice-agent.js:646-685 | deltas followed by `finalize(T)`, with no other line between, leave exactly one undecorated entry with text T after the settled log |
| Transcript.EnsureTwice | public/voice-agent.js:687-710 | `ensure(T)` twice is `ensure(T)` once, and adds at most one entry |
| Protocol.SessionUpdatePayload | public/voice-agent.js:432-461 | the instructions are the trimmed box text, or the default text when that is empty; the session's voice; text and audio; pcm16 both ways; `gpt-4o-transcribe` transcription; server VAD with threshold 0.5, 300 ms prefix padding and 200 ms silence |
| Protocol.SessionInstructionsTrimmed | public/voice-agent.js:432 | instructions taken from the box are already trimmed |
| Protocol.ValidSdpAnswer | public/voice-agent.js:293 | reference definition of the SDP-answer check; its properties are the lemmas `ValidSdpAnswerIff`, `AnswerWithoutMediaRejected`, `CheckHandshake` |
| Protocol.ValidSdpAnswerIff | public/voice-agent.js:293 | an answer passes exactly when both `v=0` and `m=` occur in it |
| Protocol.CheckHandshake | public/voice-agent.js:263-296 | the handshake checks pass exactly when the model is named and the answer is valid; no model fails first; a named model with an invalid answer fails as `InvalidAnswer` |
| Protocol.AnswerWithoutMediaRejected | public/voice-agent.js:293-296 | an answer with no `m=` is rejected as invalid |
| Session.Log | public/voice-agent.js:794-806 | reference definition of `log` on the whole state; its properties are the lemmas `LogValid`, `Transcript.Logged` |
| Session.Count | public/voice-agent.js:975-994 | reference definition of `addTokenUsage` on the whole state; its properties are the lemmas `Ledger.Add`, `Ledger.AddNeverDecreases` |
| Session.ModelOf | public/voice-agent.js:936 | reference definition of the `sessionData?.model` lookup (empty when absent); its properties are the lemmas `Ledger.MissingAndUnknownModelAgree`, `BeginSessionResets` |
| Session.CostDisplay | public/voice-agent.js:934-953 | reference definition of `updateCostDisplay` for the current model; its properties are the lemmas `ZeroCostsNothing`, `Ledger.Cost`, `Ledger.CostOfAdd` |
| Session.ResetTokenUsage | public/voice-agent.js:996-1005 | reference definition of `resetTokenUsage`; its properties are the lemmas `BeginSessionResets`, `ClearConversationLogResets` |
| Session.InitialValid | public/voice-agent.js:16-34 | the constructor's state satisfies the invariant |
| Session.Estimated | public/voice-agent.js:580-615 | an estimate is made exactly for a non-empty input transcription (input audio), a non-empty `audio_transcript.done` (output audio), and a created item with text from the user (input text) or the assistant (output text); it measures the event's `transcript`, or the item's `content[0].text` |
| Session.ApplyReport | public/voice-agent.js:617-632 | reference definition of the `response.usage` branch; its properties are the lemmas `ReportFrame`, `Ledger.Reconcile`, `Ledger.ReconcileForgetsEstimates` |
| Session.CountEstimate | public/voice-agent.js:581-615 | reference definition of the estimating branches; its properties are the lemmas `EstimateFrame`, `DispatchCountsEstimate` |
| Session.Track | public/voice-agent.js:574-637 | reference definition of `trackTokenUsage`; its properties are the lemmas `TrackIsLocal`, `TrackFrame`, `TrackLogsOneLine` |
| Session.TrackIsLocal | public/voice-agent.js:574-637 | `trackTokenUsage` changes only the counters and the log, appends at most one system line, keeps the log well formed, and lowers no counter outside a report |
| Session.TrackFrame | public/voice-agent.js:574-637 | only the counters and the log change; estimates only raise counters |
| Session.ReportFrame | public/voice-agent.js:617-632 | the report branch changes only the counters and the log |
| Session.EstimateFrame | public/voice-agent.js:581-615 | the estimating branches change only the counters and the log, and raise counters only |
| Session.TrackLogsOneLine | public/voice-agent.js:574-637 | the tracker appends at most one system line |
| Session.ItemContent | public/voice-agent.js:497-499 | reference definition of the text a created message logs; its properties are the lemmas `Session.Replied`'s well-formedness in `RepliedWellFormed` |
| Session.IsCancellationFailure | public/voice-agent.js:561-562 | reference definition of the cancellation-failure test; its properties are the lemmas `DispatchActiveResponse` |
| Session.Replied | public/voice-agent.js:474-571 | reference definition of what the type switch does to the log; its properties are the lemmas `RepliedWellFormed`, `TranscriptDoneLog`, `CompletionEventLog` |
| Session.ActiveAfter | public/voice-agent.js:479-567 | reference definition of what the type switch does to `hasActiveResponse`; its properties are the lemmas `DispatchActiveResponse` |
| Session.SpeakingAfter | public/voice-agent.js:516-529 | reference definition of what the type switch does to `isAssistantSpeaking`; its properties are the lemmas `DispatchAssistantSpeaking` |
| Session.Record | public/voice-agent.js:468 | reference definition of the `eventLog.push`; its properties are the lemmas `DispatchRecordsEvent` |
| Session.Respond | public/voice-agent.js:474-571 | reference definition of the type switch on the whole state; its properties are the lemmas `DispatchIsLocal`, `DispatchUnknownEvent` |
| Session.Dispatch | public/voice-agent.js:467-572 | reference definition of `handleRealtimeEvent`; its properties are the lemmas `DispatchRecordsEvent`, `DispatchActiveResponse`, `DispatchAssistantSpeaking`, `DispatchIsLocal`, `DispatchTokenUsage`, `DispatchCountsEstimate`, `TranscriptDoneAfterStreaming` |
| Session.RepliedWellFormed | public/voice-agent.js:474-571 | the type switch keeps the log well formed |
| Session.DispatchRecordsEvent | public/voice-agent.js:467-472 | every event is appended to `eventLog` exactly once, and dispatch keeps the invariant |
| Session.DispatchActiveResponse | public/voice-agent.js:479-567 | `response.created` sets `hasActiveResponse`; `response.done`, `response.cancelled` and a "Cancellation failed" / "no active response" error clear it; every other event leaves it |
| Session.DispatchAssistantSpeaking | public/voice-agent.js:516-529 | only `response.audio.delta` (sets) and `response.audio.done` (clears) change `isAssistantSpeaking` |
| Session.DispatchUnknownEvent | public/voice-agent.js:569-570 | an event whose type no case names changes nothing but `eventLog` |
| Session.DispatchIsLocal | public/voice-agent.js:467-571 | dispatch sends nothing, leaves the connection flags, and throws exactly for `conversation.item.created` without an item |
| Session.DispatchTokenUsage | public/voice-agent.js:574-615 | outside `response.usage`, no counter ever goes down |
| Session.DispatchCountsEstimate | public/voice-agent.js:580-615 | outside `response.usage`, the counters move by exactly the event's estimate |
| Session.TranscriptDoneAfterStreaming | public/voice-agent.js:509-598 | after a streamed turn, `audio_transcript.done` appends the tracker's line and then a second assistant entry; the streamed entry stays open |
| Session.TranscriptDoneLog | public/voice-agent.js:509-514 | `audio_transcript.done` finalizes the log as it stands after the tracker's line |
| Session.CompletionEventLog | public/voice-agent.js:537-550 | `content_part.done` and `output_item.done` change the log only by `ensure`, and only when they carry a transcript |
| Session.CompletionEventsAfterTranscriptDone | public/voice-agent.js:509-550 | the two completion events after `audio_transcript.done` add no entry |
| Session.VoiceTick | public/voice-agent.js:1007-1049 | reference definition of `detectVoiceActivity`; its properties are the lemmas `VoiceTickDisabled`, `VoiceTickValid`, `VoiceTickCancel`, `VoiceTickDecays`, `VoiceCounterUnbounded`, `SustainedVoiceRepeatsCancel` |
| Session.Ticks | public/voice-agent.js:1007-1049 | reference definition of a run of enabled ticks; its properties are the lemmas `SustainedVoiceRepeatsCancel` |
| Session.VoiceTickDisabled | public/voice-agent.js:1007-1011 | with interruption disabled a tick changes nothing |
| Session.VoiceTickValid | public/voice-agent.js:1029-1048 | the counter never goes below 0, and a tick keeps the invariant |
| Session.VoiceTickCancel | public/voice-agent.js:1029-1043 | a cancel goes out exactly when the tick is above the threshold, the counter reaches 5, a response is active and the channel is open; the counter is then 0; the flags are untouched |
| Session.VoiceTickDecays | public/voice-agent.js:1045-1048 | a tick at or below the level threshold lowers the counter by one, not below 0, and changes nothing else |
| Session.VoiceCounterUnbounded | public/voice-agent.js:1029-1031 | without an active response the counter keeps growing past the trigger count |
| Session.SustainedVoiceRepeatsCancel | public/voice-agent.js:1029-1043 | sustained voice over an active response cancels again every 5 ticks: after n ticks, (d+n)/5 cancels have gone out and the counter is (d+n) mod 5 |
| Session.Send | public/voice-agent.js:905-912 | reference definition of `sendEvent`; its properties are the lemmas `ChannelClosedFailsSends`, `StoppedSessionIsInert` |
| Session.ModeNote | public/voice-agent.js:893-897 | reference definition of the injection-mode line; its properties are the lemmas `InjectLines` |
| Session.ContextEvents | public/voice-agent.js:857-884 | reference definition of the events a successful injection sends; its properties are the lemmas `InjectSends`, `SendContextEffects` |
| Session.ContextNotes | public/voice-agent.js:862-898 | reference definition of the lines a successful injection logs; its properties are the lemmas `InjectLines`, `InjectAppends` |
| Session.SendContext | public/voice-agent.js:840-903 | reference definition of `sendContext`; its properties are the lemmas `SendContextSkips`, `SendContextEffects`, `InjectWithInterrupt`, `HelloInjection`, `SendContextValid` |
| Session.Deliver | public/voice-agent.js:847-903 | reference definition of the `try` block of `sendContext`; its properties are the lemmas `SendContextEffects`, `ChannelClosedFailsSends` |
| Session.Inject | public/voice-agent.js:856-898 | reference definition of the sends and lines on an open channel; its properties are the lemmas `InjectAppends`, `InjectValid` |
| Session.InjectAppends | public/voice-agent.js:857-898 | injection adds exactly the ordered event list [cancel if interrupting, item, `response.create` unless background], exactly the matching system lines, and nothing else |
| Session.InjectLines | public/voice-agent.js:862-898 | the lines injection logs, in order |
| Session.InjectSends | public/voice-agent.js:857-884 | the events injection sends, in order |
| Session.SendContextSkips | public/voice-agent.js:840-842 | an all-space text or a lost connection makes `sendContext` a no-op |
| Session.SendContextEffects | public/voice-agent.js:840-903 | a connected injection counts the estimate as input text first, whether or not the sends succeed; an open channel gets the ordered events; a closed one gets nothing |
| Session.InjectWithInterrupt | public/voice-agent.js:857-885 | interrupting, not in background: cancel, item, `response.create`, in that order |
| Session.HelloInjection | public/voice-agent.js:840-898 | injecting "Hello" with both checkboxes off sends the item and a `response.create`, and counts 2 input-text tokens |
| Session.InjectedContextCountedTwice | public/voice-agent.js:601-608 | the server's echo of injected text is estimated again, so it is counted twice as input text |
| Session.SendSessionUpdate | public/voice-agent.js:422-465 | reference definition of `sendSessionUpdate`; its properties are the lemmas `SessionUpdateSends`, `SessionUpdateEarlyExits`, `SessionUpdateRepeats`, `SendSessionUpdateValid` |
| Session.SessionUpdateSends | public/voice-agent.js:422-465 | a configured session on an open channel sends exactly one `session.update`, with non-empty instructions and the session's voice, logs one line, and changes nothing else |
| Session.SessionUpdateEarlyExits | public/voice-agent.js:424-428 | a closed channel leaves the state as it was without throwing; session data without a voice logs one error line and sends nothing |
| Session.SessionUpdateRepeats | public/voice-agent.js:422-465 | announcing again with a box that trims alike sends the same `session.update` a second time and logs a second line; nothing else changes |
| Session.ChannelOpened | public/voice-agent.js:217-220 | reference definition of the `open` listener; its properties are the lemmas `ChannelOpenedConfigures`, `ChannelOpenedWithoutSessionThrows`, `ChannelOpenedValid` |
| Session.ChannelClosed | public/voice-agent.js:226-228 | reference definition of the `close` listener; its properties are the lemmas `ChannelClosedFailsSends`, `ChannelClosedValid` |
| Session.ChannelOpenedConfigures | public/voice-agent.js:217-220 | the open listener logs, then sends the `session.update` for the session's voice |
| Session.ChannelOpenedWithoutSessionThrows | public/voice-agent.js:217-220 | with no session data the open listener throws and sends nothing |
| Session.ChannelClosedFailsSends | public/voice-agent.js:905-912 | after the channel closes, every send throws; a context injection still counts its estimate and ends in the failure line |
| Session.ConnectionChange | public/voice-agent.js:241-254 | reference definition of the `connectionstatechange` listener; its properties are the lemmas `ConnectionChangeFlag`, `ConnectionChangeValid` |
| Session.ConnectionChangeFlag | public/voice-agent.js:241-254 | `connected` connects, `failed` and `disconnected` disconnect, other states leave `isConnected` |
| Session.StopSession | public/voice-agent.js:738-781 | reference definition of `stopSession`; its properties are the lemmas `StopSessionIdempotent`, `StoppedSessionIsInert`, `ToggleMuteAfterStop`, `StopSessionValid` |
| Session.StopSessionIdempotent | public/voice-agent.js:738-781 | stopping twice leaves the same flags as stopping once; stopping leaves no connection, channel or stream |
| Session.StoppedSessionIsInert | public/voice-agent.js:738-781 | once stopped, sends throw and context injection does nothing |
| Session.AcquireMicrophone | public/voice-agent.js:194 | reference definition of the stream `getUserMedia` grants; its properties are the lemmas `AcquireMicrophoneValid` |
| Session.ToggleMute | public/voice-agent.js:723-737 | reference definition of `toggleMute`; its properties are the lemmas `ToggleMuteOnce`, `ToggleMuteTwice`, `ToggleMuteAfterStop`, `ToggleMuteValid` |
| Session.ToggleMuteTwice | public/voice-agent.js:723-737 | with a stream, toggling twice restores the mute flag and changes only the log |
| Session.ToggleMuteOnce | public/voice-agent.js:723-737 | with a stream, one toggle flips the flag and logs "Microphone muted" or "Microphone unmuted" for the new state; without one nothing happens |
| Session.ToggleMuteAfterStop | public/voice-agent.js:751 | `stopSession` clears the stream, so a later toggle does nothing and the microphone stays unmuted |
| Session.BeginSession | public/voice-agent.js:159-174 | reference definition of `startSession` after `/api/session` answered; its properties are the lemmas `BeginSessionResets` |
| Session.ClearConversationLog | public/voice-agent.js:808-815 | reference definition of `clearConversationLog`; its properties are the lemmas `ClearConversationLogResets` |
| Session.ZeroCostsNothing | public/voice-agent.js:934-953 | a reset ledger costs 0 at any model's rates |
| Session.BeginSessionResets | public/voice-agent.js:159-174 | a new session starts from a reset ledger, priced at its own model, with one line logged |
| Session.ClearConversationLogResets | public/voice-agent.js:808-815 | clearing leaves exactly two system lines and a reset ledger, and changes nothing else |
| Session.LogValid | public/voice-agent.js:794-806 | logging a line keeps the invariant |
| Session.InjectValid | public/voice-agent.js:857-898 | the sends and lines of a context injection keep the invariant |
| Session.SendContextValid | public/voice-agent.js:840-903 | `sendContext` keeps the invariant |
| Session.SendSessionUpdateValid | public/voice-agent.js:422-465 | `sendSessionUpdate` keeps the invariant |
| Session.ChannelOpenedValid | public/voice-agent.js:217-220 | the open listener keeps the invariant |
| Session.ChannelClosedValid | public/voice-agent.js:226-228 | the close listener keeps the invariant |
| Session.ConnectionChangeValid | public/voice-agent.js:241-254 | the state listener keeps the invariant |
| Session.StopSessionValid | public/voice-agent.js:738-781 | `stopSession` keeps the invariant |
| Session.ToggleMuteValid | public/voice-agent.js:723-737 | `toggleMute` keeps the invariant |
| Session.AcquireMicrophoneValid | public/voice-agent.js:194 | granting the microphone stream keeps the invariant |
| Agent.VoiceAgent.constructor | public/voice-agent.js:16-34 | disconnected, silent, empty logs and zero counters |
| Agent.VoiceAgent.Log | public/voice-agent.js:794-806 | appends one entry to the log field |
| Agent.VoiceAgent.AppendAssistantTranscript | public/voice-agent.js:646-669 | the log field becomes `AppendDelta` of the old log |
| Agent.VoiceAgent.FinalizeAssistantTranscript | public/voice-agent.js:671-685 | the log field becomes `Finalize` of the old log |
| Agent.VoiceAgent.EnsureAssistantTranscript | public/voice-agent.js:687-710 | the log field becomes `Ensure` of the old log |
| Agent.VoiceAgent.ShowAssistantSpeaking | public/voice-agent.js:712-721 | the log field becomes `ShowSpeaking` of the old log |
| Agent.VoiceAgent.AddTokenUsage | public/voice-agent.js:975-994 | the counters become `Add` of the old counters |
| Agent.VoiceAgent.ResetTokenUsage | public/voice-agent.js:996-1005 | the counters are zero |
| Agent.VoiceAgent.ClearConversationLog | public/voice-agent.js:808-815 | the object's state becomes `Session.ClearConversationLog` of the old state; keeps the invariant |
| Agent.VoiceAgent.TrackTokenUsage | public/voice-agent.js:574-637 | the object's state becomes `Session.Track` of the old state |
| Agent.VoiceAgent.ApplyUsageReport | public/voice-agent.js:617-632 | the report branch, as `Session.ApplyReport` |
| Agent.VoiceAgent.CountEstimate | public/voice-agent.js:581-615 | the estimating branches, as `Session.CountEstimate` |
| Agent.VoiceAgent.HandleRealtimeEvent | public/voice-agent.js:467-572 | the object's state and the throw flag are `Session.Dispatch` of the old state; keeps the invariant |
| Agent.VoiceAgent.RecordEvent | public/voice-agent.js:468 | the event is pushed onto `eventLog` |
| Agent.VoiceAgent.RespondTo | public/voice-agent.js:474-571 | the type switch on the whole state, as `Session.Respond` |
| Agent.VoiceAgent.SwitchOnType | public/voice-agent.js:474-571 | the log and the two response flags change as the switch prescribes; it throws exactly for a missing item |
| Agent.VoiceAgent.ShowTranscript | public/voice-agent.js:504-555 | the transcript cases of the switch |
| Agent.VoiceAgent.SendEvent | public/voice-agent.js:905-912 | sends when the channel is open; otherwise throws and sends nothing |
| Agent.VoiceAgent.DetectVoiceActivity | public/voice-agent.js:1007-1049 | the object's state and the throw flag are `Session.VoiceTick` of the old state; keeps the invariant |
| Agent.VoiceAgent.SendContext | public/voice-agent.js:840-903 | the object's state and the outcome are `Session.SendContext` of the old state; keeps the invariant |
| Agent.VoiceAgent.DeliverContext | public/voice-agent.js:847-903 | the `try` block: the estimate is counted before any send |
| Agent.VoiceAgent.InjectContext | public/voice-agent.js:856-901 | an open channel gets `Session.Inject`; a closed one gets only the failure line |
| Agent.VoiceAgent.SendThenLog | public/voice-agent.js:857-884 | one send followed by its line, or the `catch` line when the send throws |
| Agent.VoiceAgent.SendSessionUpdate | public/voice-agent.js:423-465 | the object's state and the throw flag are `Session.SendSessionUpdate` of the old state; keeps the invariant |
| Agent.VoiceAgent.OnChannelOpen | public/voice-agent.js:217-220 | the open listener, as `Session.ChannelOpened`; keeps the invariant |
| Agent.VoiceAgent.OnChannelClose | public/voice-agent.js:226-228 | the close listener, as `Session.ChannelClosed`; keeps the invariant |
| Agent.VoiceAgent.OnConnectionStateChange | public/voice-agent.js:241-254 | the state listener, as `Session.ConnectionChange`; keeps the invariant |
| Agent.VoiceAgent.StopSession | public/voice-agent.js:738-781 | as `Session.StopSession`: the channel and the stream are dropped; keeps the invariant |
| Agent.VoiceAgent.ToggleMute | public/voice-agent.js:723-737 | as `Session.ToggleMute` over the object's own stream field; keeps the invariant |
| Agent.VoiceAgent.AcquireMicrophone | public/voice-agent.js:194 | the stream field is set, as `Session.AcquireMicrophone`; keeps the invariant |
| Agent.VoiceAgent.BeginSession | public/voice-agent.js:159-174 | as `Session.BeginSession`: the ledger is reset, the session data kept, one line logged; keeps the invariant |

## Behaviour that follows the code

In several places the code does less than, or something other than, what its own comments say. The model follows the code in each case.

- **Counter bound.** The voice-activity counter is not bounded by the trigger count. Without an active response it keeps growing (`Session.VoiceCounterUnbounded`).
- **Repeated cancel.** The comment on the counter reset at line 1043 says it is there to avoid multiple interruptions. But sending `response.cancel` does not clear `hasActiveResponse`, so sustained speech cancels again every five ticks (`Session.SustainedVoiceRepeatsCancel`).
- **Counters that go down.** The comment at line 618 says reported usage is used instead of the estimates. It is: a report replaces the counters, so it can lower them.
- **Report without `input_tokens`.** The replacement at line 618 is guarded by `input_tokens` (line 622). A report that carries `input_audio_tokens` but no `input_tokens` therefore leaves the audio estimate in place (`Ledger.ReconcileNeedsInputTokens`).
- **Estimate length.** The comment at line 640 speaks of four characters per token, but `text.length` counts UTF-16 code units, so a character outside the Basic Multilingual Plane counts twice (`Text.EmojiCountsTwice`).
- **Duplicate assistant entry.** `trackTokenUsage` runs before the type switch. On `response.audio_transcript.done` it logs a system line after the streamed turn. `finalizeAssistantTranscript` therefore no longer sees the streaming entry: that entry stays open with its partial text, and a second assistant entry with the full transcript is appended (`Session.TranscriptDoneAfterStreaming`).
- **Context counted twice.** Injected context is counted once at send time, and again when the server echoes the item back as `conversation.item.created` from the user (`Session.InjectedContextCountedTwice`).
- **`session.update` bypasses `sendEvent`.** It writes to the channel directly, after its own open-channel check.
- **No voice ticks as written.** `drawVisualization` is entered once from the constructor, before any analyser exists. It returns at line 349 without scheduling another frame, so as written `detectVoiceActivity` is never reached. The model treats each tick as an explicit call.

## Left out

- Network and browser I/O: the `/api/session` fetch, `RTCPeerConnection`, the `getUserMedia` request (only its granted stream is modelled, as `Session.AcquireMicrophone`), data-channel creation and the SDP fetch. Of `setupWebRTC`, only the missing-model and answer checks are modelled (`Protocol.CheckHandshake`).
- Audio analysis and drawing: `setupInputAudioAnalysis`, `setupOutputAudioAnalysis`, `drawVisualization`, `getAudioLevel` and the level meter. These are Web Audio and canvas work over floating-point data. The per-tick level is a `real` parameter.
- DOM and UI updates:
  - button states, `updateStatus` and `updateContextButton`;
  - the token, pricing and debug displays, and clearing the context box;
  - the instructions highlight timer;
  - `toFixed` and `toLocaleString` formatting.
- Log entries are modelled as kind and text. Timestamps, the `innerHTML` markup and scrolling are not.
- Log texts that embed a formatted number, a length or JSON keep only their fixed words. This applies to the estimate lines, the usage line, the context-injected line and the session-configured line.
- `console.log` and `console.warn` calls, and the `Date.now()` debug throttle in `detectVoiceActivity`.
- The `try`/`catch` around `trackTokenUsage`: over well-formed events the guarded code cannot throw.
- The data channel's `error` listener and the peer connection's `track` listener: they only log and hand the stream to audio set-up.
- The asynchronous `close` event that `stopSession` causes: `stopSession` drops the channel at once, and the model does not queue the later event.
- Concurrency between the three event sources. Each handler is one serialised method call.
- Message payloads of types JavaScript would coerce: an undefined `delta` (appended as "undefined"), a non-string role and prototype-named keys.
- Ledger.Cost: the cost figures are exact reals. Floating-point rounding of the source's division and multiplication is not modelled.
