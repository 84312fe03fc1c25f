/**
 * The Realtime protocol as the controller sees it: the inbound events it parses
 * off the data channel, the outbound events it sends, the `session.update`
 * payload, the peer-connection states it reacts to and the checks it applies to
 * the signalling answer.
 */
module Protocol {
  import opened Wrappers
  import opened Text
  import Ledger

  /**
   * One element of an item's `content` array, or an event's `part`. A string field
   * that is absent (or empty, which JavaScript treats alike) is "".
   */
  datatype Part = Part(partType: string, transcript: string, text: string)

  /** A conversation item: its `type`, `role` and `content`. */
  datatype Item = Item(itemType: string, role: string, content: seq<Part>)

  /** `content?.[0]?.transcript`, "" when absent. */
  function FirstTranscript(item: Item): string {
    if item.content == [] then "" else item.content[0].transcript
  }

  /** `content?.[0]?.text`, "" when absent. */
  function FirstText(item: Item): string {
    if item.content == [] then "" else item.content[0].text
  }

  /** The `type` names the dispatcher of `handleRealtimeEvent` has a case for, plus `response.usage`, which only the token tracker handles. */
  predicate KnownType(name: string) {
    name in {"session.created", "response.created", "response.done", "response.cancelled",
             "conversation.item.created", "response.audio_transcript.delta",
             "response.audio_transcript.done", "response.audio.delta", "response.audio.done",
             "conversation.item.input_audio_transcription.completed", "response.content_part.done",
             "response.output_item.done", "response.text.delta", "response.usage", "error"}
  }

  /**
   * An inbound event, tagged by its `type`. `Other` stands for every type the controller
   * has no case for; its name should satisfy `!KnownType`; an event of a known type is
   * written with its own constructor. String payloads that are absent are "".
   */
  datatype Event =
    | SessionCreated
    | ResponseCreated
    | ResponseDone
    | ResponseCancelled
    | ItemCreated(item: Option<Item>)                   // conversation.item.created
    | TranscriptDelta(delta: string)                    // response.audio_transcript.delta
    | TranscriptDone(transcript: string)                // response.audio_transcript.done
    | AudioDelta                                        // response.audio.delta
    | AudioDone                                         // response.audio.done
    | InputTranscriptionCompleted(transcript: string)   // conversation.item.input_audio_transcription.completed
    | ContentPartDone(part: Option<Part>)               // response.content_part.done
    | OutputItemDone(outputItem: Option<Item>)          // response.output_item.done
    | TextDelta(delta: string)                          // response.text.delta
    | UsageReported(usage: Option<Ledger.Report>)       // response.usage
    | Error(message: string)                            // error, with error?.message
    | Other(eventType: string)

  /** The `turn_detection` block of `session.update`. */
  datatype TurnDetection = TurnDetection(detectionType: string, threshold: real, prefixPaddingMs: nat, silenceDurationMs: nat)

  /** The `session` object of `session.update`. */
  datatype SessionConfig = SessionConfig(
    modalities: seq<string>,
    instructions: string,
    voice: string,
    inputAudioFormat: string,
    outputAudioFormat: string,
    transcriptionModel: string,
    turnDetection: TurnDetection)

  /**
   * An outbound event. `ItemCreate` is always a `message` item with role `user` whose one
   * content element is of type `input_text`.
   */
  datatype Outbound =
    | SessionUpdate(session: SessionConfig)
    | ItemCreate(text: string)
    | ResponseCreate
    | ResponseCancel

  /** The instructions used when the instructions box trims to nothing. */
  const DefaultInstructions: string := "You are a helpful AI assistant. Respond naturally and conversationally."

  /**
   * The payload `sendSessionUpdate` builds: the trimmed instructions from the box, or the
   * default ones when that is empty, the session's voice, text and audio modalities, pcm16
   * both ways, `gpt-4o-transcribe` transcription and server-side voice activity detection
   * (threshold 0.5, 300 ms prefix padding, 200 ms silence).
   */
  function SessionUpdatePayload(instructionsBox: string, voice: string): (p: SessionConfig)
    ensures p.instructions != []
    ensures Trim(instructionsBox) != [] ==> p.instructions == Trim(instructionsBox)
    ensures Trim(instructionsBox) == [] ==> p.instructions == DefaultInstructions
    ensures p.voice == voice
    ensures p.modalities == ["text", "audio"] && p.inputAudioFormat == p.outputAudioFormat == "pcm16"
    ensures p.transcriptionModel == "gpt-4o-transcribe"
    ensures p.turnDetection == TurnDetection("server_vad", 0.5, 300, 200)
  {
    var trimmed := Trim(instructionsBox);
    SessionConfig(
      ["text", "audio"],
      if trimmed != [] then trimmed else DefaultInstructions,
      voice,
      "pcm16",
      "pcm16",
      "gpt-4o-transcribe",
      TurnDetection("server_vad", 0.5, 300, 200))
  }

  /** Instructions taken from the box are already trimmed: trimming them again changes nothing. */
  lemma SessionInstructionsTrimmed(instructionsBox: string, voice: string)
    requires Trim(instructionsBox) != []
    ensures Trim(SessionUpdatePayload(instructionsBox, voice).instructions) == SessionUpdatePayload(instructionsBox, voice).instructions
  {
    TrimIdempotent(instructionsBox);
  }

  /** The answer check of `setupWebRTC`: the SDP must contain a `v=0` line marker and an `m=` media marker. */
  predicate ValidSdpAnswer(answer: string) {
    Contains(answer, "v=0") && Contains(answer, "m=")
  }

  /** An answer is accepted exactly when both markers occur at some offset. */
  lemma ValidSdpAnswerIff(answer: string)
    ensures ValidSdpAnswer(answer) <==> (exists i :: OccursAt(answer, "v=0", i)) && (exists j :: OccursAt(answer, "m=", j))
  {
    ContainsIffOccurs(answer, "v=0");
    ContainsIffOccurs(answer, "m=");
  }

  /** Why `setupWebRTC` gives up (the checks of the handshake that are not network I/O). */
  datatype HandshakeError = NoModel | InvalidAnswer

  /**
   * The two checks `setupWebRTC` applies: the session data must name a model (before the
   * offer is sent), and the answer must be valid SDP (before it is applied).
   */
  function CheckHandshake(model: string, answer: string): (r: Option<HandshakeError>)
    ensures r == None <==> model != "" && ValidSdpAnswer(answer)
    ensures model == "" ==> r == Some(NoModel)
    ensures model != "" && !ValidSdpAnswer(answer) ==> r == Some(InvalidAnswer)
  {
    if model == "" then Some(NoModel)
    else if !ValidSdpAnswer(answer) then Some(InvalidAnswer)
    else None
  }

  /** An answer without any media line is rejected. */
  lemma AnswerWithoutMediaRejected(model: string, answer: string)
    requires model != ""
    requires forall j :: !OccursAt(answer, "m=", j)
    ensures CheckHandshake(model, answer) == Some(InvalidAnswer)
  {
    ContainsIffOccurs(answer, "m=");
  }

  /** The values of `RTCPeerConnection.connectionState`. */
  datatype ConnectionState = New | Connecting | Connected | Disconnected | Failed | Closed {

    function Name(): string {
      match this
      case New => "new"
      case Connecting => "connecting"
      case Connected => "connected"
      case Disconnected => "disconnected"
      case Failed => "failed"
      case Closed => "closed"
    }
  }
}
