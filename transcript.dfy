/**
 * The conversation log: the ordered children of the `conversation-log` element,
 * each an entry with a kind (its `log-<type>` class), a text (its `.log-content`)
 * and the two assistant decorations `log-assistant-streaming` and
 * `log-assistant-speaking`. Every operation here looks only at the last entry.
 */
module Transcript {
  import opened Text

  datatype Entry = Entry(kind: string, text: string, streaming: bool, speaking: bool)

  /** The kind carried by assistant entries (`log-assistant`). */
  const Assistant: string := "assistant"

  /** The entry `log(type, message)` appends: no decoration. */
  function Plain(kind: string, message: string): Entry {
    Entry(kind, message, false, false)
  }

  /** Only assistant entries are ever streaming. */
  ghost predicate WellFormed(log: seq<Entry>) {
    forall i :: 0 <= i < |log| && log[i].streaming ==> log[i].kind == Assistant
  }

  function Last(log: seq<Entry>): Entry
    requires log != []
  {
    log[|log| - 1]
  }

  /** Is the last entry an open streaming turn? */
  predicate LastStreaming(log: seq<Entry>) {
    log != [] && Last(log).streaming
  }

  /** The log without its open streaming turn (the settled part), if it ends in one. */
  function Settled(log: seq<Entry>): seq<Entry> {
    if LastStreaming(log) then log[..|log| - 1] else log
  }

  /** The text streamed so far into the open turn ("" when there is none). */
  function Streamed(log: seq<Entry>): string {
    if LastStreaming(log) then Last(log).text else ""
  }

  /** `log(type, message)`: appends one undecorated entry. */
  function Logged(log: seq<Entry>, kind: string, message: string): (r: seq<Entry>)
    ensures WellFormed(log) ==> WellFormed(r)
  {
    log + [Plain(kind, message)]
  }

  /**
   * `appendAssistantTranscript(delta)`: the log ends in an open streaming turn whose
   * text is what was streamed before plus `delta`; nothing before that turn changes.
   * A new turn starts out speaking; a continued one keeps its speaking flag.
   */
  function AppendDelta(log: seq<Entry>, delta: string): (r: seq<Entry>)
    ensures r != [] && r == Settled(log) + [Last(r)]
    ensures Last(r).streaming && Last(r).text == Streamed(log) + delta
    ensures Last(r).speaking == (!LastStreaming(log) || Last(log).speaking)
    ensures Settled(r) == Settled(log) && Streamed(r) == Streamed(log) + delta
    ensures WellFormed(log) ==> WellFormed(r) && Last(r).kind == Assistant
  {
    if LastStreaming(log) then
      var last := Last(log);
      log[..|log| - 1] + [last.(text := last.text + delta)]
    else
      log + [Entry(Assistant, delta, true, true)]
  }

  /**
   * `finalizeAssistantTranscript(fullTranscript)`: the open turn, if any, is closed with
   * exactly `fullTranscript` as its text; without one, a new assistant entry is appended.
   */
  function Finalize(log: seq<Entry>, transcript: string): (r: seq<Entry>)
    ensures WellFormed(log) ==> r == Settled(log) + [Plain(Assistant, transcript)] && WellFormed(r)
    ensures !LastStreaming(log) ==> r == log + [Plain(Assistant, transcript)]
  {
    if LastStreaming(log) then
      var last := Last(log);
      log[..|log| - 1] + [last.(text := transcript, streaming := false, speaking := false)]
    else
      Logged(log, Assistant, transcript)
  }

  /** Does the last entry already hold `transcript`, up to white space at either end? */
  predicate HoldsTranscript(log: seq<Entry>, transcript: string) {
    log != [] && Last(log).kind == Assistant && Trim(Last(log).text) == Trim(transcript)
  }

  /**
   * `ensureAssistantTranscript(transcript)`: when the last entry is an assistant entry
   * whose trimmed text equals the trimmed `transcript`, only its two decorations are
   * cleared; otherwise it behaves as `Finalize`.
   */
  function Ensure(log: seq<Entry>, transcript: string): (r: seq<Entry>)
    ensures HoldsTranscript(log, transcript) ==>
              |r| == |log| && r[..|log| - 1] == log[..|log| - 1] &&
              Last(r) == Last(log).(streaming := false, speaking := false)
    ensures !HoldsTranscript(log, transcript) ==> r == Finalize(log, transcript)
    ensures |log| <= |r| <= |log| + 1
    ensures WellFormed(log) ==> WellFormed(r) && HoldsTranscript(r, transcript) && !Last(r).streaming && !Last(r).speaking
  {
    if HoldsTranscript(log, transcript) then
      var last := Last(log);
      log[..|log| - 1] + [last.(streaming := false, speaking := false)]
    else
      Finalize(log, transcript)
  }

  /**
   * `showAssistantSpeaking(speaking)`: sets or clears the speaking decoration of the last
   * entry when it is an assistant or streaming entry; no entry is added or removed and no
   * text, kind or streaming flag changes.
   */
  function ShowSpeaking(log: seq<Entry>, speaking: bool): (r: seq<Entry>)
    ensures |r| == |log|
    ensures forall i :: 0 <= i < |log| ==>
              r[i].kind == log[i].kind && r[i].text == log[i].text && r[i].streaming == log[i].streaming &&
              r[i].speaking == (if i == |log| - 1 && (log[i].kind == Assistant || log[i].streaming) then speaking else log[i].speaking)
    ensures WellFormed(log) ==> WellFormed(r)
  {
    if log != [] && (Last(log).kind == Assistant || Last(log).streaming) then
      log[..|log| - 1] + [Last(log).(speaking := speaking)]
    else log
  }

  /** Once `Finalize` has closed a turn with `transcript`, `Ensure` of the same transcript changes nothing. */
  lemma EnsureAfterFinalize(log: seq<Entry>, transcript: string)
    requires WellFormed(log)
    ensures Ensure(Finalize(log, transcript), transcript) == Finalize(log, transcript)
  {
    var closed := Finalize(log, transcript);
    assert closed[..|closed| - 1] + [Last(closed)] == closed;
  }

  /** A run of deltas applied in order. */
  function AppendAll(log: seq<Entry>, deltas: seq<string>): seq<Entry>
    decreases |deltas|
  {
    if deltas == [] then log else AppendAll(AppendDelta(log, deltas[0]), deltas[1..])
  }

  function Concat(deltas: seq<string>): string
    decreases |deltas|
  {
    if deltas == [] then "" else deltas[0] + Concat(deltas[1..])
  }

  /** A run of deltas keeps the settled part of the log and streams their concatenation into one turn. */
  lemma {:induction false} AppendAllStreams(log: seq<Entry>, deltas: seq<string>)
    ensures Settled(AppendAll(log, deltas)) == Settled(log)
    ensures Streamed(AppendAll(log, deltas)) == Streamed(log) + Concat(deltas)
    ensures deltas != [] ==> LastStreaming(AppendAll(log, deltas))
    decreases |deltas|
  {
    if deltas != [] {
      var next := AppendDelta(log, deltas[0]);
      assert Settled(next) == Settled(log) && Streamed(next) == Streamed(log) + deltas[0];
      AppendAllStreams(next, deltas[1..]);
      assert Streamed(log) + Concat(deltas) == (Streamed(log) + deltas[0]) + Concat(deltas[1..]);
    }
  }

  /** A run of deltas keeps the log well formed. */
  lemma {:induction false} AppendAllWellFormed(log: seq<Entry>, deltas: seq<string>)
    requires WellFormed(log)
    ensures WellFormed(AppendAll(log, deltas))
    decreases |deltas|
  {
    if deltas != [] {
      AppendAllWellFormed(AppendDelta(log, deltas[0]), deltas[1..]);
    }
  }

  /**
   * Any run of deltas followed by `Finalize(transcript)` leaves exactly one entry for the
   * turn, holding exactly `transcript`, undecorated, after the settled part of the log.
   */
  lemma FinalizeAfterDeltas(log: seq<Entry>, deltas: seq<string>, transcript: string)
    requires WellFormed(log)
    ensures Finalize(AppendAll(log, deltas), transcript) == Settled(log) + [Plain(Assistant, transcript)]
  {
    AppendAllStreams(log, deltas);
    AppendAllWellFormed(log, deltas);
  }

  /** `Ensure` is idempotent: a second call with the same transcript changes nothing. */
  lemma EnsureTwice(log: seq<Entry>, transcript: string)
    requires WellFormed(log)
    ensures Ensure(Ensure(log, transcript), transcript) == Ensure(log, transcript)
    ensures |Ensure(Ensure(log, transcript), transcript)| <= |log| + 1
  {
    var once := Ensure(log, transcript);
    assert once[..|once| - 1] + [Last(once)] == once;
  }
}
