/**
 * Event translation of the voice bridge in `MainActivity`: the anonymous
 * `RecognitionListener` registered on each recognizer turns every raw engine
 * callback into zero, one or two events pushed to the Flutter side, and
 * `getErrorText` turns the engine's numeric error codes into fixed messages.
 */
module EventTranslation {
  import opened Options
  import opened Decimal

  // The `SpeechRecognizer.ERROR_*` codes the bridge knows by name.
  const ERROR_NETWORK_TIMEOUT: Int32 := 1
  const ERROR_NETWORK: Int32 := 2
  const ERROR_AUDIO: Int32 := 3
  const ERROR_SERVER: Int32 := 4
  const ERROR_CLIENT: Int32 := 5
  const ERROR_SPEECH_TIMEOUT: Int32 := 6
  const ERROR_NO_MATCH: Int32 := 7
  const ERROR_RECOGNIZER_BUSY: Int32 := 8
  const ERROR_INSUFFICIENT_PERMISSIONS: Int32 := 9

  const UNKNOWN_ERROR_PREFIX := "Unknown error: "

  // The payloads of `onStatus`.
  const LISTENING := "listening"
  const PROCESSING := "processing"
  const FAILED := "failed"

  /** The `Float` volume level of `onRmsChanged`; the bridge passes it on unchanged. */
  type RmsLevel = real

  predicate IsKnownError(code: int) {
    ERROR_NETWORK_TIMEOUT <= code <= ERROR_INSUFFICIENT_PERMISSIONS
  }

  predicate StartsWith(s: string, prefix: string) {
    prefix <= s
  }

  /** `getErrorText`: a fixed message per known code, "Unknown error: <code>" for every other one. */
  function ErrorText(code: Int32): (msg: string)
  {
    if code == ERROR_AUDIO then "Audio recording error"
    else if code == ERROR_CLIENT then "Client side error"
    else if code == ERROR_INSUFFICIENT_PERMISSIONS then "Insufficient permissions"
    else if code == ERROR_NETWORK then "Network error"
    else if code == ERROR_NETWORK_TIMEOUT then "Network timeout"
    else if code == ERROR_NO_MATCH then "No match"
    else if code == ERROR_RECOGNIZER_BUSY then "RecognitionService busy"
    else if code == ERROR_SERVER then "Error from server"
    else if code == ERROR_SPEECH_TIMEOUT then "No speech input"
    else UNKNOWN_ERROR_PREFIX + IntToString(code)
  }

  /** Exactly the codes outside the nine known ones get the "Unknown error: " prefix. */
  lemma ErrorTextKnownIff(code: Int32)
    ensures IsKnownError(code) <==> !StartsWith(ErrorText(code), UNKNOWN_ERROR_PREFIX)
  {
    var msg := ErrorText(code);
    if IsKnownError(code) {
      assert msg[0] != 'U';
    } else {
      assert msg[..|UNKNOWN_ERROR_PREFIX|] == UNKNOWN_ERROR_PREFIX;
    }
  }

  /** Reads the error code back out of an error message; the left inverse of `ErrorText`. */
  function ErrorCodeOf(msg: string): (r: Option<int>)
  {
    if StartsWith(msg, UNKNOWN_ERROR_PREFIX) then ParseInt(msg[|UNKNOWN_ERROR_PREFIX|..])
    else if msg == "Audio recording error" then Some(ERROR_AUDIO as int)
    else if msg == "Client side error" then Some(ERROR_CLIENT as int)
    else if msg == "Insufficient permissions" then Some(ERROR_INSUFFICIENT_PERMISSIONS as int)
    else if msg == "Network error" then Some(ERROR_NETWORK as int)
    else if msg == "Network timeout" then Some(ERROR_NETWORK_TIMEOUT as int)
    else if msg == "No match" then Some(ERROR_NO_MATCH as int)
    else if msg == "RecognitionService busy" then Some(ERROR_RECOGNIZER_BUSY as int)
    else if msg == "Error from server" then Some(ERROR_SERVER as int)
    else if msg == "No speech input" then Some(ERROR_SPEECH_TIMEOUT as int)
    else None
  }

  /** The message of every code determines the code. */
  lemma ErrorTextRoundTrip(code: Int32)
    ensures ErrorCodeOf(ErrorText(code)) == Some(code as int)
  {
    var msg := ErrorText(code);
    ErrorTextKnownIff(code);
    if !IsKnownError(code) {
      assert msg[|UNKNOWN_ERROR_PREFIX|..] == IntToString(code);
      ParseIntToString(code);
    } else if code == ERROR_SERVER {
      assert msg[0] != "Client side error"[0];
    } else if code == ERROR_SPEECH_TIMEOUT {
      assert msg[1] != "Network timeout"[1];
    }
  }

  /** Distinct codes get distinct messages, so each message names exactly one code. */
  lemma ErrorTextInjective(a: Int32, b: Int32)
    ensures ErrorText(a) == ErrorText(b) ==> a == b
  {
    ErrorTextRoundTrip(a);
    ErrorTextRoundTrip(b);
  }

  /** One raw callback of `RecognitionListener`, with the payloads the bridge reads. */
  datatype Callback =
    | ReadyForSpeech
    | BeginningOfSpeech
    | RmsChanged(rmsdB: RmsLevel)
    | BufferReceived(buffer: Option<seq<bv8>>)
    | EndOfSpeech
    | Error(error: Int32)
    | Results(matches: Option<seq<string>>)
    | PartialResults(matches: Option<seq<string>>)
    | Event(eventType: Int32)

  /** One event pushed over the method channel. */
  datatype OutEvent =
    | OnStatus(status: string)
    | OnError(message: string)
    | OnResults(text: string, isFinal: bool)
    | OnRmsChanged(rmsdB: RmsLevel)

  /**
   * The listener's reaction to one callback. `attached` says whether the
   * activity still has a Flutter engine to send through; without one every
   * handler returns before sending anything.
   */
  function Translate(cb: Callback, attached: bool): (out: seq<OutEvent>)
    ensures |out| <= 2
    ensures !attached ==> out == []
    ensures |out| == 2 <==> attached && cb.Error?
  {
    if !attached then []
    else match cb
      case ReadyForSpeech => [OnStatus(LISTENING)]
      case BeginningOfSpeech => []
      case RmsChanged(level) => [OnRmsChanged(level)]
      case BufferReceived(_) => []
      case EndOfSpeech => [OnStatus(PROCESSING)]
      case Error(code) => [OnError(ErrorText(code)), OnStatus(FAILED)]
      case Results(matches) =>
        if matches.Some? && |matches.value| > 0 then [OnResults(matches.value[0], true)] else []
      case PartialResults(matches) =>
        if matches.Some? && |matches.value| > 0 then [OnResults(matches.value[0], false)] else []
      case Event(_) => []
  }

  /** The outbound stream produced by a stream of callbacks, each handled atomically in turn. */
  function TranslateAll(cbs: seq<Callback>, attached: bool): (out: seq<OutEvent>)
    decreases |cbs|
  {
    if cbs == [] then [] else Translate(cbs[0], attached) + TranslateAll(cbs[1..], attached)
  }

  // ---- Projections of the outbound stream and their references over the callbacks ----

  /** The `onStatus` payloads of a stream, in order. */
  function Statuses(out: seq<OutEvent>): seq<string>
    decreases |out|
  {
    if out == [] then []
    else (if out[0].OnStatus? then [out[0].status] else []) + Statuses(out[1..])
  }

  /** The `onError` payloads of a stream, in order. */
  function ErrorMessages(out: seq<OutEvent>): seq<string>
    decreases |out|
  {
    if out == [] then []
    else (if out[0].OnError? then [out[0].message] else []) + ErrorMessages(out[1..])
  }

  /** The `onResults` payloads of a stream, in order. */
  function Transcripts(out: seq<OutEvent>): seq<(string, bool)>
    decreases |out|
  {
    if out == [] then []
    else (if out[0].OnResults? then [(out[0].text, out[0].isFinal)] else []) + Transcripts(out[1..])
  }

  /** The `onRmsChanged` payloads of a stream, in order. */
  function RmsLevels(out: seq<OutEvent>): seq<RmsLevel>
    decreases |out|
  {
    if out == [] then []
    else (if out[0].OnRmsChanged? then [out[0].rmsdB] else []) + RmsLevels(out[1..])
  }

  /** The status a callback reports: ready, end of speech and every error. */
  function StatusReport(cb: Callback): seq<string> {
    match cb
    case ReadyForSpeech => [LISTENING]
    case EndOfSpeech => [PROCESSING]
    case Error(_) => [FAILED]
    case _ => []
  }

  /** The message an error callback reports. */
  function ErrorReport(cb: Callback): seq<string> {
    if cb.Error? then [ErrorText(cb.error)] else []
  }

  /** The top-ranked candidate of a non-empty result list, with its finality. */
  function TopCandidate(cb: Callback): seq<(string, bool)> {
    match cb
    case Results(Some(m)) => if |m| > 0 then [(m[0], true)] else []
    case PartialResults(Some(m)) => if |m| > 0 then [(m[0], false)] else []
    case _ => []
  }

  /** The volume level an `onRmsChanged` callback reports. */
  function RmsReport(cb: Callback): seq<RmsLevel> {
    if cb.RmsChanged? then [cb.rmsdB] else []
  }

  function StatusReports(cbs: seq<Callback>): seq<string>
    decreases |cbs|
  {
    if cbs == [] then [] else StatusReport(cbs[0]) + StatusReports(cbs[1..])
  }

  function ErrorReports(cbs: seq<Callback>): seq<string>
    decreases |cbs|
  {
    if cbs == [] then [] else ErrorReport(cbs[0]) + ErrorReports(cbs[1..])
  }

  function TopCandidates(cbs: seq<Callback>): seq<(string, bool)>
    decreases |cbs|
  {
    if cbs == [] then [] else TopCandidate(cbs[0]) + TopCandidates(cbs[1..])
  }

  function RmsReports(cbs: seq<Callback>): seq<RmsLevel>
    decreases |cbs|
  {
    if cbs == [] then [] else RmsReport(cbs[0]) + RmsReports(cbs[1..])
  }

  lemma {:induction false} ProjectionsAppend(a: seq<OutEvent>, b: seq<OutEvent>)
    ensures Statuses(a + b) == Statuses(a) + Statuses(b)
    ensures ErrorMessages(a + b) == ErrorMessages(a) + ErrorMessages(b)
    ensures Transcripts(a + b) == Transcripts(a) + Transcripts(b)
    ensures RmsLevels(a + b) == RmsLevels(a) + RmsLevels(b)
    decreases |a|
  {
    if a != [] {
      assert (a + b)[1..] == a[1..] + b;
      ProjectionsAppend(a[1..], b);
    } else {
      assert a + b == b;
    }
  }

  /** What one callback pushes while attached, projected kind by kind. */
  lemma TranslateProjections(cb: Callback)
    ensures Statuses(Translate(cb, true)) == StatusReport(cb)
    ensures ErrorMessages(Translate(cb, true)) == ErrorReport(cb)
    ensures Transcripts(Translate(cb, true)) == TopCandidate(cb)
    ensures RmsLevels(Translate(cb, true)) == RmsReport(cb)
  {
    var out := Translate(cb, true);
    if cb.Error? {
      assert out == [OnError(ErrorText(cb.error)), OnStatus(FAILED)];
      assert out[1..] == [OnStatus(FAILED)];
      assert out[1..][1..] == [];
      assert Statuses(out[1..]) == [FAILED];
      assert ErrorMessages(out[1..]) == [];
      assert Transcripts(out[1..]) == [];
      assert RmsLevels(out[1..]) == [];
    } else if |out| == 1 {
      assert out[1..] == [];
    }
  }

  /**
   * Over any stream of callbacks delivered while attached, the status, error,
   * transcript and volume events pushed are exactly those the callbacks call for,
   * in the same order: only the rank-0 candidate of a non-empty list is sent.
   */
  lemma {:induction false} TranslateAllProjections(cbs: seq<Callback>)
    ensures Statuses(TranslateAll(cbs, true)) == StatusReports(cbs)
    ensures ErrorMessages(TranslateAll(cbs, true)) == ErrorReports(cbs)
    ensures Transcripts(TranslateAll(cbs, true)) == TopCandidates(cbs)
    ensures RmsLevels(TranslateAll(cbs, true)) == RmsReports(cbs)
    decreases |cbs|
  {
    if cbs != [] {
      ProjectionsAppend(Translate(cbs[0], true), TranslateAll(cbs[1..], true));
      TranslateProjections(cbs[0]);
      TranslateAllProjections(cbs[1..]);
    }
  }

  /** Every `onError` event is immediately followed by `onStatus("failed")`. */
  predicate ErrorsFollowedByFailure(out: seq<OutEvent>) {
    forall i :: 0 <= i < |out| && out[i].OnError? ==> i + 1 < |out| && out[i + 1] == OnStatus(FAILED)
  }

  lemma {:induction false} ErrorsFollowedByFailureInStream(cbs: seq<Callback>, attached: bool)
    ensures ErrorsFollowedByFailure(TranslateAll(cbs, attached))
    decreases |cbs|
  {
    if cbs != [] {
      var head, tail := Translate(cbs[0], attached), TranslateAll(cbs[1..], attached);
      ErrorsFollowedByFailureInStream(cbs[1..], attached);
      var out := head + tail;
      forall i | 0 <= i < |out| && out[i].OnError?
        ensures i + 1 < |out| && out[i + 1] == OnStatus(FAILED)
      {
        if i >= |head| {
          assert tail[i - |head|] == out[i];
        }
      }
    }
  }

  /** Callbacks that push nothing: begin of speech, buffers, engine events, absent or empty results. */
  predicate Silent(cb: Callback) {
    || cb.BeginningOfSpeech? || cb.BufferReceived? || cb.Event?
    || ((cb.Results? || cb.PartialResults?) && (cb.matches.None? || |cb.matches.value| == 0))
  }

  /** A silent callback can be dropped from any stream without changing what is pushed. */
  lemma {:induction false} SilentCallbackIgnored(cbs: seq<Callback>, i: nat, attached: bool)
    requires i < |cbs| && Silent(cbs[i])
    ensures TranslateAll(cbs, attached) == TranslateAll(cbs[..i] + cbs[i + 1..], attached)
    decreases i
  {
    if i == 0 {
      assert cbs[..0] + cbs[1..] == cbs[1..];
    } else {
      var rest := cbs[..i] + cbs[i + 1..];
      assert rest[0] == cbs[0];
      assert rest[1..] == cbs[1..][..i - 1] + cbs[1..][i..];
      SilentCallbackIgnored(cbs[1..], i - 1, attached);
    }
  }

  /** Once the Flutter engine is gone, no callback pushes anything. */
  lemma {:induction false} DetachedPushesNothing(cbs: seq<Callback>)
    ensures TranslateAll(cbs, false) == []
    decreases |cbs|
  {
    if cbs != [] {
      DetachedPushesNothing(cbs[1..]);
    }
  }

  /** Each callback pushes at most two events. */
  lemma {:induction false} StreamLengthBound(cbs: seq<Callback>, attached: bool)
    ensures |TranslateAll(cbs, attached)| <= 2 * |cbs|
    decreases |cbs|
  {
    if cbs != [] {
      StreamLengthBound(cbs[1..], attached);
    }
  }

  /** The engine returns partial ["cat", "cats"] and then final ["cats", "cat food"]. */
  lemma RankZeroExample()
    ensures Transcripts(TranslateAll([PartialResults(Some(["cat", "cats"])), Results(Some(["cats", "cat food"]))], true))
         == [("cat", false), ("cats", true)]
  {
    TranslateAllProjections([PartialResults(Some(["cat", "cats"])), Results(Some(["cats", "cat food"]))]);
  }
}
