# Voice bridge of the visiaxx Android activity

`MainActivity` bridges the Flutter side of the app to Android's speech
recogniser. Three commands arrive over a method channel
(`startListening`, `stopListening`, `cancelListening`). The activity keeps one
nullable `SpeechRecognizer` field and one `Intent` field. A clean start stops,
cancels and destroys whatever instance the field holds, clears it, creates a
fresh instance, builds the recognition intent, registers a listener and starts
listening. The listener turns each engine callback into events pushed back to
Flutter (`onStatus`, `onError`, `onResults`, `onRmsChanged`). `getErrorText`
maps the engine's error codes to fixed messages. `onDestroy` destroys the
instance in the field.

The project has five modules:

- `Options` (options.dfy): Kotlin's nullable values as `Option`.
- `Decimal` (decimal.dfy): how a Kotlin `Int` is rendered in a string
  template, with a parser that reads it back.
- `EventTranslation` (event_translation.dfy): `getErrorText` and the
  listener, as functions. The lemmas are about whole callback streams: which
  status, error, transcript and volume events come out, and in which order.
- `RecognizerSession` (recognizer_session.dfy): the field and the engine's
  call log as values. `StartCommand`, `StopCommand`, `CancelCommand` and
  `DestroyActivity` are the reference functions. The lemmas cover ordering,
  freshness, replies, and an invariant (`Inv`) that makes the instance in the
  field the only live one.
- `VoiceActivity` (main_activity.dfy): the activity as a class whose methods
  update the two fields step by step, mirroring the Kotlin code. The engine is
  an object `SpeechEngine` that records every call it receives. Each command
  is proved to equal its reference function and to keep `Valid()`.

External inputs become parameters:

- The `RECORD_AUDIO` permission check is the boolean `permissionGranted`.
- The `Build.VERSION.SDK_INT >= M` check is the boolean `sdkAtLeastM`.
- Whether the activity still has a Flutter engine to send through is the
  boolean `attached`. This is the `flutterEngine?.dartExecutor?.binaryMessenger
  ?: return` in every handler.
- An exception inside the `try` of `startListening` is a `Fault(call,
  message)`: the engine call numbered `call` (counting from 0, in the order
  this start makes them) throws, and its message is the nullable `e.message`.
  A call that throws is taken to have no effect and is not logged.
- Engine instances are numbers handed out in creation order.

What the code does at its edges, as the model states it:

- A throw while tearing down the old instance ends the start with
  `INIT_FAILED`. The old instance then stays in the field. The errors are not
  swallowed.
- A throw after the new instance exists leaves that instance in the field.
- `stopListening` and `cancelListening` do not clear the field.
- `onDestroy` destroys the instance but does not clear the field.
- There is no session identity. A callback is translated whichever instance
  delivers it.

## Model

| member | source | states |
|---|---|---|
| `Decimal.NatToString` | android/app/src/main/kotlin/com/example/visiaxx/MainActivity.kt:176 | the digits of a code's magnitude are non-empty, all decimal digits, with no leading zero |
| `Decimal.IntToString` | android/app/src/main/kotlin/com/example/visiaxx/MainActivity.kt:176 | `$errorCode` is non-empty and starts with '-' exactly for negative codes |
| `Decimal.ParseIntToString` | android/app/src/main/kotlin/com/example/visiaxx/MainActivity.kt:176 | reading the rendered code back gives the code |
| `Decimal.IntToStringInjective` | android/app/src/main/kotlin/com/example/visiaxx/MainActivity.kt:176 | distinct codes render as distinct strings |
| `EventTranslation.ErrorText` | android/app/src/main/kotlin/com/example/visiaxx/MainActivity.kt:165-177 | reference for `getErrorText`: the nine fixed messages and "Unknown error: <code>"; properties in `ErrorTextKnownIff`, `ErrorTextRoundTrip`, `ErrorTextInjective` |
| `EventTranslation.ErrorTextKnownIff` | android/app/src/main/kotlin/com/example/visiaxx/MainActivity.kt:165-177 | a message starts with "Unknown error: " exactly when the code is none of the nine known `ERROR_*` codes |
| `EventTranslation.ErrorTextRoundTrip` | android/app/src/main/kotlin/com/example/visiaxx/MainActivity.kt:165-177 | every code's message, fixed or "Unknown error: <code>", determines the code |
| `EventTranslation.ErrorTextInjective` | android/app/src/main/kotlin/com/example/visiaxx/MainActivity.kt:165-177 | distinct codes never share a message |
| `EventTranslation.Translate` | android/app/src/main/kotlin/com/example/visiaxx/MainActivity.kt:76-141 | one callback pushes at most two events, nothing without a Flutter engine, and two exactly for an error |
| `EventTranslation.TranslateAll` | android/app/src/main/kotlin/com/example/visiaxx/MainActivity.kt:76-141 | reference for the listener over a callback stream; properties in `TranslateAllProjections`, `ErrorsFollowedByFailureInStream`, `SilentCallbackIgnored`, `DetachedPushesNothing`, `StreamLengthBound` |
| `EventTranslation.TranslateProjections` | android/app/src/main/kotlin/com/example/visiaxx/MainActivity.kt:77-140 | per callback: ready gives "listening", end of speech "processing", an error its `getErrorText` message and "failed", results and partial results the rank-0 candidate with isFinal true/false, rms its level, nothing else |
| `EventTranslation.TranslateAllProjections` | android/app/src/main/kotlin/com/example/visiaxx/MainActivity.kt:76-141 | over any callback stream, the pushed statuses, error messages, transcripts and volume levels are exactly those the callbacks call for, in order |
| `EventTranslation.ErrorsFollowedByFailureInStream` | android/app/src/main/kotlin/com/example/visiaxx/MainActivity.kt:102-111 | in any pushed stream every `onError` is immediately followed by `onStatus("failed")` |
| `EventTranslation.SilentCallbackIgnored` | android/app/src/main/kotlin/com/example/visiaxx/MainActivity.kt:84-140 | beginning of speech, buffers, engine events and absent or empty result lists can be dropped from a stream without changing what is pushed |
| `EventTranslation.DetachedPushesNothing` | android/app/src/main/kotlin/com/example/visiaxx/MainActivity.kt:77-140 | without a Flutter engine no callback pushes anything |
| `EventTranslation.StreamLengthBound` | android/app/src/main/kotlin/com/example/visiaxx/MainActivity.kt:76-141 | a stream of n callbacks pushes at most 2n events |
| `EventTranslation.RankZeroExample` | android/app/src/main/kotlin/com/example/visiaxx/MainActivity.kt:114-138 | partial ["cat","cats"] then final ["cats","cat food"] push ("cat", false) then ("cats", true) |
| `RecognizerSession.BuildIntent` | android/app/src/main/kotlin/com/example/visiaxx/MainActivity.kt:66-74 | the offline preference is present exactly from Android M on, and then it is true |
| `RecognizerSession.StartCommand` | android/app/src/main/kotlin/com/example/visiaxx/MainActivity.kt:46-149 | reference for `startListening`; properties in `StartWithoutPermission`, `CleanStartOrder`, `StartSuccess`, `StartFailure`, `StartPreservesInv` |
| `RecognizerSession.StopCommand` | android/app/src/main/kotlin/com/example/visiaxx/MainActivity.kt:151-156 | reference for `stopListening`; properties in `StopProperties` |
| `RecognizerSession.CancelCommand` | android/app/src/main/kotlin/com/example/visiaxx/MainActivity.kt:158-163 | reference for `cancelListening`; properties in `CancelProperties` |
| `RecognizerSession.DestroyActivity` | android/app/src/main/kotlin/com/example/visiaxx/MainActivity.kt:211-214 | reference for `onDestroy`; properties in `DestroyProperties` |
| `RecognizerSession.StartWithoutPermission` | android/app/src/main/kotlin/com/example/visiaxx/MainActivity.kt:49-52 | without the permission: reply PERMISSION_DENIED / "Microphone permission not granted", no engine call, neither field changed |
| `RecognizerSession.CleanStartOrder` | android/app/src/main/kotlin/com/example/visiaxx/MainActivity.kt:57-65 | a permitted start only appends to the log, and what it appends is a prefix of stop, cancel, destroy of the old instance followed by create; the field is empty when creation is the call that failed |
| `RecognizerSession.StartSuccess` | android/app/src/main/kotlin/com/example/visiaxx/MainActivity.kt:65-144 | success(true) exactly when permitted and nothing throws; then the whole clean start ran (listener before startListening), the field holds a never-seen instance with the new intent, and it is the only live one |
| `RecognizerSession.StartFailure` | android/app/src/main/kotlin/com/example/visiaxx/MainActivity.kt:54-146 | a throw replies INIT_FAILED with the exception's message, never success; during the teardown the old instance stays in the field, after line 62 it is gone from it |
| `RecognizerSession.StartPreservesInv` | android/app/src/main/kotlin/com/example/visiaxx/MainActivity.kt:46-149 | every start, permitted or not, failed or not, keeps the slot invariant |
| `RecognizerSession.StopProperties` | android/app/src/main/kotlin/com/example/visiaxx/MainActivity.kt:151-156 | always success(true); an empty field means no engine call; otherwise exactly one stop to the current instance; fields unchanged; invariant kept |
| `RecognizerSession.CancelProperties` | android/app/src/main/kotlin/com/example/visiaxx/MainActivity.kt:158-163 | always success(true); an empty field means no engine call; otherwise exactly one cancel to the current instance; fields unchanged; invariant kept |
| `RecognizerSession.DestroyProperties` | android/app/src/main/kotlin/com/example/visiaxx/MainActivity.kt:211-214 | after `onDestroy` no instance is live, the field is unchanged and the invariant kept |
| `RecognizerSession.AtMostOneLive` | android/app/src/main/kotlin/com/example/visiaxx/MainActivity.kt:23 | under the invariant at most one recogniser is live |
| `RecognizerSession.RunPreservesInv` | android/app/src/main/kotlin/com/example/visiaxx/MainActivity.kt:46-214 | any sequence of start, stop, cancel and destroy keeps the invariant |
| `RecognizerSession.AlwaysAtMostOneLive` | android/app/src/main/kotlin/com/example/visiaxx/MainActivity.kt:46-214 | from a fresh activity, whatever the commands, at most one recogniser is ever live |
| `RecognizerSession.ProtocolAt` | android/app/src/main/kotlin/com/example/visiaxx/MainActivity.kt:65-143 | in a reachable log every call was allowed when made: each instance is created once, and started only while live and after its listener was set |
| `VoiceActivity.MainActivity.constructor` | android/app/src/main/kotlin/com/example/visiaxx/MainActivity.kt:23-24 | both fields start null, the engine has seen no call, nothing is pushed |
| `VoiceActivity.MainActivity.ReleaseRecognizer` | android/app/src/main/kotlin/com/example/visiaxx/MainActivity.kt:57-62 | the old instance gets the prefix of stop, cancel, destroy that completes; the field is cleared only if none of them threw |
| `VoiceActivity.MainActivity.BeginSession` | android/app/src/main/kotlin/com/example/visiaxx/MainActivity.kt:65-144 | create, set the field and intent, set the listener, start listening, each call possibly throwing; success(true) only if all three complete |
| `VoiceActivity.MainActivity.StartListening` | android/app/src/main/kotlin/com/example/visiaxx/MainActivity.kt:46-149 | the new fields, engine log and reply are exactly `StartCommand` of the old state; `Valid()` kept; nothing pushed |
| `VoiceActivity.MainActivity.StopListening` | android/app/src/main/kotlin/com/example/visiaxx/MainActivity.kt:151-156 | the new state and reply are exactly `StopCommand` of the old state; `Valid()` kept |
| `VoiceActivity.MainActivity.CancelListening` | android/app/src/main/kotlin/com/example/visiaxx/MainActivity.kt:158-163 | the new state and reply are exactly `CancelCommand` of the old state; `Valid()` kept |
| `VoiceActivity.MainActivity.OnDestroy` | android/app/src/main/kotlin/com/example/visiaxx/MainActivity.kt:211-214 | the new state is exactly `DestroyActivity` of the old state; `Valid()` kept |
| `VoiceActivity.MainActivity.OnRecognitionCallback` | android/app/src/main/kotlin/com/example/visiaxx/MainActivity.kt:76-141 | the outbound stream grows by exactly the translation of the callback |

## Left out

- Method channel transport and dispatch (lines 26-44), including `notImplemented` for unknown method names. Commands are method calls and the outbound stream is a sequence that grows.
- `runOnUiThread` marshalling. Every command and callback is taken to run atomically, one after the other.
- Window and display setup: `onCreate`, `setupWindowInsets` and `onPostResume` (lines 180-209). These are presentation only.
- `super.onDestroy()` and the platform's own activity lifecycle.
- The Android `SpeechRecognizer` engine itself. It is reduced to the calls it receives.
- `ContextCompat.checkSelfPermission` and the SDK version check. They are boolean inputs.
- The Flutter engine lookups. Each callback takes one `attached` flag, so the two lookups in `onError` see the same engine.
- The `Intent` object. It is the record `RecognitionIntent` holding the four extras and the action.
- The `Float` payload of `onRmsChanged`. It is a `real` that is passed through untouched. No floating-point behaviour is modelled.
- The `Bundle` arguments of `onReadyForSpeech` and `onEvent`. The code never reads them.
- Null strings inside a result list. A candidate is always a string.
- Exceptions outside the `try`: from `stopListening`, `cancelListening` and `onDestroy`, and an exception thrown by `result.success` itself. Only exceptions thrown by engine calls inside the `try` are modelled.
- Exceptions from building the `Intent` and its `putExtra` calls (lines 66-74). Inside the `try` only engine calls are taken to throw.
- Whether an engine call that throws has partly taken effect. A throwing call is not logged.
