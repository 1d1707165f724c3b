/**
 * The recognizer slot of `MainActivity` as a state machine over values.
 *
 * A `World` holds the activity's two fields (`speechRecognizer`,
 * `recognitionIntent`) together with what the speech engine has seen: the log
 * of calls it received and how many recognizers it has created so far (a
 * recognizer is named by its creation number). The command functions below are
 * the reference the imperative `MainActivity` is proved against; the lemmas say
 * what the source promises about them.
 */
module RecognizerSession {
  import opened Options

  /** One `SpeechRecognizer` instance, numbered by the engine in creation order. */
  type Handle = nat

  // `RecognizerIntent` constants the activity puts into its intent.
  const ACTION_RECOGNIZE_SPEECH := "android.speech.action.RECOGNIZE_SPEECH"
  const LANGUAGE_MODEL_FREE_FORM := "free_form"
  const MAX_RESULTS := 3

  /** The extras of the recognition `Intent`; `preferOffline` is `None` when the extra is absent. */
  datatype RecognitionIntent = RecognitionIntent(
    action: string,
    languageModel: string,
    partialResults: bool,
    maxResults: int,
    preferOffline: Option<bool>)

  /** A call the engine received, naming the instance it went to. */
  datatype EngineCall =
    | Create(h: Handle)
    | StopListening(h: Handle)
    | Cancel(h: Handle)
    | Destroy(h: Handle)
    | SetRecognitionListener(h: Handle)
    | StartListening(h: Handle, intent: RecognitionIntent)

  /** What a command sends back over `MethodChannel.Result`. */
  datatype Reply = Success(value: bool) | Error(code: string, message: Option<string>)

  const PERMISSION_DENIED := Error("PERMISSION_DENIED", Some("Microphone permission not granted"))

  function InitFailed(message: Option<string>): Reply {
    Error("INIT_FAILED", message)
  }

  /**
   * An exception thrown inside the `try` of `startListening`: the engine call
   * numbered `call` (from 0, in the order this start issues them) throws with
   * `message` (Kotlin's nullable `e.message`). The throwing call has no effect.
   */
  datatype Fault = Fault(call: nat, message: Option<string>)

  datatype World = World(
    recognizer: Option<Handle>,
    intent: Option<RecognitionIntent>,
    log: seq<EngineCall>,
    created: nat)

  datatype Outcome = Outcome(world: World, reply: Reply)

  const Initial := World(None, None, [], 0)

  /** The intent built for every session; the offline preference only from Android M on. */
  function BuildIntent(sdkAtLeastM: bool): (i: RecognitionIntent)
    ensures i.preferOffline.Some? <==> sdkAtLeastM
    ensures i.preferOffline != Some(false)
  {
    RecognitionIntent(ACTION_RECOGNIZE_SPEECH, LANGUAGE_MODEL_FREE_FORM, true, MAX_RESULTS,
                      if sdkAtLeastM then Some(true) else None)
  }

  /** The teardown of the instance in the slot, if any: stop, then cancel, then destroy. */
  function Teardown(slot: Option<Handle>): seq<EngineCall> {
    match slot
    case None => []
    case Some(h) => [StopListening(h), Cancel(h), Destroy(h)]
  }

  /** The start of a new instance: create it, register the listener, start listening. */
  function Begin(next: Handle, intent: RecognitionIntent): seq<EngineCall> {
    [Create(next), SetRecognitionListener(next), StartListening(next, intent)]
  }

  /** Every call of a clean start that runs to the end. */
  function CleanStart(slot: Option<Handle>, next: Handle, intent: RecognitionIntent): seq<EngineCall> {
    Teardown(slot) + Begin(next, intent)
  }

  /** How many of `total` calls complete before `fault` strikes. */
  function Completed(fault: Option<Fault>, total: nat): (n: nat)
    ensures n <= total
    ensures n < total <==> fault.Some? && fault.value.call < total
  {
    if fault.Some? && fault.value.call < total then fault.value.call else total
  }

  /** The fault as seen by the calls that come after the first `offset` ones. */
  function Shift(fault: Option<Fault>, offset: nat): Option<Fault> {
    if fault.Some? && fault.value.call >= offset then Some(Fault(fault.value.call - offset, fault.value.message))
    else None
  }

  /**
   * `startListening`: without the permission nothing happens but the denial;
   * otherwise the clean-start calls run until one throws. The slot keeps the
   * old instance while its teardown is incomplete, is empty once it is torn
   * down, and holds the new instance (with a fresh intent) once it exists.
   */
  function StartCommand(w: World, granted: bool, sdkAtLeastM: bool, fault: Option<Fault>): (o: Outcome) {
    if !granted then Outcome(w, PERMISSION_DENIED)
    else
      var intent := BuildIntent(sdkAtLeastM);
      var calls := CleanStart(w.recognizer, w.created, intent);
      var teardown := |Teardown(w.recognizer)|;
      var n := Completed(fault, |calls|);
      var made := n > teardown;
      Outcome(
        World(
          if n < teardown then w.recognizer else if made then Some(w.created) else None,
          if made then Some(intent) else w.intent,
          w.log + calls[..n],
          if made then w.created + 1 else w.created),
        if n < |calls| then InitFailed(fault.value.message) else Success(true))
  }

  /** The one call a forwarding command sends to the slot's instance, if there is one. */
  function Forward(slot: Option<Handle>, call: Handle -> EngineCall): seq<EngineCall> {
    match slot
    case None => []
    case Some(h) => [call(h)]
  }

  /** `stopListening`: forwards a stop to the current instance and always succeeds. */
  function StopCommand(w: World): (o: Outcome) {
    Outcome(w.(log := w.log + Forward(w.recognizer, (h: Handle) => StopListening(h))), Success(true))
  }

  /** `cancelListening`: forwards a cancel to the current instance and always succeeds. */
  function CancelCommand(w: World): (o: Outcome) {
    Outcome(w.(log := w.log + Forward(w.recognizer, (h: Handle) => Cancel(h))), Success(true))
  }

  /** `onDestroy`: destroys the current instance; the slot is not cleared. */
  function DestroyActivity(w: World): (w': World) {
    w.(log := w.log + Forward(w.recognizer, (h: Handle) => Destroy(h)))
  }

  // ---- What the call log says about the instances ----

  function Init(log: seq<EngineCall>): seq<EngineCall>
    requires log != []
  {
    log[..|log| - 1]
  }

  function Last(log: seq<EngineCall>): EngineCall
    requires log != []
  {
    log[|log| - 1]
  }

  /** The instances the engine created. */
  function Created(log: seq<EngineCall>): set<Handle>
    decreases |log|
  {
    if log == [] then {} else Created(Init(log)) + (if Last(log).Create? then {Last(log).h} else {})
  }

  /** The instances that received `destroy`. */
  function Destroyed(log: seq<EngineCall>): set<Handle>
    decreases |log|
  {
    if log == [] then {} else Destroyed(Init(log)) + (if Last(log).Destroy? then {Last(log).h} else {})
  }

  /** The instances that have the bridge's listener. */
  function Registered(log: seq<EngineCall>): set<Handle>
    decreases |log|
  {
    if log == [] then {} else Registered(Init(log)) + (if Last(log).SetRecognitionListener? then {Last(log).h} else {})
  }

  /** The instances created and not yet destroyed. */
  function Live(log: seq<EngineCall>): set<Handle> {
    Created(log) - Destroyed(log)
  }

  /**
   * Whether `c` may follow the calls `before`: an instance is created once,
   * gets its listener while live, is started only live and with the listener
   * in place, and every other call goes to an instance that exists.
   */
  predicate Allowed(before: seq<EngineCall>, c: EngineCall) {
    match c
    case Create(h) => h !in Created(before)
    case SetRecognitionListener(h) => h in Live(before)
    case StartListening(h, _) => h in Live(before) && h in Registered(before)
    case _ => c.h in Created(before)
  }

  /** Every call of the log was allowed when it was made. */
  predicate Protocol(log: seq<EngineCall>)
    decreases |log|
  {
    log == [] || (Protocol(Init(log)) && Allowed(Init(log), Last(log)))
  }

  /**
   * The invariant of the slot: the log follows the protocol, numbers are
   * handed out in order, the slot names a created instance, and every live
   * instance is the one in the slot.
   */
  predicate Inv(w: World) {
    && Protocol(w.log)
    && (forall h :: h in Created(w.log) ==> h < w.created)
    && (forall h :: h in Destroyed(w.log) ==> h in Created(w.log))
    && (w.recognizer.Some? ==> w.recognizer.value in Created(w.log))
    && (forall h :: h in Live(w.log) ==> w.recognizer == Some(h))
  }

  lemma Snoc(log: seq<EngineCall>, c: EngineCall)
    ensures Init(log + [c]) == log && Last(log + [c]) == c
    ensures Created(log + [c]) == Created(log) + (if c.Create? then {c.h} else {})
    ensures Destroyed(log + [c]) == Destroyed(log) + (if c.Destroy? then {c.h} else {})
    ensures Registered(log + [c]) == Registered(log) + (if c.SetRecognitionListener? then {c.h} else {})
    ensures Protocol(log + [c]) <==> Protocol(log) && Allowed(log, c)
  {
    assert (log + [c])[..|log|] == log;
  }

  function SlotSet(slot: Option<Handle>): set<Handle> {
    if slot.Some? then {slot.value} else {}
  }

  /** What the first `m` teardown calls to an existing instance do to the log. */
  lemma {:induction false} TeardownPrefix(log: seq<EngineCall>, h: Handle, m: nat)
    requires Protocol(log) && h in Created(log) && m <= 3
    ensures var log' := log + Teardown(Some(h))[..m];
            && Protocol(log')
            && Created(log') == Created(log)
            && Registered(log') == Registered(log)
            && Destroyed(log') == Destroyed(log) + (if m == 3 then {h} else {})
    decreases m
  {
    var t := Teardown(Some(h));
    if m == 0 {
      assert log + t[..0] == log;
    } else {
      TeardownPrefix(log, h, m - 1);
      assert log + t[..m] == (log + t[..m - 1]) + [t[m - 1]];
      Snoc(log + t[..m - 1], t[m - 1]);
    }
  }

  /** What the first `k` calls starting a new instance do to the log. */
  lemma {:induction false} BeginPrefix(log: seq<EngineCall>, next: Handle, intent: RecognitionIntent, k: nat)
    requires Protocol(log) && next !in Created(log) && next !in Destroyed(log) && k <= 3
    ensures var log' := log + Begin(next, intent)[..k];
            && Protocol(log')
            && Created(log') == Created(log) + (if k > 0 then {next} else {})
            && Registered(log') == Registered(log) + (if k > 1 then {next} else {})
            && Destroyed(log') == Destroyed(log)
    decreases k
  {
    var b := Begin(next, intent);
    if k == 0 {
      assert log + b[..0] == log;
    } else {
      BeginPrefix(log, next, intent, k - 1);
      assert log + b[..k] == (log + b[..k - 1]) + [b[k - 1]];
      Snoc(log + b[..k - 1], b[k - 1]);
    }
  }

  /**
   * A permitted start is its teardown followed, when the teardown did not
   * throw, by the start of the new instance with the fault shifted past the teardown.
   */
  lemma StartComposes(w: World, sdkAtLeastM: bool, fault: Option<Fault>)
    ensures var teardown := Teardown(w.recognizer);
            var m := Completed(fault, |teardown|);
            var o := StartCommand(w, true, sdkAtLeastM, fault);
            && (m < |teardown| ==>
                  o == Outcome(w.(log := w.log + teardown[..m]), InitFailed(fault.value.message)))
            && (m == |teardown| ==>
                  var intent := BuildIntent(sdkAtLeastM);
                  var k := Completed(Shift(fault, m), |Begin(w.created, intent)|);
                  o == Outcome(
                         World(if k > 0 then Some(w.created) else None,
                               if k > 0 then Some(intent) else w.intent,
                               w.log + teardown + Begin(w.created, intent)[..k],
                               if k > 0 then w.created + 1 else w.created),
                         if k < 3 then InitFailed(fault.value.message) else Success(true)))
  {
    var teardown := Teardown(w.recognizer);
    if Completed(fault, |teardown|) < |teardown| {
      StartStopsInTeardown(w, sdkAtLeastM, fault);
    } else {
      StartReachesBegin(w, sdkAtLeastM, fault);
    }
  }

  lemma StartStopsInTeardown(w: World, sdkAtLeastM: bool, fault: Option<Fault>)
    requires Completed(fault, |Teardown(w.recognizer)|) < |Teardown(w.recognizer)|
    ensures var teardown := Teardown(w.recognizer);
            StartCommand(w, true, sdkAtLeastM, fault)
              == Outcome(w.(log := w.log + teardown[..fault.value.call]), InitFailed(fault.value.message))
  {
    var teardown := Teardown(w.recognizer);
    var calls := CleanStart(w.recognizer, w.created, BuildIntent(sdkAtLeastM));
    assert Completed(fault, |calls|) == fault.value.call;
    assert calls[..fault.value.call] == teardown[..fault.value.call];
  }

  lemma StartReachesBegin(w: World, sdkAtLeastM: bool, fault: Option<Fault>)
    requires Completed(fault, |Teardown(w.recognizer)|) == |Teardown(w.recognizer)|
    ensures var teardown := Teardown(w.recognizer);
            var intent := BuildIntent(sdkAtLeastM);
            var k := Completed(Shift(fault, |teardown|), |Begin(w.created, intent)|);
            StartCommand(w, true, sdkAtLeastM, fault)
              == Outcome(
                   World(if k > 0 then Some(w.created) else None,
                         if k > 0 then Some(intent) else w.intent,
                         w.log + teardown + Begin(w.created, intent)[..k],
                         if k > 0 then w.created + 1 else w.created),
                   if k < 3 then InitFailed(fault.value.message) else Success(true))
  {
    var teardown := Teardown(w.recognizer);
    var intent := BuildIntent(sdkAtLeastM);
    var begin := Begin(w.created, intent);
    var calls := CleanStart(w.recognizer, w.created, intent);
    var k := Completed(Shift(fault, |teardown|), |begin|);
    var n := Completed(fault, |calls|);
    assert n == |teardown| + k;
    assert calls[..n] == teardown + begin[..k];
    assert w.log + calls[..n] == w.log + teardown + begin[..k];
  }

  /** The instance sets of the log after a permitted start, by how far its two halves got. */
  lemma StartLogSets(w: World, sdkAtLeastM: bool, fault: Option<Fault>)
    requires Inv(w)
    ensures var td := |Teardown(w.recognizer)|;
            var m := Completed(fault, td);
            var k := if m < td then 0 else Completed(Shift(fault, m), 3);
            var log := StartCommand(w, true, sdkAtLeastM, fault).world.log;
            && Protocol(log)
            && Created(log) == Created(w.log) + (if k > 0 then {w.created} else {})
            && Registered(log) == Registered(w.log) + (if k > 1 then {w.created} else {})
            && Destroyed(log) == Destroyed(w.log) + (if m == td then SlotSet(w.recognizer) else {})
  {
    StartComposes(w, sdkAtLeastM, fault);
    var teardown := Teardown(w.recognizer);
    var m := Completed(fault, |teardown|);
    if w.recognizer.Some? {
      TeardownPrefix(w.log, w.recognizer.value, m);
    } else {
      assert w.log + teardown[..m] == w.log;
      assert w.log + teardown == w.log;
    }
    if m == |teardown| {
      assert teardown[..m] == teardown;
      var intent := BuildIntent(sdkAtLeastM);
      var k := Completed(Shift(fault, m), |Begin(w.created, intent)|);
      BeginPrefix(w.log + teardown, w.created, intent, k);
    }
  }

  // ---- Properties of the commands ----

  /** A denied start replies PERMISSION_DENIED and changes nothing, the engine included. */
  lemma StartWithoutPermission(w: World, sdkAtLeastM: bool, fault: Option<Fault>)
    ensures StartCommand(w, false, sdkAtLeastM, fault) == Outcome(w, PERMISSION_DENIED)
  {
  }

  /**
   * Clean start: what a permitted start sends the engine is a prefix of
   * stop, cancel and destroy to the old instance, then create, listener and
   * start of the new one; the slot is empty when creation is the call that failed.
   */
  lemma CleanStartOrder(w: World, sdkAtLeastM: bool, fault: Option<Fault>)
    ensures var o := StartCommand(w, true, sdkAtLeastM, fault);
            var delta := o.world.log[|w.log|..];
            && w.log <= o.world.log
            && delta <= CleanStart(w.recognizer, w.created, BuildIntent(sdkAtLeastM))
            && (|delta| == |Teardown(w.recognizer)| && o.reply.Error? ==> o.world.recognizer == None)
  {
    var calls := CleanStart(w.recognizer, w.created, BuildIntent(sdkAtLeastM));
    var o := StartCommand(w, true, sdkAtLeastM, fault);
    var n := Completed(fault, |calls|);
    assert o.world.log == w.log + calls[..n];
    assert o.world.log[|w.log|..] == calls[..n];
  }

  /**
   * A start succeeds exactly when it is permitted and no call throws; then the
   * whole clean start ran (so the listener was set before listening began),
   * the slot holds the freshly created instance and it is the only live one.
   */
  lemma StartSuccess(w: World, granted: bool, sdkAtLeastM: bool, fault: Option<Fault>)
    requires Inv(w)
    ensures var o := StartCommand(w, granted, sdkAtLeastM, fault);
            var intent := BuildIntent(sdkAtLeastM);
            var calls := CleanStart(w.recognizer, w.created, intent);
            && (o.reply.Success? <==> granted && (fault.None? || fault.value.call >= |calls|))
            && (o.reply.Success? ==>
                  && o.reply == Success(true)
                  && o.world.log == w.log + calls
                  && w.created !in Created(w.log)
                  && o.world.recognizer == Some(w.created)
                  && o.world.intent == Some(intent)
                  && Live(o.world.log) == {w.created})
  {
    var o := StartCommand(w, granted, sdkAtLeastM, fault);
    var calls := CleanStart(w.recognizer, w.created, BuildIntent(sdkAtLeastM));
    if granted {
      StartComposes(w, sdkAtLeastM, fault);
      StartLogSets(w, sdkAtLeastM, fault);
      var teardown := Teardown(w.recognizer);
      assert teardown[..|teardown|] == teardown;
      assert Begin(w.created, BuildIntent(sdkAtLeastM))[..3] == Begin(w.created, BuildIntent(sdkAtLeastM));
      if o.reply.Success? {
        StartPreservesInv(w, granted, sdkAtLeastM, fault);
        assert w.created in Live(o.world.log);
      }
    }
  }

  /**
   * A start whose call throws replies INIT_FAILED with the exception's message,
   * never success; once the teardown has completed the old instance is out of the slot.
   */
  lemma StartFailure(w: World, sdkAtLeastM: bool, f: Fault)
    requires Inv(w)
    requires f.call < |CleanStart(w.recognizer, w.created, BuildIntent(sdkAtLeastM))|
    ensures var o := StartCommand(w, true, sdkAtLeastM, Some(f));
            && o.reply == InitFailed(f.message)
            && (f.call < |Teardown(w.recognizer)| ==> o.world.recognizer == w.recognizer)
            && (w.recognizer.Some? && f.call >= |Teardown(w.recognizer)| ==> o.world.recognizer != w.recognizer)
  {
  }

  lemma StartPreservesInv(w: World, granted: bool, sdkAtLeastM: bool, fault: Option<Fault>)
    requires Inv(w)
    ensures Inv(StartCommand(w, granted, sdkAtLeastM, fault).world)
  {
    if granted {
      StartComposes(w, sdkAtLeastM, fault);
      StartLogSets(w, sdkAtLeastM, fault);
    }
  }

  /** The one call a forwarding command adds keeps the invariant and changes no set but `Destroyed`. */
  lemma ForwardEffects(w: World, call: Handle -> EngineCall)
    requires Inv(w)
    requires forall h :: !call(h).Create? && !call(h).SetRecognitionListener? && !call(h).StartListening? && call(h).h == h
    ensures var log := w.log + Forward(w.recognizer, call);
            && Protocol(log)
            && Created(log) == Created(w.log)
            && Registered(log) == Registered(w.log)
            && Destroyed(log) == Destroyed(w.log) + (if w.recognizer.Some? && call(w.recognizer.value).Destroy? then {w.recognizer.value} else {})
  {
    if w.recognizer.Some? {
      Snoc(w.log, call(w.recognizer.value));
    } else {
      assert w.log + [] == w.log;
    }
  }

  /**
   * `stopListening` replies success whether or not there is an instance; with
   * none it changes nothing, otherwise it adds exactly one stop to the current
   * instance; the slot is unchanged and the invariant kept.
   */
  lemma StopProperties(w: World)
    requires Inv(w)
    ensures var o := StopCommand(w);
            && o.reply == Success(true)
            && o.world.recognizer == w.recognizer && o.world.intent == w.intent
            && (w.recognizer.None? ==> o.world == w)
            && (w.recognizer.Some? ==> o.world.log == w.log + [StopListening(w.recognizer.value)])
            && Inv(o.world)
  {
    ForwardEffects(w, (h: Handle) => StopListening(h));
    assert w.log + [] == w.log;
  }

  /** `cancelListening`, with the same promises as `stopListening` for a cancel. */
  lemma CancelProperties(w: World)
    requires Inv(w)
    ensures var o := CancelCommand(w);
            && o.reply == Success(true)
            && o.world.recognizer == w.recognizer && o.world.intent == w.intent
            && (w.recognizer.None? ==> o.world == w)
            && (w.recognizer.Some? ==> o.world.log == w.log + [Cancel(w.recognizer.value)])
            && Inv(o.world)
  {
    ForwardEffects(w, (h: Handle) => Cancel(h));
    assert w.log + [] == w.log;
  }

  /** `onDestroy` leaves no live instance, keeps the slot and the invariant. */
  lemma DestroyProperties(w: World)
    requires Inv(w)
    ensures var w' := DestroyActivity(w);
            && Inv(w')
            && w'.recognizer == w.recognizer
            && Live(w'.log) == {}
  {
    ForwardEffects(w, (h: Handle) => Destroy(h));
  }

  /** Under the invariant at most one instance is live. */
  lemma AtMostOneLive(w: World)
    requires Inv(w)
    ensures |Live(w.log)| <= 1
  {
    if Live(w.log) != {} {
      var h :| h in Live(w.log);
      assert Live(w.log) == {h};
    }
  }

  // ---- Any sequence of commands ----

  datatype Command =
    | StartRequest(granted: bool, sdkAtLeastM: bool, fault: Option<Fault>)
    | StopRequest
    | CancelRequest
    | HostDestroy

  function Apply(w: World, c: Command): World {
    match c
    case StartRequest(granted, sdk, fault) => StartCommand(w, granted, sdk, fault).world
    case StopRequest => StopCommand(w).world
    case CancelRequest => CancelCommand(w).world
    case HostDestroy => DestroyActivity(w)
  }

  function Run(w: World, cmds: seq<Command>): World
    decreases |cmds|
  {
    if cmds == [] then w else Run(Apply(w, cmds[0]), cmds[1..])
  }

  lemma {:induction false} RunPreservesInv(w: World, cmds: seq<Command>)
    requires Inv(w)
    ensures Inv(Run(w, cmds))
    decreases |cmds|
  {
    if cmds != [] {
      match cmds[0] {
        case StartRequest(granted, sdk, fault) => StartPreservesInv(w, granted, sdk, fault);
        case StopRequest => StopProperties(w);
        case CancelRequest => CancelProperties(w);
        case HostDestroy => DestroyProperties(w);
      }
      RunPreservesInv(Apply(w, cmds[0]), cmds[1..]);
    }
  }

  /** From a fresh activity, whatever the commands, at most one recognizer is ever live. */
  lemma AlwaysAtMostOneLive(cmds: seq<Command>)
    ensures |Live(Run(Initial, cmds).log)| <= 1
  {
    RunPreservesInv(Initial, cmds);
    AtMostOneLive(Run(Initial, cmds));
  }

  /** Every call in a protocol-following log was allowed when made; in particular each start follows its listener. */
  lemma {:induction false} ProtocolAt(log: seq<EngineCall>, j: nat)
    requires Protocol(log) && j < |log|
    ensures Allowed(log[..j], log[j])
    decreases |log|
  {
    if j < |log| - 1 {
      assert Init(log)[..j] == log[..j];
      ProtocolAt(Init(log), j);
    }
  }
}
