/**
 * The activity itself: the `speechRecognizer` and `recognitionIntent` fields
 * updated in place by the three channel commands and by `onDestroy`, the
 * outbound event stream the listener appends to, and the speech engine as an
 * object that records every call it receives. Each command is proved to do
 * exactly what the reference function of `RecognizerSession` says, so the
 * lemmas proved there hold of the activity.
 */
module VoiceActivity {
  import opened Options
  import opened RecognizerSession
  import EventTranslation

  /** The Android speech engine, reduced to the calls it receives and the instances it creates. */
  class SpeechEngine {
    var log: seq<EngineCall>
    var created: nat

    constructor ()
      ensures log == [] && created == 0
    {
      log, created := [], 0;
    }

    /** `SpeechRecognizer.createSpeechRecognizer`: a new instance, numbered in creation order. */
    method CreateSpeechRecognizer() returns (h: Handle)
      modifies this
      ensures h == old(created) && created == old(created) + 1
      ensures log == old(log) + [Create(h)]
    {
      h := created;
      created := created + 1;
      log := log + [Create(h)];
    }

    method StopListening(h: Handle)
      modifies this
      ensures log == old(log) + [EngineCall.StopListening(h)] && created == old(created)
    {
      log := log + [EngineCall.StopListening(h)];
    }

    method Cancel(h: Handle)
      modifies this
      ensures log == old(log) + [EngineCall.Cancel(h)] && created == old(created)
    {
      log := log + [EngineCall.Cancel(h)];
    }

    method Destroy(h: Handle)
      modifies this
      ensures log == old(log) + [EngineCall.Destroy(h)] && created == old(created)
    {
      log := log + [EngineCall.Destroy(h)];
    }

    method SetRecognitionListener(h: Handle)
      modifies this
      ensures log == old(log) + [EngineCall.SetRecognitionListener(h)] && created == old(created)
    {
      log := log + [EngineCall.SetRecognitionListener(h)];
    }

    method StartListening(h: Handle, intent: RecognitionIntent)
      modifies this
      ensures log == old(log) + [EngineCall.StartListening(h, intent)] && created == old(created)
    {
      log := log + [EngineCall.StartListening(h, intent)];
    }
  }

  /** Whether the engine call numbered `made` is the one that throws. */
  predicate Strikes(fault: Option<Fault>, made: nat) {
    fault.Some? && fault.value.call == made
  }

  class MainActivity {
    var speechRecognizer: Option<Handle>
    var recognitionIntent: Option<RecognitionIntent>
    /** Everything pushed to Flutter so far, in order. */
    var outbound: seq<EventTranslation.OutEvent>
    const engine: SpeechEngine

    /** The fields and the engine's record, as a value. */
    function State(): World
      reads this, engine
    {
      World(speechRecognizer, recognitionIntent, engine.log, engine.created)
    }

    predicate Valid()
      reads this, engine
    {
      Inv(State())
    }

    constructor ()
      ensures Valid() && State() == Initial && outbound == []
      ensures fresh(engine)
    {
      speechRecognizer := None;
      recognitionIntent := None;
      outbound := [];
      engine := new SpeechEngine();
    }

    /**
     * The clean-start teardown inside the `try` of `startListening`: stop,
     * cancel and destroy the current instance, if any, then clear the field.
     * `made` counts the calls that completed; `thrown` says one of them threw,
     * in which case the field still holds the old instance.
     */
    method ReleaseRecognizer(fault: Option<Fault>) returns (made: nat, thrown: bool)
      modifies this`speechRecognizer, engine
      ensures var teardown := Teardown(old(speechRecognizer));
              && made == Completed(fault, |teardown|)
              && (thrown <==> made < |teardown|)
              && engine.log == old(engine.log) + teardown[..made]
              && engine.created == old(engine.created)
              && speechRecognizer == if thrown then old(speechRecognizer) else None
    {
      made, thrown := 0, false;
      if speechRecognizer.Some? {
        var it := speechRecognizer.value;
        if Strikes(fault, made) { return made, true; }
        engine.StopListening(it);
        made := made + 1;
        if Strikes(fault, made) { return made, true; }
        engine.Cancel(it);
        made := made + 1;
        if Strikes(fault, made) { return made, true; }
        engine.Destroy(it);
        made := made + 1;
      }
      assert engine.log == old(engine.log) + Teardown(old(speechRecognizer))[..made];
      speechRecognizer := None;
    }

    /**
     * The rest of the `try` of `startListening`: create a fresh instance, put
     * it in the field with a fresh intent, register the listener and start
     * listening. `offset` engine calls were already made by this start.
     */
    method BeginSession(sdkAtLeastM: bool, fault: Option<Fault>, offset: nat) returns (reply: Reply)
      requires speechRecognizer == None
      modifies this`speechRecognizer, this`recognitionIntent, engine
      ensures var intent := BuildIntent(sdkAtLeastM);
              var begin := Begin(old(engine.created), intent);
              var k := Completed(Shift(fault, offset), |begin|);
              && engine.log == old(engine.log) + begin[..k]
              && engine.created == (if k > 0 then old(engine.created) + 1 else old(engine.created))
              && speechRecognizer == (if k > 0 then Some(old(engine.created)) else None)
              && recognitionIntent == (if k > 0 then Some(intent) else old(recognitionIntent))
              && reply == if k < 3 then InitFailed(fault.value.message) else Success(true)
    {
      ghost var begin := Begin(engine.created, BuildIntent(sdkAtLeastM));
      if Strikes(fault, offset) { return InitFailed(fault.value.message); }
      var instance := engine.CreateSpeechRecognizer();
      speechRecognizer := Some(instance);
      recognitionIntent := Some(BuildIntent(sdkAtLeastM));
      assert engine.log == old(engine.log) + begin[..1];
      if Strikes(fault, offset + 1) { return InitFailed(fault.value.message); }
      engine.SetRecognitionListener(speechRecognizer.value);
      assert engine.log == old(engine.log) + begin[..2];
      if Strikes(fault, offset + 2) { return InitFailed(fault.value.message); }
      engine.StartListening(speechRecognizer.value, recognitionIntent.value);
      assert engine.log == old(engine.log) + begin[..3];
      reply := Success(true);
    }

    /**
     * `startListening`: the permission check, then the clean start inside one
     * `try`; every engine call may be the one that throws, and a throw ends the
     * start with INIT_FAILED. No outbound event is pushed.
     */
    method StartListening(permissionGranted: bool, sdkAtLeastM: bool, fault: Option<Fault>) returns (reply: Reply)
      requires Valid()
      modifies this, engine
      ensures Outcome(State(), reply) == StartCommand(old(State()), permissionGranted, sdkAtLeastM, fault)
      ensures Valid()
      ensures outbound == old(outbound)
    {
      ghost var w := State();
      StartPreservesInv(w, permissionGranted, sdkAtLeastM, fault);
      if !permissionGranted {
        return PERMISSION_DENIED;
      }
      StartComposes(w, sdkAtLeastM, fault);
      var made, thrown := ReleaseRecognizer(fault);
      if thrown {
        reply := InitFailed(fault.value.message);
      } else {
        reply := BeginSession(sdkAtLeastM, fault, made);
      }
    }

    /** `stopListening`: a stop to the current instance, if any; always success. */
    method StopListening() returns (reply: Reply)
      requires Valid()
      modifies engine
      ensures Valid()
      ensures Outcome(State(), reply) == StopCommand(old(State()))
    {
      StopProperties(State());
      if speechRecognizer.Some? {
        engine.StopListening(speechRecognizer.value);
      }
      reply := Success(true);
    }

    /** `cancelListening`: a cancel to the current instance, if any; always success. */
    method CancelListening() returns (reply: Reply)
      requires Valid()
      modifies engine
      ensures Valid()
      ensures Outcome(State(), reply) == CancelCommand(old(State()))
    {
      CancelProperties(State());
      if speechRecognizer.Some? {
        engine.Cancel(speechRecognizer.value);
      }
      reply := Success(true);
    }

    /** `onDestroy`: destroys the current instance, if any, and leaves the field as it is. */
    method OnDestroy()
      requires Valid()
      modifies engine
      ensures Valid()
      ensures State() == DestroyActivity(old(State()))
    {
      DestroyProperties(State());
      if speechRecognizer.Some? {
        engine.Destroy(speechRecognizer.value);
      }
    }

    /**
     * The registered listener receiving one engine callback on the UI thread:
     * the translated events are appended to the outbound stream. `attached`
     * says whether the Flutter engine is still there to send through.
     */
    method OnRecognitionCallback(cb: EventTranslation.Callback, attached: bool)
      modifies this`outbound
      ensures outbound == old(outbound) + EventTranslation.Translate(cb, attached)
    {
      outbound := outbound + EventTranslation.Translate(cb, attached);
    }
  }
}
