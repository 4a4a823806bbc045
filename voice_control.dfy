/**
 * The push-to-talk control: a listening flag switched by one button, forced
 * off by recognition errors, and inert while no recogniser exists. The
 * browser's recogniser is represented only by the start and stop calls made
 * on it and by the transcripts its result events deliver.
 */
module VoiceControl {
  import opened Wrappers
  import opened SpeechTranscript

  /** A call the control makes on the recogniser. */
  datatype RecognizerCall = StartCall | StopCall

  /**
   * The control's state. `speechApiPresent` is whether the browser has a
   * speech recogniser at all; `hasRecognizer` is whether the mount effect
   * has created one; `calls` and `delivered` record, in order, the calls
   * made on it and the transcripts passed to the speech callback.
   */
  datatype VoiceState = VoiceState(
    speechApiPresent: bool,
    hasRecognizer: bool,
    isListening: bool,
    calls: seq<RecognizerCall>,
    delivered: seq<string>)

  /** The state on first render: no recogniser yet, not listening. */
  function Mounted(speechApiPresent: bool): (s: VoiceState)
    ensures s.speechApiPresent == speechApiPresent
    ensures !s.hasRecognizer && !s.isListening && s.calls == [] && s.delivered == []
  {
    VoiceState(speechApiPresent, false, false, [], [])
  }

  /** The mount effect: a recogniser exists afterwards exactly when the browser offers one. */
  function CreateRecognizer(s: VoiceState): (t: VoiceState)
    ensures t.hasRecognizer == (s.hasRecognizer || s.speechApiPresent)
    ensures t == s.(hasRecognizer := t.hasRecognizer)
  {
    if s.speechApiPresent then s.(hasRecognizer := true) else s
  }

  /**
   * The button: without a recogniser nothing happens; while listening it
   * stops the recogniser and clears the flag, otherwise it starts the
   * recogniser and sets the flag.
   */
  function Toggle(s: VoiceState): (t: VoiceState)
    ensures !s.hasRecognizer ==> t == s
    ensures s.hasRecognizer ==> t.isListening == !s.isListening
    ensures s.hasRecognizer ==> t.calls == s.calls + [if s.isListening then StopCall else StartCall]
    ensures t == s.(isListening := t.isListening, calls := t.calls)
  {
    if !s.hasRecognizer then s
    else if s.isListening then s.(isListening := false, calls := s.calls + [StopCall])
    else s.(isListening := true, calls := s.calls + [StartCall])
  }

  /** A recognition error: listening stops, whatever it was, and nothing else changes. */
  function RecognitionError(s: VoiceState): (t: VoiceState)
    ensures !t.isListening
    ensures t == s.(isListening := t.isListening)
  {
    s.(isListening := false)
  }

  /**
   * A result event carrying every result of the listening span so far: the
   * whole transcript is delivered, not what changed since the last event;
   * when some result has no alternative the handler throws and nothing is
   * delivered.
   */
  function ResultsReceived(s: VoiceState, results: seq<RecognitionResult>): (t: VoiceState)
    ensures Transcript(results).Some? ==> t.delivered == s.delivered + [Transcript(results).value]
    ensures Transcript(results).None? ==> t == s
    ensures t == s.(delivered := t.delivered)
  {
    match Transcript(results)
    case None => s
    case Some(text) => s.(delivered := s.delivered + [text])
  }

  /** Whether the control is drawn at all: only when active and when the browser offers speech recognition. */
  predicate RendersControls(s: VoiceState, isActive: bool) {
    isActive && s.speechApiPresent
  }

  /**
   * The recogniser is never stopped without having been started just before.
   * The calls of all recognisers the mount effect creates share this one log.
   */
  predicate NoStrayStop(calls: seq<RecognizerCall>) {
    forall i :: 0 <= i < |calls| && calls[i] == StopCall ==> 0 < i && calls[i - 1] == StartCall
  }

  /**
   * What every reachable state satisfies: a recogniser exists only where
   * the browser offers one, nothing is listening or called without one,
   * stops only ever follow starts, and while listening the last call was a
   * start.
   */
  predicate Consistent(s: VoiceState) {
    && (s.hasRecognizer ==> s.speechApiPresent)
    && (!s.hasRecognizer ==> !s.isListening && s.calls == [])
    && NoStrayStop(s.calls)
    && (s.isListening ==> s.calls != [] && s.calls[|s.calls| - 1] == StartCall)
  }

  datatype VoiceEvent =
    | RecognizerCreated
    | ButtonClicked
    | ErrorRaised
    | ResultsArrived(results: seq<RecognitionResult>)

  function VoiceStep(s: VoiceState, e: VoiceEvent): VoiceState {
    match e
    case RecognizerCreated => CreateRecognizer(s)
    case ButtonClicked => Toggle(s)
    case ErrorRaised => RecognitionError(s)
    case ResultsArrived(results) => ResultsReceived(s, results)
  }

  function VoiceRun(s: VoiceState, events: seq<VoiceEvent>): VoiceState
    decreases |events|
  {
    if events == [] then s else VoiceRun(VoiceStep(s, events[0]), events[1..])
  }

  lemma MountedConsistent(speechApiPresent: bool)
    ensures Consistent(Mounted(speechApiPresent))
  {
  }

  lemma ToggleKeepsConsistent(s: VoiceState)
    requires Consistent(s)
    ensures Consistent(Toggle(s))
  {
    var t := Toggle(s);
    if s.hasRecognizer {
      var n := |s.calls|;
      forall i | 0 <= i < |t.calls| && t.calls[i] == StopCall
        ensures 0 < i && t.calls[i - 1] == StartCall
      {
        if i < n {
          assert t.calls[i] == s.calls[i];
          if 0 < i { assert t.calls[i - 1] == s.calls[i - 1]; }
        }
      }
    }
  }

  lemma VoiceStepKeepsConsistent(s: VoiceState, e: VoiceEvent)
    requires Consistent(s)
    ensures Consistent(VoiceStep(s, e))
  {
    if e.ButtonClicked? {
      ToggleKeepsConsistent(s);
    }
  }

  lemma {:induction false} VoiceRunKeepsConsistent(s: VoiceState, events: seq<VoiceEvent>)
    requires Consistent(s)
    ensures Consistent(VoiceRun(s, events))
    decreases |events|
  {
    if events != [] {
      VoiceStepKeepsConsistent(s, events[0]);
      VoiceRunKeepsConsistent(VoiceStep(s, events[0]), events[1..]);
    }
  }

  /** Every state the control can reach from its first render is consistent. */
  lemma ReachableVoiceConsistent(speechApiPresent: bool, events: seq<VoiceEvent>)
    ensures Consistent(VoiceRun(Mounted(speechApiPresent), events))
  {
    MountedConsistent(speechApiPresent);
    VoiceRunKeepsConsistent(Mounted(speechApiPresent), events);
  }

  /**
   * Two presses in a row restore the listening flag, and the two calls
   * they make are a start and a stop in one order or the other.
   */
  lemma ToggleTwice(s: VoiceState)
    requires s.hasRecognizer
    ensures Toggle(Toggle(s)).isListening == s.isListening
    ensures Toggle(Toggle(s)).calls
         == s.calls + (if s.isListening then [StopCall, StartCall] else [StartCall, StopCall])
  {
  }

  /** A second error changes nothing more. */
  lemma RecognitionErrorIdempotent(s: VoiceState)
    ensures RecognitionError(RecognitionError(s)) == RecognitionError(s)
  {
  }

  /** Without browser support the control is not drawn, and a press could do nothing anyway. */
  lemma InertWithoutSpeechApi(s: VoiceState, isActive: bool)
    requires Consistent(s) && !s.speechApiPresent
    ensures !RendersControls(s, isActive)
    ensures Toggle(s) == s
  {
  }

  /**
   * Two result events of one listening span, the second with one more
   * result: the second delivery extends the first.
   */
  lemma DeliveriesExtend(s: VoiceState, results: seq<RecognitionResult>, x: RecognitionResult)
    requires Transcript(results + [x]).Some?
    ensures
      var t := ResultsReceived(ResultsReceived(s, results), results + [x]);
      && |t.delivered| == |s.delivered| + 2
      && t.delivered[|s.delivered|] <= t.delivered[|s.delivered| + 1]
  {
    TranscriptGrows(results, x);
  }

  /** The push-to-talk control as the object its handlers update in place. */
  class VoicePracticeMode {
    const speechApiPresent: bool
    var hasRecognizer: bool
    var isListening: bool
    var calls: seq<RecognizerCall>
    var delivered: seq<string>

    function State(): VoiceState
      reads this
    {
      VoiceState(speechApiPresent, hasRecognizer, isListening, calls, delivered)
    }

    ghost predicate Valid()
      reads this
    {
      Consistent(State())
    }

    constructor (speechApiPresent: bool)
      ensures Valid()
      ensures State() == Mounted(speechApiPresent)
    {
      this.speechApiPresent := speechApiPresent;
      hasRecognizer := false;
      isListening := false;
      calls := [];
      delivered := [];
    }

    /** The mount effect that creates the recogniser when the browser has one. */
    method SetUpRecognizer()
      requires Valid()
      modifies this
      ensures Valid()
      ensures hasRecognizer == (old(hasRecognizer) || speechApiPresent)
      ensures State() == CreateRecognizer(old(State()))
    {
      if speechApiPresent {
        hasRecognizer := true;
      }
    }

    method ToggleListening()
      requires Valid()
      modifies this
      ensures Valid()
      ensures !old(hasRecognizer) ==> State() == old(State())
      ensures old(hasRecognizer) && old(isListening) ==> !isListening && calls == old(calls) + [StopCall]
      ensures old(hasRecognizer) && !old(isListening) ==> isListening && calls == old(calls) + [StartCall]
      ensures State() == Toggle(old(State()))
    {
      if !hasRecognizer {
        return;
      }
      if isListening {
        calls := calls + [StopCall];
        isListening := false;
      } else {
        calls := calls + [StartCall];
        isListening := true;
      }
      ToggleKeepsConsistent(old(State()));
    }

    /** The recogniser's error handler. */
    method OnError()
      requires Valid()
      modifies this
      ensures Valid()
      ensures !isListening && calls == old(calls) && delivered == old(delivered)
      ensures State() == RecognitionError(old(State()))
    {
      isListening := false;
    }

    /** The recogniser's result handler, given every result of the span so far. */
    method OnResult(results: seq<RecognitionResult>)
      requires Valid()
      modifies this
      ensures Valid()
      ensures Transcript(results).Some? ==> delivered == old(delivered) + [Transcript(results).value]
      ensures Transcript(results).None? ==> delivered == old(delivered)
      ensures State() == ResultsReceived(old(State()), results)
    {
      var text := Transcript(results);
      if text.Some? {
        delivered := delivered + [text.value];
      }
    }
  }
}
