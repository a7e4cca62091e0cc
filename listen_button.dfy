/**
  Model of the listen-button state machine of the AVS Java sample client (class AVSApp).

  The button is START (idle), STOP (recording; a second press stops it) or PROCESSING (recording
  stopped, the request still in flight). `wake()` is driven by the wake-word detector, and the
  request listener it hands to the controller calls back with success or error. Every call the
  app makes on its AVSController is recorded as a ControllerCall.
*/
module ListenButton {
  import opened Wrappers

  datatype ButtonState = Start | Stop | Processing

  /** The AVSController calls made by the listen button. */
  datatype ControllerCall = UserActivity | StartRecording | StopRecording | ProcessingFinished

  /** The state reached and the controller calls made, in order, by one operation. */
  datatype Step = Step(state: ButtonState, calls: seq<ControllerCall>)

  function Count(calls: seq<ControllerCall>, c: ControllerCall): nat
  {
    if calls == [] then 0
    else (if calls[0] == c then 1 else 0) + Count(calls[1..], c)
  }

  lemma {:induction false} CountAppend(a: seq<ControllerCall>, b: seq<ControllerCall>, c: ControllerCall)
    ensures Count(a + b, c) == Count(a, c) + Count(b, c)
    decreases |a|
  {
    if a != [] {
      assert (a + b)[1..] == a[1..] + b;
      CountAppend(a[1..], b, c);
    } else {
      assert a + b == b;
    }
  }

  /** `wake()`: report user activity; from START begin a recording, otherwise stop it. */
  function WakeStep(s: ButtonState): (r: Step)
    ensures |r.calls| > 0 && r.calls[0] == UserActivity && Count(r.calls, UserActivity) == 1
    ensures Count(r.calls, ProcessingFinished) == 0
    ensures s == Start ==>
              r.state == Stop && Count(r.calls, StartRecording) == 1 && Count(r.calls, StopRecording) == 0
    ensures s != Start ==>
              r.state == Processing && Count(r.calls, StartRecording) == 0 && Count(r.calls, StopRecording) == 1
  {
    if s == Start then Step(Stop, [UserActivity, StartRecording])
    else Step(Processing, [UserActivity, StopRecording])
  }

  /** `finishProcessing()`, run after the operation `before`. */
  function FinishAfter(before: Step): (r: Step)
    ensures r.state == Start
    ensures Count(r.calls, ProcessingFinished) == Count(before.calls, ProcessingFinished) + 1
    ensures forall c :: c != ProcessingFinished ==> Count(r.calls, c) == Count(before.calls, c)
  {
    CountAppend(before.calls, [ProcessingFinished], ProcessingFinished);
    forall c | c != ProcessingFinished
      ensures Count(before.calls + [ProcessingFinished], c) == Count(before.calls, c)
    {
      CountAppend(before.calls, [ProcessingFinished], c);
    }
    Step(Start, before.calls + [ProcessingFinished])
  }

  /** The request listener's `onRequestSuccess()`: if still recording, wake (which stops the
      recording, it does not start a new one); then finish processing. */
  function RequestSuccessStep(s: ButtonState): (r: Step)
    ensures r.state == Start && Count(r.calls, ProcessingFinished) == 1
    ensures Count(r.calls, StartRecording) == 0
    ensures s == Stop ==> Count(r.calls, StopRecording) == 1 && Count(r.calls, UserActivity) == 1
    ensures s != Stop ==> r.calls == [ProcessingFinished]
  {
    FinishAfter(if s == Stop then WakeStep(s) else Step(s, []))
  }

  /** The request listener's `onRequestError(e)`: wake, then finish processing. */
  function RequestErrorStep(s: ButtonState): (r: Step)
    ensures r.state == Start && Count(r.calls, ProcessingFinished) == 1
    ensures Count(r.calls, UserActivity) == 1
    ensures s != Start ==> Count(r.calls, StopRecording) == 1 && Count(r.calls, StartRecording) == 0
    ensures s == Start ==> Count(r.calls, StartRecording) == 1 && Count(r.calls, StopRecording) == 0
  {
    FinishAfter(WakeStep(s))
  }

  /** The events the environment delivers to the app. */
  datatype Event = WakeWordDetected | RequestSuccess | RequestError

  function Apply(s: ButtonState, e: Event): Step
  {
    match e
    case WakeWordDetected => WakeStep(s)
    case RequestSuccess => RequestSuccessStep(s)
    case RequestError => RequestErrorStep(s)
  }

  /** The events in order, starting in `s`: the final state and all controller calls. */
  function Run(s: ButtonState, events: seq<Event>): Step
    decreases |events|
  {
    if events == [] then Step(s, [])
    else
      var first := Apply(s, events[0]);
      var rest := Run(first.state, events[1..]);
      Step(rest.state, first.calls + rest.calls)
  }

  /** Whether a recording is open after `calls` when `open` says whether one was open before;
      None when startRecording is issued while a recording is still open (overlapping captures). */
  function CaptureAfter(open: bool, calls: seq<ControllerCall>): Option<bool>
    decreases |calls|
  {
    if calls == [] then Some(open)
    else match calls[0]
      case StartRecording => if open then None else CaptureAfter(true, calls[1..])
      case StopRecording => CaptureAfter(false, calls[1..])
      case _ => CaptureAfter(open, calls[1..])
  }

  lemma {:induction false} CaptureAfterAppend(open: bool, a: seq<ControllerCall>, b: seq<ControllerCall>)
    ensures CaptureAfter(open, a + b) ==
            match CaptureAfter(open, a)
            case None => None
            case Some(o) => CaptureAfter(o, b)
    decreases |a|
  {
    if a != [] {
      assert (a + b)[1..] == a[1..] + b;
      var o := if a[0] == StartRecording then true else if a[0] == StopRecording then false else open;
      if !(a[0] == StartRecording && open) {
        CaptureAfterAppend(o, a[1..], b);
      }
    } else {
      assert a + b == b;
    }
  }

  /** The environment's protocol: an error callback arrives only while a request is outstanding,
      that is while the button is not START. */
  predicate Admissible(s: ButtonState, events: seq<Event>)
    decreases |events|
  {
    events == [] ||
    ((events[0] == RequestError ==> s != Start) && Admissible(Apply(s, events[0]).state, events[1..]))
  }

  /** Under that protocol, a recording is open exactly while the button is STOP, and no
      startRecording is ever issued while a recording is open: captures never overlap. */
  lemma {:induction false} CapturesNeverOverlap(s: ButtonState, events: seq<Event>)
    requires Admissible(s, events)
    ensures CaptureAfter(s == Stop, Run(s, events).calls) == Some(Run(s, events).state == Stop)
    decreases |events|
  {
    if events != [] {
      var first := Apply(s, events[0]);
      EventKeepsCaptureInvariant(s, events[0]);
      CapturesNeverOverlap(first.state, events[1..]);
      CaptureAfterAppend(s == Stop, first.calls, Run(first.state, events[1..]).calls);
    }
  }

  /** One admissible event keeps "a recording is open exactly while the button is STOP". */
  lemma EventKeepsCaptureInvariant(s: ButtonState, e: Event)
    requires e == RequestError ==> s != Start
    ensures CaptureAfter(s == Stop, Apply(s, e).calls) == Some(Apply(s, e).state == Stop)
  {
    var calls := Apply(s, e).calls;
    if e == RequestSuccess && s != Stop {
      assert calls == [ProcessingFinished];
    } else if e == WakeWordDetected {
      assert calls[1..] == [if s == Start then StartRecording else StopRecording];
    } else {
      // wake from STOP or PROCESSING, then finishProcessing
      assert calls == [UserActivity, StopRecording, ProcessingFinished];
      assert calls[1..] == [StopRecording, ProcessingFinished];
      assert calls[1..][1..] == [ProcessingFinished];
      assert CaptureAfter(false, [ProcessingFinished]) == Some(false);
    }
  }

  /** Outside that protocol: an error callback while the button is START starts a recording and
      leaves the button START, so the next wake starts a second, overlapping recording. */
  lemma ErrorCallbackWhileIdleOverlaps()
    ensures RequestErrorStep(Start).state == Start
    ensures CaptureAfter(false, RequestErrorStep(Start).calls) == Some(true)
    ensures CaptureAfter(false, Run(Start, [RequestError, WakeWordDetected]).calls) == None
  {
  }

  const ProvisionPath: string := "/provision/"

  /** The registration URL that `displayRegCode` shows: the service URL, "/provision/", the code. */
  function RegistrationUrl(serviceUrl: string, regCode: string): (url: string)
    ensures |url| == |serviceUrl| + |ProvisionPath| + |regCode|
    ensures url[..|serviceUrl|] == serviceUrl
    ensures url[|serviceUrl|..|serviceUrl| + |ProvisionPath|] == ProvisionPath
    ensures url[|serviceUrl| + |ProvisionPath|..] == regCode
  {
    serviceUrl + ProvisionPath + regCode
  }

  /** Reads the registration code back out of a URL built for `serviceUrl`. */
  function RegCodeOf(serviceUrl: string, url: string): Option<string>
  {
    var prefix := serviceUrl + ProvisionPath;
    if prefix <= url then Some(url[|prefix|..]) else None
  }

  /** The code shown can be recovered from the URL. */
  lemma RegCodeRoundTrip(serviceUrl: string, regCode: string)
    ensures RegCodeOf(serviceUrl, RegistrationUrl(serviceUrl, regCode)) == Some(regCode)
  {
  }

  /** Every URL starting with the service URL and "/provision/" is the URL of some code. */
  lemma RegistrationUrlOfRegCode(serviceUrl: string, url: string)
    requires RegCodeOf(serviceUrl, url).Some?
    ensures RegistrationUrl(serviceUrl, RegCodeOf(serviceUrl, url).value) == url
  {
  }

  /** An AVSApp object, as far as the listen button goes. */
  class AvsApp {
    const serviceUrl: string
    var buttonState: ButtonState
    var calls: seq<ControllerCall>

    /** The constructor ends in START, with no controller call from the button yet. */
    constructor (serviceUrl: string)
      ensures this.serviceUrl == serviceUrl && buttonState == Start && calls == []
    {
      this.serviceUrl := serviceUrl;
      buttonState := Start;
      calls := [];
    }

    method Wake()
      modifies this
      ensures buttonState == WakeStep(old(buttonState)).state
      ensures calls == old(calls) + WakeStep(old(buttonState)).calls
    {
      calls := calls + [UserActivity];
      if buttonState == Start {
        buttonState := Stop;
        calls := calls + [StartRecording];
      } else {
        buttonState := Processing;
        calls := calls + [StopRecording];
      }
    }

    method FinishProcessing()
      modifies this
      ensures buttonState == Start
      ensures calls == old(calls) + [ProcessingFinished]
    {
      buttonState := Start;
      calls := calls + [ProcessingFinished];
    }

    method OnRequestSuccess()
      modifies this
      ensures buttonState == RequestSuccessStep(old(buttonState)).state
      ensures calls == old(calls) + RequestSuccessStep(old(buttonState)).calls
    {
      if buttonState == Stop {
        Wake();
      }
      FinishProcessing();
    }

    method OnRequestError()
      modifies this
      ensures buttonState == RequestErrorStep(old(buttonState)).state
      ensures calls == old(calls) + RequestErrorStep(old(buttonState)).calls
    {
      Wake();
      FinishProcessing();
    }

    method OnWakeWordDetected()
      modifies this
      ensures buttonState == WakeStep(old(buttonState)).state
      ensures calls == old(calls) + WakeStep(old(buttonState)).calls
    {
      Wake();
    }

    /** `displayRegCode`: the URL the user is asked to visit. */
    method DisplayRegCode(regCode: string) returns (regUrl: string)
      ensures regUrl == RegistrationUrl(serviceUrl, regCode)
    {
      regUrl := RegistrationUrl(serviceUrl, regCode);
    }
  }
}
