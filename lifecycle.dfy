/**
 * The states and types of a capture device (the enums of CaptureDevice.java) and the
 * base class's pause/resume/stop rules as pure transition functions, with their properties.
 * The class in module Devices is proved to follow these functions.
 */
module Lifecycle {
  import opened Wrappers
  import Exceptions

  datatype State = Uninitialized | Initialized | Stopped | PreviewStarted | CaptureStarted | Paused

  datatype DeviceType = Unknown | Camera | Microphone | Fingerprint | Video

  /** The two state fields of the base device: mState and mPausedState. */
  datatype Phase = Phase(state: State, pausedState: State)

  /** A new device. */
  const Initial := Phase(Uninitialized, Uninitialized)

  /**
   * What one call does: the phase afterwards, the state passed to setState (and so broadcast
   * to every viewer) if setState was called, and the error code if the call threw.
   */
  datatype Step = Step(next: Phase, notified: Option<State>, thrown: Option<string>)

  /** The states a pause can be taken from, and so the only values mPausedState is given. */
  predicate Pausable(s: State) {
    s == PreviewStarted || s == CaptureStarted
  }

  /** CaptureDevice.pause */
  function BasePause(p: Phase): Step {
    match p.state
    case PreviewStarted | CaptureStarted => Step(Phase(Paused, p.state), Some(Paused), None)
    case Stopped => Step(p, None, Some(Exceptions.AlreadyStoppedErrorCode))
    case _ => Step(p, None, None)
  }

  /** CaptureDevice.resume */
  function BaseResume(p: Phase): Step {
    match p.state
    case Paused => Step(Phase(p.pausedState, p.pausedState), Some(p.pausedState), None)
    case Stopped => Step(p, None, Some(Exceptions.AlreadyStoppedErrorCode))
    case _ => Step(p, None, None)
  }

  /** CaptureDevice.stop */
  function BaseStop(p: Phase): Step {
    Step(Phase(Stopped, p.pausedState), Some(Stopped), None)
  }

  /** CaptureDevice.setState, as a subclass calls it. */
  function SetStateStep(p: Phase, s: State): Step {
    Step(Phase(s, p.pausedState), Some(s), None)
  }

  /** The calls that change a base device's phase. */
  datatype Call = Pause | Resume | Stop | SetState(state: State)

  function StepOf(p: Phase, c: Call): Step {
    match c
    case Pause => BasePause(p)
    case Resume => BaseResume(p)
    case Stop => BaseStop(p)
    case SetState(s) => SetStateStep(p, s)
  }

  /** The phase after a sequence of calls, the first call first. */
  function Run(p: Phase, calls: seq<Call>): Phase
    decreases |calls|
  {
    if calls == [] then p else Run(StepOf(p, calls[0]).next, calls[1..])
  }

  /** The remembered state only ever holds its initial value or a state a pause was taken from. */
  predicate RememberedOk(p: Phase) {
    p.pausedState == Uninitialized || Pausable(p.pausedState)
  }

  /** While paused by the base class, the remembered state is the state the pause left. */
  predicate PausedCoherent(p: Phase) {
    p.state == Paused ==> Pausable(p.pausedState)
  }

  /**
   * Every call except a subclass setState(PAUSED), the one call that enters PAUSED without
   * giving mPausedState a value.
   */
  predicate KeepsPauseRecord(c: Call) {
    c != SetState(Paused)
  }

  lemma PauseThenResume(p: Phase)
    requires Pausable(p.state)
    ensures BasePause(p).next.state == Paused && BasePause(p).notified == Some(Paused)
    ensures BaseResume(BasePause(p).next).next.state == p.state
    ensures BaseResume(BasePause(p).next).notified == Some(p.state)
  {
  }

  /** A second pause changes nothing and notifies nobody, whatever the first one did. */
  lemma PauseIdempotent(p: Phase)
    ensures BasePause(BasePause(p).next).next == BasePause(p).next
    ensures BasePause(BasePause(p).next).notified == None
  {
  }

  lemma StoppedRejectsPauseAndResume(p: Phase)
    requires p.state == Stopped
    ensures BasePause(p) == Step(p, None, Some(Exceptions.AlreadyStoppedErrorCode))
    ensures BaseResume(p) == Step(p, None, Some(Exceptions.AlreadyStoppedErrorCode))
  {
  }

  /** Pause from a state that is not started or stopped, and resume from any state but paused or stopped, do nothing. */
  lemma SilentNoOps(p: Phase)
    ensures p.state == Uninitialized || p.state == Initialized ==> BasePause(p) == Step(p, None, None)
    ensures p.state == Paused ==> BasePause(p) == Step(p, None, None)
    ensures p.state != Paused && p.state != Stopped ==> BaseResume(p) == Step(p, None, None)
  {
  }

  lemma StopFromAnyState(p: Phase)
    ensures BaseStop(p).next.state == Stopped && BaseStop(p).thrown == None
  {
  }

  /** Calls from the public API never throw except on a stopped device. */
  lemma OnlyStoppedThrows(p: Phase, c: Call)
    requires StepOf(p, c).thrown.Some?
    ensures p.state == Stopped && (c == Pause || c == Resume)
    ensures StepOf(p, c).next == p && StepOf(p, c).notified == None
  {
  }

  /** The remembered paused state is never PAUSED, whatever sequence of calls is made. */
  lemma {:induction false} RememberedNeverPaused(p: Phase, calls: seq<Call>)
    requires RememberedOk(p)
    ensures RememberedOk(Run(p, calls))
    ensures Run(p, calls).pausedState != Paused
    decreases |calls|
  {
    if calls != [] {
      RememberedNeverPaused(StepOf(p, calls[0]).next, calls[1..]);
    }
  }

  /**
   * Unless a subclass sets PAUSED directly, a paused device always remembers a state it can
   * return to, so resume never "restores" UNINITIALIZED.
   */
  lemma {:induction false} CallsKeepPausedCoherent(p: Phase, calls: seq<Call>)
    requires PausedCoherent(p)
    requires forall i :: 0 <= i < |calls| ==> KeepsPauseRecord(calls[i])
    ensures PausedCoherent(Run(p, calls))
    decreases |calls|
  {
    if calls != [] {
      CallsKeepPausedCoherent(StepOf(p, calls[0]).next, calls[1..]);
    }
  }

  /**
   * From a new device, resume after a pause lands in a pausable state, whatever calls led
   * there other than a subclass setState(PAUSED).
   */
  lemma ResumeRestoresStartedState(calls: seq<Call>)
    requires forall i :: 0 <= i < |calls| ==> KeepsPauseRecord(calls[i])
    requires Run(Initial, calls).state == Paused
    ensures Pausable(BaseResume(Run(Initial, calls)).next.state)
  {
    CallsKeepPausedCoherent(Initial, calls);
  }

  /** PAUSED is reachable that way: a subclass starts the preview, then the base pause runs. */
  lemma PausedIsReachable()
    ensures Run(Initial, [SetState(PreviewStarted), Pause]).state == Paused
    ensures BaseResume(Run(Initial, [SetState(PreviewStarted), Pause])).next.state == PreviewStarted
  {
  }
}
