/**
 * The base capture device (CaptureDevice.java): its lifecycle fields, the registered viewers,
 * the state broadcast, and the pause/resume/stop rules of the base class.
 */
module Devices {
  import opened Wrappers
  import opened Lifecycle
  import opened Views
  import Exceptions

  /** A file saved by a device, with its media type (DefaultMediaType unless set). */
  datatype CaptureFile = CaptureFile(path: string, mediaType: string)

  const DefaultMediaType := "*/*"

  /** The notifications one setState(s) makes, one per registered viewer, in list order. */
  ghost function Announce(vs: seq<CaptureView>, s: State): seq<(CaptureView, State)> {
    seq(|vs|, i requires 0 <= i < |vs| => (vs[i], s))
  }

  /** The position of the first occurrence of x. */
  function IndexOf<T(==)>(xs: seq<T>, x: T): (i: nat)
    requires x in xs
    ensures i < |xs| && xs[i] == x
    ensures forall j :: 0 <= j < i ==> xs[j] != x
  {
    if xs[0] == x then 0 else 1 + IndexOf(xs[1..], x)
  }

  /** Vector.remove(Object): deletes the first occurrence, if any. */
  function RemoveFirst<T(==)>(xs: seq<T>, x: T): (r: seq<T>)
    ensures x !in xs ==> r == xs
    ensures x in xs ==> r == xs[..IndexOf(xs, x)] + xs[IndexOf(xs, x) + 1..]
  {
    if xs == [] then []
    else if xs[0] == x then xs[1..]
    else
      assert xs == [xs[0]] + xs[1..];
      [xs[0]] + RemoveFirst(xs[1..], x)
  }

  lemma ViewsOfPrefix(vs: seq<CaptureView>, i: nat)
    requires i < |vs|
    ensures FaceViews(vs[..i + 1]) == FaceViews(vs[..i]) + (if vs[i].FaceView? then {vs[i].view} else {})
  {
    var a, b := vs[..i + 1], vs[..i];
    forall w | w in FaceViews(a) ensures w in FaceViews(b) + (if vs[i].FaceView? then {vs[i].view} else {}) {
      var k :| 0 <= k < |a| && a[k].FaceView? && a[k].view == w;
      if k < i { assert b[k] == a[k]; }
    }
    forall w | w in FaceViews(b) ensures w in FaceViews(a) {
      var k :| 0 <= k < |b| && b[k].FaceView? && b[k].view == w;
      assert a[k] == b[k];
    }
    if vs[i].FaceView? { assert a[i] == vs[i]; }
  }

  lemma ViewsOfWhole(vs: seq<CaptureView>)
    ensures FaceViews(vs[..|vs|]) == FaceViews(vs)
  {
    assert vs[..|vs|] == vs;
  }

  class CaptureDevice {
    /** mViewerList, in registration order. */
    var viewers: seq<CaptureView>
    /** mCapturedFiles; None is null. */
    var capturedFiles: Option<seq<CaptureFile>>
    /** mState */
    var state: State
    /** mPausedState */
    var pausedState: State
    /** Every onStateChanged call made so far: the viewer and the state it was told about. */
    ghost var notifications: seq<(CaptureView, State)>

    ghost predicate Valid()
      reads this
    {
      RememberedOk(CurrentPhase())
    }

    function CurrentPhase(): Phase
      reads this
    {
      Lifecycle.Phase(state, pausedState)
    }

    /** setState(s) has told every registered viewer about s, in list order, and each FaceCaptureView reacted. */
    twostate predicate Broadcast(vs: seq<CaptureView>, s: State)
      reads this, FaceViews(vs)
    {
      && notifications == old(notifications) + Announce(vs, s)
      && forall v :: v in FaceViews(vs) ==>
           && v.faceUpdateCount == CountAfter(s, old(v.faceUpdateCount))
           && v.stopFaceDetectorLoop == StopAfter(s, old(v.stopFaceDetectorLoop))
    }

    /** No viewer was told anything. */
    twostate predicate Quiet(vs: seq<CaptureView>)
      reads this, FaceViews(vs)
    {
      && notifications == old(notifications)
      && forall v :: v in FaceViews(vs) ==>
           v.faceUpdateCount == old(v.faceUpdateCount) && v.stopFaceDetectorLoop == old(v.stopFaceDetectorLoop)
    }

    twostate predicate Reported(vs: seq<CaptureView>, n: Option<State>)
      reads this, FaceViews(vs)
    {
      if n.Some? then Broadcast(vs, n.value) else Quiet(vs)
    }

    /** A new device: UNINITIALIZED, remembering UNINITIALIZED, no viewers, no file list. */
    constructor ()
      ensures Valid()
      ensures CurrentPhase() == Initial
      ensures viewers == [] && capturedFiles == None && notifications == []
    {
      viewers := [];
      capturedFiles := None;
      state, pausedState := Uninitialized, Uninitialized;
      notifications := [];
    }

    /** The current state, as the last setState stored it. */
    function GetState(): (s: State)
      reads this
      ensures s == CurrentPhase().state
    {
      state
    }

    /** The number of saved files; a device that never saved any has a null list and reports 0. */
    function GetCapturedFileCount(): (n: nat)
      reads this
      ensures capturedFiles == None ==> n == 0
      ensures capturedFiles.Some? ==> n == |capturedFiles.value|
    {
      if capturedFiles.None? then 0 else |capturedFiles.value|
    }

    /** Stores the state and calls onStateChanged(s) on each registered viewer, in list order. */
    method SetState(s: State)
      requires Valid()
      modifies this, FaceViews(viewers)
      ensures Valid()
      ensures CurrentPhase() == SetStateStep(old(CurrentPhase()), s).next
      ensures viewers == old(viewers) && capturedFiles == old(capturedFiles)
      ensures Broadcast(old(viewers), s)
    {
      state := s;
      for i := 0 to |viewers|
        invariant state == s && pausedState == old(pausedState)
        invariant viewers == old(viewers) && capturedFiles == old(capturedFiles)
        invariant notifications == old(notifications) + Announce(viewers[..i], s)
        invariant forall v :: v in FaceViews(viewers) ==>
                    if v in FaceViews(viewers[..i]) then
                      v.faceUpdateCount == CountAfter(s, old(v.faceUpdateCount))
                      && v.stopFaceDetectorLoop == StopAfter(s, old(v.stopFaceDetectorLoop))
                    else
                      v.faceUpdateCount == old(v.faceUpdateCount)
                      && v.stopFaceDetectorLoop == old(v.stopFaceDetectorLoop)
      {
        ViewsOfPrefix(viewers, i);
        assert Announce(viewers[..i + 1], s) == Announce(viewers[..i], s) + [(viewers[i], s)];
        match viewers[i] {
          case FaceView(v) =>
            assert v in FaceViews(viewers);
            v.OnStateChanged(s);
          case OtherView(_, _, _, _) =>
        }
        notifications := notifications + [(viewers[i], s)];
      }
      ViewsOfWhole(viewers);
      assert viewers[..|viewers|] == viewers;
    }

    /** CaptureDevice.pause */
    method Pause() returns (thrown: Exceptions.AbstractException?)
      requires Valid()
      modifies this, FaceViews(viewers)
      ensures Valid()
      ensures CurrentPhase() == BasePause(old(CurrentPhase())).next
      ensures viewers == old(viewers) && capturedFiles == old(capturedFiles)
      ensures Reported(old(viewers), BasePause(old(CurrentPhase())).notified)
      ensures (thrown != null) == BasePause(old(CurrentPhase())).thrown.Some?
      ensures thrown != null ==>
                fresh(thrown) && thrown.kind == Exceptions.DeviceStateException
                && Some(thrown.errorCode) == BasePause(old(CurrentPhase())).thrown && thrown.args == None
    {
      thrown := null;
      match state
      case PreviewStarted | CaptureStarted =>
        pausedState := state;
        SetState(Paused);
      case Stopped =>
        thrown := Exceptions.NewDeviceStateExceptionWithCode(Exceptions.AlreadyStoppedErrorCode);
      case _ =>
    }

    /** CaptureDevice.resume */
    method Resume() returns (thrown: Exceptions.AbstractException?)
      requires Valid()
      modifies this, FaceViews(viewers)
      ensures Valid()
      ensures CurrentPhase() == BaseResume(old(CurrentPhase())).next
      ensures viewers == old(viewers) && capturedFiles == old(capturedFiles)
      ensures Reported(old(viewers), BaseResume(old(CurrentPhase())).notified)
      ensures (thrown != null) == BaseResume(old(CurrentPhase())).thrown.Some?
      ensures thrown != null ==>
                fresh(thrown) && thrown.kind == Exceptions.DeviceStateException
                && Some(thrown.errorCode) == BaseResume(old(CurrentPhase())).thrown && thrown.args == None
    {
      thrown := null;
      match state
      case Stopped =>
        thrown := Exceptions.NewDeviceStateExceptionWithCode(Exceptions.AlreadyStoppedErrorCode);
      case Paused =>
        SetState(pausedState);
      case _ =>
    }

    /** CaptureDevice.stop */
    method Stop()
      requires Valid()
      modifies this, FaceViews(viewers)
      ensures Valid()
      ensures CurrentPhase() == BaseStop(old(CurrentPhase())).next
      ensures viewers == old(viewers) && capturedFiles == old(capturedFiles)
      ensures Broadcast(old(viewers), Stopped)
    {
      SetState(Stopped);
    }

    /** Removes the first registration of the viewer; the others keep their order. */
    method RemoveViewer(viewer: CaptureView)
      modifies this
      ensures viewers == RemoveFirst(old(viewers), viewer)
      ensures state == old(state) && pausedState == old(pausedState)
      ensures capturedFiles == old(capturedFiles) && notifications == old(notifications)
    {
      viewers := RemoveFirst(viewers, viewer);
    }
  }
}
