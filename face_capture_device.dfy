/**
 * The face capture device (FaceCaptureDevice.java): viewer registration rules, preview start,
 * its own pause/resume/stop, the face fan-out of its face tracker, and the camera choice.
 *
 * The class extends CaptureDevice in Java; here it holds its base-class part as `base`.
 * The camera source is abstracted to its presence (with the facing it was built for); every
 * outcome that depends on camera hardware is a parameter.
 */
module FaceDevices {
  import opened Wrappers
  import opened Lifecycle
  import opened CaptureBuffers
  import opened Views
  import opened Devices
  import Exceptions

  const FaceDeviceId := "com.openbiometrix.capture.FaceCaptureDevice"
  const FaceDeviceName := "Face Capture Device"
  const FaceDeviceVersion := "1.0"
  const FaceDeviceVendor := "OpenBiometrix"
  const FaceDeviceType := Camera

  const NullViewerMessage := "Viewer cannot be null"
  const SecondSurfaceMessage := "View list cannot contain more than one SurfaceView."

  /** Build.VERSION_CODES.LOLLIPOP */
  const LollipopApiLevel := 21
  /** Camera.CameraInfo.CAMERA_FACING_FRONT */
  const CameraInfoFacingFront := 1
  /** CameraSource.CAMERA_FACING_FRONT */
  const CameraSourceFacingFront := 1
  /** The camera id that names the front camera in the camera2 id list. */
  const FrontCameraId := 1

  // ---------------------------------------------------------------------------------------
  // Viewer list rules
  // ---------------------------------------------------------------------------------------

  predicate HasSurface(vs: seq<CaptureView>) {
    exists i :: 0 <= i < |vs| && vs[i].IsSurface()
  }

  /** No two registered viewers are SurfaceViews. */
  predicate AtMostOneSurface(vs: seq<CaptureView>) {
    forall i, j :: 0 <= i < |vs| && 0 <= j < |vs| && vs[i].IsSurface() && vs[j].IsSurface() ==> i == j
  }

  /** Every registered viewer's buffer is a FaceDetectorBuffer. */
  predicate AllFaceBuffers(vs: seq<CaptureView>) {
    forall i :: 0 <= i < |vs| ==> vs[i].HasFaceBuffer()
  }

  /**
   * The registration rules survive appending a viewer with a FaceDetectorBuffer, unless it
   * would be a second SurfaceView.
   */
  lemma AppendKeepsRules(vs: seq<CaptureView>, v: CaptureView)
    requires AtMostOneSurface(vs) && AllFaceBuffers(vs)
    requires v.HasFaceBuffer() && !(v.IsSurface() && HasSurface(vs))
    ensures AtMostOneSurface(vs + [v]) && AllFaceBuffers(vs + [v])
  {
    var r := vs + [v];
    forall i, j | 0 <= i < |r| && 0 <= j < |r| && r[i].IsSurface() && r[j].IsSurface()
      ensures i == j
    {
      if i < |vs| && j < |vs| {
        assert vs[i].IsSurface() && vs[j].IsSurface();
      }
    }
  }

  /** The registration rules survive removing a viewer. */
  lemma RemoveKeepsRules(vs: seq<CaptureView>, x: CaptureView)
    requires AtMostOneSurface(vs) && AllFaceBuffers(vs)
    ensures AtMostOneSurface(RemoveFirst(vs, x)) && AllFaceBuffers(RemoveFirst(vs, x))
  {
    if x in vs {
      DropKeepsRules(vs, IndexOf(vs, x));
    }
  }

  lemma DropKeepsRules(vs: seq<CaptureView>, k: nat)
    requires k < |vs| && AtMostOneSurface(vs) && AllFaceBuffers(vs)
    ensures AtMostOneSurface(vs[..k] + vs[k + 1..]) && AllFaceBuffers(vs[..k] + vs[k + 1..])
  {
    var r := vs[..k] + vs[k + 1..];
    DropAt(vs, k);
    forall i, j | 0 <= i < |r| && 0 <= j < |r| && r[i].IsSurface() && r[j].IsSurface()
      ensures i == j
    {
      assert vs[Skip(i, k)].IsSurface() && vs[Skip(j, k)].IsSurface();
    }
  }

  /** Dropping position k shifts every later element down by one. */
  lemma DropAt<T>(vs: seq<T>, k: nat)
    requires k < |vs|
    ensures |vs[..k] + vs[k + 1..]| == |vs| - 1
    ensures forall i :: 0 <= i < |vs| - 1 ==> (vs[..k] + vs[k + 1..])[i] == vs[Skip(i, k)]
  {
  }

  /** Position in the old list of the i-th element left after removing position k. */
  function Skip(i: nat, k: nat): (j: nat)
    ensures j == i || j == i + 1
  {
    if i < k then i else i + 1
  }

  // ---------------------------------------------------------------------------------------
  // Face fan-out
  // ---------------------------------------------------------------------------------------

  /** How many of the viewers write into buffer b. */
  ghost function Occurrences(vs: seq<CaptureView>, b: CaptureBuffer<Face>): nat
    decreases |vs|
  {
    if vs == [] then 0
    else Occurrences(vs[..|vs| - 1], b) + (if vs[|vs| - 1].Buffer() == b then 1 else 0)
  }

  lemma OccurrencesOfPrefix(vs: seq<CaptureView>, i: nat, b: CaptureBuffer<Face>)
    requires i < |vs|
    ensures Occurrences(vs[..i + 1], b) == Occurrences(vs[..i], b) + (if vs[i].Buffer() == b then 1 else 0)
  {
    assert vs[..i + 1][..i] == vs[..i];
  }

  function Repeat<T>(x: T, n: nat): (r: seq<T>)
    ensures |r| == n && forall i :: 0 <= i < n ==> r[i] == x
  {
    seq(n, _ => x)
  }

  /** The number of viewers whose put is not interrupted: puts stop at the interrupted one. */
  function FanOutEnd(n: nat, interruptAt: Option<nat>): (e: nat)
    ensures e <= n
    ensures e < n <==> interruptAt.Some? && interruptAt.value < n
    ensures e < n ==> e == interruptAt.value
  {
    if interruptAt.Some? && interruptAt.value < n then interruptAt.value else n
  }

  /**
   * Each of the first n viewers' buffers has room for the face after the puts of the
   * viewers before it: no blocking put of the fan-out has to wait for the consumer.
   */
  ghost predicate RoomForFanOut(vs: seq<CaptureView>, n: nat)
    reads BuffersOf(vs)
  {
    forall k :: 0 <= k < n && k < |vs| ==>
      |vs[k].Buffer().items| + Occurrences(vs[..k], vs[k].Buffer()) < vs[k].Buffer().capacity
  }

  /** Room for the face in the k-th viewer's buffer, from `before` and the puts of the viewers before it. */
  ghost predicate Room(vs: seq<CaptureView>, k: nat, before: map<CaptureBuffer<Face>, BufferState>)
    requires k < |vs|
  {
    var b := vs[k].Buffer();
    b in before && |before[b].items| + Occurrences(vs[..k], b) < before[b].capacity
  }

  lemma RoomInSnapshot(vs: seq<CaptureView>, n: nat, before: map<CaptureBuffer<Face>, BufferState>)
    requires RoomForFanOut(vs, n) && before == Snapshot(BuffersOf(vs))
    ensures forall k :: 0 <= k < n && k < |vs| ==> Room(vs, k, before)
  {
    forall k | 0 <= k < n && k < |vs|
      ensures Room(vs, k, before)
    {
      assert vs[k].Buffer() in BuffersOf(vs);
    }
  }

  /** What a buffer looks like from outside: its contents, bound and counters. */
  datatype BufferState = BufferState(items: seq<Face>, capacity: nat, successCount: nat, failCount: nat)

  ghost function Snapshot(bs: set<CaptureBuffer<Face>>): (m: map<CaptureBuffer<Face>, BufferState>)
    reads bs
    ensures m.Keys == bs
    ensures forall c :: c in bs ==> m[c] == BufferState(c.items, c.capacity, c.successCount, c.failCount)
  {
    map c | c in bs :: BufferState(c.items, c.capacity, c.successCount, c.failCount)
  }

  /**
   * Since `before`, every buffer of `vs` received the face once per viewer of `handled`
   * that writes into it, each of those puts stored it, and no loss was counted.
   */
  ghost predicate FannedOut(vs: seq<CaptureView>, face: Face, handled: seq<CaptureView>,
                            before: map<CaptureBuffer<Face>, BufferState>)
    reads BuffersOf(vs)
  {
    forall c :: c in BuffersOf(vs) ==>
      && c in before && c.Valid() && c.capacity == before[c].capacity
      && c.items == before[c].items + Repeat(face, Occurrences(handled, c))
      && c.successCount == before[c].successCount + Occurrences(handled, c)
      && c.failCount == before[c].failCount
  }

  /**
   * The face went, once per listing, into the buffers of all viewers before the interrupted
   * one; the interrupted put counted one loss in its buffer; nothing else changed.
   */
  ghost predicate FanOutOutcome(vs: seq<CaptureView>, face: Face, interruptAt: Option<nat>,
                                before: map<CaptureBuffer<Face>, BufferState>)
    reads BuffersOf(vs)
  {
    var e := FanOutEnd(|vs|, interruptAt);
    forall c :: c in BuffersOf(vs) ==>
      && c in before && c.Valid() && c.capacity == before[c].capacity
      && c.items == before[c].items + Repeat(face, Occurrences(vs[..e], c))
      && c.successCount == before[c].successCount + Occurrences(vs[..e], c)
      && c.failCount == before[c].failCount + (if e < |vs| && vs[e].Buffer() == c then 1 else 0)
  }

  lemma OutcomeKeepsBuffersValid(vs: seq<CaptureView>, face: Face, interruptAt: Option<nat>,
                                 before: map<CaptureBuffer<Face>, BufferState>)
    requires FanOutOutcome(vs, face, interruptAt, before)
    ensures forall i :: 0 <= i < |vs| ==> vs[i].Buffer().Valid()
  {
    forall i | 0 <= i < |vs|
      ensures vs[i].Buffer().Valid()
    {
      assert vs[i].Buffer() in BuffersOf(vs);
    }
  }

  /** The loop of FaceTracker.onUpdate over a list of viewers. */
  method FanOut(vs: seq<CaptureView>, face: Face, interruptAt: Option<nat>)
    requires forall c :: c in BuffersOf(vs) ==> c.Valid()
    requires RoomForFanOut(vs, FanOutEnd(|vs|, interruptAt))
    modifies BuffersOf(vs)
    ensures FanOutOutcome(vs, face, interruptAt, old(Snapshot(BuffersOf(vs))))
  {
    ghost var before := Snapshot(BuffersOf(vs));
    ghost var e := FanOutEnd(|vs|, interruptAt);
    RoomInSnapshot(vs, e, before);
    var i := 0;
    FanOutStart(vs, face, before);
    while i < |vs|
      invariant 0 <= i <= e
      invariant FannedOut(vs, face, vs[..i], before)
    {
      assert vs[i].Buffer() in BuffersOf(vs);
      var r := PutInto(vs, i, face, interruptAt, before);
      if r == PutInterrupted {
        break;
      }
      assert i < e;
      i := i + 1;
    }
    if i == |vs| {
      FanOutComplete(vs, face, interruptAt, before);
    }
  }

  lemma FanOutStart(vs: seq<CaptureView>, face: Face, before: map<CaptureBuffer<Face>, BufferState>)
    requires forall c :: c in BuffersOf(vs) ==> c.Valid()
    requires before == Snapshot(BuffersOf(vs))
    ensures FannedOut(vs, face, vs[..0], before)
  {
    assert vs[..0] == [];
  }

  lemma FanOutComplete(vs: seq<CaptureView>, face: Face, interruptAt: Option<nat>,
                       before: map<CaptureBuffer<Face>, BufferState>)
    requires FannedOut(vs, face, vs[..|vs|], before)
    requires FanOutEnd(|vs|, interruptAt) == |vs|
    ensures FanOutOutcome(vs, face, interruptAt, before)
  {
  }

  /** One put of the fan-out, into the i-th viewer's buffer, with its effect on the fan-out's account. */
  method PutInto(vs: seq<CaptureView>, i: nat, face: Face, interruptAt: Option<nat>,
                 ghost before: map<CaptureBuffer<Face>, BufferState>) returns (r: PutOutcome)
    requires i < |vs| && FannedOut(vs, face, vs[..i], before)
    requires interruptAt == Some(i) || Room(vs, i, before)
    modifies vs[i].Buffer()
    ensures r == PutInterrupted <==> interruptAt == Some(i)
    ensures r == PutInterrupted ==> FanOutOutcome(vs, face, interruptAt, before)
    ensures r != PutInterrupted ==> FannedOut(vs, face, vs[..i + 1], before)
  {
    var b := vs[i].Buffer();
    assert b in BuffersOf(vs);
    r := b.Put(face, interruptAt == Some(i));
    if r != PutInterrupted {
      forall c | c in BuffersOf(vs)
        ensures && c in before && c.Valid() && c.capacity == before[c].capacity
                && c.items == before[c].items + Repeat(face, Occurrences(vs[..i + 1], c))
                && c.successCount == before[c].successCount + Occurrences(vs[..i + 1], c)
                && c.failCount == before[c].failCount
      {
        OccurrencesOfPrefix(vs, i, c);
        if c == b {
          var n := Occurrences(vs[..i], c);
          assert Repeat(face, n + 1) == Repeat(face, n) + [face];
          assert (before[c].items + Repeat(face, n)) + [face] == before[c].items + (Repeat(face, n) + [face]);
        }
      }
    }
  }

  // ---------------------------------------------------------------------------------------
  // The overriding pause and resume as transition functions
  // ---------------------------------------------------------------------------------------

  /** Whether startPreview reaches PREVIEW_STARTED: a camera source, a SurfaceView viewer, and a start that does not fail. */
  predicate PreviewStarts(source: Option<int>, vs: seq<CaptureView>, startFails: bool) {
    source.Some? && HasSurface(vs) && !startFails
  }

  /** FaceCaptureDevice.pause: only a running preview is paused; the remembered state is left alone. */
  function FacePause(p: Phase): Step {
    match p.state
    case PreviewStarted => Step(Phase(Paused, p.pausedState), Some(Paused), None)
    case Stopped => Step(p, None, Some(Exceptions.DeviceStateErrorCode))
    case _ => Step(p, None, None)
  }

  /** FaceCaptureDevice.resume: a paused device runs startPreview, which may or may not reach PREVIEW_STARTED. */
  function FaceResume(p: Phase, previewStarts: bool): Step {
    match p.state
    case Paused =>
      if previewStarts then Step(Phase(PreviewStarted, p.pausedState), Some(PreviewStarted), None)
      else Step(p, None, None)
    case Stopped => Step(p, None, Some(Exceptions.DeviceStateErrorCode))
    case _ => Step(p, None, None)
  }

  lemma FacePauseCases(p: Phase)
    ensures FacePause(p).next.pausedState == p.pausedState
    ensures FacePause(p).notified.Some? <==> p.state == PreviewStarted
    ensures p.state == Stopped ==> FacePause(p) == Step(p, None, Some(Exceptions.DeviceStateErrorCode))
    ensures p.state != PreviewStarted && p.state != Stopped ==> FacePause(p) == Step(p, None, None)
  {
  }

  lemma FaceResumeCases(p: Phase, previewStarts: bool)
    ensures FaceResume(p, previewStarts).next.pausedState == p.pausedState
    ensures p.state == Stopped ==> FaceResume(p, previewStarts) == Step(p, None, Some(Exceptions.DeviceStateErrorCode))
    ensures p.state == Paused && !previewStarts ==> FaceResume(p, previewStarts) == Step(p, None, None)
    ensures p.state != Paused && p.state != Stopped ==> FaceResume(p, previewStarts) == Step(p, None, None)
  {
  }

  /** Pausing a preview and resuming it with a preview that starts brings the device back exactly. */
  lemma FacePauseResumeRoundTrip(p: Phase)
    requires p.state == PreviewStarted
    ensures FaceResume(FacePause(p).next, true).next == p
    ensures FaceResume(FacePause(p).next, true).notified == Some(PreviewStarted)
  {
  }

  lemma FacePauseIdempotent(p: Phase)
    ensures FacePause(FacePause(p).next).next == FacePause(p).next
    ensures FacePause(FacePause(p).next).notified == None
  {
  }

  // ---------------------------------------------------------------------------------------
  // Camera choice (getCameraSource)
  // ---------------------------------------------------------------------------------------

  /** How getCameraSource ended: a camera, or NoDeviceFoundException. */
  datatype CameraChoice = Chosen(camera: int) | NoDeviceFound

  /**
   * The choice over the camera2 id list (each id parsed, or None when it is not numeric):
   * the front camera if id 1 is listed, else the last numeric id, else -1.
   */
  ghost predicate ChosenFromIds(ids: seq<Option<int>>, camera: int) {
    && (Some(FrontCameraId) in ids ==> camera == FrontCameraId)
    && (Some(FrontCameraId) !in ids && (forall k :: 0 <= k < |ids| ==> ids[k].None?) ==> camera == -1)
    && (Some(FrontCameraId) !in ids && (exists k :: 0 <= k < |ids| && ids[k].Some?) ==>
          exists k :: 0 <= k < |ids| && ids[k] == Some(camera) && forall j :: k < j < |ids| ==> ids[j].None?)
  }

  /**
   * The choice over the facings of the cameras of the old API: the front camera if one faces
   * front, else the last camera's facing, and NoDeviceFound when there is no camera or the
   * last facing is -1.
   */
  ghost predicate ChosenFromFacings(facings: seq<int>, r: CameraChoice) {
    && (CameraInfoFacingFront in facings ==> r == Chosen(CameraSourceFacingFront))
    && (CameraInfoFacingFront !in facings && (facings == [] || facings[|facings| - 1] == -1) ==> r == NoDeviceFound)
    && (CameraInfoFacingFront !in facings && facings != [] && facings[|facings| - 1] != -1 ==>
          r == Chosen(facings[|facings| - 1]))
  }

  /** The id-list rule leaves exactly one answer. */
  lemma ChosenFromIdsUnique(ids: seq<Option<int>>, c1: int, c2: int)
    requires ChosenFromIds(ids, c1) && ChosenFromIds(ids, c2)
    ensures c1 == c2
  {
    if Some(FrontCameraId) !in ids && exists k :: 0 <= k < |ids| && ids[k].Some? {
      var k1 :| 0 <= k1 < |ids| && ids[k1] == Some(c1) && forall j :: k1 < j < |ids| ==> ids[j].None?;
      var k2 :| 0 <= k2 < |ids| && ids[k2] == Some(c2) && forall j :: k2 < j < |ids| ==> ids[j].None?;
      if k1 < k2 {
        assert ids[k2].None?;
      } else if k2 < k1 {
        assert ids[k1].None?;
      }
    }
  }

  /** The Lollipop-and-later branch: a loop over the id list with an early return. */
  method FrontCameraFromIds(ids: seq<Option<int>>) returns (camera: int)
    ensures ChosenFromIds(ids, camera)
  {
    camera := -1;
    ghost var last := -1;
    var i := 0;
    while i < |ids|
      invariant 0 <= i <= |ids| && -1 <= last < i
      invariant Some(FrontCameraId) !in ids[..i]
      invariant last == -1 ==> camera == -1 && forall k :: 0 <= k < i ==> ids[k].None?
      invariant last != -1 ==> ids[last] == Some(camera) && forall j :: last < j < i ==> ids[j].None?
    {
      match ids[i] {
        case Some(current) =>
          if current == FrontCameraId {
            return current;
          }
          camera := current;
          last := i;
        case None =>
      }
      assert ids[..i + 1] == ids[..i] + [ids[i]];
      i := i + 1;
    }
    assert ids[..i] == ids;
  }

  /** The branch for older API levels: a loop over the cameras' facings, then the no-camera check. */
  method FrontCameraFromFacings(facings: seq<int>) returns (r: CameraChoice)
    ensures ChosenFromFacings(facings, r)
  {
    var best := -1;
    var i := 0;
    while i < |facings|
      invariant 0 <= i <= |facings|
      invariant CameraInfoFacingFront !in facings[..i]
      invariant best == if i == 0 then -1 else facings[i - 1]
    {
      if facings[i] == CameraInfoFacingFront {
        return Chosen(CameraSourceFacingFront);
      }
      best := facings[i];
      assert facings[..i + 1] == facings[..i] + [facings[i]];
      i := i + 1;
    }
    assert facings[..i] == facings;
    if best == -1 {
      r := NoDeviceFound;
    } else {
      r := Chosen(best);
    }
  }

  /** getCameraSource: NoDeviceFound can only come from the branch for older API levels. */
  method GetCameraSource(apiLevel: int, ids: seq<Option<int>>, facings: seq<int>) returns (r: CameraChoice)
    ensures LollipopApiLevel <= apiLevel ==> r.Chosen? && ChosenFromIds(ids, r.camera)
    ensures apiLevel < LollipopApiLevel ==> ChosenFromFacings(facings, r)
  {
    if LollipopApiLevel <= apiLevel {
      var camera := FrontCameraFromIds(ids);
      r := Chosen(camera);
    } else {
      r := FrontCameraFromFacings(facings);
    }
  }

  // ---------------------------------------------------------------------------------------
  // The device
  // ---------------------------------------------------------------------------------------

  class FaceCaptureDevice {
    /** The CaptureDevice part of this object. */
    const base: CaptureDevice
    /** m_cameraSource: None is null; Some(facing) is a source built for that camera. */
    var cameraSource: Option<int>

    ghost predicate Valid()
      reads this, base, BuffersOf(base.viewers)
    {
      && base.Valid()
      && AtMostOneSurface(base.viewers)
      && AllFaceBuffers(base.viewers)
      && forall i :: 0 <= i < |base.viewers| ==> base.viewers[i].Buffer().Valid()
    }

    constructor ()
      ensures Valid() && fresh(base)
      ensures base.CurrentPhase() == Initial && base.viewers == [] && base.capturedFiles == None
      ensures base.notifications == [] && cameraSource == None
    {
      base := new CaptureDevice();
      cameraSource := None;
    }

    /**
     * initialize: builds the face detector and the camera source for the camera that
     * getCameraSource picks. `buildSucceeds` says whether the detector and source builders
     * (library code) complete; any exception, NoDeviceFoundException included, makes the call
     * return false with the old source kept. The state is not changed either way.
     */
    method Initialize(apiLevel: int, ids: seq<Option<int>>, facings: seq<int>, buildSucceeds: bool)
      returns (ok: bool)
      requires Valid()
      modifies this
      ensures Valid()
      ensures ok <==> buildSucceeds && (LollipopApiLevel <= apiLevel || !ChosenFromFacings(facings, NoDeviceFound))
      ensures ok ==> cameraSource.Some?
      ensures ok && LollipopApiLevel <= apiLevel ==> ChosenFromIds(ids, cameraSource.value)
      ensures ok && apiLevel < LollipopApiLevel ==> ChosenFromFacings(facings, Chosen(cameraSource.value))
      ensures !ok ==> cameraSource == old(cameraSource)
    {
      var choice := GetCameraSource(apiLevel, ids, facings);
      if choice.Chosen? && buildSucceeds {
        cameraSource := Some(choice.camera);
        ok := true;
      } else {
        ok := false;
        if !buildSucceeds {
        } else {
          assert choice == NoDeviceFound && apiLevel < LollipopApiLevel;
        }
      }
    }

    /**
     * startPreview: with a camera source, scans the viewers for the first SurfaceView, starts
     * the source on it and enters PREVIEW_STARTED. A start that fails (`startFails`: an
     * IOException or SecurityException from the camera) releases the source and sets it to null.
     * The current state is not checked.
     */
    method StartPreview(startFails: bool)
      requires Valid()
      modifies this, base, FaceViews(base.viewers)
      ensures Valid()
      ensures base.viewers == old(base.viewers) && base.capturedFiles == old(base.capturedFiles)
      ensures base.pausedState == old(base.pausedState)
      ensures PreviewStarts(old(cameraSource), old(base.viewers), startFails) ==>
                base.state == PreviewStarted && base.Broadcast(old(base.viewers), PreviewStarted)
      ensures !PreviewStarts(old(cameraSource), old(base.viewers), startFails) ==>
                base.state == old(base.state) && base.Quiet(old(base.viewers))
      ensures cameraSource ==
                if old(cameraSource).Some? && HasSurface(old(base.viewers)) && startFails then None
                else old(cameraSource)
    {
      if cameraSource.Some? {
        var i := 0;
        while i < |base.viewers|
          invariant 0 <= i <= |base.viewers|
          invariant forall j :: 0 <= j < i ==> !base.viewers[j].IsSurface()
        {
          if base.viewers[i].IsSurface() {
            if startFails {
              cameraSource := None;
            } else {
              base.SetState(PreviewStarted);
            }
            break;
          }
          i := i + 1;
        }
      }
    }

    /** FaceCaptureDevice.pause */
    method Pause() returns (thrown: Exceptions.AbstractException?)
      requires Valid()
      modifies base, FaceViews(base.viewers)
      ensures Valid()
      ensures base.CurrentPhase() == FacePause(old(base.CurrentPhase())).next
      ensures base.viewers == old(base.viewers) && base.capturedFiles == old(base.capturedFiles)
      ensures base.Reported(old(base.viewers), FacePause(old(base.CurrentPhase())).notified)
      ensures (thrown != null) == FacePause(old(base.CurrentPhase())).thrown.Some?
      ensures thrown != null ==>
                fresh(thrown) && thrown.kind == Exceptions.DeviceStateException
                && Some(thrown.errorCode) == FacePause(old(base.CurrentPhase())).thrown && thrown.args == None
    {
      thrown := null;
      match base.GetState()
      case PreviewStarted =>
        base.SetState(Paused);
      case Stopped =>
        thrown := Exceptions.NewDeviceStateException();
      case _ =>
    }

    /** FaceCaptureDevice.resume; `startFails` is passed on to startPreview. */
    method Resume(startFails: bool) returns (thrown: Exceptions.AbstractException?)
      requires Valid()
      modifies this, base, FaceViews(base.viewers)
      ensures Valid()
      ensures base.CurrentPhase() == FaceResume(old(base.CurrentPhase()), PreviewStarts(old(cameraSource), old(base.viewers), startFails)).next
      ensures base.viewers == old(base.viewers) && base.capturedFiles == old(base.capturedFiles)
      ensures base.Reported(old(base.viewers),
                FaceResume(old(base.CurrentPhase()), PreviewStarts(old(cameraSource), old(base.viewers), startFails)).notified)
      ensures cameraSource ==
                if old(base.state) == Paused && old(cameraSource).Some? && HasSurface(old(base.viewers)) && startFails
                then None else old(cameraSource)
      ensures (thrown != null) == (old(base.state) == Stopped)
      ensures thrown != null ==>
                fresh(thrown) && thrown.kind == Exceptions.DeviceStateException
                && thrown.errorCode == Exceptions.DeviceStateErrorCode && thrown.args == None
    {
      thrown := null;
      match base.GetState()
      case Stopped =>
        thrown := Exceptions.NewDeviceStateException();
      case Paused =>
        StartPreview(startFails);
      case _ =>
    }

    /** FaceCaptureDevice.stop: stops the camera source (not modelled) and enters STOPPED. */
    method Stop()
      requires Valid()
      modifies base, FaceViews(base.viewers)
      ensures Valid()
      ensures base.CurrentPhase() == BaseStop(old(base.CurrentPhase())).next
      ensures base.viewers == old(base.viewers) && base.capturedFiles == old(base.capturedFiles)
      ensures base.Broadcast(old(base.viewers), Stopped)
    {
      base.SetState(Stopped);
    }

    /**
     * addViewer: rejects null, rejects a second SurfaceView, and appends the viewer when its
     * buffer is a FaceDetectorBuffer. For any other buffer the failed cast leaves the local
     * `buffer` null and the handler dereferences it, so a NullPointerException escapes
     * instead of the InvalidDeviceBuffer the handler builds.
     */
    method AddViewer(viewer: Option<CaptureView>) returns (thrown: Option<Exceptions.JavaException>)
      requires Valid()
      requires viewer.Some? ==> viewer.value.Buffer().Valid()
      modifies base
      ensures Valid()
      ensures base.CurrentPhase() == old(base.CurrentPhase()) && base.capturedFiles == old(base.capturedFiles)
      ensures base.notifications == old(base.notifications)
      ensures viewer.None? ==> thrown == Some(Exceptions.IllegalArgumentException(NullViewerMessage))
      ensures viewer.Some? && viewer.value.IsSurface() && HasSurface(old(base.viewers)) ==>
                thrown == Some(Exceptions.IllegalArgumentException(SecondSurfaceMessage))
      ensures viewer.Some? && !(viewer.value.IsSurface() && HasSurface(old(base.viewers))) && !viewer.value.HasFaceBuffer() ==>
                thrown == Some(Exceptions.NullPointerException)
      ensures thrown.None? <==>
                viewer.Some? && !(viewer.value.IsSurface() && HasSurface(old(base.viewers)))
                && viewer.value.HasFaceBuffer()
      ensures base.viewers == if thrown.None? then old(base.viewers) + [viewer.value] else old(base.viewers)
    {
      if viewer.None? {
        return Some(Exceptions.IllegalArgumentException(NullViewerMessage));
      }
      var v := viewer.value;
      var i := 0;
      while i < |base.viewers|
        invariant 0 <= i <= |base.viewers|
        invariant forall j :: 0 <= j < i ==> !base.viewers[j].IsSurface()
      {
        if base.viewers[i].IsSurface() {
          if v.IsSurface() {
            return Some(Exceptions.IllegalArgumentException(SecondSurfaceMessage));
          }
          break;
        }
        i := i + 1;
      }
      if v.HasFaceBuffer() {
        var vs := base.viewers;
        AppendKeepsRules(vs, v);
        base.viewers := vs + [v];
        thrown := None;
        assert forall j :: 0 <= j < |vs| ==> base.viewers[j] == vs[j];
      } else {
        thrown := Some(Exceptions.NullPointerException);
      }
    }

    /** removeViewer, inherited from CaptureDevice; the registration rules still hold afterwards. */
    method RemoveViewer(viewer: CaptureView)
      requires Valid()
      modifies base
      ensures Valid()
      ensures base.viewers == RemoveFirst(old(base.viewers), viewer)
      ensures base.CurrentPhase() == old(base.CurrentPhase()) && base.capturedFiles == old(base.capturedFiles)
      ensures base.notifications == old(base.notifications)
    {
      ghost var vs := base.viewers;
      RemoveKeepsRules(vs, viewer);
      base.RemoveViewer(viewer);
      if viewer in vs {
        ghost var k := IndexOf(vs, viewer);
        DropAt(vs, k);
        forall i | 0 <= i < |base.viewers|
          ensures base.viewers[i].Buffer().Valid()
        {
          assert base.viewers[i] == vs[Skip(i, k)];
        }
      }
    }

    /**
     * FaceTracker.onUpdate: puts the face into every registered viewer's buffer, in list
     * order, with the blocking put. `interruptAt` names the viewer whose put is interrupted,
     * if any: that put counts a loss and the fan-out ends there. A viewer listed twice, or two
     * viewers sharing a buffer, put into that buffer once per listing.
     */
    method OnFaceUpdate(face: Face, interruptAt: Option<nat>)
      requires Valid()
      requires RoomForFanOut(base.viewers, FanOutEnd(|base.viewers|, interruptAt))
      modifies BuffersOf(base.viewers)
      ensures Valid()
      ensures FanOutOutcome(base.viewers, face, interruptAt, old(Snapshot(BuffersOf(base.viewers))))
    {
      FanOut(base.viewers, face, interruptAt);
      OutcomeKeepsBuffersValid(base.viewers, face, interruptAt, old(Snapshot(BuffersOf(base.viewers))));
    }
  }
}
