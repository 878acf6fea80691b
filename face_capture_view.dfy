/**
 * The viewer side: the CaptureView interface as a record (ui/CaptureView.java) and the one
 * concrete viewer of the library, FaceCaptureView (ui/FaceCaptureView.java).
 */
module Views {
  import opened CaptureBuffers
  import opened Lifecycle

  /**
   * A registered viewer. A FaceCaptureView is a SurfaceView and owns a FaceDetectorBuffer.
   * Any other implementation is described by what the device asks of it: whether its view is
   * a SurfaceView, whether its buffer is a FaceDetectorBuffer, and the buffer itself; `handle`
   * stands for its object identity.
   */
  datatype CaptureView =
    | FaceView(view: FaceCaptureView)
    | OtherView(handle: nat, surface: bool, faceBuffer: bool, buffer: CaptureBuffer<Face>)
  {
    /** getView() instanceof SurfaceView */
    predicate IsSurface() {
      FaceView? || surface
    }

    /** getCaptureBuffer() instanceof FaceDetectorBuffer */
    predicate HasFaceBuffer() {
      FaceView? || faceBuffer
    }

    /** getCaptureBuffer() */
    function Buffer(): CaptureBuffer<Face> {
      if FaceView? then view.buffer else buffer
    }
  }

  /** The FaceCaptureView objects among a list of viewers. */
  ghost function FaceViews(vs: seq<CaptureView>): set<FaceCaptureView> {
    set i | 0 <= i < |vs| && vs[i].FaceView? :: vs[i].view
  }

  /** The buffers of a list of viewers. */
  ghost function BuffersOf(vs: seq<CaptureView>): set<CaptureBuffer<Face>> {
    set i | 0 <= i < |vs| :: vs[i].Buffer()
  }

  /** The face-update count after onStateChanged(s). */
  function CountAfter(s: State, count: int): int {
    if s == PreviewStarted then 0 else count
  }

  /** The stop flag after onStateChanged(s). */
  function StopAfter(s: State, stop: bool): bool {
    if s == Paused || s == Stopped then true else stop
  }

  /** onStateChanged: PREVIEW_STARTED resets the count, PAUSED and STOPPED stop the loop, the rest do nothing. */
  lemma ReactionCases(s: State, count: int, stop: bool)
    ensures s == PreviewStarted ==> CountAfter(s, count) == 0 && StopAfter(s, stop) == stop
    ensures s == Paused || s == Stopped ==> StopAfter(s, stop) && CountAfter(s, count) == count
    ensures s == Uninitialized || s == Initialized || s == CaptureStarted ==>
              CountAfter(s, count) == count && StopAfter(s, stop) == stop
  {
  }

  /** Reacting twice to the same state is the same as reacting once. */
  lemma ReactionIdempotent(s: State, count: int, stop: bool)
    ensures CountAfter(s, CountAfter(s, count)) == CountAfter(s, count)
    ensures StopAfter(s, StopAfter(s, stop)) == StopAfter(s, stop)
  {
  }

  class FaceCaptureView {
    /** mFaceDetectorBuffer: created with the view, never replaced. */
    const buffer: CaptureBuffer<Face>
    /** mFaceUpdateCount */
    var faceUpdateCount: int
    /** mStopFaceDetectorLoop */
    var stopFaceDetectorLoop: bool

    /**
     * All three constructors: the field initializers, then startFaceDetectionLoop, which
     * clears the stop flag before starting the consumer thread.
     */
    constructor ()
      ensures fresh(buffer) && buffer.Valid()
      ensures buffer.items == [] && buffer.capacity == DefaultBufferQueueCapacity
      ensures buffer.successCount == 0 && buffer.failCount == 0
      ensures faceUpdateCount == 0 && !stopFaceDetectorLoop
    {
      buffer := new CaptureBuffer<Face>();
      faceUpdateCount := 0;
      stopFaceDetectorLoop := false;
    }

    /** getView() returns the view itself, a SurfaceView, with this view's buffer. */
    function GetView(): (v: CaptureView)
      ensures v.FaceView? && v.view == this
      ensures v.IsSurface() && v.HasFaceBuffer() && v.Buffer() == buffer
    {
      FaceView(this)
    }

    /** getCaptureBuffer() always hands out the buffer the view was built with. */
    function GetCaptureBuffer(): (b: CaptureBuffer<Face>)
      ensures b == buffer && b == GetView().Buffer()
    {
      buffer
    }

    method OnStateChanged(s: State)
      modifies this
      ensures faceUpdateCount == CountAfter(s, old(faceUpdateCount))
      ensures stopFaceDetectorLoop == StopAfter(s, old(stopFaceDetectorLoop))
    {
      match s
      case PreviewStarted =>
        faceUpdateCount := 0;
      case Paused | Stopped =>
        StopFaceDetectionLoop();
      case _ =>
    }

    /** One face delivered by the consumer loop. */
    method OnUpdate(face: Face)
      modifies this
      ensures faceUpdateCount == old(faceUpdateCount) + 1
      ensures stopFaceDetectorLoop == old(stopFaceDetectorLoop)
    {
      faceUpdateCount := faceUpdateCount + 1;
    }

    /** Sets the stop flag; interrupting the consumer thread is not modelled. */
    method StopFaceDetectionLoop()
      modifies this
      ensures stopFaceDetectorLoop
      ensures faceUpdateCount == old(faceUpdateCount)
    {
      stopFaceDetectorLoop := true;
    }
  }
}
