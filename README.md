# Capture pipeline of the OpenBiometrix Android capture library, in Dafny

This project models the core of the `com.openbiometrix.capture` library: the bounded
buffer that carries captured samples from a capture device to its viewers, the lifecycle
state machine of a capture device, the face capture device built on it, the face capture
view that consumes faces, and the error record the library throws.

The model follows the form of the Java code, class by class:

- `CaptureBuffers.CaptureBuffer<T>` is a class over a `seq<T>` (the `ArrayBlockingQueue`
  contents, oldest first), its capacity, and the success and loss counters. Whether the
  calling thread is interrupted is a parameter. A blocking put on a full buffer or a
  blocking take on an empty one would wait for another thread, so the model requires that
  it does not wait. A timed call whose timeout runs out is the case "no room" or "no item".
- `Lifecycle` holds the six device states, the device types, and the base class's
  pause, resume, stop and setState rules as pure transition functions over the pair
  (state, remembered paused state). The properties of the state machine are proved there,
  including inductive lemmas over any sequence of calls.
- `Devices.CaptureDevice` is the base device as a class. Each of its methods is proved to
  follow the transition function of `Lifecycle`. `setState` walks the viewer list in order
  and calls `onStateChanged` on each viewer. A ghost log records every notification, and
  each `FaceCaptureView` is proved to react.
- `Views` models the `CaptureView` interface as a datatype: either a `FaceCaptureView`
  object, or another implementation described by what the device asks of it. It also has
  the `FaceCaptureView` class with its update counter and stop flag.
- `FaceDevices.FaceCaptureDevice` is the face device. Java inheritance becomes
  composition: the object holds its `CaptureDevice` part as `base`. The camera source is
  kept as present or absent, together with the facing it was built for. Outcomes that come
  from camera hardware or from the Google Vision library are parameters: whether the
  builders complete, and whether starting the camera fails. The camera choice takes the
  camera id list, with each id parsed to a number or `None`, and the list of camera facings
  of the older API.
- `Exceptions.AbstractException` is a class with its error code and argument array. The
  three subclasses are kinds with their fixed codes.

Behaviours of the code that the model keeps as written:

- The timed put propagates an interrupt without counting it. The blocking put counts an
  interrupt as a loss.
- `FaceCaptureDevice.pause` moves only PREVIEW_STARTED to PAUSED. It never sets the base
  class's remembered state, and it throws `DeviceStateException` with the default code
  `error.device.state`. The base class throws with `error.device.already.stopped`.
- `FaceCaptureDevice.resume` from PAUSED runs `startPreview`. So it stays PAUSED when there
  is no camera source or no SurfaceView viewer. `startPreview` never checks the current
  state.
- `addViewer` with a buffer that is not a `FaceDetectorBuffer` does not add the viewer. The
  failed cast leaves the local `buffer` null, and the handler then dereferences it. So the
  caller gets a `NullPointerException`, not the `InvalidDeviceBuffer` the handler builds.
- The camera choice of the Lollipop-and-later branch returns -1 when no id is numeric. It
  never throws `NoDeviceFoundException`; only the branch for older API levels can.
- `initialize` calls neither `setState(INITIALIZED)` nor anything else that changes the
  state. It only replaces the camera source when every builder completes.
- A viewer registered twice, or two viewers sharing one buffer, receive a face once per
  registration. `removeViewer` deletes only the first registration.

## Model

| member | source | states |
|---|---|---|
| Exceptions.AbstractException.constructor | capture/src/main/java/com/openbiometrix/capture/exception/AbstractException.java:14-17 | a default exception carries the field initializers' values: code "error.unknown" and null arguments |
| Exceptions.AbstractException.WithCode | capture/src/main/java/com/openbiometrix/capture/exception/AbstractException.java:24-27 | the given code is stored and the arguments stay null |
| Exceptions.AbstractException.WithCodeAndArgs | capture/src/main/java/com/openbiometrix/capture/exception/AbstractException.java:35-39 | both the code and the arguments are the given ones |
| Exceptions.AbstractException.SetErrorCode | capture/src/main/java/com/openbiometrix/capture/exception/AbstractException.java:46-57 | getErrorCode afterwards returns the code set, and the arguments are untouched |
| Exceptions.AbstractException.SetArgs | capture/src/main/java/com/openbiometrix/capture/exception/AbstractException.java:65-76 | getArgs afterwards returns the arguments set, and the code is untouched |
| Exceptions.NewDeviceStateException | capture/src/main/java/com/openbiometrix/capture/exception/DeviceStateException.java:11-14 | a new DeviceStateException has code "error.device.state" and no arguments |
| Exceptions.NewDeviceStateExceptionWithCode | capture/src/main/java/com/openbiometrix/capture/exception/DeviceStateException.java:16-19 | a new DeviceStateException has the given code and no arguments |
| Exceptions.NewInvalidDeviceBuffer | capture/src/main/java/com/openbiometrix/capture/exception/InvalidDeviceBuffer.java:10-13 | a new InvalidDeviceBuffer has code "error.capture.invalid.device.buffer.type" and the given arguments |
| Exceptions.NewNoDeviceFoundException | capture/src/main/java/com/openbiometrix/capture/exception/NoDeviceFoundException.java:9-12 | a new NoDeviceFoundException has code "error.no.device.found" and no arguments |
| CaptureBuffers.CaptureBuffer.constructor | capture/src/main/java/com/openbiometrix/capture/CaptureBuffer.java:22-25 | a new buffer is empty, has the default capacity 100 and both counters at 0 |
| CaptureBuffers.CaptureBuffer.WithCapacity | capture/src/main/java/com/openbiometrix/capture/CaptureBuffer.java:32-35 | a new buffer is empty, has the given capacity and both counters at 0 |
| CaptureBuffers.CaptureBuffer.SetQueueCapacity | capture/src/main/java/com/openbiometrix/capture/CaptureBuffer.java:42-45 | a capacity of at least 1 replaces the queue by an empty one of that capacity, discarding the held items; a smaller one changes nothing; the counters never change |
| CaptureBuffers.CaptureBuffer.Put | capture/src/main/java/com/openbiometrix/capture/CaptureBuffer.java:53-68 | on a buffer with room the item goes to the tail and only the success count grows by one; an interrupted put leaves the contents alone and only the loss count grows by one; the capacity bound is kept |
| CaptureBuffers.CaptureBuffer.PutWithTimeout | capture/src/main/java/com/openbiometrix/capture/CaptureBuffer.java:78-91 | with room the item goes to the tail and one success is counted; a full buffer keeps its contents and counts one loss; an interrupt counts nothing |
| CaptureBuffers.CaptureBuffer.Take | capture/src/main/java/com/openbiometrix/capture/CaptureBuffer.java:100-107 | removes and returns the oldest item; an interrupt changes nothing; counters are untouched |
| CaptureBuffers.CaptureBuffer.Poll | capture/src/main/java/com/openbiometrix/capture/CaptureBuffer.java:115-122 | on an empty buffer returns no item and changes nothing; otherwise removes and returns the oldest item, as take does |
| CaptureBuffers.CaptureBuffer.IsEmpty | capture/src/main/java/com/openbiometrix/capture/CaptureBuffer.java:129-132 | true exactly when no item is held |
| CaptureBuffers.CaptureBuffer.GetLostPackets | capture/src/main/java/com/openbiometrix/capture/CaptureBuffer.java:137-140 | returns the loss count |
| CaptureBuffers.PutAllThenTakeAll | capture/src/main/java/com/openbiometrix/capture/CaptureBuffer.java:53-107 | FIFO: putting p1..pn into a buffer with room for all, then taking n items, returns p1..pn in order, with n successes counted |
| CaptureBuffers.TimedPutsWithoutConsumer | capture/src/main/java/com/openbiometrix/capture/CaptureBuffer.java:78-91 | with no consumer, every timed put counts exactly one success or one loss; the buffer keeps the first `capacity` items in order and the rest are losses |
| Lifecycle.PauseThenResume | capture/src/main/java/com/openbiometrix/capture/CaptureDevice.java:142-183 | pause from PREVIEW_STARTED or CAPTURE_STARTED moves to PAUSED and broadcasts it; the following resume restores exactly that state and broadcasts it |
| Lifecycle.PauseIdempotent | capture/src/main/java/com/openbiometrix/capture/CaptureDevice.java:142-159 | a second pause changes nothing, not even the remembered state, and notifies no viewer |
| Lifecycle.StoppedRejectsPauseAndResume | capture/src/main/java/com/openbiometrix/capture/CaptureDevice.java:142-183 | pause and resume on a stopped device throw with "error.device.already.stopped" and change nothing |
| Lifecycle.SilentNoOps | capture/src/main/java/com/openbiometrix/capture/CaptureDevice.java:142-183 | pause from UNINITIALIZED, INITIALIZED or PAUSED, and resume from any state but PAUSED or STOPPED, change nothing and notify nobody |
| Lifecycle.StopFromAnyState | capture/src/main/java/com/openbiometrix/capture/CaptureDevice.java:188-191 | stop reaches STOPPED from every state without throwing |
| Lifecycle.OnlyStoppedThrows | capture/src/main/java/com/openbiometrix/capture/CaptureDevice.java:142-191 | the only calls that throw are pause and resume on a stopped device, and those change nothing |
| Lifecycle.RememberedNeverPaused | capture/src/main/java/com/openbiometrix/capture/CaptureDevice.java:142-159 | after any sequence of calls from a device whose remembered state is UNINITIALIZED or pausable, the remembered state is still UNINITIALIZED or pausable, and never PAUSED |
| Lifecycle.CallsKeepPausedCoherent | capture/src/main/java/com/openbiometrix/capture/CaptureDevice.java:142-228 | through any calls except a subclass setState(PAUSED), which enters PAUSED without remembering a state, a PAUSED device always remembers PREVIEW_STARTED or CAPTURE_STARTED |
| Lifecycle.ResumeRestoresStartedState | capture/src/main/java/com/openbiometrix/capture/CaptureDevice.java:142-228 | from a new device, after any calls except a subclass setState(PAUSED) that leave it PAUSED, resume lands in PREVIEW_STARTED or CAPTURE_STARTED |
| Lifecycle.PausedIsReachable | capture/src/main/java/com/openbiometrix/capture/CaptureDevice.java:142-228 | such a run exists: a subclass setState(PREVIEW_STARTED) then the base pause reaches PAUSED, and resume returns to PREVIEW_STARTED |
| Views.ReactionCases | capture/src/main/java/com/openbiometrix/capture/ui/FaceCaptureView.java:90-105 | PREVIEW_STARTED resets the face count; PAUSED and STOPPED set the stop flag; UNINITIALIZED, INITIALIZED and CAPTURE_STARTED change neither |
| Views.ReactionIdempotent | capture/src/main/java/com/openbiometrix/capture/ui/FaceCaptureView.java:90-105 | telling a view the same state twice has the effect of telling it once |
| Views.FaceCaptureView.constructor | capture/src/main/java/com/openbiometrix/capture/ui/FaceCaptureView.java:30-59 | a new view owns a fresh empty buffer of the default capacity, its face count is 0 and its stop flag is false |
| Views.FaceCaptureView.GetView | capture/src/main/java/com/openbiometrix/capture/ui/FaceCaptureView.java:66-69 | the view is itself, a SurfaceView whose buffer is a FaceDetectorBuffer, the view's own |
| Views.FaceCaptureView.GetCaptureBuffer | capture/src/main/java/com/openbiometrix/capture/ui/FaceCaptureView.java:78-81 | always the buffer the view was built with, the same one the device sees through the view |
| Views.FaceCaptureView.OnStateChanged | capture/src/main/java/com/openbiometrix/capture/ui/FaceCaptureView.java:90-105 | the count and flag afterwards are the reaction functions applied to the state and their old values |
| Views.FaceCaptureView.OnUpdate | capture/src/main/java/com/openbiometrix/capture/ui/FaceCaptureView.java:113-116 | the face count grows by exactly one and the flag is untouched |
| Views.FaceCaptureView.StopFaceDetectionLoop | capture/src/main/java/com/openbiometrix/capture/ui/FaceCaptureView.java:118-126 | the stop flag is set and the count is untouched |
| Devices.RemoveFirst | capture/src/main/java/com/openbiometrix/capture/CaptureDevice.java:98-101 | an absent viewer leaves the list unchanged; otherwise exactly its first occurrence is cut out and the others keep their order |
| Devices.CaptureDevice.constructor | capture/src/main/java/com/openbiometrix/capture/CaptureDevice.java:239-242 | a new device is UNINITIALIZED, remembers UNINITIALIZED, has no viewers and a null file list |
| Devices.CaptureDevice.GetState | capture/src/main/java/com/openbiometrix/capture/CaptureDevice.java:233-236 | the state of the device's current phase, the one the last setState, pause, resume or stop left |
| Devices.CaptureDevice.GetCapturedFileCount | capture/src/main/java/com/openbiometrix/capture/CaptureDevice.java:199-202 | 0 for a null file list, otherwise the list's size |
| Devices.CaptureDevice.SetState | capture/src/main/java/com/openbiometrix/capture/CaptureDevice.java:219-228 | stores the state, keeps the remembered state, and calls onStateChanged with it exactly once per registered viewer in list order; every FaceCaptureView reacts |
| Devices.CaptureDevice.Pause | capture/src/main/java/com/openbiometrix/capture/CaptureDevice.java:142-159 | the device follows the base pause rule: its new phase, its notifications, and a fresh DeviceStateException exactly when the rule throws |
| Devices.CaptureDevice.Resume | capture/src/main/java/com/openbiometrix/capture/CaptureDevice.java:166-183 | the device follows the base resume rule, with the same three parts |
| Devices.CaptureDevice.Stop | capture/src/main/java/com/openbiometrix/capture/CaptureDevice.java:188-191 | STOPPED, broadcast to every viewer; the remembered state is kept |
| Devices.CaptureDevice.RemoveViewer | capture/src/main/java/com/openbiometrix/capture/CaptureDevice.java:98-101 | the viewer list becomes the list with the first registration of the viewer removed; nothing else changes |
| FaceDevices.AppendKeepsRules | capture/src/main/java/com/openbiometrix/capture/FaceCaptureDevice.java:341-360 | appending a FaceDetectorBuffer viewer that would not be a second SurfaceView keeps at most one SurfaceView and only FaceDetectorBuffers |
| FaceDevices.RemoveKeepsRules | capture/src/main/java/com/openbiometrix/capture/CaptureDevice.java:98-101 | removing a viewer keeps at most one SurfaceView and only FaceDetectorBuffers |
| FaceDevices.FanOut | capture/src/main/java/com/openbiometrix/capture/FaceCaptureDevice.java:414-428 | every buffer holds its old items plus the face once per viewer before the interrupted one that writes into it, with as many successes counted; the interrupted put adds one loss to its buffer; nothing else changes |
| FaceDevices.PutInto | capture/src/main/java/com/openbiometrix/capture/FaceCaptureDevice.java:418-421 | one put of the fan-out: stored unless it is the interrupted one, and accounted in the buffer it went to |
| FaceDevices.FacePauseCases | capture/src/main/java/com/openbiometrix/capture/FaceCaptureDevice.java:272-291 | the face pause never changes the remembered state; it notifies exactly from PREVIEW_STARTED; STOPPED throws with "error.device.state"; every other state is unchanged |
| FaceDevices.FaceResumeCases | capture/src/main/java/com/openbiometrix/capture/FaceCaptureDevice.java:296-311 | the face resume never changes the remembered state; STOPPED throws; PAUSED without a starting preview, and every state but PAUSED and STOPPED, are unchanged |
| FaceDevices.FacePauseResumeRoundTrip | capture/src/main/java/com/openbiometrix/capture/FaceCaptureDevice.java:272-311 | pausing a running preview and resuming it when the preview can start returns to the same phase and broadcasts PREVIEW_STARTED |
| FaceDevices.FacePauseIdempotent | capture/src/main/java/com/openbiometrix/capture/FaceCaptureDevice.java:272-291 | a second face pause changes nothing and notifies nobody |
| FaceDevices.ChosenFromIdsUnique | capture/src/main/java/com/openbiometrix/capture/FaceCaptureDevice.java:158-180 | the id-list rule determines a single camera |
| FaceDevices.FrontCameraFromIds | capture/src/main/java/com/openbiometrix/capture/FaceCaptureDevice.java:158-180 | returns 1 when id 1 is listed, otherwise the last numeric id, and -1 when no id is numeric |
| FaceDevices.FrontCameraFromFacings | capture/src/main/java/com/openbiometrix/capture/FaceCaptureDevice.java:181-200 | the front camera when one faces front, otherwise the last camera's facing, and no device found when there is no camera or that facing is -1 |
| FaceDevices.GetCameraSource | capture/src/main/java/com/openbiometrix/capture/FaceCaptureDevice.java:154-201 | from Lollipop on, the id-list rule and never "no device found"; before it, the facings rule |
| FaceDevices.FaceCaptureDevice.constructor | capture/src/main/java/com/openbiometrix/capture/FaceCaptureDevice.java:450 | a new face device is a new base device with no camera source, and meets the viewer rules |
| FaceDevices.FaceCaptureDevice.Initialize | capture/src/main/java/com/openbiometrix/capture/FaceCaptureDevice.java:106-146 | true exactly when the builders complete and a camera is chosen; then a source for the chosen camera is kept; on false the old source stays; the state never changes |
| FaceDevices.FaceCaptureDevice.StartPreview | capture/src/main/java/com/openbiometrix/capture/FaceCaptureDevice.java:219-247 | reaches PREVIEW_STARTED, broadcast to the viewers, exactly when a source is present, a SurfaceView viewer is registered and the start succeeds; a failed start drops the source; otherwise nothing changes |
| FaceDevices.FaceCaptureDevice.Pause | capture/src/main/java/com/openbiometrix/capture/FaceCaptureDevice.java:272-291 | the device follows the face pause rule: phase, notifications, and a fresh DeviceStateException with the default code exactly when stopped |
| FaceDevices.FaceCaptureDevice.Resume | capture/src/main/java/com/openbiometrix/capture/FaceCaptureDevice.java:296-311 | the device follows the face resume rule, with startPreview's effect on the source from PAUSED, and throws exactly when stopped |
| FaceDevices.FaceCaptureDevice.Stop | capture/src/main/java/com/openbiometrix/capture/FaceCaptureDevice.java:316-323 | STOPPED from any state, broadcast to every viewer |
| FaceDevices.FaceCaptureDevice.AddViewer | capture/src/main/java/com/openbiometrix/capture/FaceCaptureDevice.java:334-369 | null is rejected with "Viewer cannot be null"; a second SurfaceView with "View list cannot contain more than one SurfaceView."; a buffer that is not a FaceDetectorBuffer raises a NullPointerException; in each of these cases the list is unchanged; otherwise the viewer is appended at the end; the list never holds two SurfaceViews |
| FaceDevices.FaceCaptureDevice.RemoveViewer | capture/src/main/java/com/openbiometrix/capture/CaptureDevice.java:98-101 | the base removal, with the viewer rules still holding afterwards |
| FaceDevices.FaceCaptureDevice.OnFaceUpdate | capture/src/main/java/com/openbiometrix/capture/FaceCaptureDevice.java:414-428 | the face reaches every registered viewer's buffer in list order, up to the interrupted put, and the viewer rules still hold |

## Left out

- Threads are not modelled. This covers the face-detection consumer thread of
  `FaceCaptureView` (start, join, interrupt, posting `onUpdate` to the UI thread) and the
  `synchronized` modifier of `removeViewer`. An interrupt is a parameter of each call.
- Real waiting and timeouts are not modelled, so the 50 ms put and 200 ms take timeouts
  do not appear. A timed call that times out is the "no room" or "no item" case.
- CaptureBuffers.CaptureBuffer.Take: requires an item unless interrupted, because a
  blocking take on an empty buffer waits for a producer thread.
- CaptureBuffers.CaptureBuffer.Put: requires room unless interrupted, for the same reason.
- FaceDevices.FaceCaptureDevice.OnFaceUpdate: requires room for every put that is not
  interrupted, for the same reason.
- CaptureBuffers.CaptureBuffer.WithCapacity: requires a capacity of at least 1. For a
  smaller one the Java constructor throws `IllegalArgumentException`, so no buffer exists.
- The `mQueue == null` branches of put, take and poll are not modelled. Every constructor
  either assigns a queue or throws, so the field is never null.
- `getLostPacketPct` is not modelled. It uses floating point and divides by zero when no
  put has succeeded.
- The face view's timestamps and its updates-per-second log line are not modelled. They
  read the clock.
- Camera hardware and the Google Vision library are not modelled. This covers the
  `FaceDetector` and `CameraSource` builders, `CameraSource.start`, `stop` and `release`,
  `destroy`, `startCapture`, `onPictureTaken`, `FaceTrackerFactory`, and the empty tracker
  callbacks. Their outcomes are the `buildSucceeds` and `startFails` parameters.
- A `CameraAccessException` from the camera id list is folded into `buildSucceeds`. So is
  the builder's handling of facing -1.
- The camera source is kept as present or absent, with its facing. Whether it is running
  is not tracked, because the code never reads that.
- The identity getters return constants. They are the constants `FaceDeviceId`,
  `FaceDeviceName`, `FaceDeviceVersion`, `FaceDeviceVendor` and `FaceDeviceType`, not
  members.
- `getCapturedFiles` is not modelled; it only returns the field. No code in the library
  fills the file list, and `CaptureFile` is kept as a plain record.
- For implementations of `CaptureView` other than `FaceCaptureView`, what `onStateChanged`
  does is not modelled. The ghost notification log records that it was called.
- A null buffer returned by `getCaptureBuffer` is not modelled. Every viewer has a buffer.
  In Java the cast of null succeeds and the viewer is added.
- Null items, null error codes and null argument entries are not modelled. Items are
  values.
- Integer widths are not modelled. The Java `long` counters and the `int` face count are
  unbounded integers here.
- Logging and `printStackTrace` are not modelled.
- The UI classes are not modelled: `FaceCaptureFragment`, `FaceCaptureActivity` and the
  Android permission flow.
