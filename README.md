# Face-liveness capture: the video chunker and the detector view's decisions

This project models two pieces of the face-liveness feature of the Amplify UI
Swift liveness component and proves what they promise.

- **`VideoChunker`** records the camera stream for the liveness check. It is
  a four-state machine (`pending`, `writing`, `awaitingSingleFrame`,
  `complete`) around an asset writer. `start` opens the writer's session.
  `consume` appends each frame at its timestamp rebased to the first frame.
  `finish` asks the writer to finalise and arms a one-shot request for a
  still image, which the next frame with an image buffer satisfies.
- **`FaceLivenessDetectorView`** decides what the screen shows and what it
  reports. It maps liveness errors and session errors to the errors it gives
  its caller. It moves through four display states, driven by camera
  permission, the session task, the Begin button and the published liveness
  state.

Files:

- `options.dfy` (module `Options`): Swift's `Optional`.
- `chunker_model.dfy` (module `ChunkerModel`): the chunker as values. A
  `Model` record holds the chunker's fields (`state`, `startTime`,
  `provideSingleFrame`, `onSingleFrameCaptured`), the writer's `status` and
  readiness, the log of writer calls and the log of callback invocations.
  `Started`, `Finished` and `Consumed` are the three operations. `Coherent` is
  the invariant they keep. `Run` replays a sequence of calls and platform
  changes, and the lemmas state what holds over every such sequence.
- `video_chunker.dfy` (module `AV`): the chunker as the mutable object of the
  source. It holds an `AssetWriter` object with a ghost log of the calls made
  on it. Each method's effect on the (chunker, writer) pair is proved equal to
  the matching `ChunkerModel` operation, and each method keeps `Valid()`.
- `liveness_view.dfy` (module `LivenessView`): the two error mappings, the
  view-state record, one transition function per handler, a dispatcher that
  runs a handler only while its screen is shown, and lemmas over sequences of
  events.

Modelling choices:

- Time is kept in integer ticks of the 600-per-second timescale the source
  builds its `CMTime` values with. The presentation time of a frame is its
  timestamp minus the origin, computed exactly.
- A sample buffer is a timestamp plus an optional opaque pixel buffer. The
  still image made from a pixel buffer is an opaque `ImageOf(buffer)`.
- Closures are opaque identities (`Callback`). Calling one is recorded as a
  `Notification` on one of two channels. `SessionStart` is
  `onSingleFrameCaptured`; `StillFrameRequest` is the callback stored by
  `finish`.
- The writer is abstract. The model's writer calls only add to its log and
  leave its `status` and its input's `isReadyForMoreMediaData` alone; those
  move only through `SetStatus` and `SetReadyForMoreMediaData` (the
  `StatusChanged` and `ReadinessChanged` events of a run). The completion of
  an asynchronous `finishWriting` is such a status change.
- `LivenessError`, `FaceLivenessSessionError` and
  `FaceLivenessDetectionError` are declared in files that are not part of
  this model. Each is modelled with the cases the two mappings name. The two
  input enums have one more catch-all case, which stands for every other case.
- `webSocketCloseCode` belongs to the liveness error type, which is not part
  of this model. It is carried as an optional close code on the
  `encounteredUnrecoverableError` event.

Behaviour of the chunker that the model keeps as the code has it:

- `captureSingleFrame` (`VideoChunker.swift:93-97`) always returns nil, so
  `start` never calls `onSingleFrameCaptured`.
- `finish` (`VideoChunker.swift:50-52`) stores the callback and re-arms
  `awaitingSingleFrame` from any state, `pending` and `complete` included.
- The origin comes from the first frame consumed while `writing` and while
  the writer is ready (`VideoChunker.swift:70-77`). That frame sets the origin
  even when it has no image buffer and is therefore not appended.

## Model

| member | source | states |
|---|---|---|
| `ChunkerModel.CaptureSingleFrame` | Sources/FaceLiveness/AV/VideoChunker.swift:93-97 | The start-of-session capture never yields a frame. |
| `ChunkerModel.Started` | Sources/FaceLiveness/AV/VideoChunker.swift:38-47 | No-op unless `pending`. From `pending` it logs `startWriting` then `startSession(0)`, in that order, and enters `writing`. No callback fires, because the start-of-session frame never exists. The origin and the stored callback are unchanged. |
| `ChunkerModel.Finished` | Sources/FaceLiveness/AV/VideoChunker.swift:50-57 | From any state it ends in `awaitingSingleFrame` with the given callback stored. The number of finish requests grows by one unless the writer reports `completed`; then the log is unchanged, so a completed writer is never finalised again. No append, origin and notifications unchanged. |
| `ChunkerModel.Consumed` | Sources/FaceLiveness/AV/VideoChunker.swift:60-84 | In `pending` or `complete`, nothing changes. In `awaitingSingleFrame`, a frame without an image changes nothing; a frame with one invokes the stored callback once with that frame's image, moves to `complete` and is not appended. In `writing` with a busy writer, nothing changes and the frame is dropped. In `writing` with a ready writer, the origin becomes the first such frame's timestamp and is kept after that; the frame is appended at `timestamp - origin` exactly when it has an image. Appends happen only from `writing`. |
| `ChunkerModel.StartedCoherent` | Sources/FaceLiveness/AV/VideoChunker.swift:38-42 | `start` keeps the chunker invariant `Coherent`. |
| `ChunkerModel.FinishedCoherent` | Sources/FaceLiveness/AV/VideoChunker.swift:50-57 | `finish` keeps `Coherent`. Trailing finish requests do not disturb the recorded session. |
| `ChunkerModel.ConsumedCoherent` | Sources/FaceLiveness/AV/VideoChunker.swift:60-84 | `consume` keeps `Coherent`. An append extends a recording log. |
| `ChunkerModel.RunCoherent` | Sources/FaceLiveness/AV/VideoChunker.swift:38-84 | Every sequence of calls and platform changes keeps `Coherent`. The callback is stored exactly in `awaitingSingleFrame`/`complete`. The writer log is `startWriting`, `startSession(0)`, appends, then only finish requests. Nothing happens in `pending`. No append precedes the origin. |
| `ChunkerModel.ReachableCoherent` | Sources/FaceLiveness/AV/VideoChunker.swift:13-19 | A fresh chunker, and every chunker reachable from it, is `Coherent`. |
| `ChunkerModel.OriginSetOnce` | Sources/FaceLiveness/AV/VideoChunker.swift:72 | Once `startTimeSeconds` is set, no sequence of calls reassigns it. |
| `ChunkerModel.NothingBeforeStart` | Sources/FaceLiveness/AV/VideoChunker.swift:61-68 | Frames consumed before `start` (with no `finish`) write nothing. The chunker stays `pending`, with no origin and no notification. |
| `ChunkerModel.NoAppendAfterFinish` | Sources/FaceLiveness/AV/VideoChunker.swift:50-52 | Once `finish` has been called, no later call appends a frame. |
| `ChunkerModel.ProvidedAtMostOncePerFinish` | Sources/FaceLiveness/AV/VideoChunker.swift:61-66 | Over any sequence of calls, still-frame deliveries plus an armed request never exceed the prior ones plus the number of `finish` calls. The callback fires at most once per `finish`, then `complete`. |
| `ChunkerModel.StillFramesBoundedByFinishes` | Sources/FaceLiveness/AV/VideoChunker.swift:50-66 | From a fresh chunker, the still-frame callback fires at most as many times as `finish` is called. |
| `ChunkerModel.PresentationTimesNondecreasing` | Sources/FaceLiveness/AV/VideoChunker.swift:71-82 | From a fresh chunker, when consumed timestamps never go backwards, neither do the appended presentation times. |
| `ChunkerModel.RecordingScenario` | Sources/FaceLiveness/AV/VideoChunker.swift:38-82 | Start, frames at any `t0` and one 30 fps interval (`Timescale / 30` ticks) later, finish, then a third frame. The result is appends at 0 and one interval, one finish request, one still-frame delivery from the third frame, and `complete`. |
| `AV.VideoChunker.constructor` | Sources/FaceLiveness/AV/VideoChunker.swift:22-36 | A new chunker over an unused writer is `pending` with no origin and no stored callback, and is `Valid`. |
| `AV.VideoChunker.Start` | Sources/FaceLiveness/AV/VideoChunker.swift:38-48 | The new (chunker, writer) state is `Started` of the old one, and `Valid` is kept. Outside `pending` nothing changes. From `pending` the writer receives `startWriting` then `startSession(0)`, and no callback fires. |
| `AV.VideoChunker.Finish` | Sources/FaceLiveness/AV/VideoChunker.swift:50-58 | The new state is `Finished` of the old one, and `Valid` is kept. The callback is stored and `awaitingSingleFrame` is re-armed. `finishWriting` is called exactly when the writer was not `completed`. |
| `AV.VideoChunker.Consume` | Sources/FaceLiveness/AV/VideoChunker.swift:60-84 | The new state is `Consumed` of the old one, and `Valid` is kept. The writer log is unchanged unless the chunker was `writing` on entry. A set origin stays. A callback fires only on the move from `awaitingSingleFrame` to `complete`, once, with the consumed frame's image. |
| `LivenessView.MapError` | Sources/FaceLiveness/Views/Liveness/FaceLivenessDetectionView.swift:221-234 | Each clause is an if-and-only-if. `userCancelled` comes exactly from `userCancelled`/`viewResignation`; `faceInOvalMatchExceededTimeLimitError` exactly from `timedOut`; `socketClosed` and `cameraNotAvailable` exactly from their namesakes; `cameraPermissionDenied` exactly from every other liveness error. |
| `LivenessView.MappedCompletion` | Sources/FaceLiveness/Views/Liveness/FaceLivenessDetectionView.swift:278-307 | One invocation of the closure from `map(detectionCompletion:)` calls the wrapped completion exactly once, in each of its eleven arms. Success goes exactly to success. Each of the nine named session errors goes to the detection error with the same case name. Every other session error goes to `unknown`, and only those do. |
| `LivenessView.NamedSessionErrorsStayDistinct` | Sources/FaceLiveness/Views/Liveness/FaceLivenessDetectionView.swift:285-302 | Two different named session errors are never reported as the same detection error. |
| `LivenessView.DeliverAll` | Sources/FaceLiveness/Views/Liveness/FaceLivenessDetectionView.swift:278-307 | Over a sequence of invocations, the wrapped completion receives exactly one call per result, in order, each with the translated result. |
| `LivenessView.Initial` | Sources/FaceLiveness/Views/Liveness/FaceLivenessDetectionView.swift:28-29 | The view starts in `awaitingCameraPermission` with the alert off and no liveness service. |
| `LivenessView.AlertCameraAccessNeeded` | Sources/FaceLiveness/Views/Liveness/FaceLivenessDetectionView.swift:247-249 | Raises the camera-permission alert. The display state, presentation, service and `disableStartView` are unchanged. |
| `LivenessView.CheckCameraPermission` | Sources/FaceLiveness/Views/Liveness/FaceLivenessDetectionView.swift:247-263 | `authorized` goes to `awaitingLivenessSession`. `restricted`/`denied` only set the alert flag, and `displayState` is unchanged. `notDetermined` requests access and changes nothing else. Any future status changes nothing. |
| `LivenessView.OnCameraAccessAnswered` | Sources/FaceLiveness/Views/Liveness/FaceLivenessDetectionView.swift:236-245 | A grant moves to `awaitingLivenessSession`. A denial changes nothing. |
| `LivenessView.SessionTarget` | Sources/FaceLiveness/Views/Liveness/FaceLivenessDetectionView.swift:152-155 | The target is `displayingLiveness` exactly when `disableStartView`, and otherwise `displayingGetReadyView`. |
| `LivenessView.OnSessionViewAppeared` | Sources/FaceLiveness/Views/Liveness/FaceLivenessDetectionView.swift:147-165 | Skipped when the view already shows the target; a failed session task also changes nothing. Otherwise the view holds the service, registers for service events and shows the target. `isPresented`, the alert flag and `disableStartView` are unchanged. |
| `LivenessView.OnBegin` | Sources/FaceLiveness/Views/Liveness/FaceLivenessDetectionView.swift:169-172 | The view ends in `displayingLiveness`, and nothing else changes. Pressing Begin there again changes nothing (idempotent). |
| `LivenessView.OnLivenessState` | Sources/FaceLiveness/Views/Liveness/FaceLivenessDetectionView.swift:197-210 | `completed` dismisses the view and reports success. `encounteredUnrecoverableError(e)` closes the socket when there is a service, with `e`'s close code or 1000 (normal closure). It then dismisses the view and reports `failure(mapError(e))`, after the close. Other states change nothing. |
| `LivenessView.Dispatch` | Sources/FaceLiveness/Views/Liveness/FaceLivenessDetectionView.swift:145-219 | Each screen's handler runs only while that screen is shown; elsewhere its event changes nothing and calls nothing. The session's completion closure (`:67`, `:124`) reports its translated result on any screen without touching the view. The close button (`:97`, `:139`) reports `userCancelled` on any screen without touching the view. `disableStartView` never changes. |
| `LivenessView.CloseButtonResult` | Sources/FaceLiveness/Views/Liveness/FaceLivenessDetectionView.swift:97 | The close button reports `failure(userCancelled)`. |
| `LivenessView.NoProgressWithoutPermission` | Sources/FaceLiveness/Views/Liveness/FaceLivenessDetectionView.swift:211-263 | Without an `authorized` status or a granted access request, the view stays on the permission screen. It never registers for service events or closes a socket. Its only calls are access requests and results reported by the session or the close button. |
| `LivenessView.PermissionScreenNotRevisited` | Sources/FaceLiveness/Views/Liveness/FaceLivenessDetectionView.swift:145-219 | Once the view has left `awaitingCameraPermission`, no event brings it back. |
| `LivenessView.NoGetReadyViewWhenDisabled` | Sources/FaceLiveness/Views/Liveness/FaceLivenessDetectionView.swift:147-172 | With `disableStartView`, the Begin screen is never shown. |
| `LivenessView.NeverRepresented` | Sources/FaceLiveness/Views/Liveness/FaceLivenessDetectionView.swift:197-209 | The view only ever sets `isPresented` to false, never back to true. |
| `LivenessView.CompletionSources` | Sources/FaceLiveness/Views/Liveness/FaceLivenessDetectionView.swift:180-210 | A result reaches the caller in one of three ways. The session's completion closure reports exactly its translated result and leaves the view as it is. The close button reports `userCancelled` and leaves the view as it is. Otherwise the result comes from a liveness state received on the liveness screen, and the view is dismissed in the same step. |

## Left out

- Writer setup in `VideoChunker.init` (`VideoChunker.swift:28-34`) is not modelled: the pixel-buffer adaptor, `expectsMediaDataInRealTime`, the delegate and `add(input)`. These are platform configuration with no effect on the state machine.
- Real encoding and muxing by the asset writer is not modelled. So is the `Bool` that the adaptor's `append` returns, which the source ignores.
- `Double`-second timestamps and the rounding `CMTime(seconds:preferredTimescale: 600)` performs are not modelled: time is exact integer ticks.
- The image conversion in `singleFrame(from:)` (`VideoChunker.swift:86-90`) is opaque: the image is identified with its pixel buffer.
- Asynchronous finalisation (`finishWriting {}`) is not modelled, and neither are the capture thread, `Task`/`await` and `DispatchQueue.main.async`. Each operation runs atomically. The writer's move to `completed` is a platform status change.
- `LivenessView.OnSessionViewAppeared`: the source checks the target before awaiting the session task and assigns `displayState` after it; the model runs both at once, so another handler running during the await is not captured.
- The `throw` in the session task's `catch` (`FaceLivenessDetectionView.swift:161-163`) is lost inside the task. A failed session task is modelled as changing nothing.
- The view's initialisers (`FaceLivenessDetectionView.swift:36-143`) are not modelled beyond the two closures they hand on: the session completion (`map(detectionCompletion:)`) and the close button's `userCancelled`, both events of `Dispatch`. They also create the session task, the face detector, the capture session and the view model, which are code that is not part of this model.
- `FinalImageViewModel` (`FaceLivenessDetectionView.swift:15-20`) is not modelled. It receives the start-of-session frame, which never exists.
- SwiftUI rendering, screen brightness, the camera and Begin screens, and `stopRecording` on disappear are not modelled.
- The writer's own call-order and status requirements are not modelled: the abstract writer accepts every call in every status. `startWriting` does not move it to `writing`, and a `finish` before `start` calls `finishWriting` on a writer that was never started, which the model records without complaint.
- The liveness service session start, credentials, face detection and oval matching are calls into code that is not part of this model.
