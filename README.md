# camera-service: camera session, live view, exposure and video schedule

A Dafny model of the core of camera-service. This is a small HTTP service that drives one
gphoto2 camera. It opens the camera lazily and closes it on request. It streams live-view
frames, takes stills, reads and writes three exposure settings (ISO, shutter speed,
aperture), and loops uploaded pictures into a 15-second video.

The model treats the camera driver as an oracle. Every driver call appears as a parameter
holding its outcome: a value, or an error with its text (`Driver.Result`). HTTP responses
are a status code plus the payload the handler builds (`Http.Response`).

Modules, one per concern of `app.py`:

- `Driver`, `Http` (driver.dfy): the driver's values and the response shape.
- `Session` (session.dfy): the state machine for the globals `camera` and `stream_active`,
  plus the camera's stored exposure settings and a count of the `set_config` calls it has
  received. Each `with camera_lock:` block is one atomic step. Such a step is
  `InitCamera`, `ReleaseCamera`, or a function whose name ends in `Locked`. Each handler is a
  function that runs its steps in order. The lemmas about these functions are the
  properties of the session.
- `LiveStream` (livestream.dfy): the `generate_frames` loop and the multipart framing of
  each preview picture.
- `Video` (video.dfy): orientation, the numbered upload file names, and the nested loops
  that build the encoder's frame schedule.
- `Service` (service.dfy): class `CameraService`. Its fields are the globals. Its methods
  are the handlers and locked blocks, written imperatively. Each method's postcondition ties
  its result and new state to the `Session` function for the same steps. The exception is
  `Liveview`, whose postcondition is stated through `LiveStream.FramesPrefix` and the
  `LiveStream.Stop` reason.

Three behaviours of the code worth noting:

- A failed preview inside `generate_frames` only ends the loop (app.py:78-80). It does not
  clear `stream_active` and does not release the camera. `GenerateFrames` and
  `CameraService.Liveview` modify nothing.
- `set_exposure_params` sets fields on a local copy of the config. It calls
  `camera.set_config` only after every given field was accepted (app.py:233-254). So a
  rejected request never changes the camera. Nothing is applied partially.
- A failure in `get_exposure_options` or `get_exposure` does not release the camera. Only
  `capture` releases it on failure.

The locked blocks are modelled separately from the handlers, so a block can also run when
another request released the camera after this handler's `init_camera`. In that case the
exposure blocks answer 500 with Python's `AttributeError` text, and the capture block fails
and releases. For the live view, each pass of the loop is a `LiveStream.Turn`. A turn holds
what the pass observes: the flag, whether the handle is set, and the preview outcome. Any
interleaving of other requests between passes is therefore covered.

## Model

| member | source | states |
|---|---|---|
| Session.Boot | app.py:31-33 | At start no camera handle is held and the stream flag is down |
| Session.InitCamera | app.py:36-49 | The result is true exactly when a handle is held afterwards. An open handle is kept and the open is not attempted. With no handle the result is the open's success, and a failed open leaves no handle. The flag and device are untouched |
| Session.ReleaseCamera | app.py:52-62 | For either outcome of `exit()` the handle is cleared, and nothing else changes |
| Session.InitKeepsOpenHandle | app.py:39-49 | With a handle already held, init returns true and changes nothing, whatever the driver would do |
| Session.InitRetriesAfterFailure | app.py:40-48 | A failed open is not cached: the state is unchanged, and the next init opens the camera when the driver succeeds |
| Session.InitIdempotent | app.py:36-49 | A second init after a successful one returns the same result and state |
| Session.ReleaseIdempotent | app.py:52-62 | Releasing twice equals releasing once, and releasing a released session changes nothing |
| Session.StartStream | app.py:84-97 | A failed init answers 500 "Camera initialization failed" and leaves the state unchanged. Otherwise the flag is up afterwards, and the reply is "Stream started" or, if the flag was already up, "Stream already running" |
| Session.StartTwice | app.py:93-97 | After a successful start, a second start reports "Stream already running" and changes nothing |
| Session.StopStream | app.py:100-108 | Whatever the prior state, the flag is down, the handle is cleared and the reply is 200 "Stream stopped" |
| Session.StopIdempotent | app.py:100-108 | Stopping twice equals stopping once |
| Session.StopReturnsToBoot | app.py:100-108 | Stopping returns the session to its start state |
| Session.CaptureLocked | app.py:138-156 | The block succeeds exactly when a handle is held and all four driver steps succeed, and then it yields the fetched picture |
| Session.Capture | app.py:129-163 | 503 exactly when init fails, and 200 exactly when init and the block succeed. On 200 the handle is kept and the picture is returned. Every non-200 outcome ends with no handle. The flag and device are untouched |
| Session.CaptureFailureReopens | app.py:158-163 | After a failed capture the next init opens the camera afresh |
| Session.OptionsLocked | app.py:172-198 | 200 with the driver's choice lists exactly when a handle is held and the read succeeds, otherwise 500 |
| Session.ExposureOptions | app.py:166-198 | The state after the handler is the state after init, with no release on failure. 503 exactly when init fails |
| Session.ExposureLocked | app.py:206-216 | 200 with the camera's stored settings exactly when a handle is held and the read succeeds, otherwise 500 |
| Session.GetExposure | app.py:201-216 | The state after the handler is the state after init, with no release on failure. 503 exactly when init fails |
| Session.ReadFailureKeepsCamera | app.py:195-216 | With an open camera both read handlers leave the state unchanged, and a failed read answers 500 with the driver's error text |
| Session.RequestsInOrder | app.py:233-252 | The first rejected field of the ordered list iso, shutter, aperture (given fields only) is the one the three tests in a row stop at. Setting the list in order gives the same config copy |
| Session.ApplyQuery | app.py:233-252 | Applying a query sets exactly the given, non-empty fields and keeps the others |
| Session.SetExposureLocked | app.py:229-256 | 400 exactly when the read succeeds and some given field is rejected. The message names the first rejected field and its value, and the state is unchanged. `set_config` is called once exactly when every given field is accepted, and never otherwise. 200 exactly when that call succeeds, and then the camera holds the old settings with the given fields replaced. On any other outcome the stored settings are unchanged. The handle and flag are never touched |
| Session.SetExposure | app.py:219-261 | 503 exactly when init fails, with no state change. Otherwise it is the locked block run on the state after init |
| Session.SetThenGet | app.py:201-256 | After an accepted update, reading the exposure answers 200 with the updated settings |
| LiveStream.Header | app.py:75-76 | The part header is the 37 bytes of the boundary line and content-type line |
| LiveStream.Chunk | app.py:74-77 | A part is the header, the picture and CRLF, and starts with the header |
| LiveStream.ChunkRoundTrip | app.py:74-77 | Stripping header and trailer from a part gives back the picture |
| LiveStream.GenerateFrames | app.py:65-81 | The output is the framed pictures of the longest run of passes that start the sequence and have the flag up, a handle set and a good preview, in order. The first other pass decides the stop: flag down, no handle, or the preview error. An inactive first pass emits nothing. Nothing is modified |
| Video.WideIffLandscape | app.py:271-277 | The output is 1080x720 exactly when the effective orientation is "landscape". The form value is used unless it is absent or empty, and then the query value. Otherwise it is 720x1080 |
| Video.Pad4Value | app.py:282 | Reading a `{i:04d}` name back as digits gives i |
| Video.FileNameInjective | app.py:281-285 | Different uploads get different file names |
| Video.JoinInjective | app.py:283 | Joining one directory with different names gives different paths |
| Video.UploadPathsDistinct | app.py:281-285 | Different uploads are saved at different paths |
| Video.SaveUploads | app.py:279-285 | Upload i is saved at `tmp/{i:04d}.jpg`, and afterwards every saved file holds its own upload, none overwritten |
| Video.EncodeFrames | app.py:311-321 | The encoder receives 45 × 10 frames, and output frame k comes from picture `(k / 10) mod n` |
| Video.Video | app.py:264-329 | An empty upload answers 400 "No images uploaded" before any work. Otherwise 200 with the orientation's size, stream rate 30, and 15 × 30 = 450 frames, frame k showing upload `(k / 10) mod n` |
| Video.ShownIff | app.py:312-313 | Upload j of n appears in the video exactly when j < 45 |
| Service.CameraService.constructor | app.py:31-33 | The object starts in the start state |
| Service.CameraService.InitCamera | app.py:36-49 | The new state and result are those of `Session.InitCamera` |
| Service.CameraService.ReleaseCamera | app.py:52-62 | The new state is that of `Session.ReleaseCamera` |
| Service.CameraService.StartStream | app.py:84-97 | The new state and response are those of `Session.StartStream` |
| Service.CameraService.StopStream | app.py:100-108 | The new state and response are those of `Session.StopStream` |
| Service.CameraService.Liveview | app.py:116-126 | Flag down: 400 "Stream not active…" and the stop is `Inactive`. Flag up: 200 multipart. With no handle there are no parts, and the stop is `NoCamera` once a pass is pulled. Otherwise the parts frame the longest run of good previews starting the sequence. The preview right after them failed and its error is the stop reason, or every pulled preview was framed and the stop is `ConsumerDone`. The state is unchanged |
| Service.CameraService.CaptureLocked | app.py:138-156 | The result is that of `Session.CaptureLocked` on the current state, which is unchanged |
| Service.CameraService.Capture | app.py:129-163 | The new state and response are those of `Session.Capture` |
| Service.CameraService.OptionsLocked | app.py:172-198 | The response is that of `Session.OptionsLocked`, and the state is unchanged |
| Service.CameraService.ExposureOptions | app.py:166-198 | The new state and response are those of `Session.ExposureOptions` |
| Service.CameraService.ExposureLocked | app.py:206-216 | The response is that of `Session.ExposureLocked`, and the state is unchanged |
| Service.CameraService.GetExposure | app.py:201-216 | The new state and response are those of `Session.GetExposure` |
| Service.CameraService.SetExposureLocked | app.py:229-256 | The new state and response are those of `Session.SetExposureLocked` |
| Service.CameraService.SetExposure | app.py:219-261 | The new state and response are those of `Session.SetExposure` |

## Left out

- Flask routing, `jsonify`, `send_file`, CORS and request parsing. Responses are a status
  code and a payload, and query and form values arrive as `Option<string>` parameters.
- The gphoto2 driver. Each call is an outcome parameter: the open, `exit()`, the four
  capture steps, the config reads, and `set_config`. Whether `set_value` accepts a field
  (including a missing widget, which raises and also answers 400) is the `accepts`
  parameter. The exposure reads stand for the whole `get_config`/`get_child_by_name`/
  `get_value` sequence of their block.
- Session.CaptureLocked: the text of the error raised by a capture call on a `camera` that
  is None is not modelled. It is the placeholder `NO_CAMERA`.
- Session.ExposureLocked: the device is assumed to report exactly the settings last committed to it.
  What `get_value` returns is up to the camera, and app.py:208-212 forwards it unchecked. `Session.SetThenGet`
  rests on this assumption.
- Session.SetExposureLocked: a failing `set_config` is assumed to write nothing to the device. app.py:254-259
  only reports the error. The claim that the stored settings are unchanged after a failed commit rests on this
  assumption.
- Session.InitCamera: only driver errors are modelled. An exception of another type from
  `camera.init()` would propagate with `camera` still bound. The model does not capture it.
- Session.ReleaseCamera: only driver errors from `exit()` are modelled. Another exception
  type would propagate after the `finally` clears `camera` (app.py:56-62), and then
  `stop_stream` (app.py:107) would not reach its 200 reply. `Session.StopStream` answers 200
  for every modelled `exit` outcome.
- Session.SetExposureLocked: only driver errors from `set_value` are modelled. The `accepts`
  parameter turns every refusal into the 400 reply. Another exception type would skip that
  reply (app.py:236, 242, 248) and answer 500 with its text (app.py:260-261).
- The lock and concurrency. Each `with camera_lock:` block is one atomic step. The live
  view's generator yields while holding the lock, so the lock is held until the consumer
  pulls again. The model does not capture that.
- Service.CameraService.Liveview: specified only for a stream that no other request
  interrupts (the flag and handle stay fixed). Interleaved runs are covered by
  `LiveStream.GenerateFrames` over explicit turns. The consumer stopping (its sequence of
  pulls ending) is the `ConsumerDone` stop. Disconnect handling inside the server is not
  modelled.
- `time.sleep(frame_time)` and the float `frame_time`: timing and floating point.
- Picture decoding, RGB conversion, PyAV encoding, muxing and the flush, the size read from
  the first picture (unused), and the local `capture.jpg` write. Saved files are a map from
  path to bytes, and the encoder's input is the picture bytes at each scheduled path.
- The `SIMULATION` branches. The switch is the constant `False`.
- The `/` status route, which returns a fixed body.
- The `waitress.serve` bootstrap. Its `finally` clears the flag and releases the camera,
  which is the same state change as `Session.StopStream` (see `Session.StopReturnsToBoot`).
- The camera's internal storage. A capture writes to it and deletes from it, and only the
  outcome of those steps is modelled.
