/** The camera session and stream flag as a sequential state machine.
    Each `with camera_lock:` block of the service is one atomic step (a function
    ending in `Locked`, or InitCamera and ReleaseCamera); each HTTP handler is the
    sequence of steps it runs. Driver calls are parameters holding their outcome. */
module Session {
  import opened Driver
  import opened Http

  /** The physical camera as an instrumented device: the exposure settings
      stored in it and the number of `set_config` calls it has received. */
  datatype Hardware = Hardware(settings: Exposure, setConfigCalls: nat)

  /** The two module-level globals `camera` and `stream_active`, and the device. */
  datatype State = State(camera: Option<Handle>, streamActive: bool, hardware: Hardware)

  datatype Init = Init(state: State, ok: bool)

  datatype Reply = Reply(state: State, response: Response)

  /** The service at process start: no handle, no stream. */
  function Boot(hw: Hardware): (s: State)
    ensures s.camera.None? && !s.streamActive && s.hardware == hw
  {
    State(None, false, hw)
  }

  const INIT_FAILED := "Camera initialization failed"
  const NOT_AVAILABLE := "Camera not available"
  const STREAM_STARTED := "Stream started"
  const STREAM_RUNNING := "Stream already running"
  const STREAM_STOPPED := "Stream stopped"
  const NOT_ACTIVE := "Stream not active. Call /stream/start first"
  /** Text of the AttributeError raised by `camera.get_config()` once `camera` is None. */
  const NO_GET_CONFIG := "'NoneType' object has no attribute 'get_config'"
  /** Text of the error raised by a capture call made on a `camera` that is None. */
  const NO_CAMERA := "camera is None"

  // ---------------------------------------------------------------- lifecycle

  /** init_camera: open lazily; a failed open is not cached. */
  function InitCamera(s: State, open: Result<Handle>): (r: Init)
    ensures r.ok <==> r.state.camera.Some?
    ensures r.state.streamActive == s.streamActive && r.state.hardware == s.hardware
    ensures s.camera.Some? ==> r.state == s
    ensures s.camera.None? ==> (r.ok <==> open.Ok?)
    ensures s.camera.None? && open.Ok? ==> r.state.camera == Some(open.value)
  {
    if s.camera.Some? then Init(s, true)
    else match open
      case Ok(h) => Init(s.(camera := Some(h)), true)
      case Err(_) => Init(s.(camera := None), false)
  }

  /** release_camera: close if open; the outcome of `exit()` is only logged,
      and the handle is cleared either way. */
  function ReleaseCamera(s: State, exit: Attempt): (s': State)
    ensures s'.camera.None?
    ensures s'.streamActive == s.streamActive && s'.hardware == s.hardware
  {
    if s.camera.Some? then s.(camera := None) else s
  }

  lemma InitKeepsOpenHandle(s: State, open: Result<Handle>)
    requires s.camera.Some?
    ensures InitCamera(s, open) == Init(s, true)
  {
  }

  /** After a failed open the handle is still None, so the next call tries again. */
  lemma InitRetriesAfterFailure(s: State, failed: Result<Handle>, h: Handle)
    requires s.camera.None? && failed.Err?
    ensures InitCamera(s, failed) == Init(s, false)
    ensures InitCamera(InitCamera(s, failed).state, Ok(h)) == Init(s.(camera := Some(h)), true)
  {
  }

  lemma InitIdempotent(s: State, first: Result<Handle>, second: Result<Handle>)
    requires InitCamera(s, first).ok
    ensures InitCamera(InitCamera(s, first).state, second) == InitCamera(s, first)
  {
  }

  lemma ReleaseIdempotent(s: State, e1: Attempt, e2: Attempt)
    ensures ReleaseCamera(ReleaseCamera(s, e1), e2) == ReleaseCamera(s, e1)
    ensures s.camera.None? ==> ReleaseCamera(s, e1) == s
  {
  }

  // ---------------------------------------------------------------- stream flag

  /** start_stream: open the camera, then raise the flag unless it is up already. */
  function StartStream(s: State, open: Result<Handle>): (r: Reply)
    ensures !InitCamera(s, open).ok ==>
      r.state == s && r.response == Response(500, Error(INIT_FAILED))
    ensures InitCamera(s, open).ok ==>
      r.state == InitCamera(s, open).state.(streamActive := true)
    ensures InitCamera(s, open).ok ==>
      r.response == Response(200, Status(if s.streamActive then STREAM_RUNNING else STREAM_STARTED))
  {
    var i := InitCamera(s, open);
    if !i.ok then Reply(i.state, Response(500, Error(INIT_FAILED)))
    else if !i.state.streamActive then
      Reply(i.state.(streamActive := true), Response(200, Status(STREAM_STARTED)))
    else Reply(i.state, Response(200, Status(STREAM_RUNNING)))
  }

  /** stop_stream: lower the flag, then release the camera. */
  function StopStream(s: State, exit: Attempt): (r: Reply)
    ensures !r.state.streamActive && r.state.camera.None? && r.state.hardware == s.hardware
    ensures r.response == Response(200, Status(STREAM_STOPPED))
  {
    Reply(ReleaseCamera(s.(streamActive := false), exit), Response(200, Status(STREAM_STOPPED)))
  }

  /** A second start reports that the stream is running and changes nothing. */
  lemma StartTwice(s: State, o1: Result<Handle>, o2: Result<Handle>)
    requires StartStream(s, o1).response.code == 200
    ensures StartStream(s, o1).state.streamActive
    ensures StartStream(StartStream(s, o1).state, o2) ==
            Reply(StartStream(s, o1).state, Response(200, Status(STREAM_RUNNING)))
  {
  }

  lemma StopIdempotent(s: State, e1: Attempt, e2: Attempt)
    ensures StopStream(StopStream(s, e1).state, e2) == StopStream(s, e1)
  {
  }

  /** The shutdown path (flag cleared, camera released) leaves the state a
      fresh start would begin from. */
  lemma StopReturnsToBoot(s: State, exit: Attempt)
    ensures StopStream(s, exit).state == Boot(s.hardware)
  {
  }

  // ---------------------------------------------------------------- still capture

  /** The locked block of `capture`: the four driver calls run in order and the
      first failure aborts; nothing here touches the session state. */
  function CaptureLocked(s: State, shot: Shot): (r: Result<Bytes>)
    ensures r.Ok? <==>
      s.camera.Some? && shot.trigger.Ok? && shot.fetch.Ok? && shot.save.Ok? && shot.delete.Ok?
    ensures r.Ok? ==> r.value == shot.fetch.value
    ensures s.camera.Some? && shot.trigger.Err? ==> r == Err(shot.trigger.reason)
  {
    if s.camera.None? then Err(NO_CAMERA)
    else if shot.trigger.Err? then Err(shot.trigger.reason)
    else if shot.fetch.Err? then Err(shot.fetch.reason)
    else if shot.save.Err? then Err(shot.save.reason)
    else if shot.delete.Err? then Err(shot.delete.reason)
    else Ok(shot.fetch.value)
  }

  /** capture: open, run the locked block, and release the camera on any failure. */
  function Capture(s: State, open: Result<Handle>, shot: Shot, exit: Attempt): (r: Reply)
    ensures r.response.code == 200 || r.response.code == 500 || r.response.code == 503
    ensures r.response.code == 503 <==> !InitCamera(s, open).ok
    ensures r.response.code == 200 <==>
      InitCamera(s, open).ok && CaptureLocked(InitCamera(s, open).state, shot).Ok?
    ensures r.response.code != 200 ==> r.state.camera.None?
    ensures r.response.code == 200 ==>
      r.state == InitCamera(s, open).state && r.response.body == Jpeg(shot.fetch.value)
    ensures r.state.streamActive == s.streamActive && r.state.hardware == s.hardware
  {
    var i := InitCamera(s, open);
    if !i.ok then Reply(i.state, Response(503, Error(NOT_AVAILABLE)))
    else match CaptureLocked(i.state, shot)
      case Ok(image) => Reply(i.state, Response(200, Jpeg(image)))
      case Err(reason) => Reply(ReleaseCamera(i.state, exit), Response(500, Error(reason)))
  }

  /** A failed capture leaves no handle behind, so the next open attempt starts clean. */
  lemma CaptureFailureReopens(s: State, open: Result<Handle>, shot: Shot, exit: Attempt, h: Handle)
    requires Capture(s, open, shot, exit).response.code == 500
    ensures InitCamera(Capture(s, open, shot, exit).state, Ok(h)).state.camera == Some(h)
  {
  }

  // ---------------------------------------------------------------- exposure reads

  /** The locked block of `get_exposure_options`. */
  function OptionsLocked(s: State, read: Result<Choices>): (r: Response)
    ensures r.code == 200 <==> s.camera.Some? && read.Ok?
    ensures r.code == 200 ==> r.body == Options(read.value)
    ensures r.code != 200 ==> r.code == 500
  {
    if s.camera.None? then Response(500, Error(NO_GET_CONFIG))
    else match read
      case Ok(choices) => Response(200, Options(choices))
      case Err(reason) => Response(500, Error(reason))
  }

  /** get_exposure_options: a failure is reported but the camera is not released. */
  function ExposureOptions(s: State, open: Result<Handle>, read: Result<Choices>): (r: Reply)
    ensures r.state == InitCamera(s, open).state
    ensures r.response.code == 503 <==> !InitCamera(s, open).ok
    ensures InitCamera(s, open).ok ==> r.response == OptionsLocked(r.state, read)
  {
    var i := InitCamera(s, open);
    if !i.ok then Reply(i.state, Response(503, Error(NOT_AVAILABLE)))
    else Reply(i.state, OptionsLocked(i.state, read))
  }

  /** The locked block of `get_exposure`: report the settings stored in the camera. */
  function ExposureLocked(s: State, read: Attempt): (r: Response)
    ensures r.code == 200 <==> s.camera.Some? && read.Ok?
    ensures r.code == 200 ==> r.body == Values(s.hardware.settings)
    ensures r.code != 200 ==> r.code == 500
  {
    if s.camera.None? then Response(500, Error(NO_GET_CONFIG))
    else match read
      case Ok(_) => Response(200, Values(s.hardware.settings))
      case Err(reason) => Response(500, Error(reason))
  }

  /** get_exposure: a failure is reported but the camera is not released. */
  function GetExposure(s: State, open: Result<Handle>, read: Attempt): (r: Reply)
    ensures r.state == InitCamera(s, open).state
    ensures r.response.code == 503 <==> !InitCamera(s, open).ok
    ensures InitCamera(s, open).ok ==> r.response == ExposureLocked(r.state, read)
  {
    var i := InitCamera(s, open);
    if !i.ok then Reply(i.state, Response(503, Error(NOT_AVAILABLE)))
    else Reply(i.state, ExposureLocked(i.state, read))
  }

  /** A failing read of the options or of the values leaves an open camera open. */
  lemma ReadFailureKeepsCamera(s: State, open: Result<Handle>, choices: Result<Choices>, read: Attempt)
    requires s.camera.Some?
    ensures ExposureOptions(s, open, choices).state == s
    ensures GetExposure(s, open, read).state == s
    ensures choices.Err? ==> ExposureOptions(s, open, choices).response == Response(500, Error(choices.reason))
    ensures read.Err? ==> GetExposure(s, open, read).response == Response(500, Error(read.reason))
  {
  }

  // ---------------------------------------------------------------- exposure update

  datatype Field = Iso | Shutter | Aperture

  /** The query arguments `iso`, `shutter`, `aperture` (absent is None). */
  datatype Query = Query(iso: Option<string>, shutter: Option<string>, aperture: Option<string>)

  /** A query argument counts only when present and non-empty (Python truthiness). */
  predicate Given(v: Option<string>) {
    v.Some? && v.value != ""
  }

  function InvalidMessage(f: Field, v: string): string {
    match f
    case Iso => "Invalid ISO value: " + v
    case Shutter => "Invalid Shutter value: " + v
    case Aperture => "Invalid Aperture value: " + v
  }

  function Assign(e: Exposure, f: Field, v: string): Exposure {
    match f
    case Iso => e.(iso := v)
    case Shutter => e.(shutter := v)
    case Aperture => e.(aperture := v)
  }

  /** The fields a query asks to set, in the order the handler applies them. */
  function Requests(q: Query): (rs: seq<(Field, string)>)
    ensures |rs| <= 3
  {
    (if Given(q.iso) then [(Iso, q.iso.value)] else [])
    + (if Given(q.shutter) then [(Shutter, q.shutter.value)] else [])
    + (if Given(q.aperture) then [(Aperture, q.aperture.value)] else [])
  }

  /** The first request the driver rejects, if any. */
  function FirstRejected(rs: seq<(Field, string)>, accepts: (Field, string) -> bool): Option<(Field, string)> {
    if rs == [] then None
    else if !accepts(rs[0].0, rs[0].1) then Some(rs[0])
    else FirstRejected(rs[1..], accepts)
  }

  /** The local config copy after setting every request in order. */
  function ApplyAll(e: Exposure, rs: seq<(Field, string)>): Exposure
    decreases |rs|
  {
    if rs == [] then e else ApplyAll(Assign(e, rs[0].0, rs[0].1), rs[1..])
  }

  lemma {:induction false} FirstRejectedAppend(a: seq<(Field, string)>, b: seq<(Field, string)>, accepts: (Field, string) -> bool)
    ensures FirstRejected(a + b, accepts) ==
            if FirstRejected(a, accepts).Some? then FirstRejected(a, accepts) else FirstRejected(b, accepts)
  {
    if a != [] {
      assert (a + b)[0] == a[0] && (a + b)[1..] == a[1..] + b;
      FirstRejectedAppend(a[1..], b, accepts);
    } else {
      assert a + b == b;
    }
  }

  lemma {:induction false} ApplyAllAppend(e: Exposure, a: seq<(Field, string)>, b: seq<(Field, string)>)
    ensures ApplyAll(e, a + b) == ApplyAll(ApplyAll(e, a), b)
    decreases |a|
  {
    if a != [] {
      assert (a + b)[0] == a[0] && (a + b)[1..] == a[1..] + b;
      ApplyAllAppend(Assign(e, a[0].0, a[0].1), a[1..], b);
    } else {
      assert a + b == b;
    }
  }

  /** The list view of a query agrees with the handler's three tests in a row. */
  lemma RequestsInOrder(e: Exposure, q: Query, accepts: (Field, string) -> bool)
    ensures FirstRejected(Requests(q), accepts) ==
      if Given(q.iso) && !accepts(Iso, q.iso.value) then Some((Iso, q.iso.value))
      else if Given(q.shutter) && !accepts(Shutter, q.shutter.value) then Some((Shutter, q.shutter.value))
      else if Given(q.aperture) && !accepts(Aperture, q.aperture.value) then Some((Aperture, q.aperture.value))
      else None
    ensures ApplyAll(e, Requests(q)) ==
      var c1 := if Given(q.iso) then e.(iso := q.iso.value) else e;
      var c2 := if Given(q.shutter) then c1.(shutter := q.shutter.value) else c1;
      if Given(q.aperture) then c2.(aperture := q.aperture.value) else c2
  {
    var a := if Given(q.iso) then [(Iso, q.iso.value)] else [];
    var b := if Given(q.shutter) then [(Shutter, q.shutter.value)] else [];
    var c := if Given(q.aperture) then [(Aperture, q.aperture.value)] else [];
    assert Requests(q) == a + (b + c);
    FirstRejectedAppend(a, b + c, accepts);
    FirstRejectedAppend(b, c, accepts);
    ApplyAllAppend(e, a, b + c);
    ApplyAllAppend(ApplyAll(e, a), b, c);
  }

  /** Applying a query sets exactly the given fields and keeps the others. */
  lemma ApplyQuery(e: Exposure, q: Query)
    ensures ApplyAll(e, Requests(q)).iso == if Given(q.iso) then q.iso.value else e.iso
    ensures ApplyAll(e, Requests(q)).shutter == if Given(q.shutter) then q.shutter.value else e.shutter
    ensures ApplyAll(e, Requests(q)).aperture == if Given(q.aperture) then q.aperture.value else e.aperture
  {
    RequestsInOrder(e, q, (f: Field, v: string) => true);
  }

  /** The locked block of `set_exposure_params`: read the config, set each given
      field on the local copy (the first rejection answers 400), and only then
      write the copy back with one `set_config` call. */
  function SetExposureLocked(s: State, q: Query, read: Attempt, accepts: (Field, string) -> bool, commit: Attempt): (r: Reply)
    ensures r.state.camera == s.camera && r.state.streamActive == s.streamActive
    ensures r.response.code == 200 || r.response.code == 400 || r.response.code == 500
    ensures r.response.code == 400 <==>
      s.camera.Some? && read.Ok? && FirstRejected(Requests(q), accepts).Some?
    ensures r.response.code == 400 ==>
      var f := FirstRejected(Requests(q), accepts).value;
      r.state == s && r.response.body == Error(InvalidMessage(f.0, f.1))
    ensures r.state.hardware.setConfigCalls == s.hardware.setConfigCalls +
      (if s.camera.Some? && read.Ok? && FirstRejected(Requests(q), accepts).None? then 1 else 0)
    ensures r.response.code == 200 <==>
      s.camera.Some? && read.Ok? && FirstRejected(Requests(q), accepts).None? && commit.Ok?
    ensures r.response.code == 200 ==>
      r.state.hardware.settings == ApplyAll(s.hardware.settings, Requests(q)) &&
      r.response.body == Status("ok")
    ensures r.response.code != 200 ==> r.state.hardware.settings == s.hardware.settings
  {
    RequestsInOrder(s.hardware.settings, q, accepts);
    if s.camera.None? then Reply(s, Response(500, Error(NO_GET_CONFIG)))
    else if read.Err? then Reply(s, Response(500, Error(read.reason)))
    else
      var c0 := s.hardware.settings;
      if Given(q.iso) && !accepts(Iso, q.iso.value) then
        Reply(s, Response(400, Error(InvalidMessage(Iso, q.iso.value))))
      else
        var c1 := if Given(q.iso) then c0.(iso := q.iso.value) else c0;
        if Given(q.shutter) && !accepts(Shutter, q.shutter.value) then
          Reply(s, Response(400, Error(InvalidMessage(Shutter, q.shutter.value))))
        else
          var c2 := if Given(q.shutter) then c1.(shutter := q.shutter.value) else c1;
          if Given(q.aperture) && !accepts(Aperture, q.aperture.value) then
            Reply(s, Response(400, Error(InvalidMessage(Aperture, q.aperture.value))))
          else
            var c3 := if Given(q.aperture) then c2.(aperture := q.aperture.value) else c2;
            var called := s.hardware.(setConfigCalls := s.hardware.setConfigCalls + 1);
            match commit
            case Ok(_) => Reply(s.(hardware := called.(settings := c3)), Response(200, Status("ok")))
            case Err(reason) => Reply(s.(hardware := called), Response(500, Error(reason)))
  }

  /** set_exposure_params: open, then the locked block. */
  function SetExposure(s: State, open: Result<Handle>, q: Query, read: Attempt,
                       accepts: (Field, string) -> bool, commit: Attempt): (r: Reply)
    ensures r.response.code == 503 <==> !InitCamera(s, open).ok
    ensures !InitCamera(s, open).ok ==> r.state == s
    ensures InitCamera(s, open).ok ==>
      r == SetExposureLocked(InitCamera(s, open).state, q, read, accepts, commit)
  {
    var i := InitCamera(s, open);
    if !i.ok then Reply(i.state, Response(503, Error(NOT_AVAILABLE)))
    else SetExposureLocked(i.state, q, read, accepts, commit)
  }

  /** After an accepted update, reading the exposure reports the new values. */
  lemma SetThenGet(s: State, open: Result<Handle>, q: Query, read: Attempt,
                   accepts: (Field, string) -> bool, commit: Attempt, again: Result<Handle>)
    requires SetExposure(s, open, q, read, accepts, commit).response.code == 200
    ensures GetExposure(SetExposure(s, open, q, read, accepts, commit).state, again, Ok(())).response ==
            Response(200, Values(ApplyAll(s.hardware.settings, Requests(q))))
  {
  }
}
