/** The service's module-level state and its handlers. The globals `camera`
    and `stream_active` (and the device they talk to) are the fields of one
    object; each handler updates them in place, and each is specified by the
    Session function that describes the same sequence of locked steps. */
module Service {
  import opened Driver
  import opened Http
  import Session
  import LiveStream

  class CameraService {
    var camera: Option<Handle>
    var streamActive: bool
    var hardware: Session.Hardware

    function State(): Session.State
      reads this
    {
      Session.State(camera, streamActive, hardware)
    }

    /** Process start: no handle is held and no stream runs. */
    constructor (hw: Session.Hardware)
      ensures State() == Session.Boot(hw)
    {
      camera := None;
      streamActive := false;
      hardware := hw;
    }

    /** init_camera(). */
    method InitCamera(open: Result<Handle>) returns (ok: bool)
      modifies this
      ensures Session.InitCamera(old(State()), open) == Session.Init(State(), ok)
    {
      if camera.None? {
        match open
        case Ok(h) =>
          camera := Some(h);
          ok := true;
        case Err(_) =>
          camera := None;
          ok := false;
      } else {
        ok := true;
      }
    }

    /** release_camera(); `exit` is the outcome of `camera.exit()`, which is only logged. */
    method ReleaseCamera(exit: Attempt)
      modifies this
      ensures State() == Session.ReleaseCamera(old(State()), exit)
    {
      if camera.Some? {
        camera := None;
      }
    }

    /** GET /liveview/start. */
    method StartStream(open: Result<Handle>) returns (r: Response)
      modifies this
      ensures Session.StartStream(old(State()), open) == Session.Reply(State(), r)
    {
      var ok := InitCamera(open);
      if !ok {
        return Response(500, Error(Session.INIT_FAILED));
      }
      if !streamActive {
        streamActive := true;
        r := Response(200, Status(Session.STREAM_STARTED));
      } else {
        r := Response(200, Status(Session.STREAM_RUNNING));
      }
    }

    /** GET /liveview/stop. */
    method StopStream(exit: Attempt) returns (r: Response)
      modifies this
      ensures Session.StopStream(old(State()), exit) == Session.Reply(State(), r)
    {
      streamActive := false;
      ReleaseCamera(exit);
      r := Response(200, Status(Session.STREAM_STOPPED));
    }

    /** GET /liveview when no other request runs while the stream is pulled:
        `previews` are the driver outcomes of the passes the consumer pulls.
        The handler and the generator change nothing (no modifies clause):
        in particular a failing preview leaves the flag and the handle as they were. */
    method Liveview(previews: seq<Result<Bytes>>) returns (r: Response, stop: LiveStream.Stop)
      ensures !streamActive ==> r == Response(400, Error(Session.NOT_ACTIVE))
      ensures streamActive ==> r.code == 200 && r.body.Multipart?
      ensures streamActive && camera.None? ==> r.body.chunks == []
      ensures streamActive && camera.Some? ==> LiveStream.FramesPrefix(r.body.chunks, previews)
      ensures streamActive && camera.Some? && |r.body.chunks| < |previews| ==>
        previews[|r.body.chunks|].Err? && stop == LiveStream.PreviewFailed(previews[|r.body.chunks|].reason)
      ensures streamActive && camera.Some? && |r.body.chunks| == |previews| ==> stop == LiveStream.ConsumerDone
      ensures streamActive && camera.None? && previews != [] ==> stop == LiveStream.NoCamera
      ensures !streamActive ==> stop == LiveStream.Inactive
    {
      if !streamActive {
        return Response(400, Error(Session.NOT_ACTIVE)), LiveStream.Inactive;
      }
      var turns := LiveStream.Quiet(streamActive, camera.Some?, previews);
      var chunks;
      chunks, stop := LiveStream.GenerateFrames(turns);
      assert |chunks| > 0 ==> LiveStream.Emits(turns[0]);
      r := Response(200, Multipart(chunks));
    }

    /** The locked block of `capture`; it changes nothing itself. */
    method CaptureLocked(shot: Shot) returns (result: Result<Bytes>)
      ensures result == Session.CaptureLocked(State(), shot)
      ensures result.Ok? ==> camera.Some? && result.value == shot.fetch.value
    {
      if camera.None? {
        return Err(Session.NO_CAMERA);
      }
      if shot.trigger.Err? {
        return Err(shot.trigger.reason);
      }
      if shot.fetch.Err? {
        return Err(shot.fetch.reason);
      }
      if shot.save.Err? {
        return Err(shot.save.reason);
      }
      if shot.delete.Err? {
        return Err(shot.delete.reason);
      }
      result := Ok(shot.fetch.value);
    }

    /** GET /capture: any failure after the open releases the camera. */
    method Capture(open: Result<Handle>, shot: Shot, exit: Attempt) returns (r: Response)
      modifies this
      ensures Session.Capture(old(State()), open, shot, exit) == Session.Reply(State(), r)
    {
      var ok := InitCamera(open);
      if !ok {
        return Response(503, Error(Session.NOT_AVAILABLE));
      }
      var result := CaptureLocked(shot);
      match result
      case Ok(image) =>
        r := Response(200, Jpeg(image));
      case Err(reason) =>
        ReleaseCamera(exit);
        r := Response(500, Error(reason));
    }

    /** The locked block of `get_exposure_options`; it changes nothing. */
    method OptionsLocked(read: Result<Choices>) returns (r: Response)
      ensures r == Session.OptionsLocked(State(), read)
    {
      if camera.None? {
        return Response(500, Error(Session.NO_GET_CONFIG));
      }
      match read
      case Ok(choices) =>
        r := Response(200, Options(choices));
      case Err(reason) =>
        r := Response(500, Error(reason));
    }

    /** GET /exposure/options: a failure is reported and the camera kept. */
    method ExposureOptions(open: Result<Handle>, read: Result<Choices>) returns (r: Response)
      modifies this
      ensures Session.ExposureOptions(old(State()), open, read) == Session.Reply(State(), r)
    {
      var ok := InitCamera(open);
      if !ok {
        return Response(503, Error(Session.NOT_AVAILABLE));
      }
      r := OptionsLocked(read);
    }

    /** The locked block of `get_exposure`; it changes nothing. */
    method ExposureLocked(read: Attempt) returns (r: Response)
      ensures r == Session.ExposureLocked(State(), read)
    {
      if camera.None? {
        return Response(500, Error(Session.NO_GET_CONFIG));
      }
      match read
      case Ok(_) =>
        r := Response(200, Values(hardware.settings));
      case Err(reason) =>
        r := Response(500, Error(reason));
    }

    /** GET /exposure: a failure is reported and the camera kept. */
    method GetExposure(open: Result<Handle>, read: Attempt) returns (r: Response)
      modifies this
      ensures Session.GetExposure(old(State()), open, read) == Session.Reply(State(), r)
    {
      var ok := InitCamera(open);
      if !ok {
        return Response(503, Error(Session.NOT_AVAILABLE));
      }
      r := ExposureLocked(read);
    }

    /** The locked block of `set_exposure_params`: set each given field on a
        local copy of the settings, refuse at the first rejected one, and write
        the copy to the camera once at the end. */
    method SetExposureLocked(q: Session.Query, read: Attempt,
                             accepts: (Session.Field, string) -> bool, commit: Attempt)
      returns (r: Response)
      modifies this
      ensures Session.SetExposureLocked(old(State()), q, read, accepts, commit) == Session.Reply(State(), r)
    {
      if camera.None? {
        return Response(500, Error(Session.NO_GET_CONFIG));
      }
      if read.Err? {
        return Response(500, Error(read.reason));
      }
      var config := hardware.settings;
      if Session.Given(q.iso) {
        if !accepts(Session.Iso, q.iso.value) {
          return Response(400, Error(Session.InvalidMessage(Session.Iso, q.iso.value)));
        }
        config := config.(iso := q.iso.value);
      }
      if Session.Given(q.shutter) {
        if !accepts(Session.Shutter, q.shutter.value) {
          return Response(400, Error(Session.InvalidMessage(Session.Shutter, q.shutter.value)));
        }
        config := config.(shutter := q.shutter.value);
      }
      if Session.Given(q.aperture) {
        if !accepts(Session.Aperture, q.aperture.value) {
          return Response(400, Error(Session.InvalidMessage(Session.Aperture, q.aperture.value)));
        }
        config := config.(aperture := q.aperture.value);
      }
      hardware := hardware.(setConfigCalls := hardware.setConfigCalls + 1);
      match commit
      case Ok(_) =>
        hardware := hardware.(settings := config);
        r := Response(200, Status("ok"));
      case Err(reason) =>
        r := Response(500, Error(reason));
    }

    /** POST /exposure. */
    method SetExposure(open: Result<Handle>, q: Session.Query, read: Attempt,
                       accepts: (Session.Field, string) -> bool, commit: Attempt)
      returns (r: Response)
      modifies this
      ensures Session.SetExposure(old(State()), open, q, read, accepts, commit) == Session.Reply(State(), r)
    {
      var ok := InitCamera(open);
      if !ok {
        return Response(503, Error(Session.NOT_AVAILABLE));
      }
      r := SetExposureLocked(q, read, accepts, commit);
    }
  }
}
