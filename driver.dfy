/** Values exchanged with the camera driver (gphoto2), treated as an oracle:
    every driver call is modelled by the outcome it returned. */
module Driver {

  datatype Option<+T> = None | Some(value: T)

  /** The outcome of one driver call: a value, or a raised error with its text. */
  datatype Result<+T> = Ok(value: T) | Err(reason: string)

  /** The outcome of a driver call that returns nothing of interest. */
  type Attempt = Result<()>

  newtype Byte = b: int | 0 <= b < 256

  type Bytes = seq<Byte>

  /** An open handle to the camera (what `gp.Camera()` followed by `init()` yields). */
  datatype Handle = Handle(id: nat)

  /** The three exposure widgets the service reads and writes. */
  datatype Exposure = Exposure(iso: string, shutter: string, aperture: string)

  /** The choice lists the driver reports for the three widgets. */
  datatype Choices = Choices(iso: seq<string>, shutter: seq<string>, aperture: seq<string>)

  /** The driver outcomes of the four steps of a still capture, in the order they run:
      capture to camera storage, fetch to a local file object, save to disk, delete on the camera. */
  datatype Shot = Shot(trigger: Attempt, fetch: Result<Bytes>, save: Attempt, delete: Attempt)

  /** The bytes of an ASCII text (the framing literals of the live view). */
  function Ascii(s: string): (b: Bytes)
    ensures |b| == |s|
    ensures forall i | 0 <= i < |s| :: s[i] as int < 256 ==> b[i] as int == s[i] as int
  {
    seq(|s|, i requires 0 <= i < |s| => (s[i] as int % 256) as Byte)
  }
}

/** HTTP responses, abstracted to a status code and the payload the handler builds. */
module Http {
  import opened Driver

  datatype Body =
    | Status(status: string)                  // jsonify({"status": ...})
    | Error(error: string)                    // jsonify({"error": ...})
    | Jpeg(image: Bytes)                      // send_file(..., mimetype="image/jpeg")
    | Values(settings: Exposure)              // {"iso", "shutter", "aperture"} current values
    | Options(choices: Choices)               // {"iso": [...], "shutter": [...], "aperture": [...]}
    | Multipart(chunks: seq<Bytes>)           // multipart/x-mixed-replace; boundary=frame
    | Mp4(width: nat, height: nat, rate: nat, frames: seq<Bytes>)  // video.mp4 attachment

  datatype Response = Response(code: nat, body: Body)
}
