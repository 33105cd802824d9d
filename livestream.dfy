/** The live-view generator: a pull loop that frames one preview picture per
    iteration for a `multipart/x-mixed-replace; boundary=frame` response. */
module LiveStream {
  import opened Driver

  /** The part header that precedes every picture. */
  function Header(): (h: Bytes)
    ensures |h| == 37
  {
    Ascii("--frame\r\nContent-Type: image/jpeg\r\n\r\n")
  }

  /** The line end that closes every part. */
  function Trailer(): (t: Bytes)
    ensures t == [13, 10]
  {
    Ascii("\r\n")
  }

  /** One multipart part holding the picture `data`. */
  function Chunk(data: Bytes): (c: Bytes)
    ensures |c| == |Header()| + |data| + |Trailer()|
    ensures c[..|Header()|] == Header()
  {
    Header() + data + Trailer()
  }

  /** The inverse a client applies to one part: strip the header and trailer. */
  function Unframe(c: Bytes): Option<Bytes> {
    var h, t := Header(), Trailer();
    if |c| >= |h| + |t| && c[..|h|] == h && c[|c| - |t|..] == t
    then Some(c[|h|..|c| - |t|])
    else None
  }

  lemma ChunkRoundTrip(data: Bytes)
    ensures Unframe(Chunk(data)) == Some(data)
  {
    var h, t := Header(), Trailer();
    var c := Chunk(data);
    assert c == (h + data) + t;
    assert c[..|h| + |data|] == h + data;
    assert c[|c| - |t|..] == t;
    assert c[|h|..|c| - |t|] == (h + data)[|h|..];
  }

  /** What one pass of the loop observes, in order: `stream_active` at the
      `while` test, whether `camera` is set once the lock is held, and the
      outcome of the preview capture and data fetch. Requests served between
      passes can change the first two. */
  datatype Turn = Turn(active: bool, cameraOpen: bool, preview: Result<Bytes>)

  /** Why the generator stopped: the flag was down, the handle was gone, the
      driver failed, or the consumer stopped pulling while it was still running. */
  datatype Stop = Inactive | NoCamera | PreviewFailed(reason: string) | ConsumerDone

  predicate Emits(t: Turn) {
    t.active && t.cameraOpen && t.preview.Ok?
  }

  function StopAt(t: Turn): Stop
    requires !Emits(t)
  {
    if !t.active then Inactive
    else if !t.cameraOpen then NoCamera
    else PreviewFailed(t.preview.reason)
  }

  /** generate_frames over the turns the consumer pulls. The loop only breaks:
      it neither clears the flag nor releases the camera, which is why it
      modifies nothing. */
  method GenerateFrames(turns: seq<Turn>) returns (chunks: seq<Bytes>, stop: Stop)
    ensures |chunks| <= |turns|
    ensures forall i | 0 <= i < |chunks| ::
      Emits(turns[i]) && chunks[i] == Chunk(turns[i].preview.value)
    ensures |chunks| < |turns| ==> !Emits(turns[|chunks|]) && stop == StopAt(turns[|chunks|])
    ensures |chunks| == |turns| ==> stop == ConsumerDone
    ensures turns != [] && !turns[0].active ==> chunks == [] && stop == Inactive
  {
    chunks := [];
    var i := 0;
    while i < |turns|
      invariant i == |chunks| <= |turns|
      invariant forall k | 0 <= k < i :: Emits(turns[k]) && chunks[k] == Chunk(turns[k].preview.value)
    {
      var t := turns[i];
      if !t.active {
        stop := Inactive;
        return;
      }
      if !t.cameraOpen {
        stop := NoCamera;
        return;
      }
      if t.preview.Err? {
        stop := PreviewFailed(t.preview.reason);
        return;
      }
      chunks := chunks + [Chunk(t.preview.value)];
      i := i + 1;
    }
    stop := ConsumerDone;
  }

  /** The turns of a stream that no other request interrupts: the flag and
      the handle stay as they were when the generator started. */
  function Quiet(active: bool, cameraOpen: bool, previews: seq<Result<Bytes>>): (ts: seq<Turn>)
    ensures |ts| == |previews|
    ensures forall i | 0 <= i < |ts| :: ts[i] == Turn(active, cameraOpen, previews[i])
  {
    seq(|previews|, i requires 0 <= i < |previews| => Turn(active, cameraOpen, previews[i]))
  }

  /** `chunks` frames, in order, the longest run of successful previews that
      starts the sequence. */
  ghost predicate FramesPrefix(chunks: seq<Bytes>, previews: seq<Result<Bytes>>) {
    && |chunks| <= |previews|
    && (forall i | 0 <= i < |chunks| :: previews[i].Ok? && chunks[i] == Chunk(previews[i].value))
    && (|chunks| < |previews| ==> previews[|chunks|].Err?)
  }

  /** Two framings of a prefix of the same previews are the same stream. */
  lemma FramesPrefixUnique(c1: seq<Bytes>, c2: seq<Bytes>, previews: seq<Result<Bytes>>)
    requires FramesPrefix(c1, previews) && FramesPrefix(c2, previews)
    ensures c1 == c2
  {
  }
}
