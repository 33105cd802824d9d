/** The `/video` handler: uploaded pictures are saved under numbered names and
    looped into a fixed-length frame schedule for the encoder. Decoding and
    encoding are left to the libraries; what is modelled is which picture the
    encoder receives at each output frame. */
module Video {
  import opened Driver
  import opened Http

  /** Picture changes per second. */
  const FPS_INPUT := 3
  /** Frame rate of the final video. */
  const FPS_OUTPUT := 30
  /** Length of the video in seconds. */
  const TOTAL_DURATION := 15
  /** The module-level `fps` that the output stream is opened with. */
  const STREAM_RATE := 30
  /** Number of source frames, each showing one picture. */
  const SOURCE_FRAMES := TOTAL_DURATION * FPS_INPUT
  /** How often each source frame is handed to the encoder (Python `//`). */
  const REPEATS := FPS_OUTPUT / FPS_INPUT
  const NO_IMAGES := "No images uploaded"

  datatype Size = Size(width: nat, height: nat)

  /** `request.form.get("orientation") or request.args.get("orientation")`:
      the form value unless it is absent or empty. */
  function Orientation(form: Option<string>, args: Option<string>): Option<string> {
    if form.Some? && form.value != "" then form else args
  }

  function OutputSize(orientation: Option<string>): Size {
    if orientation == Some("landscape") then Size(1080, 720) else Size(720, 1080)
  }

  /** The video is wider than tall exactly when the effective orientation is
      "landscape"; either way it is 1080 by 720 pixels in some order. */
  lemma WideIffLandscape(form: Option<string>, args: Option<string>)
    ensures var sz := OutputSize(Orientation(form, args));
      sz.width > sz.height <==>
        if form.Some? && form.value != "" then form.value == "landscape" else args == Some("landscape")
    ensures var sz := OutputSize(Orientation(form, args));
      (sz.width == 1080 && sz.height == 720) || (sz.width == 720 && sz.height == 1080)
  {
  }

  // ---------------------------------------------------------------- file names

  function Digit(d: nat): char
    requires d < 10
  {
    ('0' as int + d) as char
  }

  /** The decimal digits of n, most significant first, without leading zeros. */
  function Decimal(n: nat): (s: string)
    ensures |s| >= 1
    decreases n
  {
    if n < 10 then [Digit(n)] else Decimal(n / 10) + [Digit(n % 10)]
  }

  function Zeros(k: nat): (z: string)
    ensures |z| == k
  {
    seq(k, _ => '0')
  }

  /** `f"{i:04d}"`: the digits of n, left-padded with '0' to four places. */
  function Pad4(n: nat): (s: string)
    ensures |s| >= 4
  {
    var d := Decimal(n);
    if |d| < 4 then Zeros(4 - |d|) + d else d
  }

  function FileName(i: nat): string {
    Pad4(i) + ".jpg"
  }

  /** `os.path.join(dir, name)` for a relative `name`. */
  function Join(dir: string, name: string): string {
    if dir == "" || dir[|dir| - 1] == '/' then dir + name else dir + "/" + name
  }

  /** The number a string of decimal digits denotes. */
  function DigitsValue(s: string): int
    decreases |s|
  {
    if s == [] then 0 else DigitsValue(s[..|s| - 1]) * 10 + (s[|s| - 1] as int - '0' as int)
  }

  lemma {:induction false} DecimalValue(n: nat)
    ensures DigitsValue(Decimal(n)) == n
    decreases n
  {
    if n >= 10 {
      var d := Decimal(n);
      assert d[..|d| - 1] == Decimal(n / 10);
      DecimalValue(n / 10);
    }
  }

  lemma {:induction false} ZerosValue(k: nat)
    ensures DigitsValue(Zeros(k)) == 0
  {
    if k > 0 {
      assert Zeros(k)[..k - 1] == Zeros(k - 1);
      ZerosValue(k - 1);
    }
  }

  /** Leading zeros do not change the number. */
  lemma {:induction false} LeadingZerosValue(k: nat, s: string)
    ensures DigitsValue(Zeros(k) + s) == DigitsValue(s)
    decreases |s|
  {
    if s == [] {
      assert Zeros(k) + s == Zeros(k);
      ZerosValue(k);
    } else {
      var z := Zeros(k) + s;
      assert z[..|z| - 1] == Zeros(k) + s[..|s| - 1];
      LeadingZerosValue(k, s[..|s| - 1]);
    }
  }

  /** Reading the padded name back gives the upload's index. */
  lemma Pad4Value(n: nat)
    ensures DigitsValue(Pad4(n)) == n
  {
    DecimalValue(n);
    var d := Decimal(n);
    if |d| < 4 {
      LeadingZerosValue(4 - |d|, d);
    }
  }

  /** No two uploads get the same file name. */
  lemma FileNameInjective(i: nat, j: nat)
    ensures FileName(i) == FileName(j) ==> i == j
  {
    Pad4Value(i);
    Pad4Value(j);
    assert FileName(i)[..|FileName(i)| - 4] == Pad4(i);
    assert FileName(j)[..|FileName(j)| - 4] == Pad4(j);
  }

  /** Joining one directory with different names gives different paths. */
  lemma JoinInjective(dir: string, a: string, b: string)
    ensures Join(dir, a) == Join(dir, b) ==> a == b
  {
    var p := if dir == "" || dir[|dir| - 1] == '/' then dir else dir + "/";
    assert Join(dir, a) == p + a && Join(dir, b) == p + b;
    assert (p + a)[|p|..] == a && (p + b)[|p|..] == b;
  }

  /** Where upload i is saved. */
  function UploadPath(dir: string, i: nat): string {
    Join(dir, FileName(i))
  }

  lemma UploadPathsDistinct(dir: string, i: nat, j: nat)
    ensures UploadPath(dir, i) == UploadPath(dir, j) ==> i == j
  {
    JoinInjective(dir, FileName(i), FileName(j));
    FileNameInjective(i, j);
  }

  lemma {:induction false} EarlierPathsDiffer(dir: string, i: nat)
    ensures forall k | 0 <= k < i :: UploadPath(dir, k) != UploadPath(dir, i)
  {
    forall k | 0 <= k < i
      ensures UploadPath(dir, k) != UploadPath(dir, i)
    {
      UploadPathsDistinct(dir, k, i);
    }
  }

  /** The first |saved| uploads are stored, each at its own numbered path. */
  ghost predicate Saved(dir: string, paths: seq<string>, disk: map<string, Bytes>, saved: seq<Bytes>) {
    && |paths| == |saved|
    && (forall k | 0 <= k < |paths| :: paths[k] == UploadPath(dir, k))
    && (forall k | 0 <= k < |paths| :: paths[k] in disk && disk[paths[k]] == saved[k])
  }

  /** Saving the next upload at its own path keeps every earlier file. */
  lemma SaveStep(dir: string, paths: seq<string>, disk: map<string, Bytes>, saved: seq<Bytes>, data: Bytes)
    requires Saved(dir, paths, disk, saved)
    ensures var path := UploadPath(dir, |paths|);
      Saved(dir, paths + [path], disk[path := data], saved + [data])
  {
    var path := UploadPath(dir, |paths|);
    EarlierPathsDiffer(dir, |paths|);
    var paths', disk', saved' := paths + [path], disk[path := data], saved + [data];
    forall k | 0 <= k < |paths'|
      ensures paths'[k] == UploadPath(dir, k) && paths'[k] in disk' && disk'[paths'[k]] == saved'[k]
    {
      if k < |paths| {
        assert paths'[k] == paths[k] != path;
        assert saved'[k] == saved[k];
      }
    }
  }

  /** app.py:279-285: save each upload under `tmpDir` as `0000.jpg`, `0001.jpg`, …
      Every upload ends up in its own file; none overwrites another. */
  method SaveUploads(tmpDir: string, files: seq<Bytes>) returns (paths: seq<string>, disk: map<string, Bytes>)
    ensures |paths| == |files|
    ensures forall i | 0 <= i < |files| :: paths[i] == UploadPath(tmpDir, i)
    ensures forall i | 0 <= i < |files| :: paths[i] in disk && disk[paths[i]] == files[i]
  {
    paths := [];
    disk := map[];
    for i := 0 to |files|
      invariant Saved(tmpDir, paths, disk, files[..i])
    {
      var path := UploadPath(tmpDir, i);
      SaveStep(tmpDir, paths, disk, files[..i], files[i]);
      assert files[..i + 1] == files[..i] + [files[i]];
      disk := disk[path := files[i]];
      paths := paths + [path];
    }
    assert files[..|files|] == files;
  }

  // ---------------------------------------------------------------- frame schedule

  /** Output frame `i * REPEATS + r` belongs to source frame i. */
  lemma BlockIndex(i: nat, r: nat)
    requires r < REPEATS
    ensures (i * REPEATS + r) / REPEATS == i
  {
  }

  lemma NextBlock(i: nat)
    ensures (i + 1) * REPEATS == i * REPEATS + REPEATS
  {
  }

  /** app.py:312-321: source frame i shows picture `i % n`, and each source
      frame is handed to the encoder REPEATS times in a row. */
  method EncodeFrames(paths: seq<string>, disk: map<string, Bytes>) returns (frames: seq<Bytes>)
    requires |paths| > 0
    requires forall i | 0 <= i < |paths| :: paths[i] in disk
    ensures |frames| == SOURCE_FRAMES * REPEATS
    ensures forall k | 0 <= k < |frames| :: frames[k] == disk[paths[(k / REPEATS) % |paths|]]
  {
    frames := [];
    for i := 0 to SOURCE_FRAMES
      invariant |frames| == i * REPEATS
      invariant forall k | 0 <= k < |frames| :: frames[k] == disk[paths[(k / REPEATS) % |paths|]]
    {
      var image := disk[paths[i % |paths|]];
      for r := 0 to REPEATS
        invariant |frames| == i * REPEATS + r
        invariant forall k | 0 <= k < |frames| :: frames[k] == disk[paths[(k / REPEATS) % |paths|]]
      {
        BlockIndex(i, r);
        frames := frames + [image];
      }
      NextBlock(i);
    }
  }

  /** The `/video` handler. An empty upload is refused before anything is
      saved or encoded; otherwise the encoder receives 15 s × 30 fps frames,
      output frame k showing upload `(k / 10) % n`. */
  method Video(files: seq<Bytes>, form: Option<string>, args: Option<string>, tmpDir: string)
    returns (r: Response)
    ensures files == [] <==> r == Response(400, Error(NO_IMAGES))
    ensures files != [] ==>
      var sz := OutputSize(Orientation(form, args));
      && r.code == 200 && r.body.Mp4?
      && r.body.width == sz.width && r.body.height == sz.height && r.body.rate == STREAM_RATE
      && |r.body.frames| == TOTAL_DURATION * FPS_OUTPUT
      && forall k | 0 <= k < |r.body.frames| :: r.body.frames[k] == files[(k / REPEATS) % |files|]
  {
    if files == [] {
      return Response(400, Error(NO_IMAGES));
    }
    var size := OutputSize(Orientation(form, args));
    var paths, disk := SaveUploads(tmpDir, files);
    var frames := EncodeFrames(paths, disk);
    r := Response(200, Mp4(size.width, size.height, STREAM_RATE, frames));
  }

  lemma ModAtMost(x: nat, n: nat)
    requires n > 0
    ensures x % n <= x
  {
  }

  /** Output frame k belongs to source frame k / REPEATS, which is below SOURCE_FRAMES. */
  lemma SourceFrameBound(k: nat)
    requires k < SOURCE_FRAMES * REPEATS
    ensures k / REPEATS < SOURCE_FRAMES
  {
  }

  lemma ModSmall(x: nat, n: nat)
    requires x < n
    ensures x % n == x
  {
  }

  /** Source frame j starts at output frame `j * REPEATS`, inside the video. */
  lemma BlockStart(j: nat)
    requires j < SOURCE_FRAMES
    ensures j * REPEATS < SOURCE_FRAMES * REPEATS && (j * REPEATS) / REPEATS == j
  {
    assert REPEATS == 10 && SOURCE_FRAMES == 45;
  }

  /** Upload j (of n) appears in the video exactly when j < SOURCE_FRAMES:
      with more than 45 uploads the later ones are never shown. */
  lemma ShownIff(n: nat, j: nat)
    requires j < n
    ensures (exists k | 0 <= k < SOURCE_FRAMES * REPEATS :: (k / REPEATS) % n == j) <==> j < SOURCE_FRAMES
  {
    if j < SOURCE_FRAMES {
      var k := j * REPEATS;
      BlockStart(j);
      ModSmall(j, n);
      assert (k / REPEATS) % n == j;
    } else {
      forall k | 0 <= k < SOURCE_FRAMES * REPEATS
        ensures (k / REPEATS) % n != j
      {
        SourceFrameBound(k);
        ModAtMost(k / REPEATS, n);
      }
    }
  }
}
