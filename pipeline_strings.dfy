/** The pure part of the stream manager: the pipeline descriptions handed to the
    framework's parser, the log sanitiser that hides the stream key, and the choice of
    AAC encoder (src/core/stream_manager.py). */
module PipelineStrings {
  import opened Wrappers
  import opened PyStr

  /** The `current_config` dictionary `start_stream` stores. */
  datatype StreamConfig = StreamConfig(
    videoSource: string,
    audioSource: string,
    rtmpUrl: string,
    streamKey: string,
    resolution: string,
    bitrate: int,
    fps: int)

  /** The exceptions raised inside the `try` blocks of `start_stream` and `start_preview`:
      unpacking `resolution.split('x')` into two names, or an error from the framework's
      parser (whose message is opaque). */
  datatype Failure = UnpackError(pieces: nat) | LaunchError(message: string)

  /** `str(e)` for the failures above, in the wording of CPython 3.11 and 3.12. */
  function FailureText(f: Failure): string {
    match f
    case UnpackError(n) =>
      if n < 2 then "not enough values to unpack (expected 2, got " + IntToString(n) + ")"
      else "too many values to unpack (expected 2)"
    case LaunchError(m) => m
  }

  // ---------------------------------------------------------------------------
  // `width, height = resolution.split('x')`

  function SplitResolution(resolution: string): (r: Result<(string, string), Failure>)
    ensures r.Ok? <==> Count(resolution, 'x') == 1
    ensures r.Ok? ==> resolution == r.value.0 + "x" + r.value.1
    ensures r.Ok? ==> 'x' !in r.value.0 && 'x' !in r.value.1
    ensures r.Err? ==> r.error == UnpackError(Count(resolution, 'x') + 1)
  {
    var parts := Split(resolution, 'x');
    if |parts| == 2 then
      SplitJoin(resolution, 'x');
      SplitPiecesFree(resolution, 'x');
      Ok((parts[0], parts[1]))
    else
      Err(UnpackError(|parts|))
  }

  /** Width and height without an `x` come back out of the resolution they form. */
  lemma ResolutionRoundTrip(width: string, height: string)
    requires 'x' !in width && 'x' !in height
    ensures SplitResolution(width + "x" + height) == Ok((width, height))
  {
    SplitTwo(width, height, 'x');
  }

  // ---------------------------------------------------------------------------
  // Elements

  const ScreenStreamSource := "pipewiresrc media-type=video/source/screen"
  const ScreenTimestampedSource := "pipewiresrc do-timestamp=true"
  const NoLimitQueue := "queue max-size-buffers=0 max-size-time=0 max-size-bytes=0"

  /** The video source element: screen capture through PipeWire for 'screen', a V4L2
      device otherwise. The stream-only pipeline asks for the screen media type, the
      combined and the preview pipelines for timestamps. */
  function VideoSourceElement(device: string, timestamped: bool): string {
    if device == "screen" then
      (if timestamped then ScreenTimestampedSource else ScreenStreamSource)
    else
      "v4l2src device=" + device
  }

  /** Only the 'screen' device is captured through PipeWire; every other value is taken
      for a V4L2 device path. */
  lemma VideoSourceKinds(device: string, timestamped: bool)
    ensures "pipewiresrc" <= VideoSourceElement(device, timestamped) <==> device == "screen"
    ensures device != "screen" ==> "v4l2src device=" <= VideoSourceElement(device, timestamped)
  {
    if device != "screen" {
      var r := VideoSourceElement(device, timestamped);
      assert r[0] != "pipewiresrc"[0];
    }
  }

  /** The audio source element: the PulseAudio monitor for 'monitor', the automatic
      source for every other value. */
  function AudioSourceElement(device: string): (r: string)
    ensures r == "pulsesrc" <==> device == "monitor"
    ensures r == "autoaudiosrc" <==> device != "monitor"
  {
    if device == "monitor" then "pulsesrc" else "autoaudiosrc"
  }

  function RawVideoCaps(width: string, height: string, fps: int): string {
    "video/x-raw,width=" + width + ",height=" + height + ",framerate=" + IntToString(fps) + "/1"
  }

  function H264Encoder(bitrate: int): string {
    "x264enc bitrate=" + IntToString(bitrate) + " speed-preset=ultrafast tune=zerolatency"
  }

  /** `f"{rtmp_url}/{stream_key}"` */
  function RtmpLocation(url: string, key: string): string {
    url + "/" + key
  }

  /** The stream key is the last path segment of the location whenever it holds no '/'. */
  lemma {:induction false} LocationEndsWithKey(url: string, key: string)
    requires '/' !in key
    ensures LastPiece(RtmpLocation(url, key), '/') == key
  {
    var loc := RtmpLocation(url, key);
    SplitJoin(url, '/');
    SplitAppend(url, key, '/');
  }

  /** Splitting `a + [sep] + b` where `b` holds no separator ends with `b`. */
  lemma {:induction false} SplitAppend(a: string, b: string, sep: char)
    requires sep !in b
    ensures var parts := Split(a + [sep] + b, sep); |parts| >= 2 && parts[|parts| - 1] == b
  {
    if a == "" {
      assert ([sep] + b)[1..] == b;
      SplitNone(b, sep);
    } else {
      SplitAppend(a[1..], b, sep);
      assert (a + [sep] + b)[1..] == a[1..] + [sep] + b;
    }
  }

  function SinkElement(url: string, key: string): string {
    "rtmpsink location=\"" + RtmpLocation(url, key) + "\""
  }

  /** Audio branch: source, conversion, resampling, the AAC encoder, a queue, into the muxer. */
  function AudioBranch(device: string, encoder: string): string {
    AudioSourceElement(device) + " ! audioconvert ! audioresample ! audio/x-raw,rate=44100,channels=2 ! "
    + encoder + " bitrate=128000 ! " + NoLimitQueue + " ! mux. "
  }

  function MuxAndSink(url: string, key: string): string {
    "flvmux name=mux streamable=true ! " + SinkElement(url, key)
  }

  /** The tail both streaming pipelines share: the audio branch, the FLV muxer and the RTMP sink. */
  function StreamTail(c: StreamConfig, encoder: string): string {
    AudioBranch(c.audioSource, encoder) + MuxAndSink(c.rtmpUrl, c.streamKey)
  }

  // ---------------------------------------------------------------------------
  // The three pipeline descriptions

  /** `_build_pipeline_string`: stream only. */
  function StreamPipeline(c: StreamConfig, encoder: string): Result<string, Failure> {
    match SplitResolution(c.resolution)
    case Err(e) => Err(e)
    case Ok((width, height)) =>
      Ok(VideoSourceElement(c.videoSource, false) + " ! videoconvert ! videoscale ! "
         + RawVideoCaps(width, height, c.fps)
         + (" ! " + H264Encoder(c.bitrate) + " ! video/x-h264,profile=baseline ! " + NoLimitQueue + " ! mux. ")
         + StreamTail(c, encoder))
  }

  /** `_build_combined_pipeline_string`: the raw video is split by a tee into a local
      preview window and the encoder. */
  function CombinedPipeline(c: StreamConfig, encoder: string): Result<string, Failure> {
    match SplitResolution(c.resolution)
    case Err(e) => Err(e)
    case Ok((width, height)) =>
      Ok(VideoSourceElement(c.videoSource, true) + " ! videoconvert ! videoscale ! "
         + (RawVideoCaps(width, height, c.fps) + " ! " + PreviewTee)
         + ("t. ! queue ! " + H264Encoder(c.bitrate) + " ! video/x-h264,profile=baseline ! " + NoLimitQueue + " ! mux. ")
         + StreamTail(c, encoder))
  }

  /** The tee and its preview branch into a window. */
  const PreviewTee := "tee name=t t. ! queue ! autovideosink "

  /** The description `start_preview` builds: capture, scale, show in a window. */
  function PreviewPipeline(device: string, resolution: string, fps: int): Result<string, Failure> {
    match SplitResolution(resolution)
    case Err(e) => Err(e)
    case Ok((width, height)) =>
      Ok(VideoSourceElement(device, true) + " ! videoconvert ! videoscale ! "
         + (RawVideoCaps(width, height, fps) + " ! autovideosink"))
  }

  /** The stream-only description exists exactly when the resolution has one 'x', and
      then runs from the untimestamped video source through the caps of that resolution
      and frame rate to the shared audio/muxer/sink tail; otherwise building raises the
      unpacking error. */
  lemma StreamPipelineShape(c: StreamConfig, encoder: string)
    ensures var r := StreamPipeline(c, encoder);
      && (r.Ok? <==> Count(c.resolution, 'x') == 1)
      && (r.Err? ==> r.error == UnpackError(Count(c.resolution, 'x') + 1))
      && (r.Ok? ==>
            var size := SplitResolution(c.resolution).value;
            && VideoSourceElement(c.videoSource, false) + " ! videoconvert ! videoscale ! " <= r.value
            && Contains(r.value, RawVideoCaps(size.0, size.1, c.fps))
            && HasSuffix(r.value, StreamTail(c, encoder)))
  {
    if Count(c.resolution, 'x') == 1 {
      var (width, height) := SplitResolution(c.resolution).value;
      ConcatFacts(VideoSourceElement(c.videoSource, false) + " ! videoconvert ! videoscale ! ",
        RawVideoCaps(width, height, c.fps),
        " ! " + H264Encoder(c.bitrate) + " ! video/x-h264,profile=baseline ! " + NoLimitQueue + " ! mux. ",
        StreamTail(c, encoder));
    }
  }

  /** The combined description fails exactly like the stream-only one, and otherwise
      runs from the timestamped video source through the caps and the preview tee to the
      same tail. */
  lemma CombinedPipelineShape(c: StreamConfig, encoder: string)
    ensures var r := CombinedPipeline(c, encoder);
      && (r.Ok? <==> Count(c.resolution, 'x') == 1)
      && (r.Err? ==> r.error == UnpackError(Count(c.resolution, 'x') + 1))
      && (r.Ok? ==>
            var size := SplitResolution(c.resolution).value;
            && VideoSourceElement(c.videoSource, true) + " ! videoconvert ! videoscale ! " <= r.value
            && Contains(r.value, RawVideoCaps(size.0, size.1, c.fps) + " ! " + PreviewTee)
            && HasSuffix(r.value, StreamTail(c, encoder)))
  {
    if Count(c.resolution, 'x') == 1 {
      var (width, height) := SplitResolution(c.resolution).value;
      ConcatFacts(VideoSourceElement(c.videoSource, true) + " ! videoconvert ! videoscale ! ",
        RawVideoCaps(width, height, c.fps) + " ! " + PreviewTee,
        "t. ! queue ! " + H264Encoder(c.bitrate) + " ! video/x-h264,profile=baseline ! " + NoLimitQueue + " ! mux. ",
        StreamTail(c, encoder));
    }
  }

  /** The preview description fails like the stream ones and otherwise ends in the caps
      and the window sink. */
  lemma PreviewPipelineShape(device: string, resolution: string, fps: int)
    ensures var r := PreviewPipeline(device, resolution, fps);
      && (r.Ok? <==> Count(resolution, 'x') == 1)
      && (r.Err? ==> r.error == UnpackError(Count(resolution, 'x') + 1))
      && (r.Ok? ==>
            var size := SplitResolution(resolution).value;
            && VideoSourceElement(device, true) + " ! videoconvert ! videoscale ! " <= r.value
            && HasSuffix(r.value, RawVideoCaps(size.0, size.1, fps) + " ! autovideosink"))
  {
    if Count(resolution, 'x') == 1 {
      var (width, height) := SplitResolution(resolution).value;
      var head := VideoSourceElement(device, true) + " ! videoconvert ! videoscale ! ";
      var tail := RawVideoCaps(width, height, fps) + " ! autovideosink";
      var r := head + tail;
      assert r[|r| - |tail|..] == tail;
    }
  }

  /** Where the four parts of a concatenation can be found in it. */
  lemma ConcatFacts(head: string, mid: string, body: string, tail: string)
    ensures head <= head + mid + body + tail
    ensures HasSuffix(head + mid + body + tail, tail)
    ensures Contains(head + mid + body + tail, mid)
  {
    var r := head + mid + body + tail;
    assert r[|head|..|head| + |mid|] == mid;
    ContainsWitness(r, mid, |head|);
    assert r[|r| - |tail|..] == tail;
  }

  predicate HasSuffix(s: string, t: string) {
    |t| <= |s| && s[|s| - |t|..] == t
  }

  /** The stream-only and the combined pipelines agree in everything after the video
      branch: the same audio source, encoder, muxer and RTMP location. */
  lemma SameStreamTail(c: StreamConfig, encoder: string)
    requires Count(c.resolution, 'x') == 1
    ensures StreamPipeline(c, encoder).Ok? && CombinedPipeline(c, encoder).Ok?
    ensures HasSuffix(StreamPipeline(c, encoder).value, SinkElement(c.rtmpUrl, c.streamKey))
    ensures HasSuffix(CombinedPipeline(c, encoder).value, SinkElement(c.rtmpUrl, c.streamKey))
  {
    StreamPipelineShape(c, encoder);
    CombinedPipelineShape(c, encoder);
    var sink := SinkElement(c.rtmpUrl, c.streamKey);
    var tail := StreamTail(c, encoder);
    TailEndsInSink(c, encoder);
    SuffixTransitive(StreamPipeline(c, encoder).value, tail, sink);
    SuffixTransitive(CombinedPipeline(c, encoder).value, tail, sink);
  }

  /** The shared tail ends in the RTMP sink. */
  lemma TailEndsInSink(c: StreamConfig, encoder: string)
    ensures HasSuffix(StreamTail(c, encoder), SinkElement(c.rtmpUrl, c.streamKey))
  {
    var sink := SinkElement(c.rtmpUrl, c.streamKey);
    var mux := MuxAndSink(c.rtmpUrl, c.streamKey);
    assert mux[|mux| - |sink|..] == sink;
    SuffixTransitive(StreamTail(c, encoder), mux, sink);
  }

  lemma SuffixTransitive(s: string, t: string, u: string)
    requires HasSuffix(s, t) && HasSuffix(t, u)
    ensures HasSuffix(s, u)
  {
    assert s[|s| - |u|..] == t[|t| - |u|..];
  }

  // ---------------------------------------------------------------------------
  // `_sanitize_pipeline_for_log`

  const Hidden := "***HIDDEN***"

  /** Whether the key shares no character with the placeholder. */
  predicate DisjointFromHidden(key: string) {
    forall k | 0 <= k < |key| :: key[k] !in Hidden
  }

  /** With no stream config stored, the description is returned unchanged; otherwise
      every occurrence of the key is replaced by the placeholder. */
  function Sanitize(pipeline: string, config: Option<StreamConfig>): (r: string)
    ensures config.None? ==> r == pipeline
    ensures config.Some? && config.value.streamKey != "" && !Contains(pipeline, config.value.streamKey)
      ==> r == pipeline
    ensures config.Some? && config.value.streamKey != "" && DisjointFromHidden(config.value.streamKey)
      ==> !Contains(r, config.value.streamKey)
  {
    match config
    case None => pipeline
    case Some(c) =>
      ReplaceFacts(pipeline, c.streamKey);
      Replace(pipeline, c.streamKey, Hidden)
  }

  lemma ReplaceFacts(pipeline: string, key: string)
    ensures key != "" && !Contains(pipeline, key) ==> Replace(pipeline, key, Hidden) == pipeline
    ensures key != "" && DisjointFromHidden(key) ==> !Contains(Replace(pipeline, key, Hidden), key)
  {
    if key != "" {
      if !Contains(pipeline, key) {
        ReplaceWithoutOccurrence(pipeline, key, Hidden);
      }
      if DisjointFromHidden(key) {
        ReplaceLeavesNoOccurrence(pipeline, key, Hidden);
      }
    }
  }

  /** The description actually logged by `start_stream` does not show the key it streams
      to, provided the key shares no character with the placeholder: a key such as `H`
      would reappear inside `***HIDDEN***` itself. */
  lemma LoggedPipelineHidesKey(c: StreamConfig, encoder: string, combined: bool)
    requires c.streamKey != "" && DisjointFromHidden(c.streamKey)
    requires Count(c.resolution, 'x') == 1
    ensures var built := if combined then CombinedPipeline(c, encoder) else StreamPipeline(c, encoder);
      built.Ok? && !Contains(Sanitize(built.value, Some(c)), c.streamKey)
  {
  }

  // ---------------------------------------------------------------------------
  // `_find_best_aac_encoder`

  const AacEncoders: seq<string> := ["fdkaacenc", "voaacenc", "faac", "avenc_aac"]

  /** The position of the first candidate, in list order, that the element registry
      knows; the length of the list when it knows none. */
  function FirstInstalledIndex(candidates: seq<string>, installed: set<string>): (i: nat)
    ensures i <= |candidates|
    ensures forall j | 0 <= j < i :: candidates[j] !in installed
    ensures i < |candidates| ==> candidates[i] in installed
  {
    if candidates == [] || candidates[0] in installed then 0
    else 1 + FirstInstalledIndex(candidates[1..], installed)
  }

  function FirstInstalled(candidates: seq<string>, installed: set<string>): Option<string> {
    var i := FirstInstalledIndex(candidates, installed);
    if i < |candidates| then Some(candidates[i]) else None
  }

  /** The search loop shared by `_find_best_aac_encoder` and the plugin check: stop at
      the first candidate the registry knows. */
  method FindFirstInstalled(candidates: seq<string>, installed: set<string>) returns (found: Option<string>)
    ensures found == FirstInstalled(candidates, installed)
  {
    for i := 0 to |candidates|
      invariant FirstInstalled(candidates, installed) == FirstInstalled(candidates[i..], installed)
    {
      assert candidates[i..][1..] == candidates[i + 1..];
      if candidates[i] in installed {
        return Some(candidates[i]);
      }
    }
    return None;
  }

  /** The encoder the manager uses: the first available of fdkaacenc, voaacenc, faac and
      avenc_aac, and avenc_aac when the registry knows none of them. */
  method FindBestAacEncoder(installed: set<string>) returns (encoder: string)
    ensures encoder == FirstInstalled(AacEncoders, installed).GetOr("avenc_aac")
    ensures encoder in AacEncoders
  {
    var found := FindFirstInstalled(AacEncoders, installed);
    encoder := found.GetOr("avenc_aac");
  }
}
