/** The source lists of src/core/device_manager.py: the screen entry followed by the V4L2
    webcams found under /dev, the two fixed audio entries, the webcam name read from the
    `v4l2-ctl --info` report, and the probe pipelines the device tests launch. The
    directory listing, the availability test and the `v4l2-ctl` report are inputs. */
module Devices {
  import opened Wrappers
  import opened PyStr
  import opened PipelineStrings

  /** One entry of a source list: the dictionary with 'name', 'device', 'type' and, for
      the screen entry only, 'description'. */
  datatype Source = Source(name: string, device: string, kind: string, description: Option<string>)

  const ScreenSource := Source(
    "🖥️ Screen Capture (PipeWire Portal)", "screen", "pipewire",
    Some("Öffnet Fenster/Screen-Auswahl-Dialog beim Stream-Start"))
  const DefaultAudioSource := Source("Default Audio (Mikrofon)", "default", "auto", None)
  const MonitorAudioSource := Source("Desktop Audio (Monitor)", "monitor", "pulse", None)

  function DevicesOf(sources: seq<Source>): (devices: seq<string>)
    ensures |devices| == |sources|
    ensures forall k | 0 <= k < |sources| :: devices[k] == sources[k].device
  {
    if sources == [] then [] else [sources[0].device] + DevicesOf(sources[1..])
  }

  /** `xs` is `ys` with some elements dropped and the rest in their original order. */
  predicate InOrderWithin(xs: seq<string>, ys: seq<string>) {
    if xs == [] then true
    else if ys == [] then false
    else (xs[0] == ys[0] && InOrderWithin(xs[1..], ys[1..])) || InOrderWithin(xs, ys[1..])
  }

  // ---------------------------------------------------------------------------
  // `_get_webcam_name`

  /** What running `v4l2-ctl --device <path> --info` yields: its standard output, or a
      failure (timeout, tool not installed, any other exception). */
  datatype ProbeOutput = Output(stdout: string) | ProbeFailed

  /** The device's own file name, `path.split('/')[-1]`. */
  function FallbackName(path: string): string {
    LastPiece(path, '/')
  }

  /** The name the report's lines give: the stripped text after the first ':' of the
      first line mentioning 'Card type'. Such a line without ':' makes the index raise,
      which the broad handler answers with the fallback name. */
  function CardName(lines: seq<string>, path: string): string {
    if lines == [] then FallbackName(path)
    else if Contains(lines[0], "Card type") then
      match AfterFirst(lines[0], ':')
      case None => FallbackName(path)
      case Some(rest) => Strip(rest)
    else CardName(lines[1..], path)
  }

  function WebcamName(path: string, output: ProbeOutput): string {
    match output
    case ProbeFailed => FallbackName(path)
    case Output(stdout) => CardName(Split(stdout, '\n'), path)
  }

  /** The first line mentioning 'Card type' decides the name; the lines after it are
      never looked at. */
  lemma {:induction false} FirstCardLineDecides(lines: seq<string>, path: string, i: int)
    requires 0 <= i < |lines| && Contains(lines[i], "Card type")
    requires forall j | 0 <= j < i :: !Contains(lines[j], "Card type")
    ensures CardName(lines, path) ==
      match AfterFirst(lines[i], ':')
      case None => FallbackName(path)
      case Some(rest) => Strip(rest)
  {
    if i > 0 {
      assert !Contains(lines[0], "Card type");
      assert lines[1..][i - 1] == lines[i];
      FirstCardLineDecides(lines[1..], path, i - 1);
    }
  }

  /** A report without a 'Card type' line gives the fallback name. */
  lemma {:induction false} NoCardLineFallsBack(lines: seq<string>, path: string)
    requires forall j | 0 <= j < |lines| :: !Contains(lines[j], "Card type")
    ensures CardName(lines, path) == FallbackName(path)
  {
    if lines != [] {
      NoCardLineFallsBack(lines[1..], path);
    }
  }

  /** The loop over the report's lines with its early return. */
  method GetWebcamName(path: string, output: ProbeOutput) returns (name: string)
    ensures name == WebcamName(path, output)
  {
    match output {
      case ProbeFailed =>
        return FallbackName(path);
      case Output(stdout) =>
        var lines := Split(stdout, '\n');
        for i := 0 to |lines|
          invariant CardName(lines[i..], path) == CardName(lines, path)
        {
          assert lines[i..][1..] == lines[i + 1..];
          if Contains(lines[i], "Card type") {
            var rest := AfterFirst(lines[i], ':');
            if rest.None? {
              return FallbackName(path);
            }
            return Strip(rest.value);
          }
        }
        return FallbackName(path);
    }
  }

  // ---------------------------------------------------------------------------
  // `_detect_webcams` and `get_video_sources`

  /** A device path the detection keeps: a capture node (last character a digit, which
      leaves out metadata nodes), free to open, and with a non-empty name. */
  predicate Kept(path: string, available: set<string>, probe: string -> ProbeOutput) {
    path != "" && IsDigit(path[|path| - 1]) && path in available && WebcamName(path, probe(path)) != ""
  }

  function WebcamEntry(path: string, name: string): Source {
    Source("Webcam (" + name + ")", path, "v4l2", None)
  }

  /** The webcam entries for device paths visited in the given order. */
  function Webcams(paths: seq<string>, available: set<string>, probe: string -> ProbeOutput): seq<Source> {
    if paths == [] then []
    else
      var rest := Webcams(paths[1..], available, probe);
      if Kept(paths[0], available, probe) then
        [WebcamEntry(paths[0], WebcamName(paths[0], probe(paths[0])))] + rest
      else rest
  }

  /** Every entry is a kept path of the listing, named after its card. */
  lemma {:induction false} WebcamsSound(paths: seq<string>, available: set<string>, probe: string -> ProbeOutput)
    ensures forall k | 0 <= k < |Webcams(paths, available, probe)| ::
      var e := Webcams(paths, available, probe)[k];
      && e.device in paths
      && Kept(e.device, available, probe)
      && e == WebcamEntry(e.device, WebcamName(e.device, probe(e.device)))
  {
    if paths != [] {
      WebcamsSound(paths[1..], available, probe);
    }
  }

  /** Every kept path of the listing has an entry. */
  lemma {:induction false} WebcamsComplete(paths: seq<string>, available: set<string>, probe: string -> ProbeOutput, p: string)
    requires p in paths && Kept(p, available, probe)
    ensures p in DevicesOf(Webcams(paths, available, probe))
  {
    var w := Webcams(paths, available, probe);
    if paths[0] == p {
      assert DevicesOf(w)[0] == p;
    } else {
      WebcamsComplete(paths[1..], available, probe, p);
      var rest := DevicesOf(Webcams(paths[1..], available, probe));
      if Kept(paths[0], available, probe) {
        assert DevicesOf(w) == [paths[0]] + rest;
      }
    }
  }

  /** The entries keep the order of the paths they come from. */
  lemma {:induction false} WebcamsInPathOrder(paths: seq<string>, available: set<string>, probe: string -> ProbeOutput)
    ensures InOrderWithin(DevicesOf(Webcams(paths, available, probe)), paths)
  {
    if paths != [] {
      WebcamsInPathOrder(paths[1..], available, probe);
      var rest := DevicesOf(Webcams(paths[1..], available, probe));
      if Kept(paths[0], available, probe) {
        assert DevicesOf(Webcams(paths, available, probe)) == [paths[0]] + rest;
        assert ([paths[0]] + rest)[1..] == rest;
      }
    }
  }

  /** What one visited path contributes. */
  function Visit(path: string, available: set<string>, probe: string -> ProbeOutput): seq<Source> {
    if Kept(path, available, probe) then [WebcamEntry(path, WebcamName(path, probe(path)))] else []
  }

  lemma WebcamsStep(paths: seq<string>, i: int, available: set<string>, probe: string -> ProbeOutput)
    requires 0 <= i < |paths|
    ensures Webcams(paths[i..], available, probe) ==
      Visit(paths[i], available, probe) + Webcams(paths[i + 1..], available, probe)
  {
    assert paths[i..][1..] == paths[i + 1..];
  }

  lemma SortedPathsNonEmpty(paths: seq<string>)
    requires forall k | 0 <= k < |paths| :: paths[k] != ""
    ensures forall k | 0 <= k < |Sort(paths)| :: Sort(paths)[k] != ""
  {
    var ordered := Sort(paths);
    forall k | 0 <= k < |ordered| ensures ordered[k] != "" {
      assert ordered[k] in multiset(paths);
    }
  }

  /** `_detect_webcams`: visit the device paths in sorted order. */
  method DetectWebcams(paths: seq<string>, available: set<string>, probe: string -> ProbeOutput)
    returns (webcams: seq<Source>)
    requires forall k | 0 <= k < |paths| :: paths[k] != ""
    ensures webcams == Webcams(Sort(paths), available, probe)
  {
    SortedPathsNonEmpty(paths);
    webcams := CollectWebcams(Sort(paths), available, probe);
  }

  /** The loop of `_detect_webcams` over the sorted paths, with its three `continue`s. */
  method CollectWebcams(ordered: seq<string>, available: set<string>, probe: string -> ProbeOutput)
    returns (webcams: seq<Source>)
    requires forall k | 0 <= k < |ordered| :: ordered[k] != ""
    ensures webcams == Webcams(ordered, available, probe)
  {
    webcams := [];
    for i := 0 to |ordered|
      invariant webcams + Webcams(ordered[i..], available, probe) == Webcams(ordered, available, probe)
    {
      var path := ordered[i];
      WebcamsStep(ordered, i, available, probe);
      if !IsDigit(path[|path| - 1]) {
        assert Visit(path, available, probe) == [];
        continue;
      }
      if path !in available {
        assert Visit(path, available, probe) == [];
        continue;
      }
      var name := GetWebcamName(path, probe(path));
      if name != "" {
        assert Visit(path, available, probe) == [WebcamEntry(path, name)];
        webcams := webcams + [WebcamEntry(path, name)];
      } else {
        assert Visit(path, available, probe) == [];
      }
    }
  }

  /** The screen entry first, then the webcams in detection order. */
  method GetVideoSources(paths: seq<string>, available: set<string>, probe: string -> ProbeOutput)
    returns (sources: seq<Source>)
    requires forall k | 0 <= k < |paths| :: paths[k] != ""
    ensures sources == [ScreenSource] + Webcams(Sort(paths), available, probe)
    ensures sources[0].device == "screen"
    ensures forall k | 1 <= k < |sources| :: sources[k].device != "screen"
  {
    var webcams := DetectWebcams(paths, available, probe);
    NoWebcamIsScreen(Sort(paths), available, probe);
    OnlyHeadIsScreen(ScreenSource, webcams);
    sources := [ScreenSource] + webcams;
  }

  lemma OnlyHeadIsScreen(head: Source, rest: seq<Source>)
    requires forall k | 0 <= k < |rest| :: rest[k].device != "screen"
    ensures forall k | 1 <= k < |[head] + rest| :: ([head] + rest)[k].device != "screen"
  {
    assert forall k | 1 <= k < |[head] + rest| :: ([head] + rest)[k] == rest[k - 1];
  }

  /** A kept path ends in a digit, so no webcam entry takes the screen's device name. */
  lemma NoWebcamIsScreen(paths: seq<string>, available: set<string>, probe: string -> ProbeOutput)
    ensures forall k | 0 <= k < |Webcams(paths, available, probe)| ::
      Webcams(paths, available, probe)[k].device != "screen"
  {
    var w := Webcams(paths, available, probe);
    WebcamsSound(paths, available, probe);
    forall k | 0 <= k < |w|
      ensures w[k].device != "screen"
    {
      var d := w[k].device;
      assert Kept(d, available, probe);
      assert IsDigit(d[|d| - 1]);
    }
  }

  // ---------------------------------------------------------------------------
  // `get_audio_sources`

  function GetAudioSources(): (sources: seq<Source>)
    ensures DevicesOf(sources) == ["default", "monitor"]
  {
    [DefaultAudioSource, MonitorAudioSource]
  }

  /** The two audio entries select the two different audio source elements of the
      streaming pipeline. */
  lemma AudioSourcesSelectElements()
    ensures AudioSourceElement(GetAudioSources()[0].device) == "autoaudiosrc"
    ensures AudioSourceElement(GetAudioSources()[1].device) == "pulsesrc"
  {
    assert GetAudioSources()[0].device == "default";
  }

  // ---------------------------------------------------------------------------
  // Probe pipelines of `test_video_source` and `test_audio_source`

  function VideoProbe(device: string): string {
    if device == "screen" then "pipewiresrc ! fakesink" else "v4l2src device=" + device + " ! fakesink"
  }

  function AudioProbe(device: string): string {
    if device == "default" then "autoaudiosrc ! fakesink"
    else if device == "monitor" then "pulsesrc ! fakesink"
    else "autoaudiosrc ! fakesink"
  }

  /** The video probe captures through PipeWire exactly when the streaming pipeline does,
      and otherwise opens the very device path. */
  lemma VideoProbeAgrees(device: string, timestamped: bool)
    ensures "pipewiresrc" <= VideoProbe(device) <==> "pipewiresrc" <= VideoSourceElement(device, timestamped)
    ensures VideoProbe(device) == "pipewiresrc ! fakesink" <==> device == "screen"
    ensures device != "screen" ==> VideoProbe(device) == VideoSourceElement(device, timestamped) + " ! fakesink"
  {
    VideoSourceKinds(device, timestamped);
    if device != "screen" {
      assert VideoProbe(device)[0] == 'v';
    }
  }

  /** The three-way choice of the audio probe is the two-way choice of the streaming
      pipeline: the monitor for 'monitor', the automatic source for everything else. */
  lemma AudioProbeAgrees(device: string)
    ensures AudioProbe(device) == AudioSourceElement(device) + " ! fakesink"
  {
  }
}
