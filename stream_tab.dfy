/** The stream tab of src/ui/stream_tab.py: the widget state the handlers read and write
    (combo selections, the URL and key fields, the buttons and labels, the log), the
    handlers themselves, and the delivery of the manager's signals to the tab. The widgets
    are plain fields; timestamps of log lines are not part of the model. */
module StreamTabUi {
  import opened Wrappers
  import opened PyStr
  import opened PyValues
  import opened PipelineStrings
  import opened Streaming
  import opened Config
  import opened Devices

  // ---------------------------------------------------------------------------
  // Fixed choices

  const CustomPlatform := "Benutzerdefiniert"

  /** The keys of `STREAM_SERVICES` in their order, which is the platform combo's order. */
  const PlatformNames: seq<string> :=
    [CustomPlatform, "YouTube", "Twitch", "TikTok", "Facebook Live", "Kick", "Restream.io"]

  /** `STREAM_SERVICES`: the ingest URL of each platform. */
  const StreamServices: map<string, string> := map[
    CustomPlatform := "",
    "YouTube" := "rtmp://a.rtmp.youtube.com/live2",
    "Twitch" := "rtmp://live.twitch.tv/app",
    "TikTok" := "rtmp://push.tiktokapis.com/v2/live",
    "Facebook Live" := "rtmps://live-api-s.facebook.com:443/rtmp",
    "Kick" := "rtmp://fra.contribute.live-video.net/app",
    "Restream.io" := "rtmp://live.restream.io/live"]

  const ResolutionChoices: seq<string> :=
    ["1920x1080 (Full HD)", "1280x720 (HD)", "854x480 (SD)", "640x360 (Low)"]
  const BitrateChoices: seq<string> :=
    ["6000 kbps (Sehr hoch)", "4500 kbps (Hoch)", "2500 kbps (Mittel)", "1500 kbps (Niedrig)"]

  /** What the first token of each choice reads as. */
  const ResolutionValues: seq<string> := ["1920x1080", "1280x720", "854x480", "640x360"]
  const ResolutionWidths: seq<string> := ["1920", "1280", "854", "640"]
  const ResolutionHeights: seq<string> := ["1080", "720", "480", "360"]
  const BitrateTexts: seq<string> := ["6000", "4500", "2500", "1500"]
  const BitrateValues: seq<nat> := [6000, 4500, 2500, 1500]

  const StreamFps := 30

  const MissingUrlText := "❌ Fehler: RTMP-URL fehlt!"
  const MissingKeyText := "❌ Fehler: Stream-Key fehlt!"
  const StartRequestedText := "🔴 Stream-Start angefordert..."
  const StartFailedText := "❌ Stream konnte nicht gestartet werden!"
  const StopRequestedText := "⏹️ Stream-Stop angefordert..."
  const PreviewStartingText := "▶️ Preview startet..."
  const PreviewFailedText := "❌ Preview konnte nicht gestartet werden!"
  const PreviewStoppedLogText := "⏹️ Preview gestoppt"
  const CustomUrlText := "Benutzerdefinierte RTMP-URL"
  const PlatformChangedPrefix := "Plattform gewechselt: "
  const WebcamSceneText := "🎥 Szene: Webcam"
  const DesktopSceneText := "🖥️ Szene: Desktop"
  const ConfigLoadedText := "Konfiguration geladen"
  const StartedText := "TUXRTMPilot gestartet"

  /** The three lines `_create_log_group` logs once the device combos are filled. */
  function InitialLog(videoCount: nat, audioCount: nat): (r: seq<string>)
    ensures |r| == 3 && r[0] == StartedText
  {
    [StartedText,
     "Video-Quellen: " + NatToString(videoCount) + " erkannt",
     "Audio-Quellen: " + NatToString(audioCount) + " erkannt"]
  }

  /** The two captions of the start button. */
  datatype StartCaption = GoLiveCaption | LiveCaption {
    function Text(): string {
      match this
      case GoLiveCaption => "🔴 LIVE GEHEN"
      case LiveCaption => "🔴 LIVE"
    }
  }

  function StartCaptionFor(streaming: bool): StartCaption {
    if streaming then LiveCaption else GoLiveCaption
  }

  /** The two states the preview button and the preview area show. */
  datatype PreviewCaption = PreviewOffCaption | PreviewOnCaption {
    function ButtonText(): string {
      match this
      case PreviewOffCaption => "▶️ Preview starten"
      case PreviewOnCaption => "⏹️ Preview stoppen"
    }

    function AreaText(): string {
      match this
      case PreviewOffCaption => "🎥 Preview inaktiv\n\nKlicke 'Preview starten' um eine Vorschau zu sehen"
      case PreviewOnCaption => "🎥 Preview aktiv\n\n(Separates Fenster)"
    }
  }

  function PreviewCaptionFor(active: bool): PreviewCaption {
    if active then PreviewOnCaption else PreviewOffCaption
  }

  /** Every platform of the combo has an ingest URL, and only the custom one has none. */
  lemma PlatformsHaveUrls()
    ensures forall k | 0 <= k < |PlatformNames| :: PlatformNames[k] in StreamServices
    ensures forall k | 0 <= k < |PlatformNames| :: StreamServices[PlatformNames[k]] == "" <==> PlatformNames[k] == CustomPlatform
    ensures forall p | p in StreamServices :: p in PlatformNames
  {
  }

  /** No platform is listed twice. */
  lemma PlatformNamesDistinct()
    ensures forall i, j | 0 <= i < j < |PlatformNames| :: PlatformNames[i] != PlatformNames[j]
  {
  }

  /** The position of a platform in the combo. */
  function PlatformIndex(p: string): (k: nat)
    requires p in PlatformNames
    ensures k < |PlatformNames| && PlatformNames[k] == p
  {
    if p == PlatformNames[0] then 0
    else if p == PlatformNames[1] then 1
    else if p == PlatformNames[2] then 2
    else if p == PlatformNames[3] then 3
    else if p == PlatformNames[4] then 4
    else if p == PlatformNames[5] then 5
    else 6
  }

  // ---------------------------------------------------------------------------
  // `_get_stream_config` on the fixed choices

  /** The first token of every resolution choice is its "WxH" text. */
  lemma ResolutionChoiceToken(k: nat)
    requires k < |ResolutionChoices|
    ensures FirstToken(ResolutionChoices[k]) == Some(ResolutionValues[k])
  {
    var v := ResolutionValues[k];
    var rest := ResolutionChoices[k][|v|..];
    assert ResolutionChoices[k] == v + rest;
    TokenBeforeSpace(v, rest);
  }

  /** Every resolution value splits on 'x' into its width and height, so the pipelines
      always build from the resolution the tab hands over. */
  lemma ResolutionValuesSplit(k: nat)
    requires k < |ResolutionValues|
    ensures SplitResolution(ResolutionValues[k]) == Ok((ResolutionWidths[k], ResolutionHeights[k]))
  {
    var w := ResolutionWidths[k];
    var h := ResolutionHeights[k];
    assert ResolutionValues[k] == w + "x" + h;
    ResolutionRoundTrip(w, h);
  }

  /** The number a bitrate text starts with. */
  lemma DigitsOfBitrate(k: nat)
    requires k < |BitrateValues|
    ensures ParseInt(BitrateTexts[k]) == Some(BitrateValues[k] as int)
  {
    if k == 0 {
      assert NatToString(6000) == "6000";
    } else if k == 1 {
      assert NatToString(4500) == "4500";
    } else if k == 2 {
      assert NatToString(2500) == "2500";
    } else {
      assert NatToString(1500) == "1500";
    }
    UnsignedRoundTrip(BitrateValues[k]);
  }

  /** The first token of every bitrate choice is its number's text, and `int` reads
      that number. */
  lemma BitrateChoiceToken(k: nat)
    requires k < |BitrateChoices|
    ensures FirstToken(BitrateChoices[k]) == Some(BitrateTexts[k])
    ensures ParseInt(FirstToken(BitrateChoices[k]).value) == Some(BitrateValues[k] as int)
  {
    var v := BitrateTexts[k];
    var rest := BitrateChoices[k][4..];
    assert BitrateChoices[k] == v + rest;
    TokenBeforeSpace(v, rest);
    DigitsOfBitrate(k);
  }

  /** The values `_get_stream_config` collects. */
  datatype TabSettings = TabSettings(
    videoSource: string, audioSource: string, rtmpUrl: string, streamKey: string,
    resolution: string, bitrate: int, fps: int, volume: int)


  // ---------------------------------------------------------------------------
  // Finding combo entries

  /** The first entry whose item data equals `wanted`; the count when there is none. */
  function FirstDataIndex(items: seq<Source>, wanted: Value): (i: nat)
    ensures i <= |items|
    ensures forall j | 0 <= j < i :: VStr(items[j].device) != wanted
    ensures i < |items| ==> VStr(items[i].device) == wanted
  {
    if items == [] || VStr(items[0].device) == wanted then 0 else 1 + FirstDataIndex(items[1..], wanted)
  }

  /** The first entry whose text contains `needle`; the count when there is none. */
  function FirstTextContaining(texts: seq<string>, needle: string): (i: nat)
    ensures i <= |texts|
    ensures forall j | 0 <= j < i :: !Contains(texts[j], needle)
    ensures i < |texts| ==> Contains(texts[i], needle)
  {
    if texts == [] || Contains(texts[0], needle) then 0 else 1 + FirstTextContaining(texts[1..], needle)
  }

  /** The first entry that is the screen (`screen`) or that is not (`!screen`). */
  function FirstSceneIndex(items: seq<Source>, screen: bool): (i: nat)
    ensures i <= |items|
    ensures forall j | 0 <= j < i :: (items[j].device == "screen") != screen
    ensures i < |items| ==> (items[i].device == "screen") == screen
  {
    if items == [] || (items[0].device == "screen") == screen then 0 else 1 + FirstSceneIndex(items[1..], screen)
  }

  /** `setCurrentIndex` after a search: the entry found, or the current one when the
      search came to the end without a match. */
  function Reselect(current: int, found: nat, count: nat): int {
    if found < count then found else current
  }

  /** The device scan of `_load_config`. */
  method FindDevice(items: seq<Source>, wanted: Value) returns (i: nat)
    ensures i == FirstDataIndex(items, wanted)
  {
    for k := 0 to |items|
      invariant forall j | 0 <= j < k :: VStr(items[j].device) != wanted
    {
      if VStr(items[k].device) == wanted {
        return k;
      }
    }
    return |items|;
  }

  /** The text scan of `_load_config` over the resolution and bitrate entries. */
  method FindContaining(texts: seq<string>, needle: string) returns (i: nat)
    ensures i == FirstTextContaining(texts, needle)
  {
    for k := 0 to |texts|
      invariant forall j | 0 <= j < k :: !Contains(texts[j], needle)
    {
      if Contains(texts[k], needle) {
        return k;
      }
    }
    return |texts|;
  }

  /** The scan of `_select_scene`. */
  method FindScene(items: seq<Source>, screen: bool) returns (i: nat)
    ensures i == FirstSceneIndex(items, screen)
  {
    for k := 0 to |items|
      invariant forall j | 0 <= j < k :: (items[j].device == "screen") != screen
    {
      if (items[k].device == "screen") == screen {
        return k;
      }
    }
    return |items|;
  }

  /** `str(v)` for the values whose rendering can occur in a bitrate text; lists and
      dictionaries render with a bracket or a brace, which no bitrate text contains. */
  function StrForm(v: Value): Option<string> {
    match v
    case VNone => Some("None")
    case VBool(b) => Some(if b then "True" else "False")
    case VInt(i) => Some(IntToString(i))
    case VStr(s) => Some(s)
    case VList(_) => None
    case VDict(_) => None
  }

  lemma FirstTextContainingAt(texts: seq<string>, needle: string, k: nat)
    requires k < |texts| && Contains(texts[k], needle)
    requires forall j | 0 <= j < k :: !Contains(texts[j], needle)
    ensures FirstTextContaining(texts, needle) == k
  {
  }

  /** The entry that starts with `v` is the first to contain it when every earlier entry
      lacks a character of `v`. */
  lemma FirstContainingPrefix(texts: seq<string>, k: nat, v: string, c: char)
    requires k < |texts| && |v| <= |texts[k]| && texts[k][..|v|] == v
    requires c in v && forall j | 0 <= j < k :: c !in texts[j]
    ensures FirstTextContaining(texts, v) == k
  {
    assert texts[k] == v + texts[k][|v|..];
    ContainsPrefix(v, texts[k][|v|..]);
    forall j | 0 <= j < k
      ensures !Contains(texts[j], v)
    {
      MissingCharExcludes(texts[j], v, c);
    }
  }

  /** Saving a resolution and loading it again selects the entry it came from: the
      value stored for entry `k` is found first in entry `k`. */
  lemma ResolutionReloads(k: nat)
    requires k < |ResolutionChoices|
    ensures FirstTextContaining(ResolutionChoices, ResolutionValues[k]) == k
  {
    var v := ResolutionValues[k];
    assert ResolutionChoices[k][..|v|] == v;
    if k == 0 {
      FirstContainingPrefix(ResolutionChoices, k, v, '1');
    } else if k == 1 {
      assert '7' !in ResolutionChoices[0];
      FirstContainingPrefix(ResolutionChoices, k, v, '7');
    } else if k == 2 {
      assert '5' !in ResolutionChoices[0];
      assert '5' !in ResolutionChoices[1];
      FirstContainingPrefix(ResolutionChoices, k, v, '5');
    } else {
      assert '6' !in ResolutionChoices[0];
      assert '6' !in ResolutionChoices[1];
      assert '6' !in ResolutionChoices[2];
      FirstContainingPrefix(ResolutionChoices, k, v, '6');
    }
  }

  /** `str` of each bitrate value is the text its entry starts with. */
  lemma BitrateRenders(k: nat)
    requires k < |BitrateValues|
    ensures StrForm(VInt(BitrateValues[k] as int)) == Some(BitrateTexts[k])
  {
    if k == 0 {
      assert NatToString(6000) == "6000";
    } else if k == 1 {
      assert NatToString(4500) == "4500";
    } else if k == 2 {
      assert NatToString(2500) == "2500";
    } else {
      assert NatToString(1500) == "1500";
    }
  }

  /** Saving a bitrate and loading it again selects the entry it came from: `str` of
      the number stored for entry `k` is found first in entry `k`. */
  lemma BitrateReloads(k: nat)
    requires k < |BitrateChoices|
    ensures FirstTextContaining(BitrateChoices, BitrateTexts[k]) == k
  {
    var v := BitrateTexts[k];
    assert BitrateChoices[k][..|v|] == v;
    if k == 0 {
      FirstContainingPrefix(BitrateChoices, k, v, '6');
    } else if k == 1 {
      assert '4' !in BitrateChoices[0];
      FirstContainingPrefix(BitrateChoices, k, v, '4');
    } else if k == 2 {
      assert '2' !in BitrateChoices[0];
      assert '2' !in BitrateChoices[1];
      FirstContainingPrefix(BitrateChoices, k, v, '2');
    } else {
      assert '1' !in BitrateChoices[0];
      assert '1' !in BitrateChoices[1];
      assert '1' !in BitrateChoices[2];
      FirstContainingPrefix(BitrateChoices, k, v, '1');
    }
  }

  // ---------------------------------------------------------------------------
  // `_save_config`

  /** The map after the five `set` calls of `_save_config`. */
  function StoreSettings(m: map<string, Value>, s: TabSettings, platform: string): map<string, Value> {
    m["video_source" := VStr(s.videoSource)]
     ["audio_source" := VStr(s.audioSource)]
     ["platform" := VStr(platform)]
     ["resolution" := VStr(s.resolution)]
     ["bitrate" := VInt(s.bitrate)]
  }

  /** Saving writes exactly the five selection keys: every other key, the stream key
      among them, keeps whatever it had (or stays absent). */
  lemma StoreSettingsKeys(m: map<string, Value>, s: TabSettings, platform: string, other: string)
    requires other !in {"video_source", "audio_source", "platform", "resolution", "bitrate"}
    ensures var r := StoreSettings(m, s, platform);
      && r.Keys == m.Keys + {"video_source", "audio_source", "platform", "resolution", "bitrate"}
      && (other in r <==> other in m)
      && (other in m ==> r[other] == m[other])
      && Lookup(r, "video_source", VNone) == VStr(s.videoSource)
      && Lookup(r, "audio_source", VNone) == VStr(s.audioSource)
      && Lookup(r, "platform", VNone) == VStr(platform)
      && Lookup(r, "resolution", VNone) == VStr(s.resolution)
      && Lookup(r, "bitrate", VNone) == VInt(s.bitrate)
  {
  }

  /** Whether `_load_config` runs to its end on these settings: a platform that cannot
      be hashed (a list or a dictionary) or a resolution that is not a string raises. */
  predicate LoadCompletes(m: map<string, Value>) {
    var platform := Lookup(m, "platform", VStr(CustomPlatform));
    var resolution := Lookup(m, "resolution", VStr("1280x720"));
    !platform.VList? && !platform.VDict? && resolution.VStr?
  }

  /** What `_save_config` stores always loads again. */
  lemma StoredSettingsLoad(m: map<string, Value>, s: TabSettings, platform: string)
    ensures LoadCompletes(StoreSettings(m, s, platform))
  {
  }

  /** The selections `_load_config` makes on the widgets `w` from the settings `m`: the
      first entries carrying the saved devices, the saved platform with its URL when it is
      a known one, and the first resolution and bitrate entries containing the saved
      values, each only where a match exists. Where loading raises (see `LoadCompletes`),
      the selections made before that point stay. */
  function LoadedWidgets(w: Widgets, videoItems: seq<Source>, audioItems: seq<Source>, m: map<string, Value>): Widgets {
    var video := Lookup(m, "video_source", VStr("screen"));
    var audio := Lookup(m, "audio_source", VStr("default"));
    var platform := Lookup(m, "platform", VStr(CustomPlatform));
    var resolution := Lookup(m, "resolution", VStr("1280x720"));
    var bitrate := StrForm(Lookup(m, "bitrate", VInt(2500)));
    var devices := w.(videoIndex := Reselect(w.videoIndex, FirstDataIndex(videoItems, video), |videoItems|),
                      audioIndex := Reselect(w.audioIndex, FirstDataIndex(audioItems, audio), |audioItems|));
    if platform.VList? || platform.VDict? then devices
    else
      var placed := PlacePlatform(devices, platform);
      if !resolution.VStr? then placed
      else
        placed.(resolutionIndex := Reselect(placed.resolutionIndex, FirstTextContaining(ResolutionChoices, resolution.s),
                                            |ResolutionChoices|),
                bitrateIndex := if bitrate.Some?
                  then Reselect(placed.bitrateIndex, FirstTextContaining(BitrateChoices, bitrate.value), |BitrateChoices|)
                  else placed.bitrateIndex)
  }

  /** `setCurrentText(platform)` and the URL that goes with it, for a known platform. */
  function PlacePlatform(w: Widgets, platform: Value): Widgets {
    if platform.VStr? && platform.s in StreamServices then
      PlatformsHaveUrls();
      w.(platformIndex := PlatformIndex(platform.s), urlText := StreamServices[platform.s])
    else w
  }

  // ---------------------------------------------------------------------------
  // The manager's signals as the tab receives them

  /** The log lines the tab writes for a run of signals: errors and statuses go to the
      log, state changes do not. */
  function LogLines(incoming: seq<Signal>): seq<string> {
    if incoming == [] then []
    else (if incoming[0].kind == StateChangedSignal then [] else [incoming[0].text]) + LogLines(incoming[1..])
  }

  /** `_on_stream_state_changed`: "streaming" and "idle" set the flag, other states leave it. */
  function StateAfter(streaming: bool, state: string): bool {
    if state == "streaming" then true else if state == "idle" then false else streaming
  }

  /** The tab's streaming flag after a run of signals. */
  function StreamingAfter(streaming: bool, incoming: seq<Signal>): bool
    decreases |incoming|
  {
    if incoming == [] then streaming
    else
      var next := if incoming[0].kind == StateChangedSignal then StateAfter(streaming, incoming[0].text) else streaming;
      StreamingAfter(next, incoming[1..])
  }

  /** Relaying two runs of signals in a row logs the lines of both. */
  lemma {:induction false} LogLinesAppend(a: seq<Signal>, b: seq<Signal>)
    ensures LogLines(a + b) == LogLines(a) + LogLines(b)
    decreases |a|
  {
    if a == [] {
      assert a + b == b;
    } else {
      assert (a + b)[0] == a[0];
      assert (a + b)[1..] == a[1..] + b;
      LogLinesAppend(a[1..], b);
    }
  }

  /** Whether a signal moves the tab's streaming flag. */
  predicate MovesFlag(signal: Signal) {
    signal.kind == StateChangedSignal && (signal.text == "streaming" || signal.text == "idle")
  }

  /** Two runs of signals in a row act as their concatenation. */
  lemma {:induction false} StreamingAfterAppend(streaming: bool, a: seq<Signal>, b: seq<Signal>)
    ensures StreamingAfter(streaming, a + b) == StreamingAfter(StreamingAfter(streaming, a), b)
    decreases |a|
  {
    if a == [] {
      assert a + b == b;
    } else {
      assert (a + b)[0] == a[0];
      assert (a + b)[1..] == a[1..] + b;
      var next := if a[0].kind == StateChangedSignal then StateAfter(streaming, a[0].text) else streaming;
      StreamingAfterAppend(next, a[1..], b);
    }
  }

  /** Signals that announce neither "streaming" nor "idle" leave the flag as it is. */
  lemma {:induction false} QuietKeepsFlag(streaming: bool, incoming: seq<Signal>)
    requires forall k | 0 <= k < |incoming| :: !MovesFlag(incoming[k])
    ensures StreamingAfter(streaming, incoming) == streaming
    decreases |incoming|
  {
    if incoming != [] {
      assert !MovesFlag(incoming[0]);
      QuietKeepsFlag(streaming, incoming[1..]);
    }
  }

  /** A start that plays leaves the tab streaming; any other outcome leaves the flag as
      it was, since only "starting" has been announced. */
  lemma StreamingAfterStart(streaming: bool, built: Result<string, Failure>, launch: LaunchOutcome, combined: bool)
    ensures StreamingAfter(streaming, StartStreamSignals(built, launch, combined)) ==
      if built.Ok? && launch == Plays then true else streaming
  {
    var head := [Signal(StateChangedSignal, "starting"), Signal(StatusSignal, BuildingPipelineText)];
    var tail := StreamLaunchSignals(built, launch, combined);
    StreamingAfterAppend(streaming, head, tail);
    QuietKeepsFlag(streaming, head);
    if built.Ok? && launch == Plays {
      var running := [Signal(StatusSignal, StartingStreamText),
                      Signal(StatusSignal, if combined then StreamAndPreviewRunningText else StreamRunningText)];
      var live := [Signal(StateChangedSignal, "streaming")];
      assert tail == running + live;
      StreamingAfterAppend(streaming, running, live);
      QuietKeepsFlag(streaming, running);
      assert live[1..] == [];
    } else {
      QuietKeepsFlag(streaming, tail);
    }
  }

  /** A stop that finds a stream leaves the tab idle. */
  lemma StreamingAfterStop(streaming: bool)
    ensures !StreamingAfter(streaming, [Signal(StateChangedSignal, "stopping"), Signal(StatusSignal, StoppingStreamText),
                                        Signal(StateChangedSignal, "idle"), Signal(StatusSignal, StreamStoppedText)])
  {
    var stopping := [Signal(StateChangedSignal, "stopping"), Signal(StatusSignal, StoppingStreamText)];
    var idle := [Signal(StateChangedSignal, "idle"), Signal(StatusSignal, StreamStoppedText)];
    StreamingAfterAppend(streaming, stopping, idle);
    QuietKeepsFlag(streaming, stopping);
    QuietKeepsFlag(false, idle[1..]);
  }

  /** What the preview start announces never touches the streaming flag. */
  lemma StreamingAfterPreview(streaming: bool, built: Result<string, Failure>, launch: LaunchOutcome)
    ensures StreamingAfter(streaming, StartPreviewSignals(built, launch)) == streaming
  {
    QuietKeepsFlag(streaming, StartPreviewSignals(built, launch));
  }

  // ---------------------------------------------------------------------------
  // The tab's calls into the manager, with what each emits

  /** `start_stream` as `_on_start_stream` calls it once its own two checks have passed.
      Relaying what it emits sets the tab's flag `streaming` exactly when the stream
      started, and leaves it as it was otherwise. */
  method StartStreamFor(manager: StreamManager, s: TabSettings, launch: LaunchOutcome, streaming: bool)
    returns (ok: bool, emitted: seq<Signal>)
    requires manager.Valid()
    requires s.rtmpUrl != "" && s.streamKey != ""
    modifies manager
    ensures manager.Valid()
    ensures manager.signals == old(manager.signals) + emitted
    ensures ok == (manager.isStreaming && !old(manager.isStreaming))
    ensures !old(manager.isStreaming) ==>
      manager.currentConfig == Some(StreamConfig(s.videoSource, s.audioSource, s.rtmpUrl, s.streamKey,
                                                 s.resolution, s.bitrate, s.fps))
    ensures StreamingAfter(streaming, emitted) == (ok || streaming)
  {
    ghost var wasStreaming := manager.isStreaming;
    var before := manager.signals;
    ok := manager.StartStream(s.videoSource, s.audioSource, s.rtmpUrl, s.streamKey, s.resolution, s.bitrate, s.fps, launch);
    emitted := manager.signals[|before|..];
    if wasStreaming {
      assert emitted == [Signal(ErrorSignal, AlreadyStreamingText)];
      QuietKeepsFlag(streaming, emitted);
    } else {
      ghost var built := StreamDescription(StreamConfig(s.videoSource, s.audioSource, s.rtmpUrl, s.streamKey,
                                                        s.resolution, s.bitrate, s.fps),
                                           manager.aacEncoder, manager.previewWasActiveBeforeStream);
      assert emitted == StartStreamSignals(built, launch, manager.previewWasActiveBeforeStream);
      StreamingAfterStart(streaming, built, launch, manager.previewWasActiveBeforeStream);
    }
  }

  /** `stop_stream` as `_on_stop_stream` calls it: relaying what it emits clears the
      tab's flag exactly when a stream was running. */
  method StopStreamFor(manager: StreamManager, streaming: bool) returns (emitted: seq<Signal>)
    requires manager.Valid()
    modifies manager
    ensures manager.Valid() && !manager.isStreaming
    ensures manager.signals == old(manager.signals) + emitted
    ensures StreamingAfter(streaming, emitted) == (streaming && !old(manager.isStreaming))
  {
    var before := manager.signals;
    var ok := manager.StopStream();
    emitted := manager.signals[|before|..];
    if ok {
      StreamingAfterStop(streaming);
    } else {
      assert emitted == [Signal(ErrorSignal, NoStreamText)];
      QuietKeepsFlag(streaming, emitted);
    }
  }

  /** `start_preview` as `_on_preview_toggle` calls it: it never touches the stream, and
      nothing it emits moves the tab's streaming flag. */
  method StartPreviewFor(manager: StreamManager, s: TabSettings, launch: LaunchOutcome, streaming: bool)
    returns (ok: bool, emitted: seq<Signal>)
    requires manager.Valid()
    modifies manager
    ensures manager.Valid()
    ensures manager.signals == old(manager.signals) + emitted
    ensures manager.isStreaming == old(manager.isStreaming)
    ensures ok == (manager.isPreviewActive && !old(manager.isPreviewActive))
    ensures !old(manager.isPreviewActive) && !old(manager.isStreaming) ==>
      manager.currentPreviewConfig == Some(PreviewConfig(s.videoSource, s.resolution, s.fps))
    ensures StreamingAfter(streaming, emitted) == streaming
  {
    ghost var wasActive := manager.isPreviewActive;
    ghost var wasStreaming := manager.isStreaming;
    var before := manager.signals;
    ok := manager.StartPreview(s.videoSource, s.resolution, s.fps, launch);
    emitted := manager.signals[|before|..];
    if wasActive {
      assert emitted == [Signal(ErrorSignal, PreviewAlreadyRunningText)];
      QuietKeepsFlag(streaming, emitted);
    } else if wasStreaming {
      assert emitted == [Signal(StatusSignal, PreviewInStreamText)];
      QuietKeepsFlag(streaming, emitted);
    } else {
      assert emitted == StartPreviewSignals(PreviewPipeline(s.videoSource, s.resolution, s.fps), launch);
      StreamingAfterPreview(streaming, PreviewPipeline(s.videoSource, s.resolution, s.fps), launch);
    }
  }

  /** `stop_preview` as `_on_preview_toggle` calls it: afterwards no preview runs, the
      stream is as it was, and nothing emitted moves the tab's streaming flag. */
  method StopPreviewFor(manager: StreamManager, streaming: bool) returns (emitted: seq<Signal>)
    requires manager.Valid()
    modifies manager
    ensures manager.Valid() && manager.isStreaming == old(manager.isStreaming) && !manager.isPreviewActive
    ensures manager.signals == old(manager.signals) + emitted
    ensures StreamingAfter(streaming, emitted) == streaming
  {
    ghost var wasStreaming := manager.isStreaming;
    var before := manager.signals;
    var ok := manager.StopPreview();
    emitted := manager.signals[|before|..];
    if !ok {
      assert emitted == [Signal(ErrorSignal, NoPreviewText)];
    } else if wasStreaming {
      assert emitted == [Signal(StatusSignal, PreviewDisabledText)];
    } else {
      assert emitted == [Signal(StatusSignal, StoppingPreviewText), Signal(StatusSignal, PreviewStoppedText)];
    }
    QuietKeepsFlag(streaming, emitted);
  }

  /** The check `_on_start_stream` makes before anything else: the line it logs when the
      stripped URL, or else the stripped key, is empty, and nothing when both are given. */
  function StartRefusal(urlText: string, keyText: string): (line: Option<string>)
    ensures line.None? <==> Strip(urlText) != "" && Strip(keyText) != ""
    ensures Strip(urlText) == "" ==> line == Some(MissingUrlText)
    ensures Strip(urlText) != "" && Strip(keyText) == "" ==> line == Some(MissingKeyText)
  {
    if Strip(urlText) == "" then Some(MissingUrlText)
    else if Strip(keyText) == "" then Some(MissingKeyText)
    else None
  }

  /** Blank fields are refused: the stream is requested exactly when both the URL and the
      key hold a character that is not white space. */
  lemma StartRefusalBlank(urlText: string, keyText: string)
    ensures StartRefusal(urlText, keyText).None? <==>
      && (exists k | 0 <= k < |urlText| :: !IsSpace(urlText[k]))
      && (exists k | 0 <= k < |keyText| :: !IsSpace(keyText[k]))
  {
    StripEmpty(urlText);
    StripEmpty(keyText);
  }

  /** The widgets of the tab apart from the log: the current entry of each combo, the
      URL and key fields, the volume slider and mute button, the two stream buttons with
      the start button's caption, the preview button and area, and the scene buttons. */
  datatype Widgets = Widgets(
    videoIndex: int, audioIndex: int, platformIndex: int, resolutionIndex: int, bitrateIndex: int,
    urlText: string, urlEditable: bool, keyText: string, volume: int, muted: bool,
    startEnabled: bool, stopEnabled: bool, startCaption: StartCaption,
    previewButtonCaption: PreviewCaption, previewAreaCaption: PreviewCaption,
    sceneWebcamChecked: bool, sceneDesktopChecked: bool)

  /** `_get_stream_config` on the widgets `w`: the selected devices, the stripped URL and
      key, the value each selected resolution and bitrate entry starts with, and the
      volume, zero when muted. With the fixed choices neither the token split nor `int`
      can raise (`ResolutionChoiceToken`, `BitrateChoiceToken`). */
  function SettingsOf(w: Widgets, videoItems: seq<Source>, audioItems: seq<Source>): (s: TabSettings)
    requires 0 <= w.videoIndex < |videoItems| && 0 <= w.audioIndex < |audioItems|
    requires 0 <= w.resolutionIndex < |ResolutionChoices| && 0 <= w.bitrateIndex < |BitrateChoices|
    ensures s.resolution == ResolutionValues[w.resolutionIndex]
    ensures s.bitrate == BitrateValues[w.bitrateIndex]
    ensures s.videoSource == videoItems[w.videoIndex].device
    ensures s.audioSource == audioItems[w.audioIndex].device
    ensures s.rtmpUrl == Strip(w.urlText) && s.streamKey == Strip(w.keyText) && s.fps == StreamFps
    ensures s.volume == if w.muted then 0 else w.volume
  {
    ResolutionChoiceToken(w.resolutionIndex);
    BitrateChoiceToken(w.bitrateIndex);
    var resolution := FirstToken(ResolutionChoices[w.resolutionIndex]).value;
    var bitrate := ParseInt(FirstToken(BitrateChoices[w.bitrateIndex]).value).value;
    TabSettings(videoItems[w.videoIndex].device, audioItems[w.audioIndex].device, Strip(w.urlText), Strip(w.keyText),
                resolution, bitrate, StreamFps, if w.muted then 0 else w.volume)
  }

  /** Saving the selections of the widgets `w` and loading them again, into any widgets
      `u`, brings back the same platform, resolution and bitrate entries, the platform's
      URL, and for video and audio the first entry carrying the saved device. */
  lemma SaveThenLoad(w: Widgets, u: Widgets, videoItems: seq<Source>, audioItems: seq<Source>, m: map<string, Value>)
    requires 0 <= w.videoIndex < |videoItems| && 0 <= w.audioIndex < |audioItems| && 0 <= w.platformIndex < |PlatformNames|
    requires 0 <= w.resolutionIndex < |ResolutionChoices| && 0 <= w.bitrateIndex < |BitrateChoices|
    ensures var saved := StoreSettings(m, SettingsOf(w, videoItems, audioItems), PlatformNames[w.platformIndex]);
      var r := LoadedWidgets(u, videoItems, audioItems, saved);
      && LoadCompletes(saved)
      && r.platformIndex == w.platformIndex && r.urlText == StreamServices[PlatformNames[w.platformIndex]]
      && r.resolutionIndex == w.resolutionIndex && r.bitrateIndex == w.bitrateIndex
      && r.videoIndex == FirstDataIndex(videoItems, VStr(videoItems[w.videoIndex].device)) <= w.videoIndex
      && r.audioIndex == FirstDataIndex(audioItems, VStr(audioItems[w.audioIndex].device)) <= w.audioIndex
  {
    var s := SettingsOf(w, videoItems, audioItems);
    var platform := PlatformNames[w.platformIndex];
    StoredSettingsLoad(m, s, platform);
    StoreSettingsKeys(m, s, platform, "");
    LoadSaved(u, videoItems, audioItems, StoreSettings(m, s, platform), s.videoSource, s.audioSource,
              w.platformIndex, w.resolutionIndex, w.bitrateIndex);
  }

  /** Loading settings that hold a listed platform and the values of a resolution and a
      bitrate entry selects exactly those entries. */
  lemma LoadSaved(u: Widgets, videoItems: seq<Source>, audioItems: seq<Source>, m: map<string, Value>,
                  video: string, audio: string, k: nat, ri: nat, bi: nat)
    requires k < |PlatformNames| && ri < |ResolutionChoices| && bi < |BitrateChoices|
    requires "video_source" in m && m["video_source"] == VStr(video)
    requires "audio_source" in m && m["audio_source"] == VStr(audio)
    requires "platform" in m && m["platform"] == VStr(PlatformNames[k])
    requires "resolution" in m && m["resolution"] == VStr(ResolutionValues[ri])
    requires "bitrate" in m && m["bitrate"] == VInt(BitrateValues[bi])
    ensures LoadedWidgets(u, videoItems, audioItems, m)
      == u.(videoIndex := Reselect(u.videoIndex, FirstDataIndex(videoItems, VStr(video)), |videoItems|),
            audioIndex := Reselect(u.audioIndex, FirstDataIndex(audioItems, VStr(audio)), |audioItems|),
            platformIndex := k, urlText := StreamServices[PlatformNames[k]],
            resolutionIndex := ri, bitrateIndex := bi)
  {
    var devices := u.(videoIndex := Reselect(u.videoIndex, FirstDataIndex(videoItems, VStr(video)), |videoItems|),
                      audioIndex := Reselect(u.audioIndex, FirstDataIndex(audioItems, VStr(audio)), |audioItems|));
    PlacedPlatform(devices, k);
    ResolutionReloads(ri);
    BitrateReloads(bi);
    BitrateRenders(bi);
  }

  /** Loading a listed platform selects its own entry and puts its URL into the field. */
  lemma PlacedPlatform(w: Widgets, k: nat)
    requires k < |PlatformNames|
    ensures PlacePlatform(w, VStr(PlatformNames[k])) == w.(platformIndex := k, urlText := StreamServices[PlatformNames[k]])
  {
    PlatformsHaveUrls();
    PlatformNamesDistinct();
  }

  /** The widgets as `_setup_ui` leaves them: first entries, 1280x720 and 2500 kbps
      preselected, empty URL and key, volume 70, nothing running. */
  const InitialWidgets :=
    Widgets(0, 0, 0, 1, 2, "", true, "", 70, false, true, false, GoLiveCaption,
            PreviewOffCaption, PreviewOffCaption, false, false)

  /** The widgets once the button states show `streaming`. */
  function ShowStreaming(w: Widgets, streaming: bool): Widgets {
    w.(startEnabled := !streaming, stopEnabled := streaming, startCaption := StartCaptionFor(streaming))
  }

  /** The widgets once the preview button and area show `active`. */
  function ShowPreview(w: Widgets, active: bool): Widgets {
    w.(previewButtonCaption := PreviewCaptionFor(active), previewAreaCaption := PreviewCaptionFor(active))
  }

  class StreamTab {
    const manager: StreamManager
    const config: ConfigManager
    /** The video and audio combo entries: text is the source's name, data its device. */
    const videoItems: seq<Source>
    const audioItems: seq<Source>

    /** `is_streaming`. */
    var isStreaming: bool
    /** `is_preview_active`. */
    var isPreviewActive: bool
    var widgets: Widgets
    /** The messages `add_log` has shown, oldest first. */
    var log: seq<string>

    /** Every combo has a current entry, and the buttons and labels show the two flags. */
    ghost predicate Valid()
      reads this
    {
      && 0 <= widgets.videoIndex < |videoItems|
      && 0 <= widgets.audioIndex < |audioItems|
      && 0 <= widgets.platformIndex < |PlatformNames|
      && 0 <= widgets.resolutionIndex < |ResolutionChoices|
      && 0 <= widgets.bitrateIndex < |BitrateChoices|
      && widgets.startEnabled == !isStreaming && widgets.stopEnabled == isStreaming
      && widgets.startCaption == StartCaptionFor(isStreaming)
      && widgets.previewButtonCaption == PreviewCaptionFor(isPreviewActive)
      && widgets.previewAreaCaption == PreviewCaptionFor(isPreviewActive)
    }

    /** `__init__` up to `_load_config`: the combos filled from the device lists, the
        widgets as `_setup_ui` creates them, and the log lines of `_create_log_group`. */
    constructor (manager: StreamManager, config: ConfigManager,
                 devicePaths: seq<string>, available: set<string>, probe: string -> ProbeOutput)
      requires forall k | 0 <= k < |devicePaths| :: devicePaths[k] != ""
      ensures Valid()
      ensures this.manager == manager && this.config == config
      ensures videoItems == [ScreenSource] + Webcams(Sort(devicePaths), available, probe)
      ensures audioItems == GetAudioSources()
      ensures !isStreaming && !isPreviewActive && widgets == InitialWidgets
      ensures log == InitialLog(|videoItems|, |audioItems|)
    {
      var video := GetVideoSources(devicePaths, available, probe);
      this.manager := manager;
      this.config := config;
      videoItems := video;
      audioItems := GetAudioSources();
      isStreaming := false;
      isPreviewActive := false;
      widgets := InitialWidgets;
      log := InitialLog(|video|, |GetAudioSources()|);
    }

    /** `_get_stream_config` on the tab's current widgets. */
    function GetStreamConfig(): TabSettings
      requires Valid()
      reads this
    {
      SettingsOf(widgets, videoItems, audioItems)
    }

    /** `_update_button_states`. */
    method UpdateButtonStates()
      modifies this
      ensures widgets == ShowStreaming(old(widgets), isStreaming)
      ensures isStreaming == old(isStreaming) && isPreviewActive == old(isPreviewActive) && log == old(log)
    {
      var startCaption := if isStreaming then LiveCaption else GoLiveCaption;
      widgets := widgets.(startEnabled := !isStreaming, stopEnabled := isStreaming, startCaption := startCaption);
    }

    /** `_on_stream_state_changed`. */
    method OnStreamStateChanged(state: string)
      requires Valid()
      modifies this
      ensures Valid()
      ensures isStreaming == StateAfter(old(isStreaming), state)
      ensures widgets == ShowStreaming(old(widgets), isStreaming)
      ensures isPreviewActive == old(isPreviewActive) && log == old(log)
    {
      if state == "streaming" {
        isStreaming := true;
      } else if state == "idle" {
        isStreaming := false;
      }
      UpdateButtonStates();
    }

    /** One of the manager's signals reaching the tab: error and status signals go to
        `add_log`, state changes to `_on_stream_state_changed`. */
    method Receive(signal: Signal)
      requires Valid()
      modifies this
      ensures Valid()
      ensures log == old(log) + LogLines([signal])
      ensures isStreaming == StreamingAfter(old(isStreaming), [signal])
      ensures widgets == ShowStreaming(old(widgets), isStreaming)
      ensures isPreviewActive == old(isPreviewActive)
    {
      if signal.kind == StateChangedSignal {
        OnStreamStateChanged(signal.text);
      } else {
        log := log + [signal.text];
      }
    }

    /** The manager's signals reaching the tab in emission order. */
    method ReceiveSignals(incoming: seq<Signal>)
      requires Valid()
      modifies this
      ensures Valid()
      ensures log == old(log) + LogLines(incoming)
      ensures isStreaming == StreamingAfter(old(isStreaming), incoming)
      ensures widgets == ShowStreaming(old(widgets), isStreaming)
      ensures isPreviewActive == old(isPreviewActive)
    {
      for i := 0 to |incoming|
        invariant Valid()
        invariant log + LogLines(incoming[i..]) == old(log) + LogLines(incoming)
        invariant StreamingAfter(isStreaming, incoming[i..]) == StreamingAfter(old(isStreaming), incoming)
        invariant widgets == ShowStreaming(old(widgets), isStreaming)
        invariant isPreviewActive == old(isPreviewActive)
      {
        assert incoming[i..] == [incoming[i]] + incoming[i + 1..];
        ghost var streaming := isStreaming;
        Receive(incoming[i]);
        StreamingAfterAppend(streaming, [incoming[i]], incoming[i + 1..]);
        LogLinesAppend([incoming[i]], incoming[i + 1..]);
      }
    }

    /** `_on_start_stream`: check the stripped URL, then the stripped key, then hand the
        collected settings to the manager. */
    method OnStartStream(launch: LaunchOutcome)
      requires Valid() && manager.Valid()
      modifies this, manager
      ensures Valid() && manager.Valid()
      ensures isPreviewActive == old(isPreviewActive)
      ensures StartRefusal(old(widgets.urlText), old(widgets.keyText)).Some? ==>
        && unchanged(manager) && isStreaming == old(isStreaming) && widgets == old(widgets)
        && log == old(log) + [StartRefusal(old(widgets.urlText), old(widgets.keyText)).value]
      ensures StartRefusal(old(widgets.urlText), old(widgets.keyText)).None? ==>
        var s := old(GetStreamConfig());
        var started := manager.isStreaming && !old(manager.isStreaming);
        && |old(manager.signals)| <= |manager.signals|
        && (!old(manager.isStreaming) ==>
              manager.currentConfig == Some(StreamConfig(s.videoSource, s.audioSource, s.rtmpUrl, s.streamKey,
                                                         s.resolution, s.bitrate, s.fps)))
        && log == old(log) + [StartRequestedText] + LogLines(manager.signals[|old(manager.signals)|..])
                  + (if started then [] else [StartFailedText])
        && isStreaming == (started || old(isStreaming))
        && widgets == ShowStreaming(old(widgets), isStreaming)
    {
      var refusal := StartRefusal(widgets.urlText, widgets.keyText);
      if refusal.Some? {
        AddLog(refusal.value);
      } else {
        var s := GetStreamConfig();
        RequestStream(s, launch);
      }
    }

    /** `add_log`: one more line, nothing else changes. */
    method AddLog(line: string)
      modifies this
      ensures log == old(log) + [line]
      ensures widgets == old(widgets) && isStreaming == old(isStreaming)
      ensures isPreviewActive == old(isPreviewActive)
    {
      log := log + [line];
    }

    /** The second half of `_on_start_stream`: `start_stream` with the collected settings,
        its signals relayed to the tab, and a failure line when it did not start. */
    method RequestStream(s: TabSettings, launch: LaunchOutcome)
      requires Valid() && manager.Valid()
      requires s.rtmpUrl != "" && s.streamKey != ""
      modifies this, manager
      ensures Valid() && manager.Valid()
      ensures isPreviewActive == old(isPreviewActive)
      ensures |old(manager.signals)| <= |manager.signals|
      ensures !old(manager.isStreaming) ==>
        manager.currentConfig == Some(StreamConfig(s.videoSource, s.audioSource, s.rtmpUrl, s.streamKey,
                                                   s.resolution, s.bitrate, s.fps))
      ensures var started := manager.isStreaming && !old(manager.isStreaming);
        && log == old(log) + [StartRequestedText] + LogLines(manager.signals[|old(manager.signals)|..])
                  + (if started then [] else [StartFailedText])
        && isStreaming == (started || old(isStreaming))
      ensures widgets == ShowStreaming(old(widgets), isStreaming)
    {
      log := log + [StartRequestedText];
      var ok, emitted := StartStreamFor(manager, s, launch, isStreaming);
      assert manager.signals[|old(manager.signals)|..] == emitted;
      ReceiveSignals(emitted);
      if !ok {
        log := log + [StartFailedText];
      }
    }

    /** `_on_stop_stream`: the request is logged, then whatever `stop_stream` emits. */
    method OnStopStream()
      requires Valid() && manager.Valid()
      modifies this, manager
      ensures Valid() && manager.Valid()
      ensures !manager.isStreaming
      ensures |old(manager.signals)| <= |manager.signals|
      ensures log == old(log) + [StopRequestedText] + LogLines(manager.signals[|old(manager.signals)|..])
      ensures isStreaming == (old(isStreaming) && !old(manager.isStreaming))
      ensures widgets == ShowStreaming(old(widgets), isStreaming)
      ensures isPreviewActive == old(isPreviewActive)
    {
      log := log + [StopRequestedText];
      var emitted := StopStreamFor(manager, isStreaming);
      assert manager.signals[|old(manager.signals)|..] == emitted;
      ReceiveSignals(emitted);
    }

    /** `_on_preview_toggle`: start a preview when the tab shows none, stop it otherwise.
        Neither direction touches the stream. */
    method OnPreviewToggle(launch: LaunchOutcome)
      requires Valid() && manager.Valid()
      modifies this, manager
      ensures Valid() && manager.Valid()
      ensures |old(manager.signals)| <= |manager.signals|
      ensures manager.isStreaming == old(manager.isStreaming) && isStreaming == old(isStreaming)
      ensures !old(isPreviewActive) ==>
        var s := old(GetStreamConfig());
        && isPreviewActive == (manager.isPreviewActive && !old(manager.isPreviewActive))
        && (!old(manager.isPreviewActive) && !old(manager.isStreaming) ==>
              manager.currentPreviewConfig == Some(PreviewConfig(s.videoSource, s.resolution, s.fps)))
        && log == old(log) + [PreviewStartingText] + LogLines(manager.signals[|old(manager.signals)|..])
                  + (if isPreviewActive then [] else [PreviewFailedText])
      ensures old(isPreviewActive) ==>
        && !isPreviewActive && !manager.isPreviewActive
        && log == old(log) + [PreviewStoppedLogText] + LogLines(manager.signals[|old(manager.signals)|..])
      ensures widgets == ShowPreview(old(widgets), isPreviewActive)
    {
      if !isPreviewActive {
        var s := GetStreamConfig();
        RequestPreview(s, launch);
      } else {
        DismissPreview();
      }
    }

    /** The starting half of `_on_preview_toggle`. */
    method RequestPreview(s: TabSettings, launch: LaunchOutcome)
      requires Valid() && manager.Valid() && !isPreviewActive
      modifies this, manager
      ensures Valid() && manager.Valid()
      ensures |old(manager.signals)| <= |manager.signals|
      ensures manager.isStreaming == old(manager.isStreaming) && isStreaming == old(isStreaming)
      ensures isPreviewActive == (manager.isPreviewActive && !old(manager.isPreviewActive))
      ensures !old(manager.isPreviewActive) && !old(manager.isStreaming) ==>
        manager.currentPreviewConfig == Some(PreviewConfig(s.videoSource, s.resolution, s.fps))
      ensures log == old(log) + [PreviewStartingText] + LogLines(manager.signals[|old(manager.signals)|..])
                     + (if isPreviewActive then [] else [PreviewFailedText])
      ensures widgets == ShowPreview(old(widgets), isPreviewActive)
    {
      log := log + [PreviewStartingText];
      var ok, emitted := StartPreviewFor(manager, s, launch, isStreaming);
      assert manager.signals[|old(manager.signals)|..] == emitted;
      ReceiveSignals(emitted);
      if ok {
        isPreviewActive := true;
        widgets := widgets.(previewButtonCaption := PreviewOnCaption, previewAreaCaption := PreviewOnCaption);
      } else {
        log := log + [PreviewFailedText];
      }
    }

    /** The stopping half of `_on_preview_toggle`. */
    method DismissPreview()
      requires Valid() && manager.Valid() && isPreviewActive
      modifies this, manager
      ensures Valid() && manager.Valid()
      ensures |old(manager.signals)| <= |manager.signals|
      ensures manager.isStreaming == old(manager.isStreaming) && isStreaming == old(isStreaming)
      ensures !isPreviewActive && !manager.isPreviewActive
      ensures log == old(log) + [PreviewStoppedLogText] + LogLines(manager.signals[|old(manager.signals)|..])
      ensures widgets == ShowPreview(old(widgets), false)
    {
      log := log + [PreviewStoppedLogText];
      var emitted := StopPreviewFor(manager, isStreaming);
      assert manager.signals[|old(manager.signals)|..] == emitted;
      ReceiveSignals(emitted);
      isPreviewActive := false;
      widgets := widgets.(previewButtonCaption := PreviewOffCaption, previewAreaCaption := PreviewOffCaption);
    }

    /** `_on_platform_changed`: a known platform puts its URL into the field, which stays
        editable only for the custom entry; an unknown name changes nothing. */
    method OnPlatformChanged(platform: string)
      requires Valid()
      modifies this
      ensures Valid()
      ensures isStreaming == old(isStreaming) && isPreviewActive == old(isPreviewActive)
      ensures platform in StreamServices ==>
        && widgets == old(widgets).(urlText := StreamServices[platform], urlEditable := platform == CustomPlatform)
        && log == old(log) + [if platform == CustomPlatform then CustomUrlText else PlatformChangedPrefix + platform]
      ensures platform !in StreamServices ==> widgets == old(widgets) && log == old(log)
    {
      if platform in StreamServices {
        var url := StreamServices[platform];
        if platform != CustomPlatform {
          widgets := widgets.(urlText := url, urlEditable := false);
          log := log + [PlatformChangedPrefix + platform];
        } else {
          widgets := widgets.(urlText := url, urlEditable := true);
          log := log + [CustomUrlText];
        }
      }
    }

    /** `_select_scene`: 'webcam' selects the first entry that is not the screen,
        'desktop' the first that is; the scene buttons follow. Without a match, or for any
        other scene name, nothing changes. */
    method SelectScene(sceneType: string)
      requires Valid()
      modifies this
      ensures Valid()
      ensures isStreaming == old(isStreaming) && isPreviewActive == old(isPreviewActive)
      ensures sceneType == "webcam" || sceneType == "desktop" ==>
        var screen := sceneType == "desktop";
        var i := FirstSceneIndex(videoItems, screen);
        if i < |videoItems| then
          && widgets == old(widgets).(videoIndex := i, sceneWebcamChecked := !screen, sceneDesktopChecked := screen)
          && log == old(log) + [if screen then DesktopSceneText else WebcamSceneText]
        else widgets == old(widgets) && log == old(log)
      ensures sceneType != "webcam" && sceneType != "desktop" ==> widgets == old(widgets) && log == old(log)
    {
      if sceneType == "webcam" || sceneType == "desktop" {
        var screen := sceneType == "desktop";
        var i := FindScene(videoItems, screen);
        if i < |videoItems| {
          widgets := widgets.(videoIndex := i, sceneWebcamChecked := !screen, sceneDesktopChecked := screen);
          log := log + [if screen then DesktopSceneText else WebcamSceneText];
        }
      }
    }

    /** `_load_config`: the selections of `LoadedWidgets`, then the closing log line.
        It reports whether it ran to its end (`LoadCompletes`); otherwise it raised
        part-way, keeping the selections made so far. */
    method LoadConfig() returns (completed: bool)
      requires Valid()
      modifies this
      ensures Valid()
      ensures isStreaming == old(isStreaming) && isPreviewActive == old(isPreviewActive)
      ensures completed == LoadCompletes(config.config)
      ensures widgets == LoadedWidgets(old(widgets), videoItems, audioItems, config.config)
      ensures log == old(log) + if completed then [ConfigLoadedText] else []
    {
      SelectDevices(config.Get("video_source", VStr("screen")), config.Get("audio_source", VStr("default")));
      var platform := config.Get("platform", VStr(CustomPlatform));
      if platform.VList? || platform.VDict? {
        return false;
      }
      SelectPlatform(platform);
      var resolution := config.Get("resolution", VStr("1280x720"));
      if !resolution.VStr? {
        return false;
      }
      SelectResolution(resolution.s, StrForm(config.Get("bitrate", VInt(2500))));
      AddLog(ConfigLoadedText);
      return true;
    }

    /** The device part of `_load_config`: the first entry carrying the saved device,
        for video and for audio. */
    method SelectDevices(video: Value, audio: Value)
      requires Valid()
      modifies this
      ensures Valid()
      ensures isStreaming == old(isStreaming) && isPreviewActive == old(isPreviewActive) && log == old(log)
      ensures widgets == old(widgets).(
        videoIndex := Reselect(old(widgets.videoIndex), FirstDataIndex(videoItems, video), |videoItems|),
        audioIndex := Reselect(old(widgets.audioIndex), FirstDataIndex(audioItems, audio), |audioItems|))
    {
      var vi := FindDevice(videoItems, video);
      var ai := FindDevice(audioItems, audio);
      widgets := widgets.(videoIndex := Reselect(widgets.videoIndex, vi, |videoItems|),
                          audioIndex := Reselect(widgets.audioIndex, ai, |audioItems|));
    }

    /** The platform part of `_load_config`: a known platform is selected and its URL put
        into the field; anything else leaves both as they are. */
    method SelectPlatform(platform: Value)
      requires Valid()
      modifies this
      ensures Valid()
      ensures isStreaming == old(isStreaming) && isPreviewActive == old(isPreviewActive) && log == old(log)
      ensures widgets == PlacePlatform(old(widgets), platform)
    {
      if platform.VStr? && platform.s in StreamServices {
        PlatformsHaveUrls();
        widgets := widgets.(platformIndex := PlatformIndex(platform.s), urlText := StreamServices[platform.s]);
      }
    }

    /** The resolution and bitrate part of `_load_config`: the first entry containing the
        saved text, where there is one. */
    method SelectResolution(resolution: string, bitrate: Option<string>)
      requires Valid()
      modifies this
      ensures Valid()
      ensures isStreaming == old(isStreaming) && isPreviewActive == old(isPreviewActive) && log == old(log)
      ensures widgets == old(widgets).(
        resolutionIndex := Reselect(old(widgets.resolutionIndex), FirstTextContaining(ResolutionChoices, resolution),
                                    |ResolutionChoices|),
        bitrateIndex := if bitrate.Some?
          then Reselect(old(widgets.bitrateIndex), FirstTextContaining(BitrateChoices, bitrate.value), |BitrateChoices|)
          else old(widgets.bitrateIndex))
    {
      var ri := FindContaining(ResolutionChoices, resolution);
      var bitrateIndex := widgets.bitrateIndex;
      if bitrate.Some? {
        var bi := FindContaining(BitrateChoices, bitrate.value);
        bitrateIndex := Reselect(bitrateIndex, bi, |BitrateChoices|);
      }
      widgets := widgets.(resolutionIndex := Reselect(widgets.resolutionIndex, ri, |ResolutionChoices|),
                          bitrateIndex := bitrateIndex);
    }

    /** `_save_config`: store the five selection values, never the stream key, and write
        the file; whether the write succeeds is passed in. */
    method SaveConfig(writable: bool)
      requires Valid()
      modifies config
      ensures config.config == StoreSettings(old(config.config), GetStreamConfig(), PlatformNames[widgets.platformIndex])
      ensures config.file == if writable then Decoded(config.config) else old(config.file)
    {
      var s := GetStreamConfig();
      config.Set("video_source", VStr(s.videoSource));
      config.Set("audio_source", VStr(s.audioSource));
      config.Set("platform", VStr(PlatformNames[widgets.platformIndex]));
      config.Set("resolution", VStr(s.resolution));
      config.Set("bitrate", VInt(s.bitrate));
      var _ := config.SaveConfig(writable);
    }
  }

  /** `StreamTab.__init__`: build the widgets, then `_load_config`. When loading raises,
      the exception leaves the constructor and no tab comes into being. */
  method NewStreamTab(manager: StreamManager, config: ConfigManager,
                      devicePaths: seq<string>, available: set<string>, probe: string -> ProbeOutput)
    returns (tab: StreamTab?)
    requires forall k | 0 <= k < |devicePaths| :: devicePaths[k] != ""
    ensures tab != null <==> LoadCompletes(config.config)
    ensures tab != null ==>
      && fresh(tab) && tab.Valid() && tab.manager == manager && tab.config == config
      && tab.videoItems == [ScreenSource] + Webcams(Sort(devicePaths), available, probe)
      && tab.log == InitialLog(|tab.videoItems|, |tab.audioItems|) + [ConfigLoadedText]
      && tab.log[0] == StartedText
      && !tab.isStreaming && !tab.isPreviewActive
      && tab.widgets == LoadedWidgets(InitialWidgets, tab.videoItems, tab.audioItems, config.config)
  {
    tab := new StreamTab(manager, config, devicePaths, available, probe);
    var completed := tab.LoadConfig();
    if !completed {
      tab := null;
    }
  }
}
