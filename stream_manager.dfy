/** The stream/preview lifecycle of `StreamManager` (src/core/stream_manager.py): three
    flags, at most one pipeline handle, the stored stream and preview configurations and
    the signals the manager emits. The framework is opaque: what `parse_launch` and
    `set_state(PLAYING)` do with a description is passed in as a `LaunchOutcome`. */
module Streaming {
  import opened Wrappers
  import opened PyStr
  import opened PyValues
  import opened PipelineStrings

  datatype SignalKind = ErrorSignal | StatusSignal | StateChangedSignal

  /** One emission of `error_signal`, `status_signal` or `state_changed_signal`. */
  datatype Signal = Signal(kind: SignalKind, text: string)

  /** Which callback the pipeline's bus watch is connected to. */
  datatype BusHandler = StreamBusHandler | PreviewBusHandler

  /** A pipeline the framework parsed from `description`. */
  datatype Pipeline = Pipeline(description: string, handler: BusHandler)

  /** What the framework does with a description: `parse_launch` raises (with the
      exception's text), `set_state(PLAYING)` returns FAILURE, or the pipeline plays. */
  datatype LaunchOutcome = ParseRaises(message: string) | StateChangeFails | Plays

  /** A message on a pipeline's bus, reduced to what the callbacks look at. */
  datatype BusMessage = BusError(message: string) | BusWarning(message: string) | EndOfStream | OtherMessage

  /** The `current_preview_config` dictionary `start_preview` stores. */
  datatype PreviewConfig = PreviewConfig(videoSource: string, resolution: string, fps: int)

  /** Everything the manager holds apart from the signals and the console output. */
  datatype ManagerState = ManagerState(
    pipeline: Option<Pipeline>,
    hasThread: bool,
    isStreaming: bool,
    isPreviewActive: bool,
    previewWasActiveBeforeStream: bool,
    currentConfig: Option<StreamConfig>,
    currentPreviewConfig: Option<PreviewConfig>)

  /** What `stop_preview` leaves behind from state `st`: the new state and the signals
      it emits. Without a preview it only complains; during a stream only the flags are
      cleared and the pipeline runs on; otherwise the preview pipeline is dropped. */
  function AfterStopPreview(st: ManagerState): (r: (ManagerState, seq<Signal>))
    ensures !r.0.isPreviewActive && r.0.isStreaming == st.isStreaming
    ensures r.0.currentConfig == st.currentConfig && r.0.currentPreviewConfig == st.currentPreviewConfig
    ensures st.isStreaming ==> r.0.pipeline == st.pipeline
    ensures st.isPreviewActive && !st.isStreaming ==> r.0.pipeline.None?
    ensures |r.1| > 0 && (r.1[0].kind == ErrorSignal <==> !st.isPreviewActive)
  {
    if !st.isPreviewActive then
      (st, [Signal(ErrorSignal, NoPreviewText)])
    else if st.isStreaming then
      (st.(isPreviewActive := false, previewWasActiveBeforeStream := false),
       [Signal(StatusSignal, PreviewDisabledText)])
    else
      (st.(pipeline := None, hasThread := false, isPreviewActive := false),
       [Signal(StatusSignal, StoppingPreviewText), Signal(StatusSignal, PreviewStoppedText)])
  }

  const AlreadyStreamingText := "❌ Stream läuft bereits!"
  const UrlAndKeyRequiredText := "❌ RTMP-URL und Stream-Key erforderlich!"
  const BuildingPipelineText := "🔄 Erstelle GStreamer-Pipeline..."
  const StartingStreamText := "🚀 Starte Stream..."
  const PipelineStartFailedText := "❌ Pipeline konnte nicht gestartet werden!"
  const StreamAndPreviewRunningText := "✅ Stream + Preview laufen!"
  const StreamRunningText := "✅ Stream läuft!"
  const StreamStartErrorPrefix := "❌ Fehler beim Stream-Start: "
  const NoStreamText := "⚠️ Kein Stream aktiv!"
  const StoppingStreamText := "🛑 Stoppe Stream..."
  const StreamStoppedText := "✅ Stream gestoppt"
  const PreviewAlreadyRunningText := "⚠️ Preview läuft bereits!"
  const PreviewInStreamText := "ℹ️ Preview läuft bereits im Stream!"
  const BuildingPreviewText := "🔄 Erstelle Preview-Pipeline..."
  const StartingPreviewText := "▶️ Starte Preview..."
  const PreviewStartFailedText := "❌ Preview konnte nicht gestartet werden!"
  const PreviewActiveText := "✅ Preview aktiv (Separates Fenster)!"
  const PreviewStartErrorPrefix := "❌ Fehler beim Preview-Start: "
  const NoPreviewText := "⚠️ Keine Preview aktiv!"
  const PreviewDisabledText := "ℹ️ Preview deaktiviert (Stream läuft weiter)"
  const StoppingPreviewText := "⏸️ Stoppe Preview..."
  const PreviewStoppedText := "✅ Preview gestoppt"

  /** The description `start_stream` builds: with the tee when a preview ran before the stream. */
  function StreamDescription(c: StreamConfig, encoder: string, combined: bool): Result<string, Failure> {
    if combined then CombinedPipeline(c, encoder) else StreamPipeline(c, encoder)
  }

  /** The signals an admitted `start_stream` emits, by how building and launching go. */
  function StartStreamSignals(built: Result<string, Failure>, launch: LaunchOutcome, combined: bool): seq<Signal> {
    [Signal(StateChangedSignal, "starting"), Signal(StatusSignal, BuildingPipelineText)]
    + StreamLaunchSignals(built, launch, combined)
  }

  function StreamLaunchSignals(built: Result<string, Failure>, launch: LaunchOutcome, combined: bool): seq<Signal> {
    if built.Err? then [Signal(ErrorSignal, StreamStartErrorPrefix + FailureText(built.error))]
    else PlayStreamSignals(launch, combined)
  }

  /** The signals of `start_stream` once the description exists, by what the framework does with it. */
  function PlayStreamSignals(launch: LaunchOutcome, combined: bool): seq<Signal> {
    match launch
      case ParseRaises(m) => [Signal(ErrorSignal, StreamStartErrorPrefix + m)]
      case StateChangeFails => [Signal(StatusSignal, StartingStreamText), Signal(ErrorSignal, PipelineStartFailedText)]
      case Plays =>
        [Signal(StatusSignal, StartingStreamText),
         Signal(StatusSignal, if combined then StreamAndPreviewRunningText else StreamRunningText),
         Signal(StateChangedSignal, "streaming")]
  }

  /** The signals a `start_preview` that got past its two guards emits. */
  function StartPreviewSignals(built: Result<string, Failure>, launch: LaunchOutcome): seq<Signal> {
    [Signal(StatusSignal, BuildingPreviewText)] + PreviewLaunchSignals(built, launch)
  }

  function PreviewLaunchSignals(built: Result<string, Failure>, launch: LaunchOutcome): seq<Signal> {
    if built.Err? then [Signal(ErrorSignal, PreviewStartErrorPrefix + FailureText(built.error))]
    else PlayPreviewSignals(launch)
  }

  function PlayPreviewSignals(launch: LaunchOutcome): seq<Signal> {
    match launch
      case ParseRaises(m) => [Signal(ErrorSignal, PreviewStartErrorPrefix + m)]
      case StateChangeFails => [Signal(StatusSignal, StartingPreviewText), Signal(ErrorSignal, PreviewStartFailedText)]
      case Plays => [Signal(StatusSignal, StartingPreviewText), Signal(StatusSignal, PreviewActiveText)]
  }

  class StreamManager {
    var pipeline: Option<Pipeline>
    /** Whether a framework main-loop thread is held (`gst_thread` is not None). */
    var hasThread: bool
    var isStreaming: bool
    var isPreviewActive: bool
    var previewWasActiveBeforeStream: bool
    var currentConfig: Option<StreamConfig>
    var currentPreviewConfig: Option<PreviewConfig>
    const aacEncoder: string
    /** Every signal emitted so far, oldest first. */
    var signals: seq<Signal>
    /** The pipeline descriptions printed to the console, oldest first. */
    var pipelineLog: seq<string>

    function Snapshot(): ManagerState
      reads this
    {
      ManagerState(pipeline, hasThread, isStreaming, isPreviewActive,
                   previewWasActiveBeforeStream, currentConfig, currentPreviewConfig)
    }

    /** What holds between any two operations: a stream always runs a pipeline watched by
        the stream callback, with a thread and a stored configuration;
        a pipeline without a stream is a preview's; a stored configuration has a URL and
        a key. */
    ghost predicate Valid()
      reads this
    {
      && (isStreaming ==>
            && hasThread
            && currentConfig.Some?
            && pipeline.Some? && pipeline.value.handler == StreamBusHandler)
      && (!isStreaming ==> !hasThread)
      && (!isStreaming && pipeline.Some? ==> isPreviewActive && pipeline.value.handler == PreviewBusHandler)
      && (currentConfig.Some? ==> currentConfig.value.rtmpUrl != "" && currentConfig.value.streamKey != "")
      && aacEncoder in AacEncoders
    }

    constructor (installed: set<string>)
      ensures Valid()
      ensures aacEncoder == FirstInstalled(AacEncoders, installed).GetOr("avenc_aac")
      ensures Snapshot() == ManagerState(None, false, false, false, false, None, None)
      ensures signals == [] && pipelineLog == []
    {
      var encoder := FindBestAacEncoder(installed);
      pipeline := None;
      hasThread := false;
      isStreaming := false;
      isPreviewActive := false;
      previewWasActiveBeforeStream := false;
      currentConfig := None;
      currentPreviewConfig := None;
      aacEncoder := encoder;
      signals := [];
      pipelineLog := [];
    }

    /** `_cleanup_pipeline`: drop the pipeline and the thread. */
    method CleanupPipeline()
      modifies this
      ensures Snapshot() == old(Snapshot()).(pipeline := None, hasThread := false)
      ensures signals == old(signals) && pipelineLog == old(pipelineLog)
    {
      pipeline := None;
      hasThread := false;
    }

    /** `_stop_preview_internal`: drop the preview pipeline without emitting anything. */
    method StopPreviewInternal()
      modifies this
      ensures Snapshot() == old(Snapshot()).(pipeline := None, isPreviewActive := false)
      ensures signals == old(signals) && pipelineLog == old(pipelineLog)
    {
      pipeline := None;
      isPreviewActive := false;
    }

    /** `start_stream`. */
    method StartStream(videoSource: string, audioSource: string, rtmpUrl: string, streamKey: string,
                       resolution: string, bitrate: int, fps: int, launch: LaunchOutcome) returns (ok: bool)
      requires Valid()
      modifies this
      ensures Valid()
      ensures old(isStreaming) ==>
        && !ok && Snapshot() == old(Snapshot()) && pipelineLog == old(pipelineLog)
        && signals == old(signals) + [Signal(ErrorSignal, AlreadyStreamingText)]
      ensures !old(isStreaming) && (rtmpUrl == "" || streamKey == "") ==>
        && !ok && Snapshot() == old(Snapshot()) && pipelineLog == old(pipelineLog)
        && signals == old(signals) + [Signal(ErrorSignal, UrlAndKeyRequiredText)]
      ensures !old(isStreaming) && rtmpUrl != "" && streamKey != "" ==>
        var cfg := StreamConfig(videoSource, audioSource, rtmpUrl, streamKey, resolution, bitrate, fps);
        var built := StreamDescription(cfg, aacEncoder, previewWasActiveBeforeStream);
        && previewWasActiveBeforeStream == (old(isPreviewActive) || old(previewWasActiveBeforeStream))
        && currentConfig == Some(cfg)
        && currentPreviewConfig == old(currentPreviewConfig)
        && (ok <==> built.Ok? && launch == Plays)
        && (ok ==> isStreaming && hasThread && isPreviewActive == previewWasActiveBeforeStream
                   && pipeline == Some(Pipeline(built.value, StreamBusHandler)))
        && (!ok ==> !isStreaming && !hasThread && !isPreviewActive && pipeline == None)
        && signals == old(signals) + StartStreamSignals(built, launch, previewWasActiveBeforeStream)
        && pipelineLog == old(pipelineLog) + (if built.Ok? then [Sanitize(built.value, Some(cfg))] else [])
    {
      if isStreaming {
        signals := signals + [Signal(ErrorSignal, AlreadyStreamingText)];
        return false;
      }
      if rtmpUrl == "" || streamKey == "" {
        signals := signals + [Signal(ErrorSignal, UrlAndKeyRequiredText)];
        return false;
      }
      ok := AdmitStream(StreamConfig(videoSource, audioSource, rtmpUrl, streamKey, resolution, bitrate, fps), launch);
    }

    /** The preview switch at the head of an admitted `start_stream`: a running separate
        preview is closed and remembered, so that the stream gets the tee. */
    method HandOverPreview()
      requires Valid() && !isStreaming
      modifies this
      ensures Valid()
      ensures Snapshot() == old(Snapshot()).(
        pipeline := if old(isPreviewActive) then None else old(pipeline),
        isPreviewActive := false,
        previewWasActiveBeforeStream := old(isPreviewActive) || old(previewWasActiveBeforeStream))
      ensures signals == old(signals) && pipelineLog == old(pipelineLog)
    {
      if isPreviewActive {
        previewWasActiveBeforeStream := true;
        StopPreviewInternal();
      }
    }

    /** `start_stream` past its two guards: close a running preview, remembering that
        it ran, then build and launch. */
    method AdmitStream(cfg: StreamConfig, launch: LaunchOutcome) returns (ok: bool)
      requires Valid() && !isStreaming && cfg.rtmpUrl != "" && cfg.streamKey != ""
      modifies this
      ensures Valid()
      ensures
        var built := StreamDescription(cfg, aacEncoder, previewWasActiveBeforeStream);
        && previewWasActiveBeforeStream == (old(isPreviewActive) || old(previewWasActiveBeforeStream))
        && currentConfig == Some(cfg)
        && currentPreviewConfig == old(currentPreviewConfig)
        && (ok <==> built.Ok? && launch == Plays)
        && (ok ==> isStreaming && hasThread && isPreviewActive == previewWasActiveBeforeStream
                   && pipeline == Some(Pipeline(built.value, StreamBusHandler)))
        && (!ok ==> !isStreaming && !hasThread && !isPreviewActive && pipeline == None)
        && signals == old(signals) + StartStreamSignals(built, launch, previewWasActiveBeforeStream)
        && pipelineLog == old(pipelineLog) + (if built.Ok? then [Sanitize(built.value, Some(cfg))] else [])
    {
      HandOverPreview();
      ok := LaunchStream(cfg, StreamDescription(cfg, aacEncoder, previewWasActiveBeforeStream), launch);
    }

    /** `start_stream` from storing the configuration on, once the description is built
        (or failed to build): log it, hand it to the framework and start playing, or clean up. */
    method LaunchStream(cfg: StreamConfig, built: Result<string, Failure>, launch: LaunchOutcome) returns (ok: bool)
      requires Valid() && !isStreaming && !isPreviewActive && cfg.rtmpUrl != "" && cfg.streamKey != ""
      modifies this
      ensures Valid()
      ensures previewWasActiveBeforeStream == old(previewWasActiveBeforeStream)
      ensures currentConfig == Some(cfg) && currentPreviewConfig == old(currentPreviewConfig)
      ensures ok <==> built.Ok? && launch == Plays
      ensures ok ==> isStreaming && hasThread && isPreviewActive == previewWasActiveBeforeStream
                     && pipeline == Some(Pipeline(built.value, StreamBusHandler))
      ensures !ok ==> !isStreaming && !hasThread && !isPreviewActive && pipeline == None
      ensures signals == old(signals) + StartStreamSignals(built, launch, previewWasActiveBeforeStream)
      ensures pipelineLog == old(pipelineLog) + (if built.Ok? then [Sanitize(built.value, Some(cfg))] else [])
      ensures DisjointFromHidden(cfg.streamKey) ==>
        forall i | |old(pipelineLog)| <= i < |pipelineLog| :: !Contains(pipelineLog[i], cfg.streamKey)
    {
      currentConfig := Some(cfg);
      signals := signals + [Signal(StateChangedSignal, "starting"), Signal(StatusSignal, BuildingPipelineText)];
      if built.Err? {
        signals := signals + [Signal(ErrorSignal, StreamStartErrorPrefix + FailureText(built.error))];
        CleanupPipeline();
        return false;
      }
      pipelineLog := pipelineLog + [Sanitize(built.value, currentConfig)];
      ok := PlayStream(built.value, launch);
    }

    /** Hand a built stream description to the framework and start playing it; on failure
        drop the pipeline again. */
    method PlayStream(description: string, launch: LaunchOutcome) returns (ok: bool)
      requires Valid() && !isStreaming && !isPreviewActive && currentConfig.Some?
      modifies this
      ensures Valid()
      ensures ok <==> launch == Plays
      ensures ok ==> Snapshot() == old(Snapshot()).(pipeline := Some(Pipeline(description, StreamBusHandler)),
                                                    hasThread := true, isStreaming := true,
                                                    isPreviewActive := previewWasActiveBeforeStream)
      ensures !ok ==> Snapshot() == old(Snapshot())
      ensures signals == old(signals) + PlayStreamSignals(launch, previewWasActiveBeforeStream)
      ensures pipelineLog == old(pipelineLog)
    {
      if launch.ParseRaises? {
        signals := signals + [Signal(ErrorSignal, StreamStartErrorPrefix + launch.message)];
        CleanupPipeline();
        return false;
      }
      pipeline := Some(Pipeline(description, StreamBusHandler));
      hasThread := true;
      signals := signals + [Signal(StatusSignal, StartingStreamText)];
      if launch == StateChangeFails {
        signals := signals + [Signal(ErrorSignal, PipelineStartFailedText)];
        CleanupPipeline();
        return false;
      }
      isStreaming := true;
      if previewWasActiveBeforeStream {
        isPreviewActive := true;
        signals := signals + [Signal(StatusSignal, StreamAndPreviewRunningText)];
      } else {
        signals := signals + [Signal(StatusSignal, StreamRunningText)];
      }
      signals := signals + [Signal(StateChangedSignal, "streaming")];
      return true;
    }

    /** `stop_stream`: the preview flags are left as they were, so after a combined run
        the manager still reports an active preview although no pipeline remains. */
    method StopStream() returns (ok: bool)
      requires Valid()
      modifies this
      ensures Valid()
      ensures ok == old(isStreaming)
      ensures !ok ==>
        Snapshot() == old(Snapshot()) && signals == old(signals) + [Signal(ErrorSignal, NoStreamText)]
      ensures ok ==>
        && Snapshot() == old(Snapshot()).(pipeline := None, hasThread := false, isStreaming := false)
        && signals == old(signals) + [Signal(StateChangedSignal, "stopping"), Signal(StatusSignal, StoppingStreamText),
                                      Signal(StateChangedSignal, "idle"), Signal(StatusSignal, StreamStoppedText)]
      ensures pipelineLog == old(pipelineLog)
    {
      if !isStreaming {
        signals := signals + [Signal(ErrorSignal, NoStreamText)];
        return false;
      }
      signals := signals + [Signal(StateChangedSignal, "stopping"), Signal(StatusSignal, StoppingStreamText)];
      CleanupPipeline();
      isStreaming := false;
      signals := signals + [Signal(StateChangedSignal, "idle"), Signal(StatusSignal, StreamStoppedText)];
      return true;
    }

    /** `start_preview`. While streaming the preview is taken to be part of the running
        pipeline and only the flag is set. */
    method StartPreview(videoSource: string, resolution: string, fps: int, launch: LaunchOutcome) returns (ok: bool)
      requires Valid()
      modifies this
      ensures Valid()
      ensures old(isPreviewActive) ==>
        && !ok && Snapshot() == old(Snapshot()) && pipelineLog == old(pipelineLog)
        && signals == old(signals) + [Signal(ErrorSignal, PreviewAlreadyRunningText)]
      ensures !old(isPreviewActive) && old(isStreaming) ==>
        && ok && Snapshot() == old(Snapshot()).(isPreviewActive := true) && pipelineLog == old(pipelineLog)
        && signals == old(signals) + [Signal(StatusSignal, PreviewInStreamText)]
      ensures !old(isPreviewActive) && !old(isStreaming) ==>
        var built := PreviewPipeline(videoSource, resolution, fps);
        && currentPreviewConfig == Some(PreviewConfig(videoSource, resolution, fps))
        && (ok <==> built.Ok? && launch == Plays)
        && (ok ==> pipeline == Some(Pipeline(built.value, PreviewBusHandler)) && isPreviewActive)
        && (!ok ==> pipeline == None && !isPreviewActive)
        && !isStreaming && !hasThread
        && previewWasActiveBeforeStream == old(previewWasActiveBeforeStream)
        && currentConfig == old(currentConfig)
        && signals == old(signals) + StartPreviewSignals(built, launch)
        && pipelineLog == old(pipelineLog) + (if built.Ok? then [built.value] else [])
    {
      if isPreviewActive {
        signals := signals + [Signal(ErrorSignal, PreviewAlreadyRunningText)];
        return false;
      }
      if isStreaming {
        signals := signals + [Signal(StatusSignal, PreviewInStreamText)];
        isPreviewActive := true;
        return true;
      }
      currentPreviewConfig := Some(PreviewConfig(videoSource, resolution, fps));
      signals := signals + [Signal(StatusSignal, BuildingPreviewText)];
      var built := PreviewPipeline(videoSource, resolution, fps);
      ok := LaunchPreview(built, launch);
    }

    /** The part of `start_preview` after the description is built (or failed to build). */
    method LaunchPreview(built: Result<string, Failure>, launch: LaunchOutcome) returns (ok: bool)
      requires Valid()
      requires !isStreaming && pipeline.None? && !isPreviewActive
      modifies this
      ensures Valid()
      ensures ok <==> built.Ok? && launch == Plays
      ensures ok ==> Snapshot() == old(Snapshot()).(pipeline := Some(Pipeline(built.value, PreviewBusHandler)),
                                                    isPreviewActive := true)
      ensures !ok ==> Snapshot() == old(Snapshot())
      ensures signals == old(signals) + PreviewLaunchSignals(built, launch)
      ensures pipelineLog == old(pipelineLog) + (if built.Ok? then [built.value] else [])
    {
      if built.Err? {
        signals := signals + [Signal(ErrorSignal, PreviewStartErrorPrefix + FailureText(built.error))];
        CleanupPipeline();
        return false;
      }
      pipelineLog := pipelineLog + [built.value];
      ok := PlayPreview(built.value, launch);
    }

    /** Hand a built preview description to the framework and start playing it. */
    method PlayPreview(description: string, launch: LaunchOutcome) returns (ok: bool)
      requires Valid() && !isStreaming && pipeline.None? && !isPreviewActive
      modifies this
      ensures Valid()
      ensures ok <==> launch == Plays
      ensures ok ==> Snapshot() == old(Snapshot()).(pipeline := Some(Pipeline(description, PreviewBusHandler)),
                                                    isPreviewActive := true)
      ensures !ok ==> Snapshot() == old(Snapshot())
      ensures signals == old(signals) + PlayPreviewSignals(launch)
      ensures pipelineLog == old(pipelineLog)
    {
      if launch.ParseRaises? {
        signals := signals + [Signal(ErrorSignal, PreviewStartErrorPrefix + launch.message)];
        CleanupPipeline();
        return false;
      }
      pipeline := Some(Pipeline(description, PreviewBusHandler));
      signals := signals + [Signal(StatusSignal, StartingPreviewText)];
      if launch == StateChangeFails {
        signals := signals + [Signal(ErrorSignal, PreviewStartFailedText)];
        CleanupPipeline();
        return false;
      }
      isPreviewActive := true;
      signals := signals + [Signal(StatusSignal, PreviewActiveText)];
      return true;
    }

    /** `stop_preview`. While streaming only the flags are cleared and the pipeline keeps
        running; otherwise the preview pipeline is dropped. */
    method StopPreview() returns (ok: bool)
      requires Valid()
      modifies this
      ensures Valid()
      ensures ok == old(isPreviewActive)
      ensures !ok ==>
        Snapshot() == old(Snapshot()) && signals == old(signals) + [Signal(ErrorSignal, NoPreviewText)]
      ensures ok && old(isStreaming) ==>
        && Snapshot() == old(Snapshot()).(isPreviewActive := false, previewWasActiveBeforeStream := false)
        && signals == old(signals) + [Signal(StatusSignal, PreviewDisabledText)]
      ensures ok && !old(isStreaming) ==>
        && Snapshot() == old(Snapshot()).(pipeline := None, hasThread := false, isPreviewActive := false)
        && signals == old(signals) + [Signal(StatusSignal, StoppingPreviewText), Signal(StatusSignal, PreviewStoppedText)]
      ensures Snapshot() == AfterStopPreview(old(Snapshot())).0
      ensures signals == old(signals) + AfterStopPreview(old(Snapshot())).1
      ensures pipelineLog == old(pipelineLog)
    {
      if !isPreviewActive {
        signals := signals + [Signal(ErrorSignal, NoPreviewText)];
        return false;
      }
      if isStreaming {
        isPreviewActive := false;
        previewWasActiveBeforeStream := false;
        signals := signals + [Signal(StatusSignal, PreviewDisabledText)];
        return true;
      }
      signals := signals + [Signal(StatusSignal, StoppingPreviewText)];
      CleanupPipeline();
      isPreviewActive := false;
      signals := signals + [Signal(StatusSignal, PreviewStoppedText)];
      return true;
    }

    /** `_on_bus_message`, the stream pipeline's callback: an error or the end of the
        stream is reported and stops the stream; a warning is only reported. */
    method OnStreamBusMessage(msg: BusMessage)
      requires Valid()
      modifies this
      ensures Valid()
      ensures msg.BusError? || msg == EndOfStream ==>
        && Snapshot() == (if old(isStreaming) then old(Snapshot()).(pipeline := None, hasThread := false, isStreaming := false)
                          else old(Snapshot()))
        && |signals| > |old(signals)|
        && signals[|old(signals)|] == (if msg.BusError? then Signal(ErrorSignal, "❌ GStreamer-Fehler: " + msg.message)
                                       else Signal(StatusSignal, "ℹ️ Stream beendet (EOS)"))
      ensures msg.BusWarning? ==>
        Snapshot() == old(Snapshot()) && signals == old(signals) + [Signal(StatusSignal, "⚠️ Warnung: " + msg.message)]
      ensures msg == OtherMessage ==> Snapshot() == old(Snapshot()) && signals == old(signals)
      ensures pipelineLog == old(pipelineLog)
    {
      match msg
      case BusError(text) =>
        signals := signals + [Signal(ErrorSignal, "❌ GStreamer-Fehler: " + text)];
        var _ := StopStream();
      case BusWarning(text) =>
        signals := signals + [Signal(StatusSignal, "⚠️ Warnung: " + text)];
      case EndOfStream =>
        signals := signals + [Signal(StatusSignal, "ℹ️ Stream beendet (EOS)")];
        var _ := StopStream();
      case OtherMessage =>
    }

    /** `_on_preview_bus_message`, the preview pipeline's callback: an error or the end of
        the stream is reported and stops the preview. */
    method OnPreviewBusMessage(msg: BusMessage)
      requires Valid()
      modifies this
      ensures Valid()
      ensures msg.BusError? || msg == EndOfStream ==>
        && Snapshot() == AfterStopPreview(old(Snapshot())).0
        && signals == old(signals)
                      + [if msg.BusError? then Signal(ErrorSignal, "❌ Preview-Fehler: " + msg.message)
                         else Signal(StatusSignal, "ℹ️ Preview beendet (EOS)")]
                      + AfterStopPreview(old(Snapshot())).1
      ensures msg.BusWarning? ==>
        Snapshot() == old(Snapshot()) && signals == old(signals) + [Signal(StatusSignal, "⚠️ Preview-Warnung: " + msg.message)]
      ensures msg == OtherMessage ==> Snapshot() == old(Snapshot()) && signals == old(signals)
      ensures pipelineLog == old(pipelineLog)
    {
      match msg
      case BusError(text) =>
        signals := signals + [Signal(ErrorSignal, "❌ Preview-Fehler: " + text)];
        var _ := StopPreview();
      case BusWarning(text) =>
        signals := signals + [Signal(StatusSignal, "⚠️ Preview-Warnung: " + text)];
      case EndOfStream =>
        signals := signals + [Signal(StatusSignal, "ℹ️ Preview beendet (EOS)")];
        var _ := StopPreview();
      case OtherMessage =>
    }

    /** `get_stream_stats`: empty unless a stream runs; then the stored resolution and bitrate. */
    function GetStreamStats(): (stats: map<string, Value>)
      requires Valid()
      reads this
      ensures stats == map[] <==> !(isStreaming && pipeline.Some?)
      ensures stats != map[] ==>
        && stats.Keys == {"is_streaming", "resolution", "bitrate"}
        && stats["is_streaming"] == VBool(true)
        && stats["resolution"] == VStr(currentConfig.value.resolution)
        && stats["bitrate"] == VInt(currentConfig.value.bitrate)
    {
      if !isStreaming || pipeline.None? then map[]
      else
        var stats := map["is_streaming" := VBool(true),
                         "resolution" := VStr(currentConfig.value.resolution),
                         "bitrate" := VInt(currentConfig.value.bitrate)];
        assert "is_streaming" in stats;
        stats
    }
  }

  // ---------------------------------------------------------------------------
  // Two runs that show how the flags behave as written

  /** Preview, then stream: the stream gets the combined pipeline and the preview
      counts as active, having been active before the stream. */
  method PreviewThenStream(installed: set<string>, c: StreamConfig) returns (m: StreamManager)
    requires c.rtmpUrl != "" && c.streamKey != "" && Count(c.resolution, 'x') == 1
    ensures fresh(m) && m.Valid()
    ensures m.isStreaming && m.isPreviewActive && m.previewWasActiveBeforeStream && m.pipeline.Some?
    ensures m.aacEncoder == FirstInstalled(AacEncoders, installed).GetOr("avenc_aac")
  {
    m := FreshPreview(installed, c);
    var ok := m.StartStream(c.videoSource, c.audioSource, c.rtmpUrl, c.streamKey, c.resolution, c.bitrate, c.fps, Plays);
  }

  /** A new manager whose preview starts and plays. */
  method FreshPreview(installed: set<string>, c: StreamConfig) returns (m: StreamManager)
    requires Count(c.resolution, 'x') == 1
    ensures fresh(m) && m.Valid()
    ensures !m.isStreaming && m.isPreviewActive && !m.previewWasActiveBeforeStream
    ensures m.aacEncoder == FirstInstalled(AacEncoders, installed).GetOr("avenc_aac")
  {
    m := new StreamManager(installed);
    PreviewPipelineShape(c.videoSource, c.resolution, c.fps);
    var ok := m.StartPreview(c.videoSource, c.resolution, c.fps, Plays);
  }

  /** Stop the stream, then the preview, of a combined run. */
  method StopCombinedRun(m: StreamManager)
    requires m.Valid() && m.isStreaming && m.isPreviewActive && m.previewWasActiveBeforeStream
    modifies m
    ensures m.Valid()
    ensures !m.isStreaming && !m.isPreviewActive && m.previewWasActiveBeforeStream
  {
    var ok := m.StopStream();
    ok := m.StopPreview();
  }

  /** Preview, then stream, then stop the stream: the preview flag stays set although
      the combined pipeline, and with it the preview window, is gone. */
  method PreviewFlagOutlivesStream(installed: set<string>, c: StreamConfig) returns (previewFlag: bool, pipelineHeld: bool)
    requires c.rtmpUrl != "" && c.streamKey != "" && Count(c.resolution, 'x') == 1
    ensures previewFlag && !pipelineHeld
  {
    var m := PreviewThenStream(installed, c);
    var ok := m.StopStream();
    previewFlag, pipelineHeld := m.isPreviewActive, m.pipeline.Some?;
  }

  /** After a combined run, stopping the preview while idle leaves
      `preview_was_active_before_stream` set, so the next stream again gets the tee and a
      preview window, and reports an active preview, although none was asked for. */
  method StaleCombinedFlag(installed: set<string>, c: StreamConfig) returns (description: string, previewFlag: bool)
    requires c.rtmpUrl != "" && c.streamKey != "" && Count(c.resolution, 'x') == 1
    ensures previewFlag
    ensures Ok(description) == CombinedPipeline(c, FirstInstalled(AacEncoders, installed).GetOr("avenc_aac"))
  {
    var m := PreviewThenStream(installed, c);
    StopCombinedRun(m);
    var ok := m.StartStream(c.videoSource, c.audioSource, c.rtmpUrl, c.streamKey, c.resolution, c.bitrate, c.fps, Plays);
    description, previewFlag := m.pipeline.value.description, m.isPreviewActive;
  }
}
