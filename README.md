# TUXRTMPilot core in Dafny

TUXRTMPilot is a desktop application for Linux. It captures the screen (through PipeWire)
or a V4L2 webcam, together with a microphone or the desktop monitor. It encodes them with
x264 and an AAC encoder and sends the result over RTMP to a streaming platform. The GStreamer
framework does the media work; the application builds the pipeline descriptions, keeps
the stream and preview flags, and wires a Qt tab to them.

This project models that logic and proves properties of it:

- `pystr.dfy` (module `PyStr`): the Python `str` operations the code relies on, written
  out: `split`, `split()`, `strip`, `replace`, `upper`, `str(int)`, `int(token)`, `in` and
  `sorted`.
- `values.dfy` (module `PyValues`): the Python values the settings dictionary and the
  statistics hold: `None`, booleans, integers, strings, lists and dicts (no floats).
- `config.dfy` (module `Config`): `ConfigManager` as a class over a key/value map and a
  model of the settings file, the stream-key lookup in the environment, and the
  process-wide instance behind `get_config`.
- `pipeline_strings.dfy` (module `PipelineStrings`): the three pipeline descriptions, the
  resolution split with its unpacking error, the log sanitiser that hides the stream key,
  and the AAC encoder search.
- `stream_manager.dfy` (module `Streaming`): class `StreamManager`. It holds the flags
  `is_streaming`, `is_preview_active` and `preview_was_active_before_stream`, the pipeline,
  the stored configurations, every signal it emits (in order) and the descriptions it prints.
- `device_manager.dfy` (module `Devices`): the video source list (the screen entry, then the
  webcams found under `/dev`), the webcam name read from the `v4l2-ctl --info` report, the
  two audio entries and the probe pipelines of the device tests.
- `stream_tab.dfy` (module `StreamTabUi`): class `StreamTab`. It holds the widget state
  (combo selections, URL and key fields, button captions and states), the tab's two flags
  and its log. Its handlers call the manager and relay the manager's signals into the log
  and the flags. It also has the loading and saving of the settings.
- `startup.dfy` (module `Startup`): the GStreamer plugin check of `main.py` and the early
  exit of `main`.

The framework, the file system and the clock are outside the model. What they answer is
passed in as a parameter:

- the set of installed element names (`Gst.ElementFactory.find`);
- a `LaunchOutcome` for `parse_launch` plus `set_state(PLAYING)`: raises, fails, or plays;
- a `BusMessage` for a bus callback;
- the device listing, the set of openable devices and a probe function for the
  `v4l2-ctl` report;
- a `SettingsFile` value with a `writable` flag for the JSON file;
- a map for the process environment;
- the event loop's exit code.

## Model

| member | source | states |
|---|---|---|
| Config.Lookup | src/utils/config.py:93-104 | `get` yields the stored value when the key is present and the default otherwise |
| Config.LookupAfterStore | src/utils/config.py:106-114 | after `set`, `get` sees the new value under that key and the old map under every other key |
| Config.StreamKeyVariable | src/utils/config.py:116-129 | the variable name is the upper-cased platform name followed by `_STREAM_KEY`, character by character |
| Config.GetStreamKey | src/utils/config.py:116-129 | a key is returned exactly when the variable is set, and it is the variable's value |
| Config.StreamKeyIgnoresCase | src/utils/config.py:116-129 | platform names that differ only in ASCII letter case read the same variable and get the same key |
| Config.ConfigManager.constructor | src/utils/config.py:38-53 | a decoded file's contents become the map; otherwise the map is the defaults, and a missing file is written with them when writable |
| Config.ConfigManager.Get | src/utils/config.py:93-104 | `get` is the map lookup with the default |
| Config.ConfigManager.Set | src/utils/config.py:106-114 | one key is stored in memory; the file is untouched |
| Config.ConfigManager.SaveConfig | src/utils/config.py:77-91 | success is the writability; on success the file holds the map; the map is unchanged |
| Config.ConfigManager.LoadConfig | src/utils/config.py:55-75 | the contents are used verbatim; an undecodable file gives the defaults and stays as it is; a missing file gives the defaults and is written when writable |
| Config.ConfigManager.ResetToDefaults | src/utils/config.py:131-135 | the map becomes the defaults and is written when writable |
| Config.ConfigRegistry.GetConfig | src/utils/config.py:139-151 | the first call creates a fresh manager; later calls return the same one |
| Config.SameInstanceTwice | src/utils/config.py:139-151 | two calls hand out one manager, whatever the file looks like by the second call |
| Config.ResetThenSet | src/utils/config.py:131-135 | after a reset `get` sees the default, and a later `set` shows its value |
| PyStr.Split | src/core/stream_manager.py:257 | `str.split(sep)` yields one more piece than there are separators |
| PyStr.SplitJoin | src/core/stream_manager.py:257 | joining the pieces with the separator gives the original text |
| PyStr.SplitPiecesFree | src/core/stream_manager.py:257 | no piece contains the separator |
| PyStr.SplitTwo | src/core/stream_manager.py:257 | a text with exactly one separator splits into the parts before and after it |
| PyStr.Strip | src/ui/stream_tab.py:565-566 | `strip()` yields the part of the input that has only whitespace before and after it and no whitespace at either of its own ends |
| PyStr.StripEmpty | src/ui/stream_tab.py:565-574 | the stripped text is empty exactly when the input is all whitespace |
| PyStr.FirstToken | src/ui/stream_tab.py:645-646 | `split()[0]` is absent (Python raises) exactly for an all-whitespace text; otherwise it is a non-empty run of non-space characters with only whitespace before it and whitespace or the end of the text after it |
| PyStr.TokenBeforeSpace | src/ui/stream_tab.py:645-646 | the first token of a word followed by whitespace is that word |
| PyStr.Upper | src/utils/config.py:128 | `upper()` maps every character by the ASCII upper-case map and keeps the length |
| PyStr.IntRoundTrip | src/ui/stream_tab.py:649-650 | `int(str(n)) == n` for every integer |
| PyStr.NatToString | src/ui/stream_tab.py:437 | `str(n)` of a natural number is a non-empty string of digits |
| PyStr.ReplaceLeavesNoOccurrence | src/core/stream_manager.py:374-377 | replacing a key with a text that shares no character with it leaves no occurrence of the key |
| PyStr.ReplaceWithoutOccurrence | src/core/stream_manager.py:374-377 | a text without an occurrence is returned unchanged |
| PyStr.Sort | src/core/device_manager.py:74 | `sorted()` is an ordered permutation of its input |
| PyStr.LexTotal | src/core/device_manager.py:74 | the order `sorted()` uses on strings is total |
| PyStr.LexAntisymmetric | src/core/device_manager.py:74 | and antisymmetric |
| PipelineStrings.SplitResolution | src/core/stream_manager.py:257 | unpacking `split('x')` succeeds exactly when the resolution has one 'x', gives the parts on either side of it, and otherwise raises the `ValueError` for the number of pieces |
| PipelineStrings.ResolutionRoundTrip | src/core/stream_manager.py:257 | width and height without 'x' come back out of `WxH` |
| PipelineStrings.VideoSourceKinds | src/core/stream_manager.py:259-263 | PipeWire is used exactly for `screen`; every other device is opened with `v4l2src device=` |
| PipelineStrings.AudioSourceElement | src/core/stream_manager.py:265-269 | `pulsesrc` exactly for `monitor`, `autoaudiosrc` for everything else |
| PipelineStrings.LocationEndsWithKey | src/core/stream_manager.py:271-272 | the stream key is the last `/` segment of the RTMP location when it holds no `/` |
| PipelineStrings.StreamPipelineShape | src/core/stream_manager.py:249-300 | the stream-only description exists exactly when the resolution has one 'x', starts with the video source, carries the raw caps and ends with the RTMP sink |
| PipelineStrings.CombinedPipelineShape | src/core/stream_manager.py:302-360 | the combined description fails exactly like the stream-only one, and otherwise also holds the tee with its preview branch |
| PipelineStrings.PreviewPipelineShape | src/core/stream_manager.py:493-509 | the preview description fails like the stream ones and otherwise runs from the source to a window |
| PipelineStrings.SameStreamTail | src/core/stream_manager.py:286-297 | both stream descriptions end in the same RTMP sink |
| PipelineStrings.Sanitize | src/core/stream_manager.py:362-377 | without a stored config the text is returned unchanged; a key that does not occur leaves it unchanged; a key disjoint from the placeholder no longer occurs |
| PipelineStrings.LoggedPipelineHidesKey | src/core/stream_manager.py:179 | the description `start_stream` prints does not contain the stream key, for every non-empty key that shares no character with `***HIDDEN***` |
| PipelineStrings.FirstInstalledIndex | src/core/stream_manager.py:107-110 | the first candidate the registry knows; none before it is known |
| PipelineStrings.FindFirstInstalled | src/core/stream_manager.py:108-110 | the search loop returns the first known candidate, or none |
| PipelineStrings.FindBestAacEncoder | src/core/stream_manager.py:98-113 | the first installed of fdkaacenc, voaacenc, faac and avenc_aac, with avenc_aac as the fallback |
| Streaming.StreamManager.constructor | src/core/stream_manager.py:77-96 | no pipeline, thread or config, all flags false, no signals, and the chosen AAC encoder |
| Streaming.StreamManager.CleanupPipeline | src/core/stream_manager.py:416-432 | pipeline and thread are dropped, nothing else changes |
| Streaming.StreamManager.StopPreviewInternal | src/core/stream_manager.py:537-544 | pipeline dropped and the preview flag cleared, without a signal |
| Streaming.StreamManager.StartStream | src/core/stream_manager.py:115-216 | refused with its error signal while streaming or without URL or key. Otherwise a running preview is handed over and remembered, and the config is stored. It streams exactly when the description builds and plays, with the combined pipeline after a preview. The signals are emitted in order, and the printed description is the sanitised one. |
| Streaming.StreamManager.HandOverPreview | src/core/stream_manager.py:151-155 | a running preview is stopped silently and remembered |
| Streaming.StreamManager.AdmitStream | src/core/stream_manager.py:151-216 | `start_stream` past its two guards |
| Streaming.StreamManager.LaunchStream | src/core/stream_manager.py:157-216 | storing the config, building and launching; on failure no pipeline, thread or flag remains |
| Streaming.StreamManager.PlayStream | src/core/stream_manager.py:181-211 | playing succeeds exactly when the framework plays; the preview flag then follows the remembered one |
| Streaming.StreamManager.StopStream | src/core/stream_manager.py:218-247 | refused without a stream; otherwise pipeline and thread dropped and streaming cleared, with the four signals in order, and the preview flags left as they were |
| Streaming.StreamManager.StartPreview | src/core/stream_manager.py:455-535 | refused while a preview runs; while streaming only the flag is set; otherwise the preview config is stored and the preview runs exactly when the description builds and plays |
| Streaming.StreamManager.LaunchPreview | src/core/stream_manager.py:491-535 | building and launching the preview, with its signals and printed description |
| Streaming.StreamManager.PlayPreview | src/core/stream_manager.py:512-530 | playing succeeds exactly when the framework plays; on failure nothing changes |
| Streaming.AfterStopPreview | src/core/stream_manager.py:546-579 | after `stop_preview` no preview is active and the stream flag and stored configurations are as before; a running stream keeps its pipeline, a lone preview loses it; the first signal is an error exactly when no preview was active |
| Streaming.StreamManager.StopPreview | src/core/stream_manager.py:546-579 | refused without a preview; while streaming only both preview flags are cleared; otherwise the pipeline is dropped; the new state and signals are `AfterStopPreview`'s |
| Streaming.StreamManager.OnStreamBusMessage | src/core/stream_manager.py:379-414 | an error or end of stream is reported first and stops the stream; a warning is only reported; anything else changes nothing |
| Streaming.StreamManager.OnPreviewBusMessage | src/core/stream_manager.py:581-604 | an error or end of stream is reported first, then `stop_preview` runs: the new state and the signals after the report are `AfterStopPreview` of the old state; a warning is only reported |
| Streaming.StreamManager.GetStreamStats | src/core/stream_manager.py:434-451 | empty exactly unless a stream with a pipeline runs; then the three keys with the stored resolution and bitrate |
| Streaming.PreviewThenStream | src/core/stream_manager.py:151-211 | a preview followed by a stream runs the combined pipeline with both flags set |
| Streaming.FreshPreview | src/core/stream_manager.py:455-530 | a fresh manager whose preview plays has the preview flag and no stream |
| Streaming.StopCombinedRun | src/core/stream_manager.py:546-579 | stopping the stream, then the preview, of a combined run clears both flags but keeps the remembered preview |
| Streaming.PreviewFlagOutlivesStream | src/core/stream_manager.py:218-247 | after a combined run is stopped, the preview flag stays set although no pipeline is held |
| Streaming.StaleCombinedFlag | src/core/stream_manager.py:173-174 | the next stream after a combined run again builds the combined pipeline, preview or not |
| Devices.DevicesOf | src/core/device_manager.py:37-62 | the device values of a source list, in order |
| Devices.FirstCardLineDecides | src/core/device_manager.py:136-139 | the first report line mentioning `Card type` decides the name: the stripped text after its first `:`, or the fallback when there is none |
| Devices.NoCardLineFallsBack | src/core/device_manager.py:141-142 | a report without such a line gives the device's file name |
| Devices.GetWebcamName | src/core/device_manager.py:118-146 | the loop with its early return yields the modelled name; a failed probe yields the file name |
| Devices.WebcamsSound | src/core/device_manager.py:74-94 | every entry comes from a listed path that passes all three checks and is named after its card |
| Devices.WebcamsComplete | src/core/device_manager.py:74-94 | every path that passes the checks has an entry |
| Devices.WebcamsInPathOrder | src/core/device_manager.py:74 | the entries keep the order of the paths |
| Devices.DetectWebcams | src/core/device_manager.py:64-96 | detection visits the sorted paths |
| Devices.CollectWebcams | src/core/device_manager.py:74-96 | the loop with its three `continue`s collects exactly the modelled entries |
| Devices.GetVideoSources | src/core/device_manager.py:37-62 | the screen entry first, then the webcams, and no later entry has the device `screen` |
| Devices.NoWebcamIsScreen | src/core/device_manager.py:77-79 | no webcam entry carries the device `screen` |
| Devices.GetAudioSources | src/core/device_manager.py:148-178 | the devices `default` and `monitor`, in that order |
| Devices.AudioSourcesSelectElements | src/core/device_manager.py:159-178 | the two audio entries select `autoaudiosrc` and `pulsesrc` in the streaming pipeline |
| Devices.VideoProbeAgrees | src/core/device_manager.py:190-196 | the video probe uses PipeWire exactly for `screen` and otherwise opens the same device as the streaming pipeline |
| Devices.AudioProbeAgrees | src/core/device_manager.py:222-228 | the three-way choice of the audio probe agrees with the two-way choice of the streaming pipeline |
| StreamTabUi.PlatformsHaveUrls | src/ui/stream_tab.py:34-42 | every listed platform has an entry, and only the custom one has an empty URL |
| StreamTabUi.PlatformNamesDistinct | src/ui/stream_tab.py:34-42 | no platform is listed twice |
| StreamTabUi.PlatformIndex | src/ui/stream_tab.py:195 | a known platform has a position in the combo |
| StreamTabUi.ResolutionChoiceToken | src/ui/stream_tab.py:644-646 | the first token of each resolution entry is its `WxH` text |
| StreamTabUi.ResolutionValuesSplit | src/ui/stream_tab.py:218-223 | every resolution the combo offers splits into width and height for the pipelines |
| StreamTabUi.BitrateChoiceToken | src/ui/stream_tab.py:648-650 | the first token of each bitrate entry is its number's text, and `int` reads the number |
| StreamTabUi.DigitsOfBitrate | src/ui/stream_tab.py:650 | `int` reads each bitrate text as its number |
| StreamTabUi.FirstDataIndex | src/ui/stream_tab.py:412-420 | the first entry carrying the wanted device; none before it does |
| StreamTabUi.FirstTextContaining | src/ui/stream_tab.py:430-439 | the first entry whose text contains the value; none before it does |
| StreamTabUi.FirstSceneIndex | src/ui/stream_tab.py:517-537 | the first entry that is, or is not, the screen |
| StreamTabUi.FindDevice | src/ui/stream_tab.py:412-420 | the device loop with its `break` finds the first matching entry |
| StreamTabUi.FindContaining | src/ui/stream_tab.py:430-439 | the text loop with its `break` finds the first matching entry |
| StreamTabUi.FindScene | src/ui/stream_tab.py:519-537 | the scene loop with its `break` finds the first matching entry |
| StreamTabUi.ResolutionReloads | src/ui/stream_tab.py:429-433 | a saved resolution value is found first in the entry it came from |
| StreamTabUi.BitrateRenders | src/ui/stream_tab.py:435-437 | `str` of each stored bitrate is the text its entry starts with |
| StreamTabUi.BitrateReloads | src/ui/stream_tab.py:435-439 | that text is found first in the entry it came from |
| StreamTabUi.StoreSettingsKeys | src/ui/stream_tab.py:663-676 | saving writes exactly the five selection keys; every other key, the stream key among them, keeps its value |
| StreamTabUi.StoredSettingsLoad | src/ui/stream_tab.py:405-441 | what saving stores always loads without raising |
| StreamTabUi.StartRefusal | src/ui/stream_tab.py:565-574 | the start is refused exactly when the stripped URL or key is empty, with the URL checked first |
| StreamTabUi.StartRefusalBlank | src/ui/stream_tab.py:565-574 | the start goes ahead exactly when both fields hold a non-space character |
| StreamTabUi.SettingsOf | src/ui/stream_tab.py:637-661 | the selected devices, the stripped URL and key, the chosen resolution and bitrate, 30 fps, and the volume or 0 when muted |
| StreamTabUi.SaveThenLoad | src/ui/stream_tab.py:405-441 | saving and loading again restores the platform, its URL, and the resolution and bitrate entries; for each device it selects the first entry carrying the saved device |
| StreamTabUi.LoadSaved | src/ui/stream_tab.py:405-441 | loading settings that hold listed values selects the entries they name |
| StreamTabUi.PlacedPlatform | src/ui/stream_tab.py:423-426 | loading a listed platform selects its entry and puts its URL in the field |
| StreamTabUi.LogLinesAppend | src/ui/stream_tab.py:542-543 | relaying two runs of signals logs the lines of both, in order |
| StreamTabUi.StreamingAfterAppend | src/ui/stream_tab.py:548-560 | two runs of state signals act as their concatenation |
| StreamTabUi.QuietKeepsFlag | src/ui/stream_tab.py:555-558 | states other than `streaming` and `idle` leave the flag as it is |
| StreamTabUi.StreamingAfterStart | src/ui/stream_tab.py:548-560 | relaying `start_stream`'s signals sets the tab's flag exactly when the stream plays |
| StreamTabUi.StreamingAfterStop | src/ui/stream_tab.py:548-560 | relaying a successful `stop_stream` clears it |
| StreamTabUi.StreamingAfterPreview | src/ui/stream_tab.py:548-560 | the preview's signals never touch it |
| StreamTabUi.StartStreamFor | src/ui/stream_tab.py:580-589 | `start_stream` with the collected settings reports success exactly when the manager started streaming; the relayed signals set the tab's flag exactly then |
| StreamTabUi.StopStreamFor | src/ui/stream_tab.py:596-597 | afterwards no stream runs, and the tab's flag is cleared exactly when a stream was running |
| StreamTabUi.StartPreviewFor | src/ui/stream_tab.py:605-612 | `start_preview` never touches the stream; it succeeds exactly when the manager's preview became active |
| StreamTabUi.StopPreviewFor | src/ui/stream_tab.py:620-622 | afterwards the manager has no preview and the stream is untouched |
| StreamTabUi.StreamTab.constructor | src/ui/stream_tab.py:59-82 | the combos hold the video and audio source lists, the widgets are in their initial state with both flags false, and the log holds the start line and the two source counts that `_create_log_group` writes |
| StreamTabUi.StreamTab.UpdateButtonStates | src/ui/stream_tab.py:627-635 | start and stop enabled as the flag says, and the start caption to match |
| StreamTabUi.StreamTab.OnStreamStateChanged | src/ui/stream_tab.py:548-560 | `streaming` and `idle` set the flag, and the buttons follow |
| StreamTabUi.StreamTab.Receive | src/ui/stream_tab.py:539-560 | an error or status signal is logged; a state signal moves the flag |
| StreamTabUi.StreamTab.ReceiveSignals | src/ui/stream_tab.py:539-560 | a run of signals is relayed in emission order |
| StreamTabUi.StreamTab.OnStartStream | src/ui/stream_tab.py:562-592 | a blank URL or key logs its refusal and changes nothing else. Otherwise the request is logged and the manager gets the collected settings. Its signals are relayed, and a failure line follows when it did not start. |
| StreamTabUi.StreamTab.AddLog | src/ui/stream_tab.py:678-692 | one line is appended to the log |
| StreamTabUi.StreamTab.RequestStream | src/ui/stream_tab.py:576-592 | the request line, the manager's signals, and the failure line when the stream did not start |
| StreamTabUi.StreamTab.OnStopStream | src/ui/stream_tab.py:594-597 | the request is logged and the signals of `stop_stream` relayed; no stream runs afterwards |
| StreamTabUi.StreamTab.OnPreviewToggle | src/ui/stream_tab.py:599-625 | the preview starts when the tab shows none and stops otherwise; the stream is never touched |
| StreamTabUi.StreamTab.RequestPreview | src/ui/stream_tab.py:601-619 | the tab's preview flag is set exactly when the manager's preview became active; otherwise the failure line is logged |
| StreamTabUi.StreamTab.DismissPreview | src/ui/stream_tab.py:620-625 | both preview flags are cleared, and the stop line is logged before the manager's signals |
| StreamTabUi.StreamTab.OnPlatformChanged | src/ui/stream_tab.py:469-484 | a known platform puts its URL into the field, which stays editable only for the custom entry, and logs the change; an unknown name changes nothing |
| StreamTabUi.StreamTab.SelectScene | src/ui/stream_tab.py:510-537 | `webcam` selects the first non-screen entry and `desktop` the screen, with the scene buttons and log line; without a match nothing changes |
| StreamTabUi.StreamTab.LoadConfig | src/ui/stream_tab.py:405-441 | the selections of the settings, and the closing log line exactly when loading does not raise |
| StreamTabUi.StreamTab.SelectDevices | src/ui/stream_tab.py:407-420 | each combo moves to the first entry carrying the saved device, or stays put |
| StreamTabUi.StreamTab.SelectPlatform | src/ui/stream_tab.py:422-426 | a known platform is selected and its URL set |
| StreamTabUi.StreamTab.SelectResolution | src/ui/stream_tab.py:428-439 | resolution and bitrate move to the first entry containing the saved value, or stay put |
| StreamTabUi.StreamTab.SaveConfig | src/ui/stream_tab.py:663-676 | the five selections are stored and the file written when writable |
| StreamTabUi.NewStreamTab | src/ui/stream_tab.py:59-82 | a tab exists exactly when loading the settings does not raise, and then shows the loaded selections; its log is the three start lines followed by the settings line |
| Startup.MissingFrom | src/main.py:63-66 | a name is reported exactly when it is required and not installed |
| Startup.MissingFromAppend | src/main.py:63-66 | checking a list in two pieces reports the gaps of both, in order |
| Startup.NoneMissing | src/main.py:63-66 | nothing is reported when every name is installed |
| Startup.CollectMissing | src/main.py:61-66 | the loop collects exactly the missing required elements, in order |
| Startup.CheckPlugins | src/main.py:37-91 | the report is the missing elements, then the placeholder when no AAC encoder is installed; the check passes exactly when the report is empty |
| Startup.CheckPassesIff | src/main.py:74-91 | the check passes exactly when every required element and some AAC encoder are installed |
| Startup.CheckedEncoderIsUsed | src/main.py:58 | once the check passes, the manager's encoder choice is an installed encoder of the same list |
| Startup.RunMain | src/main.py:105-160 | the window is shown exactly when the check passes and the stream tab can load the settings; then the event loop's code is returned, otherwise the exit code is 1 |

## Left out

- GStreamer itself: parsing, state changes, the bus watch and the main-loop thread. Their
  outcomes are parameters: `LaunchOutcome` for `parse_launch` plus `set_state(PLAYING)`,
  and `BusMessage` for the callbacks.
- `GStreamerThread` (`run`, `stop`, `wait`, `terminate`): only whether a thread is held is
  modelled.
- Exceptions from `set_state(NULL)` inside `stop_stream` and `stop_preview`, and their
  error branches: in the model the framework does not raise there.
- `print` output: only the pipeline descriptions are recorded: the sanitised one
  `start_stream` prints, because the sanitiser's promise is about it, and the preview
  description `start_preview` prints as it is (it holds no key).
- Timestamps in `add_log` and the auto-scroll of the log widget.
- `__del__` of the manager: finalisation order is not modelled.
- Qt signal delivery is taken to be synchronous and in emission order. Signals are
  delivered on the same GUI thread, so the tab handles the manager's signals right after
  the call that emitted them.
- The Qt cascade from `setCurrentIndex` / `setCurrentText` into `currentIndexChanged` and
  `_save_config` / `_on_platform_changed`. `_load_config` is modelled as the selections
  it makes.
- `_apply_dark_style`, `_setup_ui` layout, `_toggle_key_visibility`, `_on_volume_changed`,
  `_on_mute_toggled` and `update_preview`: presentation only. The volume and mute state
  enter `SettingsOf`.
- `list_all_devices`, `print_system_info`, `_is_device_available`: console output, or a
  file open whose result is the `available` parameter.
- `test_video_source` / `test_audio_source`: only the probe description is modelled;
  launching it and reading the state are framework calls.
- The JSON encoding of the settings file: a file is `Missing`, `Undecodable` or a decoded
  map, and an I/O error on writing is the `writable` flag. A file that decodes to something
  other than an object is not modelled.
- `Undecodable` stands only for `json.JSONDecodeError`. A settings file that exists but
  cannot be opened (`OSError`) or is not UTF-8 (`UnicodeDecodeError`) makes `load_config`
  raise, and with it `get_config`, `StreamTab.__init__` and `main`; that path is not
  modelled.
- PyValues.Value: JSON numbers with a fraction or an exponent, which `json.load` turns
  into floats, are not modelled. A float `bitrate` such as `2500.0` would render as
  `2500.0` and select no entry; a float `resolution` would make `_load_config` raise, as
  any non-string does in `LoadCompletes`.
- `StreamTabUi.StrForm`: `str()` of a list or dictionary value is not rendered; it is
  treated as matching no bitrate entry.
- `Startup.RunMain`: the device manager, the application object and the window appear
  only as the `windowShown` result, the settings only as the map the stream tab loads,
  and the event loop's exit code is an input. Of the script's handlers only `except
  Exception` is modelled, for the stream tab's failed load; `KeyboardInterrupt`, and
  exceptions raised elsewhere in building the window (such as in the settings tab), are
  not modelled.
- `StreamTabUi.NewStreamTab`: an exception raised by `_load_config` inside `__init__` is
  modelled as no tab (`null`); `_connect_signals` and `_connect_stream_manager` are
  modelled by the handlers being the class's methods.
- PyStr.Upper: only ASCII letters are upper-cased. Python's `upper()` also maps other
  letters (and can lengthen a string, as for `ß`); platform names here are ASCII.
- PyStr.ParseInt: only ASCII digits are read. `int()` also accepts other Unicode decimal
  digits and surrounding whitespace; the tokens it reads here come from fixed ASCII entries.
- PyStr.IsDigit: `isdigit()` is modelled on ASCII digits only. Python also accepts other
  Unicode digits, such as superscripts, at the end of a device path.
- src/ui/settings_tab.py, src/ui/help_tab.py, src/ui/main_window.py and
  src/core/pipewire_portal.py are not part of this model.
