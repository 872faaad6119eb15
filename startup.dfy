/** The start-up of src/main.py: the check that every GStreamer element the pipelines
    need is installed, with the AAC encoder chosen by priority, and the exits of `main`
    when the check fails or the settings cannot be loaded into the stream tab. The
    element registry behind `Gst.ElementFactory.find` is the set of installed element
    names. */
module Startup {
  import opened Wrappers
  import opened PipelineStrings
  import opened PyValues
  import opened StreamTabUi

  /** The elements `check_gstreamer_plugins` requires, in its order. */
  const RequiredElements: seq<string> := [
    "pipewiresrc", "v4l2src", "autoaudiosrc", "x264enc", "flvmux", "rtmpsink",
    "videoconvert", "videoscale", "audioconvert", "audioresample"]

  /** The AAC encoders it accepts, highest priority first. */
  const CheckedAacEncoders: seq<string> := ["fdkaacenc", "voaacenc", "faac", "avenc_aac"]

  /** The entry reported when no AAC encoder is installed. */
  const AacPlaceholder := "aac-encoder (fdkaacenc/voaacenc/faac/avenc_aac)"

  /** The names the registry does not know, in list order. */
  function MissingFrom(names: seq<string>, installed: set<string>): (missing: seq<string>)
    ensures |missing| <= |names|
    ensures forall x :: x in missing <==> x in names && x !in installed
  {
    if names == [] then []
    else (if names[0] in installed then [] else [names[0]]) + MissingFrom(names[1..], installed)
  }

  /** Checking a list in two pieces reports the first piece's gaps, then the second's. */
  lemma {:induction false} MissingFromAppend(a: seq<string>, b: seq<string>, installed: set<string>)
    ensures MissingFrom(a + b, installed) == MissingFrom(a, installed) + MissingFrom(b, installed)
  {
    if a == [] {
      assert a + b == b;
    } else {
      assert (a + b)[0] == a[0];
      assert (a + b)[1..] == a[1..] + b;
      MissingFromAppend(a[1..], b, installed);
    }
  }

  /** Nothing is missing from a list the registry knows completely. */
  lemma {:induction false} NoneMissing(names: seq<string>, installed: set<string>)
    requires forall k | 0 <= k < |names| :: names[k] in installed
    ensures MissingFrom(names, installed) == []
  {
    if names != [] {
      assert forall k | 0 <= k < |names[1..]| :: names[1..][k] == names[k + 1];
      NoneMissing(names[1..], installed);
    }
  }

  /** What the check prints as missing: the required elements the registry lacks, then
      the placeholder when it knows none of the AAC encoders. */
  function PluginReport(installed: set<string>): seq<string> {
    MissingFrom(RequiredElements, installed)
      + if FirstInstalled(CheckedAacEncoders, installed).None? then [AacPlaceholder] else []
  }

  /** Everything the pipelines need is installed: every required element and at least
      one AAC encoder. */
  predicate PluginsComplete(installed: set<string>) {
    && (forall k | 0 <= k < |RequiredElements| :: RequiredElements[k] in installed)
    && (exists k | 0 <= k < |CheckedAacEncoders| :: CheckedAacEncoders[k] in installed)
  }

  /** The first loop of `check_gstreamer_plugins`: append every name the registry does
      not know. */
  method CollectMissing(names: seq<string>, installed: set<string>) returns (missing: seq<string>)
    ensures missing == MissingFrom(names, installed)
  {
    missing := [];
    for i := 0 to |names|
      invariant missing == MissingFrom(names[..i], installed)
    {
      var name := names[i];
      MissingFromAppend(names[..i], [name], installed);
      assert names[..i + 1] == names[..i] + [name];
      if name !in installed {
        missing := missing + [name];
      }
    }
    assert names[..|names|] == names;
  }

  /** `check_gstreamer_plugins`: one pass over the required elements collecting the
      missing ones, then a search for the first AAC encoder that is installed. It
      returns whether nothing is missing, together with the list it prints and the
      encoder it names. */
  method CheckPlugins(installed: set<string>) returns (ok: bool, missing: seq<string>, aacFound: Option<string>)
    ensures aacFound == FirstInstalled(CheckedAacEncoders, installed)
    ensures missing == PluginReport(installed)
    ensures ok <==> missing == []
  {
    missing := CollectMissing(RequiredElements, installed);
    aacFound := FindFirstInstalled(CheckedAacEncoders, installed);
    if aacFound.None? {
      missing := missing + [AacPlaceholder];
    }
    ok := missing == [];
  }

  /** The check passes exactly when everything the pipelines need is installed. */
  lemma CheckPassesIff(installed: set<string>)
    ensures PluginReport(installed) == [] <==> PluginsComplete(installed)
  {
    var found := FirstInstalled(CheckedAacEncoders, installed);
    var i := FirstInstalledIndex(CheckedAacEncoders, installed);
    if PluginsComplete(installed) {
      var k :| 0 <= k < |CheckedAacEncoders| && CheckedAacEncoders[k] in installed;
      assert i <= k;
      NoneMissing(RequiredElements, installed);
    } else if forall k | 0 <= k < |RequiredElements| :: RequiredElements[k] in installed {
      assert found.None?;
    } else {
      var k :| 0 <= k < |RequiredElements| && RequiredElements[k] !in installed;
      assert RequiredElements[k] in MissingFrom(RequiredElements, installed);
    }
  }

  /** The check accepts the same encoders as the stream manager, in the same order: once
      it passes, the encoder the manager picks is one the registry knows, never the
      unverified `avenc_aac` fallback. */
  lemma CheckedEncoderIsUsed(installed: set<string>)
    requires PluginReport(installed) == []
    ensures FirstInstalled(AacEncoders, installed) == FirstInstalled(CheckedAacEncoders, installed)
    ensures FirstInstalled(AacEncoders, installed).Some?
    ensures FirstInstalled(AacEncoders, installed).GetOr("avenc_aac") in installed
  {
    assert CheckedAacEncoders == AacEncoders;
    var i := FirstInstalledIndex(AacEncoders, installed);
    assert i < |AacEncoders|;
  }

  /** `main` up to the event loop, inside the script's exception handlers. A failed check
      ends it with exit code 1 before any window exists. Otherwise `MainWindow()` builds
      the stream tab on the shared settings `settings`; when `_load_config` raises there,
      the exception reaches the script's `except Exception`, which exits with 1 and no
      window is shown. Otherwise the window is shown and the event loop's exit code,
      passed in, is returned. */
  method RunMain(installed: set<string>, settings: map<string, Value>, eventLoopExit: int)
    returns (code: int, windowShown: bool)
    ensures windowShown <==> PluginsComplete(installed) && LoadCompletes(settings)
    ensures code == if windowShown then eventLoopExit else 1
  {
    var ok, missing, aacFound := CheckPlugins(installed);
    CheckPassesIff(installed);
    if !ok {
      return 1, false;
    }
    if !LoadCompletes(settings) {
      return 1, false;
    }
    return eventLoopExit, true;
  }
}
