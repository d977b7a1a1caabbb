/**
 * The single-class pipeline builder of ErsatzTV.FFmpeg (PipelineBuilder.cs).
 * The builder keeps its step list in a field that starts with the standard
 * options. Build puts the thread option first, chooses the scene-detect
 * threshold, seeks the inputs, and then, per video stream, either copies the
 * video or sets up hardware acceleration, a decoder and a single encoder.
 */
module PipelineBuilder {
  import opened Common
  import opened FFmpegTypes

  /** The subtitle input as this builder sees it: image-based or text, copied or not. */
  datatype SubtitleInput = SubtitleInput(isImageBased: bool, copy: bool)

  /**
   * The tables this builder consults: whether a hardware acceleration option
   * exists for a mode and device (AvailableHardwareAccelerationOptions), whether
   * the hardware decodes or encodes a codec and pixel format (IHardwareCapabilities),
   * and whether a decoder or an encoder is found for a mode and codec
   * (AvailableDecoders, AvailableEncoders).
   */
  datatype Hardware = Hardware(
    accelFound: (AccelMode, Option<string>) -> bool,
    canDecode: (VideoFormat, Option<PixelFormat>) -> bool,
    canEncode: (VideoFormat, Option<PixelFormat>) -> bool,
    decoderFound: (AccelMode, VideoFormat) -> bool,
    encoderFound: (AccelMode, VideoFormat) -> bool)

  /** What Build reads from the builder's readonly fields. */
  datatype Env = Env(hw: Hardware, hasWatermark: bool, subtitle: Option<SubtitleInput>)

  /**
   * A video stream can be copied when its state already is the desired one.
   * A copy target is always met; any other target exactly by a stream already
   * in its codec, pixel format, realtime mode, scaled and padded size, and in
   * its bitrate, buffer size, track timescale and frame rate wherever the
   * target specifies them.
   */
  predicate IsDesiredVideoState(current: FrameState, desired: FrameState): (r: bool)
    ensures desired.videoFormat == Copy ==> r
    ensures r && desired.videoFormat != Copy ==>
              && current.videoFormat == desired.videoFormat
              && PixelFormatName(current.pixelFormat) == PixelFormatName(desired.pixelFormat)
              && current.realtime == desired.realtime
              && current.scaledSize == desired.scaledSize && current.paddedSize == desired.paddedSize
    ensures r && desired.videoFormat != Copy && desired.videoBitrate.Some? ==>
              current.videoBitrate == desired.videoBitrate
    ensures r && desired.videoFormat != Copy && desired.videoBufferSize.Some? ==>
              current.videoBufferSize == desired.videoBufferSize
    ensures r && desired.videoFormat != Copy && desired.videoTrackTimeScale.Some? ==>
              current.videoTrackTimeScale == desired.videoTrackTimeScale
    ensures r && desired.videoFormat != Copy && desired.frameRate.Some? ==>
              current.frameRate == desired.frameRate
    ensures && desired.videoFormat != Copy
            && current.videoFormat == desired.videoFormat
            && PixelFormatName(current.pixelFormat) == PixelFormatName(desired.pixelFormat)
            && current.realtime == desired.realtime
            && current.scaledSize == desired.scaledSize && current.paddedSize == desired.paddedSize
            && (desired.videoBitrate.None? || current.videoBitrate == desired.videoBitrate)
            && (desired.videoBufferSize.None? || current.videoBufferSize == desired.videoBufferSize)
            && (desired.videoTrackTimeScale.None? || current.videoTrackTimeScale == desired.videoTrackTimeScale)
            && (desired.frameRate.None? || current.frameRate == desired.frameRate)
            ==> r
  {
    desired.videoFormat == Copy
    || (current.videoFormat == desired.videoFormat
        && PixelFormatName(current.pixelFormat) == PixelFormatName(desired.pixelFormat)
        && (desired.videoBitrate.None? || current.videoBitrate == desired.videoBitrate)
        && (desired.videoBufferSize.None? || current.videoBufferSize == desired.videoBufferSize)
        && current.realtime == desired.realtime
        && (desired.videoTrackTimeScale.None? || current.videoTrackTimeScale == desired.videoTrackTimeScale)
        && current.scaledSize == desired.scaledSize
        && current.paddedSize == desired.paddedSize
        && (desired.frameRate.None? || current.frameRate == desired.frameRate))
  }

  /** int.TryParse of the stream's frame-rate text; an unparsable text gives no frame rate. */
  function ParseFrameRate(text: Option<string>): (r: Option<int>)
    ensures text.None? ==> r.None?
    ensures r.Some? ==> r.value >= 0
  {
    match text
    case None => None
    case Some(t) =>
      match ParseNat(t)
      case Some(n) => Some(n)
      case None => None
  }

  /** The frame state a stream starts from: not realtime, unscaled, no bitrate, buffer or timescale. */
  function InitialState(s: VideoStream): (r: FrameState)
    ensures !r.realtime && !r.infiniteLoop && !r.deinterlaced
    ensures r.videoFormat == s.codec && r.pixelFormat == s.pixelFormat
    ensures r.scaledSize == s.frameSize && r.paddedSize == s.frameSize
    ensures r.videoBitrate.None? && r.videoBufferSize.None? && r.videoTrackTimeScale.None?
  {
    FrameState(false, false, s.codec, s.pixelFormat, s.frameSize, s.frameSize, None,
               ParseFrameRate(s.frameRate), None, None, None, false, SoftwareFilter, UnknownLocation)
  }

  /** A start strictly after zero, the only start that seeks. */
  function PositiveStart(ff: FFmpegState): (r: Option<int>)
    ensures r.Some? <==> ff.start.Some? && ff.start.value > 0
    ensures r.Some? ==> r == ff.start
  {
    if ff.start.Some? && ff.start.value > 0 then ff.start else None
  }

  /** The thread option inserted in front of the steps, if any. */
  function ThreadPrefix(ff: FFmpegState, desired: FrameState): (r: seq<Step>)
    ensures |r| <= 1
    ensures PositiveStart(ff).Some? && desired.realtime ==> r == [ThreadCount(1)]
    ensures !(PositiveStart(ff).Some? && desired.realtime) ==>
              r == (if ff.threadCount.Some? then [ThreadCount(ff.threadCount.value)] else [])
  {
    if PositiveStart(ff).Some? && desired.realtime then [ThreadCount(1)]
    else if ff.threadCount.Some? then [ThreadCount(ff.threadCount.value)]
    else []
  }

  /** -sc_threshold 0 is refused by mpeg2video, so it is disabled by a huge threshold instead. */
  function SceneThreshold(streams: seq<VideoStream>, desired: FrameState): (r: int)
    ensures r == 1_000_000_000 <==>
              desired.videoFormat == Mpeg2Video || exists i :: 0 <= i < |streams| && streams[i].codec == Mpeg2Video
    ensures r == 0 || r == 1_000_000_000
  {
    if (forall i :: 0 <= i < |streams| ==> streams[i].codec != Mpeg2Video) && desired.videoFormat != Mpeg2Video
    then 0 else 1_000_000_000
  }

  /** Text subtitles are seeked by a filter option. */
  predicate HasTextSubtitle(subtitle: Option<SubtitleInput>)
  {
    subtitle.Some? && !subtitle.value.isImageBased
  }

  /** The seek option each input file gets. */
  function SeekOption(ff: FFmpegState): (r: seq<InputOption>)
    ensures r != [] <==> PositiveStart(ff).Some?
  {
    match PositiveStart(ff)
    case Some(t) => [StreamSeek(t)]
    case None => []
  }

  /** The steps Build puts around the existing ones before looking at any stream. */
  function Prelude(ff: FFmpegState, desired: FrameState, streams: seq<VideoStream>,
                   subtitle: Option<SubtitleInput>, steps: seq<Step>): seq<Step>
  {
    ThreadPrefix(ff, desired) + steps + PreludeTail(ff, desired, streams, subtitle)
  }

  /**
   * The options Build appends before looking at any stream: the scene-detect
   * threshold first, then the report, the filter seek and the time limit.
   */
  function PreludeTail(ff: FFmpegState, desired: FrameState, streams: seq<VideoStream>,
                       subtitle: Option<SubtitleInput>): (r: seq<Step>)
    ensures |r| >= 1 && r[0] == NoSceneDetect(SceneThreshold(streams, desired))
    ensures forall i :: 0 < i < |r| ==> !r[i].NoSceneDetect? && !r[i].ThreadCount?
    ensures (exists i :: 0 <= i < |r| && r[i].StreamSeekFilter?)
            <==> PositiveStart(ff).Some? && HasTextSubtitle(subtitle)
  {
    var report := if ff.saveReport then [FFReport] else [];
    var seek := if PositiveStart(ff).Some? && HasTextSubtitle(subtitle)
                then [StreamSeekFilter(PositiveStart(ff).value)] else [];
    var limit := if ff.finish.Some? then [TimeLimit(ff.finish.value)] else [];
    var r := [NoSceneDetect(SceneThreshold(streams, desired))] + report + seek + limit;
    assert seek != [] ==> r[1 + |report|].StreamSeekFilter?;
    r
  }

  /**
   * Hardware acceleration for one stream: without an acceleration option both
   * modes are dropped; otherwise each side the hardware cannot handle is dropped,
   * and the option is added when either side can still use it.
   */
  function SelectAccel(hw: Hardware, ff: FFmpegState, current: FrameState, desired: FrameState): (r: AccelOutcome)
    ensures r.ff == ff.(decoderMode := r.ff.decoderMode, encoderMode := r.ff.encoderMode)
    ensures !hw.accelFound(ff.encoderMode, ff.vaapiDevice) ==>
              r.ff.decoderMode == NoAcceleration && r.ff.encoderMode == NoAcceleration && r.steps == []
    ensures hw.accelFound(ff.encoderMode, ff.vaapiDevice) ==>
              r.ff.decoderMode == (if hw.canDecode(current.videoFormat, current.pixelFormat)
                                   then ff.decoderMode else NoAcceleration)
              && r.ff.encoderMode == (if hw.canEncode(desired.videoFormat, desired.pixelFormat)
                                      then ff.encoderMode else NoAcceleration)
    ensures r.steps != [] <==>
              hw.accelFound(ff.encoderMode, ff.vaapiDevice)
              && (hw.canDecode(current.videoFormat, current.pixelFormat)
                  || hw.canEncode(desired.videoFormat, desired.pixelFormat))
    ensures r.steps == [] || r.steps == [HardwareAcceleration(ff.encoderMode, ff.vaapiDevice)]
  {
    if !hw.accelFound(ff.encoderMode, ff.vaapiDevice) then
      AccelOutcome(ff.(decoderMode := NoAcceleration, encoderMode := NoAcceleration), [])
    else
      var canDecode := hw.canDecode(current.videoFormat, current.pixelFormat);
      var canEncode := hw.canEncode(desired.videoFormat, desired.pixelFormat);
      var ff1 := if !canDecode || !canEncode then
                   ff.(decoderMode := if canDecode then ff.decoderMode else NoAcceleration,
                       encoderMode := if canEncode then ff.encoderMode else NoAcceleration)
                 else ff;
      AccelOutcome(ff1, if canDecode || canEncode then [HardwareAcceleration(ff.encoderMode, ff.vaapiDevice)] else [])
  }

  /** An overlay (a watermark, or image subtitles that are burned in). */
  predicate HasOverlay(env: Env)
  {
    env.hasWatermark || (env.subtitle.Some? && env.subtitle.value.isImageBased && !env.subtitle.value.copy)
  }

  /** nvenc needs a yuv420p background under an overlay, and qsv stays in nv12. */
  function OverlayFormat(ff: FFmpegState, overlay: bool, desired: FrameState): (r: FrameState)
    ensures r == desired.(pixelFormat := r.pixelFormat)
    ensures !overlay ==> r == desired
  {
    if ff.encoderMode == Nvenc && overlay then desired.(pixelFormat := Some(Yuv420P))
    else if ff.encoderMode == Qsv && overlay then
      var pf := if desired.pixelFormat.Some? then desired.pixelFormat.value else Yuv420P;
      desired.(pixelFormat := Some(Nv12Of(pf.name)))
    else desired
  }

  /** The options that belong to the whole command, added once before any stream. */
  predicate IsGlobalOption(t: Step)
  {
    t.ThreadCount? || t.NoSceneDetect? || t.FFReport? || t.StreamSeekFilter? || t.TimeLimit?
  }

  predicate NoGlobalOptions(a: seq<Step>)
  {
    forall t | t in a :: !IsGlobalOption(t)
  }

  /** No VideoEncoder tag among the steps. */
  predicate NoEncoderTag(a: seq<Step>)
  {
    forall t | t in a :: !t.VideoEncoder?
  }

  /** The output metadata options of one stream. */
  function MetadataSteps(ff: FFmpegState): (r: seq<Step>)
    ensures NoGlobalOptions(r) && NoEncoderTag(r)
    ensures DoNotMapMetadata in r <==> ff.doNotMapMetadata
  {
    var a := if ff.doNotMapMetadata then [DoNotMapMetadata] else [];
    var b := StepIf(ff.metadataServiceProvider, (p: string) => MetadataServiceProvider(p));
    var c := StepIf(ff.metadataServiceName, (n: string) => MetadataServiceName(n));
    var d := StepIf(ff.metadataAudioLanguage, (l: string) => MetadataAudioLanguage(l));
    assert forall t | t in b + c + d :: t.MetadataServiceProvider? || t.MetadataServiceName? || t.MetadataAudioLanguage?;
    a + (b + c + d)
  }

  /** MPEG-TS pipes out, HLS needs both a playlist and a segment template; other formats add nothing here. */
  function OutputFormatSteps(ff: FFmpegState): (r: seq<Step>)
    ensures NoGlobalOptions(r) && NoEncoderTag(r)
    ensures r != [] <==> ff.outputFormat == MpegTs
                         || (ff.outputFormat == Hls && ff.hlsPlaylistPath.Some? && ff.hlsSegmentTemplate.Some?)
  {
    match ff.outputFormat
    case MpegTs => [OutputFormatMpegTs, PipeProtocol]
    case Hls =>
      if ff.hlsPlaylistPath.Some? && ff.hlsSegmentTemplate.Some?
      then [OutputFormatHls(ff.hlsSegmentTemplate.value, ff.hlsPlaylistPath.value)]
      else []
    case _ => []
  }

  /** What Build has produced so far: the steps, the video file's options and filters, and the two states. */
  datatype Progress = Progress(
    steps: seq<Step>, videoOptions: seq<InputOption>, videoFilters: seq<Step>,
    ff: FFmpegState, desired: FrameState)

  /** The encoder, added only when no video encoder is among the steps yet. */
  function EncoderOnce(env: Env, steps: seq<Step>, ff: FFmpegState, desired: FrameState): (r: seq<Step>)
    ensures HasVideoEncoder(steps) ==> r == []
    ensures !HasVideoEncoder(steps) ==> (r != [] <==> env.hw.encoderFound(ff.encoderMode, desired.videoFormat))
    ensures |r| <= 1 && forall i :: 0 <= i < |r| ==> r[i] == VideoEncoder(ff.encoderMode, desired.videoFormat)
    ensures NoGlobalOptions(r)
  {
    if !HasVideoEncoder(steps) && env.hw.encoderFound(ff.encoderMode, desired.videoFormat)
    then [VideoEncoder(ff.encoderMode, desired.videoFormat)]
    else []
  }

  /** A copied subtitle stream gets the subtitle copy encoder. */
  function SubtitleCopy(env: Env): (r: seq<Step>)
    ensures NoGlobalOptions(r) && NoEncoderTag(r)
  {
    if env.subtitle.Some? && env.subtitle.value.copy then [EncoderCopySubtitle] else []
  }

  /** The options that close a stream: metadata, output format and the complex filter. */
  function OutputSteps(ff: FFmpegState): (r: seq<Step>)
    ensures NoGlobalOptions(r) && NoEncoderTag(r)
    ensures |r| >= 1 && r[|r| - 1] == ComplexFilter
  {
    MetadataSteps(ff) + OutputFormatSteps(ff) + [ComplexFilter]
  }

  /** The steps the end of a stream's processing appends. */
  function FinishSteps(env: Env, p: Progress): (r: seq<Step>)
    ensures NoGlobalOptions(r)
  {
    SubtitleCopy(env) + (EncoderOnce(env, p.steps + SubtitleCopy(env), p.ff, p.desired) + OutputSteps(p.ff))
  }

  /** The part of a stream's processing shared by the copy and the transcode branch. */
  function FinishStream(env: Env, p: Progress, s: VideoStream): Progress
  {
    var encoder := EncoderOnce(env, p.steps + SubtitleCopy(env), p.ff, p.desired);
    Progress(p.steps + FinishSteps(env, p),
             p.videoOptions + (if s.stillImage then [InfiniteLoop(p.ff.encoderMode)] else []),
             p.videoFilters + encoder, p.ff, p.desired)
  }

  /** The steps the transcode branch appends: the acceleration option and the VAAPI driver. */
  function TranscodeSteps(env: Env, p: Progress, s: VideoStream): (r: seq<Step>)
    ensures NoGlobalOptions(r) && NoEncoderTag(r)
  {
    var accel := SelectAccel(env.hw, p.ff, InitialState(s), p.desired);
    accel.steps + StepIf(accel.ff.vaapiDriver, (d: string) => LibvaDriverName(d))
  }

  /** The transcode branch of a stream: acceleration, overlay pixel format, driver and decoder. */
  function Transcode(env: Env, p: Progress, s: VideoStream): Progress
  {
    var current := InitialState(s);
    var ff1 := SelectAccel(env.hw, p.ff, current, p.desired).ff;
    var decoder := if env.hw.decoderFound(ff1.decoderMode, current.videoFormat)
                   then [Decoder(ff1.decoderMode, current.videoFormat)] else [];
    Progress(p.steps + TranscodeSteps(env, p, s),
             p.videoOptions + decoder, p.videoFilters, ff1, OverlayFormat(ff1, HasOverlay(env), p.desired))
  }

  /** Before the shared end, a stream either gets the video copy encoder or is transcoded. */
  function CopyOrTranscode(env: Env, p: Progress, s: VideoStream): (r: Progress)
    ensures |p.steps| <= |r.steps| && r.steps[..|p.steps|] == p.steps
    ensures NoGlobalOptions(r.steps[|p.steps|..]) && NoEncoderTag(r.steps[|p.steps|..])
  {
    var r := if IsDesiredVideoState(InitialState(s), p.desired)
             then p.(steps := p.steps + [EncoderCopyVideo]) else Transcode(env, p, s);
    assert r.steps[|p.steps|..] == (if IsDesiredVideoState(InitialState(s), p.desired)
                                     then [EncoderCopyVideo] else TranscodeSteps(env, p, s));
    r
  }

  /** One iteration of Build's loop over the video streams: copy the video, or transcode it. */
  function StreamStep(env: Env, p: Progress, s: VideoStream): Progress
  {
    FinishStream(env, CopyOrTranscode(env, p, s), s)
  }

  /** What Concat appends after the concat input: scene detection off, copy everything, metadata, MPEG-TS to the pipe, report. */
  function ConcatTail(ff: FFmpegState): seq<Step>
  {
    [NoSceneDetect(0), EncoderCopyAll]
    + (if ff.doNotMapMetadata then [DoNotMapMetadata] else [])
    + StepIf(ff.metadataServiceProvider, (p: string) => MetadataServiceProvider(p))
    + StepIf(ff.metadataServiceName, (n: string) => MetadataServiceName(n))
    + [OutputFormatMpegTs, PipeProtocol]
    + (if ff.saveReport then [FFReport] else [])
  }

  /** Build's loop over the video streams, with the states carried from one stream to the next. */
  function Streams(env: Env, p: Progress, streams: seq<VideoStream>): Progress
    decreases |streams|
  {
    if streams == [] then p else Streams(env, StreamStep(env, p, streams[0]), streams[1..])
  }

  /** A stream whose fresh state is copied asks for no realtime, bitrate, buffer or timescale and no resize. */
  lemma {:induction false} CopiedStreamNeedsNothing(s: VideoStream, desired: FrameState)
    requires desired.videoFormat != Copy
    requires IsDesiredVideoState(InitialState(s), desired)
    ensures !desired.realtime && desired.videoFormat == s.codec
    ensures desired.videoBitrate.None? && desired.videoBufferSize.None? && desired.videoTrackTimeScale.None?
    ensures desired.scaledSize == s.frameSize && desired.paddedSize == s.frameSize
  {
  }

  /** Every frame state is the desired state for itself. */
  lemma {:induction false} DesiredStateReflexive(st: FrameState)
    ensures IsDesiredVideoState(st, st)
  {
  }

  lemma {:induction false} NoGlobalOptionsAppend(a: seq<Step>, b: seq<Step>)
    requires NoGlobalOptions(a) && NoGlobalOptions(b)
    ensures NoGlobalOptions(a + b)
  {
  }

  lemma {:induction false} StreamStepSteps(env: Env, p: Progress, s: VideoStream)
    ensures StreamStep(env, p, s).steps == CopyOrTranscode(env, p, s).steps + FinishSteps(env, CopyOrTranscode(env, p, s))
  {
  }

  lemma {:induction false} Assoc<T>(a: seq<T>, b: seq<T>, c: seq<T>)
    ensures a + (b + c) == (a + b) + c
  {
  }

  /** Appending to a sequence that extends a prefix extends the same prefix. */
  lemma {:induction false} ExtendAfterPrefix<T>(p: seq<T>, q: seq<T>, t: seq<T>)
    requires |p| <= |q| && q[..|p|] == p
    ensures |p| <= |q + t| && (q + t)[..|p|] == p && (q + t)[|p|..] == q[|p|..] + t
  {
    assert (q + t)[..|p|] == q[..|p|];
  }

  /** A stream only appends steps, and none of them is a global option. */
  lemma {:induction false} StreamStepAppends(env: Env, p: Progress, s: VideoStream)
    ensures var r := StreamStep(env, p, s).steps;
            |p.steps| <= |r| && r[..|p.steps|] == p.steps && NoGlobalOptions(r[|p.steps|..])
  {
    var q := CopyOrTranscode(env, p, s);
    StreamStepSteps(env, p, s);
    ExtendAfterPrefix(p.steps, q.steps, FinishSteps(env, q));
  }

  /** All streams together only append steps, and none of them is a global option. */
  lemma {:induction false} StreamsAppend(env: Env, p: Progress, streams: seq<VideoStream>)
    ensures var r := Streams(env, p, streams).steps;
            |p.steps| <= |r| && r[..|p.steps|] == p.steps && NoGlobalOptions(r[|p.steps|..])
    decreases |streams|
  {
    if streams != [] {
      var q := StreamStep(env, p, streams[0]);
      StreamStepAppends(env, p, streams[0]);
      StreamsAppend(env, q, streams[1..]);
      var r := Streams(env, p, streams).steps;
      assert r == Streams(env, q, streams[1..]).steps;
      assert r[|p.steps|..] == q.steps[|p.steps|..] + r[|q.steps|..];
      NoGlobalOptionsAppend(q.steps[|p.steps|..], r[|q.steps|..]);
    }
  }

  /** The steps a builder built from the standard options ends with after Build. */
  function BuiltSteps(env: Env, ff: FFmpegState, desired: FrameState, streams: seq<VideoStream>,
                      videoOptions: seq<InputOption>, videoFilters: seq<Step>): seq<Step>
  {
    Streams(env, Progress(Prelude(ff, desired, streams, env.subtitle, StandardSteps(FastStart)),
                          videoOptions, videoFilters, ff, desired), streams).steps
  }

  /**
   * In a freshly built pipeline the thread option, when there is one, is the
   * first step and the only one; the scene-detect threshold is added once;
   * a filter seek is present exactly for a positive start with text subtitles.
   */
  lemma {:induction false} GlobalOptionsOfBuild(env: Env, ff: FFmpegState, desired: FrameState, streams: seq<VideoStream>,
                             videoOptions: seq<InputOption>, videoFilters: seq<Step>)
    ensures var r := BuiltSteps(env, ff, desired, streams, videoOptions, videoFilters);
            var k := |ThreadPrefix(ff, desired)|;
            |r| > k + 8
            && r[0] == (if PositiveStart(ff).Some? && desired.realtime then ThreadCount(1)
                        else if ff.threadCount.Some? then ThreadCount(ff.threadCount.value)
                        else NoStandardInput)
            && (forall i :: 0 < i < |r| ==> !r[i].ThreadCount?)
            && r[k + 8] == NoSceneDetect(SceneThreshold(streams, desired))
            && (forall i :: 0 <= i < |r| && r[i].NoSceneDetect? ==> i == k + 8)
            && ((exists i :: 0 <= i < |r| && r[i].StreamSeekFilter?)
                <==> PositiveStart(ff).Some? && HasTextSubtitle(env.subtitle))
  {
    var pre := Prelude(ff, desired, streams, env.subtitle, StandardSteps(FastStart));
    var p := Progress(pre, videoOptions, videoFilters, ff, desired);
    StreamsAppend(env, p, streams);
    var r := Streams(env, p, streams).steps;
    PreludeGlobals(ff, desired, streams, env.subtitle);
    GlobalsStayInPrefix(pre, r);
  }

  /** The global options of the prelude alone, in the standard options of a fresh builder. */
  lemma {:induction false} PreludeGlobals(ff: FFmpegState, desired: FrameState, streams: seq<VideoStream>,
                       subtitle: Option<SubtitleInput>)
    ensures var r := Prelude(ff, desired, streams, subtitle, StandardSteps(FastStart));
            var k := |ThreadPrefix(ff, desired)|;
            |r| > k + 8
            && r[0] == (if PositiveStart(ff).Some? && desired.realtime then ThreadCount(1)
                        else if ff.threadCount.Some? then ThreadCount(ff.threadCount.value)
                        else NoStandardInput)
            && (forall i :: 0 < i < |r| ==> !r[i].ThreadCount?)
            && r[k + 8] == NoSceneDetect(SceneThreshold(streams, desired))
            && (forall i :: 0 <= i < |r| && r[i].NoSceneDetect? ==> i == k + 8)
            && ((exists i :: 0 <= i < |r| && r[i].StreamSeekFilter?)
                <==> PositiveStart(ff).Some? && HasTextSubtitle(subtitle))
  {
    var head := ThreadPrefix(ff, desired) + StandardSteps(FastStart);
    var tail := PreludeTail(ff, desired, streams, subtitle);
    var r := Prelude(ff, desired, streams, subtitle, StandardSteps(FastStart));
    var k := |ThreadPrefix(ff, desired)|;
    assert r == head + tail;
    assert |head| == k + 8;
    assert forall i :: 0 <= i < |head| ==> !head[i].NoSceneDetect? && !head[i].StreamSeekFilter?;
    assert forall i :: 0 < i < |head| ==> !head[i].ThreadCount?;
    forall i | 0 <= i < |r|
      ensures i < |head| ==> r[i] == head[i]
      ensures i >= |head| ==> r[i] == tail[i - |head|]
    {
    }
    if PositiveStart(ff).Some? && HasTextSubtitle(subtitle) {
      var j :| 0 <= j < |tail| && tail[j].StreamSeekFilter?;
      assert r[|head| + j].StreamSeekFilter?;
    }
  }

  /** Past a prefix free of global options only what the prefix holds is global. */
  lemma {:induction false} GlobalsStayInPrefix(pre: seq<Step>, r: seq<Step>)
    requires |pre| <= |r| && r[..|pre|] == pre && NoGlobalOptions(r[|pre|..])
    ensures forall i :: 0 <= i < |pre| ==> r[i] == pre[i]
    ensures forall i :: |pre| <= i < |r| ==> !IsGlobalOption(r[i])
  {
    forall i | |pre| <= i < |r|
      ensures !IsGlobalOption(r[i])
    {
      assert r[i] == r[|pre|..][i - |pre|];
    }
    forall i | 0 <= i < |pre|
      ensures r[i] == pre[i]
    {
      assert r[i] == r[..|pre|][i];
    }
  }

  /** At most one VideoEncoder tag among the steps. */
  predicate AtMostOneEncoder(a: seq<Step>)
  {
    forall i, j :: 0 <= i < j < |a| && a[i].VideoEncoder? ==> !a[j].VideoEncoder?
  }

  lemma {:induction false} AtMostOneAppend(a: seq<Step>, b: seq<Step>)
    requires AtMostOneEncoder(a) && NoEncoderTag(b)
    ensures AtMostOneEncoder(a + b)
  {
    forall i, j | 0 <= i < j < |a + b| && (a + b)[i].VideoEncoder?
      ensures !(a + b)[j].VideoEncoder?
    {
      if j >= |a| {
        assert (a + b)[j] == b[j - |a|];
      }
    }
  }

  lemma {:induction false} AtMostOneAddEncoder(a: seq<Step>, e: seq<Step>)
    requires !HasVideoEncoder(a) && |e| <= 1
    ensures AtMostOneEncoder(a + e)
  {
    forall i | 0 <= i < |a|
      ensures !(a + e)[i].VideoEncoder?
    {
      assert (a + e)[i] == a[i];
      assert !IsVideoEncoder(a[i]);
    }
  }

  /** The end of a stream adds an encoder only when there is no video encoder yet. */
  lemma {:induction false} FinishStepsEncoderOnce(env: Env, q: Progress)
    requires AtMostOneEncoder(q.steps)
    ensures AtMostOneEncoder(q.steps + FinishSteps(env, q))
  {
    var sub := SubtitleCopy(env);
    var steps1 := q.steps + sub;
    AtMostOneAppend(q.steps, sub);
    var enc := EncoderOnce(env, steps1, q.ff, q.desired);
    if HasVideoEncoder(steps1) {
      assert steps1 + enc == steps1;
    } else {
      AtMostOneAddEncoder(steps1, enc);
    }
    var rest := OutputSteps(q.ff);
    AtMostOneAppend(steps1 + enc, rest);
    Assoc(sub, enc, rest);
    Assoc(q.steps, sub + enc, rest);
    Assoc(q.steps, sub, enc);
  }

  /** One stream adds an encoder only when there is no video encoder yet. */
  lemma {:induction false} StreamStepEncoderOnce(env: Env, p: Progress, s: VideoStream)
    requires AtMostOneEncoder(p.steps)
    ensures AtMostOneEncoder(StreamStep(env, p, s).steps)
  {
    var q := CopyOrTranscode(env, p, s);
    assert q.steps == p.steps + q.steps[|p.steps|..];
    AtMostOneAppend(p.steps, q.steps[|p.steps|..]);
    FinishStepsEncoderOnce(env, q);
    StreamStepSteps(env, p, s);
  }

  /** However many streams there are, the encoder is added at most once. */
  lemma {:induction false} EncoderAddedOnce(env: Env, p: Progress, streams: seq<VideoStream>)
    requires AtMostOneEncoder(p.steps)
    ensures AtMostOneEncoder(Streams(env, p, streams).steps)
    decreases |streams|
  {
    if streams != [] {
      StreamStepEncoderOnce(env, p, streams[0]);
      EncoderAddedOnce(env, StreamStep(env, p, streams[0]), streams[1..]);
    }
  }

  /** A freshly built pipeline holds at most one encoder chosen by the builder. */
  lemma {:induction false} BuildEncodesOnce(env: Env, ff: FFmpegState, desired: FrameState, streams: seq<VideoStream>,
                         videoOptions: seq<InputOption>, videoFilters: seq<Step>)
    ensures AtMostOneEncoder(BuiltSteps(env, ff, desired, streams, videoOptions, videoFilters))
  {
    var pre := Prelude(ff, desired, streams, env.subtitle, StandardSteps(FastStart));
    assert NoEncoderTag(pre);
    EncoderAddedOnce(env, Progress(pre, videoOptions, videoFilters, ff, desired), streams);
  }

  class PipelineBuilder {
    var pipelineSteps: seq<Step>
    const hw: Hardware
    const videoInputFile: VideoInputFile?
    const audioInputFile: AudioInputFile?
    const hasWatermark: bool
    const subtitle: Option<SubtitleInput>

    /** The builder starts from the standard options, fast start included. */
    constructor (hw: Hardware, video: VideoInputFile?, audio: AudioInputFile?,
                 hasWatermark: bool, subtitle: Option<SubtitleInput>)
      ensures pipelineSteps == StandardSteps(FastStart)
      ensures this.hw == hw && videoInputFile == video && audioInputFile == audio
      ensures this.hasWatermark == hasWatermark && this.subtitle == subtitle
    {
      pipelineSteps := StandardSteps(FastStart);
      this.hw := hw;
      videoInputFile := video;
      audioInputFile := audio;
      this.hasWatermark := hasWatermark;
      this.subtitle := subtitle;
    }

    function BuildEnv(): Env
    {
      Env(hw, hasWatermark, subtitle)
    }

    function VideoStreams(): seq<VideoStream>
    {
      if videoInputFile == null then [] else videoInputFile.videoStreams
    }

    /** Resize replaces whatever was built with the image-scaling steps. */
    method Resize(outputFile: string, scaledSize: FrameSize) returns (r: seq<Step>)
      modifies this, videoInputFile
      ensures r == pipelineSteps
      ensures r == ResizePrefix + [VideoFilter(ScaleImage(scaledSize)), ScaleImage(scaledSize), FileNameOutput(outputFile)]
      ensures videoInputFile != null ==>
                videoInputFile.filterSteps == old(videoInputFile.filterSteps) + [ScaleImage(scaledSize)]
                && videoInputFile.options == old(videoInputFile.options)
    {
      pipelineSteps := [];
      pipelineSteps := pipelineSteps + [NoStandardInput, HideBanner, NoStats, LoglevelError];
      var scaleStep := ScaleImage(scaledSize);
      if videoInputFile != null {
        videoInputFile.filterSteps := videoInputFile.filterSteps + [scaleStep];
      }
      pipelineSteps := pipelineSteps + [VideoFilter(scaleStep)];
      pipelineSteps := pipelineSteps + [scaleStep];
      pipelineSteps := pipelineSteps + [FileNameOutput(outputFile)];
      r := pipelineSteps;
    }

    /** Concat copies every stream of the concat input to MPEG-TS in real time, looping forever. */
    method Concat(concat: ConcatInputFile, ff: FFmpegState) returns (r: seq<Step>)
      modifies this, concat
      ensures concat.options == old(concat.options) + [ConcatFormat, RealtimeInput, InfiniteLoop(NoAcceleration)]
      ensures r == pipelineSteps
      ensures r == StepIf(ff.threadCount, (n: int) => ThreadCount(n)) + old(pipelineSteps) + ConcatTail(ff)
    {
      concat.options := concat.options + [ConcatFormat, RealtimeInput, InfiniteLoop(NoAcceleration)];
      var steps := pipelineSteps;
      if ff.threadCount.Some? {
        steps := [ThreadCount(ff.threadCount.value)] + steps;
      }
      ghost var front := steps;
      var tail := [NoSceneDetect(0), EncoderCopyAll];
      if ff.doNotMapMetadata {
        tail := tail + [DoNotMapMetadata];
      }
      if ff.metadataServiceProvider.Some? {
        tail := tail + [MetadataServiceProvider(ff.metadataServiceProvider.value)];
      }
      if ff.metadataServiceName.Some? {
        tail := tail + [MetadataServiceName(ff.metadataServiceName.value)];
      }
      tail := tail + [OutputFormatMpegTs, PipeProtocol];
      if ff.saveReport {
        tail := tail + [FFReport];
      }
      assert tail == ConcatTail(ff);
      pipelineSteps := steps + tail;
      r := pipelineSteps;
    }

    /** The hardware acceleration part of the transcode branch. */
    method ApplyAccel(current: FrameState, ff: FFmpegState, desired: FrameState) returns (ff': FFmpegState)
      modifies this
      ensures ff' == SelectAccel(hw, ff, current, desired).ff
      ensures pipelineSteps == old(pipelineSteps) + SelectAccel(hw, ff, current, desired).steps
    {
      ff' := ff;
      if !hw.accelFound(ff.encoderMode, ff.vaapiDevice) {
        ff' := ff'.(decoderMode := NoAcceleration, encoderMode := NoAcceleration);
      } else {
        var canDecode := hw.canDecode(current.videoFormat, current.pixelFormat);
        var canEncode := hw.canEncode(desired.videoFormat, desired.pixelFormat);
        if !canDecode || !canEncode {
          ff' := ff'.(decoderMode := if canDecode then ff'.decoderMode else NoAcceleration,
                      encoderMode := if canEncode then ff'.encoderMode else NoAcceleration);
        }
        if canDecode || canEncode {
          pipelineSteps := pipelineSteps + [HardwareAcceleration(ff.encoderMode, ff.vaapiDevice)];
        }
      }
    }

    /** The transcode branch of Build's loop body, in place on the steps and the video file. */
    method SetUpTranscode(s: VideoStream, ff: FFmpegState, desired: FrameState)
      returns (ff': FFmpegState, desired': FrameState)
      requires videoInputFile != null
      modifies this, videoInputFile
      ensures var t := Transcode(BuildEnv(), Progress(old(pipelineSteps), old(videoInputFile.options),
                                                      old(videoInputFile.filterSteps), ff, desired), s);
              pipelineSteps == t.steps && videoInputFile.options == t.videoOptions
              && videoInputFile.filterSteps == t.videoFilters && ff' == t.ff && desired' == t.desired
    {
      var current := InitialState(s);
      ff' := ApplyAccel(current, ff, desired);
      desired' := desired;
      var overlay := hasWatermark || (subtitle.Some? && subtitle.value.isImageBased && !subtitle.value.copy);
      if ff'.encoderMode == Nvenc && overlay {
        desired' := desired'.(pixelFormat := Some(Yuv420P));
      }
      if ff'.encoderMode == Qsv && overlay {
        var pf := if desired'.pixelFormat.Some? then desired'.pixelFormat.value else Yuv420P;
        desired' := desired'.(pixelFormat := Some(Nv12Of(pf.name)));
      }
      assert desired' == OverlayFormat(ff', HasOverlay(BuildEnv()), desired);
      if ff'.vaapiDriver.Some? {
        pipelineSteps := pipelineSteps + [LibvaDriverName(ff'.vaapiDriver.value)];
      }
      if hw.decoderFound(ff'.decoderMode, current.videoFormat) {
        videoInputFile.options := videoInputFile.options + [Decoder(ff'.decoderMode, current.videoFormat)];
      }
    }

    /** The end of Build's loop body: subtitle copy, still-image loop, the encoder, metadata and output. */
    method FinishInPlace(s: VideoStream, ff: FFmpegState, desired: FrameState)
      requires videoInputFile != null
      modifies this, videoInputFile
      ensures var f := FinishStream(BuildEnv(), Progress(old(pipelineSteps), old(videoInputFile.options),
                                                         old(videoInputFile.filterSteps), ff, desired), s);
              pipelineSteps == f.steps && videoInputFile.options == f.videoOptions
              && videoInputFile.filterSteps == f.videoFilters && f.ff == ff && f.desired == desired
    {
      ghost var steps0 := pipelineSteps;
      if subtitle.Some? && subtitle.value.copy {
        pipelineSteps := pipelineSteps + [EncoderCopySubtitle];
      }
      ghost var sub := SubtitleCopy(BuildEnv());
      assert pipelineSteps == steps0 + sub;
      if s.stillImage {
        videoInputFile.options := videoInputFile.options + [InfiniteLoop(ff.encoderMode)];
      }
      ghost var steps1 := pipelineSteps;
      ghost var encoder := EncoderOnce(BuildEnv(), steps1, ff, desired);
      if !HasVideoEncoder(pipelineSteps) && hw.encoderFound(ff.encoderMode, desired.videoFormat) {
        var e := VideoEncoder(ff.encoderMode, desired.videoFormat);
        pipelineSteps := pipelineSteps + [e];
        videoInputFile.filterSteps := videoInputFile.filterSteps + [e];
      }
      assert pipelineSteps == steps1 + encoder;
      assert videoInputFile.filterSteps == old(videoInputFile.filterSteps) + encoder;
      pipelineSteps := pipelineSteps + OutputSteps(ff);
      Assoc(steps0, sub, encoder);
      Assoc(steps0, sub + encoder, OutputSteps(ff));
      Assoc(sub, encoder, OutputSteps(ff));
    }

    /** The loop body of Build for one video stream. */
    method ProcessStream(s: VideoStream, ff: FFmpegState, desired: FrameState)
      returns (ff': FFmpegState, desired': FrameState)
      requires videoInputFile != null
      modifies this, videoInputFile
      ensures Progress(pipelineSteps, videoInputFile.options, videoInputFile.filterSteps, ff', desired')
              == StreamStep(BuildEnv(), Progress(old(pipelineSteps), old(videoInputFile.options),
                                                 old(videoInputFile.filterSteps), ff, desired), s)
    {
      ff', desired' := ff, desired;
      if IsDesiredVideoState(InitialState(s), desired) {
        pipelineSteps := pipelineSteps + [EncoderCopyVideo];
      } else {
        ff', desired' := SetUpTranscode(s, ff, desired);
      }
      FinishInPlace(s, ff', desired');
    }

    /** The steps Build adds before it looks at any stream. */
    method Prepare(ff: FFmpegState, desired: FrameState)
      modifies this
      ensures pipelineSteps == Prelude(ff, desired, VideoStreams(), subtitle, old(pipelineSteps))
    {
      var steps := pipelineSteps;
      if ff.start.Some? && ff.start.value > 0 && desired.realtime {
        steps := [ThreadCount(1)] + steps;
      } else if ff.threadCount.Some? {
        steps := [ThreadCount(ff.threadCount.value)] + steps;
      }
      assert steps == ThreadPrefix(ff, desired) + old(pipelineSteps);
      var tail := [NoSceneDetect(SceneThreshold(VideoStreams(), desired))];
      if ff.saveReport {
        tail := tail + [FFReport];
      }
      if ff.start.Some? && ff.start.value > 0 {
        if subtitle.Some? && !subtitle.value.isImageBased {
          tail := tail + [StreamSeekFilter(ff.start.value)];
        }
      }
      if ff.finish.Some? {
        tail := tail + [TimeLimit(ff.finish.value)];
      }
      assert tail == PreludeTail(ff, desired, VideoStreams(), subtitle);
      pipelineSteps := steps + tail;
    }

    /** The seek option both input files get when the start is positive. */
    method SeekInputs(ff: FFmpegState)
      modifies videoInputFile, audioInputFile
      ensures videoInputFile != null ==>
                videoInputFile.options == old(videoInputFile.options) + SeekOption(ff)
                && videoInputFile.filterSteps == old(videoInputFile.filterSteps)
      ensures audioInputFile != null ==>
                old(audioInputFile.options) + SeekOption(ff) <= audioInputFile.options
                && old(audioInputFile.filterSteps) <= audioInputFile.filterSteps
    {
      if ff.start.Some? && ff.start.value > 0 {
        var option := StreamSeek(ff.start.value);
        if audioInputFile != null {
          audioInputFile.options := audioInputFile.options + [option];
        }
        if videoInputFile != null {
          videoInputFile.options := videoInputFile.options + [option];
        }
      }
    }

    /** Build's loop over the video streams of the video input file. */
    method RunStreams(ff: FFmpegState, desired: FrameState)
      requires videoInputFile != null
      modifies this, videoInputFile
      ensures var p := Streams(BuildEnv(), Progress(old(pipelineSteps), old(videoInputFile.options),
                                                    old(videoInputFile.filterSteps), ff, desired),
                               videoInputFile.videoStreams);
              pipelineSteps == p.steps && videoInputFile.options == p.videoOptions
              && videoInputFile.filterSteps == p.videoFilters
    {
      var streams := videoInputFile.videoStreams;
      var state, want := ff, desired;
      var i := 0;
      while i < |streams|
        invariant 0 <= i <= |streams|
        invariant Streams(BuildEnv(), Progress(pipelineSteps, videoInputFile.options, videoInputFile.filterSteps,
                                               state, want), streams[i..])
                  == Streams(BuildEnv(), Progress(old(pipelineSteps), old(videoInputFile.options),
                                                  old(videoInputFile.filterSteps), ff, desired), streams)
      {
        assert streams[i..][1..] == streams[i + 1..];
        state, want := ProcessStream(streams[i], state, want);
        i := i + 1;
      }
      assert streams[i..] == [];
    }

    /**
     * Build: the thread option goes first, then the scene-detect threshold, the
     * report, the seeks and the time limit, and then each video stream in turn.
     */
    method Build(ff: FFmpegState, desired: FrameState) returns (r: seq<Step>)
      modifies this, videoInputFile, audioInputFile
      ensures r == pipelineSteps
      ensures var p := Streams(BuildEnv(),
                               Progress(Prelude(ff, desired, VideoStreams(), subtitle, old(pipelineSteps)),
                                        if videoInputFile == null then [] else old(videoInputFile.options) + SeekOption(ff),
                                        if videoInputFile == null then [] else old(videoInputFile.filterSteps),
                                        ff, desired),
                               VideoStreams());
              r == p.steps
              && (videoInputFile != null ==>
                    videoInputFile.options == p.videoOptions && videoInputFile.filterSteps == p.videoFilters)
      ensures audioInputFile != null ==>
                old(audioInputFile.options) + SeekOption(ff) <= audioInputFile.options
                && old(audioInputFile.filterSteps) <= audioInputFile.filterSteps
    {
      Prepare(ff, desired);
      SeekInputs(ff);
      if videoInputFile != null {
        RunStreams(ff, desired);
      }
      r := pipelineSteps;
    }
  }
}
