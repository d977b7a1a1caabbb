/**
 * The shared skeleton of the hardware-specific pipeline builders: Build puts
 * the global options, the video pipeline, the audio pipeline, the metadata,
 * the output format and the complex filter together, asking the concrete
 * builder (NVIDIA, VAAPI or QSV) for its acceleration state, its decoder and
 * its video filters. Resize, Concat and WrapSegmenter build the small
 * auxiliary pipelines.
 */
module PipelineBuilderBase {
  import opened Common
  import opened FFmpegTypes
  import Legacy = PipelineBuilder
  import Nvidia = NvidiaPipelineBuilder
  import Vaapi = VaapiPipelineBuilder
  import Qsv = QsvPipelineBuilder

  /**
   * The concrete builder. The NVIDIA builder inherits IsIntelVaapiOrQsv from
   * the software builder, which is given here as a parameter.
   */
  datatype BuilderKind =
    | NvidiaBuilder(disableVulkan: Option<string>, inheritedIntelFlag: FFmpegState -> bool)
    | VaapiBuilder
    | QsvBuilder

  /** A subtitle input: image or text, and how it is carried to the output. */
  datatype SubtitleInputFile = SubtitleInputFile(isImageBased: bool, subtitleMethod: SubtitleMethod)

  /** FFmpegPipeline: the steps and whether the Intel VAAPI/QSV quirks apply. */
  datatype Pipeline = Pipeline(steps: seq<Step>, isIntelVaapiOrQsv: bool)

  /** What a builder's SetVideoFilters adds: pipeline steps and video filter steps. */
  datatype VideoFilterOutcome = VideoFilterOutcome(steps: seq<Step>, filters: seq<Step>)

  // ---------------------------------------------------------------------------
  // Dispatch to the concrete builder
  // ---------------------------------------------------------------------------

  predicate IsIntelVaapiOrQsv(kind: BuilderKind, ff: FFmpegState)
  {
    match kind
    case NvidiaBuilder(_, inherited) => inherited(ff)
    case VaapiBuilder => Vaapi.IsIntelVaapiOrQsv(ff)
    case QsvBuilder => Qsv.IsIntelVaapiOrQsv(ff)
  }

  /**
   * The flag the pipeline carries, per builder: QSV on either side; VAAPI on
   * either side with a driver not spelled "radeon"; NVIDIA's inherited rule.
   */
  lemma {:induction false} IntelFlagByBuilder(kind: BuilderKind, ff: FFmpegState)
    ensures kind.QsvBuilder? ==> (IsIntelVaapiOrQsv(kind, ff) <==> ff.decoderMode == Qsv || ff.encoderMode == Qsv)
    ensures kind.VaapiBuilder? ==>
              (IsIntelVaapiOrQsv(kind, ff) <==>
                 (ff.decoderMode == Vaapi || ff.encoderMode == Vaapi)
                 && !(ff.vaapiDriver.Some? && Vaapi.SpellsRadeon(ff.vaapiDriver.value)))
    ensures kind.NvidiaBuilder? ==> (IsIntelVaapiOrQsv(kind, ff) <==> kind.inheritedIntelFlag(ff))
  {
    Vaapi.IntelUnlessRadeon(ff);
  }

  /** The builder's SetAccelState; NVIDIA and VAAPI refuse AV1 outside fMP4 HLS, QSV never refuses. */
  function SetAccelState(kind: BuilderKind, hw: HardwareCapabilities, caps: FFmpegCapabilities,
                         stream: VideoStream, ff: FFmpegState, desired: FrameState,
                         context: PipelineContext): (r: Result<AccelOutcome>)
    ensures r.Err? <==> !kind.QsvBuilder? && Av1Rejected(ff, desired)
    ensures r.Err? ==> r.error == Av1Unsupported
  {
    match kind
    case NvidiaBuilder(disableVulkan, _) => Nvidia.SetAccelState(hw, caps, disableVulkan, stream, ff, desired, context)
    case VaapiBuilder => Vaapi.SetAccelState(hw, stream, ff, desired, context)
    case QsvBuilder => Ok(Qsv.SetAccelState(hw, stream, ff, desired))
  }

  /** The builder's SetDecoder, skipped for HLS Direct (a copied video stream). */
  function DecoderFor(kind: BuilderKind, caps: FFmpegCapabilities, stream: VideoStream, ff: FFmpegState,
                      desired: FrameState): (r: DecoderOutcome)
    ensures desired.videoFormat == Copy ==> r == DecoderOutcome(None, [])
  {
    if desired.videoFormat == Copy then DecoderOutcome(None, [])
    else match kind
      case NvidiaBuilder(_, _) => Nvidia.SetDecoder(caps, stream, ff)
      case VaapiBuilder => Vaapi.SetDecoder(caps, stream, ff)
      case QsvBuilder => Qsv.SetDecoder(caps, stream, ff)
  }

  // ---------------------------------------------------------------------------
  // The pieces of Build
  // ---------------------------------------------------------------------------

  /** The seventh standard option: Mp4 output takes the MP4 options instead of fast start. */
  function OutputOptionFor(ff: FFmpegState): (r: Step)
    ensures r == Mp4OutputOptions <==> ff.outputFormat == Mp4
    ensures r != Mp4OutputOptions ==> r == FastStart
  {
    if ff.outputFormat == Mp4 then Mp4OutputOptions else FastStart
  }

  /** The PipelineContext Build starts with; burned subtitles are either an image overlay or text. */
  function MakeContext(accelMode: AccelMode, hasWatermark: bool, subtitle: Option<SubtitleInputFile>,
                       desired: FrameState): (r: PipelineContext)
    ensures r.hasSubtitleOverlay <==>
              subtitle.Some? && subtitle.value.isImageBased && subtitle.value.subtitleMethod == BurnSubtitle
    ensures r.hasSubtitleText <==>
              subtitle.Some? && !subtitle.value.isImageBased && subtitle.value.subtitleMethod == BurnSubtitle
    ensures !(r.hasSubtitleOverlay && r.hasSubtitleText)
    ensures r.is10BitOutput <==> BitDepthOr(desired.pixelFormat, 8) == 10
    ensures r.shouldDeinterlace == desired.deinterlaced && r.hasWatermark == hasWatermark
    ensures r.accelMode == accelMode && !r.isIntelVaapiOrQsv
  {
    var burn := subtitle.Some? && subtitle.value.subtitleMethod == BurnSubtitle;
    PipelineContext(accelMode, hasWatermark, burn && subtitle.value.isImageBased,
                    burn && !subtitle.value.isImageBased, desired.deinterlaced,
                    BitDepthOr(desired.pixelFormat, 8) == 10, false)
  }

  /** Some side was asked to run on hardware. */
  predicate UsesHardware(ff: FFmpegState)
  {
    ff.decoderMode != NoAcceleration || ff.encoderMode != NoAcceleration
  }

  /**
   * SetThreadCount's option: one thread with any hardware acceleration or
   * with a seek into realtime output, the configured count otherwise.
   */
  function ThreadSteps(ff: FFmpegState, desired: FrameState): (r: seq<Step>)
    ensures |r| <= 1
    ensures UsesHardware(ff) ==> r == [ThreadCount(1)]
    ensures !UsesHardware(ff) && Legacy.PositiveStart(ff).Some? && desired.realtime ==> r == [ThreadCount(1)]
    ensures r == [] <==>
              !UsesHardware(ff) && !(Legacy.PositiveStart(ff).Some? && desired.realtime) && ff.threadCount.None?
    ensures r != [] && r != [ThreadCount(1)] ==> r == [ThreadCount(ff.threadCount.value)]
  {
    if UsesHardware(ff) then [ThreadCount(1)]
    else if Legacy.PositiveStart(ff).Some? && desired.realtime then [ThreadCount(1)]
    else StepIf(ff.threadCount, (n: int) => ThreadCount(n))
  }

  /** Without hardware acceleration the thread option is the one the older builder chooses. */
  lemma {:induction false} ThreadStepsMatchLegacy(ff: FFmpegState, desired: FrameState)
    requires !UsesHardware(ff)
    ensures ThreadSteps(ff, desired) == Legacy.ThreadPrefix(ff, desired)
  {
  }

  /** -sc_threshold 0 is refused by mpeg2video (and by VideoToolbox decoding). */
  function SceneThreshold(stream: VideoStream, ff: FFmpegState, desired: FrameState): (r: int)
    ensures r == 1_000_000_000 <==>
              stream.codec == Mpeg2Video || desired.videoFormat == Mpeg2Video || ff.decoderMode == VideoToolbox
    ensures r == 0 || r == 1_000_000_000
  {
    if stream.codec == Mpeg2Video || desired.videoFormat == Mpeg2Video || ff.decoderMode == VideoToolbox
    then 1_000_000_000 else 0
  }

  /** Apart from VideoToolbox, the threshold is the older builder's for the single stream. */
  lemma {:induction false} SceneThresholdMatchesLegacy(stream: VideoStream, ff: FFmpegState, desired: FrameState)
    requires ff.decoderMode != VideoToolbox
    ensures SceneThreshold(stream, ff, desired) == Legacy.SceneThreshold([stream], desired)
  {
    if stream.codec == Mpeg2Video {
      assert [stream][0].codec == Mpeg2Video;
    }
  }

  /** The filter seek: text subtitles burned in are seeked too. */
  function SeekFilterSteps(ff: FFmpegState, context: PipelineContext): (r: seq<Step>)
    ensures r != [] <==> Legacy.PositiveStart(ff).Some? && context.hasSubtitleText
    ensures r != [] ==> r == [StreamSeekFilter(ff.start.value)]
  {
    if Legacy.PositiveStart(ff).Some? && context.hasSubtitleText then [StreamSeekFilter(ff.start.value)] else []
  }

  /** The options Build appends before the video pipeline: scene detect, report, filter seek, time limit. */
  function PreludeTail(stream: VideoStream, ff: FFmpegState, desired: FrameState,
                       context: PipelineContext): (r: seq<Step>)
    ensures |r| >= 1 && r[0] == NoSceneDetect(SceneThreshold(stream, ff, desired))
    ensures FFReport in r <==> ff.saveReport
    ensures (exists t | t in r :: t.StreamSeekFilter?) <==> Legacy.PositiveStart(ff).Some? && context.hasSubtitleText
    ensures (exists t | t in r :: t.TimeLimit?) <==> ff.finish.Some?
    ensures forall t | t in r :: !t.ThreadCount?
  {
    var report := if ff.saveReport then [FFReport] else [];
    var seek := SeekFilterSteps(ff, context);
    var limit := StepIf(ff.finish, (f: int) => TimeLimit(f));
    var tail := report + seek + limit;
    assert forall t | t in tail :: t == FFReport || t.StreamSeekFilter? || t.TimeLimit?;
    assert seek != [] ==> seek[0] in tail;
    assert limit != [] ==> limit[0] in tail;
    [NoSceneDetect(SceneThreshold(stream, ff, desired))] + tail
  }

  /** Everything before the video pipeline: the thread option, the standard options and the prelude tail. */
  function PreludeSteps(stream: VideoStream, ff: FFmpegState, desired: FrameState,
                        context: PipelineContext): seq<Step>
  {
    ThreadSteps(ff, desired) + StandardSteps(OutputOptionFor(ff)) + PreludeTail(stream, ff, desired, context)
  }

  /** A copied subtitle gets the copy encoder, a converted image subtitle the DVD encoder. */
  function SubtitleEncoderSteps(subtitle: Option<SubtitleInputFile>): (r: seq<Step>)
    ensures r == [EncoderCopySubtitle] <==> subtitle.Some? && subtitle.value.subtitleMethod == CopySubtitle
    ensures r == [EncoderDvdSubtitle] <==>
              subtitle.Some? && subtitle.value.subtitleMethod == ConvertSubtitle && subtitle.value.isImageBased
    ensures |r| <= 1
  {
    match subtitle
    case None => []
    case Some(s) =>
      if s.subtitleMethod == CopySubtitle then [EncoderCopySubtitle]
      else if s.subtitleMethod == ConvertSubtitle && s.isImageBased then [EncoderDvdSubtitle]
      else []
  }

  /** The frame rate, timescale, bitrate and buffer outputs; none for a copied video stream. */
  function VideoOutputSteps(desired: FrameState): (r: seq<Step>)
    ensures desired.videoFormat == Copy ==> r == []
    ensures desired.videoFormat != Copy ==>
              (FrameRateOutput(desired.frameRate.GetOr(0)) in r <==> desired.frameRate.Some?)
              && (VideoBitrateOutput(desired.videoBitrate.GetOr(0)) in r <==> desired.videoBitrate.Some?)
    ensures |r| <= 4
  {
    if desired.videoFormat == Copy then []
    else
      var a := StepIf(desired.frameRate, (n: int) => FrameRateOutput(n));
      var b := StepIf(desired.videoTrackTimeScale, (n: int) => VideoTrackTimescaleOutput(n));
      var c := StepIf(desired.videoBitrate, (n: int) => VideoBitrateOutput(n));
      var d := StepIf(desired.videoBufferSize, (n: int) => VideoBufferSizeOutput(n));
      assert forall t | t in b + d :: !t.FrameRateOutput? && !t.VideoBitrateOutput?;
      assert forall t | t in a :: t.FrameRateOutput?;
      assert forall t | t in c :: t.VideoBitrateOutput?;
      a + b + c + d
  }

  /** The output timestamp offset: only when transcoding, with a positive offset and a track timescale. */
  function OutputTsOffsetSteps(ff: FFmpegState, desired: FrameState): (r: seq<Step>)
    ensures r != [] <==> desired.videoFormat != Copy && ff.ptsOffset > 0 && desired.videoTrackTimeScale.Some?
    ensures r != [] ==> r == [OutputTsOffset(ff.ptsOffset, desired.videoTrackTimeScale.value)]
  {
    if desired.videoFormat != Copy && ff.ptsOffset > 0 && desired.videoTrackTimeScale.Some?
    then [OutputTsOffset(ff.ptsOffset, desired.videoTrackTimeScale.value)]
    else []
  }

  /** The steps BuildVideoPipeline appends, in order. */
  function VideoPipelineSteps(subtitle: Option<SubtitleInputFile>, accel: AccelOutcome, desired: FrameState,
                              filters: VideoFilterOutcome): seq<Step>
  {
    SubtitleEncoderSteps(subtitle) + accel.steps + VideoOutputSteps(desired) + filters.steps
    + OutputTsOffsetSteps(accel.ff, desired)
  }

  /**
   * The initial read-rate burst: 180 seconds when not realtime; in realtime
   * 5 for loudnorm, 15 for dynaudnorm and 0 otherwise, to feed the audio
   * normaliser.
   */
  function ReadrateBurst(desired: FrameState, audio: Option<AudioState>): (r: int)
    ensures !desired.realtime ==> r == 180
    ensures desired.realtime ==>
              (r == 5 <==> audio.Some? && audio.value.normalizeLoudnessFilter == LoudNorm)
              && (r == 15 <==> audio.Some? && audio.value.normalizeLoudnessFilter == DynAudNorm)
              && (r == 0 <==> audio.None? || audio.value.normalizeLoudnessFilter == NoAudioFilter)
  {
    if !desired.realtime then 180
    else
      var filter := if audio.Some? then audio.value.normalizeLoudnessFilter else NoAudioFilter;
      match filter
      case LoudNorm => 5
      case DynAudNorm => 15
      case NoAudioFilter => 0
  }

  /** A still image loops forever as input; the loop option follows the encoder mode. */
  function StillImageLoop(stream: VideoStream, ff: FFmpegState): seq<InputOption>
  {
    if stream.stillImage then [InfiniteLoop(ff.encoderMode)] else []
  }

  /** SetInfiniteLoop's video option: still images are already looped. */
  function VideoLoop(stream: VideoStream, ff: FFmpegState, desired: FrameState): seq<InputOption>
  {
    if desired.infiniteLoop && !stream.stillImage then [InfiniteLoop(ff.encoderMode)] else []
  }

  /** SetInfiniteLoop's audio option. */
  function AudioLoop(ff: FFmpegState, desired: FrameState): seq<InputOption>
  {
    if desired.infiniteLoop then [InfiniteLoop(ff.encoderMode)] else []
  }

  /** The options BuildVideoPipeline adds to the video input: decoder, still loop, read rate, loop. */
  function VideoOptionsAdded(decoder: DecoderOutcome, stream: VideoStream, ff: FFmpegState, desired: FrameState,
                             burst: int): seq<InputOption>
  {
    DecoderOptions(decoder) + StillImageLoop(stream, ff) + [Readrate(burst)] + VideoLoop(stream, ff, desired)
  }

  /** How many loop options an option list holds. */
  function LoopCount(os: seq<InputOption>): nat
  {
    if os == [] then 0 else (if os[0].InfiniteLoop? then 1 else 0) + LoopCount(os[1..])
  }

  lemma {:induction false} LoopCountAppend(a: seq<InputOption>, b: seq<InputOption>)
    ensures LoopCount(a + b) == LoopCount(a) + LoopCount(b)
  {
    if a == [] {
      assert a + b == b;
    } else {
      assert (a + b)[0] == a[0];
      assert (a + b)[1..] == a[1..] + b;
      LoopCountAppend(a[1..], b);
    }
  }

  /**
   * The video input is looped exactly once when it is a still image or an
   * infinite loop is wanted, and not at all otherwise: the still-image loop
   * and SetInfiniteLoop never both fire.
   */
  lemma {:induction false} VideoLoopedOnce(decoder: DecoderOutcome, stream: VideoStream, ff: FFmpegState, desired: FrameState,
                        burst: int)
    requires decoder.decoder.None? || !decoder.decoder.value.InfiniteLoop?
    ensures LoopCount(VideoOptionsAdded(decoder, stream, ff, desired, burst)) ==
              if stream.stillImage || desired.infiniteLoop then 1 else 0
  {
    var d := DecoderOptions(decoder);
    var s := StillImageLoop(stream, ff);
    var v := VideoLoop(stream, ff, desired);
    LoopCountAppend(d, s);
    LoopCountAppend(d + s, [Readrate(burst)]);
    LoopCountAppend(d + s + [Readrate(burst)], v);
    assert LoopCount([Readrate(burst)]) == 0;
    if d != [] {
      assert d[1..] == [];
    }
    if s != [] {
      assert s[1..] == [];
    }
    if v != [] {
      assert v[1..] == [];
    }
  }

  /** The options the audio input gets in the video pipeline: read rate, then the loop. */
  function AudioOptionsAdded(ff: FFmpegState, desired: FrameState, burst: int): (r: seq<InputOption>)
    ensures |r| >= 1 && r[0] == Readrate(burst)
    ensures (exists o | o in r :: o.InfiniteLoop?) <==> desired.infiniteLoop
  {
    var loop := AudioLoop(ff, desired);
    assert loop != [] ==> loop[0] in [Readrate(burst)] + loop;
    [Readrate(burst)] + loop
  }

  /** Audio and video inputs are read at the same rate. */
  lemma {:induction false} SameReadrate(decoder: DecoderOutcome, stream: VideoStream, ff: FFmpegState, desired: FrameState,
                     audio: Option<AudioState>)
    ensures var burst := ReadrateBurst(desired, audio);
            Readrate(burst) in VideoOptionsAdded(decoder, stream, ff, desired, burst)
            && Readrate(burst) in AudioOptionsAdded(ff, desired, burst)
  {
    var burst := ReadrateBurst(desired, audio);
    var pre := DecoderOptions(decoder) + StillImageLoop(stream, ff);
    assert VideoOptionsAdded(decoder, stream, ff, desired, burst)[|pre|] == Readrate(burst);
  }

  /** The audio outputs: the codec, channels (for the first stream), bitrate, buffer and sample rate. */
  function AudioSteps(audio: Option<AudioState>, channels: seq<int>): (r: seq<Step>)
    ensures audio.None? <==> r == [EncoderCopyAudio]
    ensures audio.Some? ==> |r| >= 1 && r[0] == AudioEncoder && EncoderCopyAudio !in r
  {
    match audio
    case None => [EncoderCopyAudio]
    case Some(a) =>
      var ch := if |channels| > 0 && a.audioChannels.Some? then [AudioChannels(channels[0], a.audioChannels.value)]
                else [];
      var rest := ch + StepIf(a.audioBitrate, (n: int) => AudioBitrate(n))
                  + StepIf(a.audioBufferSize, (n: int) => AudioBufferSize(n))
                  + StepIf(a.audioSampleRate, (n: int) => AudioSampleRate(n));
      assert forall t | t in rest :: t.AudioChannels? || t.AudioBitrate? || t.AudioBufferSize? || t.AudioSampleRate?;
      assert ([AudioEncoder] + rest)[0] == AudioEncoder;
      [AudioEncoder] + rest
  }

  /** The audio filters: loudness normalisation unless none, then padding to the wanted duration. */
  function AudioFilterSteps(a: AudioState): (r: seq<Step>)
    ensures NormalizeLoudness(a.normalizeLoudnessFilter) in r <==> a.normalizeLoudnessFilter != NoAudioFilter
    ensures (exists t | t in r :: t.AudioPad?) <==> a.audioDuration.Some?
  {
    var loud := if a.normalizeLoudnessFilter != NoAudioFilter then [NormalizeLoudness(a.normalizeLoudnessFilter)]
                else [];
    var pad := StepIf(a.audioDuration, (d: int) => AudioPad(d));
    assert pad != [] ==> pad[0] in loud + pad;
    loud + pad
  }

  /** The metadata outputs: no-map, service provider and name, audio language, subtitle language and title. */
  function MetadataSteps(ff: FFmpegState): (r: seq<Step>)
    ensures forall t | t in r :: IsMetadataOption(t)
    ensures DoNotMapMetadata in r <==> ff.doNotMapMetadata
    ensures (exists t | t in r :: t.MetadataSubtitleTitle?) <==> ff.metadataSubtitleTitle.Some?
  {
    var a := if ff.doNotMapMetadata then [DoNotMapMetadata] else [];
    var b := ServiceSteps(ff) + LanguageSteps(ff);
    var c := StepIf(ff.metadataSubtitleTitle, (t: string) => MetadataSubtitleTitle(t));
    assert forall t | t in c :: t.MetadataSubtitleTitle?;
    assert c != [] ==> c[0] in a + b + c;
    a + b + c
  }

  /** The options that name the service, shared with WrapSegmenter. */
  function ServiceSteps(ff: FFmpegState): (r: seq<Step>)
    ensures forall t | t in r :: t.MetadataServiceProvider? || t.MetadataServiceName?
  {
    StepIf(ff.metadataServiceProvider, (p: string) => MetadataServiceProvider(p))
    + StepIf(ff.metadataServiceName, (n: string) => MetadataServiceName(n))
  }

  /** The audio and subtitle language options. */
  function LanguageSteps(ff: FFmpegState): (r: seq<Step>)
    ensures forall t | t in r :: t.MetadataAudioLanguage? || t.MetadataSubtitleLanguage?
  {
    StepIf(ff.metadataAudioLanguage, (l: string) => MetadataAudioLanguage(l))
    + StepIf(ff.metadataSubtitleLanguage, (l: string) => MetadataSubtitleLanguage(l))
  }

  predicate IsMetadataOption(t: Step)
  {
    t.DoNotMapMetadata? || t.MetadataServiceProvider? || t.MetadataServiceName? || t.MetadataAudioLanguage?
    || t.MetadataSubtitleLanguage? || t.MetadataSubtitleTitle?
  }

  predicate IsOutputFormatOption(t: Step)
  {
    t.OutputFormatMpegTs? || t.OutputFormatMp4? || t.OutputFormatMkv? || t.OutputFormatHls? || t.PipeProtocol?
  }

  /** SetOutputFormat: MKV, MPEG-TS and MP4 pipe out; HLS needs a playlist and a segment template. */
  function OutputFormatSteps(ff: FFmpegState): (r: seq<Step>)
    ensures forall t | t in r :: IsOutputFormatOption(t)
    ensures ff.outputFormat == Mkv ==> r == [OutputFormatMkv, PipeProtocol]
    ensures ff.outputFormat == MpegTs ==> r == [OutputFormatMpegTs, PipeProtocol]
    ensures ff.outputFormat == Mp4 ==> r == [OutputFormatMp4, PipeProtocol]
    ensures r == [] <==>
              ff.outputFormat == HlsMp4 || ff.outputFormat == Nut
              || (ff.outputFormat == Hls && (ff.hlsPlaylistPath.None? || ff.hlsSegmentTemplate.None?))
  {
    match ff.outputFormat
    case Mkv => [OutputFormatMkv, PipeProtocol]
    case MpegTs => [OutputFormatMpegTs, PipeProtocol]
    case Mp4 => [OutputFormatMp4, PipeProtocol]
    case Hls =>
      if ff.hlsPlaylistPath.Some? && ff.hlsSegmentTemplate.Some?
      then [OutputFormatHls(ff.hlsSegmentTemplate.value, ff.hlsPlaylistPath.value)]
      else []
    case _ => []
  }

  /** Everything after the video pipeline: audio, metadata, output format and the complex filter. */
  function ClosingSteps(audio: Option<AudioState>, channels: seq<int>, ff: FFmpegState): (r: seq<Step>)
    ensures |r| >= 1 && r[|r| - 1] == ComplexFilter
    ensures audio.None? ==> r[0] == EncoderCopyAudio
    ensures audio.Some? ==> r[0] == AudioEncoder
  {
    AudioSteps(audio, channels) + (MetadataSteps(ff) + OutputFormatSteps(ff) + [ComplexFilter])
  }

  /** The steps of a successful Build. */
  function BuildSteps(prelude: seq<Step>, video: seq<Step>, closing: seq<Step>): seq<Step>
  {
    prelude + video + closing
  }

  lemma {:induction false} PrefixAt<T>(a: seq<T>, b: seq<T>, i: int)
    requires 0 <= i < |a|
    ensures (a + b)[i] == a[i]
  {
  }

  lemma {:induction false} SuffixAt<T>(a: seq<T>, b: seq<T>, i: int)
    requires 0 <= i < |b|
    ensures (a + b)[|a| + i] == b[i]
  {
  }

  /**
   * The front of every pipeline Build returns: the thread option, when there
   * is one, leads and is one thread under hardware acceleration; the standard
   * options follow, with the MP4 options in place of fast start for MP4.
   */
  lemma {:induction false} PreludeShape(stream: VideoStream, ff: FFmpegState, desired: FrameState, context: PipelineContext)
    ensures var t := ThreadSteps(ff, desired);
            var p := PreludeSteps(stream, ff, desired, context);
            |p| > |t| + 7
            && (UsesHardware(ff) ==> p[0] == ThreadCount(1))
            && (t == [] ==> p[0] == NoStandardInput)
            && p[|t| + 6] == OutputOptionFor(ff)
            && (ff.outputFormat == Mp4 <==> p[|t| + 6] == Mp4OutputOptions)
  {
    var t := ThreadSteps(ff, desired);
    var s := StandardSteps(OutputOptionFor(ff));
    var pt := PreludeTail(stream, ff, desired, context);
    SuffixAt(t, s, 6);
    PrefixAt(t + s, pt, |t| + 6);
    if t == [] {
      assert t + s == s;
      PrefixAt(s, pt, 0);
    } else {
      PrefixAt(t, s, 0);
      PrefixAt(t + s, pt, 0);
    }
  }

  /** Build's steps start with the prelude and end with the complex filter. */
  lemma {:induction false} BuildShape(prelude: seq<Step>, video: seq<Step>, audio: Option<AudioState>, channels: seq<int>,
                   ff: FFmpegState)
    ensures var r := BuildSteps(prelude, video, ClosingSteps(audio, channels, ff));
            r[..|prelude|] == prelude && |r| >= 1 && r[|r| - 1] == ComplexFilter
  {
    var c := ClosingSteps(audio, channels, ff);
    SuffixAt(prelude + video, c, |c| - 1);
    assert (prelude + video + c)[..|prelude|] == prelude;
  }

  /** With no audio input, exactly one audio copy encoder is added, first after the video pipeline. */
  lemma {:induction false} NoAudioCopiesAudio(ff: FFmpegState, channels: seq<int>)
    ensures var c := ClosingSteps(None, channels, ff);
            c[0] == EncoderCopyAudio && EncoderCopyAudio !in c[1..]
  {
    var m1 := MetadataSteps(ff);
    var m2 := OutputFormatSteps(ff);
    NotAmong(m1, IsMetadataOption, EncoderCopyAudio);
    NotAmong(m2, IsOutputFormatOption, EncoderCopyAudio);
    var m := m1 + m2 + [ComplexFilter];
    assert EncoderCopyAudio !in m;
    ConsParts([EncoderCopyAudio], m);
  }

  /** A value failing a test every element passes is not in the sequence. */
  lemma {:induction false} NotAmong<T>(s: seq<T>, p: T -> bool, x: T)
    requires forall t | t in s :: p(t)
    requires !p(x)
    ensures x !in s
  {
  }

  /** The head and tail of a one-element prefix joined to a sequence. */
  lemma {:induction false} ConsParts<T>(h: seq<T>, m: seq<T>)
    requires |h| == 1
    ensures (h + m)[0] == h[0] && (h + m)[1..] == m
  {
  }

  /**
   * HLS Direct copies the video: no decoder, no frame rate, timescale,
   * bitrate, buffer or timestamp-offset outputs.
   */
  lemma {:induction false} CopyAddsNoVideoOutputs(kind: BuilderKind, caps: FFmpegCapabilities, stream: VideoStream,
                               ff: FFmpegState, desired: FrameState)
    requires desired.videoFormat == Copy
    ensures DecoderFor(kind, caps, stream, ff, desired).decoder.None?
    ensures VideoOutputSteps(desired) == [] && OutputTsOffsetSteps(ff, desired) == []
  {
  }

  /** The AV1 refusal of NVIDIA and VAAPI, and QSV's acceptance, as Build sees them. */
  lemma {:induction false} Av1OnlyWithFragmentedHls(kind: BuilderKind, hw: HardwareCapabilities, caps: FFmpegCapabilities,
                                 stream: VideoStream, ff: FFmpegState, desired: FrameState,
                                 context: PipelineContext)
    requires desired.videoFormat == Av1
    ensures SetAccelState(kind, hw, caps, stream, ff, desired, context).Ok? <==>
              kind.QsvBuilder? || ff.outputFormat == HlsMp4
  {
  }

  /** The steps Concat builds; the same as the older builder's. */
  function ConcatSteps(ff: FFmpegState): seq<Step>
  {
    StepIf(ff.threadCount, (n: int) => ThreadCount(n)) + StandardSteps(FastStart) + Legacy.ConcatTail(ff)
  }

  /** Concat copies everything to MPEG-TS, and saves a report only when asked. */
  lemma {:induction false} ConcatCopiesToMpegTs(ff: FFmpegState)
    ensures var r := ConcatSteps(ff);
            EncoderCopyAll in r && OutputFormatMpegTs in r && PipeProtocol in r
            && (FFReport in r <==> ff.saveReport)
  {
    var head := StepIf(ff.threadCount, (n: int) => ThreadCount(n)) + StandardSteps(FastStart);
    var tail := Legacy.ConcatTail(ff);
    assert ConcatSteps(ff) == head + tail;
    assert forall x | x in head :: x != FFReport;
    assert EncoderCopyAll in tail && OutputFormatMpegTs in tail && PipeProtocol in tail;
    assert FFReport in tail <==> ff.saveReport;
  }

  /** The steps WrapSegmenter builds: one thread, copy everything, service metadata, MPEG-TS to the pipe. */
  function WrapSegmenterSteps(ff: FFmpegState): seq<Step>
  {
    [NoStandardInput, ThreadCount(1), HideBanner, LoglevelError, NoStats, StandardFormatFlags, MapAllStreams,
     EncoderCopyAll]
    + ServiceSteps(ff)
    + [OutputFormatMpegTs, PipeProtocol]
  }

  /** The segmenter wrapper always runs on one thread and ends by piping MPEG-TS out. */
  lemma {:induction false} WrapSegmenterOneThread(ff: FFmpegState)
    ensures var r := WrapSegmenterSteps(ff);
            |r| >= 10 && r[1] == ThreadCount(1) && r[|r| - 2] == OutputFormatMpegTs && r[|r| - 1] == PipeProtocol
            && (forall i | 0 <= i < |r| && i != 1 :: !r[i].ThreadCount?)
  {
    var meta := ServiceSteps(ff);
    var head := [NoStandardInput, ThreadCount(1), HideBanner, LoglevelError, NoStats, StandardFormatFlags,
                 MapAllStreams, EncoderCopyAll];
    assert WrapSegmenterSteps(ff) == head + meta + [OutputFormatMpegTs, PipeProtocol];
    forall i | 8 <= i < 8 + |meta|
      ensures !WrapSegmenterSteps(ff)[i].ThreadCount?
    {
      assert WrapSegmenterSteps(ff)[i] == meta[i - 8];
    }
  }

  /** SetCrop: a crop filter for the current cropped size, if there is one. */
  function SetCrop(currentCropped: Option<FrameSize>): (r: seq<Step>)
    ensures r == [] <==> currentCropped.None?
    ensures r != [] ==> r == [CropFilter(currentCropped.value)]
  {
    StepIf(currentCropped, (c: FrameSize) => CropFilter(c))
  }

  // ---------------------------------------------------------------------------
  // The builder
  // ---------------------------------------------------------------------------

  class PipelineBuilderBase {
    const kind: BuilderKind
    const hw: HardwareCapabilities
    const caps: FFmpegCapabilities
    const accelMode: AccelMode
    const videoInputFile: VideoInputFile?
    const audioInputFile: AudioInputFile?
    const hasWatermark: bool
    const subtitle: Option<SubtitleInputFile>
    /** The concrete builder's SetVideoFilters. */
    const setVideoFilters: (FFmpegState, FrameState, PipelineContext, Option<InputOption>) -> VideoFilterOutcome

    constructor (kind: BuilderKind, hw: HardwareCapabilities, caps: FFmpegCapabilities, accelMode: AccelMode,
                 video: VideoInputFile?, audio: AudioInputFile?, hasWatermark: bool,
                 subtitle: Option<SubtitleInputFile>,
                 setVideoFilters: (FFmpegState, FrameState, PipelineContext, Option<InputOption>) -> VideoFilterOutcome)
      ensures this.kind == kind && this.hw == hw && this.caps == caps && this.accelMode == accelMode
      ensures videoInputFile == video && audioInputFile == audio
      ensures this.hasWatermark == hasWatermark && this.subtitle == subtitle
      ensures this.setVideoFilters == setVideoFilters
    {
      this.kind := kind;
      this.hw := hw;
      this.caps := caps;
      this.accelMode := accelMode;
      videoInputFile := video;
      audioInputFile := audio;
      this.hasWatermark := hasWatermark;
      this.subtitle := subtitle;
      this.setVideoFilters := setVideoFilters;
    }

    /** The audio input's desired state, if there is an audio input. */
    function AudioDesired(): Option<AudioState>
    {
      if audioInputFile == null then None else Some(audioInputFile.desiredState)
    }

    function AudioChannelsOf(): seq<int>
    {
      if audioInputFile == null then [] else audioInputFile.streamChannels
    }

    /** Resize: scale an image to a file; the video input gets the scale filter. */
    method Resize(outputFile: string, scaledSize: FrameSize) returns (r: Pipeline)
      modifies videoInputFile
      ensures r == Pipeline(ResizePrefix + [VideoFilter(ScaleImage(scaledSize)), ScaleImage(scaledSize),
                                            FileNameOutput(outputFile)], false)
      ensures videoInputFile != null ==>
                videoInputFile.filterSteps == old(videoInputFile.filterSteps) + [ScaleImage(scaledSize)]
                && videoInputFile.options == old(videoInputFile.options)
    {
      var steps := [NoStandardInput, HideBanner, NoStats, LoglevelError];
      var scaleStep := ScaleImage(scaledSize);
      if videoInputFile != null {
        videoInputFile.filterSteps := videoInputFile.filterSteps + [scaleStep];
      }
      steps := steps + [VideoFilter(scaleStep)];
      steps := steps + [scaleStep];
      steps := steps + [FileNameOutput(outputFile)];
      r := Pipeline(steps, false);
    }

    /** Concat: copy the concatenated playlist to MPEG-TS, read at the default rate, looping forever. */
    method Concat(concat: ConcatInputFile, ff: FFmpegState) returns (r: Pipeline)
      modifies concat
      ensures concat.options == old(concat.options) + [ConcatFormat, ReadrateDefault, InfiniteLoop(NoAcceleration)]
      ensures r == Pipeline(ConcatSteps(ff), false)
    {
      var steps := StandardSteps(FastStart);
      concat.options := concat.options + [ConcatFormat, ReadrateDefault, InfiniteLoop(NoAcceleration)];
      if ff.threadCount.Some? {
        steps := [ThreadCount(ff.threadCount.value)] + steps;
      }
      var tail := [NoSceneDetect(0), EncoderCopyAll];
      if ff.doNotMapMetadata {
        tail := tail + [DoNotMapMetadata];
      }
      if ff.metadataServiceProvider.Some? {
        tail := tail + [MetadataServiceProvider(ff.metadataServiceProvider.value)];
      }
      if ff.metadataServiceName.Some? {
        tail := tail + [MetadataServiceName(ff.metadataServiceName.value)];
      }
      tail := tail + [OutputFormatMpegTs, PipeProtocol];
      if ff.saveReport {
        tail := tail + [FFReport];
      }
      assert tail == Legacy.ConcatTail(ff);
      r := Pipeline(steps + tail, false);
    }

    /** WrapSegmenter: copy the segmenter's output to MPEG-TS on one thread. */
    method WrapSegmenter(concat: ConcatInputFile, ff: FFmpegState) returns (r: Pipeline)
      modifies concat
      ensures concat.options == old(concat.options) + [ReadrateDefault]
      ensures r == Pipeline(WrapSegmenterSteps(ff), false)
    {
      var steps := [NoStandardInput, ThreadCount(1), HideBanner, LoglevelError, NoStats, StandardFormatFlags,
                    MapAllStreams, EncoderCopyAll];
      concat.options := concat.options + [ReadrateDefault];
      if ff.metadataServiceProvider.Some? {
        steps := steps + [MetadataServiceProvider(ff.metadataServiceProvider.value)];
      }
      if ff.metadataServiceName.Some? {
        steps := steps + [MetadataServiceName(ff.metadataServiceName.value)];
      }
      steps := steps + [OutputFormatMpegTs, PipeProtocol];
      r := Pipeline(steps, false);
    }

    /** SetThreadCount: the thread option is inserted in front of the steps. */
    method SetThreadCount(ff: FFmpegState, desired: FrameState, steps: seq<Step>) returns (r: seq<Step>)
      ensures r == ThreadSteps(ff, desired) + steps
    {
      r := steps;
      if ff.decoderMode != NoAcceleration || ff.encoderMode != NoAcceleration {
        r := [ThreadCount(1)] + r;
      } else if ff.start.Some? && ff.start.value > 0 && desired.realtime {
        r := [ThreadCount(1)] + r;
      } else if ff.threadCount.Some? {
        r := [ThreadCount(ff.threadCount.value)] + r;
      }
    }

    /** SetStreamSeek: both inputs seek to a positive start. */
    method SetStreamSeek(ff: FFmpegState)
      modifies videoInputFile, audioInputFile
      ensures videoInputFile != null ==>
                videoInputFile.options == old(videoInputFile.options) + Legacy.SeekOption(ff)
                && videoInputFile.filterSteps == old(videoInputFile.filterSteps)
      ensures audioInputFile != null ==>
                audioInputFile.options == old(audioInputFile.options) + Legacy.SeekOption(ff)
                && audioInputFile.filterSteps == old(audioInputFile.filterSteps)
    {
      if ff.start.Some? && ff.start.value > 0 {
        var option := StreamSeek(ff.start.value);
        if audioInputFile != null {
          audioInputFile.options := audioInputFile.options + [option];
        }
        if videoInputFile != null {
          videoInputFile.options := videoInputFile.options + [option];
        }
      }
    }

    /** SetRealtimeInput: the burst is chosen by branching, and both inputs get it. */
    method SetRealtimeInput(desired: FrameState) returns (burst: int)
      requires videoInputFile != null
      modifies videoInputFile, audioInputFile
      ensures burst == ReadrateBurst(desired, AudioDesired())
      ensures videoInputFile.options == old(videoInputFile.options) + [Readrate(burst)]
      ensures videoInputFile.filterSteps == old(videoInputFile.filterSteps)
      ensures audioInputFile != null ==>
                audioInputFile.options == old(audioInputFile.options) + [Readrate(burst)]
                && audioInputFile.filterSteps == old(audioInputFile.filterSteps)
    {
      if !desired.realtime {
        burst := 180;
      } else {
        var filter := NoAudioFilter;
        if audioInputFile != null {
          filter := audioInputFile.desiredState.normalizeLoudnessFilter;
        }
        if filter == LoudNorm {
          burst := 5;
        } else if filter == DynAudNorm {
          burst := 15;
        } else {
          burst := 0;
        }
      }
      if audioInputFile != null {
        audioInputFile.options := audioInputFile.options + [Readrate(burst)];
      }
      videoInputFile.options := videoInputFile.options + [Readrate(burst)];
    }

    /** SetInfiniteLoop: audio always loops, video only when it is not a still image. */
    method SetInfiniteLoop(stream: VideoStream, ff: FFmpegState, desired: FrameState)
      requires videoInputFile != null
      modifies videoInputFile, audioInputFile
      ensures videoInputFile.options == old(videoInputFile.options) + VideoLoop(stream, ff, desired)
      ensures videoInputFile.filterSteps == old(videoInputFile.filterSteps)
      ensures audioInputFile != null ==>
                audioInputFile.options == old(audioInputFile.options) + AudioLoop(ff, desired)
                && audioInputFile.filterSteps == old(audioInputFile.filterSteps)
    {
      if !desired.infiniteLoop {
        return;
      }
      if audioInputFile != null {
        audioInputFile.options := audioInputFile.options + [InfiniteLoop(ff.encoderMode)];
      }
      if !stream.stillImage {
        videoInputFile.options := videoInputFile.options + [InfiniteLoop(ff.encoderMode)];
      }
    }

    /**
     * The input options of the video pipeline: the decoder (with any filter
     * it needs), the still-image loop, the read rate and the infinite loop.
     */
    method SetVideoInputs(stream: VideoStream, ff: FFmpegState, desired: FrameState, decoder: DecoderOutcome)
      returns (burst: int)
      requires videoInputFile != null
      modifies videoInputFile, audioInputFile
      ensures burst == ReadrateBurst(desired, AudioDesired())
      ensures videoInputFile.options == old(videoInputFile.options) + VideoOptionsAdded(decoder, stream, ff, desired, burst)
      ensures videoInputFile.filterSteps == old(videoInputFile.filterSteps) + decoder.filters
      ensures audioInputFile != null ==>
                audioInputFile.options == old(audioInputFile.options) + AudioOptionsAdded(ff, desired, burst)
                && audioInputFile.filterSteps == old(audioInputFile.filterSteps)
    {
      videoInputFile.options := videoInputFile.options + DecoderOptions(decoder);
      videoInputFile.filterSteps := videoInputFile.filterSteps + decoder.filters;
      if stream.stillImage {
        videoInputFile.options := videoInputFile.options + [InfiniteLoop(ff.encoderMode)];
      }
      ghost var afterStill := videoInputFile.options;
      assert afterStill == old(videoInputFile.options) + DecoderOptions(decoder) + StillImageLoop(stream, ff);
      ghost var audioBefore := if audioInputFile == null then [] else audioInputFile.options;
      burst := SetRealtimeInput(desired);
      SetInfiniteLoop(stream, ff, desired);
      assert videoInputFile.options == afterStill + [Readrate(burst)] + VideoLoop(stream, ff, desired);
    }

    /**
     * BuildVideoPipeline, once the builder has accepted the acceleration
     * state: subtitle encoders, the acceleration steps, decoder and input
     * options, the video outputs, the builder's video filters and the
     * timestamp offset.
     */
    method BuildVideoPipeline(stream: VideoStream, o: AccelOutcome, desired: FrameState, context: PipelineContext)
      returns (steps: seq<Step>, decoder: DecoderOutcome, filters: VideoFilterOutcome)
      requires videoInputFile != null
      modifies videoInputFile, audioInputFile
      ensures decoder == DecoderFor(kind, caps, stream, o.ff, desired)
      ensures filters == setVideoFilters(o.ff, desired, context, decoder.decoder)
      ensures steps == VideoPipelineSteps(subtitle, o, desired, filters)
      ensures videoInputFile.options
              == old(videoInputFile.options)
                 + VideoOptionsAdded(decoder, stream, o.ff, desired, ReadrateBurst(desired, AudioDesired()))
      ensures videoInputFile.filterSteps == old(videoInputFile.filterSteps) + decoder.filters + filters.filters
      ensures audioInputFile != null ==>
                audioInputFile.options
                == old(audioInputFile.options) + AudioOptionsAdded(o.ff, desired, ReadrateBurst(desired, AudioDesired()))
                && audioInputFile.filterSteps == old(audioInputFile.filterSteps)
    {
      steps := SubtitleEncoderSteps(subtitle);
      steps := steps + o.steps;
      decoder := DecoderFor(kind, caps, stream, o.ff, desired);
      var burst := SetVideoInputs(stream, o.ff, desired, decoder);
      steps := steps + VideoOutputSteps(desired);
      filters := setVideoFilters(o.ff, desired, context, decoder.decoder);
      videoInputFile.filterSteps := videoInputFile.filterSteps + filters.filters;
      steps := steps + filters.steps;
      steps := steps + OutputTsOffsetSteps(o.ff, desired);
    }

    /** BuildAudioPipeline's filters on the audio input: loudness and padding. */
    method SetAudioFilters()
      modifies audioInputFile
      ensures audioInputFile != null ==>
                audioInputFile.filterSteps == old(audioInputFile.filterSteps) + AudioFilterSteps(audioInputFile.desiredState)
                && audioInputFile.options == old(audioInputFile.options)
    {
      if audioInputFile != null {
        var a := audioInputFile.desiredState;
        if a.normalizeLoudnessFilter != NoAudioFilter {
          audioInputFile.filterSteps := audioInputFile.filterSteps + [NormalizeLoudness(a.normalizeLoudnessFilter)];
        }
        if a.audioDuration.Some? {
          audioInputFile.filterSteps := audioInputFile.filterSteps + [AudioPad(a.audioDuration.value)];
        }
      }
    }

    /**
     * Build: one video input with one video stream is required. The steps are
     * the prelude, the video pipeline and the closing steps; the Intel flag
     * is asked of the builder with the state Build was given. A refused
     * acceleration state ends the build after the seek options are added.
     */
    method Build(ff: FFmpegState, desired: FrameState) returns (r: Result<Pipeline>)
      requires videoInputFile != null && |videoInputFile.videoStreams| == 1
      modifies videoInputFile, audioInputFile
      ensures var accel := SetAccelState(kind, hw, caps, videoInputFile.videoStreams[0], ff, desired,
                                         MakeContext(accelMode, hasWatermark, subtitle, desired));
              (r.Err? <==> accel.Err?) && (r.Err? ==> r.error == accel.error)
      ensures r.Ok? ==>
                var stream := videoInputFile.videoStreams[0];
                var context := MakeContext(accelMode, hasWatermark, subtitle, desired);
                var o := SetAccelState(kind, hw, caps, stream, ff, desired, context).value;
                var decoder := DecoderFor(kind, caps, stream, o.ff, desired);
                var filters := setVideoFilters(o.ff, desired, context, decoder.decoder);
                r.value == Pipeline(BuildSteps(PreludeSteps(stream, ff, desired, context),
                                               VideoPipelineSteps(subtitle, o, desired, filters),
                                               ClosingSteps(AudioDesired(), AudioChannelsOf(), ff)),
                                    IsIntelVaapiOrQsv(kind, ff))
                && videoInputFile.options
                   == old(videoInputFile.options) + Legacy.SeekOption(ff)
                      + VideoOptionsAdded(decoder, stream, o.ff, desired, ReadrateBurst(desired, AudioDesired()))
                && videoInputFile.filterSteps == old(videoInputFile.filterSteps) + decoder.filters + filters.filters
      ensures r.Ok? && audioInputFile != null ==>
                var context := MakeContext(accelMode, hasWatermark, subtitle, desired);
                var o := SetAccelState(kind, hw, caps, videoInputFile.videoStreams[0], ff, desired, context).value;
                audioInputFile.options
                == old(audioInputFile.options) + Legacy.SeekOption(ff)
                   + AudioOptionsAdded(o.ff, desired, ReadrateBurst(desired, AudioDesired()))
                && audioInputFile.filterSteps
                   == old(audioInputFile.filterSteps) + AudioFilterSteps(audioInputFile.desiredState)
      ensures r.Err? ==>
                videoInputFile.options == old(videoInputFile.options) + Legacy.SeekOption(ff)
                && videoInputFile.filterSteps == old(videoInputFile.filterSteps)
    {
      var stream := videoInputFile.videoStreams[0];
      var context := MakeContext(accelMode, hasWatermark, subtitle, desired);
      var prelude := StandardSteps(OutputOptionFor(ff));
      prelude := SetThreadCount(ff, desired, prelude);
      prelude := prelude + PreludeTail(stream, ff, desired, context);
      SetStreamSeek(ff);
      var accel := SetAccelState(kind, hw, caps, stream, ff, desired, context);
      if accel.Err? {
        return Err(accel.error);
      }
      var video, decoder, filters := BuildVideoPipeline(stream, accel.value, desired, context);
      var flag := IsIntelVaapiOrQsv(kind, ff);
      var closing := AudioSteps(AudioDesired(), AudioChannelsOf());
      SetAudioFilters();
      closing := closing + (MetadataSteps(ff) + OutputFormatSteps(ff) + [ComplexFilter]);
      r := Ok(Pipeline(prelude + video + closing, flag));
    }
  }
}
