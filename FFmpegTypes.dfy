/**
 * Values shared by the FFmpeg pipeline builders: acceleration modes, codecs,
 * pixel formats, the frame and ffmpeg states a pipeline is built from, and the
 * pipeline steps. A step is an opaque tag: the model records which option,
 * encoder or filter is added and in what order, not the command-line text it
 * renders to.
 */
module FFmpegTypes {
  import opened Common

  /** HardwareAccelerationMode (its `None` member is spelled NoAcceleration). */
  datatype AccelMode = NoAcceleration | Nvenc | Qsv | Vaapi | VideoToolbox | Amf | Vulkan

  datatype VideoFormat =
    | Undetermined | Copy | H264 | Hevc | Mpeg2Video | Av1 | Vc1 | Vp9 | OtherCodec(name: string)

  datatype OutputFormatKind = MpegTs | Mp4 | Mkv | Hls | HlsMp4 | Nut

  /** FFmpegCapability, the answer of a hardware capability query. */
  datatype Capability = Hardware | Software

  /** AudioFilter, the loudness normalization asked for. */
  datatype AudioFilter = NoAudioFilter | LoudNorm | DynAudNorm

  /** FFmpegFilterMode, used for the pad mode. */
  datatype FilterMode = SoftwareFilter | HardwareFilter

  datatype FrameDataLocation = UnknownLocation | InSoftware | InHardware

  datatype SubtitleMethod = BurnSubtitle | CopySubtitle | ConvertSubtitle

  datatype FrameSize = FrameSize(width: int, height: int)

  /** The pixel-format classes the builders test for by type. */
  datatype PixelKind = Yuv420p | Yuv420p10le | Nv12 | P010 | OtherPixel(ffmpegName: string)

  /** An IPixelFormat: its class, its display name and its bit depth. */
  datatype PixelFormat = PixelFormat(kind: PixelKind, name: string, bitDepth: int)

  /** The name handed to ffmpeg. */
  function FFmpegName(pf: PixelFormat): string
  {
    match pf.kind
    case Yuv420p => "yuv420p"
    case Yuv420p10le => "yuv420p10le"
    case Nv12 => "nv12"
    case P010 => "p010le"
    case OtherPixel(n) => n
  }

  const Yuv420P: PixelFormat := PixelFormat(Yuv420p, "yuv420p", 8)
  const Yuv420P10Le: PixelFormat := PixelFormat(Yuv420p10le, "yuv420p10le", 10)

  /** PixelFormatNv12(name): keeps the display name, is 8-bit. */
  function Nv12Of(name: string): (r: PixelFormat)
    ensures FFmpegName(r) == "nv12" && r.bitDepth == 8 && r.name == name
  {
    PixelFormat(Nv12, name, 8)
  }

  /** The name of an optional pixel format, or the empty string. */
  function PixelFormatName(pf: Option<PixelFormat>): string
  {
    match pf
    case Some(p) => p.name
    case None => ""
  }

  /** A video stream as probed: codec, pixel format, size, the frame-rate text, still image, HDR. */
  datatype VideoStream = VideoStream(
    codec: VideoFormat,
    pixelFormat: Option<PixelFormat>,
    frameSize: FrameSize,
    frameRate: Option<string>,
    stillImage: bool,
    isHdr: bool)

  /** The frame state a pipeline starts from or aims for. */
  datatype FrameState = FrameState(
    realtime: bool,
    infiniteLoop: bool,
    videoFormat: VideoFormat,
    pixelFormat: Option<PixelFormat>,
    scaledSize: FrameSize,
    paddedSize: FrameSize,
    croppedSize: Option<FrameSize>,
    frameRate: Option<int>,
    videoBitrate: Option<int>,
    videoBufferSize: Option<int>,
    videoTrackTimeScale: Option<int>,
    deinterlaced: bool,
    padMode: FilterMode,
    frameDataLocation: FrameDataLocation)

  /** The ffmpeg-wide settings; start and finish are in ticks. */
  datatype FFmpegState = FFmpegState(
    saveReport: bool,
    decoderMode: AccelMode,
    encoderMode: AccelMode,
    vaapiDriver: Option<string>,
    vaapiDevice: Option<string>,
    start: Option<int>,
    finish: Option<int>,
    threadCount: Option<int>,
    outputFormat: OutputFormatKind,
    doNotMapMetadata: bool,
    metadataServiceProvider: Option<string>,
    metadataServiceName: Option<string>,
    metadataAudioLanguage: Option<string>,
    metadataSubtitleLanguage: Option<string>,
    metadataSubtitleTitle: Option<string>,
    hlsPlaylistPath: Option<string>,
    hlsSegmentTemplate: Option<string>,
    ptsOffset: int,
    isHdrTonemap: bool)

  /** PipelineContext: what the video filters have to deal with. */
  datatype PipelineContext = PipelineContext(
    accelMode: AccelMode,
    hasWatermark: bool,
    hasSubtitleOverlay: bool,
    hasSubtitleText: bool,
    shouldDeinterlace: bool,
    is10BitOutput: bool,
    isIntelVaapiOrQsv: bool)

  /** Options attached to an input file. */
  datatype InputOption =
    | StreamSeek(start: int)
    | Readrate(burst: int)
    | ReadrateDefault
    | RealtimeInput
    | InfiniteLoop(mode: AccelMode)
    | ConcatFormat
    | Decoder(mode: AccelMode, codec: VideoFormat)
    | ImplicitCudaDecoder
    | ImplicitVulkanDecoder
    | VaapiDecoder
    | SoftwareDecoder(codec: VideoFormat)

  /** Global options, output options, encoders and filters of a pipeline. */
  datatype Step =
    | NoStandardInput | HideBanner | NoStats | LoglevelError | StandardFormatFlags
    | NoDemuxDecodeDelay | FastStart | Mp4OutputOptions | ClosedGop | MapAllStreams
    | ThreadCount(threads: int)
    | NoSceneDetect(threshold: int)
    | FFReport
    | StreamSeekFilter(seekStart: int)
    | TimeLimit(limit: int)
    | EncoderCopyVideo | EncoderCopyAudio | EncoderCopySubtitle | EncoderDvdSubtitle | EncoderCopyAll
    | VideoEncoder(encoderMode: AccelMode, format: VideoFormat)
    | AudioEncoder
    | HardwareAcceleration(accel: AccelMode, accelDevice: Option<string>)
    | CudaAcceleration(hdrTonemap: bool)
    | VaapiAcceleration(vaapiDevice: string, decode: Capability)
    | QsvAcceleration(qsvDevice: Option<string>)
    | LibvaDriverName(driver: string)
    | NoAutoScale
    | FrameRateOutput(rate: int)
    | VideoTrackTimescaleOutput(timescale: int)
    | VideoBitrateOutput(bitrate: int)
    | VideoBufferSizeOutput(bufferSize: int)
    | OutputTsOffset(offset: int, trackTimescale: int)
    | PixelFormatOutput(pixelFormat: PixelFormat)
    | AudioChannels(channels: int, desiredChannels: int)
    | AudioBitrate(audioBitrate: int)
    | AudioBufferSize(audioBufferSize: int)
    | AudioSampleRate(sampleRate: int)
    | DoNotMapMetadata
    | MetadataServiceProvider(provider: string)
    | MetadataServiceName(serviceName: string)
    | MetadataAudioLanguage(audioLanguage: string)
    | MetadataSubtitleLanguage(subtitleLanguage: string)
    | MetadataSubtitleTitle(subtitleTitle: string)
    | OutputFormatMpegTs | OutputFormatMp4 | OutputFormatMkv
    | OutputFormatHls(segmentTemplate: string, playlistPath: string)
    | PipeProtocol
    | VideoFilter(filter: Step)
    | ScaleImage(size: FrameSize)
    | FileNameOutput(path: string)
    | ComplexFilter
    // video filter steps
    | CudaSoftwareFallbackUpload
    | PadFilter(padTo: FrameSize)
    | PadVaapi(vaapiPadTo: FrameSize)
    | CropFilter(cropTo: FrameSize)
    | ScaleFilter(scaleTo: FrameSize)
    | ScaleCuda(cudaScaleTo: FrameSize, cudaFormat: Option<PixelFormat>)
    | ScaleVaapi(vaapiScaleTo: FrameSize, vaapiScaleFormat: Option<PixelFormat>)
    | ScaleQsv(qsvScaleTo: FrameSize, qsvScaleFormat: Option<PixelFormat>)
    | DeinterlaceVaapi
    | DeinterlaceQsv
    | Yadif
    | YadifCuda
    | VaapiFormat(vaapiFormat: PixelFormat)
    | PixelFormatFilter(filterFormat: PixelFormat)
    | HardwareUploadVaapi(setFormat: bool)
    // audio filter steps
    | NormalizeLoudness(loudness: AudioFilter)
    | AudioPad(duration: int)

  /** An encoder whose kind is Video. */
  predicate IsVideoEncoder(s: Step)
  {
    s.EncoderCopyVideo? || s.VideoEncoder?
  }

  predicate HasVideoEncoder(steps: seq<Step>)
  {
    exists i :: 0 <= i < |steps| && IsVideoEncoder(steps[i])
  }

  /** The options every transcode starts with; the seventh is FastStart or Mp4OutputOptions. */
  function StandardSteps(outputOption: Step): (r: seq<Step>)
    ensures |r| == 8 && r[6] == outputOption
    ensures r[0] == NoStandardInput
  {
    [NoStandardInput, HideBanner, NoStats, LoglevelError, StandardFormatFlags,
     NoDemuxDecodeDelay, outputOption, ClosedGop]
  }

  /** The four leading options of an image resize. */
  const ResizePrefix: seq<Step> := [NoStandardInput, HideBanner, NoStats, LoglevelError]

  /** One step when the value is present, none otherwise (a foreach over an Option). */
  function StepIf<T>(o: Option<T>, f: T -> Step): (r: seq<Step>)
    ensures o.None? <==> r == []
    ensures o.Some? ==> r == [f(o.value)]
  {
    match o
    case Some(v) => [f(v)]
    case None => []
  }

  /** An audio input file's desired state; the duration is in ticks. */
  datatype AudioState = AudioState(
    audioFormat: string,
    audioChannels: Option<int>,
    audioBitrate: Option<int>,
    audioBufferSize: Option<int>,
    audioSampleRate: Option<int>,
    audioDuration: Option<int>,
    normalizeLoudnessFilter: AudioFilter)

  /** The outcome of a builder's SetAccelState: the new ffmpeg state and the steps it appended. */
  datatype AccelOutcome = AccelOutcome(ff: FFmpegState, steps: seq<Step>)

  /**
   * IHardwareCapabilities: the answer for decoding a stream and for encoding to a
   * frame state, and the GPU generation when the capabilities are VAAPI's.
   */
  datatype HardwareCapabilities = HardwareCapabilities(
    canDecode: VideoStream -> Capability,
    canEncode: FrameState -> Capability,
    vaapiGeneration: Option<string>)

  /** IFFmpegCapabilities: the software decoders ffmpeg has and whether it has Vulkan. */
  datatype FFmpegCapabilities = FFmpegCapabilities(
    softwareDecoders: set<VideoFormat>,
    hasVulkan: bool)

  /** GetSoftwareDecoder: ffmpeg's software decoder for the codec, when it has one. */
  function SoftwareDecoderFor(caps: FFmpegCapabilities, codec: VideoFormat): (r: Option<InputOption>)
    ensures r.Some? <==> codec in caps.softwareDecoders
    ensures r.Some? ==> r.value == SoftwareDecoder(codec)
  {
    if codec in caps.softwareDecoders then Some(SoftwareDecoder(codec)) else None
  }

  /** What a builder's SetDecoder adds to the video input: the decoder option and any filter steps. */
  datatype DecoderOutcome = DecoderOutcome(decoder: Option<InputOption>, filters: seq<Step>)

  /** The input option list a decoder outcome appends. */
  function DecoderOptions(d: DecoderOutcome): (r: seq<InputOption>)
    ensures |r| <= 1 && (r == [] <==> d.decoder.None?)
  {
    match d.decoder
    case Some(o) => [o]
    case None => []
  }

  /** The mode an accelerated side keeps: the builder's mode for Hardware, none for Software. */
  function ModeFor(c: Capability, mode: AccelMode): (r: AccelMode)
    ensures r == mode <==> c == Hardware || mode == NoAcceleration
    ensures r == mode || r == NoAcceleration
  {
    if c == Hardware then mode else NoAcceleration
  }

  /** The encode capability; piping rawvideo to the parent HLS segmenter (Nut) always encodes in software. */
  function EncodeCapability(hw: HardwareCapabilities, ff: FFmpegState, desired: FrameState): (r: Capability)
    ensures r == Hardware <==> ff.outputFormat != Nut && hw.canEncode(desired) == Hardware
  {
    if ff.outputFormat == Nut then Software else hw.canEncode(desired)
  }

  /** AV1 output is only produced for the fragmented-MP4 HLS segmenter. */
  predicate Av1Rejected(ff: FFmpegState, desired: FrameState)
  {
    desired.videoFormat == Av1 && ff.outputFormat != HlsMp4
  }

  const Av1Unsupported: string := "AV1 output is only supported with HLS Segmenter (fmp4)"

  /** Bit depth of an optional pixel format, with a default for none. */
  function BitDepthOr(pf: Option<PixelFormat>, default: int): int
  {
    match pf
    case Some(p) => p.bitDepth
    case None => default
  }

  /** A pixel format re-wrapped as nv12, keeping its name (Option.Map(pf => new PixelFormatNv12(pf.Name))). */
  function Nv12Map(pf: Option<PixelFormat>): (r: Option<PixelFormat>)
    ensures r.None? <==> pf.None?
    ensures r.Some? ==> FFmpegName(r.value) == "nv12" && r.value.name == pf.value.name
  {
    match pf
    case Some(p) => Some(Nv12Of(p.name))
    case None => None
  }

  /**
   * Padding, shared by the three builders: only without a crop and when the
   * padded size still differs; the builder picks the pad step.
   */
  predicate NeedsPad(desired: FrameState, currentPadded: FrameSize)
  {
    desired.croppedSize.None? && currentPadded != desired.paddedSize
  }

  /**
   * SetPad of the NVIDIA and QSV builders, which share it: the software pad
   * filter, only without a crop and when the padded size differs.
   */
  function SoftwarePad(desired: FrameState, currentPadded: FrameSize): (r: seq<Step>)
    ensures r != [] <==> NeedsPad(desired, currentPadded)
    ensures r != [] ==> r == [PadFilter(desired.paddedSize)]
  {
    if NeedsPad(desired, currentPadded) then [PadFilter(desired.paddedSize)] else []
  }

  /** A video input file: its streams, and the options and filter steps added to it. */
  class VideoInputFile {
    const videoStreams: seq<VideoStream>
    var options: seq<InputOption>
    var filterSteps: seq<Step>

    constructor (streams: seq<VideoStream>)
      ensures videoStreams == streams && options == [] && filterSteps == []
    {
      videoStreams := streams;
      options := [];
      filterSteps := [];
    }
  }

  /** An audio input file: its desired state, its streams' channel counts, and what is added to it. */
  class AudioInputFile {
    const desiredState: AudioState
    const streamChannels: seq<int>
    var options: seq<InputOption>
    var filterSteps: seq<Step>

    constructor (desired: AudioState, channels: seq<int>)
      ensures desiredState == desired && streamChannels == channels
      ensures options == [] && filterSteps == []
    {
      desiredState := desired;
      streamChannels := channels;
      options := [];
      filterSteps := [];
    }
  }

  /** The concat input of a channel's continuous stream. */
  class ConcatInputFile {
    var options: seq<InputOption>

    constructor ()
      ensures options == []
    {
      options := [];
    }
  }
}
