/**
 * The NVIDIA hooks of the pipeline builder: which side of the transcode runs
 * on CUDA/NVENC, the decoder it picks, and the deinterlace, scale and pad
 * filters it chooses.
 */
module NvidiaPipelineBuilder {
  import opened Common
  import opened FFmpegTypes

  /** Decoding mpeg2 while deinterlacing stays in software; otherwise the hardware answers. */
  function DecodeCapability(hw: HardwareCapabilities, stream: VideoStream, context: PipelineContext): (r: Capability)
    ensures r == Hardware <==>
              hw.canDecode(stream) == Hardware && !(context.shouldDeinterlace && stream.codec == Mpeg2Video)
  {
    if context.shouldDeinterlace && stream.codec == Mpeg2Video then Software else hw.canDecode(stream)
  }

  /**
   * SetAccelState. AV1 outside the fragmented-MP4 segmenter is refused. Each
   * side runs on NVENC exactly when it can, HDR tonemapping needs a hardware
   * decode, Vulkan, an HDR stream and an unset ETV_DISABLE_VULKAN, and a
   * hardware decode adds the CUDA option and disables auto scaling.
   */
  function SetAccelState(hw: HardwareCapabilities, caps: FFmpegCapabilities, disableVulkan: Option<string>,
                         stream: VideoStream, ff: FFmpegState, desired: FrameState,
                         context: PipelineContext): (r: Result<AccelOutcome>)
    ensures r.Err? <==> Av1Rejected(ff, desired)
    ensures r.Err? ==> r.error == Av1Unsupported
    ensures r.Ok? ==>
              var o := r.value;
              o.ff == ff.(decoderMode := o.ff.decoderMode, encoderMode := o.ff.encoderMode,
                          isHdrTonemap := o.ff.isHdrTonemap)
              && (o.ff.decoderMode == Nvenc <==>
                    hw.canDecode(stream) == Hardware && !(context.shouldDeinterlace && stream.codec == Mpeg2Video))
              && (o.ff.decoderMode != Nvenc ==> o.ff.decoderMode == NoAcceleration)
              && (o.ff.encoderMode == Nvenc <==> ff.outputFormat != Nut && hw.canEncode(desired) == Hardware)
              && (o.ff.encoderMode != Nvenc ==> o.ff.encoderMode == NoAcceleration)
              && (o.ff.isHdrTonemap <==>
                    o.ff.decoderMode == Nvenc && caps.hasVulkan && stream.isHdr && IsBlankOpt(disableVulkan))
              && o.steps == (if o.ff.decoderMode == Nvenc then [CudaAcceleration(o.ff.isHdrTonemap), NoAutoScale] else [])
  {
    var encode := EncodeCapability(hw, ff, desired);
    if Av1Rejected(ff, desired) then Err(Av1Unsupported)
    else
      var decode := DecodeCapability(hw, stream, context);
      var tonemap := decode == Hardware && caps.hasVulkan && stream.isHdr && IsBlankOpt(disableVulkan);
      var steps := if decode == Hardware then [CudaAcceleration(tonemap), NoAutoScale] else [];
      Ok(AccelOutcome(ff.(decoderMode := ModeFor(decode, Nvenc), encoderMode := ModeFor(encode, Nvenc),
                          isHdrTonemap := tonemap), steps))
  }

  /** The modes the caller asked for play no part in what SetAccelState decides. */
  lemma {:induction false} AccelStateIgnoresRequestedModes(hw: HardwareCapabilities, caps: FFmpegCapabilities,
                                        disableVulkan: Option<string>, stream: VideoStream,
                                        ff: FFmpegState, desired: FrameState, context: PipelineContext,
                                        decoderMode: AccelMode, encoderMode: AccelMode)
    ensures var a := SetAccelState(hw, caps, disableVulkan, stream, ff, desired, context);
            var b := SetAccelState(hw, caps, disableVulkan, stream,
                                   ff.(decoderMode := decoderMode, encoderMode := encoderMode), desired, context);
            a.Ok? == b.Ok?
            && (a.Ok? ==> a.value.steps == b.value.steps
                          && a.value.ff.decoderMode == b.value.ff.decoderMode
                          && a.value.ff.encoderMode == b.value.ff.encoderMode
                          && a.value.ff.isHdrTonemap == b.value.ff.isHdrTonemap)
  {
  }

  /**
   * SetDecoder: the implicit Vulkan decoder for HDR tonemapping, the implicit
   * CUDA decoder (with the software-fallback upload) for a hardware decode,
   * ffmpeg's software decoder otherwise.
   */
  function SetDecoder(caps: FFmpegCapabilities, stream: VideoStream, ff: FFmpegState): (r: DecoderOutcome)
    ensures ff.isHdrTonemap ==> r == DecoderOutcome(Some(ImplicitVulkanDecoder), [])
    ensures !ff.isHdrTonemap && ff.decoderMode == Nvenc ==>
              r == DecoderOutcome(Some(ImplicitCudaDecoder), [CudaSoftwareFallbackUpload])
    ensures !ff.isHdrTonemap && ff.decoderMode != Nvenc ==>
              r == DecoderOutcome(SoftwareDecoderFor(caps, stream.codec), [])
  {
    if ff.isHdrTonemap then DecoderOutcome(Some(ImplicitVulkanDecoder), [])
    else if ff.decoderMode == Nvenc then DecoderOutcome(Some(ImplicitCudaDecoder), [CudaSoftwareFallbackUpload])
    else DecoderOutcome(SoftwareDecoderFor(caps, stream.codec), [])
  }

  /** The fallback upload filter is added exactly when the CUDA decoder is. */
  lemma {:induction false} FallbackUploadOnlyWithCuda(caps: FFmpegCapabilities, stream: VideoStream, ff: FFmpegState)
    ensures var d := SetDecoder(caps, stream, ff);
            (d.filters != [] <==> d.decoder == Some(ImplicitCudaDecoder))
            && (d.decoder == Some(ImplicitCudaDecoder) ==> ff.decoderMode == Nvenc)
  {
  }

  /** SetDeinterlace: yadif on software frames, yadif_cuda on hardware frames. */
  function SetDeinterlace(context: PipelineContext, location: FrameDataLocation): (r: seq<Step>)
    ensures !context.shouldDeinterlace <==> r == []
    ensures context.shouldDeinterlace ==> r == [if location == InSoftware then Yadif else YadifCuda]
  {
    if !context.shouldDeinterlace then []
    else if location == InSoftware then [Yadif]
    else [YadifCuda]
  }

  /** The pixel format the CUDA scaler is asked for: nv12 for overlays and friends on 8-bit SDR output. */
  function CudaScaleFormat(context: PipelineContext, hasGraphicsEngine: bool, isHdr: bool,
                           ff: FFmpegState, desired: FrameState): (r: Option<PixelFormat>)
    ensures r.None? || r == Nv12Map(desired.pixelFormat)
    ensures isHdr || context.is10BitOutput ==> r.None?
    ensures !isHdr && !context.is10BitOutput && (context.hasWatermark || context.hasSubtitleOverlay) ==>
              r == Nv12Map(desired.pixelFormat)
  {
    if !isHdr && !context.is10BitOutput
       && (context.hasWatermark || hasGraphicsEngine || context.hasSubtitleOverlay || context.shouldDeinterlace
           || desired.scaledSize != desired.paddedSize || context.hasSubtitleText
           || (ff.decoderMode == Nvenc && ff.encoderMode == NoAcceleration))
    then Nv12Map(desired.pixelFormat)
    else None
  }

  /**
   * SetScale. Nothing when the scaled size already matches. Software frames
   * are scaled in software when they also need padding, or when no hardware
   * filter or encoder follows; everything else goes through scale_cuda. A
   * step whose filter text comes out empty is dropped.
   */
  function SetScale(context: PipelineContext, hasGraphicsEngine: bool, isHdr: bool, ff: FFmpegState,
                    desired: FrameState, currentScaled: FrameSize, currentPadded: FrameSize,
                    filterIsEmpty: Step -> bool): (r: seq<Step>)
    ensures currentScaled == desired.scaledSize ==> r == []
    ensures |r| <= 1
    ensures r != [] ==> !filterIsEmpty(r[0])
    ensures r != [] ==>
              (r[0] == ScaleFilter(desired.scaledSize) <==>
                 ff.decoderMode == NoAcceleration
                 && (currentPadded != desired.paddedSize
                     || (!hasGraphicsEngine && !context.hasWatermark && !context.hasSubtitleOverlay
                         && !context.shouldDeinterlace && ff.encoderMode == NoAcceleration)))
    ensures r != [] && !r[0].ScaleFilter? ==>
              r[0] == ScaleCuda(desired.scaledSize, CudaScaleFormat(context, hasGraphicsEngine, isHdr, ff, desired))
  {
    if currentScaled == desired.scaledSize then []
    else
      var decodedToSoftware := ff.decoderMode == NoAcceleration;
      var softwareEncoder := ff.encoderMode == NoAcceleration;
      var noHardwareFilters := !hasGraphicsEngine && !context.hasWatermark && !context.hasSubtitleOverlay
                               && !context.shouldDeinterlace;
      var needsToPad := currentPadded != desired.paddedSize;
      var step := if decodedToSoftware && (needsToPad || (noHardwareFilters && softwareEncoder))
                  then ScaleFilter(desired.scaledSize)
                  else ScaleCuda(desired.scaledSize, CudaScaleFormat(context, hasGraphicsEngine, isHdr, ff, desired));
      if filterIsEmpty(step) then [] else [step]
  }

  /** A stream decoded on the GPU is never scaled in software. */
  lemma {:induction false} HardwareDecodeScalesOnGpu(context: PipelineContext, hasGraphicsEngine: bool, isHdr: bool,
                                  ff: FFmpegState, desired: FrameState, currentScaled: FrameSize,
                                  currentPadded: FrameSize, filterIsEmpty: Step -> bool)
    requires ff.decoderMode == Nvenc
    ensures forall t | t in SetScale(context, hasGraphicsEngine, isHdr, ff, desired, currentScaled,
                                     currentPadded, filterIsEmpty) :: t.ScaleCuda?
  {
  }
}
