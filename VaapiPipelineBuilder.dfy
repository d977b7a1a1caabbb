/**
 * The VAAPI hooks of the pipeline builder: the Intel-not-Radeon flag, which
 * side runs on VAAPI, the decoder, and the deinterlace, scale, pad and pixel
 * format decisions.
 */
module VaapiPipelineBuilder {
  import opened Common
  import opened FFmpegTypes

  /** The driver name, or the empty string when none is configured. */
  function DriverName(ff: FFmpegState): string
  {
    ff.vaapiDriver.GetOr("")
  }

  /** IsIntelVaapiOrQsv: some side runs on VAAPI and the driver is not a Radeon one. */
  predicate IsIntelVaapiOrQsv(ff: FFmpegState)
  {
    (ff.decoderMode == Vaapi || ff.encoderMode == Vaapi) && !StartsWithIgnoreCase(DriverName(ff), "radeon")
  }

  /** The name begins with "radeon", each of its six letters in either case. */
  predicate SpellsRadeon(d: string)
  {
    |d| >= 6 && forall i :: 0 <= i < 6 ==> d[i] == "radeon"[i] || d[i] == "RADEON"[i]
  }

  /**
   * Over every driver name: the builder reports Intel exactly when some side
   * runs on VAAPI and the driver (absent counting as "") is not a Radeon one.
   */
  lemma {:induction false} IntelUnlessRadeon(ff: FFmpegState)
    ensures IsIntelVaapiOrQsv(ff) <==>
              (ff.decoderMode == Vaapi || ff.encoderMode == Vaapi)
              && !(ff.vaapiDriver.Some? && SpellsRadeon(ff.vaapiDriver.value))
  {
    RadeonPrefix(DriverName(ff));
  }

  /** A name starts with "radeon" ignoring case exactly when it spells it. */
  lemma {:induction false} RadeonPrefix(d: string)
    ensures StartsWithIgnoreCase(d, "radeon") <==> SpellsRadeon(d)
  {
    var radeon := ToLower("radeon");
    assert |radeon| == 6;
    forall i | 0 <= i < 6 ensures radeon[i] == "radeon"[i] {
      assert radeon[i] == LowerChar("radeon"[i]);
    }
    assert radeon == "radeon";
    if |d| >= 6 {
      var lower := ToLower(d);
      forall i | 0 <= i < 6 ensures lower[i] == "radeon"[i] <==> d[i] == "radeon"[i] || d[i] == "RADEON"[i] {
        LowerCharIs(d[i], "radeon"[i], "RADEON"[i]);
      }
      assert lower[..6] == "radeon" <==> forall i :: 0 <= i < 6 ==> lower[i] == "radeon"[i];
    }
  }


  /** AMD Polaris cannot decode frames whose width is not a multiple of 32. */
  predicate PolarisIrregularWidth(hw: HardwareCapabilities, stream: VideoStream)
  {
    stream.frameSize.width % 32 != 0 && hw.vaapiGeneration.Some?
    && ContainsIgnoreCase(hw.vaapiGeneration.value, "polaris")
  }

  /** The decode capability after the overlay and Polaris downgrades. */
  function DecodeCapability(hw: HardwareCapabilities, stream: VideoStream, context: PipelineContext): (r: Capability)
    ensures r == Hardware <==>
              hw.canDecode(stream) == Hardware && !(context.hasSubtitleOverlay && context.hasWatermark)
              && !PolarisIrregularWidth(hw, stream)
  {
    if context.hasSubtitleOverlay && context.hasWatermark then Software
    else if PolarisIrregularWidth(hw, stream) then Software
    else hw.canDecode(stream)
  }

  /**
   * On AMD Polaris a width that is not a multiple of 32 is always decoded in
   * software; a multiple of 32 is decided as on any other card.
   */
  lemma {:induction false} PolarisWidthRule(hw: HardwareCapabilities, stream: VideoStream, context: PipelineContext)
    ensures hw.vaapiGeneration.Some? && ContainsIgnoreCase(hw.vaapiGeneration.value, "polaris")
            && stream.frameSize.width % 32 != 0
            ==> DecodeCapability(hw, stream, context) == Software
    ensures stream.frameSize.width % 32 == 0 ==>
              DecodeCapability(hw, stream, context)
              == if context.hasSubtitleOverlay && context.hasWatermark then Software else hw.canDecode(stream)
  {
  }

  /** One acceleration option per configured device, each followed by the driver variable. */
  function DeviceSteps(ff: FFmpegState, decode: Capability): (r: seq<Step>)
    ensures ff.vaapiDevice.None? ==> r == []
    ensures ff.vaapiDevice.Some? ==>
              r == [VaapiAcceleration(ff.vaapiDevice.value, decode)]
                   + StepIf(ff.vaapiDriver, (d: string) => LibvaDriverName(d))
  {
    match ff.vaapiDevice
    case Some(device) => [VaapiAcceleration(device, decode)] + StepIf(ff.vaapiDriver, (d: string) => LibvaDriverName(d))
    case None => []
  }

  /**
   * SetAccelState. AV1 outside the fragmented-MP4 segmenter is refused. A
   * subtitle overlay with a watermark, or an irregular width on Polaris,
   * decodes in software; the device option carries the decode capability;
   * a hardware encode disables auto scaling; each side runs on VAAPI exactly
   * when it can.
   */
  function SetAccelState(hw: HardwareCapabilities, stream: VideoStream, ff: FFmpegState, desired: FrameState,
                         context: PipelineContext): (r: Result<AccelOutcome>)
    ensures r.Err? <==> Av1Rejected(ff, desired)
    ensures r.Err? ==> r.error == Av1Unsupported
    ensures r.Ok? ==>
              var o := r.value;
              var decode := DecodeCapability(hw, stream, context);
              o.ff == ff.(decoderMode := o.ff.decoderMode, encoderMode := o.ff.encoderMode)
              && o.ff.decoderMode == ModeFor(decode, Vaapi)
              && (o.ff.encoderMode == Vaapi <==> ff.outputFormat != Nut && hw.canEncode(desired) == Hardware)
              && (o.ff.encoderMode != Vaapi ==> o.ff.encoderMode == NoAcceleration)
              && o.steps == DeviceSteps(ff, decode) + (if o.ff.encoderMode == Vaapi then [NoAutoScale] else [])
  {
    var encode := EncodeCapability(hw, ff, desired);
    if Av1Rejected(ff, desired) then Err(Av1Unsupported)
    else
      var decode := DecodeCapability(hw, stream, context);
      var steps := DeviceSteps(ff, decode) + (if encode == Hardware then [NoAutoScale] else []);
      Ok(AccelOutcome(ff.(decoderMode := ModeFor(decode, Vaapi), encoderMode := ModeFor(encode, Vaapi)), steps))
  }

  /** Without a configured device no acceleration option and no driver variable is added. */
  lemma {:induction false} NoDeviceNoAccelOption(hw: HardwareCapabilities, stream: VideoStream, ff: FFmpegState,
                              desired: FrameState, context: PipelineContext)
    requires ff.vaapiDevice.None?
    ensures var r := SetAccelState(hw, stream, ff, desired, context);
            r.Ok? ==> forall t | t in r.value.steps :: t == NoAutoScale
  {
  }

  /** SetDecoder: the VAAPI decoder for a hardware decode, ffmpeg's software decoder otherwise. */
  function SetDecoder(caps: FFmpegCapabilities, stream: VideoStream, ff: FFmpegState): (r: DecoderOutcome)
    ensures r.filters == []
    ensures ff.decoderMode == Vaapi <==> r.decoder == Some(VaapiDecoder)
    ensures ff.decoderMode != Vaapi ==> r.decoder == SoftwareDecoderFor(caps, stream.codec)
  {
    if ff.decoderMode == Vaapi then DecoderOutcome(Some(VaapiDecoder), [])
    else DecoderOutcome(SoftwareDecoderFor(caps, stream.codec), [])
  }

  /** Any overlay is easier in nv12: the desired format becomes nv12, keeping its (or the default's) name. */
  function OverlayDesiredState(context: PipelineContext, hasGraphicsEngine: bool, desired: FrameState): (r: FrameState)
    ensures !(context.hasSubtitleOverlay || context.hasWatermark || hasGraphicsEngine) ==> r == desired
    ensures (context.hasSubtitleOverlay || context.hasWatermark || hasGraphicsEngine) ==>
              r == desired.(pixelFormat := r.pixelFormat) && r.pixelFormat.Some?
              && FFmpegName(r.pixelFormat.value) == "nv12"
              && r.pixelFormat.value.name ==
                   (if desired.pixelFormat.Some? then desired.pixelFormat.value.name
                    else if context.is10BitOutput then "yuv420p10le" else "yuv420p")
  {
    if context.hasSubtitleOverlay || context.hasWatermark || hasGraphicsEngine then
      var pf := desired.pixelFormat.GetOr(if context.is10BitOutput then Yuv420P10Le else Yuv420P);
      desired.(pixelFormat := Some(Nv12Of(pf.name)))
    else desired
  }

  /** SetDeinterlace: deinterlace_vaapi after a VAAPI decode, yadif otherwise. */
  function SetDeinterlace(context: PipelineContext, ff: FFmpegState): (r: seq<Step>)
    ensures !context.shouldDeinterlace <==> r == []
    ensures context.shouldDeinterlace ==> r == [if ff.decoderMode == Vaapi then DeinterlaceVaapi else Yadif]
  {
    if !context.shouldDeinterlace then []
    else if ff.decoderMode == Vaapi then [DeinterlaceVaapi]
    else [Yadif]
  }

  /**
   * The scale step: software when a size change needs no hardware at all, or
   * when the frames were not decoded by VAAPI; scale_vaapi otherwise.
   */
  function ScaleStep(context: PipelineContext, ff: FFmpegState, desired: FrameState, currentScaled: FrameSize): (r: Step)
    ensures (r.ScaleFilter? && r.scaleTo == desired.scaledSize) || (r.ScaleVaapi? && r.vaapiScaleTo == desired.scaledSize)
  {
    if (currentScaled != desired.scaledSize && ff.decoderMode == NoAcceleration && ff.encoderMode == NoAcceleration
        && !context.hasWatermark && !context.hasSubtitleOverlay && !context.shouldDeinterlace)
       || ff.decoderMode != Vaapi
    then ScaleFilter(desired.scaledSize)
    else ScaleVaapi(desired.scaledSize,
                    if ff.decoderMode == Nvenc && ff.encoderMode == NoAcceleration
                    then Nv12Map(desired.pixelFormat) else None)
  }

  /** SetScale: the scale step, dropped when its filter text comes out empty. */
  function SetScale(context: PipelineContext, ff: FFmpegState, desired: FrameState, currentScaled: FrameSize,
                    filterIsEmpty: Step -> bool): (r: seq<Step>)
    ensures |r| <= 1
    ensures r != [] <==> !filterIsEmpty(ScaleStep(context, ff, desired, currentScaled))
    ensures r != [] ==> r[0] == ScaleStep(context, ff, desired, currentScaled)
  {
    var step := ScaleStep(context, ff, desired, currentScaled);
    if filterIsEmpty(step) then [] else [step]
  }

  /**
   * Frames not decoded by VAAPI are always scaled in software; after a VAAPI
   * decode scale_vaapi is used and never given a pixel format, since the
   * nv12 case applies to an NVIDIA decode only.
   */
  lemma {:induction false} ScaleFollowsDecoder(context: PipelineContext, ff: FFmpegState, desired: FrameState, currentScaled: FrameSize)
    ensures var step := ScaleStep(context, ff, desired, currentScaled);
            (step.ScaleFilter? <==> ff.decoderMode != Vaapi)
            && (step.ScaleVaapi? ==> step.vaapiScaleFormat.None?)
  {
  }

  /** SetPad: the software pad for a software pad mode or HDR input, pad_vaapi otherwise. */
  function SetPad(desired: FrameState, currentPadded: FrameSize, isHdrTonemap: bool): (r: seq<Step>)
    ensures r != [] <==> NeedsPad(desired, currentPadded)
    ensures r != [] ==>
              r == [if desired.padMode == SoftwareFilter || isHdrTonemap
                    then PadFilter(desired.paddedSize) else PadVaapi(desired.paddedSize)]
  {
    if !NeedsPad(desired, currentPadded) then []
    else if desired.padMode == SoftwareFilter || isHdrTonemap then [PadFilter(desired.paddedSize)]
    else [PadVaapi(desired.paddedSize)]
  }

  /** What SetPixelFormat adds: filter steps to the pixel-format chain and output options to the pipeline. */
  datatype PixelFormatOutcome = PixelFormatOutcome(filters: seq<Step>, outputs: seq<Step>)

  /** An nv12 target is resolved to the available format of its name (AvailablePixelFormats.ForPixelFormat). */
  function ResolveFormat(available: string -> Option<PixelFormat>, pf: PixelFormat): (r: PixelFormat)
    ensures r == pf || (pf.kind == Nv12 && available(pf.name) == Some(r))
    ensures pf.kind != Nv12 || available(pf.name).None? ==> r == pf
  {
    if pf.kind == Nv12 && available(pf.name).Some? then available(pf.name).value else pf
  }

  /** NV12 is 8-bit and Intel VAAPI requires it, while Nut is fine with yuv420p. */
  function Nv12Rule(format: PixelFormat, ff: FFmpegState): (r: PixelFormat)
    ensures format.kind == Yuv420p && ff.outputFormat != Nut ==> FFmpegName(r) == "nv12" && r.name == format.name
    ensures !(format.kind == Yuv420p && ff.outputFormat != Nut) ==> r == format
  {
    if format.kind == Yuv420p && ff.outputFormat != Nut then Nv12Of(format.name) else format
  }

  /** A step that sets the pixel format inside the filter chain. */
  predicate IsFormatFilter(t: Step)
  {
    t.VaapiFormat? || t.PixelFormatFilter?
  }

  /**
   * The format conversion of SetPixelFormat, once the current frame state is
   * known (after the colorspace filter and any download): when the current
   * format differs from the target, hardware frames get vaapi's format filter,
   * software frames a format filter when VAAPI encodes and an output option
   * otherwise; a VAAPI encode of software frames ends with an upload that sets
   * the format only when no conversion step did.
   */
  function SetPixelFormat(available: string -> Option<PixelFormat>, desiredFormat: Option<PixelFormat>,
                          currentFormat: Option<PixelFormat>, location: FrameDataLocation,
                          ff: FFmpegState): (r: PixelFormatOutcome)
    ensures desiredFormat.None? ==> r == PixelFormatOutcome([], [])
  {
    match desiredFormat
    case None => PixelFormatOutcome([], [])
    case Some(pf) =>
      var format := ResolveFormat(available, pf);
      var converted := Nv12Rule(format, ff);
      var conversion :=
        if currentFormat.Some? && FFmpegName(currentFormat.value) == FFmpegName(format) then PixelFormatOutcome([], [])
        else if location == InHardware then PixelFormatOutcome([VaapiFormat(converted)], [])
        else if ff.encoderMode == Vaapi then PixelFormatOutcome([PixelFormatFilter(converted)], [])
        else PixelFormatOutcome([], [PixelFormatOutput(converted)]);
      if ff.encoderMode == Vaapi && location == InSoftware then
        PixelFormatOutcome(conversion.filters + [HardwareUploadVaapi(conversion.filters == [])], conversion.outputs)
      else conversion
  }

  /**
   * For a yuv420p target outside Nut, whichever step carries the converted
   * format carries nv12; the upload sets the format exactly when no format
   * filter precedes it; at most one step converts.
   */
  lemma {:induction false} PixelFormatNv12AndUpload(available: string -> Option<PixelFormat>, pf: PixelFormat,
                                 currentFormat: Option<PixelFormat>, location: FrameDataLocation,
                                 ff: FFmpegState)
    requires ResolveFormat(available, pf).kind == Yuv420p && ff.outputFormat != Nut
    ensures var r := SetPixelFormat(available, Some(pf), currentFormat, location, ff);
            (forall t | t in r.filters && IsFormatFilter(t) ::
               (t.VaapiFormat? && FFmpegName(t.vaapiFormat) == "nv12")
               || (t.PixelFormatFilter? && FFmpegName(t.filterFormat) == "nv12"))
            && (forall t | t in r.outputs :: t.PixelFormatOutput? && FFmpegName(t.pixelFormat) == "nv12")
            && (forall i | 0 <= i < |r.filters| && r.filters[i].HardwareUploadVaapi? ::
                  r.filters[i].setFormat <==> forall t | t in r.filters :: !IsFormatFilter(t))
            && |r.outputs| + |r.filters| <= 2
  {
    var format := ResolveFormat(available, pf);
    assert FFmpegName(Nv12Rule(format, ff)) == "nv12";
    var r := SetPixelFormat(available, Some(pf), currentFormat, location, ff);
    if ff.encoderMode == Vaapi && location == InSoftware {
      var matches := currentFormat.Some? && FFmpegName(currentFormat.value) == FFmpegName(format);
      var conversion := if matches then [] else [PixelFormatFilter(Nv12Rule(format, ff))];
      assert r.filters == conversion + [HardwareUploadVaapi(conversion == [])];
      forall i | 0 <= i < |r.filters| && r.filters[i].HardwareUploadVaapi?
        ensures r.filters[i].setFormat <==> forall t | t in r.filters :: !IsFormatFilter(t)
      {
        assert i == |r.filters| - 1;
        if conversion != [] {
          assert IsFormatFilter(r.filters[0]);
        }
      }
    }
  }

  /** A target already matching the current format adds no conversion, only the upload a VAAPI encode needs. */
  lemma {:induction false} PixelFormatMatchingNoConversion(available: string -> Option<PixelFormat>, pf: PixelFormat,
                                        current: PixelFormat, location: FrameDataLocation, ff: FFmpegState)
    requires FFmpegName(current) == FFmpegName(ResolveFormat(available, pf))
    ensures var r := SetPixelFormat(available, Some(pf), Some(current), location, ff);
            r.outputs == []
            && r.filters == (if ff.encoderMode == Vaapi && location == InSoftware then [HardwareUploadVaapi(true)] else [])
  {
  }
  /**
   * A target whose ffmpeg name differs from the current format's (or with no
   * current format) gets exactly one conversion step carrying the target
   * after the nv12 rule: vaapi's format filter for hardware frames, a format
   * filter when VAAPI encodes other frames, and an output option otherwise;
   * a VAAPI encode of software frames then uploads without setting the
   * format. Nut outputs and targets other than yuv420p are carried unchanged.
   */
  lemma {:induction false} PixelFormatDifferingConverts(available: string -> Option<PixelFormat>, pf: PixelFormat,
                                                        currentFormat: Option<PixelFormat>,
                                                        location: FrameDataLocation, ff: FFmpegState)
    requires currentFormat.None? || FFmpegName(currentFormat.value) != FFmpegName(ResolveFormat(available, pf))
    ensures var format := ResolveFormat(available, pf);
            var c := Nv12Rule(format, ff);
            var r := SetPixelFormat(available, Some(pf), currentFormat, location, ff);
            (location == InHardware ==> r.filters == [VaapiFormat(c)] && r.outputs == [])
            && (location != InHardware && ff.encoderMode == Vaapi ==>
                  r.filters == [PixelFormatFilter(c)] + (if location == InSoftware then [HardwareUploadVaapi(false)] else [])
                  && r.outputs == [])
            && (location != InHardware && ff.encoderMode != Vaapi ==> r.filters == [] && r.outputs == [PixelFormatOutput(c)])
            && (format.kind != Yuv420p || ff.outputFormat == Nut ==> c == format)
  {
  }
}
