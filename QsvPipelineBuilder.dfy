/**
 * The Intel QuickSync hooks of the pipeline builder: the Intel flag, which
 * side runs on QSV, the decoder per codec, the overlay pixel format, the
 * deinterlace, scale and pad filters, and the explicit pixel format fed to
 * the concat segmenter.
 */
module QsvPipelineBuilder {
  import opened Common
  import opened FFmpegTypes

  /** IsIntelVaapiOrQsv: some side runs on QSV. */
  predicate IsIntelVaapiOrQsv(ff: FFmpegState)
  {
    ff.decoderMode == Qsv || ff.encoderMode == Qsv
  }

  /** The 10-bit HEVC and H.264 QSV decoders misbehave, so those decode in software. */
  function DecodeCapability(hw: HardwareCapabilities, stream: VideoStream): (r: Capability)
    ensures r == Hardware <==>
              hw.canDecode(stream) == Hardware
              && !((stream.codec == Hevc || stream.codec == H264) && BitDepthOr(stream.pixelFormat, 8) == 10)
  {
    var decode := hw.canDecode(stream);
    if decode == Hardware && (stream.codec == Hevc || stream.codec == H264) && BitDepthOr(stream.pixelFormat, 8) == 10
    then Software else decode
  }

  /**
   * SetAccelState: the QSV option is always added, with the configured device;
   * each side runs on QSV exactly when it can, after the Nut and 10-bit
   * downgrades. QSV accepts AV1 output.
   */
  function SetAccelState(hw: HardwareCapabilities, stream: VideoStream, ff: FFmpegState,
                         desired: FrameState): (r: AccelOutcome)
    ensures r.ff == ff.(decoderMode := r.ff.decoderMode, encoderMode := r.ff.encoderMode)
    ensures r.steps == [QsvAcceleration(ff.vaapiDevice)]
    ensures r.ff.decoderMode == ModeFor(DecodeCapability(hw, stream), Qsv)
    ensures r.ff.encoderMode == Qsv <==> ff.outputFormat != Nut && hw.canEncode(desired) == Hardware
    ensures r.ff.encoderMode != Qsv ==> r.ff.encoderMode == NoAcceleration
  {
    var encode := EncodeCapability(hw, ff, desired);
    var decode := DecodeCapability(hw, stream);
    AccelOutcome(ff.(decoderMode := ModeFor(decode, Qsv), encoderMode := ModeFor(encode, Qsv)),
                 [QsvAcceleration(ff.vaapiDevice)])
  }

  /** A 10-bit HEVC or H.264 stream never decodes on QSV, whatever the hardware says. */
  lemma {:induction false} TenBitHevcDecodesInSoftware(hw: HardwareCapabilities, stream: VideoStream, ff: FFmpegState,
                                    desired: FrameState)
    requires stream.codec == Hevc || stream.codec == H264
    requires stream.pixelFormat.Some? && stream.pixelFormat.value.bitDepth == 10
    ensures SetAccelState(hw, stream, ff, desired).ff.decoderMode == NoAcceleration
  {
  }

  /** The codecs QSV has a decoder for. */
  predicate HasQsvDecoder(codec: VideoFormat)
  {
    codec == Hevc || codec == H264 || codec == Mpeg2Video || codec == Vc1 || codec == Vp9 || codec == Av1
  }

  /** SetDecoder: the QSV decoder of the codec for a QSV decode, ffmpeg's software decoder otherwise. */
  function SetDecoder(caps: FFmpegCapabilities, stream: VideoStream, ff: FFmpegState): (r: DecoderOutcome)
    ensures r.filters == []
    ensures ff.decoderMode == Qsv && HasQsvDecoder(stream.codec) ==> r.decoder == Some(Decoder(Qsv, stream.codec))
    ensures !(ff.decoderMode == Qsv && HasQsvDecoder(stream.codec)) ==>
              r.decoder == SoftwareDecoderFor(caps, stream.codec)
  {
    if ff.decoderMode == Qsv && HasQsvDecoder(stream.codec) then DecoderOutcome(Some(Decoder(Qsv, stream.codec)), [])
    else DecoderOutcome(SoftwareDecoderFor(caps, stream.codec), [])
  }

  /** Every decoder the QSV builder picks decodes the stream's own codec. */
  lemma {:induction false} DecoderMatchesCodec(caps: FFmpegCapabilities, stream: VideoStream, ff: FFmpegState)
    ensures var d := SetDecoder(caps, stream, ff).decoder;
            d.None? || d == Some(Decoder(Qsv, stream.codec)) || d == Some(SoftwareDecoder(stream.codec))
  {
  }

  /** Overlays want nv12 for 8-bit output and keep the 10-bit format otherwise. */
  function OverlayDesiredState(context: PipelineContext, desired: FrameState): (r: FrameState)
    ensures !(context.hasSubtitleOverlay || context.hasWatermark) ==> r == desired
    ensures (context.hasSubtitleOverlay || context.hasWatermark) ==>
              r == desired.(pixelFormat := r.pixelFormat) && r.pixelFormat.Some?
              && (context.is10BitOutput ==> r.pixelFormat == Some(desired.pixelFormat.GetOr(Yuv420P10Le)))
              && (!context.is10BitOutput ==>
                    FFmpegName(r.pixelFormat.value) == "nv12"
                    && r.pixelFormat.value.name == desired.pixelFormat.GetOr(Yuv420P).name)
  {
    if context.hasSubtitleOverlay || context.hasWatermark then
      var pf := desired.pixelFormat.GetOr(if context.is10BitOutput then Yuv420P10Le else Yuv420P);
      desired.(pixelFormat := Some(if context.is10BitOutput then pf else Nv12Of(pf.name)))
    else desired
  }

  /** SetDeinterlace: always vpp_qsv's deinterlacer. */
  function SetDeinterlace(context: PipelineContext): (r: seq<Step>)
    ensures r == (if context.shouldDeinterlace then [DeinterlaceQsv] else [])
  {
    if context.shouldDeinterlace then [DeinterlaceQsv] else []
  }

  /**
   * Software scaling is used when nothing runs on the GPU and no overlay or
   * deinterlace needs it, and also for 10-bit software decodes on Windows,
   * where auto scaling corrupts them.
   */
  predicate UseSoftwareScale(context: PipelineContext, ff: FFmpegState, currentBitDepth: int, isWindows: bool)
    ensures UseSoftwareScale(context, ff, currentBitDepth, isWindows) ==> ff.decoderMode == NoAcceleration
    ensures ff.decoderMode == NoAcceleration && isWindows && currentBitDepth == 10 ==>
              UseSoftwareScale(context, ff, currentBitDepth, isWindows)
  {
    (ff.decoderMode == NoAcceleration && ff.encoderMode == NoAcceleration
     && !context.hasWatermark && !context.hasSubtitleOverlay && !context.shouldDeinterlace)
    || (ff.decoderMode == NoAcceleration && isWindows && currentBitDepth == 10)
  }

  /** The scale step: software scale for a size change under the rule above, scale_qsv otherwise. */
  function ScaleStep(context: PipelineContext, ff: FFmpegState, desired: FrameState, currentScaled: FrameSize,
                     currentBitDepth: int, isWindows: bool): (r: Step)
    ensures (r.ScaleFilter? && r.scaleTo == desired.scaledSize) || (r.ScaleQsv? && r.qsvScaleTo == desired.scaledSize)
  {
    if currentScaled != desired.scaledSize && UseSoftwareScale(context, ff, currentBitDepth, isWindows)
    then ScaleFilter(desired.scaledSize)
    else ScaleQsv(desired.scaledSize,
                  if ff.decoderMode == Nvenc && ff.encoderMode == NoAcceleration
                  then Nv12Map(desired.pixelFormat) else None)
  }

  /** SetScale: the scale step, dropped when its filter text comes out empty. */
  function SetScale(context: PipelineContext, ff: FFmpegState, desired: FrameState, currentScaled: FrameSize,
                    currentBitDepth: int, isWindows: bool, filterIsEmpty: Step -> bool): (r: seq<Step>)
    ensures |r| <= 1
    ensures r != [] <==> !filterIsEmpty(ScaleStep(context, ff, desired, currentScaled, currentBitDepth, isWindows))
    ensures r != [] ==> r[0] == ScaleStep(context, ff, desired, currentScaled, currentBitDepth, isWindows)
  {
    var step := ScaleStep(context, ff, desired, currentScaled, currentBitDepth, isWindows);
    if filterIsEmpty(step) then [] else [step]
  }

  /**
   * A software scale is chosen exactly for a size change under the software
   * rule, and a GPU decode is always scaled by vpp_qsv; with the modes this
   * builder sets (QSV or none) scale_qsv is never given a pixel format.
   */
  lemma {:induction false} ScaleChoice(context: PipelineContext, ff: FFmpegState, desired: FrameState, currentScaled: FrameSize,
                    currentBitDepth: int, isWindows: bool)
    requires ff.decoderMode == Qsv || ff.decoderMode == NoAcceleration
    ensures var step := ScaleStep(context, ff, desired, currentScaled, currentBitDepth, isWindows);
            (step.ScaleFilter? <==>
               currentScaled != desired.scaledSize && UseSoftwareScale(context, ff, currentBitDepth, isWindows))
            && (ff.decoderMode == Qsv ==> step.ScaleQsv?)
            && (step.ScaleQsv? ==> step.qsvScaleFormat.None?)
  {
  }

  /** The steps with their first pixel-format output option removed (List.Find then Remove). */
  function RemoveFirstPixelFormatOutput(steps: seq<Step>): (r: seq<Step>)
    ensures (forall t | t in steps :: !t.PixelFormatOutput?) ==> r == steps
    ensures (exists t | t in steps :: t.PixelFormatOutput?) ==> |r| == |steps| - 1
    decreases steps
  {
    if steps == [] then []
    else if steps[0].PixelFormatOutput? then steps[1..]
    else [steps[0]] + RemoveFirstPixelFormatOutput(steps[1..])
  }

  /** How many pixel-format output options the steps hold. */
  function PixelFormatOutputs(steps: seq<Step>): nat
  {
    if steps == [] then 0
    else (if steps[0].PixelFormatOutput? then 1 else 0) + PixelFormatOutputs(steps[1..])
  }

  /** Removing the first one leaves one fewer, or none when there was none. */
  lemma {:induction false} RemoveFirstCount(steps: seq<Step>)
    ensures PixelFormatOutputs(RemoveFirstPixelFormatOutput(steps)) ==
              if PixelFormatOutputs(steps) == 0 then 0 else PixelFormatOutputs(steps) - 1
  {
    if steps != [] && !steps[0].PixelFormatOutput? {
      RemoveFirstCount(steps[1..]);
      assert RemoveFirstPixelFormatOutput(steps) == [steps[0]] + RemoveFirstPixelFormatOutput(steps[1..]);
      assert ([steps[0]] + RemoveFirstPixelFormatOutput(steps[1..]))[1..] == RemoveFirstPixelFormatOutput(steps[1..]);
    }
  }

  lemma {:induction false} PixelFormatOutputsAppend(a: seq<Step>, b: seq<Step>)
    ensures PixelFormatOutputs(a + b) == PixelFormatOutputs(a) + PixelFormatOutputs(b)
  {
    if a == [] {
      assert a + b == b;
    } else {
      assert (a + b)[0] == a[0];
      assert (a + b)[1..] == a[1..] + b;
      PixelFormatOutputsAppend(a[1..], b);
    }
  }

  /**
   * The pipeline steps of SetPixelFormat for one target format: an output
   * option when the current format differs, and for Nut the first pixel
   * format option is replaced by one at the end, so the concat segmenter is
   * always told the format.
   */
  function PixelFormatSteps(steps: seq<Step>, format: PixelFormat, currentName: Option<string>,
                            ff: FFmpegState): (r: seq<Step>)
    ensures ff.outputFormat != Nut ==>
              r == steps + (if currentName == Some(FFmpegName(format)) then [] else [PixelFormatOutput(format)])
  {
    var steps1 := if currentName == Some(FFmpegName(format)) then steps else steps + [PixelFormatOutput(format)];
    if ff.outputFormat == Nut then RemoveFirstPixelFormatOutput(steps1) + [PixelFormatOutput(format)] else steps1
  }

  /**
   * For Nut output, starting from steps without a pixel-format option, the
   * result holds exactly one, the target format, as its last step.
   */
  lemma {:induction false} NutPixelFormatExactlyOnce(steps: seq<Step>, format: PixelFormat, currentName: Option<string>,
                                  ff: FFmpegState)
    requires ff.outputFormat == Nut
    requires PixelFormatOutputs(steps) == 0
    ensures var r := PixelFormatSteps(steps, format, currentName, ff);
            |r| > 0 && r[|r| - 1] == PixelFormatOutput(format) && PixelFormatOutputs(r) == 1
  {
    var steps1 := if currentName == Some(FFmpegName(format)) then steps else steps + [PixelFormatOutput(format)];
    PixelFormatOutputsAppend(steps, [PixelFormatOutput(format)]);
    assert PixelFormatOutputs([PixelFormatOutput(format)]) == 1;
    RemoveFirstCount(steps1);
    PixelFormatOutputsAppend(RemoveFirstPixelFormatOutput(steps1), [PixelFormatOutput(format)]);
  }
}
