/**
 * The decisions GetPlayoutItemProcessByChannelNumberHandler makes before it
 * asks FFmpeg for a process: how long the process may run (the work-ahead and
 * troubleshooting clamp), how long an error screen is shown, where dead-air
 * fallback filler comes from and how the fallback playout item is timed, and
 * which subtitles are offered. The database queries, the deco selector, the
 * collection lookup and the random choice are parameters.
 */
module StreamingProcess {
  import opened Common
  import opened PlayoutTypes

  /** The flags of a process request that the clamp reads. */
  datatype ProcessRequest = ProcessRequest(startAtZero: bool, hlsRealtime: bool, isTroubleshooting: bool)

  /** The located playout item's instants and in/out points, in ticks. */
  datatype ItemWindow = ItemWindow(start: int, finish: int, inPoint: int, outPoint: int)

  /** What the process model reports: how long it runs, until when, and whether it plays the item to its end. */
  datatype ProcessWindow = ProcessWindow(
    duration: int,
    finish: int,
    outPoint: int,
    isComplete: bool,
    effectiveNow: int)

  /** Working ahead is limited to 44 seconds, a multiple of the segment length. */
  const WorkAheadLimit: int := 44 * TicksPerSecond

  /** A troubleshooting process is limited to 30 seconds. */
  const TroubleshootingLimit: int := 30 * TicksPerSecond

  /**
   * The limit a request imposes; zero means none. Troubleshooting wins over
   * working ahead, and only a realtime request that is not troubleshooting
   * runs unlimited.
   */
  function Limit(req: ProcessRequest): (r: int)
    ensures r >= 0
    ensures r == 0 <==> req.hlsRealtime && !req.isTroubleshooting
    ensures req.isTroubleshooting ==> r == TroubleshootingLimit
    ensures !req.isTroubleshooting && !req.hlsRealtime ==> r == WorkAheadLimit
    ensures r <= WorkAheadLimit
  {
    if req.isTroubleshooting then TroubleshootingLimit
    else if !req.hlsRealtime then WorkAheadLimit
    else 0
  }

  /**
   * The duration clamp of GetProcess: the process starts at the item start
   * when asked to start at zero and at `now` otherwise, and runs until the
   * item finishes unless a limit applies and the item runs past it, in which
   * case it is cut at the limit and reported incomplete.
   */
  method ClampProcess(item: ItemWindow, now: int, req: ProcessRequest) returns (w: ProcessWindow)
    ensures w.effectiveNow == (if req.startAtZero then item.start else now)
    ensures w.finish == w.effectiveNow + w.duration
    ensures w.duration <= item.finish - w.effectiveNow
    ensures !w.isComplete <==> 0 < Limit(req) < item.finish - w.effectiveNow
    ensures w.isComplete ==> w.finish == item.finish && w.outPoint == item.outPoint
    ensures !w.isComplete ==> w.duration == Limit(req) && w.outPoint == item.inPoint + w.duration
    ensures req.isTroubleshooting ==> w.duration <= TroubleshootingLimit
    ensures !req.isTroubleshooting && !req.hlsRealtime ==> w.duration <= WorkAheadLimit
    ensures !req.isTroubleshooting && req.hlsRealtime ==> w.isComplete
  {
    var finish := item.finish;
    var outPoint := item.outPoint;
    var effectiveNow := if req.startAtZero then item.start else now;
    var duration := finish - effectiveNow;
    var isComplete := true;

    var limit := 0;
    if !req.hlsRealtime {
      limit := WorkAheadLimit;
    }
    if req.isTroubleshooting {
      limit := TroubleshootingLimit;
    }

    if limit > 0 && duration > limit {
      finish := effectiveNow + limit;
      outPoint := item.inPoint + limit;
      duration := limit;
      isComplete := false;
    }

    w := ProcessWindow(duration, finish, outPoint, isComplete, effectiveNow);
  }

  /**
   * When no playout item can be located, the error screen runs until the
   * next scheduled item starts (or ends at once when there is none); a
   * troubleshooting request always shows it for 30 seconds. `nextStart` is
   * the start of the earliest item that starts after `now`.
   */
  method ErrorWindow(now: int, nextStart: Option<int>, isTroubleshooting: bool)
    returns (maybeDuration: Option<int>, finish: int)
    requires nextStart.Some? ==> nextStart.value > now
    ensures maybeDuration.Some? ==> finish == now + maybeDuration.value && maybeDuration.value > 0
    ensures isTroubleshooting ==> maybeDuration == Some(TroubleshootingLimit)
    ensures !isTroubleshooting ==> finish == nextStart.GetOr(now)
    ensures !isTroubleshooting ==> (maybeDuration.Some? <==> nextStart.Some?)
  {
    maybeDuration := if nextStart.Some? then Some(nextStart.value - now) else None;
    finish := if nextStart.Some? then nextStart.value else now;
    if isTroubleshooting {
      maybeDuration := Some(TroubleshootingLimit);
      finish := now + TroubleshootingLimit;
    }
  }

  /** How a deco treats dead-air fallback. */
  datatype DecoMode = Inherit | Disable | Override

  /** The dead-air fallback settings of a deco: its mode and the collection it overrides with. */
  datatype Deco = Deco(deadAirFallbackMode: DecoMode, deadAirFallback: CollectionKey)

  datatype DeadAirFallback = InheritFallback | DisableFallback | CustomFallback(collection: CollectionKey)

  /** A deco decides the fallback when it is present and does not inherit. */
  predicate Decides(d: Option<Deco>)
  {
    d.Some? && d.value.deadAirFallbackMode != Inherit
  }

  /** The decision of a deciding deco. */
  function DecisionOf(d: Deco): DeadAirFallback
  {
    match d.deadAirFallbackMode
    case Override => CustomFallback(d.deadAirFallback)
    case Disable => DisableFallback
    case Inherit => InheritFallback
  }

  /**
   * GetDecoDeadAirFallback: the active template deco is consulted first and
   * the playout deco second; the first that overrides or disables decides,
   * and when neither does, the channel and global settings are inherited.
   */
  method GetDecoDeadAirFallback(templateDeco: Option<Deco>, playoutDeco: Option<Deco>)
    returns (r: DeadAirFallback)
    ensures Decides(templateDeco) ==> r == DecisionOf(templateDeco.value)
    ensures !Decides(templateDeco) && Decides(playoutDeco) ==> r == DecisionOf(playoutDeco.value)
    ensures r == InheritFallback <==> !Decides(templateDeco) && !Decides(playoutDeco)
    ensures r.CustomFallback? ==>
              (templateDeco == Some(Deco(Override, r.collection)))
              || (!Decides(templateDeco) && playoutDeco == Some(Deco(Override, r.collection)))
  {
    if templateDeco.Some? {
      match templateDeco.value.deadAirFallbackMode {
        case Override =>
          return CustomFallback(templateDeco.value.deadAirFallback);
        case Disable =>
          return DisableFallback;
        case Inherit =>
      }
    }
    if playoutDeco.Some? {
      match playoutDeco.value.deadAirFallbackMode {
        case Override =>
          return CustomFallback(playoutDeco.value.deadAirFallback);
        case Disable =>
          return DisableFallback;
        case Inherit =>
      }
    }
    return InheritFallback;
  }

  /** The preset built for a deco's custom fallback; it always allows watermarks. */
  function CustomPreset(collection: CollectionKey): (r: FillerPreset)
    ensures r.allowWatermarks && r.collection == collection
  {
    FillerPreset(NotFiller, NoMode, None, None, None, true, collection)
  }

  /**
   * The fallback preset: the deco's custom collection, nothing when the deco
   * disables fallback, and otherwise the channel's fallback preset or, when
   * the channel has none, the global one.
   */
  function FallbackPreset(
    decision: DeadAirFallback,
    channelFallback: Option<FillerPreset>,
    globalFallback: Option<FillerPreset>): (r: Option<FillerPreset>)
    ensures decision.DisableFallback? ==> r.None?
    ensures decision.CustomFallback? ==> r == Some(CustomPreset(decision.collection))
    ensures decision.InheritFallback? && channelFallback.Some? ==> r == channelFallback
    ensures decision.InheritFallback? && channelFallback.None? ==> r == globalFallback
  {
    match decision
    case CustomFallback(c) => Some(CustomPreset(c))
    case DisableFallback => None
    case InheritFallback => if channelFallback.Some? then channelFallback else globalFallback
  }

  /** A fallback item shorter than this loops for five minutes when nothing follows it. */
  const ShortFallback: int := 30 * TicksPerSecond

  const ShortFallbackLoop: int := 5 * TicksPerMinute

  /**
   * When the fallback item finishes: when the next scheduled item starts, or,
   * when there is none, five minutes from now for a version shorter than 30
   * seconds and after one full play of the version otherwise.
   */
  function FallbackFinish(now: int, nextStart: Option<int>, versionDuration: nat): (r: int)
    ensures nextStart.Some? ==> r == nextStart.value
    ensures nextStart.None? ==> r - now >= ShortFallback
    ensures nextStart.None? && versionDuration >= ShortFallback ==> r == now + versionDuration
    ensures nextStart.None? && versionDuration < ShortFallback ==> r == now + ShortFallbackLoop
  {
    match nextStart
    case Some(s) => now + (s - now)
    case None => if versionDuration < ShortFallback then now + ShortFallbackLoop else now + versionDuration
  }

  datatype FallbackError = UnableToLocatePlayoutItem | EmptyFallbackCollection

  datatype FallbackResult = Located(item: PlayoutItem) | Failed(error: FallbackError)

  /**
   * CheckForFallbackFiller up to path validation: picks the preset, draws
   * the item at `choice` from its collection (`collect` stands for the
   * collection lookup, `choice` for the random index) and turns it into a
   * fallback playout item from `now` until FallbackFinish.
   */
  method CheckForFallbackFiller(
    templateDeco: Option<Deco>,
    playoutDeco: Option<Deco>,
    channelFallback: Option<FillerPreset>,
    globalFallback: Option<FillerPreset>,
    collect: CollectionKey -> seq<MediaItem>,
    choice: nat,
    now: int,
    nextStart: Option<int>)
    returns (r: FallbackResult)
    requires nextStart.Some? ==> nextStart.value > now
    ensures r == Failed(UnableToLocatePlayoutItem) <==>
              (!Decides(templateDeco) && !Decides(playoutDeco) && channelFallback.None? && globalFallback.None?)
              || (Decides(templateDeco) && templateDeco.value.deadAirFallbackMode == Disable)
              || (!Decides(templateDeco) && Decides(playoutDeco) && playoutDeco.value.deadAirFallbackMode == Disable)
    ensures r == Failed(EmptyFallbackCollection) <==>
              var preset := FallbackPreset(DecisionFor(templateDeco, playoutDeco), channelFallback, globalFallback);
              preset.Some? && collect(preset.value.collection) == []
    ensures r.Located? ==>
              var preset := FallbackPreset(DecisionFor(templateDeco, playoutDeco), channelFallback, globalFallback);
              && preset.Some?
              && |collect(preset.value.collection)| > 0
              && (var m := collect(preset.value.collection)[choice % |collect(preset.value.collection)|];
                  && r.item.mediaItemId == m.id
                  && r.item.start == now
                  && r.item.finish == FallbackFinish(now, nextStart, m.duration)
                  && r.item.finish > now
                  && r.item.fillerKind == Fallback
                  && r.item.inPoint == 0
                  && r.item.outPoint == m.duration
                  && r.item.disableWatermarks == !preset.value.allowWatermarks)
  {
    var decision := GetDecoDeadAirFallback(templateDeco, playoutDeco);
    var maybeFallback := FallbackPreset(decision, channelFallback, globalFallback);
    if maybeFallback.None? {
      return Failed(UnableToLocatePlayoutItem);
    }
    var items := collect(maybeFallback.value.collection);
    if |items| == 0 {
      return Failed(EmptyFallbackCollection);
    }
    var item := items[choice % |items|];
    var finish := FallbackFinish(now, nextStart, item.duration);
    r := Located(PlayoutItem(item.id, now, finish, 0, item.duration, Fallback, 0, !maybeFallback.value.allowWatermarks));
  }

  /** The dead-air decision as a value, for stating what CheckForFallbackFiller draws from. */
  function DecisionFor(templateDeco: Option<Deco>, playoutDeco: Option<Deco>): (r: DeadAirFallback)
    ensures r == InheritFallback <==> !Decides(templateDeco) && !Decides(playoutDeco)
  {
    if Decides(templateDeco) then DecisionOf(templateDeco.value)
    else if Decides(playoutDeco) then DecisionOf(playoutDeco.value)
    else InheritFallback
  }

  /** The kinds of media item GetSubtitles distinguishes. */
  datatype SubtitleMediaKind = EpisodeItem | MovieItem | MusicVideoItem | OtherVideoItem | OtherItem

  /** Where a movie or episode was synchronised from. */
  datatype MediaSource = LocalLibrary | PlexServer | JellyfinServer | EmbyServer

  datatype Subtitle = Subtitle(codec: string, streamIndex: int)

  /**
   * A media item as GetSubtitles sees it: its kind, its source, and the
   * subtitles of its head metadata (None when it has no metadata or the
   * list is null).
   */
  datatype SubtitleMedia = SubtitleMedia(kind: SubtitleMediaKind, source: MediaSource, headSubtitles: Option<seq<Subtitle>>)

  const ClosedCaptionCodec: string := "eia_608"

  /** Movies and episodes from Plex, Jellyfin or Emby. */
  predicate IsMediaServer(m: SubtitleMedia)
  {
    (m.kind == MovieItem || m.kind == EpisodeItem) && m.source != LocalLibrary
  }

  predicate NotClosedCaption(s: Subtitle)
  {
    s.codec != ClosedCaptionCodec
  }

  /** The candidate subtitles before filtering; music videos take theirs from the credits setting. */
  function AllSubtitles(m: SubtitleMedia, musicVideoSubtitles: seq<Subtitle>): seq<Subtitle>
  {
    match m.kind
    case EpisodeItem => m.headSubtitles.GetOr([])
    case MovieItem => m.headSubtitles.GetOr([])
    case OtherVideoItem => m.headSubtitles.GetOr([])
    case MusicVideoItem => musicVideoSubtitles
    case OtherItem => []
  }

  /**
   * GetSubtitles: closed captions are not supported for media-server items,
   * so eia_608 subtitles are dropped from those and kept for everything else.
   */
  function GetSubtitles(m: SubtitleMedia, musicVideoSubtitles: seq<Subtitle>): (r: seq<Subtitle>)
    ensures IsMediaServer(m) ==> forall s :: s in r ==> s.codec != ClosedCaptionCodec
    ensures forall s :: s in r <==>
              s in AllSubtitles(m, musicVideoSubtitles) && (IsMediaServer(m) ==> s.codec != ClosedCaptionCodec)
    ensures !IsMediaServer(m) ==> r == AllSubtitles(m, musicVideoSubtitles)
    ensures m.kind == OtherItem ==> r == []
  {
    var all := AllSubtitles(m, musicVideoSubtitles);
    if IsMediaServer(m) then Filter(all, NotClosedCaption) else all
  }
}
