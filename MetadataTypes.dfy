/**
 * The metadata records the scanner and the repositories write: a calendar
 * date, artwork, the name-keyed lists (genres, tags, studios, actors,
 * directors, writers, guids) and the scalar fields of a metadata row.
 * Timestamps such as DateAdded are ticks, as elsewhere in this model.
 */
module MetadataTypes {
  import opened Common

  /** A calendar date (release and air dates carry no time of day here). */
  datatype Date = Date(year: int, month: int, day: int)

  /** January 1 of a year: the fallback release date built from a bare year. */
  function Jan1(year: int): (r: Date)
    ensures r.year == year && r.month == 1 && r.day == 1
  {
    Date(year, 1, 1)
  }

  /** DateTime.MinValue as a date. */
  const MinDate: Date := Date(1, 1, 1)

  /** SystemTime.MinValueUtc in ticks: "never set". */
  const MinValueUtc: int := 0

  datatype ArtworkKind = Poster | Thumbnail | FanArt | Logo | Banner | ClearArt

  datatype Artwork = Artwork(path: string, kind: ArtworkKind, dateAdded: int, dateUpdated: int)

  datatype Genre = Genre(name: string)

  datatype Tag = Tag(name: string, externalCollectionId: Option<string>)

  datatype Studio = Studio(name: string)

  datatype Actor = Actor(name: string, role: Option<string>, order: Option<int>, artwork: Option<Artwork>)

  datatype Director = Director(name: string)

  datatype Writer = Writer(name: string)

  datatype MetadataGuid = MetadataGuid(guid: string)

  function GenreName(g: Genre): string { g.name }
  function TagName(t: Tag): string { t.name }
  function StudioName(s: Studio): string { s.name }
  function ActorName(a: Actor): string { a.name }
  function DirectorName(d: Director): string { d.name }
  function WriterName(w: Writer): string { w.name }
  function GuidValue(g: MetadataGuid): string { g.guid }

  datatype MetadataKind = FallbackKind | EmbeddedKind | SidecarKind | ExternalKind

  /** The scalar columns of a metadata row. */
  datatype Fields = Fields(
    title: Option<string>,
    sortTitle: Option<string>,
    originalTitle: Option<string>,
    outline: Option<string>,
    plot: Option<string>,
    tagline: Option<string>,
    contentRating: Option<string>,
    year: Option<int>,
    releaseDate: Option<Date>,
    dateAdded: int,
    dateUpdated: int,
    metadataKind: MetadataKind)

  /** The name-keyed lists of a metadata row. */
  datatype Collections = Collections(
    genres: seq<Genre>,
    tags: seq<Tag>,
    studios: seq<Studio>,
    actors: seq<Actor>,
    directors: seq<Director>,
    writers: seq<Writer>,
    guids: seq<MetadataGuid>)

  /** Which kind of item a metadata row belongs to. */
  datatype OwnerKind = MovieOwner | ShowOwner | SeasonOwner | EpisodeOwner | ArtistOwner | MusicVideoOwner | OtherVideoOwner | SongOwner | ImageOwner

  /** A metadata row: its key, the id of the item it belongs to, its fields and lists. */
  datatype Metadata = Metadata(id: int, ownerId: int, fields: Fields, lists: Collections)

  /** An episode's metadata row carries the episode number it describes. */
  datatype EpisodeMetadata = EpisodeMetadata(episodeNumber: int, metadata: Metadata)

  // ---------------------------------------------------------------------
  // Media versions, streams and chapters
  // ---------------------------------------------------------------------

  datatype MediaStreamKind = VideoStream | AudioStream | SubtitleStream | AttachmentStream | ExternalSubtitleStream

  /** The columns of a stream that a statistics update copies from the incoming stream. */
  datatype StreamProps = StreamProps(
    kind: MediaStreamKind,
    codec: Option<string>,
    profile: Option<string>,
    language: Option<string>,
    channels: int,
    title: Option<string>,
    isDefault: bool,
    forced: bool,
    attachedPic: bool,
    pixelFormat: Option<string>,
    colorRange: Option<string>,
    colorSpace: Option<string>,
    colorTransfer: Option<string>,
    colorPrimaries: Option<string>,
    bitsPerRawSample: int,
    fileName: Option<string>,
    mimeType: Option<string>)

  /** A stream of a media version: its row id, its index in the file and its other columns. */
  datatype MediaStream = MediaStream(id: int, index: int, props: StreamProps)

  function StreamIndex(s: MediaStream): int { s.index }

  /** A stream with only the commonly known columns set. */
  function BasicProps(kind: MediaStreamKind, codec: Option<string>, profile: Option<string>, language: Option<string>,
                      channels: int, isDefault: bool, forced: bool): StreamProps
  {
    StreamProps(kind, codec, profile, language, channels, None, isDefault, forced, false, None, None, None, None, None, 0, None, None)
  }

  datatype MediaChapter = MediaChapter(id: int, chapterId: int, startTime: int, endTime: int, title: Option<string>)

  function ChapterIdOf(c: MediaChapter): int { c.chapterId }

  datatype VideoScanKind = UnknownScan | Progressive | Interlaced

  /** A media version: its statistics, streams and chapters. */
  datatype MediaVersion = MediaVersion(
    id: int,
    name: Option<string>,
    duration: int,
    sampleAspectRatio: Option<string>,
    displayAspectRatio: Option<string>,
    width: int,
    height: int,
    videoScanKind: VideoScanKind,
    rFrameRate: Option<string>,
    dateAdded: int,
    dateUpdated: int,
    streams: seq<MediaStream>,
    chapters: seq<MediaChapter>)

  // ---------------------------------------------------------------------
  // Libraries of a media server
  // ---------------------------------------------------------------------

  datatype LibraryMediaKind = Movies | Shows | MusicVideos | OtherVideos | Songs | Images

  /** A library of a Plex, Jellyfin or Emby server: its key, name, kind, sync flag and paths. */
  datatype ServerLibrary = ServerLibrary(key: string, name: string, mediaKind: LibraryMediaKind,
                                         shouldSyncItems: bool, paths: seq<string>)

  // ---------------------------------------------------------------------
  // Item state and etags of media server items
  // ---------------------------------------------------------------------

  datatype MediaItemState = Normal | Unavailable | FileNotFound | RemoteOnly

  /** What the database remembers of a media server item: its key, its etag and its state. */
  datatype ItemEtag = ItemEtag(key: string, etag: Option<string>, state: MediaItemState)

  /** List.Find: the first remembered item with the given key. */
  function FindEtag(existing: seq<ItemEtag>, key: string): (r: Option<ItemEtag>)
    ensures r.None? <==> forall i :: 0 <= i < |existing| ==> existing[i].key != key
    ensures r.Some? ==> r.value in existing && r.value.key == key
    ensures r.Some? ==> exists i :: 0 <= i < |existing| && existing[i] == r.value
                                    && forall j :: 0 <= j < i ==> existing[j].key != key
  {
    if existing == [] then None
    else if existing[0].key == key then Some(existing[0])
    else
      assert forall i :: 1 <= i < |existing| ==> existing[i] == existing[1..][i - 1];
      FindEtag(existing[1..], key)
  }

  /** The remembered etag of an item, empty when it has none or is not remembered. */
  function ExistingEtag(existing: seq<ItemEtag>, key: string): string
  {
    match FindEtag(existing, key)
    case Some(e) => e.etag.GetOr("")
    case None => ""
  }

  /** The remembered state of an item, Normal when it is not remembered. */
  function ExistingState(existing: seq<ItemEtag>, key: string): MediaItemState
  {
    match FindEtag(existing, key)
    case Some(e) => e.state
    case None => Normal
  }
}
