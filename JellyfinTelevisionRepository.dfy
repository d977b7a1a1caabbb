// The Jellyfin television repository: get-or-add of shows, seasons and
// episodes keyed by the server's item id, the etag-driven update of an
// existing row, and the state flags the scanner sets on rows the server
// no longer lists.
//
// Database reads are inputs: the row found by item id (or null), the ids a
// query returns, the number of rows an UPDATE touched. The clock is the
// parameter `now`.

module JellyfinTelevisionRepository {
  import opened Common
  import opened MetadataTypes
  import opened MetadataSync
  import opened MediaServerSync

  datatype TvKind = ShowItem | SeasonItem | EpisodeItem

  /** What GetOrAdd hands back: the tracked row and whether it was added or updated. */
  datatype ScanResult = ScanResult(item: ServerItem, isAdded: bool, isUpdated: bool)

  // ---------------------------------------------------------------------
  // What an update writes
  // ---------------------------------------------------------------------

  /**
   * The metadata columns after an update: every kind takes title, sort
   * title, year, date added and release date from the server and stamps
   * the update time; shows and episodes also take the plot; shows alone
   * take the metadata kind, content rating and tagline.
   */
  function UpdatedFields(kind: TvKind, existing: Fields, incoming: Fields, now: int): (r: Fields)
    ensures r.title == incoming.title && r.sortTitle == incoming.sortTitle && r.year == incoming.year
    ensures r.dateAdded == incoming.dateAdded && r.releaseDate == incoming.releaseDate && r.dateUpdated == now
    ensures r.originalTitle == existing.originalTitle && r.outline == existing.outline
    ensures r.plot == (if kind == SeasonItem then existing.plot else incoming.plot)
    ensures kind == ShowItem ==>
              r.metadataKind == incoming.metadataKind && r.contentRating == incoming.contentRating && r.tagline == incoming.tagline
    ensures kind != ShowItem ==>
              r.metadataKind == existing.metadataKind && r.contentRating == existing.contentRating && r.tagline == existing.tagline
  {
    var common := existing.(title := incoming.title, sortTitle := incoming.sortTitle, year := incoming.year,
                            dateAdded := incoming.dateAdded, dateUpdated := now, releaseDate := incoming.releaseDate);
    match kind
    case ShowItem =>
      common.(metadataKind := incoming.metadataKind, contentRating := incoming.contentRating,
              plot := incoming.plot, tagline := incoming.tagline)
    case SeasonItem => common
    case EpisodeItem => common.(plot := incoming.plot)
  }

  /**
   * The name-keyed lists after an update: a show syncs genres, tags
   * (keeping external-collection tags), studios, actors (by the artwork
   * rule) and guids; a season syncs its guids; an episode syncs
   * directors, writers and guids.
   */
  function UpdatedLists(kind: TvKind, existing: Collections, incoming: Collections): Collections
  {
    match kind
    case ShowItem =>
      existing.(genres := Synced(existing.genres, incoming.genres, GenreName),
                tags := SyncedWhere(existing.tags, incoming.tags, TagName, TagKeeper(incoming.tags)),
                studios := Synced(existing.studios, incoming.studios, StudioName),
                actors := SyncedWhere(existing.actors, incoming.actors, ActorName, ActorKeeper(incoming.actors)),
                guids := Synced(existing.guids, incoming.guids, GuidValue))
    case SeasonItem =>
      existing.(guids := Synced(existing.guids, incoming.guids, GuidValue))
    case EpisodeItem =>
      existing.(directors := Synced(existing.directors, incoming.directors, DirectorName),
                writers := Synced(existing.writers, incoming.writers, WriterName),
                guids := Synced(existing.guids, incoming.guids, GuidValue))
  }

  /** The artwork kinds each update upserts, in the order it upserts them. */
  function UpsertKinds(kind: TvKind): (r: seq<ArtworkKind>)
    ensures forall i, j :: 0 <= i < j < |r| ==> r[i] != r[j]
  {
    match kind
    case ShowItem => [Poster, FanArt]
    case SeasonItem => [Poster, Thumbnail, FanArt]
    case EpisodeItem => [Thumbnail]
  }

  /** The artwork after an update: the upserts, then removal of every path the server no longer lists. */
  function UpdatedArtwork(kind: TvKind, existing: seq<Artwork>, incoming: seq<Artwork>): seq<Artwork>
  {
    Pruned(UpsertedAll(existing, incoming, UpsertKinds(kind)), incoming)
  }

  /**
   * The whole effect of an update on the row: metadata, lists and artwork
   * as above; a season takes its number, an episode its number and its
   * head version's name, date added and file path; the etag and library path
   * stay as they were.
   */
  twostate predicate UpdatedAs(kind: TvKind, item: ServerItem, incoming: IncomingItem, now: int)
    reads item
  {
    && item.fields == UpdatedFields(kind, old(item.fields), incoming.fields, now)
    && item.lists == UpdatedLists(kind, old(item.lists), incoming.lists)
    && item.artwork == UpdatedArtwork(kind, old(item.artwork), incoming.artwork)
    && item.etag == old(item.etag)
    && item.libraryPathId == old(item.libraryPathId)
    && item.seasonNumber == (if kind == SeasonItem then incoming.seasonNumber else old(item.seasonNumber))
    && item.episodeNumber == (if kind == EpisodeItem then incoming.episodeNumber else old(item.episodeNumber))
    && item.version == (if kind == EpisodeItem then incoming.version else old(item.version))
  }

  // ---------------------------------------------------------------------
  // The updates
  // ---------------------------------------------------------------------

  /** The list syncs of a show update. */
  method SyncShowLists(existing: Collections, incoming: Collections) returns (r: Collections)
    ensures r == UpdatedLists(ShowItem, existing, incoming)
  {
    var genres := SyncByName(existing.genres, incoming.genres, GenreName);
    var tags := SyncWhere(existing.tags, incoming.tags, TagName, TagKeeper(incoming.tags));
    var studios := SyncByName(existing.studios, incoming.studios, StudioName);
    var actors := SyncWhere(existing.actors, incoming.actors, ActorName, ActorKeeper(incoming.actors));
    var guids := SyncByName(existing.guids, incoming.guids, GuidValue);
    r := existing.(genres := genres, tags := tags, studios := studios, actors := actors, guids := guids);
  }

  /** The list syncs of an episode update. */
  method SyncEpisodeLists(existing: Collections, incoming: Collections) returns (r: Collections)
    ensures r == UpdatedLists(EpisodeItem, existing, incoming)
  {
    var directors := SyncByName(existing.directors, incoming.directors, DirectorName);
    var writers := SyncByName(existing.writers, incoming.writers, WriterName);
    var guids := SyncByName(existing.guids, incoming.guids, GuidValue);
    r := existing.(directors := directors, writers := writers, guids := guids);
  }

  /** The metadata part of every update: its columns, its lists and its artwork. */
  method UpdateMetadata(kind: TvKind, existing: ServerItem, incoming: IncomingItem, now: int)
    modifies existing`fields, existing`lists, existing`artwork
    ensures existing.fields == UpdatedFields(kind, old(existing.fields), incoming.fields, now)
    ensures existing.lists == UpdatedLists(kind, old(existing.lists), incoming.lists)
    ensures existing.artwork == UpdatedArtwork(kind, old(existing.artwork), incoming.artwork)
  {
    existing.fields := UpdatedFields(kind, existing.fields, incoming.fields, now);
    match kind {
      case ShowItem => existing.lists := SyncShowLists(existing.lists, incoming.lists);
      case SeasonItem =>
        var guids := SyncByName(existing.lists.guids, incoming.lists.guids, GuidValue);
        existing.lists := existing.lists.(guids := guids);
      case EpisodeItem => existing.lists := SyncEpisodeLists(existing.lists, incoming.lists);
    }
    existing.artwork := RefreshArtwork(existing.artwork, incoming.artwork, UpsertKinds(kind), true);
  }

  method UpdateShow(existing: ServerItem, incoming: IncomingItem, now: int)
    modifies existing
    ensures UpdatedAs(ShowItem, existing, incoming, now)
  {
    UpdateMetadata(ShowItem, existing, incoming, now);
  }

  method UpdateSeason(existing: ServerItem, incoming: IncomingItem, now: int)
    modifies existing
    ensures UpdatedAs(SeasonItem, existing, incoming, now)
  {
    existing.seasonNumber := incoming.seasonNumber;
    UpdateMetadata(SeasonItem, existing, incoming, now);
  }

  method UpdateEpisode(existing: ServerItem, incoming: IncomingItem, now: int)
    modifies existing
    ensures UpdatedAs(EpisodeItem, existing, incoming, now)
  {
    existing.episodeNumber := incoming.episodeNumber;
    existing.version := incoming.version;
    UpdateMetadata(EpisodeItem, existing, incoming, now);
  }

  // ---------------------------------------------------------------------
  // Get or add
  // ---------------------------------------------------------------------

  /**
   * A row found by item id is returned as not added; it is updated, and
   * reported updated, exactly when its etag differs from the server's. A
   * missing row is added under the library's first path with its etag
   * blanked for the save (so the database keeps "" until the scanner
   * stores the etag) and restored in memory afterwards; a library with no
   * paths, or a save that throws, gives an error.
   */
  method GetOrAdd(kind: TvKind, found: ServerItem?, incoming: IncomingItem, libraryPathIds: seq<int>,
                  newId: int, saveSucceeds: bool, now: int)
    returns (r: Result<ScanResult>, savedEtag: Option<string>)
    modifies found
    ensures found != null ==>
              && r.Ok? && r.value.item == found && !r.value.isAdded
              && r.value.isUpdated == (old(found.etag) != incoming.etag)
              && savedEtag.None?
    ensures found != null && old(found.etag) == incoming.etag ==> unchanged(found)
    ensures found != null && old(found.etag) != incoming.etag ==> UpdatedAs(kind, found, incoming, now)
    ensures found == null && (libraryPathIds == [] || !saveSucceeds) ==> r.Err?
    ensures found == null && libraryPathIds != [] && saveSucceeds ==>
              && r.Ok? && fresh(r.value.item) && r.value.isAdded && !r.value.isUpdated
              && savedEtag == Some("")
              && r.value.item.id == newId && r.value.item.itemId == incoming.itemId
              && r.value.item.etag == incoming.etag
              && r.value.item.libraryPathId == libraryPathIds[0]
              && r.value.item.fields == incoming.fields && r.value.item.lists == incoming.lists
              && r.value.item.artwork == incoming.artwork
  {
    savedEtag := None;
    if found != null {
      var isUpdated := false;
      if found.etag != incoming.etag {
        match kind {
          case ShowItem => UpdateShow(found, incoming, now);
          case SeasonItem => UpdateSeason(found, incoming, now);
          case EpisodeItem => UpdateEpisode(found, incoming, now);
        }
        isUpdated := true;
      }
      r := Ok(ScanResult(found, false, isUpdated));
    } else if libraryPathIds == [] {
      r := Err("library has no paths");
    } else {
      var item := new ServerItem(newId, incoming, libraryPathIds[0]);
      var etag := item.etag;
      item.etag := "";
      if !saveSucceeds {
        r := Err("save failed");
      } else {
        savedEtag := Some(item.etag);
        item.etag := etag;
        r := Ok(ScanResult(item, true, false));
      }
    }
  }

  // ---------------------------------------------------------------------
  // State flags
  // ---------------------------------------------------------------------

  /** What a flag-file-not-found call returns, and whether it wrote to the database. */
  datatype FlagOutcome = FlagOutcome(ids: seq<int>, wrote: bool)

  /**
   * Flagging shows, seasons or episodes as file-not-found: an empty list
   * of item ids returns nothing and touches nothing; otherwise the ids the
   * query found are returned and every one of them is set to
   * file-not-found.
   */
  function FlagFileNotFound(itemIds: seq<string>, foundIds: seq<int>): (r: FlagOutcome)
    ensures itemIds == [] <==> !r.wrote
    ensures itemIds == [] ==> r.ids == []
    ensures itemIds != [] ==> r.ids == foundIds
  {
    if |itemIds| == 0 then FlagOutcome([], false) else FlagOutcome(foundIds, true)
  }

  /** The state the database holds for a row after the file-not-found flag. */
  function StateAfterFlag(id: int, state: MediaItemState, outcome: FlagOutcome): MediaItemState
  {
    if outcome.wrote && id in outcome.ids then FileNotFound else state
  }

  /**
   * An empty request leaves every row's state as it was; otherwise exactly
   * the found rows become file-not-found.
   */
  lemma {:induction false} FlagFileNotFoundStates(itemIds: seq<string>, foundIds: seq<int>, id: int, state: MediaItemState)
    ensures var after := StateAfterFlag(id, state, FlagFileNotFound(itemIds, foundIds));
            && (itemIds == [] ==> after == state)
            && (itemIds != [] && id in foundIds ==> after == FileNotFound)
            && (id !in foundIds ==> after == state)
  {
  }

  /**
   * Flagging an episode normal: the in-memory state becomes normal, and
   * the call reports whether the UPDATE touched any row.
   */
  method FlagNormal(episodeState: MediaItemState, rowsUpdated: nat) returns (state: MediaItemState, changed: bool)
    ensures state == Normal
    ensures changed <==> rowsUpdated > 0
  {
    state := Normal;
    changed := rowsUpdated > 0;
  }

  /**
   * Flagging an episode unavailable: the in-memory state becomes
   * unavailable; the database id comes back only when the episode was
   * found in the library and the UPDATE touched a row.
   */
  method FlagUnavailable(episodeState: MediaItemState, foundId: Option<int>, rowsUpdated: nat)
    returns (state: MediaItemState, r: Option<int>)
    ensures state == Unavailable
    ensures r.Some? <==> foundId.Some? && rowsUpdated > 0
    ensures r.Some? ==> r == foundId
  {
    state := Unavailable;
    r := None;
    if foundId.Some? {
      r := if rowsUpdated > 0 then Some(foundId.value) else None;
    }
  }

  // ---------------------------------------------------------------------
  // What an update guarantees about the lists and artwork
  // ---------------------------------------------------------------------

  /**
   * After an update, each list the update syncs has exactly the server's
   * names (tags: every server name, plus external-collection tags it
   * keeps); every list it does not sync is untouched.
   */
  lemma {:induction false} UpdatedListsNames(kind: TvKind, existing: Collections, incoming: Collections)
    ensures var r := UpdatedLists(kind, existing, incoming);
            && Keys(r.guids, GuidValue) == Keys(incoming.guids, GuidValue)
            && (kind == ShowItem ==>
                  && Keys(r.genres, GenreName) == Keys(incoming.genres, GenreName)
                  && Keys(r.studios, StudioName) == Keys(incoming.studios, StudioName)
                  && Keys(r.actors, ActorName) == Keys(incoming.actors, ActorName)
                  && Keys(incoming.tags, TagName) <= Keys(r.tags, TagName)
                  && (forall t :: t in r.tags ==> t.name in Keys(incoming.tags, TagName) || (t in existing.tags && t.externalCollectionId.Some?))
                  && r.directors == existing.directors && r.writers == existing.writers)
            && (kind == EpisodeItem ==>
                  && Keys(r.directors, DirectorName) == Keys(incoming.directors, DirectorName)
                  && Keys(r.writers, WriterName) == Keys(incoming.writers, WriterName))
            && (kind != ShowItem ==>
                  r.genres == existing.genres && r.tags == existing.tags && r.studios == existing.studios && r.actors == existing.actors)
            && (kind == SeasonItem ==> r.directors == existing.directors && r.writers == existing.writers)
  {
    SyncedKeys(existing.guids, incoming.guids, GuidValue);
    match kind
    case ShowItem =>
      SyncedKeys(existing.genres, incoming.genres, GenreName);
      SyncedKeys(existing.studios, incoming.studios, StudioName);
      ActorSync(existing.actors, incoming.actors);
      TagSync(existing.tags, incoming.tags);
    case SeasonItem =>
    case EpisodeItem =>
      SyncedKeys(existing.directors, incoming.directors, DirectorName);
      SyncedKeys(existing.writers, incoming.writers, WriterName);
  }

  /**
   * After an update every artwork left has a path the server lists, and
   * the server's first artwork of each kind the update upserts is there.
   */
  lemma {:induction false} UpdatedArtworkFromServer(kind: TvKind, existing: seq<Artwork>, incoming: seq<Artwork>)
    ensures var r := UpdatedArtwork(kind, existing, incoming);
            && (forall a :: a in r ==> exists b :: b in incoming && b.path == a.path)
            && (forall k :: k in UpsertKinds(kind) && IndexOfKind(incoming, k).Some? ==> incoming[IndexOfKind(incoming, k).value] in r)
  {
    UpsertedThenPruned(existing, incoming, UpsertKinds(kind));
  }

  /** Updating a second time with the same server data and clock changes no metadata column. */
  lemma {:induction false} UpdatedFieldsIdempotent(kind: TvKind, existing: Fields, incoming: Fields, now: int)
    ensures UpdatedFields(kind, UpdatedFields(kind, existing, incoming, now), incoming, now) == UpdatedFields(kind, existing, incoming, now)
  {
  }
}
