// The movie repository: get-or-add of local movies by file path and of
// Plex movies by key, the update of a Jellyfin movie from the server's
// copy, deletion by path and the existence check on a list of ids.
//
// Database reads are inputs (the movie found by path or key, the movie
// rows by id); whether a save throws is the input `saveSucceeds`; the
// clock is the parameter `now`.

module MovieRepository {
  import opened Common
  import opened MetadataTypes
  import opened MetadataSync
  import opened MediaServerSync
  import opened JellyfinTelevisionRepository

  // ---------------------------------------------------------------------
  // Local movies, found by the path of their head file
  // ---------------------------------------------------------------------

  datatype MovieFile = MovieFile(path: string)

  datatype MovieVersion = MovieVersion(files: seq<MovieFile>, streams: seq<MediaStream>)

  datatype Movie = Movie(id: int, libraryPathId: int, versions: seq<MovieVersion>)

  /** What GetOrAdd hands back. */
  datatype MovieScan = MovieScan(movie: Movie, isAdded: bool)

  /** The path of a movie's head file, when it has one. */
  function HeadPath(m: Movie): Option<string>
  {
    if |m.versions| > 0 && |m.versions[0].files| > 0 then Some(m.versions[0].files[0].path) else None
  }

  /** The movie whose head file has the path, as the lookup query finds it. */
  function FindByPath(movies: seq<Movie>, path: string): (r: Option<Movie>)
    ensures r.Some? ==> r.value in movies && HeadPath(r.value) == Some(path)
    ensures r.None? ==> forall m :: m in movies ==> HeadPath(m) != Some(path)
  {
    if movies == [] then None
    else if HeadPath(movies[0]) == Some(path) then Some(movies[0])
    else FindByPath(movies[1..], path)
  }

  /**
   * A movie found by path is returned as not added. Otherwise a new movie
   * is made under the library path with one version holding one file at
   * the path and no streams, and returned as added; a save that throws
   * gives an error.
   */
  function GetOrAdd(found: Option<Movie>, libraryPathId: int, path: string, newId: int, saveSucceeds: bool): (r: Result<MovieScan>)
    ensures found.Some? ==> r == Ok(MovieScan(found.value, false))
    ensures found.None? && !saveSucceeds ==> r.Err?
    ensures found.None? && saveSucceeds ==>
              && r.Ok? && r.value.isAdded
              && r.value.movie.id == newId && r.value.movie.libraryPathId == libraryPathId
              && HeadPath(r.value.movie) == Some(path)
              && |r.value.movie.versions| == 1 && r.value.movie.versions[0].streams == []
  {
    match found
    case Some(m) => Ok(MovieScan(m, false))
    case None =>
      if saveSucceeds then Ok(MovieScan(Movie(newId, libraryPathId, [MovieVersion([MovieFile(path)], [])]), true))
      else Err("save failed")
  }

  /**
   * Get-or-add against the movies already stored: a movie the first call
   * adds is found by the second, which reports it as not added.
   */
  lemma {:induction false} GetOrAddThenFound(movies: seq<Movie>, libraryPathId: int, path: string, newId: int, newId2: int, saveSucceeds: bool)
    requires FindByPath(movies, path).None?
    requires GetOrAdd(None, libraryPathId, path, newId, saveSucceeds).Ok?
    ensures var added := GetOrAdd(None, libraryPathId, path, newId, saveSucceeds).value.movie;
            GetOrAdd(FindByPath(movies + [added], path), libraryPathId, path, newId2, saveSucceeds) == Ok(MovieScan(added, false))
  {
    var added := GetOrAdd(None, libraryPathId, path, newId, saveSucceeds).value.movie;
    FindByPathAppend(movies, added, path);
  }

  lemma {:induction false} FindByPathAppend(movies: seq<Movie>, m: Movie, path: string)
    requires FindByPath(movies, path).None? && HeadPath(m) == Some(path)
    ensures FindByPath(movies + [m], path) == Some(m)
    decreases |movies|
  {
    if movies == [] {
    } else {
      assert (movies + [m])[1..] == movies[1..] + [m];
      FindByPathAppend(movies[1..], m, path);
    }
  }

  // ---------------------------------------------------------------------
  // Plex movies, found by key
  // ---------------------------------------------------------------------

  /**
   * A Plex movie found by key is returned as not added and left as it
   * is. A missing one is added under the library's first path with its
   * etag blanked for the save and restored in memory afterwards; no
   * library path, or a save that throws, gives an error.
   */
  method GetOrAddPlex(found: ServerItem?, incoming: IncomingItem, libraryPathIds: seq<int>, newId: int, saveSucceeds: bool)
    returns (r: Result<ScanResult>, savedEtag: Option<string>)
    ensures found != null ==> r == Ok(ScanResult(found, false, false)) && savedEtag.None?
    ensures found == null && (libraryPathIds == [] || !saveSucceeds) ==> r.Err?
    ensures found == null && libraryPathIds != [] && saveSucceeds ==>
              && r.Ok? && fresh(r.value.item) && r.value.isAdded
              && savedEtag == Some("")
              && r.value.item.etag == incoming.etag && r.value.item.itemId == incoming.itemId
              && r.value.item.libraryPathId == libraryPathIds[0]
  {
    savedEtag := None;
    if found != null {
      r := Ok(ScanResult(found, false, false));
    } else if libraryPathIds == [] {
      r := Err("library has no paths");
    } else {
      var item := new ServerItem(newId, incoming, libraryPathIds[0]);
      var etag := item.etag;
      item.etag := "";
      if !saveSucceeds {
        r := Err("save failed");
      } else {
        savedEtag := Some(item.etag);
        item.etag := etag;
        r := Ok(ScanResult(item, true, false));
      }
    }
  }

  // ---------------------------------------------------------------------
  // Jellyfin movie update
  // ---------------------------------------------------------------------

  /**
   * A movie's lists after the update: the same syncs as a show's (genres,
   * tags keeping external-collection tags, studios, actors by the artwork
   * rule, guids) plus directors and writers.
   */
  function MovieLists(existing: Collections, incoming: Collections): Collections
  {
    UpdatedLists(ShowItem, existing, incoming).(
      directors := Synced(existing.directors, incoming.directors, DirectorName),
      writers := Synced(existing.writers, incoming.writers, WriterName))
  }

  /**
   * The whole effect of the update: the etag, the head version and file
   * take the server's values; the metadata columns are those of a show
   * update; poster and fan art are upserted, and nothing is pruned.
   */
  twostate predicate MovieUpdatedAs(item: ServerItem, incoming: IncomingItem, now: int)
    reads item
  {
    && item.etag == incoming.etag
    && item.version == incoming.version
    && item.fields == UpdatedFields(ShowItem, old(item.fields), incoming.fields, now)
    && item.lists == MovieLists(old(item.lists), incoming.lists)
    && item.artwork == UpsertedAll(old(item.artwork), incoming.artwork, [Poster, FanArt])
    && item.libraryPathId == old(item.libraryPathId)
    && item.seasonNumber == old(item.seasonNumber) && item.episodeNumber == old(item.episodeNumber)
  }

  method SyncMovieLists(existing: Collections, incoming: Collections) returns (r: Collections)
    ensures r == MovieLists(existing, incoming)
  {
    var show := SyncShowLists(existing, incoming);
    var directors := SyncByName(existing.directors, incoming.directors, DirectorName);
    var writers := SyncByName(existing.writers, incoming.writers, WriterName);
    r := show.(directors := directors, writers := writers);
  }

  method UpdateMovieMetadata(existing: ServerItem, incoming: IncomingItem, now: int)
    modifies existing`fields, existing`lists, existing`artwork
    ensures existing.fields == UpdatedFields(ShowItem, old(existing.fields), incoming.fields, now)
    ensures existing.lists == MovieLists(old(existing.lists), incoming.lists)
    ensures existing.artwork == UpsertedAll(old(existing.artwork), incoming.artwork, [Poster, FanArt])
  {
    existing.fields := UpdatedFields(ShowItem, existing.fields, incoming.fields, now);
    existing.lists := SyncMovieLists(existing.lists, incoming.lists);
    existing.artwork := RefreshArtwork(existing.artwork, incoming.artwork, [Poster, FanArt], false);
  }

  /**
   * No movie with the server's item id: nothing changes and nothing comes
   * back. Otherwise the stored movie is updated and returned.
   */
  method UpdateJellyfin(found: ServerItem?, incoming: IncomingItem, now: int) returns (r: Option<ServerItem?>)
    modifies found
    ensures found == null ==> r.None?
    ensures found != null ==> r == Some(found) && MovieUpdatedAs(found, incoming, now)
  {
    if found == null {
      return None;
    }
    found.etag := incoming.etag;
    found.version := incoming.version;
    UpdateMovieMetadata(found, incoming, now);
    r := Some(found);
  }

  /**
   * The movie's lists after the update have exactly the server's names
   * (tags: every server name, plus the external-collection tags they
   * keep), and an actor goes by the same rule as a show's.
   */
  lemma {:induction false} MovieListsNames(existing: Collections, incoming: Collections)
    ensures var r := MovieLists(existing, incoming);
            && Keys(r.genres, GenreName) == Keys(incoming.genres, GenreName)
            && Keys(r.studios, StudioName) == Keys(incoming.studios, StudioName)
            && Keys(r.actors, ActorName) == Keys(incoming.actors, ActorName)
            && Keys(r.directors, DirectorName) == Keys(incoming.directors, DirectorName)
            && Keys(r.writers, WriterName) == Keys(incoming.writers, WriterName)
            && Keys(r.guids, GuidValue) == Keys(incoming.guids, GuidValue)
            && Keys(incoming.tags, TagName) <= Keys(r.tags, TagName)
            && (forall t :: t in existing.tags && t.externalCollectionId.Some? ==> t in r.tags)
  {
    UpdatedListsNames(ShowItem, existing, incoming);
    TagSync(existing.tags, incoming.tags);
    SyncedKeys(existing.directors, incoming.directors, DirectorName);
    SyncedKeys(existing.writers, incoming.writers, WriterName);
  }

  /**
   * The movie keeps every artwork it had whose kind is neither poster nor
   * fan art, and gains the server's first poster and first fan art.
   */
  lemma {:induction false} MovieArtwork(existing: seq<Artwork>, incoming: seq<Artwork>)
    ensures var r := UpsertedAll(existing, incoming, [Poster, FanArt]);
            && (forall a :: a in existing && a.kind != Poster && a.kind != FanArt ==> a in r)
            && (forall k :: (k == Poster || k == FanArt) && IndexOfKind(incoming, k).Some? ==> incoming[IndexOfKind(incoming, k).value] in r)
  {
    forall a | a in existing && a.kind != Poster && a.kind != FanArt
      ensures a in UpsertedAll(existing, incoming, [Poster, FanArt])
    {
      UpsertedAllKeepsKind(existing, incoming, [Poster, FanArt], a);
    }
    forall k | (k == Poster || k == FanArt) && IndexOfKind(incoming, k).Some?
      ensures incoming[IndexOfKind(incoming, k).value] in UpsertedAll(existing, incoming, [Poster, FanArt])
    {
      UpsertedAllHasIncoming(existing, incoming, [Poster, FanArt], k);
    }
  }

  // ---------------------------------------------------------------------
  // Delete by path
  // ---------------------------------------------------------------------

  /**
   * The ids the query matched are removed one by one where a movie with
   * that id is stored; the ids come back only when the save changed
   * something (some movie was removed), else an empty list.
   */
  method DeleteByPath(movies: set<int>, ids: seq<int>) returns (remaining: set<int>, r: seq<int>)
    ensures remaining == movies - (set i | i in ids)
    ensures r == (if exists i :: i in ids && i in movies then ids else [])
  {
    remaining := movies;
    var removedAny := false;
    for k := 0 to |ids|
      invariant remaining == movies - (set i | i in ids[..k])
      invariant removedAny <==> exists i :: i in ids[..k] && i in movies
    {
      assert ids[..k + 1] == ids[..k] + [ids[k]];
      if ids[k] in remaining {
        remaining := remaining - {ids[k]};
        removedAny := true;
        assert ids[k] in ids[..k + 1];
      } else if ids[k] in movies {
        assert ids[k] in ids[..k];
      }
      assert forall x :: x in ids[..k + 1] <==> x in ids[..k] || x == ids[k];
    }
    assert ids[..|ids|] == ids;
    r := if removedAny then ids else [];
  }

  /** What comes back was deleted; an empty answer with a non-empty match means no movie was stored under those ids. */
  lemma {:induction false} DeleteByPathReports(movies: set<int>, ids: seq<int>, remaining: set<int>, r: seq<int>)
    requires remaining == movies - (set i | i in ids)
    requires r == (if exists i :: i in ids && i in movies then ids else [])
    ensures forall i :: i in r ==> i !in remaining
    ensures r == [] ==> remaining == movies
    ensures r != [] ==> |remaining| < |movies|
  {
    if exists i :: i in ids && i in movies {
      var i :| i in ids && i in movies;
      SubsetSmaller(remaining, movies, i);
    } else {
      assert forall x :: x in movies ==> x !in (set i | i in ids);
    }
  }

  // ---------------------------------------------------------------------
  // AllMoviesExist
  // ---------------------------------------------------------------------

  /** The number of stored movies whose id is in the list: COUNT(*) over the Movie table. */
  function CountExisting(movies: set<int>, ids: seq<int>): nat
  {
    |ExistingIds(movies, ids)|
  }

  /** The distinct ids of the list that a stored movie has. */
  function ExistingIds(movies: set<int>, ids: seq<int>): (r: set<int>)
    ensures forall x :: x in r <==> x in ids && x in movies
  {
    set i | i in ids && i in movies
  }

  /**
   * As written: the count is compared with the length of the list. An empty
   * list passes, and a list passes exactly when its ids are all different (as
   * many distinct ids as entries) and every one of them is a stored movie.
   */
  function AllMoviesExistAsWritten(movies: set<int>, ids: seq<int>): (r: bool)
    ensures ids == [] ==> r
    ensures r <==> |set i | i in ids| == |ids| && forall i :: i in ids ==> i in movies
  {
    var wanted := set i | i in ids;
    var found := ExistingIds(movies, ids);
    DistinctAtMostLength(ids);
    assert found <= wanted;
    assert ids == [] ==> found == {};
    if forall i :: i in ids ==> i in movies then
      assert found == wanted;
      CountExisting(movies, ids) == |ids|
    else
      var j :| j in ids && j !in movies;
      SubsetSmaller(found, wanted, j);
      CountExisting(movies, ids) == |ids|
  }

  /** A list naming one stored movie twice is reported as not all existing. */
  lemma {:induction false} AllMoviesExistAsWrittenRejectsRepeats(id: int)
    ensures !AllMoviesExistAsWritten({id}, [id, id])
  {
    var ids := [id, id];
    assert forall x :: x in ids <==> x == id;
    assert ExistingIds({id}, ids) == {id};
  }

  /** Corrected: the count is compared with the number of distinct ids. */
  function AllMoviesExist(movies: set<int>, ids: seq<int>): (r: bool)
    ensures r <==> forall i :: i in ids ==> i in movies
  {
    var wanted := set i | i in ids;
    var found := ExistingIds(movies, ids);
    assert found <= wanted;
    if forall i :: i in ids ==> i in movies then
      assert found == wanted;
      CountExisting(movies, ids) == |wanted|
    else
      var j :| j in ids && j !in movies;
      SubsetSmaller(found, wanted, j);
      CountExisting(movies, ids) == |wanted|
  }

  /** A subset missing one member of the larger set is strictly smaller. */
  lemma {:induction false} SubsetSmaller(a: set<int>, b: set<int>, j: int)
    requires a <= b && j in b && j !in a
    ensures |a| < |b|
  {
    assert a + (b - a) == b;
    assert a * (b - a) == {};
    assert j in b - a;
  }

  lemma {:induction false} DistinctAtMostLength(ids: seq<int>)
    ensures |set i | i in ids| <= |ids|
    decreases |ids|
  {
    if ids != [] {
      DistinctAtMostLength(ids[1..]);
      assert (set i | i in ids) == (set i | i in ids[1..]) + {ids[0]};
    }
  }
}
