/**
 * The Jellyfin API client's projections: guids from provider ids, the
 * paging of library items, the library projection, the filter that rejects
 * non-file-system and .strm items, the rewrite of network paths to local
 * paths, and the people of an item as actors, directors and writers.
 */
module JellyfinApi {
  import opened Common
  import opened MetadataTypes

  // ---------------------------------------------------------------------
  // Guids
  // ---------------------------------------------------------------------

  datatype ProviderIds = ProviderIds(imdb: Option<string>, tmdb: Option<string>, tvdb: Option<string>)

  function GuidIf(id: Option<string>, scheme: string): (r: seq<MetadataGuid>)
  {
    if IsBlankOpt(id) then [] else [MetadataGuid(scheme + id.value)]
  }

  /**
   * GuidsFromProviderIds: imdb://, tmdb:// and tvdb:// guids, in that order,
   * for the provider ids that are present and non-blank.
   */
  function GuidsFromProviderIds(providerIds: Option<ProviderIds>): (r: seq<MetadataGuid>)
    ensures providerIds.None? ==> r == []
    ensures |r| <= 3
    ensures providerIds.Some? ==>
              (MetadataGuid("imdb://" + providerIds.value.imdb.GetOr("")) in r <==> !IsBlankOpt(providerIds.value.imdb))
  {
    match providerIds
    case None => []
    case Some(ids) =>
      var r := GuidIf(ids.imdb, "imdb://") + GuidIf(ids.tmdb, "tmdb://") + GuidIf(ids.tvdb, "tvdb://");
      assert forall g :: g in GuidIf(ids.tmdb, "tmdb://") + GuidIf(ids.tvdb, "tvdb://") ==> g.guid[0] == 't';
      r
  }

  /** The guid of each provider is present exactly when its id is non-blank, and they come in provider order. */
  lemma {:induction false} ProviderGuids(ids: ProviderIds)
    ensures GuidsFromProviderIds(Some(ids)) == GuidIf(ids.imdb, "imdb://") + GuidIf(ids.tmdb, "tmdb://") + GuidIf(ids.tvdb, "tvdb://")
    ensures forall i, j :: 0 <= i < j < |GuidsFromProviderIds(Some(ids))| ==>
              GuidsFromProviderIds(Some(ids))[i] != GuidsFromProviderIds(Some(ids))[j]
  {
    var r := GuidsFromProviderIds(Some(ids));
    forall i, j | 0 <= i < j < |r| ensures r[i] != r[j] {
      assert r[i].guid[..7] != r[j].guid[..7] by {
        assert r[i].guid[1] != r[j].guid[1] || r[i].guid[0] != r[j].guid[0];
      }
    }
  }

  // ---------------------------------------------------------------------
  // Paging
  // ---------------------------------------------------------------------

  const PageSize: int := 10

  /** C# integer division, which truncates toward zero. */
  function TruncDiv(a: int, b: int): (r: int)
    requires b > 0
    ensures a >= 0 ==> r == a / b
    ensures a < 0 ==> r == -((-a) / b)
  {
    if a >= 0 then a / b else -((-a) / b)
  }

  /** The number of pages fetched for `size` items: (size - 1) / 10 + 1 in C#. */
  function PageCount(size: nat): (r: nat)
    ensures size == 0 ==> r == 1
    ensures size > 0 ==> (r - 1) * PageSize < size <= r * PageSize
  {
    TruncDiv(size - 1, PageSize) + 1
  }

  /** LanguageExt's Map then Somes: the mapped values that are present, in order. */
  function Collect<R, T>(s: seq<R>, f: R -> Option<T>): (r: seq<T>)
    ensures |r| <= |s|
  {
    if s == [] then [] else Collect(s[..|s| - 1], f) + (match f(s[|s| - 1]) case Some(x) => [x] case None => [])
  }

  lemma {:induction false} CollectConcat<R, T>(a: seq<R>, b: seq<R>, f: R -> Option<T>)
    ensures Collect(a + b, f) == Collect(a, f) + Collect(b, f)
    decreases |b|
  {
    if b != [] {
      var b' := b[..|b| - 1];
      assert (a + b)[..|a + b| - 1] == a + b';
      CollectConcat(a, b', f);
    } else {
      assert a + b == a;
    }
  }

  /** The items of pages 0 .. pages - 1, each page asked for with skip i * 10 and take 10. */
  function PagedItems<R, T>(getItems: (int, int) -> seq<R>, mapper: R -> Option<T>, pages: nat): seq<T>
  {
    if pages == 0 then []
    else PagedItems(getItems, mapper, pages - 1) + Collect(getItems((pages - 1) * PageSize, PageSize), mapper)
  }

  /**
   * GetPagedLibraryItems: nothing without the server's admin user id;
   * otherwise every page in turn, each item mapped and the unmapped ones
   * dropped. `getItems` stands for the server's items call for that user.
   */
  method GetPagedLibraryItems<R, T>(userId: Option<string>, size: nat, getItems: (string, int, int) -> seq<R>, mapper: R -> Option<T>)
    returns (r: seq<T>)
    ensures userId.None? ==> r == []
    ensures userId.Some? ==> r == PagedItems((skip, take) => getItems(userId.value, skip, take), mapper, PageCount(size))
  {
    r := [];
    if userId.None? {
      return;
    }
    var user := userId.value;
    ghost var pageOf := (skip, take) => getItems(user, skip, take);
    var pages := TruncDiv(size - 1, PageSize) + 1;
    for i := 0 to pages
      invariant r == PagedItems(pageOf, mapper, i)
    {
      var skip := i * PageSize;
      var items := getItems(user, skip, PageSize);
      r := r + Collect(items, mapper);
    }
  }

  /** The server's page: the items from `skip`, at most `take` of them. */
  function Slice<R>(all: seq<R>, skip: int, take: int): seq<R>
    requires skip >= 0 && take >= 0
  {
    all[Min(skip, |all|)..Min(skip + take, |all|)]
  }

  lemma {:induction false} PagesSoFar<R, T>(all: seq<R>, getItems: (int, int) -> seq<R>, mapper: R -> Option<T>, pages: nat)
    requires forall skip, take :: skip >= 0 && take >= 0 ==> getItems(skip, take) == Slice(all, skip, take)
    ensures PagedItems(getItems, mapper, pages) == Collect(all[..Min(pages * PageSize, |all|)], mapper)
  {
    if pages > 0 {
      PagesSoFar(all, getItems, mapper, pages - 1);
      var lo := Min((pages - 1) * PageSize, |all|);
      var hi := Min(pages * PageSize, |all|);
      assert getItems((pages - 1) * PageSize, PageSize) == all[lo..hi];
      assert all[..hi] == all[..lo] + all[lo..hi];
      CollectConcat(all[..lo], all[lo..hi], mapper);
    }
  }

  /**
   * When the server pages a list of `size` items faithfully, the paged fetch
   * yields every item exactly once, in order.
   */
  lemma {:induction false} PagesCoverAllItems<R, T>(all: seq<R>, getItems: (int, int) -> seq<R>, mapper: R -> Option<T>)
    requires forall skip, take :: skip >= 0 && take >= 0 ==> getItems(skip, take) == Slice(all, skip, take)
    ensures PagedItems(getItems, mapper, PageCount(|all|)) == Collect(all, mapper)
  {
    PagesSoFar(all, getItems, mapper, PageCount(|all|));
    assert all[..Min(PageCount(|all|) * PageSize, |all|)] == all;
  }

  // ---------------------------------------------------------------------
  // Libraries
  // ---------------------------------------------------------------------

  /** A library folder: its local path and the network path the server shares it under. */
  datatype PathInfo = PathInfo(path: string, networkPath: Option<string>)

  predicate HasNetworkPath(pi: PathInfo) { !IsBlankOpt(pi.networkPath) }

  datatype JellyfinLibraryResponse = JellyfinLibraryResponse(
    itemId: string, name: string, collectionType: Option<string>, pathInfos: seq<PathInfo>)

  datatype JellyfinLibrary = JellyfinLibrary(library: ServerLibrary, pathInfos: seq<PathInfo>)

  /** What Project yields: the library, if any, and the collections library id it caches, if any. */
  datatype LibraryProjection = LibraryProjection(library: Option<JellyfinLibrary>, cachedCollectionsId: Option<string>)

  function LowerOpt(s: Option<string>): Option<string>
  {
    if s.Some? then Some(ToLower(s.value)) else None
  }

  /**
   * Project: a "tvshows" collection type (in any case) is a Shows library
   * and "movies" a Movies library, each with the single path
   * jellyfin://{itemId} and only the path infos that have a network path;
   * "boxsets" is not a library but its id is cached as the collections
   * library; anything else is not projected.
   */
  function ProjectLibrary(response: JellyfinLibraryResponse): (r: LibraryProjection)
    ensures r.library.Some? <==> LowerOpt(response.collectionType) in {Some("tvshows"), Some("movies")}
    ensures r.cachedCollectionsId.Some? <==> LowerOpt(response.collectionType) == Some("boxsets")
    ensures r.cachedCollectionsId.Some? ==> r.cachedCollectionsId.value == response.itemId
    ensures r.library.Some? ==>
              var lib := r.library.value;
              && lib.library.key == response.itemId && lib.library.name == response.name
              && !lib.library.shouldSyncItems
              && lib.library.paths == ["jellyfin://" + response.itemId]
              && (lib.library.mediaKind == Shows <==> LowerOpt(response.collectionType) == Some("tvshows"))
              && (lib.library.mediaKind == Movies <==> LowerOpt(response.collectionType) == Some("movies"))
              && (forall pi :: pi in lib.pathInfos <==> pi in response.pathInfos && HasNetworkPath(pi))
  {
    var paths := ["jellyfin://" + response.itemId];
    var infos := Filter(response.pathInfos, HasNetworkPath);
    match LowerOpt(response.collectionType)
    case Some("tvshows") =>
      LibraryProjection(Some(JellyfinLibrary(ServerLibrary(response.itemId, response.name, Shows, false, paths), infos)), None)
    case Some("movies") =>
      LibraryProjection(Some(JellyfinLibrary(ServerLibrary(response.itemId, response.name, Movies, false, paths), infos)), None)
    case Some("boxsets") => LibraryProjection(None, Some(response.itemId))
    case _ => LibraryProjection(None, None)
  }

  // ---------------------------------------------------------------------
  // Items
  // ---------------------------------------------------------------------

  predicate IsDirectorySeparator(c: char) { c == '/' || c == '\\' }

  /**
   * Path.GetExtension: from the last '.' of the file name to the end, or
   * empty when the name has no '.' or ends with it.
   */
  function GetExtension(path: string): (r: string)
    ensures EndsWith(path, r)
    ensures r != "" ==> r[0] == '.' && |r| >= 2
    decreases |path|
  {
    if path == [] || IsDirectorySeparator(path[|path| - 1]) then ""
    else if path[|path| - 1] == '.' then ""
    else
      var front := path[..|path| - 1];
      var e := FromLastDot(front);
      if e == "" then "" else e + [path[|path| - 1]]
  }

  /** The suffix of the file name from its last '.', or empty. */
  function FromLastDot(path: string): (r: string)
    ensures EndsWith(path, r)
    ensures r != "" ==> r[0] == '.'
    decreases |path|
  {
    if path == [] || IsDirectorySeparator(path[|path| - 1]) then ""
    else if path[|path| - 1] == '.' then "."
    else
      var e := FromLastDot(path[..|path| - 1]);
      if e == "" then "" else
        assert path == path[..|path| - 1] + [path[|path| - 1]];
        e + [path[|path| - 1]]
  }

  /**
   * Movies and episodes are projected only from items in the file system
   * whose path does not have a .strm extension (in any case); a missing
   * path has no extension.
   */
  predicate Projectable(locationType: Option<string>, path: Option<string>)
  {
    locationType == Some("FileSystem") && (path.None? || ToLower(GetExtension(path.value)) != ".strm")
  }

  /**
   * The path after the rewrite: for each path info with a network path, in
   * order, a path starting with that network path is passed through the
   * replacement service (`replace(path, networkPath, localPath)`).
   */
  function Rewritten(path: string, infos: seq<PathInfo>, replace: (string, string, string) -> string): string
    decreases |infos|
  {
    if infos == [] then path else Rewritten(Step(path, infos[0], replace), infos[1..], replace)
  }

  /** The rewrite loop: over the path infos that have a network path. */
  method RewritePath(path: string, infos: seq<PathInfo>, replace: (string, string, string) -> string) returns (r: string)
    ensures r == Rewritten(path, infos, replace)
  {
    var withNetwork := Filter(infos, HasNetworkPath);
    RewriteSkipsBlank(path, infos, replace);
    r := path;
    for k := 0 to |withNetwork|
      invariant Rewritten(r, withNetwork[k..], replace) == Rewritten(path, withNetwork, replace)
    {
      var pi := withNetwork[k];
      assert withNetwork[k..][1..] == withNetwork[k + 1..];
      if StartsWith(r, pi.networkPath.value) {
        r := replace(r, pi.networkPath.value, pi.path);
      }
    }
  }

  /** Path infos without a network path play no part in the rewrite. */
  lemma {:induction false} RewriteSkipsBlank(path: string, infos: seq<PathInfo>, replace: (string, string, string) -> string)
    ensures Rewritten(path, Filter(infos, HasNetworkPath), replace) == Rewritten(path, infos, replace)
    decreases |infos|
  {
    if infos != [] {
      var last := infos[|infos| - 1];
      var front := infos[..|infos| - 1];
      assert infos == front + [last];
      RewriteSkipsBlank(path, front, replace);
      RewrittenSnoc(path, front, last, replace);
      var kept := Filter(front, HasNetworkPath);
      assert infos[..|infos| - 1] == front;
      if HasNetworkPath(last) {
        assert Filter(infos, HasNetworkPath) == kept + [last];
        RewrittenSnoc(path, kept, last, replace);
      } else {
        assert Filter(infos, HasNetworkPath) == kept;
      }
    }
  }

  /** Rewriting through one more path info. */
  lemma {:induction false} RewrittenSnoc(path: string, infos: seq<PathInfo>, pi: PathInfo, replace: (string, string, string) -> string)
    ensures Rewritten(path, infos + [pi], replace) == Step(Rewritten(path, infos, replace), pi, replace)
    decreases |infos|
  {
    if infos == [] {
      assert (infos + [pi])[1..] == [];
    } else {
      assert (infos + [pi])[0] == infos[0];
      assert (infos + [pi])[1..] == infos[1..] + [pi];
      var next := Step(path, infos[0], replace);
      RewrittenSnoc(next, infos[1..], pi, replace);
    }
  }

  function Step(path: string, pi: PathInfo, replace: (string, string, string) -> string): string
  {
    if HasNetworkPath(pi) && StartsWith(path, pi.networkPath.value) then replace(path, pi.networkPath.value, pi.path) else path
  }

  /** A path under none of the network paths is left as it is. */
  lemma {:induction false} RewriteOutsideNetworkPaths(path: string, infos: seq<PathInfo>, replace: (string, string, string) -> string)
    requires forall i :: 0 <= i < |infos| && HasNetworkPath(infos[i]) ==> !StartsWith(path, infos[i].networkPath.value)
    ensures Rewritten(path, infos, replace) == path
    decreases |infos|
  {
    if infos != [] {
      assert forall i :: 1 <= i < |infos| ==> infos[1..][i - 1] == infos[i];
      RewriteOutsideNetworkPaths(path, infos[1..], replace);
    }
  }

  // ---------------------------------------------------------------------
  // People
  // ---------------------------------------------------------------------

  datatype Person = Person(id: Option<string>, name: string, role: Option<string>,
                           personType: Option<string>, primaryImageTag: Option<string>)

  /** The person's type, compared without regard to case. */
  predicate HasType(p: Person, t: string)
  {
    LowerOpt(p.personType) == Some(t)
  }

  /** The image path of a Jellyfin item: jellyfin://Items/{id}/Images/{kind}?tag={tag}. */
  function ImagePath(id: string, kind: string, tag: string): string
  {
    "jellyfin://Items/" + id + "/Images/" + kind + "?tag=" + tag
  }

  /** An actor, with a thumbnail when the person has an id and a primary image tag. */
  function ProjectToActor(p: Person, dateAdded: int): (r: Option<Actor>)
    ensures r.Some? <==> HasType(p, "actor")
    ensures r.Some? ==> r.value.name == p.name && r.value.role == p.role && r.value.order.None?
    ensures r.Some? ==> (r.value.artwork.Some? <==> !IsBlankOpt(p.id) && !IsBlankOpt(p.primaryImageTag))
    ensures r.Some? && r.value.artwork.Some? ==>
              r.value.artwork.value == Artwork(ImagePath(p.id.value, "Primary", p.primaryImageTag.value), Thumbnail, dateAdded, 0)
  {
    if !HasType(p, "actor") then None
    else
      var art := if !IsBlankOpt(p.id) && !IsBlankOpt(p.primaryImageTag)
                 then Some(Artwork(ImagePath(p.id.value, "Primary", p.primaryImageTag.value), Thumbnail, dateAdded, 0))
                 else None;
      Some(Actor(p.name, p.role, None, art))
  }

  function ProjectToDirector(p: Person): (r: Option<Director>)
    ensures r.Some? <==> HasType(p, "director")
    ensures r.Some? ==> r.value.name == p.name
  {
    if HasType(p, "director") then Some(Director(p.name)) else None
  }

  function ProjectToWriter(p: Person): (r: Option<Writer>)
    ensures r.Some? <==> HasType(p, "writer")
    ensures r.Some? ==> r.value.name == p.name
  {
    if HasType(p, "writer") then Some(Writer(p.name)) else None
  }

  function ActorsOf(people: seq<Person>, dateAdded: int): seq<Actor>
  {
    Collect(people, (p: Person) => ProjectToActor(p, dateAdded))
  }

  function DirectorsOf(people: seq<Person>): seq<Director>
  {
    Collect(people, ProjectToDirector)
  }

  function WritersOf(people: seq<Person>): seq<Writer>
  {
    Collect(people, ProjectToWriter)
  }

  /** Collect keeps a value exactly when some element maps to it. */
  lemma {:induction false} CollectMember<R, T>(s: seq<R>, f: R -> Option<T>, x: T)
    ensures x in Collect(s, f) <==> exists i :: 0 <= i < |s| && f(s[i]) == Some(x)
    decreases |s|
  {
    if s != [] {
      var front := s[..|s| - 1];
      CollectMember(front, f, x);
      assert forall i :: 0 <= i < |front| ==> front[i] == s[i];
    }
  }

  /** The directors are exactly the people of type director, by name. */
  lemma {:induction false} DirectorsAreTyped(people: seq<Person>, d: Director)
    ensures d in DirectorsOf(people) <==> exists i :: 0 <= i < |people| && HasType(people[i], "director") && people[i].name == d.name
  {
    CollectMember(people, ProjectToDirector, d);
  }

  /** The writers are exactly the people of type writer, by name. */
  lemma {:induction false} WritersAreTyped(people: seq<Person>, w: Writer)
    ensures w in WritersOf(people) <==> exists i :: 0 <= i < |people| && HasType(people[i], "writer") && people[i].name == w.name
  {
    CollectMember(people, ProjectToWriter, w);
  }

  function CountWhere(people: seq<Person>, t: string): nat
  {
    if people == [] then 0 else CountWhere(people[..|people| - 1], t) + (if HasType(people[|people| - 1], t) then 1 else 0)
  }

  /** One person per role list: each person is at most one of actor, director and writer. */
  lemma {:induction false} PeopleSplitByType(people: seq<Person>, dateAdded: int)
    ensures |ActorsOf(people, dateAdded)| == CountWhere(people, "actor")
    ensures |DirectorsOf(people)| == CountWhere(people, "director")
    ensures |WritersOf(people)| == CountWhere(people, "writer")
    ensures |ActorsOf(people, dateAdded)| + |DirectorsOf(people)| + |WritersOf(people)| <= |people|
  {
    if people != [] {
      PeopleSplitByType(people[..|people| - 1], dateAdded);
    }
  }

  /**
   * The actors of a movie, their Order set to their position in the list
   * of people who are actors.
   */
  method OrderedActors(people: seq<Person>, dateAdded: int) returns (r: seq<Actor>)
    ensures |r| == |ActorsOf(people, dateAdded)|
    ensures forall i :: 0 <= i < |r| ==> r[i] == ActorsOf(people, dateAdded)[i].(order := Some(i))
  {
    r := ActorsOf(people, dateAdded);
    for i := 0 to |r|
      invariant |r| == |ActorsOf(people, dateAdded)|
      invariant forall j :: 0 <= j < i ==> r[j] == ActorsOf(people, dateAdded)[j].(order := Some(j))
      invariant forall j :: i <= j < |r| ==> r[j] == ActorsOf(people, dateAdded)[j]
    {
      r := r[i := r[i].(order := Some(i))];
    }
  }

  // ---------------------------------------------------------------------
  // Movies and episodes
  // ---------------------------------------------------------------------

  datatype JellyfinItem = JellyfinItem(
    id: string, etag: Option<string>, name: string, locationType: Option<string>, path: Option<string>,
    runTimeTicks: int, dateCreated: int, indexNumber: Option<int>, people: seq<Person>,
    providerIds: Option<ProviderIds>)

  /** What the projection of a movie or an episode carries over from the item. */
  datatype ProjectedItem = ProjectedItem(
    itemId: string, etag: Option<string>, path: string, duration: int, dateAdded: int,
    episodeNumber: int, actors: seq<Actor>, directors: seq<Director>, writers: seq<Writer>,
    guids: seq<MetadataGuid>)

  /**
   * ProjectToMovie: only projectable items; the path rewritten to a local
   * path; the actors in order with Order set, the directors, writers and
   * provider guids.
   */
  method ProjectToMovie(library: JellyfinLibrary, item: JellyfinItem, replace: (string, string, string) -> string)
    returns (r: Option<ProjectedItem>)
    ensures r.None? <==> !Projectable(item.locationType, item.path)
    ensures r.Some? ==>
              && r.value.itemId == item.id && r.value.etag == item.etag
              && r.value.path == Rewritten(item.path.GetOr(""), library.pathInfos, replace)
              && r.value.duration == item.runTimeTicks && r.value.dateAdded == item.dateCreated
              && |r.value.actors| == |ActorsOf(item.people, item.dateCreated)|
              && (forall i :: 0 <= i < |r.value.actors| ==>
                    r.value.actors[i] == ActorsOf(item.people, item.dateCreated)[i].(order := Some(i)))
              && r.value.directors == DirectorsOf(item.people)
              && r.value.writers == WritersOf(item.people)
              && r.value.guids == GuidsFromProviderIds(item.providerIds)
  {
    if !Projectable(item.locationType, item.path) {
      return None;
    }
    var path := RewritePath(item.path.GetOr(""), library.pathInfos, replace);
    var actors := OrderedActors(item.people, item.dateCreated);
    r := Some(ProjectedItem(item.id, item.etag, path, item.runTimeTicks, item.dateCreated, 0, actors,
                            DirectorsOf(item.people), WritersOf(item.people), GuidsFromProviderIds(item.providerIds)));
  }

  /**
   * ProjectToEpisode: only projectable items; the path rewritten to a local
   * path; no actors; the episode number only when the item has an index
   * number (otherwise the default, zero).
   */
  method ProjectToEpisode(library: JellyfinLibrary, item: JellyfinItem, replace: (string, string, string) -> string)
    returns (r: Option<ProjectedItem>)
    ensures r.None? <==> !Projectable(item.locationType, item.path)
    ensures r.Some? ==>
              && r.value.itemId == item.id && r.value.etag == item.etag
              && r.value.path == Rewritten(item.path.GetOr(""), library.pathInfos, replace)
              && r.value.duration == item.runTimeTicks && r.value.dateAdded == item.dateCreated
              && (item.indexNumber.Some? ==> r.value.episodeNumber == item.indexNumber.value)
              && (item.indexNumber.None? ==> r.value.episodeNumber == 0)
              && r.value.actors == []
              && r.value.directors == DirectorsOf(item.people)
              && r.value.writers == WritersOf(item.people)
              && r.value.guids == GuidsFromProviderIds(item.providerIds)
  {
    if !Projectable(item.locationType, item.path) {
      return None;
    }
    var path := RewritePath(item.path.GetOr(""), library.pathInfos, replace);
    var episodeNumber := 0;
    if item.indexNumber.Some? {
      episodeNumber := item.indexNumber.value;
    }
    r := Some(ProjectedItem(item.id, item.etag, path, item.runTimeTicks, item.dateCreated, episodeNumber, [],
                            DirectorsOf(item.people), WritersOf(item.people), GuidsFromProviderIds(item.providerIds)));
  }

  /** A .strm file is never projected, whatever the case of its extension. */
  lemma {:induction false} StrmRejected(name: string)
    requires '/' !in name && '\\' !in name && '.' !in name && |name| > 0
    ensures !Projectable(Some("FileSystem"), Some(name + ".strm"))
    ensures !Projectable(Some("FileSystem"), Some(name + ".STRM"))
  {
    ExtensionOf(name, "strm");
    ExtensionOf(name, "STRM");
    assert name + ".strm" == name + "." + "strm";
    assert name + ".STRM" == name + "." + "STRM";
    assert ToLower(".strm") == ".strm" by { LowerDotStrm(); }
    assert ToLower(".STRM") == ".strm" by { LowerDotStrm(); }
  }

  lemma {:induction false} LowerDotStrm()
    ensures ToLower(".strm") == ".strm" && ToLower(".STRM") == ".strm"
  {
    assert ToLower(".strm") == [LowerChar('.')] + ToLower("strm");
    assert ToLower(".STRM") == [LowerChar('.')] + ToLower("STRM");
  }

  lemma {:induction false} ExtensionOf(name: string, ext: string)
    requires '/' !in name && '\\' !in name && '.' !in name
    requires |ext| > 0 && '/' !in ext && '\\' !in ext && '.' !in ext
    ensures GetExtension(name + "." + ext) == "." + ext
  {
    var e := ext[..|ext| - 1];
    var last := ext[|ext| - 1];
    assert ext == e + [last];
    var front := name + "." + e;
    var p := front + [last];
    assert p == name + "." + ext;
    SnocParts(front, last);
    assert last in ext;
    DotSuffix(name, e);
    assert ("." + e) + [last] == "." + ext;
  }

  /** The front and the last element of a sequence with one element appended. */
  lemma {:induction false} SnocParts<T>(a: seq<T>, x: T)
    ensures (a + [x])[..|a|] == a && (a + [x])[|a|] == x
  {
  }

  lemma {:induction false} DotSuffix(name: string, ext: string)
    requires '/' !in ext && '\\' !in ext && '.' !in ext
    ensures FromLastDot(name + "." + ext) == "." + ext
    decreases |ext|
  {
    var p := name + "." + ext;
    if ext == [] {
      assert p[|p| - 1] == '.';
    } else {
      assert p[..|p| - 1] == name + "." + ext[..|ext| - 1];
      DotSuffix(name, ext[..|ext| - 1]);
      assert ("." + ext[..|ext| - 1]) + [ext[|ext| - 1]] == "." + ext;
    }
  }
}
