/**
 * The list synchronisation the media-server repositories (Jellyfin shows,
 * seasons, episodes and movies) run on a tracked entity before saving it.
 * It differs from the scanner's name-keyed sync in three ways: a tag that
 * belongs to an external collection is never removed, an existing actor is
 * also replaced when the incoming entry with its name brings artwork it
 * lacks, and posters, thumbnails and fan art are upserted in place, one
 * per kind, from the first incoming artwork of that kind.
 */
module MediaServerSync {
  import opened Common
  import opened MetadataTypes
  import opened MetadataSync

  /** Remove and Add on a tracked entity list always succeed; the changes are saved together later. */
  function Tracked<T>(x: T): bool { true }

  // ---------------------------------------------------------------------
  // Sync with a removal rule
  // ---------------------------------------------------------------------

  /**
   * The list after the removal loop (every existing item failing `keep`
   * is removed) and the addition loop (every incoming item whose key is
   * not among what is left is appended).
   */
  function SyncedWhere<T(==,!new), K(==)>(existing: seq<T>, incoming: seq<T>, key: T -> K, keep: T -> bool): (r: seq<T>)
    ensures forall x :: x in r <==>
              (x in existing && keep(x)) || (x in incoming && key(x) !in Keys(Filter(existing, keep), key))
  {
    var kept := Filter(existing, keep);
    kept + KeepOut(incoming, Keys(kept, key), key)
  }

  method SyncWhere<T(==,!new), K(==)>(existing: seq<T>, incoming: seq<T>, key: T -> K, keep: T -> bool)
    returns (r: seq<T>)
    ensures r == SyncedWhere(existing, incoming, key, keep)
  {
    var kept := [];
    for i := 0 to |existing|
      invariant kept == Filter(existing[..i], keep)
    {
      FilterSnoc(existing, i, keep);
      if keep(existing[i]) {
        kept := kept + [existing[i]];
      }
    }
    assert existing[..|existing|] == existing;
    var addedAny;
    r, addedAny := AddPass(kept, KeepOut(incoming, Keys(kept, key), key), Tracked);
  }

  /** The plain name-keyed lists (genres, studios, directors, writers, guids): both loops, nothing protected. */
  method SyncByName<T(==,!new), K(==)>(existing: seq<T>, incoming: seq<T>, key: T -> K) returns (r: seq<T>)
    ensures r == Synced(existing, incoming, key)
  {
    var updated;
    r, updated := SyncByKey(existing, incoming, key, Tracked, Tracked);
  }

  /** The keys after the sync: those of the kept items and all incoming keys. */
  lemma {:induction false} SyncedWhereKeys<T(!new), K>(existing: seq<T>, incoming: seq<T>, key: T -> K, keep: T -> bool)
    ensures Keys(SyncedWhere(existing, incoming, key, keep), key) == Keys(Filter(existing, keep), key) + Keys(incoming, key)
  {
    var kept := Filter(existing, keep);
    var r := SyncedWhere(existing, incoming, key, keep);
    forall k | k in Keys(incoming, key)
      ensures k in Keys(r, key)
    {
      var x :| x in incoming && key(x) == k;
      if k !in Keys(kept, key) {
        assert x in r;
      } else {
        var y :| y in kept && key(y) == k;
        assert y in r;
      }
    }
  }

  // ---------------------------------------------------------------------
  // Tags
  // ---------------------------------------------------------------------

  /** A tag stays when the incoming list has its name or when it belongs to an external collection. */
  function TagKeeper(incoming: seq<Tag>): Tag -> bool
  {
    (t: Tag) => t.name in Keys(incoming, TagName) || t.externalCollectionId.Some?
  }

  /**
   * After the tag sync: no external-collection tag is gone, every incoming
   * name is present, every name present is incoming or an external
   * collection's, and a plain existing tag stays exactly when its name is
   * incoming.
   */
  lemma {:induction false} TagSync(existing: seq<Tag>, incoming: seq<Tag>)
    ensures var r := SyncedWhere(existing, incoming, TagName, TagKeeper(incoming));
            && (forall t :: t in existing && t.externalCollectionId.Some? ==> t in r)
            && Keys(incoming, TagName) <= Keys(r, TagName)
            && (forall t :: t in r ==> t.name in Keys(incoming, TagName) || (t in existing && t.externalCollectionId.Some?))
            && (forall t :: t in existing && t.externalCollectionId.None? ==> (t in r <==> t.name in Keys(incoming, TagName)))
  {
    SyncedWhereKeys(existing, incoming, TagName, TagKeeper(incoming));
  }

  // ---------------------------------------------------------------------
  // Actors
  // ---------------------------------------------------------------------

  /**
   * An existing actor stays when some incoming actor has its name and does
   * not bring artwork the existing entry lacks.
   */
  function ActorKeeper(incoming: seq<Actor>): Actor -> bool
  {
    (a: Actor) => exists a2 :: a2 in incoming && a2.name == a.name && (a.artwork.Some? || a2.artwork.None?)
  }

  /**
   * After the actor sync the names present are exactly the incoming names;
   * an existing actor whose name is gone is removed, and so is one without
   * artwork when every incoming actor with its name has artwork; every
   * other existing actor with an incoming name stays.
   */
  lemma {:induction false} ActorSync(existing: seq<Actor>, incoming: seq<Actor>)
    ensures var r := SyncedWhere(existing, incoming, ActorName, ActorKeeper(incoming));
            && Keys(r, ActorName) == Keys(incoming, ActorName)
            && (forall a :: a in existing && a.name !in Keys(incoming, ActorName) ==> a !in r)
            && (forall a :: (a in existing && a.artwork.None?
                             && (forall a2 :: a2 in incoming && a2.name == a.name ==> a2.artwork.Some?)) ==> a !in r)
            && (forall a :: a in existing && ActorKeeper(incoming)(a) ==> a in r)
  {
    var keep := ActorKeeper(incoming);
    SyncedWhereKeys(existing, incoming, ActorName, keep);
    var kept := Filter(existing, keep);
    forall k | k in Keys(kept, ActorName)
      ensures k in Keys(incoming, ActorName)
    {
      var a :| a in kept && a.name == k;
      var a2 :| a2 in incoming && a2.name == a.name && (a.artwork.Some? || a2.artwork.None?);
    }
  }

  // ---------------------------------------------------------------------
  // Artwork
  // ---------------------------------------------------------------------

  function PathOfArtwork(a: Artwork): string { a.path }

  /** FirstOrDefault(a => a.ArtworkKind == k), as an index. */
  function IndexOfKind(s: seq<Artwork>, k: ArtworkKind): (r: Option<nat>)
    ensures r.Some? ==> r.value < |s| && s[r.value].kind == k && forall j :: 0 <= j < r.value ==> s[j].kind != k
    ensures r.None? ==> forall j :: 0 <= j < |s| ==> s[j].kind != k
  {
    if s == [] then None
    else if s[0].kind == k then Some(0)
    else match IndexOfKind(s[1..], k)
      case None => None
      case Some(i) => Some(i + 1)
  }

  /**
   * The upsert of one artwork kind: when the incoming metadata has artwork
   * of that kind, the first existing artwork of the kind takes its path
   * and dates, or, if there is none, a new one is appended.
   */
  function Upserted(s: seq<Artwork>, incoming: seq<Artwork>, k: ArtworkKind): (r: seq<Artwork>)
    ensures IndexOfKind(incoming, k).None? ==> r == s
    ensures IndexOfKind(incoming, k).Some? ==>
              && IndexOfKind(r, k).Some?
              && r[IndexOfKind(r, k).value] == incoming[IndexOfKind(incoming, k).value]
              && |r| == if IndexOfKind(s, k).Some? then |s| else |s| + 1
    ensures forall j :: 0 <= j < |s| && s[j].kind != k ==> r[j] == s[j]
  {
    match IndexOfKind(incoming, k)
    case None => s
    case Some(ii) =>
      var a := incoming[ii];
      match IndexOfKind(s, k)
      case None =>
        var r := s + [Artwork(a.path, k, a.dateAdded, a.dateUpdated)];
        assert IndexOfKind(r, k) == Some(|s|) by { IndexOfKindFirst(r, k, |s|); }
        r
      case Some(i) =>
        var r := s[i := s[i].(path := a.path, dateAdded := a.dateAdded, dateUpdated := a.dateUpdated)];
        assert IndexOfKind(r, k) == Some(i) by { IndexOfKindFirst(r, k, i); }
        r
  }

  /** The index FirstOrDefault finds is the first index with the kind. */
  lemma {:induction false} IndexOfKindFirst(s: seq<Artwork>, k: ArtworkKind, i: nat)
    requires i < |s| && s[i].kind == k
    requires forall j :: 0 <= j < i ==> s[j].kind != k
    ensures IndexOfKind(s, k) == Some(i)
  {
    if i > 0 {
      IndexOfKindFirst(s[1..], k, i - 1);
    }
  }

  /** The artwork left after the last step: only paths the incoming metadata has. */
  function Pruned(s: seq<Artwork>, incoming: seq<Artwork>): (r: seq<Artwork>)
    ensures forall a :: a in r <==> a in s && a.path in Keys(incoming, PathOfArtwork)
  {
    KeepIn(s, Keys(incoming, PathOfArtwork), PathOfArtwork)
  }

  /** Upserting several kinds in order. */
  function UpsertedAll(s: seq<Artwork>, incoming: seq<Artwork>, kinds: seq<ArtworkKind>): seq<Artwork>
    decreases |kinds|
  {
    if kinds == [] then s else UpsertedAll(Upserted(s, incoming, kinds[0]), incoming, kinds[1..])
  }

  /** An upsert of another kind keeps an artwork where it is. */
  lemma {:induction false} UpsertedKeepsMember(s: seq<Artwork>, incoming: seq<Artwork>, k: ArtworkKind, a: Artwork)
    requires a in s && a.kind != k
    ensures a in Upserted(s, incoming, k)
  {
    var j :| 0 <= j < |s| && s[j] == a;
    assert Upserted(s, incoming, k)[j] == a;
  }

  /**
   * After upserting a list of distinct kinds, the first incoming artwork
   * of each of them is present.
   */
  lemma {:induction false} UpsertedAllHasIncoming(s: seq<Artwork>, incoming: seq<Artwork>, kinds: seq<ArtworkKind>, k: ArtworkKind)
    requires forall i, j :: 0 <= i < j < |kinds| ==> kinds[i] != kinds[j]
    requires k in kinds && IndexOfKind(incoming, k).Some?
    ensures incoming[IndexOfKind(incoming, k).value] in UpsertedAll(s, incoming, kinds)
    decreases |kinds|
  {
    var s1 := Upserted(s, incoming, kinds[0]);
    if kinds[0] == k {
      var a := incoming[IndexOfKind(incoming, k).value];
      assert a in s1;
      UpsertedAllKeepsKind(s1, incoming, kinds[1..], a);
    } else {
      assert k in kinds[1..];
      UpsertedAllHasIncoming(s1, incoming, kinds[1..], k);
    }
  }

  /** Upserting kinds other than an artwork's own keeps it. */
  lemma {:induction false} UpsertedAllKeepsKind(s: seq<Artwork>, incoming: seq<Artwork>, kinds: seq<ArtworkKind>, a: Artwork)
    requires a in s && a.kind !in kinds
    ensures a in UpsertedAll(s, incoming, kinds)
    decreases |kinds|
  {
    if kinds != [] {
      UpsertedKeepsMember(s, incoming, kinds[0], a);
      UpsertedAllKeepsKind(Upserted(s, incoming, kinds[0]), incoming, kinds[1..], a);
    }
  }

  /**
   * The artwork after upserting `kinds` and pruning: the first incoming
   * artwork of each upserted kind is there, and every artwork left has an
   * incoming path.
   */
  lemma {:induction false} UpsertedThenPruned(s: seq<Artwork>, incoming: seq<Artwork>, kinds: seq<ArtworkKind>)
    requires forall i, j :: 0 <= i < j < |kinds| ==> kinds[i] != kinds[j]
    ensures var r := Pruned(UpsertedAll(s, incoming, kinds), incoming);
            && (forall a :: a in r ==> exists b :: b in incoming && b.path == a.path)
            && (forall k :: k in kinds && IndexOfKind(incoming, k).Some? ==> incoming[IndexOfKind(incoming, k).value] in r)
  {
    forall k | k in kinds && IndexOfKind(incoming, k).Some?
      ensures incoming[IndexOfKind(incoming, k).value] in Pruned(UpsertedAll(s, incoming, kinds), incoming)
    {
      UpsertedAllHasIncoming(s, incoming, kinds, k);
      assert incoming[IndexOfKind(incoming, k).value] in incoming;
    }
  }

  /** The upsert of one artwork kind: overwrite the first of that kind, or append one. */
  method UpsertArtwork(s: seq<Artwork>, incoming: seq<Artwork>, k: ArtworkKind) returns (r: seq<Artwork>)
    ensures r == Upserted(s, incoming, k)
  {
    r := s;
    var found := IndexOfKind(incoming, k);
    if found.Some? {
      var a := incoming[found.value];
      var existing := IndexOfKind(r, k);
      if existing.None? {
        r := r + [Artwork(a.path, k, a.dateAdded, a.dateUpdated)];
      } else {
        var i := existing.value;
        r := r[i := r[i].(path := a.path, dateAdded := a.dateAdded, dateUpdated := a.dateUpdated)];
      }
    }
  }

  /**
   * The artwork steps of an update: the upserts of `kinds` one after the
   * other, then the removal loop over artwork whose path the server no
   * longer lists.
   */
  method RefreshArtwork(s: seq<Artwork>, incoming: seq<Artwork>, kinds: seq<ArtworkKind>, prune: bool)
    returns (r: seq<Artwork>)
    ensures r == (if prune then Pruned(UpsertedAll(s, incoming, kinds), incoming) else UpsertedAll(s, incoming, kinds))
  {
    r := s;
    var i := 0;
    while i < |kinds|
      invariant 0 <= i <= |kinds|
      invariant UpsertedAll(r, incoming, kinds[i..]) == UpsertedAll(s, incoming, kinds)
    {
      assert kinds[i..][1..] == kinds[i + 1..];
      r := UpsertArtwork(r, incoming, kinds[i]);
      i := i + 1;
    }
    if prune {
      var removedAny;
      r, removedAny := RemovePass(r, Keys(incoming, PathOfArtwork), PathOfArtwork, Tracked);
    }
  }

  // ---------------------------------------------------------------------
  // A tracked media-server item
  // ---------------------------------------------------------------------

  /** The head media version's name and date added, and the path of its head file. */
  datatype HeadVersion = HeadVersion(name: Option<string>, dateAdded: int, filePath: string)

  /** An item as the media-server client projected it (the incoming side of an update). */
  datatype IncomingItem = IncomingItem(
    itemId: string,
    etag: string,
    fields: Fields,
    lists: Collections,
    artwork: seq<Artwork>,
    seasonNumber: int,
    episodeNumber: int,
    version: HeadVersion)

  /**
   * A media-server item loaded with its head metadata, head version and
   * head file, as the repository tracks it. One class serves shows,
   * seasons, episodes and movies; each update touches only what the
   * repository's update for that kind touches.
   */
  class ServerItem {
    const id: int
    const itemId: string
    var etag: string
    var libraryPathId: int
    var fields: Fields
    var lists: Collections
    var artwork: seq<Artwork>
    var seasonNumber: int
    var episodeNumber: int
    var version: HeadVersion

    /** A new row made from the incoming item. */
    constructor(id: int, incoming: IncomingItem, libraryPathId: int)
      ensures this.id == id && itemId == incoming.itemId && etag == incoming.etag
      ensures this.libraryPathId == libraryPathId
      ensures fields == incoming.fields && lists == incoming.lists && artwork == incoming.artwork
      ensures seasonNumber == incoming.seasonNumber && episodeNumber == incoming.episodeNumber
      ensures version == incoming.version
    {
      this.id := id;
      itemId := incoming.itemId;
      etag := incoming.etag;
      this.libraryPathId := libraryPathId;
      fields := incoming.fields;
      lists := incoming.lists;
      artwork := incoming.artwork;
      seasonNumber := incoming.seasonNumber;
      episodeNumber := incoming.episodeNumber;
      version := incoming.version;
    }
  }
}
