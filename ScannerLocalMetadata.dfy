/**
 * The scanner's local metadata provider: years and air dates from NFO
 * fields, the movie NFO's year and release date, genre splitting, actors
 * from NFO entries, and the write-back of fresh metadata onto what the
 * database already holds (movie and episode rows, and the name-keyed lists
 * of each). File reading and NFO parsing are not modelled; their results
 * arrive as values. Repository calls are the oracles of a `Repository`.
 */
module ScannerLocalMetadata {
  import opened Common
  import opened MetadataTypes
  import opened MetadataSync

  // ---------------------------------------------------------------------
  // Years and dates
  // ---------------------------------------------------------------------

  /** A year is believed only when it is after 1000. */
  predicate PlausibleYear(year: Option<int>)
  {
    year.Some? && year.value > 1000
  }

  /** GetYear: the NFO year when plausible, else the premiered date's year, else none. */
  function GetYear(year: Option<int>, premiered: Option<Date>): (r: Option<int>)
    ensures PlausibleYear(year) ==> r == year
    ensures !PlausibleYear(year) && premiered.Some? ==> r == Some(premiered.value.year)
    ensures r.None? <==> !PlausibleYear(year) && premiered.None?
  {
    if PlausibleYear(year) then year
    else match premiered
      case Some(p) => Some(p.year)
      case None => None
  }

  /** GetAired: the aired date when there is one, else January 1 of a plausible year, else none. */
  function GetAired(year: Option<int>, aired: Option<Date>): (r: Option<Date>)
    ensures aired.Some? ==> r == aired
    ensures aired.None? && PlausibleYear(year) ==> r == Some(Jan1(year.value))
    ensures r.None? <==> aired.None? && !PlausibleYear(year)
  {
    match aired
    case Some(a) => Some(a)
    case None => if PlausibleYear(year) then Some(Jan1(year.value)) else None
  }

  /**
   * Given the same date, a year and an air date are found together; with no
   * date at all the air date is January 1 of the year found.
   */
  lemma {:induction false} YearAndAiredTogether(year: Option<int>, date: Option<Date>)
    ensures GetYear(year, date).Some? <==> GetAired(year, date).Some?
    ensures date.None? && GetYear(year, date).Some? ==>
              GetAired(year, date) == Some(Jan1(GetYear(year, date).value))
    ensures date.Some? ==> GetAired(year, date).value.year == date.value.year
  {
  }

  /**
   * The movie NFO's year and release date: the NFO year when after 1000
   * (else 0) with January 1 of it as release date (else DateTime.MinValue);
   * a premiered date then replaces the release date, and supplies the year
   * when none was taken.
   */
  method MovieYearAndReleaseDate(nfoYear: int, premiered: Option<Date>) returns (year: int, releaseDate: Date)
    ensures year == GetYear(Some(nfoYear), premiered).GetOr(0)
    ensures releaseDate == GetAired(Some(nfoYear), premiered).GetOr(MinDate)
  {
    year := 0;
    if nfoYear > 1000 {
      year := nfoYear;
    }
    releaseDate := if year > 0 then Jan1(year) else MinDate;
    if premiered.Some? {
      if year == 0 {
        year := premiered.value.year;
      }
      releaseDate := premiered.value;
    }
  }

  // ---------------------------------------------------------------------
  // Genres
  // ---------------------------------------------------------------------

  /** The separators a genre string may use besides the default comma. */
  const GenreSeparators: seq<char> := "/|;\\"

  /**
   * The delimiters SplitGenres uses: those of '/', '|', ';' and '\\' that
   * occur in the genre string, or a comma when none does.
   */
  function GenreDelimiters(genre: string): (r: seq<char>)
    ensures |r| > 0
    ensures forall c :: c in r <==>
              (c in GenreSeparators && c in genre) || (c == ',' && NoneOf(genre, GenreSeparators))
    ensures NoneOf(genre, GenreSeparators) ==> r == [',']
  {
    var present := Filter(GenreSeparators, (d: char) => d in genre);
    assert ',' !in GenreSeparators;
    if present == [] then
      assert NoneOf(genre, GenreSeparators);
      [',']
    else
      assert present[0] in present;
      present
  }

  /** The trimmed non-blank pieces, in order. */
  function TrimmedNonBlank(pieces: seq<string>): seq<string>
  {
    TrimAll(Filter(pieces, NotBlank))
  }

  /** Each trimmed piece is non-blank, has no white space at its ends, and keeps no delimiter. */
  lemma {:induction false} TrimmedNonBlankShape(pieces: seq<string>, delimiters: seq<char>, x: string)
    requires forall i :: 0 <= i < |pieces| ==> NoneOf(pieces[i], delimiters)
    requires x in TrimmedNonBlank(pieces)
    ensures NotBlank(x) && !IsWhiteSpace(x[0]) && !IsWhiteSpace(x[|x| - 1])
    ensures NoneOf(x, delimiters)
    ensures exists p :: p in pieces && NotBlank(p) && Trim(p) == x
  {
    var kept := Filter(pieces, NotBlank);
    var i :| 0 <= i < |kept| && TrimmedNonBlank(pieces)[i] == x;
    var p := kept[i];
    assert p in kept;
    assert x == Trim(p);
    var j :| 0 <= j < |pieces| && pieces[j] == p;
    TrimNotBlank(p);
    TrimChars(p);
  }

  /** Every non-blank piece appears trimmed. */
  lemma {:induction false} TrimmedNonBlankHas(pieces: seq<string>, p: string)
    requires p in pieces && NotBlank(p)
    ensures Trim(p) in TrimmedNonBlank(pieces)
  {
    var kept := Filter(pieces, NotBlank);
    assert p in kept;
    var i :| 0 <= i < |kept| && kept[i] == p;
    assert TrimmedNonBlank(pieces)[i] == Trim(p);
  }

  /**
   * SplitGenres: split on the delimiters, drop the blank pieces and trim
   * the rest.
   */
  function SplitGenres(genre: string): (r: seq<string>)
    ensures forall x :: x in r ==> NotBlank(x) && !IsWhiteSpace(x[0]) && !IsWhiteSpace(x[|x| - 1])
    ensures forall x :: x in r ==> NoneOf(x, GenreDelimiters(genre))
    ensures forall x :: x in r <==> exists p :: p in SplitAny(genre, GenreDelimiters(genre)) && NotBlank(p) && Trim(p) == x
  {
    var delimiters := GenreDelimiters(genre);
    var pieces := SplitAny(genre, delimiters);
    forall x | x in TrimmedNonBlank(pieces)
      ensures NotBlank(x) && !IsWhiteSpace(x[0]) && !IsWhiteSpace(x[|x| - 1])
      ensures NoneOf(x, delimiters)
      ensures exists p :: p in pieces && NotBlank(p) && Trim(p) == x
    {
      TrimmedNonBlankShape(pieces, delimiters, x);
    }
    forall p | p in pieces && NotBlank(p)
      ensures Trim(p) in TrimmedNonBlank(pieces)
    {
      TrimmedNonBlankHas(pieces, p);
    }
    TrimmedNonBlank(pieces)
  }

  /** A non-blank genre with no delimiter character at all is one genre, trimmed. */
  lemma {:induction false} SingleGenre(genre: string)
    requires NotBlank(genre) && NoneOf(genre, GenreSeparators + ",")
    ensures SplitGenres(genre) == [Trim(genre)]
  {
    var delimiters := GenreDelimiters(genre);
    assert NoneOf(genre, GenreSeparators);
    SplitAnyNone(genre, delimiters);
    assert Filter([genre], NotBlank) == [genre] by {
      assert [genre][..0] == [];
    }
  }

  // ---------------------------------------------------------------------
  // Actors
  // ---------------------------------------------------------------------

  /** An actor entry of an NFO file. */
  datatype ActorNfo = ActorNfo(name: string, role: Option<string>, order: Option<int>, thumb: Option<string>)

  /**
   * Actors: one actor per NFO entry, in order, ordered by the entry's own
   * order or else by its position, with a thumbnail artwork exactly when
   * the entry names a non-blank thumb.
   */
  method Actors(nfos: seq<ActorNfo>, dateAdded: int, dateUpdated: int) returns (r: seq<Actor>)
    ensures |r| == |nfos|
    ensures forall i :: 0 <= i < |nfos| ==>
              && r[i].name == nfos[i].name
              && r[i].role == nfos[i].role
              && r[i].order == Some(nfos[i].order.GetOr(i))
              && (r[i].artwork.Some? <==> !IsBlankOpt(nfos[i].thumb))
              && (r[i].artwork.Some? ==> r[i].artwork.value == Artwork(nfos[i].thumb.value, Thumbnail, dateAdded, dateUpdated))
    ensures (forall i :: 0 <= i < |nfos| ==> nfos[i].order.None?) ==>
              forall i, j :: 0 <= i < j < |r| ==> r[i].order != r[j].order
  {
    r := [];
    for i := 0 to |nfos|
      invariant |r| == i
      invariant forall k :: 0 <= k < i ==>
                  && r[k].name == nfos[k].name
                  && r[k].role == nfos[k].role
                  && r[k].order == Some(nfos[k].order.GetOr(k))
                  && (r[k].artwork.Some? <==> !IsBlankOpt(nfos[k].thumb))
                  && (r[k].artwork.Some? ==> r[k].artwork.value == Artwork(nfos[k].thumb.value, Thumbnail, dateAdded, dateUpdated))
    {
      var nfo := nfos[i];
      var actor := Actor(nfo.name, nfo.role, Some(nfo.order.GetOr(i)), None);
      if !IsBlankOpt(nfo.thumb) {
        actor := actor.(artwork := Some(Artwork(nfo.thumb.value, Thumbnail, dateAdded, dateUpdated)));
      }
      r := r + [actor];
    }
  }

  // ---------------------------------------------------------------------
  // Writing metadata back
  // ---------------------------------------------------------------------

  /**
   * The repository calls a write-back makes, by their boolean answers:
   * whether removing or adding a list item, updating the row or adding a
   * new row changed anything in the database.
   */
  datatype Repository = Repository(
    removeGenre: Genre -> bool, addGenre: Genre -> bool,
    removeTag: Tag -> bool, addTag: Tag -> bool,
    removeStudio: Studio -> bool, addStudio: Studio -> bool,
    removeActor: Actor -> bool, addActor: Actor -> bool,
    removeDirector: Director -> bool, addDirector: Director -> bool,
    removeWriter: Writer -> bool, addWriter: Writer -> bool,
    removeGuid: MetadataGuid -> bool, addGuid: MetadataGuid -> bool,
    update: Metadata -> bool, add: Metadata -> bool)

  /** The sort title to store: the given one unless blank, else one derived from the title. */
  function SortTitleFor(fields: Fields, sortTitleOf: Option<string> -> string): Option<string>
  {
    if IsBlankOpt(fields.sortTitle) then Some(sortTitleOf(fields.title)) else fields.sortTitle
  }

  /**
   * The columns an update copies: every column comes from the incoming
   * metadata, except that DateAdded is kept once set, a blank sort title is
   * derived from the title, and only a movie takes the content rating.
   */
  function UpdatedFields(kind: OwnerKind, existing: Fields, incoming: Fields, sortTitleOf: Option<string> -> string): (r: Fields)
    ensures r.(dateAdded := incoming.dateAdded, sortTitle := incoming.sortTitle, contentRating := incoming.contentRating) == incoming
    ensures existing.dateAdded != MinValueUtc ==> r.dateAdded == existing.dateAdded
    ensures existing.dateAdded == MinValueUtc ==> r.dateAdded == incoming.dateAdded
    ensures !IsBlankOpt(incoming.sortTitle) ==> r.sortTitle == incoming.sortTitle
    ensures IsBlankOpt(incoming.sortTitle) ==> r.sortTitle == Some(sortTitleOf(incoming.title))
    ensures r.contentRating == if kind == MovieOwner then incoming.contentRating else existing.contentRating
  {
    incoming.(
      dateAdded := if existing.dateAdded == MinValueUtc then incoming.dateAdded else existing.dateAdded,
      sortTitle := SortTitleFor(incoming, sortTitleOf),
      contentRating := if kind == MovieOwner then incoming.contentRating else existing.contentRating)
  }

  /** Whether UpdateMetadataCollections touches a kind's actors: all but music videos and songs. */
  predicate SyncsActors(kind: OwnerKind)
  {
    kind != MusicVideoOwner && kind != SongOwner
  }

  /**
   * UpdateMetadataCollections: genres, tags and studios are synchronised by
   * name except on episodes; actors are synchronised by name except on music
   * videos and songs; the other lists are left alone.
   */
  function SyncedCollections(kind: OwnerKind, existing: Collections, incoming: Collections): (r: Collections)
    ensures kind != EpisodeOwner ==>
              && Keys(r.genres, GenreName) == Keys(incoming.genres, GenreName)
              && Keys(r.tags, TagName) == Keys(incoming.tags, TagName)
              && Keys(r.studios, StudioName) == Keys(incoming.studios, StudioName)
    ensures kind == EpisodeOwner ==>
              r.genres == existing.genres && r.tags == existing.tags && r.studios == existing.studios
    ensures SyncsActors(kind) ==> Keys(r.actors, ActorName) == Keys(incoming.actors, ActorName)
    ensures !SyncsActors(kind) ==> r.actors == existing.actors
    ensures r.directors == existing.directors && r.writers == existing.writers && r.guids == existing.guids
  {
    SyncedKeys(existing.genres, incoming.genres, GenreName);
    SyncedKeys(existing.tags, incoming.tags, TagName);
    SyncedKeys(existing.studios, incoming.studios, StudioName);
    SyncedKeys(existing.actors, incoming.actors, ActorName);
    var named :=
      if kind == EpisodeOwner then existing
      else existing.(
        genres := Synced(existing.genres, incoming.genres, GenreName),
        tags := Synced(existing.tags, incoming.tags, TagName),
        studios := Synced(existing.studios, incoming.studios, StudioName));
    if SyncsActors(kind) then named.(actors := Synced(existing.actors, incoming.actors, ActorName)) else named
  }

  /** The `updated` flag of UpdateMetadataCollections. */
  predicate CollectionsChanged(kind: OwnerKind, existing: Collections, incoming: Collections, repo: Repository)
  {
    || (kind != EpisodeOwner &&
         (|| Changed(existing.genres, incoming.genres, GenreName, repo.removeGenre, repo.addGenre)
          || Changed(existing.tags, incoming.tags, TagName, repo.removeTag, repo.addTag)
          || Changed(existing.studios, incoming.studios, StudioName, repo.removeStudio, repo.addStudio)))
    || (SyncsActors(kind) && Changed(existing.actors, incoming.actors, ActorName, repo.removeActor, repo.addActor))
  }

  /** UpdateMetadataCollections, list by list, removals before additions. */
  method UpdateMetadataCollections(kind: OwnerKind, existing: Collections, incoming: Collections, repo: Repository)
    returns (r: Collections, updated: bool)
    ensures r == SyncedCollections(kind, existing, incoming)
    ensures updated == CollectionsChanged(kind, existing, incoming, repo)
  {
    r := existing;
    updated := false;
    if kind != EpisodeOwner {
      var genres, genresChanged := SyncByKey(existing.genres, incoming.genres, GenreName, repo.removeGenre, repo.addGenre);
      var tags, tagsChanged := SyncByKey(existing.tags, incoming.tags, TagName, repo.removeTag, repo.addTag);
      var studios, studiosChanged := SyncByKey(existing.studios, incoming.studios, StudioName, repo.removeStudio, repo.addStudio);
      r := r.(genres := genres, tags := tags, studios := studios);
      updated := genresChanged || tagsChanged || studiosChanged;
    }
    if SyncsActors(kind) {
      var actors, actorsChanged := SyncByKey(existing.actors, incoming.actors, ActorName, repo.removeActor, repo.addActor);
      r := r.(actors := actors);
      updated := updated || actorsChanged;
    }
  }

  /**
   * ApplyMetadataUpdate on one row: the columns as UpdatedFields says, the
   * lists as UpdateMetadataCollections says, then directors, writers and
   * guids synchronised the same way (guids by their value).
   */
  function UpdatedMetadata(kind: OwnerKind, existing: Metadata, incoming: Metadata, sortTitleOf: Option<string> -> string): (r: Metadata)
    ensures r.id == existing.id && r.ownerId == existing.ownerId
    ensures r.fields == UpdatedFields(kind, existing.fields, incoming.fields, sortTitleOf)
    ensures Keys(r.lists.directors, DirectorName) == Keys(incoming.lists.directors, DirectorName)
    ensures Keys(r.lists.writers, WriterName) == Keys(incoming.lists.writers, WriterName)
    ensures Keys(r.lists.guids, GuidValue) == Keys(incoming.lists.guids, GuidValue)
  {
    SyncedKeys(existing.lists.directors, incoming.lists.directors, DirectorName);
    SyncedKeys(existing.lists.writers, incoming.lists.writers, WriterName);
    SyncedKeys(existing.lists.guids, incoming.lists.guids, GuidValue);
    var lists := SyncedCollections(kind, existing.lists, incoming.lists).(
      directors := Synced(existing.lists.directors, incoming.lists.directors, DirectorName),
      writers := Synced(existing.lists.writers, incoming.lists.writers, WriterName),
      guids := Synced(existing.lists.guids, incoming.lists.guids, GuidValue));
    existing.(fields := UpdatedFields(kind, existing.fields, incoming.fields, sortTitleOf), lists := lists)
  }

  /** The `updated` flag of ApplyMetadataUpdate on one row; the row update is always issued. */
  predicate MetadataChanged(kind: OwnerKind, existing: Metadata, incoming: Metadata, sortTitleOf: Option<string> -> string, repo: Repository)
  {
    || repo.update(UpdatedMetadata(kind, existing, incoming, sortTitleOf))
    || CollectionsChanged(kind, existing.lists, incoming.lists, repo)
    || Changed(existing.lists.directors, incoming.lists.directors, DirectorName, repo.removeDirector, repo.addDirector)
    || Changed(existing.lists.writers, incoming.lists.writers, WriterName, repo.removeWriter, repo.addWriter)
    || Changed(existing.lists.guids, incoming.lists.guids, GuidValue, repo.removeGuid, repo.addGuid)
  }

  /** ApplyMetadataUpdate on one existing row. */
  method ApplyUpdate(kind: OwnerKind, existing: Metadata, incoming: Metadata, sortTitleOf: Option<string> -> string, repo: Repository)
    returns (r: Metadata, updated: bool)
    ensures r == UpdatedMetadata(kind, existing, incoming, sortTitleOf)
    ensures updated == MetadataChanged(kind, existing, incoming, sortTitleOf, repo)
  {
    var fields := UpdatedFields(kind, existing.fields, incoming.fields, sortTitleOf);
    var lists;
    lists, updated := UpdateMetadataCollections(kind, existing.lists, incoming.lists, repo);
    var directors, directorsChanged := SyncByKey(existing.lists.directors, incoming.lists.directors, DirectorName, repo.removeDirector, repo.addDirector);
    var writers, writersChanged := SyncByKey(existing.lists.writers, incoming.lists.writers, WriterName, repo.removeWriter, repo.addWriter);
    var guids, guidsChanged := SyncByKey(existing.lists.guids, incoming.lists.guids, GuidValue, repo.removeGuid, repo.addGuid);
    updated := updated || directorsChanged || writersChanged || guidsChanged;
    r := existing.(fields := fields, lists := lists.(directors := directors, writers := writers, guids := guids));
    updated := repo.update(r) || updated;
  }

  /** Re-applying the same incoming metadata leaves the row as it is, and only the row update can report a change. */
  lemma {:induction false} UpdatedMetadataIdempotent(kind: OwnerKind, existing: Metadata, incoming: Metadata, sortTitleOf: Option<string> -> string, repo: Repository)
    ensures UpdatedMetadata(kind, UpdatedMetadata(kind, existing, incoming, sortTitleOf), incoming, sortTitleOf)
            == UpdatedMetadata(kind, existing, incoming, sortTitleOf)
    ensures MetadataChanged(kind, UpdatedMetadata(kind, existing, incoming, sortTitleOf), incoming, sortTitleOf, repo)
            == repo.update(UpdatedMetadata(kind, existing, incoming, sortTitleOf))
  {
    var once := UpdatedMetadata(kind, existing, incoming, sortTitleOf);
    var e := existing.lists;
    var i := incoming.lists;
    SyncedIdempotent(e.genres, i.genres, GenreName, repo.removeGenre, repo.addGenre);
    SyncedIdempotent(e.tags, i.tags, TagName, repo.removeTag, repo.addTag);
    SyncedIdempotent(e.studios, i.studios, StudioName, repo.removeStudio, repo.addStudio);
    SyncedIdempotent(e.actors, i.actors, ActorName, repo.removeActor, repo.addActor);
    SyncedIdempotent(e.directors, i.directors, DirectorName, repo.removeDirector, repo.addDirector);
    SyncedIdempotent(e.writers, i.writers, WriterName, repo.removeWriter, repo.addWriter);
    SyncedIdempotent(e.guids, i.guids, GuidValue, repo.removeGuid, repo.addGuid);
    assert UpdatedMetadata(kind, once, incoming, sortTitleOf).lists == once.lists;
  }

  /** A new row: the incoming metadata with its sort title defaulted, attached to its item. */
  function NewMetadata(incoming: Metadata, ownerId: int, sortTitleOf: Option<string> -> string): (r: Metadata)
    ensures r.ownerId == ownerId && r.lists == incoming.lists
    ensures r.fields == incoming.fields.(sortTitle := SortTitleFor(incoming.fields, sortTitleOf))
  {
    incoming.(ownerId := ownerId, fields := incoming.fields.(sortTitle := SortTitleFor(incoming.fields, sortTitleOf)))
  }

  /** Scanning the same metadata again after it was added as a new row changes nothing in the row. */
  lemma {:induction false} RescanOfNewRowUnchanged(kind: OwnerKind, incoming: Metadata, ownerId: int, sortTitleOf: Option<string> -> string, repo: Repository)
    ensures UpdatedMetadata(kind, NewMetadata(incoming, ownerId, sortTitleOf), incoming, sortTitleOf)
            == NewMetadata(incoming, ownerId, sortTitleOf)
    ensures MetadataChanged(kind, NewMetadata(incoming, ownerId, sortTitleOf), incoming, sortTitleOf, repo)
            == repo.update(NewMetadata(incoming, ownerId, sortTitleOf))
  {
    var i := incoming.lists;
    SameKeysUnchanged(i.genres, i.genres, GenreName, repo.removeGenre, repo.addGenre);
    SameKeysUnchanged(i.tags, i.tags, TagName, repo.removeTag, repo.addTag);
    SameKeysUnchanged(i.studios, i.studios, StudioName, repo.removeStudio, repo.addStudio);
    SameKeysUnchanged(i.actors, i.actors, ActorName, repo.removeActor, repo.addActor);
    SameKeysUnchanged(i.directors, i.directors, DirectorName, repo.removeDirector, repo.addDirector);
    SameKeysUnchanged(i.writers, i.writers, WriterName, repo.removeWriter, repo.addWriter);
    SameKeysUnchanged(i.guids, i.guids, GuidValue, repo.removeGuid, repo.addGuid);
  }

  /** A movie and its metadata rows (at most one is used). */
  class Movie {
    const id: int
    var metadata: seq<Metadata>

    constructor(id: int, metadata: seq<Metadata>)
      ensures this.id == id && this.metadata == metadata
    {
      this.id := id;
      this.metadata := metadata;
    }

    /**
     * ApplyMetadataUpdate for a movie: the first row, if any, is updated in
     * place; otherwise the incoming metadata becomes the movie's only row.
     */
    method ApplyMetadataUpdate(incoming: Metadata, sortTitleOf: Option<string> -> string, repo: Repository)
      returns (updated: bool)
      modifies this
      ensures old(metadata) != [] ==>
                && metadata == old(metadata)[0 := UpdatedMetadata(MovieOwner, old(metadata)[0], incoming, sortTitleOf)]
                && updated == MetadataChanged(MovieOwner, old(metadata)[0], incoming, sortTitleOf, repo)
      ensures old(metadata) == [] ==>
                && metadata == [NewMetadata(incoming, id, sortTitleOf)]
                && updated == repo.add(NewMetadata(incoming, id, sortTitleOf))
    {
      if metadata != [] {
        var existing := metadata[0];
        var r;
        r, updated := ApplyUpdate(MovieOwner, existing, incoming, sortTitleOf, repo);
        metadata := metadata[0 := r];
        return;
      }
      var added := NewMetadata(incoming, id, sortTitleOf);
      metadata := [added];
      updated := repo.add(added);
    }
  }

  // ---------------------------------------------------------------------
  // Episode metadata
  // ---------------------------------------------------------------------

  function EpisodeNumberOf(e: EpisodeMetadata): int { e.episodeNumber }

  /** The episode numbers a list of episode metadata covers. */
  function Numbers(s: seq<EpisodeMetadata>): set<int>
  {
    Keys(s, EpisodeNumberOf)
  }

  /** The existing rows whose episode number is incoming. */
  function ToUpdate(existing: seq<EpisodeMetadata>, incoming: seq<EpisodeMetadata>): seq<EpisodeMetadata>
  {
    KeepIn(existing, Numbers(incoming), EpisodeNumberOf)
  }

  /** The other existing rows. */
  function ToRemove(existing: seq<EpisodeMetadata>, incoming: seq<EpisodeMetadata>): seq<EpisodeMetadata>
  {
    Except(existing, ToUpdate(existing, incoming))
  }

  /** The incoming rows whose episode number no existing row has. */
  function ToAdd(existing: seq<EpisodeMetadata>, incoming: seq<EpisodeMetadata>): seq<EpisodeMetadata>
  {
    KeepOut(incoming, Numbers(existing), EpisodeNumberOf)
  }

  /**
   * The partition by episode number: every existing row is updated or
   * removed and never both; an added row is incoming with a number no
   * existing row has; every incoming number is updated or added.
   */
  lemma {:induction false} EpisodePartition(existing: seq<EpisodeMetadata>, incoming: seq<EpisodeMetadata>)
    ensures forall m :: m in existing <==> m in ToUpdate(existing, incoming) || m in ToRemove(existing, incoming)
    ensures forall m :: !(m in ToUpdate(existing, incoming) && m in ToRemove(existing, incoming))
    ensures forall m :: m in ToRemove(existing, incoming) ==> m.episodeNumber !in Numbers(incoming)
    ensures forall m :: m in ToAdd(existing, incoming) ==> m in incoming && m.episodeNumber !in Numbers(existing)
    ensures Numbers(ToUpdate(existing, incoming)) + Numbers(ToAdd(existing, incoming)) == Numbers(incoming)
  {
    var u := ToUpdate(existing, incoming);
    var a := ToAdd(existing, incoming);
    forall n | n in Numbers(incoming)
      ensures n in Numbers(u) + Numbers(a)
    {
      var x :| x in incoming && x.episodeNumber == n;
      if n in Numbers(existing) {
        var y :| y in existing && y.episodeNumber == n;
        assert y in u;
      } else {
        assert x in a;
      }
    }
  }

  /** List.Find: the first incoming row with the given episode number. */
  function Find(incoming: seq<EpisodeMetadata>, n: int): (r: Option<EpisodeMetadata>)
    ensures r.Some? <==> n in Numbers(incoming)
    ensures r.Some? ==> r.value in incoming && r.value.episodeNumber == n
    ensures r.Some? && (forall i, j :: 0 <= i < j < |incoming| ==> incoming[i].episodeNumber != incoming[j].episodeNumber) ==>
              forall x :: x in incoming && x.episodeNumber == n ==> x == r.value
  {
    if incoming == [] then None
    else if incoming[0].episodeNumber == n then
      assert incoming[0] in incoming;
      Some(incoming[0])
    else
      assert forall x :: x in incoming && x != incoming[0] ==> x in incoming[1..];
      Find(incoming[1..], n)
  }

  /** An added episode row: sort title defaulted, attached to the episode. */
  function NewEpisodeMetadata(incoming: EpisodeMetadata, episodeId: int, sortTitleOf: Option<string> -> string): EpisodeMetadata
  {
    EpisodeMetadata(incoming.episodeNumber, NewMetadata(incoming.metadata, episodeId, sortTitleOf))
  }

  function NewEntries(toAdd: seq<EpisodeMetadata>, episodeId: int, sortTitleOf: Option<string> -> string): (r: seq<EpisodeMetadata>)
    ensures |r| == |toAdd|
  {
    seq(|toAdd|, j requires 0 <= j < |toAdd| => NewEpisodeMetadata(toAdd[j], episodeId, sortTitleOf))
  }

  /** An existing row updated from the first incoming row with its number (none: unchanged). */
  function UpdatedEntry(existing: EpisodeMetadata, incoming: seq<EpisodeMetadata>, sortTitleOf: Option<string> -> string): (r: EpisodeMetadata)
    ensures r.episodeNumber == existing.episodeNumber
  {
    match Find(incoming, existing.episodeNumber)
    case None => existing
    case Some(found) => EpisodeMetadata(existing.episodeNumber, UpdatedMetadata(EpisodeOwner, existing.metadata, found.metadata, sortTitleOf))
  }

  predicate EntryChanged(existing: EpisodeMetadata, incoming: seq<EpisodeMetadata>, sortTitleOf: Option<string> -> string, repo: Repository)
  {
    match Find(incoming, existing.episodeNumber)
    case None => false
    case Some(found) => MetadataChanged(EpisodeOwner, existing.metadata, found.metadata, sortTitleOf, repo)
  }

  function UpdatedEntries(toUpdate: seq<EpisodeMetadata>, incoming: seq<EpisodeMetadata>, sortTitleOf: Option<string> -> string): (r: seq<EpisodeMetadata>)
    ensures |r| == |toUpdate|
  {
    seq(|toUpdate|, i requires 0 <= i < |toUpdate| => UpdatedEntry(toUpdate[i], incoming, sortTitleOf))
  }

  /** The episode's rows after ApplyMetadataUpdate: every matched row updated, then the new rows. */
  function EpisodeAfter(existing: seq<EpisodeMetadata>, incoming: seq<EpisodeMetadata>, episodeId: int, sortTitleOf: Option<string> -> string): seq<EpisodeMetadata>
  {
    UpdatedEntries(ToUpdate(existing, incoming), incoming, sortTitleOf) + NewEntries(ToAdd(existing, incoming), episodeId, sortTitleOf)
  }

  /** Some row was removed, or a row addition reported a change. */
  predicate RemovedOrAdded(existing: seq<EpisodeMetadata>, incoming: seq<EpisodeMetadata>, episodeId: int, sortTitleOf: Option<string> -> string, repo: Repository)
  {
    var toAdd := ToAdd(existing, incoming);
    || |ToRemove(existing, incoming)| > 0
    || exists j :: 0 <= j < |toAdd| && repo.add(NewEpisodeMetadata(toAdd[j], episodeId, sortTitleOf).metadata)
  }

  /** The `updated` flag when every matched row is updated. */
  predicate EpisodeChanged(existing: seq<EpisodeMetadata>, incoming: seq<EpisodeMetadata>, episodeId: int, sortTitleOf: Option<string> -> string, repo: Repository)
  {
    var toUpdate := ToUpdate(existing, incoming);
    || RemovedOrAdded(existing, incoming, episodeId, sortTitleOf, repo)
    || exists i :: 0 <= i < |toUpdate| && EntryChanged(toUpdate[i], incoming, sortTitleOf, repo)
  }

  /**
   * The episode's rows as the scanner leaves them: only the first matched row
   * is updated. Against the full update it has the same rows with the same
   * episode numbers and agrees on the first row and the new rows; the later
   * matched rows are left as they were.
   */
  function EpisodeAfterAsWritten(existing: seq<EpisodeMetadata>, incoming: seq<EpisodeMetadata>, episodeId: int, sortTitleOf: Option<string> -> string): (r: seq<EpisodeMetadata>)
    ensures var full := EpisodeAfter(existing, incoming, episodeId, sortTitleOf);
            var toUpdate := ToUpdate(existing, incoming);
            && |r| == |full|
            && (forall k :: 0 <= k < |r| ==> r[k].episodeNumber == full[k].episodeNumber)
            && (forall k :: 0 <= k < |r| && (k == 0 || k >= |toUpdate|) ==> r[k] == full[k])
            && (forall k :: 1 <= k < |toUpdate| ==> r[k] == toUpdate[k])
  {
    var toUpdate := ToUpdate(existing, incoming);
    var rest := NewEntries(ToAdd(existing, incoming), episodeId, sortTitleOf);
    if toUpdate == [] then rest else [UpdatedEntry(toUpdate[0], incoming, sortTitleOf)] + toUpdate[1..] + rest
  }

  predicate EpisodeChangedAsWritten(existing: seq<EpisodeMetadata>, incoming: seq<EpisodeMetadata>, episodeId: int, sortTitleOf: Option<string> -> string, repo: Repository)
  {
    var toUpdate := ToUpdate(existing, incoming);
    || RemovedOrAdded(existing, incoming, episodeId, sortTitleOf, repo)
    || (toUpdate != [] && EntryChanged(toUpdate[0], incoming, sortTitleOf, repo))
  }

  /** The addition loop: each new row is appended and added. */
  method AddEntries(start: seq<EpisodeMetadata>, toAdd: seq<EpisodeMetadata>, episodeId: int, sortTitleOf: Option<string> -> string, repo: Repository)
    returns (r: seq<EpisodeMetadata>, addedAny: bool)
    ensures r == start + NewEntries(toAdd, episodeId, sortTitleOf)
    ensures addedAny <==> exists j :: 0 <= j < |toAdd| && repo.add(NewEpisodeMetadata(toAdd[j], episodeId, sortTitleOf).metadata)
  {
    r := start;
    addedAny := false;
    for j := 0 to |toAdd|
      invariant r == start + NewEntries(toAdd[..j], episodeId, sortTitleOf)
      invariant addedAny <==> exists k :: 0 <= k < j && repo.add(NewEpisodeMetadata(toAdd[k], episodeId, sortTitleOf).metadata)
    {
      var added := NewEpisodeMetadata(toAdd[j], episodeId, sortTitleOf);
      assert NewEntries(toAdd[..j + 1], episodeId, sortTitleOf) == NewEntries(toAdd[..j], episodeId, sortTitleOf) + [added];
      r := r + [added];
      addedAny := repo.add(added.metadata) || addedAny;
    }
    assert toAdd[..|toAdd|] == toAdd;
  }

  /** One pass of the update loop: the row is updated from the first incoming row with its number. */
  method UpdateEntry(existing: EpisodeMetadata, incoming: seq<EpisodeMetadata>, sortTitleOf: Option<string> -> string, repo: Repository)
    returns (r: EpisodeMetadata, changed: bool)
    ensures r == UpdatedEntry(existing, incoming, sortTitleOf)
    ensures changed == EntryChanged(existing, incoming, sortTitleOf, repo)
  {
    r := existing;
    changed := false;
    var found := Find(incoming, existing.episodeNumber);
    if found.Some? {
      var m;
      m, changed := ApplyUpdate(EpisodeOwner, existing.metadata, found.value.metadata, sortTitleOf, repo);
      r := EpisodeMetadata(existing.episodeNumber, m);
    }
  }

  /** The update loop: each matched row, at the front of `rows`, is updated in place. */
  method UpdateLoop(rows: seq<EpisodeMetadata>, toUpdate: seq<EpisodeMetadata>, incoming: seq<EpisodeMetadata>, sortTitleOf: Option<string> -> string, repo: Repository)
    returns (r: seq<EpisodeMetadata>, changedAny: bool)
    requires |toUpdate| <= |rows| && rows[..|toUpdate|] == toUpdate
    ensures r == UpdatedEntries(toUpdate, incoming, sortTitleOf) + rows[|toUpdate|..]
    ensures changedAny <==> exists k :: 0 <= k < |toUpdate| && EntryChanged(toUpdate[k], incoming, sortTitleOf, repo)
  {
    r := rows;
    changedAny := false;
    var changedBy := e => EntryChanged(e, incoming, sortTitleOf, repo);
    for i := 0 to |toUpdate|
      invariant UpdatedUpTo(r, rows, toUpdate, incoming, sortTitleOf, i)
      invariant changedAny == AnyBefore(toUpdate, changedBy, i)
    {
      SameAt(r, rows, toUpdate, i);
      var entry, changed := UpdateEntry(r[i], incoming, sortTitleOf, repo);
      UpdatedStep(r, rows, toUpdate, incoming, sortTitleOf, i, entry);
      r := r[i := entry];
      changedAny := changed || changedAny;
    }
    UpdatedDone(r, rows, toUpdate, incoming, sortTitleOf);
    AnyBeforeExists(toUpdate, changedBy, |toUpdate|);
  }

  /** The first `i` matched rows are updated and `r` is still `rows` from `i` on. */
  ghost predicate UpdatedUpTo(r: seq<EpisodeMetadata>, rows: seq<EpisodeMetadata>, toUpdate: seq<EpisodeMetadata>,
                              incoming: seq<EpisodeMetadata>, sortTitleOf: Option<string> -> string, i: int)
  {
    && |r| == |rows| && 0 <= i <= |toUpdate| <= |rows|
    && (forall k :: 0 <= k < i ==> r[k] == UpdatedEntry(toUpdate[k], incoming, sortTitleOf))
    && r[i..] == rows[i..]
  }

  /** Some of the first `i` elements satisfies `p`: what a loop that or-s them together computes. */
  predicate AnyBefore<T>(xs: seq<T>, p: T -> bool, i: nat)
    requires i <= |xs|
  {
    i > 0 && (AnyBefore(xs, p, i - 1) || p(xs[i - 1]))
  }

  lemma {:induction false} AnyBeforeExists<T>(xs: seq<T>, p: T -> bool, i: nat)
    requires i <= |xs|
    ensures AnyBefore(xs, p, i) <==> exists k :: 0 <= k < i && p(xs[k])
  {
    if i > 0 {
      AnyBeforeExists(xs, p, i - 1);
    }
  }

  lemma {:induction false} UpdatedStep(r: seq<EpisodeMetadata>, rows: seq<EpisodeMetadata>, toUpdate: seq<EpisodeMetadata>,
                    incoming: seq<EpisodeMetadata>, sortTitleOf: Option<string> -> string, i: int, entry: EpisodeMetadata)
    requires 0 <= i < |toUpdate| && UpdatedUpTo(r, rows, toUpdate, incoming, sortTitleOf, i)
    requires entry == UpdatedEntry(toUpdate[i], incoming, sortTitleOf)
    ensures UpdatedUpTo(r[i := entry], rows, toUpdate, incoming, sortTitleOf, i + 1)
  {
    ReplaceAt(r, rows, i, entry);
  }

  lemma {:induction false} UpdatedDone(r: seq<EpisodeMetadata>, rows: seq<EpisodeMetadata>, toUpdate: seq<EpisodeMetadata>,
                    incoming: seq<EpisodeMetadata>, sortTitleOf: Option<string> -> string)
    requires UpdatedUpTo(r, rows, toUpdate, incoming, sortTitleOf, |toUpdate|)
    ensures r == UpdatedEntries(toUpdate, incoming, sortTitleOf) + rows[|toUpdate|..]
  {
    PrefixThen(r, UpdatedEntries(toUpdate, incoming, sortTitleOf), rows[|toUpdate|..]);
  }

  /** Where `r` still agrees with `rows`, it holds the matched row. */
  lemma {:induction false} SameAt<T>(r: seq<T>, rows: seq<T>, toUpdate: seq<T>, i: int)
    requires 0 <= i < |toUpdate| <= |rows| == |r|
    requires rows[..|toUpdate|] == toUpdate && r[i..] == rows[i..]
    ensures r[i] == toUpdate[i]
  {
    assert r[i] == r[i..][0];
    assert rows[i] == rows[..|toUpdate|][i];
  }

  /** Replacing the element at `i` keeps the front and leaves the rest after it as `rows`. */
  lemma {:induction false} ReplaceAt<T>(r: seq<T>, rows: seq<T>, i: int, x: T)
    requires 0 <= i < |r| == |rows| && r[i..] == rows[i..]
    ensures r[i := x][i + 1..] == rows[i + 1..]
    ensures forall k :: 0 <= k < i ==> r[i := x][k] == r[k]
    ensures r[i := x][i] == x
  {
    assert r[i + 1..] == r[i..][1..];
    assert rows[i + 1..] == rows[i..][1..];
  }

  /** A sequence that agrees with `p` on its front and is `rest` after it. */
  lemma {:induction false} PrefixThen<T>(r: seq<T>, p: seq<T>, rest: seq<T>)
    requires |r| == |p| + |rest|
    requires forall k :: 0 <= k < |p| ==> r[k] == p[k]
    requires r[|p|..] == rest
    ensures r == p + rest
  {
    assert r == r[..|p|] + r[|p|..];
    assert r[..|p|] == p;
  }

  /** Replacing the head of `t + rest`. */
  lemma {:induction false} ReplaceHead<T>(s: seq<T>, t: seq<T>, rest: seq<T>, x: T)
    requires s == t + rest && |t| > 0
    ensures s[0 := x] == [x] + t[1..] + rest
  {
    assert s[0 := x] == [x] + s[1..];
    assert s[1..] == t[1..] + rest;
  }

  /** An episode and its metadata rows, one per episode number the file covers. */
  class Episode {
    const id: int
    var metadata: seq<EpisodeMetadata>

    constructor(id: int, metadata: seq<EpisodeMetadata>)
      ensures this.id == id && this.metadata == metadata
    {
      this.id := id;
      this.metadata := metadata;
    }

    /**
     * Removal and addition, shared by both versions: the unmatched rows are
     * removed (the repository takes each out of the list, leaving the
     * matched ones), then each new row is appended and added.
     */
    method RemoveAndAdd(incoming: seq<EpisodeMetadata>, sortTitleOf: Option<string> -> string, repo: Repository)
      returns (updated: bool)
      modifies this
      ensures metadata == ToUpdate(old(metadata), incoming) + NewEntries(ToAdd(old(metadata), incoming), id, sortTitleOf)
      ensures updated == RemovedOrAdded(old(metadata), incoming, id, sortTitleOf, repo)
    {
      var existing := metadata;
      var toRemove := ToRemove(existing, incoming);
      var addedAny;
      metadata, addedAny := AddEntries(ToUpdate(existing, incoming), ToAdd(existing, incoming), id, sortTitleOf, repo);
      updated := |toRemove| > 0 || addedAny;
    }

    /**
     * ApplyMetadataUpdate for an episode, updating every matched row; the
     * older provider does this.
     */
    method ApplyMetadataUpdate(incoming: seq<EpisodeMetadata>, sortTitleOf: Option<string> -> string, repo: Repository)
      returns (updated: bool)
      modifies this
      ensures metadata == EpisodeAfter(old(metadata), incoming, id, sortTitleOf)
      ensures updated == EpisodeChanged(old(metadata), incoming, id, sortTitleOf, repo)
    {
      var toUpdate := ToUpdate(metadata, incoming);
      var removedOrAdded := RemoveAndAdd(incoming, sortTitleOf, repo);
      var changedAny;
      metadata, changedAny := UpdateLoop(metadata, toUpdate, incoming, sortTitleOf, repo);
      updated := removedOrAdded || changedAny;
    }

    /**
     * ApplyMetadataUpdate for an episode as the scanner has it: the update
     * loop returns from inside its first pass, so only the first matched row
     * is updated.
     */
    method ApplyMetadataUpdateAsWritten(incoming: seq<EpisodeMetadata>, sortTitleOf: Option<string> -> string, repo: Repository)
      returns (updated: bool)
      modifies this
      ensures metadata == EpisodeAfterAsWritten(old(metadata), incoming, id, sortTitleOf)
      ensures updated == EpisodeChangedAsWritten(old(metadata), incoming, id, sortTitleOf, repo)
    {
      var toUpdate := ToUpdate(metadata, incoming);
      ghost var rest := NewEntries(ToAdd(metadata, incoming), id, sortTitleOf);
      updated := RemoveAndAdd(incoming, sortTitleOf, repo);
      if toUpdate != [] {
        var r, changed := UpdateEntry(metadata[0], incoming, sortTitleOf, repo);
        ReplaceHead(metadata, toUpdate, rest, r);
        metadata := metadata[0 := r];
        updated := changed || updated;
        return;
      }
    }
  }

  /** `x` holds the columns an update copies from `y`: all but DateAdded, the sort title and the content rating. */
  predicate CopiedFrom(x: Fields, y: Fields)
  {
    x.(dateAdded := y.dateAdded, sortTitle := y.sortTitle, contentRating := y.contentRating) == y
  }

  lemma {:induction false} NumbersConcat(p: seq<EpisodeMetadata>, q: seq<EpisodeMetadata>)
    ensures Numbers(p + q) == Numbers(p) + Numbers(q)
  {
    forall n | n in Numbers(p + q) ensures n in Numbers(p) + Numbers(q) {
      var x :| x in p + q && x.episodeNumber == n;
    }
  }

  /** Updating rows keeps their episode numbers. */
  lemma {:induction false} UpdatedEntriesNumbers(u: seq<EpisodeMetadata>, incoming: seq<EpisodeMetadata>, sortTitleOf: Option<string> -> string)
    ensures Numbers(UpdatedEntries(u, incoming, sortTitleOf)) == Numbers(u)
  {
    var rows := UpdatedEntries(u, incoming, sortTitleOf);
    forall n | n in Numbers(u) ensures n in Numbers(rows) {
      var x :| x in u && x.episodeNumber == n;
      var k :| 0 <= k < |u| && u[k] == x;
      assert rows[k] in rows;
    }
    forall n | n in Numbers(rows) ensures n in Numbers(u) {
      var x :| x in rows && x.episodeNumber == n;
      var k :| 0 <= k < |rows| && rows[k] == x;
      assert u[k] in u;
    }
  }

  /** New rows keep the incoming rows' episode numbers. */
  lemma {:induction false} NewEntriesNumbers(a: seq<EpisodeMetadata>, episodeId: int, sortTitleOf: Option<string> -> string)
    ensures Numbers(NewEntries(a, episodeId, sortTitleOf)) == Numbers(a)
  {
    var rows := NewEntries(a, episodeId, sortTitleOf);
    forall n | n in Numbers(a) ensures n in Numbers(rows) {
      var x :| x in a && x.episodeNumber == n;
      var k :| 0 <= k < |a| && a[k] == x;
      assert rows[k] in rows;
    }
    forall n | n in Numbers(rows) ensures n in Numbers(a) {
      var x :| x in rows && x.episodeNumber == n;
      var k :| 0 <= k < |rows| && rows[k] == x;
      assert a[k] in a;
    }
  }

  /** After ApplyMetadataUpdate the episode numbers present are exactly the incoming ones. */
  lemma {:induction false} EpisodeNumbersAfter(existing: seq<EpisodeMetadata>, incoming: seq<EpisodeMetadata>, episodeId: int, sortTitleOf: Option<string> -> string)
    ensures Numbers(EpisodeAfter(existing, incoming, episodeId, sortTitleOf)) == Numbers(incoming)
  {
    var u := ToUpdate(existing, incoming);
    var a := ToAdd(existing, incoming);
    EpisodePartition(existing, incoming);
    UpdatedEntriesNumbers(u, incoming, sortTitleOf);
    NewEntriesNumbers(a, episodeId, sortTitleOf);
    NumbersConcat(UpdatedEntries(u, incoming, sortTitleOf), NewEntries(a, episodeId, sortTitleOf));
  }

  /**
   * After ApplyMetadataUpdate every row carries the copied columns of an
   * incoming row with its episode number.
   */
  lemma {:induction false} EpisodeRowsFresh(existing: seq<EpisodeMetadata>, incoming: seq<EpisodeMetadata>, episodeId: int, sortTitleOf: Option<string> -> string)
    ensures forall x :: x in EpisodeAfter(existing, incoming, episodeId, sortTitleOf) ==>
              exists y :: y in incoming && y.episodeNumber == x.episodeNumber && CopiedFrom(x.metadata.fields, y.metadata.fields)
  {
    var u := ToUpdate(existing, incoming);
    var a := ToAdd(existing, incoming);
    var updatedRows := UpdatedEntries(u, incoming, sortTitleOf);
    var newRows := NewEntries(a, episodeId, sortTitleOf);
    forall x: EpisodeMetadata | x in updatedRows + newRows
      ensures exists y :: y in incoming && y.episodeNumber == x.episodeNumber && CopiedFrom(x.metadata.fields, y.metadata.fields)
    {
      if x in updatedRows {
        var k :| 0 <= k < |updatedRows| && updatedRows[k] == x;
        assert u[k] in u;
        var y := Find(incoming, u[k].episodeNumber).value;
        assert CopiedFrom(x.metadata.fields, y.metadata.fields);
      } else {
        var k :| 0 <= k < |newRows| && newRows[k] == x;
        assert a[k] in a;
        assert CopiedFrom(x.metadata.fields, a[k].metadata.fields);
      }
    }
  }

  /** With at most one matched row the scanner's version does what the full update does. */
  lemma {:induction false} AsWrittenAgreesOnOneRow(existing: seq<EpisodeMetadata>, incoming: seq<EpisodeMetadata>, episodeId: int, sortTitleOf: Option<string> -> string, repo: Repository)
    requires |ToUpdate(existing, incoming)| <= 1
    ensures EpisodeAfterAsWritten(existing, incoming, episodeId, sortTitleOf) == EpisodeAfter(existing, incoming, episodeId, sortTitleOf)
    ensures EpisodeChangedAsWritten(existing, incoming, episodeId, sortTitleOf, repo) == EpisodeChanged(existing, incoming, episodeId, sortTitleOf, repo)
  {
    var u := ToUpdate(existing, incoming);
    if |u| == 1 {
      assert UpdatedEntries(u, incoming, sortTitleOf) == [UpdatedEntry(u[0], incoming, sortTitleOf)];
    }
  }

  /**
   * A file covering two episodes whose rows both exist: the scanner's
   * version leaves the second row with its old title while the full update
   * takes the incoming one.
   */
  lemma {:induction false} AsWrittenLeavesSecondRowStale(existing: seq<EpisodeMetadata>, incoming: seq<EpisodeMetadata>, episodeId: int, sortTitleOf: Option<string> -> string)
    requires |ToUpdate(existing, incoming)| >= 2
    requires Find(incoming, ToUpdate(existing, incoming)[1].episodeNumber).Some?
    requires ToUpdate(existing, incoming)[1].metadata.fields.title
             != Find(incoming, ToUpdate(existing, incoming)[1].episodeNumber).value.metadata.fields.title
    ensures EpisodeAfterAsWritten(existing, incoming, episodeId, sortTitleOf)[1] == ToUpdate(existing, incoming)[1]
    ensures EpisodeAfterAsWritten(existing, incoming, episodeId, sortTitleOf)[1].metadata.fields.title
            != Find(incoming, ToUpdate(existing, incoming)[1].episodeNumber).value.metadata.fields.title
    ensures EpisodeAfter(existing, incoming, episodeId, sortTitleOf)[1].metadata.fields.title
            == Find(incoming, ToUpdate(existing, incoming)[1].episodeNumber).value.metadata.fields.title
  {
    var u := ToUpdate(existing, incoming);
    AsWrittenSecondRow(existing, incoming, episodeId, sortTitleOf);
    FullSecondRow(existing, incoming, episodeId, sortTitleOf);
    UpdatedEntryTitle(u[1], incoming, sortTitleOf);
  }

  /** The scanner's version keeps the second matched row as it was. */
  lemma {:induction false} AsWrittenSecondRow(existing: seq<EpisodeMetadata>, incoming: seq<EpisodeMetadata>, episodeId: int, sortTitleOf: Option<string> -> string)
    requires |ToUpdate(existing, incoming)| >= 2
    ensures EpisodeAfterAsWritten(existing, incoming, episodeId, sortTitleOf)[1] == ToUpdate(existing, incoming)[1]
  {
    var u := ToUpdate(existing, incoming);
    var rest := NewEntries(ToAdd(existing, incoming), episodeId, sortTitleOf);
    var head := [UpdatedEntry(u[0], incoming, sortTitleOf)] + u[1..];
    assert head[1] == u[1];
    assert (head + rest)[1] == head[1];
  }

  /** The full update puts the second matched row, updated, second. */
  lemma {:induction false} FullSecondRow(existing: seq<EpisodeMetadata>, incoming: seq<EpisodeMetadata>, episodeId: int, sortTitleOf: Option<string> -> string)
    requires |ToUpdate(existing, incoming)| >= 2
    ensures EpisodeAfter(existing, incoming, episodeId, sortTitleOf)[1] == UpdatedEntry(ToUpdate(existing, incoming)[1], incoming, sortTitleOf)
  {
    var updated := UpdatedEntries(ToUpdate(existing, incoming), incoming, sortTitleOf);
    var rest := NewEntries(ToAdd(existing, incoming), episodeId, sortTitleOf);
    assert (updated + rest)[1] == updated[1];
  }

  /** A row with an incoming match takes the incoming title. */
  lemma {:induction false} UpdatedEntryTitle(e: EpisodeMetadata, incoming: seq<EpisodeMetadata>, sortTitleOf: Option<string> -> string)
    requires Find(incoming, e.episodeNumber).Some?
    ensures UpdatedEntry(e, incoming, sortTitleOf).metadata.fields.title == Find(incoming, e.episodeNumber).value.metadata.fields.title
  {
    var found := Find(incoming, e.episodeNumber).value;
    var f := UpdatedFields(EpisodeOwner, e.metadata.fields, found.metadata.fields, sortTitleOf);
    assert f.(dateAdded := found.metadata.fields.dateAdded, sortTitle := found.metadata.fields.sortTitle, contentRating := found.metadata.fields.contentRating).title == f.title;
  }

}
