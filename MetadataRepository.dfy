/**
 * The merge parts of the metadata repository: refreshing a media version's
 * statistics (its version-level columns, its streams keyed by stream index
 * and its chapters keyed by chapter id), refreshing a metadata row's
 * subtitles keyed by stream index, and the owner dispatch of AddGuid.
 *
 * All three merges follow one pattern on the entity lists the database
 * context loaded: append the incoming rows whose key is new, remove the
 * existing rows whose key is no longer incoming, then, for every incoming
 * row whose key was already present, copy its columns onto the first
 * existing row with that key. The pattern is written once, generically,
 * over a key function and a column-copy function.
 */
module MetadataRepository {
  import opened Common
  import opened MetadataTypes
  import opened MetadataSync

  // ---------------------------------------------------------------------
  // The keyed merge
  // ---------------------------------------------------------------------

  /** No two rows of `s` share a key. */
  predicate DistinctKeys<T, K(==)>(s: seq<T>, key: T -> K)
  {
    forall i, j :: 0 <= i < j < |s| ==> key(s[i]) != key(s[j])
  }

  /** Copying columns onto a row never changes the row's key. */
  ghost predicate CopyKeepsKey<T(!new), K>(key: T -> K, copy: (T, T) -> T)
  {
    forall e, x :: key(copy(e, x)) == key(e)
  }

  /** A later copy overwrites every column an earlier one wrote. */
  ghost predicate Overwrites<T(!new)>(copy: (T, T) -> T)
  {
    forall e, a, b :: copy(copy(e, a), b) == copy(e, b)
  }

  /**
   * `First(s => s.Key == x.Key)` followed by the column assignments: the
   * first row with `x`'s key receives `x`'s columns; every other row is
   * left alone.
   */
  function UpdateFirst<T, K(==)>(s: seq<T>, x: T, key: T -> K, copy: (T, T) -> T): (r: seq<T>)
    ensures |r| == |s|
    ensures forall j :: 0 <= j < |s| ==> r[j] == s[j] || (key(s[j]) == key(x) && r[j] == copy(s[j], x))
    ensures (forall j :: 0 <= j < |s| ==> key(s[j]) != key(x)) ==> r == s
  {
    if s == [] then []
    else if key(s[0]) == key(x) then [copy(s[0], x)] + s[1..]
    else [s[0]] + UpdateFirst(s[1..], x, key, copy)
  }

  /** The update loop: every row of `ups`, in order, applied to the first row with its key. */
  function UpdateAll<T, K(==)>(s: seq<T>, ups: seq<T>, key: T -> K, copy: (T, T) -> T): (r: seq<T>)
    ensures |r| == |s|
  {
    if ups == [] then s
    else UpdateFirst(UpdateAll(s, ups[..|ups| - 1], key, copy), ups[|ups| - 1], key, copy)
  }

  /**
   * The list after a statistics or subtitle merge, as the repository builds
   * it: AddRange of the incoming rows whose key is new, RemoveAll of the
   * existing rows whose key is no longer incoming (the added rows carry
   * incoming keys, so what survives is the existing rows with an incoming
   * key followed by the added rows), then the update loop over the incoming
   * rows whose key existed.
   */
  function Merged<T(==,!new), K(==)>(existing: seq<T>, incoming: seq<T>, key: T -> K, copy: (T, T) -> T): seq<T>
  {
    var existingKeys := Keys(existing, key);
    UpdateAll(KeepIn(existing, Keys(incoming, key), key) + KeepOut(incoming, existingKeys, key),
              KeepIn(incoming, existingKeys, key), key, copy)
  }

  /** The last row of `s` with key `k`: the one whose columns a row with that key ends up holding. */
  function LastWithKey<T, K(==)>(s: seq<T>, k: K, key: T -> K): (r: Option<T>)
    ensures r.None? <==> forall x :: x in s ==> key(x) != k
    ensures r.Some? ==> r.value in s && key(r.value) == k
  {
    if s == [] then None
    else if key(s[|s| - 1]) == k then Some(s[|s| - 1])
    else LastWithKey(s[..|s| - 1], k, key)
  }

  /** An existing row as it stands once every incoming row with its key has been copied onto it. */
  function Refresh<T, K(==)>(e: T, incoming: seq<T>, key: T -> K, copy: (T, T) -> T): T
  {
    match LastWithKey(incoming, key(e), key)
    case None => e
    case Some(u) => copy(e, u)
  }

  function RefreshAll<T, K(==)>(s: seq<T>, incoming: seq<T>, key: T -> K, copy: (T, T) -> T): (r: seq<T>)
    ensures |r| == |s|
  {
    seq(|s|, j requires 0 <= j < |s| => Refresh(s[j], incoming, key, copy))
  }

  /**
   * The merge loop. The rows are values here, so "copy onto the row First
   * returns" is an update of the list at the index of the first match.
   */
  method MergeByKey<T(==,!new), K(==)>(existing: seq<T>, incoming: seq<T>, key: T -> K, copy: (T, T) -> T)
    returns (r: seq<T>)
    requires CopyKeepsKey(key, copy)
    ensures r == Merged(existing, incoming, key, copy)
  {
    var existingKeys := Keys(existing, key);
    var incomingKeys := Keys(incoming, key);
    var toAdd := KeepOut(incoming, existingKeys, key);
    var toUpdate := KeepIn(incoming, existingKeys, key);
    // add
    r := existing + toAdd;
    // remove
    KeepInAll(toAdd, incomingKeys, key);
    KeepInAppend(existing, toAdd, incomingKeys, key);
    r := KeepIn(r, incomingKeys, key);
    // update
    forall u | u in toUpdate
      ensures exists w :: 0 <= w < |r| && key(r[w]) == key(u)
    {
      var e :| e in existing && key(e) == key(u);
      assert e in r;
    }
    r := ApplyUpdates(r, toUpdate, key, copy);
  }

  /** The update loop: each row of `ups`, in order, copied onto the first row of `base` with its key. */
  method ApplyUpdates<T(!new), K(==)>(base: seq<T>, ups: seq<T>, key: T -> K, copy: (T, T) -> T) returns (r: seq<T>)
    requires CopyKeepsKey(key, copy)
    requires forall u :: u in ups ==> exists w :: 0 <= w < |base| && key(base[w]) == key(u)
    ensures r == UpdateAll(base, ups, key, copy)
  {
    r := base;
    for i := 0 to |ups|
      invariant r == UpdateAll(base, ups[..i], key, copy)
    {
      var u := ups[i];
      UpdateAllKeys(base, ups[..i], key, copy);
      ghost var w :| 0 <= w < |base| && key(base[w]) == key(u);
      assert key(r[w]) == key(u);
      var j := FirstWithKey(r, key(u), key);
      UpdateFirstAt(r, u, j, key, copy);
      UpdateAllSnoc(base, ups, i, key, copy);
      r := r[j := copy(r[j], u)];
    }
    assert ups[..|ups|] == ups;
  }

  /** `First(s => s.Key == k)`: the index of the first row with key `k`, which the caller knows exists. */
  method FirstWithKey<T, K(==)>(s: seq<T>, k: K, key: T -> K) returns (j: nat)
    requires exists w :: 0 <= w < |s| && key(s[w]) == k
    ensures j < |s| && key(s[j]) == k
    ensures forall t :: 0 <= t < j ==> key(s[t]) != k
  {
    ghost var w :| 0 <= w < |s| && key(s[w]) == k;
    j := 0;
    while key(s[j]) != k
      invariant j <= w
      invariant forall t :: 0 <= t < j ==> key(s[t]) != k
      decreases w - j
    {
      j := j + 1;
    }
  }

  lemma {:induction false} UpdateAllSnoc<T(!new), K>(s: seq<T>, ups: seq<T>, i: nat, key: T -> K, copy: (T, T) -> T)
    requires i < |ups|
    ensures UpdateAll(s, ups[..i + 1], key, copy) == UpdateFirst(UpdateAll(s, ups[..i], key, copy), ups[i], key, copy)
  {
    assert ups[..i + 1][..i] == ups[..i];
  }

  /** Updating the first row with a key is updating the row at the first index with that key. */
  lemma {:induction false} UpdateFirstAt<T(!new), K>(s: seq<T>, x: T, j: nat, key: T -> K, copy: (T, T) -> T)
    requires j < |s| && key(s[j]) == key(x)
    requires forall t :: 0 <= t < j ==> key(s[t]) != key(x)
    ensures UpdateFirst(s, x, key, copy) == s[j := copy(s[j], x)]
  {
    var c := copy(s[j], x);
    ConsUpdate(s, j, c);
    if j > 0 {
      var tail := s[1..];
      assert forall t :: 0 <= t < j - 1 ==> key(tail[t]) != key(x) by {
        forall t | 0 <= t < j - 1 ensures key(tail[t]) != key(x) {
          assert tail[t] == s[t + 1];
        }
      }
      UpdateFirstAt(tail, x, j - 1, key, copy);
    }
  }

  /** Updating a non-empty sequence at `j` updates its head, or its tail at `j - 1`. */
  lemma {:induction false} ConsUpdate<T>(s: seq<T>, j: nat, c: T)
    requires j < |s|
    ensures j == 0 ==> s[j := c] == [c] + s[1..]
    ensures j > 0 ==> s[j := c] == [s[0]] + s[1..][j - 1 := c]
  {
  }

  /** The update loop keeps every row's key where it was. */
  lemma {:induction false} UpdateAllKeys<T(!new), K>(s: seq<T>, ups: seq<T>, key: T -> K, copy: (T, T) -> T)
    requires CopyKeepsKey(key, copy)
    ensures forall j :: 0 <= j < |s| ==> key(UpdateAll(s, ups, key, copy)[j]) == key(s[j])
    decreases |ups|
  {
    if ups != [] {
      UpdateAllKeys(s, ups[..|ups| - 1], key, copy);
    }
  }

  /** With distinct keys, updating the first row with `x`'s key updates every row with that key. */
  lemma {:induction false} UpdateFirstDistinct<T(!new), K>(s: seq<T>, x: T, key: T -> K, copy: (T, T) -> T)
    requires DistinctKeys(s, key)
    ensures forall j :: 0 <= j < |s| ==>
              UpdateFirst(s, x, key, copy)[j] == if key(s[j]) == key(x) then copy(s[j], x) else s[j]
  {
    if s != [] && key(s[0]) != key(x) {
      UpdateFirstDistinct(s[1..], x, key, copy);
    }
  }

  /** When the first row with `x`'s key lies in `a`, the rows of `b` are untouched. */
  lemma {:induction false} UpdateFirstPrefix<T(!new), K>(a: seq<T>, b: seq<T>, x: T, key: T -> K, copy: (T, T) -> T)
    requires exists i :: 0 <= i < |a| && key(a[i]) == key(x)
    ensures UpdateFirst(a + b, x, key, copy) == UpdateFirst(a, x, key, copy) + b
  {
    if key(a[0]) == key(x) {
      assert (a + b)[1..] == a[1..] + b;
    } else {
      var i :| 0 <= i < |a| && key(a[i]) == key(x);
      assert key(a[1..][i - 1]) == key(x);
      UpdateFirstPrefix(a[1..], b, x, key, copy);
      assert (a + b)[1..] == a[1..] + b;
    }
  }

  /** When every update's key is found in `a`, the update loop leaves `b` untouched. */
  lemma {:induction false} UpdateAllPrefix<T(!new), K>(a: seq<T>, b: seq<T>, ups: seq<T>, key: T -> K, copy: (T, T) -> T)
    requires CopyKeepsKey(key, copy)
    requires forall u :: u in ups ==> exists i :: 0 <= i < |a| && key(a[i]) == key(u)
    ensures UpdateAll(a + b, ups, key, copy) == UpdateAll(a, ups, key, copy) + b
    decreases |ups|
  {
    if ups != [] {
      var p := ups[..|ups| - 1];
      var u := ups[|ups| - 1];
      assert forall v :: v in p ==> v in ups;
      UpdateAllPrefix(a, b, p, key, copy);
      var a' := UpdateAll(a, p, key, copy);
      UpdateAllKeys(a, p, key, copy);
      var i :| 0 <= i < |a| && key(a[i]) == key(u);
      assert key(a'[i]) == key(u);
      UpdateFirstPrefix(a', b, u, key, copy);
    }
  }

  /** Applying the updates one by one, with distinct keys, refreshes each row from the last update with its key. */
  lemma {:induction false} UpdateAllPointwise<T(!new), K>(s: seq<T>, ups: seq<T>, key: T -> K, copy: (T, T) -> T)
    requires CopyKeepsKey(key, copy) && Overwrites(copy)
    requires DistinctKeys(s, key)
    ensures UpdateAll(s, ups, key, copy) == RefreshAll(s, ups, key, copy)
    decreases |ups|
  {
    if ups != [] {
      var p := ups[..|ups| - 1];
      var u := ups[|ups| - 1];
      UpdateAllPointwise(s, p, key, copy);
      var r0 := UpdateAll(s, p, key, copy);
      UpdateAllKeys(s, p, key, copy);
      assert DistinctKeys(r0, key);
      UpdateFirstDistinct(r0, u, key, copy);
      var r := UpdateAll(s, ups, key, copy);
      forall j | 0 <= j < |s|
        ensures r[j] == Refresh(s[j], ups, key, copy)
      {
        assert r0[j] == Refresh(s[j], p, key, copy);
      }
    }
  }

  lemma {:induction false} KeepInDistinct<T(!new), K>(s: seq<T>, keys: set<K>, key: T -> K)
    requires DistinctKeys(s, key)
    ensures DistinctKeys(KeepIn(s, keys, key), key)
  {
    if s != [] {
      var p := s[..|s| - 1];
      KeepInDistinct(p, keys, key);
      var q := KeepIn(p, keys, key);
      forall i | 0 <= i < |q|
        ensures key(q[i]) != key(s[|s| - 1])
      {
        assert q[i] in p;
      }
    }
  }

  /** Keeping only the updates whose key existed does not change what an existing row is refreshed from. */
  lemma {:induction false} LastWithKeyKeepIn<T(!new), K>(s: seq<T>, keys: set<K>, k: K, key: T -> K)
    requires k in keys
    ensures LastWithKey(KeepIn(s, keys, key), k, key) == LastWithKey(s, k, key)
  {
    if s != [] {
      var p := s[..|s| - 1];
      var last := s[|s| - 1];
      var q := KeepIn(p, keys, key);
      LastWithKeyKeepIn(p, keys, k, key);
      if key(last) in keys {
        assert KeepIn(s, keys, key) == q + [last];
        assert (q + [last])[..|q|] == q;
      } else {
        assert KeepIn(s, keys, key) == q;
      }
    }
  }

  /**
   * What the merge means: the existing rows whose key is still incoming,
   * in their order, each holding the columns of the last incoming row with
   * its key, followed by the incoming rows whose key is new.
   */
  lemma {:induction false} MergedIsRefreshed<T(!new), K>(existing: seq<T>, incoming: seq<T>, key: T -> K, copy: (T, T) -> T)
    requires CopyKeepsKey(key, copy) && Overwrites(copy)
    requires DistinctKeys(existing, key)
    ensures Merged(existing, incoming, key, copy)
         == RefreshAll(Kept(existing, incoming, key), incoming, key, copy) + KeepOut(incoming, Keys(existing, key), key)
  {
    var existingKeys := Keys(existing, key);
    var kept := KeepIn(existing, Keys(incoming, key), key);
    var ups := KeepIn(incoming, existingKeys, key);
    forall u | u in ups
      ensures exists i :: 0 <= i < |kept| && key(kept[i]) == key(u)
    {
      var e :| e in existing && key(e) == key(u);
      assert e in kept;
    }
    UpdateAllPrefix(kept, KeepOut(incoming, existingKeys, key), ups, key, copy);
    KeepInDistinct(existing, Keys(incoming, key), key);
    UpdateAllPointwise(kept, ups, key, copy);
    forall j | 0 <= j < |kept|
      ensures Refresh(kept[j], ups, key, copy) == Refresh(kept[j], incoming, key, copy)
    {
      assert kept[j] in existing;
      LastWithKeyKeepIn(incoming, existingKeys, key(kept[j]), key);
    }
  }

  /** After the merge the keys present are exactly the incoming keys. */
  lemma {:induction false} MergedKeys<T(!new), K>(existing: seq<T>, incoming: seq<T>, key: T -> K, copy: (T, T) -> T)
    requires CopyKeepsKey(key, copy)
    ensures Keys(Merged(existing, incoming, key, copy), key) == Keys(incoming, key)
  {
    var existingKeys := Keys(existing, key);
    var base := KeepIn(existing, Keys(incoming, key), key) + KeepOut(incoming, existingKeys, key);
    var r := Merged(existing, incoming, key, copy);
    UpdateAllKeys(base, KeepIn(incoming, existingKeys, key), key, copy);
    forall k | k in Keys(r, key)
      ensures k in Keys(incoming, key)
    {
      var x :| x in r && key(x) == k;
      var j :| 0 <= j < |r| && r[j] == x;
      assert base[j] in base;
    }
    forall k | k in Keys(incoming, key)
      ensures k in Keys(r, key)
    {
      var x :| x in incoming && key(x) == k;
      var y: T;
      if k in existingKeys {
        y :| y in existing && key(y) == k;
      } else {
        y := x;
      }
      assert y in base;
      var j :| 0 <= j < |base| && base[j] == y;
      assert r[j] in r;
    }
  }

  /**
   * The three lists the repository computes are all empty exactly when
   * both the existing and the incoming lists are empty.
   */
  lemma {:induction false} NothingToMergeIffBothEmpty<T(!new), K>(existing: seq<T>, incoming: seq<T>, key: T -> K)
    ensures (KeepOut(incoming, Keys(existing, key), key) == []
             && KeepOut(existing, Keys(incoming, key), key) == []
             && KeepIn(incoming, Keys(existing, key), key) == [])
        <==> existing == [] && incoming == []
  {
    if incoming == [] && existing != [] {
      assert existing[0] in KeepOut(existing, Keys(incoming, key), key);
    }
  }

  // ---------------------------------------------------------------------
  // Statistics
  // ---------------------------------------------------------------------

  /** The stream update loop copies every column except the row id and the index. */
  function CopyStream(e: MediaStream, x: MediaStream): MediaStream
  {
    e.(props := x.props)
  }

  /** The chapter update loop copies the start, the end and the title. */
  function CopyChapter(e: MediaChapter, x: MediaChapter): MediaChapter
  {
    e.(startTime := x.startTime, endTime := x.endTime, title := x.title)
  }

  lemma {:induction false} StreamCopyLaws()
    ensures CopyKeepsKey(StreamIndex, CopyStream) && Overwrites(CopyStream)
  {
  }

  lemma {:induction false} ChapterCopyLaws()
    ensures CopyKeepsKey(ChapterIdOf, CopyChapter) && Overwrites(CopyChapter)
  {
  }

  /**
   * The version-level columns after the update: copied from the incoming
   * version when `updateVersion` is set, untouched otherwise; the row id,
   * the name and the date added are never touched. Streams and chapters
   * are merged separately.
   */
  function VersionColumns(existing: MediaVersion, incoming: MediaVersion, updateVersion: bool): (r: MediaVersion)
    ensures r.id == existing.id && r.name == existing.name && r.dateAdded == existing.dateAdded
    ensures r.streams == existing.streams && r.chapters == existing.chapters
    ensures !updateVersion ==> r == existing
    ensures updateVersion ==>
              && r.dateUpdated == incoming.dateUpdated && r.duration == incoming.duration
              && r.sampleAspectRatio == incoming.sampleAspectRatio
              && r.displayAspectRatio == incoming.displayAspectRatio
              && r.width == incoming.width && r.height == incoming.height
              && r.videoScanKind == incoming.videoScanKind && r.rFrameRate == incoming.rFrameRate
  {
    if updateVersion then
      existing.(dateUpdated := incoming.dateUpdated, duration := incoming.duration,
                sampleAspectRatio := incoming.sampleAspectRatio, displayAspectRatio := incoming.displayAspectRatio,
                width := incoming.width, height := incoming.height,
                videoScanKind := incoming.videoScanKind, rFrameRate := incoming.rFrameRate)
    else existing
  }

  /** The media version once statistics are applied. */
  function StatisticsApplied(existing: MediaVersion, incoming: MediaVersion, updateVersion: bool): MediaVersion
  {
    VersionColumns(existing, incoming, updateVersion).(
      streams := Merged(existing.streams, incoming.streams, StreamIndex, CopyStream),
      chapters := Merged(existing.chapters, incoming.chapters, ChapterIdOf, CopyChapter))
  }

  /**
   * UpdateStatistics. `found` is the head version the database returned
   * for the item (None when it has none); `saved` is whether saving the
   * changes wrote at least one row. The result is false without a version
   * and otherwise the save's answer; `after` is the version as saved.
   */
  method UpdateStatistics(found: Option<MediaVersion>, incoming: MediaVersion, updateVersion: bool, saved: bool)
    returns (ok: bool, after: Option<MediaVersion>)
    ensures found.None? ==> !ok && after.None?
    ensures found.Some? ==> ok == saved && after == Some(StatisticsApplied(found.value, incoming, updateVersion))
  {
    if found.None? {
      return false, None;
    }
    var existing := VersionColumns(found.value, incoming, updateVersion);
    StreamCopyLaws();
    ChapterCopyLaws();
    var streams := MergeByKey(existing.streams, incoming.streams, StreamIndex, CopyStream);
    var chapters := MergeByKey(existing.chapters, incoming.chapters, ChapterIdOf, CopyChapter);
    existing := existing.(streams := streams, chapters := chapters);
    ok := saved;
    after := Some(existing);
  }

  /** After a statistics update the stream indexes are exactly the incoming ones, and so are the chapter ids. */
  lemma {:induction false} StatisticsKeys(existing: MediaVersion, incoming: MediaVersion, updateVersion: bool)
    ensures var r := StatisticsApplied(existing, incoming, updateVersion);
            && Keys(r.streams, StreamIndex) == Keys(incoming.streams, StreamIndex)
            && Keys(r.chapters, ChapterIdOf) == Keys(incoming.chapters, ChapterIdOf)
  {
    StreamCopyLaws();
    ChapterCopyLaws();
    MergedKeys(existing.streams, incoming.streams, StreamIndex, CopyStream);
    MergedKeys(existing.chapters, incoming.chapters, ChapterIdOf, CopyChapter);
  }

  /**
   * Every stream after the update is either a new incoming stream or an
   * existing row (same id, same index) holding every column of an incoming
   * stream with its index.
   */
  lemma {:induction false} MatchedStreamsTakeIncoming(existing: MediaVersion, incoming: MediaVersion, updateVersion: bool)
    requires DistinctKeys(existing.streams, StreamIndex)
    ensures var r := StatisticsApplied(existing, incoming, updateVersion).streams;
            forall x :: x in r ==>
              || (x in incoming.streams && x.index !in Keys(existing.streams, StreamIndex))
              || (exists e, i :: e in existing.streams && i in incoming.streams
                                 && x.id == e.id && x.index == e.index && i.index == e.index && x.props == i.props)
  {
    StreamCopyLaws();
    MergedIsRefreshed(existing.streams, incoming.streams, StreamIndex, CopyStream);
    var kept := Kept(existing.streams, incoming.streams, StreamIndex);
    var refreshed := RefreshAll(kept, incoming.streams, StreamIndex, CopyStream);
    forall x | x in refreshed
      ensures exists e, i :: e in existing.streams && i in incoming.streams
                             && x.id == e.id && x.index == e.index && i.index == e.index && x.props == i.props
    {
      var j :| 0 <= j < |refreshed| && refreshed[j] == x;
      var e := kept[j];
      assert e in existing.streams;
      var i := LastWithKey(incoming.streams, e.index, StreamIndex).value;
      assert x == e.(props := i.props);
    }
  }

  /**
   * Every chapter after the update is either a new incoming chapter or an
   * existing row (same id, same chapter id) holding the start, end and
   * title of an incoming chapter with its chapter id.
   */
  lemma {:induction false} MatchedChaptersTakeIncoming(existing: MediaVersion, incoming: MediaVersion, updateVersion: bool)
    requires DistinctKeys(existing.chapters, ChapterIdOf)
    ensures var r := StatisticsApplied(existing, incoming, updateVersion).chapters;
            forall x :: x in r ==>
              || (x in incoming.chapters && x.chapterId !in Keys(existing.chapters, ChapterIdOf))
              || (exists e, i :: e in existing.chapters && i in incoming.chapters
                                 && x.id == e.id && x.chapterId == e.chapterId && i.chapterId == e.chapterId
                                 && x.startTime == i.startTime && x.endTime == i.endTime && x.title == i.title)
  {
    ChapterCopyLaws();
    MergedIsRefreshed(existing.chapters, incoming.chapters, ChapterIdOf, CopyChapter);
    var kept := Kept(existing.chapters, incoming.chapters, ChapterIdOf);
    var refreshed := RefreshAll(kept, incoming.chapters, ChapterIdOf, CopyChapter);
    forall x | x in refreshed
      ensures exists e, i :: e in existing.chapters && i in incoming.chapters
                             && x.id == e.id && x.chapterId == e.chapterId && i.chapterId == e.chapterId
                             && x.startTime == i.startTime && x.endTime == i.endTime && x.title == i.title
    {
      var j :| 0 <= j < |refreshed| && refreshed[j] == x;
      var e := kept[j];
      assert e in existing.chapters;
      var i := LastWithKey(incoming.chapters, e.chapterId, ChapterIdOf).value;
      assert x == CopyChapter(e, i);
    }
  }

  // ---------------------------------------------------------------------
  // Subtitles
  // ---------------------------------------------------------------------

  datatype SubtitleKind = Embedded | Sidecar

  /** The columns of a subtitle that a subtitle update copies from the incoming one. */
  datatype SubtitleProps = SubtitleProps(
    codec: Option<string>,
    isDefault: bool,
    forced: bool,
    sdh: bool,
    language: Option<string>,
    subtitleKind: SubtitleKind,
    dateUpdated: int)

  /** A subtitle row; its title, path and extraction flag are not touched by an update. */
  datatype Subtitle = Subtitle(id: int, streamIndex: int, title: Option<string>, path: Option<string>,
                               isExtracted: bool, props: SubtitleProps)

  /** Subtitle rows are matched by their stream index. */
  function SubtitleIndex(s: Subtitle): int { s.streamIndex }

  /** The subtitle update loop copies the incoming SubtitleProps columns and keeps the rest of the row. */
  function CopySubtitle(e: Subtitle, x: Subtitle): Subtitle
  {
    e.(props := x.props)
  }

  /** The subtitle copy keeps the stream index, and a later copy overrides an earlier one. */
  lemma {:induction false} SubtitleCopyLaws()
    ensures CopyKeepsKey(SubtitleIndex, CopySubtitle) && Overwrites(CopySubtitle)
  {
  }

  /** The metadata kinds whose subtitles the repository loads; any other kind finds no metadata. */
  predicate HasSubtitles(kind: OwnerKind)
  {
    kind.EpisodeOwner? || kind.MovieOwner? || kind.MusicVideoOwner? || kind.OtherVideoOwner?
  }

  /**
   * UpdateSubtitles. `found` is the metadata row's subtitle list as the
   * database returned it (None when no row has the id); `savedCount` is the
   * number of rows the save wrote. Without metadata the result is false;
   * with nothing to add, remove or update it is true and nothing is
   * written; otherwise it is whether the save wrote anything.
   */
  method UpdateSubtitles(kind: OwnerKind, found: Option<seq<Subtitle>>, incoming: seq<Subtitle>, savedCount: int)
    returns (ok: bool, after: Option<seq<Subtitle>>)
    ensures !HasSubtitles(kind) || found.None? ==> !ok && after.None?
    ensures HasSubtitles(kind) && found.Some? && found.value == [] && incoming == [] ==>
              ok && after == found
    ensures HasSubtitles(kind) && found.Some? && (found.value != [] || incoming != []) ==>
              ok == (savedCount > 0) && after == Some(Merged(found.value, incoming, SubtitleIndex, CopySubtitle))
  {
    if !HasSubtitles(kind) || found.None? {
      return false, None;
    }
    var existing := found.value;
    var existingKeys := Keys(existing, SubtitleIndex);
    var incomingKeys := Keys(incoming, SubtitleIndex);
    var toAdd := KeepOut(incoming, existingKeys, SubtitleIndex);
    var toRemove := KeepOut(existing, incomingKeys, SubtitleIndex);
    var toUpdate := KeepIn(incoming, existingKeys, SubtitleIndex);
    NothingToMergeIffBothEmpty(existing, incoming, SubtitleIndex);
    if toAdd != [] || toRemove != [] || toUpdate != [] {
      SubtitleCopyLaws();
      var merged := MergeByKey(existing, incoming, SubtitleIndex, CopySubtitle);
      return savedCount > 0, Some(merged);
    }
    return true, found;
  }

  /** After a subtitle merge the stream indexes present are exactly the incoming ones. */
  lemma {:induction false} SubtitleIndexesAfterMerge(existing: seq<Subtitle>, incoming: seq<Subtitle>)
    ensures Keys(Merged(existing, incoming, SubtitleIndex, CopySubtitle), SubtitleIndex) == Keys(incoming, SubtitleIndex)
  {
    SubtitleCopyLaws();
    MergedKeys(existing, incoming, SubtitleIndex, CopySubtitle);
  }

  /**
   * Every subtitle after the merge is either a new incoming one or an
   * existing row that keeps its id, title, path and extraction flag and
   * takes the columns of an incoming subtitle with its stream index.
   */
  lemma {:induction false} MatchedSubtitlesTakeIncoming(existing: seq<Subtitle>, incoming: seq<Subtitle>)
    requires DistinctKeys(existing, SubtitleIndex)
    ensures forall x :: x in Merged(existing, incoming, SubtitleIndex, CopySubtitle) ==>
              || (x in incoming && x.streamIndex !in Keys(existing, SubtitleIndex))
              || (exists e, i :: e in existing && i in incoming && e.streamIndex == i.streamIndex
                                 && x == e.(props := i.props))
  {
    SubtitleCopyLaws();
    MergedIsRefreshed(existing, incoming, SubtitleIndex, CopySubtitle);
    var kept := Kept(existing, incoming, SubtitleIndex);
    var refreshed := RefreshAll(kept, incoming, SubtitleIndex, CopySubtitle);
    forall x | x in refreshed
      ensures exists e, i :: e in existing && i in incoming && e.streamIndex == i.streamIndex && x == e.(props := i.props)
    {
      var j :| 0 <= j < |refreshed| && refreshed[j] == x;
      var e := kept[j];
      assert e in existing;
      var i := LastWithKey(incoming, e.streamIndex, SubtitleIndex).value;
      assert x == CopySubtitle(e, i);
    }
  }

  // ---------------------------------------------------------------------
  // Guids
  // ---------------------------------------------------------------------

  /**
   * The MetadataGuid column AddGuid writes the owner's id into, by the
   * kind of metadata; None for the kinds it does not support (the source
   * throws NotSupportedException for them).
   */
  function GuidOwnerColumn(kind: OwnerKind): (r: Option<string>)
    ensures r.None? <==> kind.MusicVideoOwner? || kind.SongOwner? || kind.ImageOwner?
  {
    match kind
    case MovieOwner => Some("MovieMetadataId")
    case ShowOwner => Some("ShowMetadataId")
    case SeasonOwner => Some("SeasonMetadataId")
    case EpisodeOwner => Some("EpisodeMetadataId")
    case ArtistOwner => Some("ArtistMetadataId")
    case OtherVideoOwner => Some("OtherVideoMetadataId")
    case _ => None
  }

  /** Distinct supported kinds write into distinct columns. */
  lemma {:induction false} GuidOwnerColumnsDistinct(a: OwnerKind, b: OwnerKind)
    requires GuidOwnerColumn(a).Some? && GuidOwnerColumn(a) == GuidOwnerColumn(b)
    ensures a == b
  {
  }

  /**
   * AddGuid: the insert's answer (`rowsInserted > 0`) for a supported kind,
   * NotSupported for the others.
   */
  function AddGuid(kind: OwnerKind, rowsInserted: int): (r: Result<bool>)
    ensures r.Err? <==> GuidOwnerColumn(kind).None?
    ensures r.Ok? ==> (r.value <==> rowsInserted > 0)
  {
    if GuidOwnerColumn(kind).None? then Err("NotSupported") else Ok(rowsInserted > 0)
  }
}
