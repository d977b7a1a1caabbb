/**
 * The entities shared by classic playout scheduling: media items as the
 * schedulers see them (an id and the head version's duration), filler
 * presets, program schedule items, the builder state threaded between
 * schedulers, and the playout items they produce. All instants are local
 * .NET ticks.
 */
module PlayoutTypes {
  import opened Common

  type PosInt = n: int | n > 0 witness 1

  /** What a playout item is; `NotFiller` is the schedule's own content. */
  datatype FillerKind =
    | NotFiller
    | PreRoll
    | MidRoll
    | PostRoll
    | Tail
    | Fallback
    | GuideMode
    | DecoDefault

  datatype FillerMode = NoMode | Duration | Count | Pad

  datatype CollectionType =
    | Collection
    | TelevisionShow
    | TelevisionSeason
    | Artist
    | MultiCollection
    | SmartCollection
    | Playlist

  /** Identifies the collection (and so the enumerator) a schedule item or filler draws from. */
  datatype CollectionKey = CollectionKey(
    collectionType: CollectionType,
    collectionId: Option<int>,
    multiCollectionId: Option<int>,
    smartCollectionId: Option<int>,
    mediaItemId: Option<int>)

  /** A media item as scheduling sees it: its id and the duration of its head version. */
  datatype MediaItem = MediaItem(id: int, duration: nat)

  datatype Chapter = Chapter(startTime: int, endTime: int)

  datatype FillerPreset = FillerPreset(
    kind: FillerKind,
    mode: FillerMode,
    duration: Option<int>,
    count: Option<int>,
    padToNearestMinute: Option<PosInt>,
    allowWatermarks: bool,
    collection: CollectionKey)

  datatype ScheduleItemKind = One | Multiple | DurationItem | Flood

  datatype StartType = Dynamic | Fixed

  datatype ScheduleItem = ScheduleItem(
    index: int,
    kind: ScheduleItemKind,
    startType: StartType,
    startTime: Option<int>,
    collection: CollectionKey,
    preRoll: Option<FillerPreset>,
    midRoll: Option<FillerPreset>,
    postRoll: Option<FillerPreset>,
    tail: Option<FillerPreset>,
    fallback: Option<FillerPreset>)

  /** PlayoutBuilderState without its schedule-items enumerator. */
  datatype BuilderState = BuilderState(
    currentTime: int,
    nextGuideGroup: int,
    multipleRemaining: Option<int>,
    durationFinish: Option<int>,
    inFlood: bool,
    inDurationFiller: bool)

  datatype PlayoutItem = PlayoutItem(
    mediaItemId: int,
    start: int,
    finish: int,
    inPoint: int,
    outPoint: int,
    fillerKind: FillerKind,
    guideGroup: int,
    disableWatermarks: bool)

  /** 2020-02-01T00:00:00Z, where filler items are placed until AddFiller re-times them. */
  const PlaceholderStart: int := 637161120000000000

  /** How a playout is being built: continued, refreshed from a start date, or reset. */
  datatype BuildMode = Continue | Refresh | Reset

  /** A playout history record: the content key it advanced, when the item started and when it finishes. */
  datatype History = History(id: int, key: string, when: int, finish: int)

  /** Reset mode drops history that starts after `start` or is still playing at `start`. */
  predicate RemovedOnReset(h: History, start: int)
  {
    h.when > start || (h.when <= start && h.finish >= start)
  }

  /** Total duration of a run of media items. */
  function SumDurations(s: seq<MediaItem>): (r: nat)
  {
    if s == [] then 0 else SumDurations(s[..|s| - 1]) + s[|s| - 1].duration
  }

  lemma {:induction false} SumDurationsAppend(a: seq<MediaItem>, b: seq<MediaItem>)
    ensures SumDurations(a + b) == SumDurations(a) + SumDurations(b)
    decreases |b|
  {
    if b == [] {
      assert a + b == a;
    } else {
      assert (a + b)[..|a + b| - 1] == a + b[..|b| - 1];
      SumDurationsAppend(a, b[..|b| - 1]);
    }
  }

  lemma {:induction false} SumDurationsPrefix(s: seq<MediaItem>, k: nat)
    requires k < |s|
    ensures SumDurations(s[..k + 1]) == SumDurations(s[..k]) + s[k].duration
  {
    assert s[..k + 1][..k] == s[..k];
  }

  lemma {:induction false} SumDurationsMonotone(s: seq<MediaItem>, j: nat, k: nat)
    requires j <= k <= |s|
    ensures SumDurations(s[..j]) <= SumDurations(s[..k])
    decreases k - j
  {
    if j < k {
      SumDurationsPrefix(s, k - 1);
      SumDurationsMonotone(s, j, k - 1);
    }
  }

  /** Length of a playout item on the timeline. */
  function Span(item: PlayoutItem): int
  {
    item.finish - item.start
  }

  function SumSpans(items: seq<PlayoutItem>): int
  {
    if items == [] then 0 else SumSpans(items[..|items| - 1]) + Span(items[|items| - 1])
  }

  lemma {:induction false} SumSpansAppend(a: seq<PlayoutItem>, b: seq<PlayoutItem>)
    ensures SumSpans(a + b) == SumSpans(a) + SumSpans(b)
    decreases |b|
  {
    if b == [] {
      assert a + b == a;
    } else {
      assert (a + b)[..|a + b| - 1] == a + b[..|b| - 1];
      SumSpansAppend(a, b[..|b| - 1]);
    }
  }

  /** The latest finish among the items. */
  function MaxFinish(items: seq<PlayoutItem>): (r: int)
    requires items != []
    ensures exists i :: 0 <= i < |items| && items[i].finish == r
    ensures forall i :: 0 <= i < |items| ==> items[i].finish <= r
  {
    if |items| == 1 then items[0].finish
    else
      var rest := MaxFinish(items[1..]);
      assert forall i :: 1 <= i < |items| ==> items[i] == items[1..][i - 1];
      if items[0].finish >= rest then items[0].finish else rest
  }

  /** Items are back to back: each starts where the previous one finished. */
  predicate Contiguous(items: seq<PlayoutItem>)
  {
    forall i :: 0 <= i < |items| - 1 ==> items[i].finish == items[i + 1].start
  }

  /** A filler item built from a media item, starting at `start` and playing it whole. */
  function FillerItem(m: MediaItem, start: int, kind: FillerKind, guideGroup: int, allowWatermarks: bool)
    : (r: PlayoutItem)
    ensures r.start == start && Span(r) == m.duration && r.mediaItemId == m.id
    ensures r.inPoint == 0 && r.outPoint == m.duration && r.fillerKind == kind
    ensures r.guideGroup == guideGroup && r.disableWatermarks == !allowWatermarks
  {
    PlayoutItem(m.id, start, start + m.duration, 0, m.duration, kind, guideGroup, !allowWatermarks)
  }

  /** The filler presets of a schedule item in pre-, mid-, post-roll order, skipping absent ones. */
  function AllFiller(item: ScheduleItem): (r: seq<FillerPreset>)
    ensures |r| <= 3
    ensures forall f :: f in r <==>
      (item.preRoll == Some(f) || item.midRoll == Some(f) || item.postRoll == Some(f))
    ensures |r| == Present(item.preRoll) + Present(item.midRoll) + Present(item.postRoll)
    ensures item.preRoll.Some? ==> r[0] == item.preRoll.value
    ensures item.midRoll.Some? ==> r[Present(item.preRoll)] == item.midRoll.value
    ensures item.postRoll.Some? ==> r[|r| - 1] == item.postRoll.value
  {
    (if item.preRoll.Some? then [item.preRoll.value] else [])
    + (if item.midRoll.Some? then [item.midRoll.value] else [])
    + (if item.postRoll.Some? then [item.postRoll.value] else [])
  }

  predicate IsPadFiller(f: FillerPreset)
  {
    f.mode == Pad && f.padToNearestMinute.Some?
  }

  /** The positions of the pad presets in `fs`. */
  function PadPositions(fs: seq<FillerPreset>): set<int>
  {
    set i | 0 <= i < |fs| && IsPadFiller(fs[i])
  }

  /** The number of pad presets, which the callers compare with 0 and 1. */
  function CountPadFillers(fs: seq<FillerPreset>): (r: nat)
    ensures r == |PadPositions(fs)|
    ensures r == 0 <==> forall i :: 0 <= i < |fs| ==> !IsPadFiller(fs[i])
  {
    if fs == [] then 0
    else
      var front := fs[..|fs| - 1];
      var rest := CountPadFillers(front);
      var last := if IsPadFiller(fs[|fs| - 1]) then {|fs| - 1} else {};
      assert PadPositions(fs) == PadPositions(front) + last;
      assert |fs| - 1 !in PadPositions(front);
      rest + (if IsPadFiller(fs[|fs| - 1]) then 1 else 0)
  }

  /** One for a configured preset, zero for an absent one. */
  function Present(f: Option<FillerPreset>): nat
  {
    if f.Some? then 1 else 0
  }

  /** FirstOrDefault over the pad fillers. */
  function FirstPadFiller(fs: seq<FillerPreset>): (r: Option<FillerPreset>)
    ensures r.Some? <==> exists i :: 0 <= i < |fs| && IsPadFiller(fs[i])
    ensures r.Some? ==> r.value in fs && IsPadFiller(r.value)
    ensures r.Some? ==> exists i :: 0 <= i < |fs| && fs[i] == r.value && forall j :: 0 <= j < i ==> !IsPadFiller(fs[j])
  {
    if fs == [] then None
    else if IsPadFiller(fs[0]) then Some(fs[0])
    else FirstPadFiller(fs[1..])
  }

  /**
   * A media collection enumerator, as the finite run of media items it will
   * yield from its current position on: Current is the head, MoveNext drops
   * it, Peek(k) looks k items ahead.
   */
  type Upcoming = seq<MediaItem>

  /** The enumerators of a playout build, one per collection key. */
  type Enumerators = map<CollectionKey, Upcoming>

  function Current(s: Upcoming): (r: Option<MediaItem>)
    ensures r.Some? <==> |s| > 0
    ensures r.Some? ==> r.value == s[0]
  {
    if s == [] then None else Some(s[0])
  }

  function Peek(s: Upcoming, k: nat): (r: Option<MediaItem>)
    ensures r.Some? <==> k < |s|
    ensures r.Some? ==> r.value == s[k]
  {
    if k < |s| then Some(s[k]) else None
  }

  /**
   * The collection keys whose enumerators a schedule item needs: its own
   * collection, then each configured filler preset in the order pre-roll,
   * mid-roll, post-roll, tail, fallback.
   */
  function CollectionKeysForItem(item: ScheduleItem): (r: seq<CollectionKey>)
    ensures |r| >= 1 && r[0] == item.collection
    ensures item.preRoll.Some? ==> item.preRoll.value.collection in r
    ensures item.midRoll.Some? ==> item.midRoll.value.collection in r
    ensures item.postRoll.Some? ==> item.postRoll.value.collection in r
    ensures item.tail.Some? ==> item.tail.value.collection in r
    ensures item.fallback.Some? ==> item.fallback.value.collection in r
    ensures forall k :: k in r ==>
              (k == item.collection
               || (item.preRoll.Some? && k == item.preRoll.value.collection)
               || (item.midRoll.Some? && k == item.midRoll.value.collection)
               || (item.postRoll.Some? && k == item.postRoll.value.collection)
               || (item.tail.Some? && k == item.tail.value.collection)
               || (item.fallback.Some? && k == item.fallback.value.collection))
  {
    [item.collection]
    + (if item.preRoll.Some? then [item.preRoll.value.collection] else [])
    + (if item.midRoll.Some? then [item.midRoll.value.collection] else [])
    + (if item.postRoll.Some? then [item.postRoll.value.collection] else [])
    + (if item.tail.Some? then [item.tail.value.collection] else [])
    + (if item.fallback.Some? then [item.fallback.value.collection] else [])
  }

  /** Every enumerator the schedule item draws from has been created. */
  predicate HasEnumerators(item: ScheduleItem, enumerators: Enumerators)
  {
    forall k :: k in CollectionKeysForItem(item) ==> k in enumerators
  }
}
