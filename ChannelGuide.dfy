/**
 * The XMLTV guide of one channel: the playout items are sorted, cut at the
 * guide horizon and shifted by a mirror channel's offset, then grouped into
 * programmes (classic, sequential and scripted playouts and external JSON
 * schedules) or split evenly over their guide blocks (block playouts).
 * Instants are ticks; the time zone only changes how an instant is printed.
 */
module ChannelGuide {
  import opened Common
  import opened PlayoutTypes

  datatype MediaKind = MovieKind | EpisodeKind | MusicVideoKind | OtherVideoKind | SongKind | OtherKind

  /**
   * What the guide needs of a media item: its kind, the head of the
   * metadata its title comes from (the movie, the show of an episode, the
   * artist of a music video, the other video; absent when there is none,
   * holding None for a null title) and the head of the metadata its
   * subtitle comes from (the episode, the music video, the song).
   */
  datatype GuideMedia = GuideMedia(
    kind: MediaKind,
    titleHead: Option<Option<string>>,
    subtitleHead: Option<Option<string>>)

  /** A playout item as the guide sees it. */
  datatype GuideItem = GuideItem(
    start: int,
    finish: int,
    guideStart: Option<int>,
    guideFinish: Option<int>,
    guideGroup: int,
    fillerKind: FillerKind,
    customTitle: Option<string>,
    media: GuideMedia)

  // ---------------------------------------------------------------------
  // Sorting, cutting and shifting
  // ---------------------------------------------------------------------

  function StartOf(it: GuideItem): int { it.start }

  predicate SortedByStart(s: seq<GuideItem>)
  {
    SortedBy(s, StartOf)
  }

  /** OrderBy(Start): a sorted permutation of the items. */
  function SortByStart(s: seq<GuideItem>): (r: seq<GuideItem>)
    ensures SortedByStart(r)
    ensures multiset(r) == multiset(s)
  {
    SortBy(s, StartOf)
  }

  /**
   * A mirror channel's shift as written: Start and Finish move, the guide
   * times do not. It agrees with the full shift exactly when the offset is
   * zero or the item has no guide times.
   */
  function ShiftAsWritten(it: GuideItem, offset: int): (r: GuideItem)
    ensures r.start - offset == it.start && r.finish - offset == it.finish
    ensures r.guideStart == it.guideStart && r.guideFinish == it.guideFinish
    ensures r == Shift(it, offset) <==> offset == 0 || (it.guideStart.None? && it.guideFinish.None?)
  {
    it.(start := it.start + offset, finish := it.finish + offset)
  }

  function ShiftOpt(t: Option<int>, offset: int): Option<int>
  {
    if t.Some? then Some(t.value + offset) else None
  }

  /** A mirror channel's shift applied to every instant of the item. */
  function Shift(it: GuideItem, offset: int): (r: GuideItem)
    ensures r.start - offset == it.start && r.finish - offset == it.finish
    ensures r.guideStart.Some? == it.guideStart.Some? && r.guideFinish.Some? == it.guideFinish.Some?
    ensures r.guideFinish.Some? ==> r.guideFinish.value - offset == it.guideFinish.value
    ensures r.guideStart.Some? ==> r.guideStart.value - offset == it.guideStart.value
    ensures r.(start := it.start, finish := it.finish, guideStart := it.guideStart, guideFinish := it.guideFinish) == it
  {
    it.(start := it.start + offset, finish := it.finish + offset,
        guideStart := ShiftOpt(it.guideStart, offset), guideFinish := ShiftOpt(it.guideFinish, offset))
  }

  function ShiftAll(s: seq<GuideItem>, offset: int): (r: seq<GuideItem>)
    ensures |r| == |s|
    ensures forall k :: 0 <= k < |s| ==> r[k] == Shift(s[k], offset)
  {
    seq(|s|, k requires 0 <= k < |s| => Shift(s[k], offset))
  }

  function ShiftAllAsWritten(s: seq<GuideItem>, offset: int): (r: seq<GuideItem>)
    ensures |r| == |s|
    ensures forall k :: 0 <= k < |s| ==> r[k] == ShiftAsWritten(s[k], offset)
  {
    seq(|s|, k requires 0 <= k < |s| => ShiftAsWritten(s[k], offset))
  }

  predicate StartsBy(finish: int, it: GuideItem)
  {
    it.start <= finish
  }

  /**
   * The items the guide is written from, with the mirror shift as written:
   * sorted by start, exactly the items that started by the horizon, with
   * start and finish shifted and the guide times left as they were.
   */
  function GuideItemsAsWritten(items: seq<GuideItem>, finish: int, offset: int): (r: seq<GuideItem>)
    ensures SortedByStart(r)
    ensures forall x :: x in r <==> exists y :: y in items && y.start <= finish && x == ShiftAsWritten(y, offset)
  {
    var sorted := SortByStart(items);
    var kept := Filter(sorted, it => StartsBy(finish, it));
    FilterKeepsSorted(sorted, it => StartsBy(finish, it));
    assert forall y :: y in items <==> y in sorted by {
      forall y ensures y in items <==> y in sorted {
        assert y in items <==> y in multiset(items);
        assert y in sorted <==> y in multiset(sorted);
      }
    }
    ShiftAllAsWrittenFacts(items, kept, finish, offset);
    ShiftAllAsWritten(kept, offset)
  }

  /** Shifting the kept items as written keeps them sorted, and gives exactly the shifted items that started by the horizon. */
  lemma {:induction false} ShiftAllAsWrittenFacts(items: seq<GuideItem>, kept: seq<GuideItem>, finish: int, offset: int)
    requires SortedByStart(kept)
    requires forall y :: y in kept <==> y in items && StartsBy(finish, y)
    ensures SortedByStart(ShiftAllAsWritten(kept, offset))
    ensures forall x :: x in ShiftAllAsWritten(kept, offset) <==>
              exists y :: y in items && y.start <= finish && x == ShiftAsWritten(y, offset)
  {
    var r := ShiftAllAsWritten(kept, offset);
    forall x ensures x in r <==> exists y :: y in items && y.start <= finish && x == ShiftAsWritten(y, offset) {
      if x in r {
        var k :| 0 <= k < |r| && r[k] == x;
        assert kept[k] in kept;
      }
      if y :| y in items && y.start <= finish && x == ShiftAsWritten(y, offset) {
        assert y in kept;
        var k :| 0 <= k < |kept| && kept[k] == y;
        assert r[k] == x;
      }
    }
    forall i, j | 0 <= i < j < |r| ensures StartOf(r[i]) <= StartOf(r[j]) {
      assert StartOf(kept[i]) <= StartOf(kept[j]);
    }
  }

  /** The items starting by the horizon `finish`, in their order, shifted by `offset`. */
  function CutAndShift(items: seq<GuideItem>, finish: int, offset: int): (r: seq<GuideItem>)
    ensures forall k :: 0 <= k < |r| ==> r[k].start - offset <= finish
    ensures forall x :: x in r <==> exists y :: y in items && y.start <= finish && x == Shift(y, offset)
  {
    var kept := Filter(items, it => StartsBy(finish, it));
    var r := ShiftAll(kept, offset);
    assert forall k :: 0 <= k < |kept| ==> kept[k] in kept;
    forall x ensures x in r <==> exists y :: y in items && y.start <= finish && x == Shift(y, offset) {
      if x in r {
        var k :| 0 <= k < |r| && r[k] == x;
        assert kept[k] in kept;
      }
      if y :| y in items && y.start <= finish && x == Shift(y, offset) {
        assert y in kept;
        var k :| 0 <= k < |kept| && kept[k] == y;
        assert r[k] == x;
      }
    }
    r
  }

  /**
   * The items the guide is written from: sorted by start, those starting
   * after the horizon `finish` dropped, then shifted by `offset`.
   */
  function GuideItems(items: seq<GuideItem>, finish: int, offset: int): (r: seq<GuideItem>)
    ensures SortedByStart(r)
    ensures forall k :: 0 <= k < |r| ==> r[k].start - offset <= finish
    ensures forall x :: x in r <==> exists y :: y in items && y.start <= finish && x == Shift(y, offset)
  {
    var sorted := SortByStart(items);
    FilterKeepsSorted(sorted, it => StartsBy(finish, it));
    assert forall y :: y in items <==> y in sorted by {
      forall y ensures y in items <==> y in sorted {
        assert y in items <==> y in multiset(items);
        assert y in sorted <==> y in multiset(sorted);
      }
    }
    CutAndShift(sorted, finish, offset)
  }

  lemma {:induction false} FilterKeepsSorted(s: seq<GuideItem>, p: GuideItem -> bool)
    requires SortedByStart(s)
    ensures SortedByStart(Filter(s, p))
  {
    if s != [] {
      var front := s[..|s| - 1];
      FilterKeepsSorted(front, p);
      var f := Filter(front, p);
      forall e | e in f ensures e.start <= s[|s| - 1].start {
        var k :| 0 <= k < |front| && front[k] == e;
      }
    }
  }

  // ---------------------------------------------------------------------
  // Programmes (WritePlayoutXml)
  // ---------------------------------------------------------------------

  predicate IsFiller(it: GuideItem)
  {
    it.fillerKind != NotFiller
  }

  /** Leading filler that is not pre-roll is left out of the guide. */
  predicate SkippedAtStart(it: GuideItem)
  {
    IsFiller(it) && it.fillerKind != PreRoll
  }

  /** An item joins the programme that `first` opens when it shares its guide group or is trailing filler. */
  predicate JoinsProgramme(first: GuideItem, next: GuideItem)
  {
    next.guideGroup == first.guideGroup
    || next.fillerKind in {GuideMode, PostRoll, Tail, Fallback, DecoDefault}
  }

  /**
   * One programme of the guide: the items from `first` to `last`, shown as
   * the item at `display`, from `start` to `stop`.
   */
  datatype Programme = Programme(first: nat, display: nat, last: nat, start: int, stop: int, hasCustomTitle: bool)

  /** What makes `p` a programme of `sorted`. */
  predicate ProgrammeOf(sorted: seq<GuideItem>, p: Programme)
  {
    p.first <= p.display <= p.last < |sorted|
    // the display item is the first non-filler item from the first, or the last item
    && (forall x :: p.first <= x < p.display ==> IsFiller(sorted[x]))
    && (!IsFiller(sorted[p.display]) || p.display == |sorted| - 1)
    // the programme runs on while items join it
    && (forall x :: p.display < x <= p.last ==> JoinsProgramme(sorted[p.first], sorted[x]))
    && (p.last + 1 < |sorted| ==> !JoinsProgramme(sorted[p.first], sorted[p.last + 1]))
    && p.start == sorted[p.first].start
    && p.stop == (if sorted[p.display].guideFinish.Some? then sorted[p.display].guideFinish.value
                  else sorted[p.last].finish)
    && p.hasCustomTitle == !IsBlankOpt(sorted[p.first].customTitle)
  }

  /** The programmes cover the items from `from` to the end, each taking up where the previous one stopped. */
  predicate Tiles(sorted: seq<GuideItem>, progs: seq<Programme>, from: nat)
  {
    (progs == [] <==> from >= |sorted|)
    && (progs != [] ==> progs[0].first == from && progs[|progs| - 1].last == |sorted| - 1)
    && (forall k :: 0 <= k < |progs| - 1 ==> progs[k + 1].first == progs[k].last + 1)
  }

  /** The display item of a programme opened at `i`: the first non-filler item from `i`, or the last item. */
  method FindDisplay(sorted: seq<GuideItem>, i: nat) returns (j: nat)
    requires i < |sorted|
    ensures i <= j < |sorted|
    ensures forall x :: i <= x < j ==> IsFiller(sorted[x])
    ensures !IsFiller(sorted[j]) || j == |sorted| - 1
  {
    j := i;
    while IsFiller(sorted[j]) && j + 1 < |sorted|
      invariant i <= j < |sorted|
      invariant forall x :: i <= x < j ==> IsFiller(sorted[x])
    {
      j := j + 1;
    }
  }

  /** The last item of a programme opened by `startItem` whose display item is at `j`. */
  method FindFinish(sorted: seq<GuideItem>, startItem: GuideItem, j: nat) returns (finishIndex: nat)
    requires j < |sorted|
    ensures j <= finishIndex < |sorted|
    ensures forall x :: j < x <= finishIndex ==> JoinsProgramme(startItem, sorted[x])
    ensures finishIndex + 1 < |sorted| ==> !JoinsProgramme(startItem, sorted[finishIndex + 1])
  {
    finishIndex := j;
    while finishIndex + 1 < |sorted| && JoinsProgramme(startItem, sorted[finishIndex + 1])
      invariant j <= finishIndex < |sorted|
      invariant forall x :: j < x <= finishIndex ==> JoinsProgramme(startItem, sorted[x])
    {
      finishIndex := finishIndex + 1;
    }
  }

  /** One pass of WritePlayoutXml's outer loop: the programme opened by the item at `i`. */
  method ReadProgramme(sorted: seq<GuideItem>, i: nat) returns (p: Programme)
    requires i < |sorted|
    ensures ProgrammeOf(sorted, p) && p.first == i
  {
    var startItem := sorted[i];
    var j := FindDisplay(sorted, i);
    var displayItem := sorted[j];
    var hasCustomTitle := !IsBlankOpt(startItem.customTitle);
    var finishIndex := FindFinish(sorted, startItem, j);
    var finishItem := sorted[finishIndex];
    var stop := if displayItem.guideFinish.Some? then displayItem.guideFinish.value else finishItem.finish;
    p := Programme(i, j, finishIndex, startItem.start, stop, hasCustomTitle);
  }

  /**
   * WritePlayoutXml's grouping: skips the leading filler that is not
   * pre-roll, then walks the items programme by programme.
   */
  method WritePlayoutXml(sorted: seq<GuideItem>) returns (skipped: nat, progs: seq<Programme>)
    ensures skipped <= |sorted|
    ensures forall x :: 0 <= x < skipped ==> SkippedAtStart(sorted[x])
    ensures skipped < |sorted| ==> !SkippedAtStart(sorted[skipped])
    ensures forall k :: 0 <= k < |progs| ==> ProgrammeOf(sorted, progs[k])
    ensures Tiles(sorted, progs, skipped)
  {
    var i := 0;
    while i < |sorted| && SkippedAtStart(sorted[i])
      invariant 0 <= i <= |sorted|
      invariant forall x :: 0 <= x < i ==> SkippedAtStart(sorted[x])
    {
      i := i + 1;
    }
    skipped := i;
    progs := [];
    while i < |sorted|
      invariant skipped <= i <= |sorted|
      invariant forall k :: 0 <= k < |progs| ==> ProgrammeOf(sorted, progs[k])
      invariant progs == [] ==> i == skipped
      invariant progs != [] ==> progs[0].first == skipped && progs[|progs| - 1].last + 1 == i
      invariant forall k :: 0 <= k < |progs| - 1 ==> progs[k + 1].first == progs[k].last + 1
    {
      var p := ReadProgramme(sorted, i);
      progs := progs + [p];
      i := p.last + 1;
    }
  }

  /** Every item after the skipped filler belongs to exactly one programme. */
  lemma {:induction false} TilesCoverOnce(sorted: seq<GuideItem>, progs: seq<Programme>, from: nat, x: nat)
    requires forall k :: 0 <= k < |progs| ==> ProgrammeOf(sorted, progs[k])
    requires Tiles(sorted, progs, from)
    requires from <= x < |sorted|
    ensures exists k :: 0 <= k < |progs| && progs[k].first <= x <= progs[k].last
    ensures forall k1, k2 ::
              (0 <= k1 < |progs| && 0 <= k2 < |progs| && progs[k1].first <= x <= progs[k1].last
               && progs[k2].first <= x <= progs[k2].last) ==> k1 == k2
  {
    // the programmes are ordered: each one's first item is past every earlier one's last
    forall k1, k2 | 0 <= k1 < k2 < |progs| ensures progs[k1].last < progs[k2].first {
      TilesOrdered(sorted, progs, from, k1, k2);
    }
    assert progs != [] && progs[|progs| - 1].last == |sorted| - 1;
    var k := 0;
    while progs[k].last < x
      invariant 0 <= k < |progs|
      invariant k > 0 ==> progs[k - 1].last < x
    {
      k := k + 1;
    }
    if k > 0 {
      assert progs[k].first == progs[k - 1].last + 1;
    }
  }

  lemma {:induction false} TilesOrdered(sorted: seq<GuideItem>, progs: seq<Programme>, from: nat, k1: nat, k2: nat)
    requires forall k :: 0 <= k < |progs| ==> ProgrammeOf(sorted, progs[k])
    requires Tiles(sorted, progs, from)
    requires k1 < k2 < |progs|
    ensures progs[k1].last < progs[k2].first
    decreases k2 - k1
  {
    if k1 + 1 < k2 {
      TilesOrdered(sorted, progs, from, k1 + 1, k2);
    }
  }

  /**
   * Shifting every instant of the items by the same offset shifts each
   * programme's start and stop by that offset and nothing else.
   */
  lemma {:induction false} ShiftedProgrammes(sorted: seq<GuideItem>, offset: int, p: Programme)
    ensures ProgrammeOf(ShiftAll(sorted, offset), p) <==>
            ProgrammeOf(sorted, p.(start := p.start - offset, stop := p.stop - offset))
  {
    var shifted := ShiftAll(sorted, offset);
    assert forall x :: 0 <= x < |sorted| ==>
             IsFiller(shifted[x]) == IsFiller(sorted[x]) && shifted[x].customTitle == sorted[x].customTitle;
    assert forall a, b :: 0 <= a < |sorted| && 0 <= b < |sorted| ==>
             JoinsProgramme(shifted[a], shifted[b]) == JoinsProgramme(sorted[a], sorted[b]);
  }

  /** With the shift as written, a programme whose display item has a guide finish keeps the unshifted stop. */
  lemma {:induction false} MirrorShiftAsWrittenStopsBeforeStart()
    ensures var it := GuideItem(0, 30 * TicksPerMinute, None, Some(30 * TicksPerMinute), 1, NotFiller, None,
                                GuideMedia(MovieKind, None, None));
            var written := GuideItemsAsWritten([it], TicksPerHour, TicksPerHour);
            |written| == 1
            && forall p :: ProgrammeOf(written, p) ==> p.stop < p.start
  {
    var it := GuideItem(0, 30 * TicksPerMinute, None, Some(30 * TicksPerMinute), 1, NotFiller, None,
                        GuideMedia(MovieKind, None, None));
    assert SortByStart([it]) == [it] by {
      assert [it][..0] == [];
    }
    var kept := Filter([it], (x: GuideItem) => StartsBy(TicksPerHour, x));
    assert kept == [it] by {
      assert [it][..0] == [];
    }
    var written := GuideItemsAsWritten([it], TicksPerHour, TicksPerHour);
    assert written == [ShiftAsWritten(it, TicksPerHour)];
  }

  // ---------------------------------------------------------------------
  // Block playouts (WriteBlockPlayoutXml)
  // ---------------------------------------------------------------------

  datatype BlockBehavior = SplitTimeEvenly | UseActualTimes

  /** Block playout items are grouped by their guide start, guide finish and guide group. */
  datatype GroupKey = GroupKey(guideStart: Option<int>, guideFinish: Option<int>, guideGroup: int)

  function KeyOf(it: GuideItem): GroupKey
  {
    GroupKey(it.guideStart, it.guideFinish, it.guideGroup)
  }

  /** The group keys in order of first appearance (GroupBy). */
  function GroupKeys(sorted: seq<GuideItem>): (r: seq<GroupKey>)
    ensures forall key :: key in r <==> exists it :: it in sorted && KeyOf(it) == key
    ensures forall i, j :: 0 <= i < j < |r| ==> r[i] != r[j]
  {
    var keys := seq(|sorted|, k requires 0 <= k < |sorted| => KeyOf(sorted[k]));
    assert forall it :: it in sorted ==> KeyOf(it) in keys by {
      forall it | it in sorted ensures KeyOf(it) in keys {
        var k :| 0 <= k < |sorted| && sorted[k] == it;
        assert keys[k] == KeyOf(it);
      }
    }
    Distinct(keys)
  }

  predicate InGroup(key: GroupKey, it: GuideItem)
  {
    KeyOf(it) == key
  }

  predicate IsContent(it: GuideItem)
  {
    it.fillerKind == NotFiller
  }

  /** A guide entry: an item shown from `start` to `stop`. */
  datatype GuideEntry = GuideEntry(item: GuideItem, start: int, stop: int)

  /** Consecutive equal slots of `perItem` from `groupStart`, one per item. */
  function EvenSlots(items: seq<GuideItem>, groupStart: int, perItem: int): (r: seq<GuideEntry>)
    ensures |r| == |items|
    ensures forall k :: 0 <= k < |items| ==>
              r[k] == GuideEntry(items[k], groupStart + k * perItem, groupStart + (k + 1) * perItem)
  {
    seq(|items|, k requires 0 <= k < |items| =>
      GuideEntry(items[k], groupStart + k * perItem, groupStart + (k + 1) * perItem))
  }

  function ActualTimes(items: seq<GuideItem>): (r: seq<GuideEntry>)
    ensures |r| == |items|
    ensures forall k :: 0 <= k < |items| ==> r[k] == GuideEntry(items[k], items[k].start, items[k].finish)
  {
    seq(|items|, k requires 0 <= k < |items| => GuideEntry(items[k], items[k].start, items[k].finish))
  }

  /** TimeSpan division by a count: rounded to the nearest tick, ties to even. */
  function PerItem(groupStart: int, groupFinish: int, count: int): int
    requires count > 0
  {
    RoundHalfEven(groupFinish - groupStart, count)
  }

  /** The entries of one group: its content items, at their own times or split evenly over the group's guide block. */
  function GroupEntries(key: GroupKey, content: seq<GuideItem>, behavior: BlockBehavior): Result<seq<GuideEntry>>
  {
    if content == [] then Ok([])
    else if behavior == UseActualTimes then Ok(ActualTimes(content))
    else if key.guideStart.None? || key.guideFinish.None? then Err("Nullable object must have a value.")
    else Ok(EvenSlots(content, key.guideStart.value,
                      PerItem(key.guideStart.value, key.guideFinish.value, |content|)))
  }

  function GroupContent(sorted: seq<GuideItem>, key: GroupKey): (r: seq<GuideItem>)
    ensures forall it :: it in r <==> it in sorted && KeyOf(it) == key && IsContent(it)
  {
    Filter(Filter(sorted, it => InGroup(key, it)), IsContent)
  }

  /** The entries of the groups `keys`, in order; the first failing group fails the guide. */
  function BlockEntries(sorted: seq<GuideItem>, keys: seq<GroupKey>, behavior: BlockBehavior)
    : Result<seq<GuideEntry>>
  {
    if keys == [] then Ok([])
    else
      var front := BlockEntries(sorted, keys[..|keys| - 1], behavior);
      var last := GroupEntries(keys[|keys| - 1], GroupContent(sorted, keys[|keys| - 1]), behavior);
      if front.Err? then front
      else if last.Err? then last
      else Ok(front.value + last.value)
  }

  /** UseActualTimes: each content item at its own start and finish. */
  method WriteActualTimes(items: seq<GuideItem>) returns (entries: seq<GuideEntry>)
    ensures entries == ActualTimes(items)
  {
    entries := [];
    var k := 0;
    while k < |items|
      invariant 0 <= k <= |items|
      invariant entries == ActualTimes(items[..k])
    {
      var item := items[k];
      entries := entries + [GuideEntry(item, item.start, item.finish)];
      k := k + 1;
    }
    assert items[..k] == items;
  }

  /** SplitTimeEvenly: the slot advances by `perItem` per content item. */
  method SplitTimeEvenlyLoop(items: seq<GuideItem>, groupStart: int, perItem: int) returns (entries: seq<GuideEntry>)
    ensures entries == EvenSlots(items, groupStart, perItem)
  {
    entries := [];
    var currentStart := groupStart;
    var currentFinish := currentStart + perItem;
    var k := 0;
    while k < |items|
      invariant 0 <= k <= |items|
      invariant currentStart == groupStart + k * perItem && currentFinish == currentStart + perItem
      invariant entries == EvenSlots(items[..k], groupStart, perItem)
    {
      entries := entries + [GuideEntry(items[k], currentStart, currentFinish)];
      currentStart := currentFinish;
      currentFinish := currentFinish + perItem;
      k := k + 1;
    }
    assert items[..k] == items;
  }

  /** The body of WriteBlockPlayoutXml's loop over the groups. */
  method WriteGroup(sorted: seq<GuideItem>, key: GroupKey, behavior: BlockBehavior) returns (r: Result<seq<GuideEntry>>)
    ensures r == GroupEntries(key, GroupContent(sorted, key), behavior)
  {
    var itemsToInclude := GroupContent(sorted, key);
    if |itemsToInclude| == 0 {
      return Ok([]);
    }
    if behavior == UseActualTimes {
      var added := WriteActualTimes(itemsToInclude);
      return Ok(added);
    }
    if key.guideStart.None? || key.guideFinish.None? {
      return Err("Nullable object must have a value.");
    }
    var groupStart := key.guideStart.value;
    var groupFinish := key.guideFinish.value;
    var perItem := PerItem(groupStart, groupFinish, |itemsToInclude|);
    var added := SplitTimeEvenlyLoop(itemsToInclude, groupStart, perItem);
    return Ok(added);
  }

  lemma {:induction false} BlockEntriesSnoc(sorted: seq<GuideItem>, keys: seq<GroupKey>, g: nat, behavior: BlockBehavior)
    requires g < |keys|
    ensures var front := BlockEntries(sorted, keys[..g], behavior);
            var last := GroupEntries(keys[g], GroupContent(sorted, keys[g]), behavior);
            BlockEntries(sorted, keys[..g + 1], behavior)
            == if front.Err? then front else if last.Err? then last else Ok(front.value + last.value)
  {
    assert keys[..g + 1][..g] == keys[..g];
  }

  /** Once a group fails, the whole block guide fails with it. */
  lemma {:induction false} BlockEntriesErrSticks(sorted: seq<GuideItem>, keys: seq<GroupKey>, g: nat,
                                                 behavior: BlockBehavior)
    requires g <= |keys|
    requires BlockEntries(sorted, keys[..g], behavior).Err?
    ensures BlockEntries(sorted, keys[..|keys|], behavior) == BlockEntries(sorted, keys[..g], behavior)
    decreases |keys| - g
  {
    if g < |keys| {
      BlockEntriesSnoc(sorted, keys, g, behavior);
      BlockEntriesErrSticks(sorted, keys, g + 1, behavior);
    }
  }

  method WriteBlockPlayoutXml(sorted: seq<GuideItem>, behavior: BlockBehavior) returns (r: Result<seq<GuideEntry>>)
    ensures r == BlockEntries(sorted, GroupKeys(sorted), behavior)
  {
    var keys := GroupKeys(sorted);
    var entries: seq<GuideEntry> := [];
    var g := 0;
    while g < |keys|
      invariant 0 <= g <= |keys|
      invariant BlockEntries(sorted, keys[..g], behavior) == Ok(entries)
    {
      BlockEntriesSnoc(sorted, keys, g, behavior);
      var added := WriteGroup(sorted, keys[g], behavior);
      if added.Err? {
        BlockEntriesErrSticks(sorted, keys, g + 1, behavior);
        assert keys[..|keys|] == keys;
        return added;
      }
      entries := entries + added.value;
      g := g + 1;
    }
    assert keys[..g] == keys;
    r := Ok(entries);
  }

  /**
   * The even split: the slots follow one another from the group's guide
   * start, and the last one ends within half a tick per item of the
   * group's guide finish.
   */
  lemma {:induction false} EvenSlotsTile(items: seq<GuideItem>, groupStart: int, groupFinish: int)
    requires items != []
    ensures var r := EvenSlots(items, groupStart, PerItem(groupStart, groupFinish, |items|));
            r[0].start == groupStart
            && (forall k :: 0 <= k < |r| - 1 ==> r[k].stop == r[k + 1].start)
            && -|items| <= 2 * (groupFinish - r[|r| - 1].stop) <= |items|
  {
    var n := |items|;
    var per := PerItem(groupStart, groupFinish, n);
    var r := EvenSlots(items, groupStart, per);
    assert r[n - 1].stop == groupStart + n * per;
  }

  /** Only content items of the playout reach a block guide. */
  lemma {:induction false} BlockEntriesAreContent(sorted: seq<GuideItem>, keys: seq<GroupKey>, behavior: BlockBehavior)
    ensures var r := BlockEntries(sorted, keys, behavior);
            r.Ok? ==> forall e :: e in r.value ==> e.item in sorted && IsContent(e.item)
  {
    if keys != [] {
      BlockEntriesAreContent(sorted, keys[..|keys| - 1], behavior);
      var key := keys[|keys| - 1];
      var content := GroupContent(sorted, key);
      var last := GroupEntries(key, content, behavior);
      if last.Ok? {
        forall e | e in last.value ensures e.item in content {
          var k :| 0 <= k < |last.value| && last.value[k] == e;
        }
      }
    }
  }

  // ---------------------------------------------------------------------
  // External JSON schedules
  // ---------------------------------------------------------------------

  /** One program of an external JSON schedule; the duration is in milliseconds. */
  datatype ExternalProgram = ExternalProgram(
    duration: int,
    programType: string,
    title: Option<string>,
    showTitle: Option<string>)

  /** A parsed external JSON channel; `startTime` is absent when it does not parse. */
  datatype ExternalChannel = ExternalChannel(
    startTime: Option<int>,
    programs: seq<ExternalProgram>,
    guideMinimumDurationSeconds: int)

  /** Milliseconds of the programs, in ticks. */
  function ProgramTicks(ps: seq<ExternalProgram>): int
  {
    if ps == [] then 0 else ProgramTicks(ps[..|ps| - 1]) + ps[|ps| - 1].duration * TicksPerMillisecond
  }

  /** BuildPlayoutItem: an episode or a movie, shown from `start` for its duration, in guide group `index`. */
  function BuildPlayoutItem(start: int, program: ExternalProgram, index: int): (r: GuideItem)
    ensures r.start == start && r.finish == start + program.duration * TicksPerMillisecond
    ensures r.guideGroup == index && r.fillerKind == NotFiller
    ensures r.guideFinish.None? && r.customTitle.None?
  {
    var media := if program.programType == "episode"
                 then GuideMedia(EpisodeKind, Some(program.showTitle), Some(program.title))
                 else GuideMedia(MovieKind, Some(program.title), None);
    GuideItem(start, start + program.duration * TicksPerMillisecond, None, None, index, NotFiller, None, media)
  }

  predicate LongEnough(p: ExternalProgram, minimumSeconds: int)
  {
    p.duration >= minimumSeconds * 1000
  }

  /** The items of the programs `ps`, the first starting at `start`. */
  function ExternalItems(ps: seq<ExternalProgram>, start: int, minimumSeconds: int): seq<GuideItem>
  {
    if ps == [] then []
    else
      var n := |ps| - 1;
      ExternalItems(ps[..n], start, minimumSeconds)
      + (if LongEnough(ps[n], minimumSeconds) then [BuildPlayoutItem(start + ProgramTicks(ps[..n]), ps[n], n)] else [])
  }

  /**
   * CollectExternalJsonItems: a missing or unreadable file gives no items,
   * an unparsable start time fails; otherwise the start time advances by
   * every program and only programs of at least the guide minimum are kept.
   */
  method CollectExternalJsonItems(channel: Option<ExternalChannel>) returns (r: Result<seq<GuideItem>>)
    ensures channel.None? ==> r == Ok([])
    ensures channel.Some? && channel.value.startTime.None? ==> r.Err?
    ensures channel.Some? && channel.value.startTime.Some? ==>
              r == Ok(ExternalItems(channel.value.programs, channel.value.startTime.value,
                                    channel.value.guideMinimumDurationSeconds))
  {
    var result: seq<GuideItem> := [];
    if channel.None? {
      return Ok(result);
    }
    var ch := channel.value;
    if ch.startTime.None? {
      return Err("String was not recognized as a valid DateTime.");
    }
    var startTime := ch.startTime.value;
    var i := 0;
    while i < |ch.programs|
      invariant 0 <= i <= |ch.programs|
      invariant startTime == ch.startTime.value + ProgramTicks(ch.programs[..i])
      invariant result == ExternalItems(ch.programs[..i], ch.startTime.value, ch.guideMinimumDurationSeconds)
    {
      assert ch.programs[..i + 1][..i] == ch.programs[..i];
      var program := ch.programs[i];
      var nextStart := startTime + program.duration * TicksPerMillisecond;
      if program.duration >= ch.guideMinimumDurationSeconds * 1000 {
        result := result + [BuildPlayoutItem(startTime, program, i)];
      }
      startTime := nextStart;
      i := i + 1;
    }
    assert ch.programs[..i] == ch.programs;
    return Ok(result);
  }

  /**
   * Program `i` is in the guide exactly when it lasts at least the guide
   * minimum, as guide group `i`, starting after every earlier program.
   */
  lemma {:induction false} ExternalItemsExactly(ps: seq<ExternalProgram>, start: int, minimumSeconds: int, i: nat)
    requires i < |ps|
    ensures var r := ExternalItems(ps, start, minimumSeconds);
            (exists it :: it in r && it.guideGroup == i) <==> LongEnough(ps[i], minimumSeconds)
    ensures var r := ExternalItems(ps, start, minimumSeconds);
            forall it :: it in r && it.guideGroup == i ==> it == BuildPlayoutItem(start + ProgramTicks(ps[..i]), ps[i], i)
  {
    var n := |ps| - 1;
    ExternalItemsGroups(ps[..n], start, minimumSeconds);
    assert ps[..n][..] == ps[..n];
    if i < n {
      ExternalItemsExactly(ps[..n], start, minimumSeconds, i);
      assert ps[..n][i] == ps[i] && ps[..n][..i] == ps[..i];
    }
  }

  /** The guide groups of the items of `ps` are indices of `ps`. */
  lemma {:induction false} ExternalItemsGroups(ps: seq<ExternalProgram>, start: int, minimumSeconds: int)
    ensures forall it :: it in ExternalItems(ps, start, minimumSeconds) ==> 0 <= it.guideGroup < |ps|
  {
    if ps != [] {
      ExternalItemsGroups(ps[..|ps| - 1], start, minimumSeconds);
    }
  }

  // ---------------------------------------------------------------------
  // Titles and artwork
  // ---------------------------------------------------------------------

  /** GetTitle: a non-blank custom title, else the title of the media's metadata, else a placeholder per kind. */
  function GetTitle(it: GuideItem): (r: string)
    ensures !IsBlankOpt(it.customTitle) ==> r == it.customTitle.value
    ensures (IsBlankOpt(it.customTitle) && it.media.kind in {MovieKind, EpisodeKind, MusicVideoKind, OtherVideoKind}
             && it.media.titleHead.Some?) ==> r == it.media.titleHead.value.GetOr("")
    ensures IsBlankOpt(it.customTitle) && it.media.kind in {SongKind, OtherKind} ==> r == "[unknown]"
  {
    if !IsBlankOpt(it.customTitle) then it.customTitle.value
    else match it.media.kind
      case MovieKind => if it.media.titleHead.Some? then it.media.titleHead.value.GetOr("") else "[unknown movie]"
      case EpisodeKind => if it.media.titleHead.Some? then it.media.titleHead.value.GetOr("") else "[unknown show]"
      case MusicVideoKind => if it.media.titleHead.Some? then it.media.titleHead.value.GetOr("") else "[unknown artist]"
      case OtherVideoKind => if it.media.titleHead.Some? then it.media.titleHead.value.GetOr("") else "[unknown video]"
      case _ => "[unknown]"
  }

  /** GetSubtitle: empty under a custom title; else the episode, music video or song title. */
  function GetSubtitle(it: GuideItem): (r: string)
    ensures !IsBlankOpt(it.customTitle) ==> r == ""
    ensures it.media.kind in {MovieKind, OtherVideoKind, OtherKind} ==> r == ""
    ensures IsBlankOpt(it.customTitle) && it.media.kind in {EpisodeKind, MusicVideoKind, SongKind} ==>
              r == (if it.media.subtitleHead.Some? then it.media.subtitleHead.value.GetOr("") else "")
  {
    if !IsBlankOpt(it.customTitle) then ""
    else match it.media.kind
      case EpisodeKind => if it.media.subtitleHead.Some? then it.media.subtitleHead.value.GetOr("") else ""
      case MusicVideoKind => if it.media.subtitleHead.Some? then it.media.subtitleHead.value.GetOr("") else ""
      case SongKind => if it.media.subtitleHead.Some? then it.media.subtitleHead.value.GetOr("") else ""
      case _ => ""
  }

  /** A programme with a custom title shows that title and no subtitle, whatever its media. */
  lemma {:induction false} CustomTitleReplacesMetadata(it: GuideItem, media: GuideMedia)
    requires !IsBlankOpt(it.customTitle)
    ensures GetTitle(it.(media := media)) == it.customTitle.value
    ensures GetSubtitle(it.(media := media)) == ""
  {
  }

  datatype ArtworkKind = Poster | Thumbnail | FanArt | Logo

  datatype Artwork = Artwork(kind: ArtworkKind, path: string)

  /** The artwork height passed to media-server proxies. */
  function ArtworkHeight(kind: ArtworkKind): (r: int)
    ensures r == 220 <==> kind == Thumbnail
    ensures kind != Thumbnail ==> r == 440
  {
    if kind == Thumbnail then 220 else 440
  }

  function ArtworkFolder(kind: ArtworkKind): string
  {
    if kind == Thumbnail then "thumbnails" else "posters"
  }

  const ArtworkPrefix: string := "{RequestBase}/iptv/artwork/"
  const ArtworkSuffix: string := ".jpg{AccessTokenUri}"

  /** The local artwork route of a path; the path can be read back from it. */
  function LocalArtworkUrl(path: string, kind: ArtworkKind): (r: string)
    ensures |r| == |ArtworkPrefix + ArtworkFolder(kind) + "/"| + |path| + |ArtworkSuffix|
    ensures StartsWith(r, ArtworkPrefix + ArtworkFolder(kind) + "/") && EndsWith(r, ArtworkSuffix)
    ensures r[|ArtworkPrefix + ArtworkFolder(kind) + "/"|..|r| - |ArtworkSuffix|] == path
  {
    var head := ArtworkPrefix + ArtworkFolder(kind) + "/";
    var r := head + path + ArtworkSuffix;
    assert r[..|head|] == head;
    assert r[|r| - |ArtworkSuffix|..] == ArtworkSuffix;
    assert r[|head|..|r| - |ArtworkSuffix|] == path;
    r
  }

  predicate IsWebPath(path: string)
  {
    StartsWithIgnoreCase(path, "http://") || StartsWithIgnoreCase(path, "https://")
  }

  /**
   * GetArtworkUrl: web paths as they are, Jellyfin and Emby paths through
   * their proxy placeholders, anything else under the local artwork route.
   */
  function GetArtworkUrl(a: Artwork, kind: ArtworkKind,
                         jellyfinProxy: (string, ArtworkKind, int) -> string,
                         embyProxy: (string, ArtworkKind, int) -> string): (r: string)
    ensures IsWebPath(a.path) ==> r == a.path
    ensures !IsWebPath(a.path) && StartsWithIgnoreCase(a.path, "jellyfin://") ==>
              r == jellyfinProxy(a.path, kind, ArtworkHeight(kind))
    ensures (!IsWebPath(a.path) && !StartsWithIgnoreCase(a.path, "jellyfin://")
             && StartsWithIgnoreCase(a.path, "emby://")) ==> r == embyProxy(a.path, kind, ArtworkHeight(kind))
    ensures (!IsWebPath(a.path) && !StartsWithIgnoreCase(a.path, "jellyfin://")
             && !StartsWithIgnoreCase(a.path, "emby://")) ==> r == LocalArtworkUrl(a.path, kind)
  {
    var height := ArtworkHeight(kind);
    if IsWebPath(a.path) then a.path
    else if StartsWithIgnoreCase(a.path, "jellyfin://") then jellyfinProxy(a.path, kind, height)
    else if StartsWithIgnoreCase(a.path, "emby://") then embyProxy(a.path, kind, height)
    else LocalArtworkUrl(a.path, kind)
  }

  function FirstOfKind(artwork: seq<Artwork>, kind: ArtworkKind): (r: Option<Artwork>)
    ensures r.Some? <==> exists a :: a in artwork && a.kind == kind
    ensures r.Some? ==> r.value.kind == kind && r.value in artwork
    ensures r.Some? ==> exists k :: 0 <= k < |artwork| && artwork[k] == r.value
                                    && forall j :: 0 <= j < k ==> artwork[j].kind != kind
  {
    if artwork == [] then None
    else if artwork[0].kind == kind then Some(artwork[0])
    else FirstOfKind(artwork[1..], kind)
  }

  /** GetPrioritizedArtworkPath: the first poster, else the first thumbnail, else nothing. */
  function PrioritizedArtworkPath(artwork: seq<Artwork>,
                                  jellyfinProxy: (string, ArtworkKind, int) -> string,
                                  embyProxy: (string, ArtworkKind, int) -> string): (r: string)
    ensures (forall a :: a in artwork ==> a.kind != Poster && a.kind != Thumbnail) ==> r == ""
    ensures (exists a :: a in artwork && a.kind == Poster) ==>
              r == GetArtworkUrl(FirstOfKind(artwork, Poster).value, Poster, jellyfinProxy, embyProxy)
  {
    var poster := FirstOfKind(artwork, Poster);
    if poster.Some? then GetArtworkUrl(poster.value, Poster, jellyfinProxy, embyProxy)
    else
      var thumbnail := FirstOfKind(artwork, Thumbnail);
      if thumbnail.Some? then GetArtworkUrl(thumbnail.value, Thumbnail, jellyfinProxy, embyProxy) else ""
  }

  // ---------------------------------------------------------------------
  // One playout's guide
  // ---------------------------------------------------------------------

  datatype ScheduleKind = Classic | Sequential | Scripted | Block | ExternalJson

  datatype PlayoutGuide =
    | Programmes(items: seq<GuideItem>, skipped: nat, programmes: seq<Programme>)
    | BlockGuide(entries: seq<GuideEntry>)

  /**
   * The guide of one playout: the items (or the external schedule's items)
   * cut at `finish` and shifted by `offset`, grouped into programmes, or
   * into block entries for a block playout.
   */
  method WritePlayout(kind: ScheduleKind, items: seq<GuideItem>, external: Option<ExternalChannel>,
                      finish: int, offset: int, behavior: BlockBehavior) returns (r: Result<PlayoutGuide>)
    ensures kind in {Classic, Sequential, Scripted} ==>
              r.Ok? && r.value.Programmes? && r.value.items == GuideItems(items, finish, offset)
              && Tiles(r.value.items, r.value.programmes, r.value.skipped)
              && forall k :: 0 <= k < |r.value.programmes| ==> ProgrammeOf(r.value.items, r.value.programmes[k])
    ensures kind == Block ==>
              var sorted := GuideItems(items, finish, offset);
              var entries := BlockEntries(sorted, GroupKeys(sorted), behavior);
              (entries.Err? ==> r.Err?) && (entries.Ok? ==> r == Ok(BlockGuide(entries.value)))
    ensures kind == ExternalJson && external.Some? && external.value.startTime.None? ==> r.Err?
    ensures kind == ExternalJson && external.None? ==> r.Ok? && r.value.Programmes? && r.value.items == []
    ensures kind == ExternalJson && external.Some? && external.value.startTime.Some? ==>
              r.Ok? && r.value.Programmes?
              && r.value.items == CutAndShift(ExternalItems(external.value.programs, external.value.startTime.value,
                                                            external.value.guideMinimumDurationSeconds),
                                              finish, offset)
    ensures kind == ExternalJson && (external.None? || external.value.startTime.Some?) ==>
              r.Ok? && r.value.Programmes?
              && Tiles(r.value.items, r.value.programmes, r.value.skipped)
              && forall k :: 0 <= k < |r.value.programmes| ==> ProgrammeOf(r.value.items, r.value.programmes[k])
  {
    match kind {
      case Block =>
        var sorted := GuideItems(items, finish, offset);
        var entries := WriteBlockPlayoutXml(sorted, behavior);
        if entries.Err? {
          return Err(entries.error);
        }
        return Ok(BlockGuide(entries.value));
      case ExternalJson =>
        var collected := CollectExternalJsonItems(external);
        if collected.Err? {
          return Err(collected.error);
        }
        var kept := Filter(collected.value, it => StartsBy(finish, it));
        var shifted := ShiftAll(kept, offset);
        var skipped, progs := WritePlayoutXml(shifted);
        return Ok(Programmes(shifted, skipped, progs));
      case _ =>
        var sorted := GuideItems(items, finish, offset);
        var skipped, progs := WritePlayoutXml(sorted);
        return Ok(Programmes(sorted, skipped, progs));
    }
  }
}
