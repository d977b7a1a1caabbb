/**
 * What every classic playout-mode scheduler shares: when a schedule item
 * may start, how tail and fallback filler close the gap before the next
 * item, how pre-, mid- and post-roll filler is drawn from its enumerator
 * (by count or by duration), how a block's end is estimated ahead of time,
 * and how padding to the nearest N minutes is distributed.
 */
module SchedulerBase {
  import opened Common
  import opened PlayoutTypes

  // ---------------------------------------------------------------------
  // Start times
  // ---------------------------------------------------------------------

  /** The schedule item is still in the middle of a multiple, duration or flood block. */
  predicate IsIncomplete(state: BuilderState, item: ScheduleItem)
  {
    (item.kind == Multiple && state.multipleRemaining.Some?)
    || (item.kind == DurationItem && state.durationFinish.Some?)
    || (item.kind == Flood && state.inFlood)
    || (item.kind == DurationItem && state.inDurationFiller)
  }

  /**
   * When the schedule item may start: now, unless it has a fixed start time
   * and is not in the middle of a block, in which case the next occurrence
   * of that time of day, today or tomorrow.
   */
  function GetStartTimeAfter(state: BuilderState, item: ScheduleItem): (r: int)
    ensures item.startType == Dynamic || IsIncomplete(state, item) ==> r == state.currentTime
    ensures item.startType == Fixed && !IsIncomplete(state, item)
            && 0 <= item.startTime.GetOr(0) < TicksPerDay ==>
              state.currentTime <= r < state.currentTime + TicksPerDay
              && TimeOfDay(r) == item.startTime.GetOr(0)
  {
    var now := state.currentTime;
    if item.startType == Fixed && !IsIncomplete(state, item) then
      var itemStartTime := item.startTime.GetOr(0);
      var result := DateOf(now) + itemStartTime;
      if !(0 <= itemStartTime < TicksPerDay) then
        (if TimeOfDay(now) > itemStartTime then result + TicksPerDay else result)
      else if TimeOfDay(now) > itemStartTime then
        MidnightPlus(DateOf(now) + TicksPerDay, itemStartTime);
        result + TicksPerDay
      else
        MidnightPlus(DateOf(now), itemStartTime);
        result
    else now
  }

  /** A fixed start is the earliest instant at or after now with that time of day. */
  lemma {:induction false} FixedStartIsEarliest(state: BuilderState, item: ScheduleItem, t: int)
    requires item.startType == Fixed && !IsIncomplete(state, item)
    requires 0 <= item.startTime.GetOr(0) < TicksPerDay
    requires t >= state.currentTime && TimeOfDay(t) == item.startTime.GetOr(0)
    ensures GetStartTimeAfter(state, item) <= t
  {
    var r := GetStartTimeAfter(state, item);
    assert DateOf(t) + TimeOfDay(t) == t && DateOf(r) + TimeOfDay(r) == r;
    MidnightsApart(DateOf(t), DateOf(r));
  }

  /** Filler stops at the next item's start, and never later than the hard stop. */
  function GetFillerStartTimeAfter(state: BuilderState, item: ScheduleItem, hardStop: int): (r: int)
    ensures r <= hardStop && r <= GetStartTimeAfter(state, item)
    ensures r == hardStop || r == GetStartTimeAfter(state, item)
  {
    Min(GetStartTimeAfter(state, item), hardStop)
  }

  // ---------------------------------------------------------------------
  // Placing filler
  // ---------------------------------------------------------------------

  /**
   * `placed` plays the media items `ms` whole and back to back from
   * `start`: the last item starts where the others end.
   */
  predicate BackToBack(placed: seq<PlayoutItem>, ms: seq<MediaItem>, start: int,
                       kind: FillerKind, guideGroup: int, allowWatermarks: bool)
  {
    |placed| == |ms|
    && (ms != [] ==>
          BackToBack(placed[..|ms| - 1], ms[..|ms| - 1], start, kind, guideGroup, allowWatermarks)
          && placed[|ms| - 1] == FillerItem(ms[|ms| - 1], start + SumDurations(ms[..|ms| - 1]), kind,
                                            guideGroup, allowWatermarks))
  }

  /** Item `i` of a back-to-back run starts after the items before it. */
  lemma {:induction false} BackToBackAt(placed: seq<PlayoutItem>, ms: seq<MediaItem>, start: int,
                                        kind: FillerKind, guideGroup: int, allowWatermarks: bool, i: nat)
    requires BackToBack(placed, ms, start, kind, guideGroup, allowWatermarks)
    requires i < |ms|
    ensures placed[i] == FillerItem(ms[i], start + SumDurations(ms[..i]), kind, guideGroup, allowWatermarks)
    decreases |ms|
  {
    var n := |ms| - 1;
    if i < n {
      BackToBackAt(placed[..n], ms[..n], start, kind, guideGroup, allowWatermarks, i);
      assert ms[..n][..i] == ms[..i];
    }
  }

  /** Items played back to back leave no gap and end after their total duration. */
  lemma {:induction false} BackToBackTimeline(placed: seq<PlayoutItem>, ms: seq<MediaItem>, start: int,
                           kind: FillerKind, guideGroup: int, allowWatermarks: bool)
    requires BackToBack(placed, ms, start, kind, guideGroup, allowWatermarks)
    ensures Contiguous(placed)
    ensures |placed| > 0 ==> placed[0].start == start && placed[|placed| - 1].finish == start + SumDurations(ms)
    ensures forall i :: 0 <= i < |placed| ==> start <= placed[i].start <= placed[i].finish <= start + SumDurations(ms)
  {
    forall i | 0 <= i < |placed|
      ensures placed[i].start == start + SumDurations(ms[..i])
      ensures placed[i].finish == start + SumDurations(ms[..i + 1])
      ensures start <= placed[i].start <= placed[i].finish <= start + SumDurations(ms)
    {
      BackToBackAt(placed, ms, start, kind, guideGroup, allowWatermarks, i);
      SumDurationsPrefix(ms, i);
      SumDurationsMonotone(ms, i + 1, |ms|);
      assert ms[..|ms|] == ms;
    }
    if |placed| > 0 {
      assert ms[..0] == [];
      assert ms[..|ms|] == ms;
    }
  }

  /**
   * Filler generated before re-timing: every item sits at the placeholder
   * start and plays its media item whole.
   */
  predicate AtPlaceholder(placed: seq<PlayoutItem>, ms: seq<MediaItem>,
                          kind: FillerKind, guideGroup: int, allowWatermarks: bool)
  {
    |placed| == |ms|
    && (ms != [] ==>
          AtPlaceholder(placed[..|ms| - 1], ms[..|ms| - 1], kind, guideGroup, allowWatermarks)
          && placed[|ms| - 1] == FillerItem(ms[|ms| - 1], PlaceholderStart, kind, guideGroup, allowWatermarks))
  }

  /** Item `i` of filler at the placeholder plays media item `i`. */
  lemma {:induction false} AtPlaceholderAt(placed: seq<PlayoutItem>, ms: seq<MediaItem>,
                                           kind: FillerKind, guideGroup: int, allowWatermarks: bool, i: nat)
    requires AtPlaceholder(placed, ms, kind, guideGroup, allowWatermarks)
    requires i < |ms|
    ensures placed[i] == FillerItem(ms[i], PlaceholderStart, kind, guideGroup, allowWatermarks)
    decreases |ms|
  {
    var n := |ms| - 1;
    if i < n {
      AtPlaceholderAt(placed[..n], ms[..n], kind, guideGroup, allowWatermarks, i);
    }
  }

  /** Every item of filler at the placeholder has the filler's kind. */
  lemma {:induction false} AtPlaceholderKind(placed: seq<PlayoutItem>, ms: seq<MediaItem>,
                          kind: FillerKind, guideGroup: int, allowWatermarks: bool)
    requires AtPlaceholder(placed, ms, kind, guideGroup, allowWatermarks)
    ensures forall i :: 0 <= i < |placed| ==> placed[i].fillerKind == kind && Span(placed[i]) >= 0
  {
    forall i | 0 <= i < |placed| ensures placed[i].fillerKind == kind && Span(placed[i]) >= 0 {
      AtPlaceholderAt(placed, ms, kind, guideGroup, allowWatermarks, i);
    }
  }

  lemma {:induction false} AtPlaceholderSpans(placed: seq<PlayoutItem>, ms: seq<MediaItem>,
                                              kind: FillerKind, guideGroup: int, allowWatermarks: bool)
    requires AtPlaceholder(placed, ms, kind, guideGroup, allowWatermarks)
    ensures SumSpans(placed) == SumDurations(ms)
    decreases |ms|
  {
    if ms != [] {
      var n := |ms| - 1;
      AtPlaceholderSpans(placed[..n], ms[..n], kind, guideGroup, allowWatermarks);
    }
  }

  /** The filler items for `ms` at the placeholder start, in order. */
  function Placeholders(ms: seq<MediaItem>, kind: FillerKind, guideGroup: int, allowWatermarks: bool)
    : (r: seq<PlayoutItem>)
    ensures |r| == |ms|
    ensures forall i :: 0 <= i < |r| ==> r[i].fillerKind == kind
  {
    if ms == [] then []
    else Placeholders(ms[..|ms| - 1], kind, guideGroup, allowWatermarks)
         + [FillerItem(ms[|ms| - 1], PlaceholderStart, kind, guideGroup, allowWatermarks)]
  }

  lemma {:induction false} PlaceholdersAt(ms: seq<MediaItem>, kind: FillerKind, guideGroup: int, allowWatermarks: bool)
    ensures AtPlaceholder(Placeholders(ms, kind, guideGroup, allowWatermarks), ms, kind, guideGroup, allowWatermarks)
    decreases |ms|
  {
    if ms != [] {
      var n := |ms| - 1;
      PlaceholdersAt(ms[..n], kind, guideGroup, allowWatermarks);
      var p := Placeholders(ms, kind, guideGroup, allowWatermarks);
      assert p[..n] == Placeholders(ms[..n], kind, guideGroup, allowWatermarks);
    }
  }

  /** Filler at the placeholder is exactly the placeholder items of its media. */
  lemma {:induction false} AtPlaceholderIs(placed: seq<PlayoutItem>, ms: seq<MediaItem>,
                                           kind: FillerKind, guideGroup: int, allowWatermarks: bool)
    requires AtPlaceholder(placed, ms, kind, guideGroup, allowWatermarks)
    ensures placed == Placeholders(ms, kind, guideGroup, allowWatermarks)
    decreases |ms|
  {
    if ms != [] {
      var n := |ms| - 1;
      AtPlaceholderIs(placed[..n], ms[..n], kind, guideGroup, allowWatermarks);
      assert placed == placed[..n] + [placed[n]];
    }
  }

  lemma {:induction false} BackToBackExtend(placed: seq<PlayoutItem>, ms: seq<MediaItem>, start: int,
                         kind: FillerKind, guideGroup: int, allowWatermarks: bool, m: MediaItem)
    requires BackToBack(placed, ms, start, kind, guideGroup, allowWatermarks)
    ensures BackToBack(placed + [FillerItem(m, start + SumDurations(ms), kind, guideGroup, allowWatermarks)],
                       ms + [m], start, kind, guideGroup, allowWatermarks)
    ensures SumDurations(ms + [m]) == SumDurations(ms) + m.duration
  {
    var ms' := ms + [m];
    var placed' := placed + [FillerItem(m, start + SumDurations(ms), kind, guideGroup, allowWatermarks)];
    assert ms'[..|ms'| - 1] == ms;
    assert placed'[..|ms'| - 1] == placed;
  }

  /** BackToBackExtend for the next item of `upcoming`. */
  lemma {:induction false} BackToBackTake(placed: seq<PlayoutItem>, upcoming: seq<MediaItem>, taken: nat, start: int,
                       kind: FillerKind, guideGroup: int, allowWatermarks: bool)
    requires taken < |upcoming|
    requires BackToBack(placed, upcoming[..taken], start, kind, guideGroup, allowWatermarks)
    ensures BackToBack(placed + [FillerItem(upcoming[taken], start + SumDurations(upcoming[..taken]), kind,
                                            guideGroup, allowWatermarks)],
                       upcoming[..taken + 1], start, kind, guideGroup, allowWatermarks)
    ensures SumDurations(upcoming[..taken + 1]) == SumDurations(upcoming[..taken]) + upcoming[taken].duration
  {
    BackToBackExtend(placed, upcoming[..taken], start, kind, guideGroup, allowWatermarks, upcoming[taken]);
    assert upcoming[..taken + 1] == upcoming[..taken] + [upcoming[taken]];
  }

  /**
   * Tail filler: whole items from the tail filler's enumerator, back to
   * back from now, for as long as the next one still ends by the next
   * item's start.
   */
  method AddTailFiller(state: BuilderState, enumerators: Enumerators, item: ScheduleItem,
                       items: seq<PlayoutItem>, nextItemStart: int)
    returns (nextState: BuilderState, newItems: seq<PlayoutItem>, nextEnumerators: Enumerators)
    requires HasEnumerators(item, enumerators)
    ensures nextEnumerators.Keys == enumerators.Keys
    ensures item.tail.None? ==> nextState == state && newItems == items && nextEnumerators == enumerators
    ensures item.tail.Some? ==>
      var key := item.tail.value.collection;
      var upcoming := enumerators[key];
      var taken := |newItems| - |items|;
      |items| <= |newItems| && newItems[..|items|] == items && taken <= |upcoming|
      && BackToBack(newItems[|items|..], upcoming[..taken], state.currentTime, Tail,
                    state.nextGuideGroup, item.tail.value.allowWatermarks)
      && nextState == state.(currentTime := state.currentTime + SumDurations(upcoming[..taken]))
      && nextEnumerators == enumerators[key := upcoming[taken..]]
      && (taken > 0 ==> nextState.currentTime <= nextItemStart)
      && (taken < |upcoming| ==>
            nextState.currentTime >= nextItemStart || nextState.currentTime + upcoming[taken].duration > nextItemStart)
  {
    nextState := state;
    newItems := items;
    nextEnumerators := enumerators;
    if item.tail.Some? {
      var filler := item.tail.value;
      var key := filler.collection;
      assert key in CollectionKeysForItem(item);
      var upcoming := enumerators[key];
      var placed, taken, currentTime := TailRun(upcoming, state.currentTime, nextItemStart,
                                                state.nextGuideGroup, filler.allowWatermarks);
      newItems := items + placed;
      assert newItems[..|items|] == items && newItems[|items|..] == placed;
      nextState := state.(currentTime := currentTime);
      nextEnumerators := enumerators[key := upcoming[taken..]];
    }
  }

  /** The loop of AddTailFiller over one enumerator. */
  method TailRun(upcoming: Upcoming, start: int, nextItemStart: int, guideGroup: int, allowWatermarks: bool)
    returns (placed: seq<PlayoutItem>, taken: nat, currentTime: int)
    ensures taken <= |upcoming|
    ensures BackToBack(placed, upcoming[..taken], start, Tail, guideGroup, allowWatermarks)
    ensures currentTime == start + SumDurations(upcoming[..taken])
    ensures taken > 0 ==> currentTime <= nextItemStart
    ensures taken < |upcoming| ==>
      currentTime >= nextItemStart || currentTime + upcoming[taken].duration > nextItemStart
  {
    placed := [];
    taken := 0;
    currentTime := start;
    while taken < |upcoming| && currentTime < nextItemStart
      invariant taken <= |upcoming|
      invariant BackToBack(placed, upcoming[..taken], start, Tail, guideGroup, allowWatermarks)
      invariant currentTime == start + SumDurations(upcoming[..taken])
      invariant taken > 0 ==> currentTime <= nextItemStart
    {
      var mediaItem := upcoming[taken];
      if currentTime + mediaItem.duration > nextItemStart {
        break;
      }
      BackToBackTake(placed, upcoming, taken, start, Tail, guideGroup, allowWatermarks);
      placed := placed + [FillerItem(mediaItem, currentTime, Tail, guideGroup, allowWatermarks)];
      currentTime := currentTime + mediaItem.duration;
      taken := taken + 1;
    }
  }

  /** A scheduler's running result: its state, the items so far and the enumerators. */
  datatype Scheduled = Scheduled(state: BuilderState, items: seq<PlayoutItem>, enumerators: Enumerators)

  /**
   * Fallback filler: when a fallback preset is configured, its enumerator
   * has an item and time is left before the next item, one item fills the
   * whole gap (with an out point of zero, so it loops) and time reaches the
   * next item's start.
   */
  function AddFallbackFiller(state: BuilderState, enumerators: Enumerators, item: ScheduleItem,
                             items: seq<PlayoutItem>, nextItemStart: int): (r: Scheduled)
    requires HasEnumerators(item, enumerators)
    ensures r.enumerators.Keys == enumerators.Keys
    ensures r.state.currentTime >= state.currentTime
    ensures r.state == state.(currentTime := r.state.currentTime)
    ensures if item.fallback.Some? && state.currentTime < nextItemStart
               && enumerators[item.fallback.value.collection] != [] then
              var upcoming := enumerators[item.fallback.value.collection];
              r.state.currentTime == nextItemStart
              && |r.items| == |items| + 1 && r.items[..|items|] == items
              && r.items[|items|].mediaItemId == upcoming[0].id
              && r.items[|items|].start == state.currentTime && r.items[|items|].finish == nextItemStart
              && r.items[|items|].inPoint == 0 && r.items[|items|].outPoint == 0
              && r.items[|items|].fillerKind == Fallback
              && r.items[|items|].disableWatermarks == !item.fallback.value.allowWatermarks
              && r.enumerators == enumerators[item.fallback.value.collection := upcoming[1..]]
            else r == Scheduled(state, items, enumerators)
  {
    if item.fallback.Some? && state.currentTime < nextItemStart then
      var filler := item.fallback.value;
      assert filler.collection in CollectionKeysForItem(item);
      var upcoming := enumerators[filler.collection];
      match Current(upcoming)
      case None => Scheduled(state, items, enumerators)
      case Some(mediaItem) =>
        var playoutItem := PlayoutItem(mediaItem.id, state.currentTime, nextItemStart, 0, 0, Fallback,
                                       state.nextGuideGroup, !filler.allowWatermarks);
        Scheduled(state.(currentTime := nextItemStart), items + [playoutItem],
                  enumerators[filler.collection := upcoming[1..]])
    else Scheduled(state, items, enumerators)
  }

  /**
   * Count filler: the next `count` items of the enumerator (fewer when it
   * runs out), each played whole.
   */
  method AddCountFiller(guideGroup: int, upcoming: Upcoming, count: int, kind: FillerKind, allowWatermarks: bool)
    returns (result: seq<PlayoutItem>, rest: Upcoming)
    ensures var taken := Min(Max(count, 0), |upcoming|);
      AtPlaceholder(result, upcoming[..taken], kind, guideGroup, allowWatermarks) && rest == upcoming[taken..]
    ensures forall i :: 0 <= i < |result| ==> result[i].fillerKind == kind && Span(result[i]) >= 0
  {
    result := [];
    var position := 0;
    for i := 0 to Max(count, 0)
      invariant position == Min(i, |upcoming|)
      invariant AtPlaceholder(result, upcoming[..position], kind, guideGroup, allowWatermarks)
    {
      if position < |upcoming| {
        var mediaItem := upcoming[position];
        assert upcoming[..position + 1] == upcoming[..position] + [mediaItem];
        result := result + [FillerItem(mediaItem, PlaceholderStart, kind, guideGroup, allowWatermarks)];
        position := position + 1;
      }
    }
    rest := upcoming[position..];
    AtPlaceholderKind(result, upcoming[..position], kind, guideGroup, allowWatermarks);
  }

  /** `duration * 1.5`, rounded to a whole tick the way TimeSpan multiplication rounds. */
  function TooLongThreshold(duration: int): (r: int)
    ensures duration >= 0 ==> 3 * duration - 1 <= 2 * r <= 3 * duration + 1
  {
    RoundHalfEven(3 * duration, 2)
  }

  /** Which items a duration filler takes, and how far its enumerator moves. */
  datatype FillPlan = FillPlan(taken: seq<MediaItem>, consumed: nat)

  /**
   * Duration filler, item by item: an item that fits is taken; the first
   * item that does not fit but is at least `threshold` long is skipped once;
   * any other item that does not fit ends the block without being consumed.
   */
  function DurationFill(s: Upcoming, remaining: int, threshold: int, skipped: bool): (r: FillPlan)
    ensures r.consumed <= |s|
    decreases |s|
  {
    if s == [] || remaining <= 0 then FillPlan([], 0)
    else if remaining - s[0].duration >= 0 then
      var p := DurationFill(s[1..], remaining - s[0].duration, threshold, skipped);
      FillPlan([s[0]] + p.taken, p.consumed + 1)
    else if skipped then FillPlan([], 0)
    else if s[0].duration >= threshold then
      var p := DurationFill(s[1..], remaining, threshold, true);
      FillPlan(p.taken, p.consumed + 1)
    else FillPlan([], 0)
  }

  lemma {:induction false} SumDurationsCons(m: MediaItem, s: seq<MediaItem>)
    ensures SumDurations([m] + s) == m.duration + SumDurations(s)
  {
    SumDurationsAppend([m], s);
    assert [m][..0] == [];
  }

  /** Duration filler never takes more than the time it was asked to fill. */
  lemma {:induction false} DurationFillFits(s: Upcoming, remaining: int, threshold: int, skipped: bool)
    ensures SumDurations(DurationFill(s, remaining, threshold, skipped).taken) <= Max(remaining, 0)
    decreases |s|
  {
    if s == [] || remaining <= 0 {
    } else if remaining - s[0].duration >= 0 {
      DurationFillFits(s[1..], remaining - s[0].duration, threshold, skipped);
      SumDurationsCons(s[0], DurationFill(s[1..], remaining - s[0].duration, threshold, skipped).taken);
    } else if skipped {
    } else if s[0].duration >= threshold {
      DurationFillFits(s[1..], remaining, threshold, true);
    }
  }

  /**
   * Duration filler stops early only at an item that does not fit in what
   * is left: when the enumerator still has items and time is left, the next
   * item is longer than that time.
   */
  lemma {:induction false} DurationFillStopsAtMisfit(s: Upcoming, remaining: int, threshold: int, skipped: bool)
    ensures var p := DurationFill(s, remaining, threshold, skipped);
      p.consumed < |s| && remaining - SumDurations(p.taken) > 0 ==>
        s[p.consumed].duration > remaining - SumDurations(p.taken)
    decreases |s|
  {
    if s == [] || remaining <= 0 {
    } else if remaining - s[0].duration >= 0 {
      var p := DurationFill(s[1..], remaining - s[0].duration, threshold, skipped);
      DurationFillStopsAtMisfit(s[1..], remaining - s[0].duration, threshold, skipped);
      SumDurationsCons(s[0], p.taken);
    } else if skipped {
      assert s[..0] == [];
    } else if s[0].duration >= threshold {
      DurationFillStopsAtMisfit(s[1..], remaining, threshold, true);
    } else {
      assert s[..0] == [];
    }
  }

  /**
   * Duration filler plays the enumerator in order, leaving out at most one
   * item, and only one at least `threshold` long; once an item has been
   * skipped, none is left out.
   */
  lemma {:induction false} DurationFillSkipsAtMostOne(s: Upcoming, remaining: int, threshold: int, skipped: bool)
    ensures var p := DurationFill(s, remaining, threshold, skipped);
      p.taken == s[..p.consumed]
      || (!skipped && exists j :: 0 <= j < p.consumed && s[j].duration >= threshold
                                   && p.taken == s[..j] + s[j + 1..p.consumed])
    decreases |s|
  {
    var p := DurationFill(s, remaining, threshold, skipped);
    if s == [] || remaining <= 0 {
    } else if remaining - s[0].duration >= 0 {
      var q := DurationFill(s[1..], remaining - s[0].duration, threshold, skipped);
      DurationFillSkipsAtMostOne(s[1..], remaining - s[0].duration, threshold, skipped);
      assert p == FillPlan([s[0]] + q.taken, q.consumed + 1);
      if q.taken == s[1..][..q.consumed] {
        ConsPrefix(s, q.consumed);
      } else {
        var j :| 0 <= j < q.consumed && s[1..][j].duration >= threshold
                 && q.taken == s[1..][..j] + s[1..][j + 1..q.consumed];
        ConsSkip(s, j, q.consumed);
        assert s[j + 1].duration >= threshold;
      }
    } else if skipped {
    } else if s[0].duration >= threshold {
      var q := DurationFill(s[1..], remaining, threshold, true);
      DurationFillSkipsAtMostOne(s[1..], remaining, threshold, true);
      assert p == FillPlan(q.taken, q.consumed + 1);
      assert s[..0] + s[1..p.consumed] == s[1..][..q.consumed];
    }
  }

  lemma {:induction false} ConsPrefix<T>(s: seq<T>, c: nat)
    requires c < |s|
    ensures [s[0]] + s[1..][..c] == s[..c + 1]
  {
  }

  lemma {:induction false} ConsSkip<T>(s: seq<T>, j: nat, c: nat)
    requires j < c < |s|
    ensures [s[0]] + (s[1..][..j] + s[1..][j + 1..c]) == s[..j + 1] + s[j + 2..c + 1]
  {
    assert [s[0]] + s[1..][..j] == s[..j + 1];
    assert s[1..][j + 1..c] == s[j + 2..c + 1];
  }

  /** DurationFill from position `k` of `s`, one step unfolded. */
  lemma {:induction false} DurationFillAt(s: Upcoming, k: nat, remaining: int, threshold: int, skipped: bool)
    requires k < |s| && remaining > 0
    ensures DurationFill(s[k..], remaining, threshold, skipped) ==
      if remaining - s[k].duration >= 0 then
        var p := DurationFill(s[k + 1..], remaining - s[k].duration, threshold, skipped);
        FillPlan([s[k]] + p.taken, p.consumed + 1)
      else if skipped then FillPlan([], 0)
      else if s[k].duration >= threshold then
        var p := DurationFill(s[k + 1..], remaining, threshold, true);
        FillPlan(p.taken, p.consumed + 1)
      else FillPlan([], 0)
  {
    assert s[k..][1..] == s[k + 1..];
  }

  /** What the duration filler loop has taken so far, and the plan for the rest, make up the whole plan. */
  ghost predicate FillLeft(s: Upcoming, position: nat, remaining: int, threshold: int, skipped: bool,
                           plan: FillPlan, taken: seq<MediaItem>)
    requires position <= |s|
  {
    var p := DurationFill(s[position..], remaining, threshold, skipped);
    plan.taken == taken + p.taken && plan.consumed == position + p.consumed
  }

  lemma {:induction false} FillDone(s: Upcoming, position: nat, remaining: int, threshold: int, skipped: bool,
                 plan: FillPlan, taken: seq<MediaItem>)
    requires position <= |s| && (position == |s| || remaining <= 0)
    requires FillLeft(s, position, remaining, threshold, skipped, plan, taken)
    ensures plan.taken == taken && plan.consumed == position
  {
    assert taken + [] == taken;
  }

  lemma {:induction false} FillTakes(s: Upcoming, position: nat, remaining: int, threshold: int, skipped: bool,
                  plan: FillPlan, taken: seq<MediaItem>)
    requires position < |s| && remaining > 0 && remaining - s[position].duration >= 0
    requires FillLeft(s, position, remaining, threshold, skipped, plan, taken)
    ensures FillLeft(s, position + 1, remaining - s[position].duration, threshold, skipped, plan, taken + [s[position]])
  {
    DurationFillAt(s, position, remaining, threshold, skipped);
    var p := DurationFill(s[position + 1..], remaining - s[position].duration, threshold, skipped);
    assert taken + ([s[position]] + p.taken) == (taken + [s[position]]) + p.taken;
  }

  lemma {:induction false} FillStops(s: Upcoming, position: nat, remaining: int, threshold: int, skipped: bool,
                  plan: FillPlan, taken: seq<MediaItem>)
    requires position < |s| && remaining > 0 && remaining - s[position].duration < 0
    requires skipped || s[position].duration < threshold
    requires FillLeft(s, position, remaining, threshold, skipped, plan, taken)
    ensures FillLeft(s, position, 0, threshold, skipped, plan, taken)
  {
    DurationFillAt(s, position, remaining, threshold, skipped);
    assert taken + [] == taken;
  }

  lemma {:induction false} FillSkips(s: Upcoming, position: nat, remaining: int, threshold: int,
                  plan: FillPlan, taken: seq<MediaItem>)
    requires position < |s| && remaining > 0 && remaining - s[position].duration < 0
    requires s[position].duration >= threshold
    requires FillLeft(s, position, remaining, threshold, false, plan, taken)
    ensures FillLeft(s, position + 1, remaining, threshold, true, plan, taken)
  {
    DurationFillAt(s, position, remaining, threshold, false);
  }

  lemma {:induction false} AtPlaceholderSnoc(placed: seq<PlayoutItem>, ms: seq<MediaItem>,
                          kind: FillerKind, guideGroup: int, allowWatermarks: bool, m: MediaItem)
    requires AtPlaceholder(placed, ms, kind, guideGroup, allowWatermarks)
    ensures AtPlaceholder(placed + [FillerItem(m, PlaceholderStart, kind, guideGroup, allowWatermarks)], ms + [m],
                          kind, guideGroup, allowWatermarks)
  {
    var placed' := placed + [FillerItem(m, PlaceholderStart, kind, guideGroup, allowWatermarks)];
    assert placed'[..|placed|] == placed;
    assert (ms + [m])[..|ms|] == ms;
  }

  /**
   * Duration filler: fill `duration` with whole items of the enumerator,
   * skipping one item that is too long (half as long again as the gap) and
   * stopping at any other item that does not fit.
   */
  method AddDurationFiller(guideGroup: int, upcoming: Upcoming, duration: int, kind: FillerKind,
                           allowWatermarks: bool)
    returns (result: seq<PlayoutItem>, rest: Upcoming)
    ensures var plan := DurationFill(upcoming, duration, TooLongThreshold(duration), false);
      AtPlaceholder(result, plan.taken, kind, guideGroup, allowWatermarks) && rest == upcoming[plan.consumed..]
  {
    var threshold := TooLongThreshold(duration);
    ghost var plan := DurationFill(upcoming, duration, threshold, false);
    ghost var taken: seq<MediaItem> := [];
    result := [];
    var position: nat := 0;
    var remainingToFill := duration;
    var skipped := false;
    assert upcoming[0..] == upcoming;
    while position < |upcoming| && remainingToFill > 0
      invariant position <= |upcoming|
      invariant AtPlaceholder(result, taken, kind, guideGroup, allowWatermarks)
      invariant FillLeft(upcoming, position, remainingToFill, threshold, skipped, plan, taken)
      decreases |upcoming| - position, remainingToFill
    {
      var mediaItem := upcoming[position];
      if remainingToFill - mediaItem.duration >= 0 {
        FillTakes(upcoming, position, remainingToFill, threshold, skipped, plan, taken);
        AtPlaceholderSnoc(result, taken, kind, guideGroup, allowWatermarks, mediaItem);
        result := result + [FillerItem(mediaItem, PlaceholderStart, kind, guideGroup, allowWatermarks)];
        taken := taken + [mediaItem];
        remainingToFill := remainingToFill - mediaItem.duration;
        position := position + 1;
      } else if skipped || mediaItem.duration < threshold {
        FillStops(upcoming, position, remainingToFill, threshold, skipped, plan, taken);
        remainingToFill := 0;
      } else {
        FillSkips(upcoming, position, remainingToFill, threshold, plan, taken);
        skipped := true;
        position := position + 1;
      }
    }
    FillDone(upcoming, position, remainingToFill, threshold, skipped, plan, taken);
    rest := upcoming[position..];
  }

  // ---------------------------------------------------------------------
  // Padding to the nearest N minutes
  // ---------------------------------------------------------------------

  /** DateTimeOffset.Minute of a local instant. */
  function MinuteOf(t: int): (r: int)
    ensures 0 <= r < 60
  {
    (t % TicksPerHour) / TicksPerMinute
  }

  /** The top of the hour containing `t`. */
  function HourStart(t: int): (r: int)
    ensures r <= t < r + TicksPerHour && r % TicksPerMinute == 0
  {
    var h := t / TicksPerHour;
    assert t - t % TicksPerHour == TicksPerMinute * (60 * h);
    t - t % TicksPerHour
  }

  /**
   * The padded end as the scheduler computes it: the minute of the hour is
   * rounded up to a multiple of the pad, the difference in whole minutes is
   * added, and then the seconds and fractions of the result are dropped.
   */
  function PadTargetAsWritten(end: int, pad: PosInt): (r: int)
    ensures r % TicksPerMinute == 0
    ensures end - TicksPerMinute < r < end + pad * TicksPerMinute
  {
    var currentMinute := MinuteOf(end);
    var targetMinute := (currentMinute + pad - 1) / pad * pad;
    RoundUp(currentMinute, pad);
    var almostTargetTime := end - currentMinute * TicksPerMinute + targetMinute * TicksPerMinute;
    DropBelowMinute(almostTargetTime);
    almostTargetTime - almostTargetTime % TicksPerMinute
  }

  /** Rounding `x` up to a multiple of `p` moves it by less than `p`. */
  lemma {:induction false} RoundUp(x: int, p: int)
    requires p > 0
    ensures x <= (x + p - 1) / p * p < x + p
  {
    var q := (x + p - 1) / p;
    assert q * p + (x + p - 1) % p == x + p - 1;
  }

  /** Dropping what is below a whole minute lands on a whole minute, less than a minute earlier. */
  lemma {:induction false} DropBelowMinute(t: int)
    ensures var r := t - t % TicksPerMinute; r % TicksPerMinute == 0 && t - TicksPerMinute < r <= t
  {
    DivUnique(t - t % TicksPerMinute, TicksPerMinute, t / TicksPerMinute);
  }

  /**
   * Dropping the seconds after rounding the minute up lands before the
   * content's end: content ending at 10:45:30, padded to 15 minutes, is
   * given 10:45:00 as its padded end instead of 11:00:00.
   */
  lemma {:induction false} PadTargetAsWrittenEndsEarly()
    ensures var end := 10 * TicksPerHour + 45 * TicksPerMinute + 30 * TicksPerSecond;
      PadTargetAsWritten(end, 15) == 10 * TicksPerHour + 45 * TicksPerMinute
      && PadTargetAsWritten(end, 15) < end
      && PadTarget(end, 15) == 11 * TicksPerHour
  {
    var end := 10 * TicksPerHour + 45 * TicksPerMinute + 30 * TicksPerSecond;
    DivUnique(end, TicksPerHour, 10);
    DivUnique(45 * TicksPerMinute + 30 * TicksPerSecond, TicksPerMinute, 45);
    DivUnique(45 * TicksPerMinute + 30 * TicksPerSecond + 15 * TicksPerMinute - 1, 15 * TicksPerMinute, 4);
  }

  /**
   * The padded end: the first instant at or after `end` that is a whole
   * multiple of `pad` minutes past the top of `end`'s hour.
   */
  function PadTarget(end: int, pad: PosInt): (r: int)
    ensures end <= r < end + pad * TicksPerMinute
  {
    var sinceHour := end % TicksPerHour;
    var step := pad * TicksPerMinute;
    PadOffset(sinceHour, pad);
    HourStart(end) + ((sinceHour + step - 1) / step) * step
  }

  /** The padded end is a whole number of pads past the top of the hour, on a whole minute. */
  lemma {:induction false} PadTargetAligned(end: int, pad: PosInt)
    ensures (PadTarget(end, pad) - HourStart(end)) % (pad * TicksPerMinute) == 0
    ensures PadTarget(end, pad) % TicksPerMinute == 0
  {
    var sinceHour := end % TicksPerHour;
    var step := pad * TicksPerMinute;
    PadOffset(sinceHour, pad);
    ModSum(HourStart(end), ((sinceHour + step - 1) / step) * step, TicksPerMinute);
  }

  /** Rounding `x` up to a whole number of `pad`-minute steps moves it by less than one step. */
  lemma {:induction false} PadOffset(x: int, pad: PosInt)
    ensures var step := pad * TicksPerMinute; var q := (x + step - 1) / step;
      x <= q * step < x + step && (q * step) % step == 0 && (q * step) % TicksPerMinute == 0
  {
    var step := pad * TicksPerMinute;
    var q := (x + step - 1) / step;
    assert q * step <= x + step - 1 < q * step + step;
    DivUnique(q * step, step, q);
    assert q * step == (q * pad) * TicksPerMinute;
    DivUnique(q * step, TicksPerMinute, q * pad);
  }

  lemma {:induction false} ModSum(a: int, b: int, m: int)
    requires m > 0 && a % m == 0 && b % m == 0
    ensures (a + b) % m == 0
  {
    DivUnique(a + b, m, a / m + b / m);
  }

  /** On a whole minute the two computations agree. */
  lemma {:induction false} PadTargetOnWholeMinute(end: int, pad: PosInt)
    requires end % TicksPerMinute == 0
    ensures PadTargetAsWritten(end, pad) == PadTarget(end, pad)
  {
    var m := MinuteOf(end);
    WholeMinuteSinceHour(end);
    CeilDivScale(m, pad);
    var q := (m + pad - 1) / pad;
    var almost := end - m * TicksPerMinute + q * pad * TicksPerMinute;
    assert almost == HourStart(end) + q * (pad * TicksPerMinute);
    DivUnique(q * pad * TicksPerMinute - m * TicksPerMinute, TicksPerMinute, q * pad - m);
    ModSum(end, q * pad * TicksPerMinute - m * TicksPerMinute, TicksPerMinute);
  }

  /** On a whole minute, the time since the top of the hour is a whole number of minutes. */
  lemma {:induction false} WholeMinuteSinceHour(end: int)
    requires end % TicksPerMinute == 0
    ensures end % TicksPerHour == MinuteOf(end) * TicksPerMinute
  {
    var sinceHour := end % TicksPerHour;
    var h := end / TicksPerHour;
    assert end == TicksPerMinute * (60 * h) + sinceHour;
    DivUnique(sinceHour, TicksPerMinute, sinceHour / TicksPerMinute);
  }

  /** Rounding up whole minutes to pads gives the same count as rounding up their ticks. */
  lemma {:induction false} CeilDivScale(m: nat, pad: PosInt)
    ensures (m * TicksPerMinute + pad * TicksPerMinute - 1) / (pad * TicksPerMinute) == (m + pad - 1) / pad
  {
    var q := (m + pad - 1) / pad;
    var step := pad * TicksPerMinute;
    assert q * pad <= m + pad - 1 < q * pad + pad;
    assert q * step == (q * pad) * TicksPerMinute;
    assert (q * pad) * TicksPerMinute <= (m + pad - 1) * TicksPerMinute;
    assert (m + pad) * TicksPerMinute <= (q * pad + pad) * TicksPerMinute;
    DivUnique(m * TicksPerMinute + step - 1, step, q);
  }

  // ---------------------------------------------------------------------
  // Estimating a block's end
  // ---------------------------------------------------------------------

  /**
   * How many items, peeked from the front, fit one after another in
   * `budget`: the longest prefix whose total is within the budget.
   */
  function GreedyPrefix(s: Upcoming, budget: int): (k: nat)
    ensures k <= |s|
    ensures k > 0 ==> SumDurations(s[..k]) <= budget
    ensures k < |s| ==> SumDurations(s[..k + 1]) > budget
    decreases |s|
  {
    if s == [] then 0
    else if s[0].duration > budget then
      SumDurationsCons(s[0], []);
      assert s[..1] == [s[0]] + [];
      0
    else
      var k := GreedyPrefix(s[1..], budget - s[0].duration);
      assert s[..k + 1] == [s[0]] + s[1..][..k];
      SumDurationsCons(s[0], s[1..][..k]);
      if k < |s[1..]| then
        assert s[..k + 2] == [s[0]] + s[1..][..k + 1];
        SumDurationsCons(s[0], s[1..][..k + 1]);
        k + 1
      else k + 1
  }

  /**
   * Mid-roll by duration, peeked: each gap between chapters starts a fresh
   * budget and carries on from where the previous gap stopped.
   */
  function MidRollDurationEstimate(s: Upcoming, budget: int, gaps: int): (r: nat)
    ensures gaps <= 0 ==> r == 0
    decreases Max(gaps, 0)
  {
    if gaps <= 0 then 0
    else
      var k := GreedyPrefix(s, budget);
      SumDurations(s[..k]) + MidRollDurationEstimate(s[k..], budget, gaps - 1)
  }

  /** Each gap between chapters adds at most one budget. */
  lemma {:induction false} MidRollDurationBound(s: Upcoming, budget: int, gaps: int)
    ensures MidRollDurationEstimate(s, budget, gaps) <= Max(gaps, 0) * Max(budget, 0)
    decreases Max(gaps, 0)
  {
    if gaps > 0 {
      var k := GreedyPrefix(s, budget);
      MidRollDurationBound(s[k..], budget, gaps - 1);
      if k == 0 {
        assert s[..k] == [];
      }
      MulSucc(gaps - 1, Max(budget, 0));
    }
  }

  lemma {:induction false} MulSucc(g: nat, b: nat)
    ensures g * b + b == (g + 1) * b
  {
  }

  /** The time one filler preset is expected to add, from peeking at its enumerator. */
  function EstimatedFiller(filler: FillerPreset, s: Upcoming, chapterCount: int): nat
  {
    if filler.kind == MidRoll && filler.mode == Duration && filler.duration.Some? then
      MidRollDurationEstimate(s, filler.duration.value, chapterCount - 1)
    else if filler.kind == MidRoll && filler.mode == Count && filler.count.Some? then
      SumDurations(s[..Min(Max(chapterCount - 1, 0) * Max(filler.count.value, 0), |s|)])
    else if filler.mode == Duration && filler.duration.Some? then
      SumDurations(s[..GreedyPrefix(s, filler.duration.value)])
    else if filler.mode == Count && filler.count.Some? then
      SumDurations(s[..Min(Max(filler.count.value, 0), |s|)])
    else 0
  }

  /**
   * Duration filler is expected to add at most its duration, or one
   * duration per gap between chapters for mid-roll; a preset neither by
   * duration nor by count adds nothing.
   */
  lemma {:induction false} EstimatedFillerBounds(filler: FillerPreset, s: Upcoming, chapterCount: int)
    ensures var r := EstimatedFiller(filler, s, chapterCount);
      (filler.mode == Duration && filler.duration.Some? && filler.kind != MidRoll ==>
         r <= Max(filler.duration.value, 0))
      && (filler.mode == Duration && filler.duration.Some? && filler.kind == MidRoll ==>
         r <= Max(chapterCount - 1, 0) * Max(filler.duration.value, 0))
      && (filler.mode !in {Duration, Count} ==> r == 0)
  {
    if filler.mode == Duration && filler.duration.Some? {
      if filler.kind == MidRoll {
        MidRollDurationBound(s, filler.duration.value, chapterCount - 1);
      } else {
        var k := GreedyPrefix(s, filler.duration.value);
        if k == 0 {
          assert s[..k] == [];
        }
      }
    }
  }

  /** The estimates of a run of filler presets, added up. */
  function EstimatedFillers(fillers: seq<FillerPreset>, enumerators: Enumerators, chapterCount: int): nat
    requires forall f :: f in fillers ==> f.collection in enumerators
  {
    if fillers == [] then 0
    else
      var f := fillers[|fillers| - 1];
      EstimatedFillers(fillers[..|fillers| - 1], enumerators, chapterCount)
      + EstimatedFiller(f, enumerators[f.collection], chapterCount)
  }

  lemma {:induction false} FillerKeysPresent(item: ScheduleItem, enumerators: Enumerators)
    requires HasEnumerators(item, enumerators)
    ensures forall f :: f in AllFiller(item) ==> f.collection in enumerators
  {
    forall f | f in AllFiller(item)
      ensures f.collection in enumerators
    {
      assert f.collection in CollectionKeysForItem(item);
    }
  }

  /** The item followed by every filler preset's estimate, before padding. */
  function UnpaddedEnd(enumerators: Enumerators, item: ScheduleItem, itemStartTime: int,
                       itemDuration: nat, chapterCount: int): (r: int)
    requires HasEnumerators(item, enumerators)
    ensures r >= itemStartTime + itemDuration
  {
    FillerKeysPresent(item, enumerators);
    itemStartTime + itemDuration + EstimatedFillers(AllFiller(item), enumerators, chapterCount)
  }

  /**
   * The expected end of a block: the item and every filler preset's
   * estimate, padded when a preset pads; with more than one padding preset
   * (an invalid setup) no filler is counted.
   */
  function EndTimeWithFiller(enumerators: Enumerators, item: ScheduleItem, itemStartTime: int,
                             itemDuration: nat, chapterCount: int): int
    requires HasEnumerators(item, enumerators)
  {
    var allFiller := AllFiller(item);
    if CountPadFillers(allFiller) > 1 then itemStartTime + itemDuration
    else
      var end := UnpaddedEnd(enumerators, item, itemStartTime, itemDuration, chapterCount);
      match FirstPadFiller(allFiller)
      case Some(padFiller) => PadTarget(end, padFiller.padToNearestMinute.value)
      case None => end
  }

  /**
   * A block never ends before its own content, and a padded block ends on
   * its padding grid within one pad of the content and the filler before it.
   */
  lemma {:induction false} EndTimeWithFillerBounds(enumerators: Enumerators, item: ScheduleItem, itemStartTime: int,
                                itemDuration: nat, chapterCount: int)
    requires HasEnumerators(item, enumerators)
    ensures EndTimeWithFiller(enumerators, item, itemStartTime, itemDuration, chapterCount)
            >= itemStartTime + itemDuration
    ensures var allFiller := AllFiller(item);
      CountPadFillers(allFiller) == 1 ==>
        var pad := FirstPadFiller(allFiller).value.padToNearestMinute.value;
        var end := UnpaddedEnd(enumerators, item, itemStartTime, itemDuration, chapterCount);
        var r := EndTimeWithFiller(enumerators, item, itemStartTime, itemDuration, chapterCount);
        end <= r < end + pad * TicksPerMinute && (r - HourStart(end)) % (pad * TicksPerMinute) == 0
  {
    FillerKeysPresent(item, enumerators);
    var allFiller := AllFiller(item);
    if CountPadFillers(allFiller) == 1 {
      assert FirstPadFiller(allFiller).Some?;
      PadTargetAligned(UnpaddedEnd(enumerators, item, itemStartTime, itemDuration, chapterCount),
                       FirstPadFiller(allFiller).value.padToNearestMinute.value);
    }
  }

  lemma {:induction false} GreedyPrefixStep(t: Upcoming, k: nat, budget: int)
    requires k < |t|
    ensures t[k].duration > budget ==> GreedyPrefix(t[k..], budget) == 0
    ensures t[k].duration <= budget ==>
      GreedyPrefix(t[k..], budget) == 1 + GreedyPrefix(t[k + 1..], budget - t[k].duration)
  {
    assert t[k..][1..] == t[k + 1..];
  }

  /** Peeks duration filler from `offset` on, within `budget`. */
  method PeekDurationFiller(s: Upcoming, offset: nat, budget: int) returns (added: nat, newOffset: nat)
    requires offset <= |s|
    ensures newOffset == offset + GreedyPrefix(s[offset..], budget) && newOffset <= |s|
    ensures added == SumDurations(s[offset..][..newOffset - offset])
  {
    var t := s[offset..];
    var duration := budget;
    var k := 0;
    added := 0;
    while k < |t|
      invariant k <= |t|
      invariant added == SumDurations(t[..k])
      invariant duration == budget - added
      invariant GreedyPrefix(t, budget) == k + GreedyPrefix(t[k..], duration)
      decreases |t| - k
    {
      var currentDuration := t[k].duration;
      GreedyPrefixStep(t, k, duration);
      if duration - currentDuration >= 0 {
        SumDurationsPrefix(t, k);
        duration := duration - currentDuration;
        added := added + currentDuration;
        k := k + 1;
      } else {
        break;
      }
    }
    newOffset := offset + k;
  }

  /** Peeks `count` items of count filler from `offset` on. */
  method PeekCountFiller(s: Upcoming, offset: nat, count: int) returns (added: nat, newOffset: nat)
    requires offset <= |s|
    ensures newOffset == offset + Min(Max(count, 0), |s| - offset)
    ensures added == SumDurations(s[offset..][..newOffset - offset])
  {
    newOffset := offset;
    added := 0;
    for i := 0 to Max(count, 0)
      invariant newOffset == offset + Min(i, |s| - offset)
      invariant added == SumDurations(s[offset..][..newOffset - offset])
    {
      if newOffset < |s| {
        SumDurationsPrefix(s[offset..], newOffset - offset);
        added := added + s[newOffset].duration;
        newOffset := newOffset + 1;
      }
    }
  }

  lemma {:induction false} SumDurationsSplit(s: Upcoming, i: nat, j: nat)
    requires i <= j <= |s|
    ensures SumDurations(s[..j]) == SumDurations(s[..i]) + SumDurations(s[i..][..j - i])
  {
    assert s[..j] == s[..i] + s[i..][..j - i];
    SumDurationsAppend(s[..i], s[i..][..j - i]);
  }

  lemma {:induction false} MidRollDurationStep(s: Upcoming, offset: nat, o: nat, budget: int, gaps: int)
    requires offset <= |s| && gaps > 0 && o == offset + GreedyPrefix(s[offset..], budget) && o <= |s|
    ensures MidRollDurationEstimate(s[offset..], budget, gaps)
            == SumDurations(s[offset..][..o - offset]) + MidRollDurationEstimate(s[o..], budget, gaps - 1)
  {
    assert s[offset..][o - offset..] == s[o..];
  }

  /** The duration filler peeked for one gap between chapters, seen through the estimate. */
  method PeekGap(s: Upcoming, offset: nat, budget: int, gaps: int) returns (added: nat, newOffset: nat)
    requires offset <= |s| && gaps > 0
    ensures newOffset <= |s|
    ensures MidRollDurationEstimate(s[offset..], budget, gaps)
            == added + MidRollDurationEstimate(s[newOffset..], budget, gaps - 1)
  {
    added, newOffset := PeekDurationFiller(s, offset, budget);
    MidRollDurationStep(s, offset, newOffset, budget, gaps);
  }

  /** Mid-roll by duration: one budget per gap between chapters. */
  method PeekMidRollDuration(s: Upcoming, budget: int, gaps: int) returns (added: nat)
    ensures added == MidRollDurationEstimate(s, budget, gaps)
  {
    added := 0;
    var offset: nat := 0;
    var left := gaps;
    assert s[0..] == s;
    while left > 0
      invariant offset <= |s|
      invariant added + MidRollDurationEstimate(s[offset..], budget, left) == MidRollDurationEstimate(s, budget, gaps)
    {
      var a, o := PeekGap(s, offset, budget, left);
      added := added + a;
      offset := o;
      left := left - 1;
    }
  }

  /** Mid-roll by count: `count` items per gap between chapters. */
  method PeekMidRollCount(s: Upcoming, count: int, gaps: int) returns (added: nat)
    ensures added == SumDurations(s[..Min(Max(gaps, 0) * Max(count, 0), |s|)])
  {
    added := 0;
    var perGap := Max(count, 0);
    var offset := 0;
    for i := 0 to Max(gaps, 0)
      invariant offset == Min(i * perGap, |s|)
      invariant added == SumDurations(s[..offset])
    {
      var a, o := PeekCountFiller(s, offset, perGap);
      SumDurationsSplit(s, offset, o);
      assert (i + 1) * perGap == i * perGap + perGap;
      added := added + a;
      offset := o;
    }
  }

  /** The peeking loops for one filler preset. */
  method EstimateFiller(filler: FillerPreset, s: Upcoming, chapterCount: int) returns (added: nat)
    ensures added == EstimatedFiller(filler, s, chapterCount)
  {
    added := 0;
    if filler.kind == MidRoll && filler.mode == Duration && filler.duration.Some? {
      added := PeekMidRollDuration(s, filler.duration.value, chapterCount - 1);
    } else if filler.kind == MidRoll && filler.mode == Count && filler.count.Some? {
      added := PeekMidRollCount(s, filler.count.value, chapterCount - 1);
    } else if filler.mode == Duration && filler.duration.Some? {
      var o;
      added, o := PeekDurationFiller(s, 0, filler.duration.value);
      assert s[0..] == s;
    } else if filler.mode == Count && filler.count.Some? {
      var o;
      added, o := PeekCountFiller(s, 0, filler.count.value);
      assert s[0..] == s;
    }
  }

  /** The peeking loops for every filler preset of an item, added up. */
  method EstimateFillers(fillers: seq<FillerPreset>, enumerators: Enumerators, chapterCount: int) returns (added: nat)
    requires forall f :: f in fillers ==> f.collection in enumerators
    ensures added == EstimatedFillers(fillers, enumerators, chapterCount)
  {
    added := 0;
    for i := 0 to |fillers|
      invariant added == EstimatedFillers(fillers[..i], enumerators, chapterCount)
    {
      var filler := fillers[i];
      var a := EstimateFiller(filler, enumerators[filler.collection], chapterCount);
      assert fillers[..i + 1][..i] == fillers[..i];
      added := added + a;
    }
    assert fillers[..|fillers|] == fillers;
  }

  /**
   * Expected end of a block before it is scheduled, from peeking at the
   * filler enumerators without moving them.
   */
  method CalculateEndTimeWithFiller(enumerators: Enumerators, item: ScheduleItem, itemStartTime: int,
                                    itemDuration: nat, chapters: seq<Chapter>)
    returns (r: int)
    requires HasEnumerators(item, enumerators)
    ensures r == EndTimeWithFiller(enumerators, item, itemStartTime, itemDuration, |chapters|)
  {
    var allFiller := AllFiller(item);
    if CountPadFillers(allFiller) > 1 {
      return itemStartTime + itemDuration;
    }
    FillerKeysPresent(item, enumerators);
    var added := EstimateFillers(allFiller, enumerators, |chapters|);
    var totalDuration := itemDuration + added;
    match FirstPadFiller(allFiller)
    case Some(padFiller) =>
      r := PadTarget(itemStartTime + totalDuration, padFiller.padToNearestMinute.value);
    case None =>
      r := itemStartTime + totalDuration;
  }

  // ---------------------------------------------------------------------
  // Adding filler around an item
  // ---------------------------------------------------------------------

  /** PlayoutItem.ForChapter: the item cut down to one chapter of its media. */
  function ForChapter(playoutItem: PlayoutItem, chapter: Chapter): (r: PlayoutItem)
    ensures Span(r) == chapter.endTime - chapter.startTime
    ensures r.start == playoutItem.start && r.mediaItemId == playoutItem.mediaItemId
    ensures r.inPoint == chapter.startTime && r.outPoint == chapter.endTime
  {
    playoutItem.(finish := playoutItem.start + (chapter.endTime - chapter.startTime),
                 inPoint := chapter.startTime, outPoint := chapter.endTime)
  }

  /** Total length of a run of chapters. */
  function ChapterSpans(chapters: seq<Chapter>): int
  {
    if chapters == [] then 0
    else ChapterSpans(chapters[..|chapters| - 1])
         + (chapters[|chapters| - 1].endTime - chapters[|chapters| - 1].startTime)
  }

  /** `r` is item `b` moved on the timeline: same media, points and kind, same length. */
  predicate SameItem(r: PlayoutItem, b: PlayoutItem)
  {
    r == b.(start := r.start, finish := r.finish) && Span(r) == Span(b)
  }

  lemma {:induction false} SumSpansPrefix(items: seq<PlayoutItem>, k: nat)
    requires k < |items|
    ensures SumSpans(items[..k + 1]) == SumSpans(items[..k]) + Span(items[k])
  {
    assert items[..k + 1][..k] == items[..k];
  }

  /**
   * The final pass of AddFiller: every item keeps its length and is moved
   * so that the items play back to back from `start`.
   */
  function Retimed(items: seq<PlayoutItem>, start: int): (r: seq<PlayoutItem>)
    ensures |r| == |items|
  {
    seq(|items|, i requires 0 <= i < |items| =>
      items[i].(start := start + SumSpans(items[..i]), finish := start + SumSpans(items[..i]) + Span(items[i])))
  }

  method Retime(items: seq<PlayoutItem>, start: int) returns (r: seq<PlayoutItem>)
    ensures r == Retimed(items, start)
  {
    r := [];
    var currentTime := start;
    for i := 0 to |items|
      invariant |r| == i
      invariant currentTime == start + SumSpans(items[..i])
      invariant forall j :: 0 <= j < i ==> r[j] == Retimed(items, start)[j]
    {
      var item := items[i];
      var duration := item.finish - item.start;
      var moved := item.(start := currentTime, finish := currentTime + duration);
      SumSpansPrefix(items, i);
      r := r + [moved];
      currentTime := currentTime + duration;
    }
  }

  lemma {:induction false} RetimedPrefix(items: seq<PlayoutItem>, start: int, k: nat)
    requires k <= |items|
    ensures Retimed(items, start)[..k] == Retimed(items[..k], start)
  {
    forall i | 0 <= i < k
      ensures Retimed(items, start)[i] == Retimed(items[..k], start)[i]
    {
      assert items[..k][..i] == items[..i];
    }
  }

  lemma {:induction false} RetimedSpans(items: seq<PlayoutItem>, start: int)
    ensures SumSpans(Retimed(items, start)) == SumSpans(items)
    decreases |items|
  {
    if items != [] {
      var n := |items| - 1;
      RetimedPrefix(items, start, n);
      RetimedSpans(items[..n], start);
    }
  }

  /**
   * Re-timing moves every item without changing it otherwise, so that the
   * items play back to back from `start` and end after their total length.
   */
  lemma {:induction false} RetimedFacts(items: seq<PlayoutItem>, start: int)
    ensures var r := Retimed(items, start);
      (forall i :: 0 <= i < |r| ==> SameItem(r[i], items[i]) && r[i].start == start + SumSpans(items[..i]))
      && Contiguous(r)
      && (|r| > 0 ==> r[0].start == start && r[|r| - 1].finish == start + SumSpans(items))
      && SumSpans(r) == SumSpans(items)
  {
    RetimedMoves(items, start);
    RetimedContiguous(items, start);
    RetimedEnds(items, start);
    RetimedSpans(items, start);
  }

  lemma {:induction false} RetimedMoves(items: seq<PlayoutItem>, start: int)
    ensures var r := Retimed(items, start);
      forall i :: 0 <= i < |r| ==> SameItem(r[i], items[i]) && r[i].start == start + SumSpans(items[..i])
  {
    var r := Retimed(items, start);
    forall i | 0 <= i < |r|
      ensures SameItem(r[i], items[i]) && r[i].start == start + SumSpans(items[..i])
    {
      var b := items[i];
      assert r[i] == b.(start := r[i].start, finish := r[i].finish);
    }
  }

  lemma {:induction false} RetimedContiguous(items: seq<PlayoutItem>, start: int)
    ensures Contiguous(Retimed(items, start))
  {
    var r := Retimed(items, start);
    forall i | 0 <= i < |r| - 1
      ensures r[i].finish == r[i + 1].start
    {
      SumSpansPrefix(items, i);
    }
  }

  lemma {:induction false} RetimedEnds(items: seq<PlayoutItem>, start: int)
    ensures var r := Retimed(items, start);
      |r| > 0 ==> r[0].start == start && r[|r| - 1].finish == start + SumSpans(items)
  {
    var r := Retimed(items, start);
    if |r| > 0 {
      assert items[..0] == [];
      SumSpansPrefix(items, |r| - 1);
      assert items[..|r|] == items;
    }
  }

  /** Enumerators that a run of filler presets does not draw from are left alone. */
  predicate UntouchedOutside(next: Enumerators, enumerators: Enumerators, fillers: seq<FillerPreset>)
  {
    next.Keys == enumerators.Keys
    && forall k :: k in enumerators && (forall f :: f in fillers ==> f.collection != k) ==> next[k] == enumerators[k]
  }

  /** Items added to a block, and the enumerators after drawing them. */
  datatype Block = Block(items: seq<PlayoutItem>, next: Enumerators)

  /**
   * What one pre-, mid- or post-roll preset that does not pad adds: duration
   * filler for its duration or count filler for its count, drawn from its
   * enumerator; nothing when the matching setting is missing.
   */
  function RollBlock(guideGroup: int, enumerators: Enumerators, filler: FillerPreset, kind: FillerKind): (r: Block)
    requires filler.collection in enumerators
    ensures r.next.Keys == enumerators.Keys
    ensures UntouchedOutside(r.next, enumerators, [filler])
    ensures forall i :: 0 <= i < |r.items| ==> r.items[i].fillerKind == kind
  {
    var upcoming := enumerators[filler.collection];
    if filler.mode == Duration && filler.duration.Some? then
      var plan := DurationFill(upcoming, filler.duration.value, TooLongThreshold(filler.duration.value), false);
      Block(Placeholders(plan.taken, kind, guideGroup, filler.allowWatermarks),
            enumerators[filler.collection := upcoming[plan.consumed..]])
    else if filler.mode == Count && filler.count.Some? then
      var n := Min(Max(filler.count.value, 0), |upcoming|);
      Block(Placeholders(upcoming[..n], kind, guideGroup, filler.allowWatermarks),
            enumerators[filler.collection := upcoming[n..]])
    else Block([], enumerators)
  }

  /** One pre-, mid- or post-roll block from a preset that does not pad: by duration or by count. */
  method AddRollFiller(guideGroup: int, enumerators: Enumerators, filler: FillerPreset, kind: FillerKind)
    returns (items: seq<PlayoutItem>, next: Enumerators)
    requires filler.collection in enumerators
    ensures Block(items, next) == RollBlock(guideGroup, enumerators, filler, kind)
    ensures UntouchedOutside(next, enumerators, [filler])
    ensures forall i :: 0 <= i < |items| ==> items[i].fillerKind == kind
  {
    var upcoming := enumerators[filler.collection];
    items := [];
    next := enumerators;
    if filler.mode == Duration && filler.duration.Some? {
      var rest;
      items, rest := AddDurationFiller(guideGroup, upcoming, filler.duration.value, kind, filler.allowWatermarks);
      ghost var plan := DurationFill(upcoming, filler.duration.value, TooLongThreshold(filler.duration.value), false);
      AtPlaceholderKind(items, plan.taken, kind, guideGroup, filler.allowWatermarks);
      AtPlaceholderIs(items, plan.taken, kind, guideGroup, filler.allowWatermarks);
      next := enumerators[filler.collection := rest];
    } else if filler.mode == Count && filler.count.Some? {
      var rest;
      items, rest := AddCountFiller(guideGroup, upcoming, filler.count.value, kind, filler.allowWatermarks);
      AtPlaceholderIs(items, upcoming[..Min(Max(filler.count.value, 0), |upcoming|)], kind, guideGroup,
                      filler.allowWatermarks);
      next := enumerators[filler.collection := rest];
    }
  }

  /** The roll blocks of every preset of `kind` that does not pad, in preset order. */
  function RollBlocks(guideGroup: int, enumerators: Enumerators, fillers: seq<FillerPreset>, kind: FillerKind)
    : (r: Block)
    requires forall f :: f in fillers ==> f.collection in enumerators
    ensures r.next.Keys == enumerators.Keys
    ensures UntouchedOutside(r.next, enumerators, fillers)
    ensures forall i :: 0 <= i < |r.items| ==> r.items[i].fillerKind == kind
    decreases |fillers|
  {
    if fillers == [] then Block([], enumerators)
    else
      var front := RollBlocks(guideGroup, enumerators, fillers[..|fillers| - 1], kind);
      var f := fillers[|fillers| - 1];
      if f.kind == kind && f.mode != Pad then
        var b := RollBlock(guideGroup, front.next, f, kind);
        Block(front.items + b.items, b.next)
      else front
  }

  /** The presets of one kind that do not pad, each in turn (the pre-roll and post-roll passes). */
  method AddRollFillers(guideGroup: int, enumerators: Enumerators, fillers: seq<FillerPreset>, kind: FillerKind)
    returns (items: seq<PlayoutItem>, next: Enumerators)
    requires forall f :: f in fillers ==> f.collection in enumerators
    ensures Block(items, next) == RollBlocks(guideGroup, enumerators, fillers, kind)
    ensures UntouchedOutside(next, enumerators, fillers)
    ensures forall i :: 0 <= i < |items| ==> items[i].fillerKind == kind
    ensures (forall f :: f in fillers ==> f.kind != kind || f.mode == Pad) ==> items == [] && next == enumerators
  {
    items := [];
    next := enumerators;
    for i := 0 to |fillers|
      invariant Block(items, next) == RollBlocks(guideGroup, enumerators, fillers[..i], kind)
    {
      var filler := fillers[i];
      RollBlocksSnoc(guideGroup, enumerators, fillers, i, kind);
      if filler.kind == kind && filler.mode != Pad {
        var added, after := AddRollFiller(guideGroup, next, filler, kind);
        items := items + added;
        next := after;
      }
    }
    assert fillers[..|fillers|] == fillers;
    RollBlocksNone(guideGroup, enumerators, fillers, kind);
  }

  /** Without a preset of `kind` that does not pad there is nothing to add and nothing moves. */
  lemma {:induction false} RollBlocksNone(guideGroup: int, enumerators: Enumerators, fillers: seq<FillerPreset>,
                                          kind: FillerKind)
    requires forall f :: f in fillers ==> f.collection in enumerators
    ensures (forall f :: f in fillers ==> f.kind != kind || f.mode == Pad) ==>
      RollBlocks(guideGroup, enumerators, fillers, kind) == Block([], enumerators)
    decreases |fillers|
  {
    if fillers != [] && forall f :: f in fillers ==> f.kind != kind || f.mode == Pad {
      var front := fillers[..|fillers| - 1];
      assert forall f :: f in front ==> f in fillers;
      RollBlocksNone(guideGroup, enumerators, front, kind);
    }
  }

  /** One more preset: its roll block, when it has one, follows the blocks of the presets before it. */
  lemma {:induction false} RollBlocksSnoc(guideGroup: int, enumerators: Enumerators, fillers: seq<FillerPreset>, i: nat,
                                          kind: FillerKind)
    requires i < |fillers| && forall f :: f in fillers ==> f.collection in enumerators
    ensures var front := RollBlocks(guideGroup, enumerators, fillers[..i], kind);
      var f := fillers[i];
      f.collection in front.next
      && RollBlocks(guideGroup, enumerators, fillers[..i + 1], kind)
         == if f.kind == kind && f.mode != Pad
            then Block(front.items + RollBlock(guideGroup, front.next, f, kind).items,
                       RollBlock(guideGroup, front.next, f, kind).next)
            else front
  {
    assert fillers[..i + 1][..i] == fillers[..i];
  }

  /** The first `n` chapter pieces, each but the last chapter's followed by a mid-roll block. */
  function ChapterBreaksUpTo(guideGroup: int, enumerators: Enumerators, filler: FillerPreset,
                             playoutItem: PlayoutItem, chapters: seq<Chapter>, n: nat): (r: Block)
    requires n <= |chapters|
    requires filler.collection in enumerators
    ensures r.next.Keys == enumerators.Keys
    ensures UntouchedOutside(r.next, enumerators, [filler])
  {
    if n == 0 then Block([], enumerators)
    else
      var front := ChapterBreaksUpTo(guideGroup, enumerators, filler, playoutItem, chapters, n - 1);
      var withChapter := front.items + [ForChapter(playoutItem, chapters[n - 1])];
      if n - 1 < |chapters| - 1 then
        var b := RollBlock(guideGroup, front.next, filler, MidRoll);
        Block(withChapter + b.items, b.next)
      else Block(withChapter, front.next)
  }

  /**
   * The item cut at every chapter with the preset's mid-roll blocks between
   * them; nothing when the preset has no duration or count to go by.
   */
  function ChapterBreaks(guideGroup: int, enumerators: Enumerators, filler: FillerPreset,
                         playoutItem: PlayoutItem, chapters: seq<Chapter>): (r: Block)
    requires filler.collection in enumerators
    ensures r.next.Keys == enumerators.Keys
    ensures UntouchedOutside(r.next, enumerators, [filler])
  {
    if (filler.mode == Duration && filler.duration.Some?) || (filler.mode == Count && filler.count.Some?)
    then ChapterBreaksUpTo(guideGroup, enumerators, filler, playoutItem, chapters, |chapters|)
    else Block([], enumerators)
  }

  /**
   * The item cut at its chapters, with a mid-roll block from one preset that
   * does not pad between each pair of chapters.
   */
  method AddChapterBreaks(guideGroup: int, enumerators: Enumerators, filler: FillerPreset,
                          playoutItem: PlayoutItem, chapters: seq<Chapter>)
    returns (items: seq<PlayoutItem>, next: Enumerators)
    requires filler.collection in enumerators
    ensures Block(items, next) == ChapterBreaks(guideGroup, enumerators, filler, playoutItem, chapters)
    ensures UntouchedOutside(next, enumerators, [filler])
    ensures forall i :: 0 <= i < |items| ==> items[i] in ChapterItems(playoutItem, chapters) || items[i].fillerKind == MidRoll
    ensures !((filler.mode == Duration && filler.duration.Some?) || (filler.mode == Count && filler.count.Some?)) ==>
      items == [] && next == enumerators
  {
    items := [];
    next := enumerators;
    if (filler.mode == Duration && filler.duration.Some?) || (filler.mode == Count && filler.count.Some?) {
      for i := 0 to |chapters|
        invariant Block(items, next) == ChapterBreaksUpTo(guideGroup, enumerators, filler, playoutItem, chapters, i)
        invariant UntouchedOutside(next, enumerators, [filler])
        invariant ChaptersOrMidRoll(items, playoutItem, chapters)
      {
        var piece := [ForChapter(playoutItem, chapters[i])];
        OneChapterItem(playoutItem, chapters, i);
        ChaptersOrMidRollAppend(items, piece, playoutItem, chapters);
        items := items + piece;
        if i < |chapters| - 1 {
          var added, after := AddRollFiller(guideGroup, next, filler, MidRoll);
          AllMidRoll(added, playoutItem, chapters);
          ChaptersOrMidRollAppend(items, added, playoutItem, chapters);
          items := items + added;
          next := after;
        }
      }
    }
  }

  /** Every one of `items` is a chapter of the item or mid-roll filler. */
  predicate ChaptersOrMidRoll(items: seq<PlayoutItem>, playoutItem: PlayoutItem, chapters: seq<Chapter>)
  {
    forall i :: 0 <= i < |items| ==> items[i] in ChapterItems(playoutItem, chapters) || items[i].fillerKind == MidRoll
  }

  lemma {:induction false} OneChapterItem(playoutItem: PlayoutItem, chapters: seq<Chapter>, k: nat)
    requires k < |chapters|
    ensures ChaptersOrMidRoll([ForChapter(playoutItem, chapters[k])], playoutItem, chapters)
  {
    assert ChapterItems(playoutItem, chapters)[k] == ForChapter(playoutItem, chapters[k]);
  }

  lemma {:induction false} AllMidRoll(items: seq<PlayoutItem>, playoutItem: PlayoutItem, chapters: seq<Chapter>)
    requires forall i :: 0 <= i < |items| ==> items[i].fillerKind == MidRoll
    ensures ChaptersOrMidRoll(items, playoutItem, chapters)
  {
  }

  lemma {:induction false} ChaptersOrMidRollAppend(a: seq<PlayoutItem>, b: seq<PlayoutItem>, playoutItem: PlayoutItem, chapters: seq<Chapter>)
    requires ChaptersOrMidRoll(a, playoutItem, chapters) && ChaptersOrMidRoll(b, playoutItem, chapters)
    ensures ChaptersOrMidRoll(a + b, playoutItem, chapters)
  {
    assert forall i :: |a| <= i < |a + b| ==> (a + b)[i] == b[i - |a|];
  }

  /** The item cut at each of its chapters, in order. */
  function ChapterItems(playoutItem: PlayoutItem, chapters: seq<Chapter>): (r: seq<PlayoutItem>)
    ensures |r| == |chapters|
    ensures forall i :: 0 <= i < |r| ==> r[i] == ForChapter(playoutItem, chapters[i])
    ensures SumSpans(r) == ChapterSpans(chapters)
  {
    if chapters == [] then []
    else
      var r := ChapterItems(playoutItem, chapters[..|chapters| - 1]) + [ForChapter(playoutItem, chapters[|chapters| - 1])];
      assert r[..|r| - 1] == ChapterItems(playoutItem, chapters[..|chapters| - 1]);
      r
  }

  /** A fallback preset is configured, has an item, and none of `fillers` draws from its enumerator. */
  predicate FallbackReady(item: ScheduleItem, enumerators: Enumerators, fillers: seq<FillerPreset>)
  {
    item.fallback.Some?
    && item.fallback.value.collection in enumerators
    && enumerators[item.fallback.value.collection] != []
    && forall f :: f in fillers ==> f.collection != item.fallback.value.collection
  }

  /**
   * FallbackFillerForPad: one item of the fallback preset stretched to
   * exactly `duration` (its out point of zero lets it loop), when a fallback
   * preset is configured and its enumerator has an item.
   */
  function FallbackFillerForPad(guideGroup: int, enumerators: Enumerators, item: ScheduleItem, duration: int)
    : (r: (Option<PlayoutItem>, Enumerators))
    requires HasEnumerators(item, enumerators)
    ensures r.1.Keys == enumerators.Keys
    ensures r.0.Some? <==> item.fallback.Some? && enumerators[item.fallback.value.collection] != []
    ensures r.0.Some? ==>
      var key := item.fallback.value.collection;
      Span(r.0.value) == duration && r.0.value.fillerKind == Fallback
      && r.0.value.inPoint == 0 && r.0.value.outPoint == 0
      && r.0.value.mediaItemId == enumerators[key][0].id
      && r.1 == enumerators[key := enumerators[key][1..]]
    ensures r.0.None? ==> r.1 == enumerators
  {
    if item.fallback.Some? then
      var filler := item.fallback.value;
      assert filler.collection in CollectionKeysForItem(item);
      var upcoming := enumerators[filler.collection];
      match Current(upcoming)
      case Some(mediaItem) =>
        (Some(PlayoutItem(mediaItem.id, PlaceholderStart, PlaceholderStart + duration, 0, 0, Fallback,
                          guideGroup, !filler.allowWatermarks)),
         enumerators[filler.collection := upcoming[1..]])
      case None => (None, enumerators)
    else (None, enumerators)
  }

  lemma {:induction false} SumSpansCons(x: PlayoutItem, items: seq<PlayoutItem>)
    ensures SumSpans([x] + items) == Span(x) + SumSpans(items)
  {
    SumSpansAppend([x], items);
    assert [x][..0] == [];
  }

  lemma {:induction false} FillerSpansFit(guideGroup: int, upcoming: Upcoming, duration: int, kind: FillerKind,
                       allowWatermarks: bool, items: seq<PlayoutItem>)
    requires AtPlaceholder(items, DurationFill(upcoming, duration, TooLongThreshold(duration), false).taken,
                           kind, guideGroup, allowWatermarks)
    ensures 0 <= SumSpans(items) <= Max(duration, 0)
  {
    var plan := DurationFill(upcoming, duration, TooLongThreshold(duration), false);
    AtPlaceholderSpans(items, plan.taken, kind, guideGroup, allowWatermarks);
    DurationFillFits(upcoming, duration, TooLongThreshold(duration), false);
  }

  lemma {:induction false} SumSpansNonnegative(items: seq<PlayoutItem>)
    requires forall j :: 0 <= j < |items| ==> Span(items[j]) >= 0
    ensures SumSpans(items) >= 0
    decreases |items|
  {
    if items != [] {
      SumSpansNonnegative(items[..|items| - 1]);
    }
  }

  /** How many fallback items are left to draw; the measure of the mid-roll padding loop. */
  function FallbackLeft(item: ScheduleItem, enumerators: Enumerators): nat
  {
    if item.fallback.Some? && item.fallback.value.collection in enumerators
    then |enumerators[item.fallback.value.collection]| else 0
  }

  /** The mid-roll padding queue: duration filler for the whole time to fill, seen through its spans. */
  method PadQueue(guideGroup: int, upcoming: Upcoming, remainingToFill: int, allowWatermarks: bool)
    returns (queue: seq<PlayoutItem>, rest: Upcoming)
    ensures var plan := DurationFill(upcoming, remainingToFill, TooLongThreshold(remainingToFill), false);
      queue == Placeholders(plan.taken, MidRoll, guideGroup, allowWatermarks) && rest == upcoming[plan.consumed..]
    ensures forall j :: 0 <= j < |queue| ==> Span(queue[j]) >= 0
    ensures 0 <= SumSpans(queue) <= Max(remainingToFill, 0)
  {
    queue, rest := AddDurationFiller(guideGroup, upcoming, remainingToFill, MidRoll, allowWatermarks);
    AtPlaceholderIs(queue, DurationFill(upcoming, remainingToFill, TooLongThreshold(remainingToFill), false).taken,
                    MidRoll, guideGroup, allowWatermarks);
    AtPlaceholderKind(queue, DurationFill(upcoming, remainingToFill, TooLongThreshold(remainingToFill), false).taken,
                      MidRoll, guideGroup, allowWatermarks);
    FillerSpansFit(guideGroup, upcoming, remainingToFill, MidRoll, allowWatermarks, queue);
  }

  /**
   * The first `n` chapters of a mid-roll pad from state `start`: each
   * chapter, and after each but the last a break filled from the queue and
   * the fallback preset.
   */
  function MidRollPadUpTo(queue: seq<PlayoutItem>, guideGroup: int, item: ScheduleItem, playoutItem: PlayoutItem,
                          chapters: seq<Chapter>, average: int, remainingToFill: int, start: Enumerators, n: nat)
    : (r: PadBreak)
    requires HasEnumerators(item, start) && n <= |chapters|
    ensures HasEnumerators(item, r.enumerators) && r.enumerators.Keys == start.Keys && r.position <= |queue|
  {
    if n == 0 then PadBreak(0, 0, 0, [], start)
    else
      var s := MidRollPadUpTo(queue, guideGroup, item, playoutItem, chapters, average, remainingToFill, start, n - 1);
      var items := s.items + [ForChapter(playoutItem, chapters[n - 1])];
      if n - 1 < |chapters| - 1 then
        var f := FillBreakFrom(PadBreak(s.position, 0, s.filled, [], s.enumerators), queue, guideGroup, item,
                               average, remainingToFill);
        PadBreak(f.position, 0, f.filled, items + f.items, f.enumerators)
      else PadBreak(s.position, 0, s.filled, items, s.enumerators)
  }

  /**
   * What mid-roll padding makes of the chapters: the padding preset's
   * duration filler for the whole time to fill is queued, and the breaks
   * between chapters share it out, each up to the average share.
   */
  function MidRollPad(guideGroup: int, enumerators: Enumerators, item: ScheduleItem, playoutItem: PlayoutItem,
                      chapters: seq<Chapter>, padFiller: FillerPreset, remainingToFill: int): (r: Block)
    requires HasEnumerators(item, enumerators) && padFiller.collection in enumerators
    ensures r.next.Keys == enumerators.Keys
  {
    var queue := DurationBlock(guideGroup, enumerators, padFiller, MidRoll, remainingToFill);
    var average := if |chapters| <= 1 then remainingToFill else RoundHalfEven(remainingToFill, |chapters| - 1);
    var r := MidRollPadUpTo(queue.items, guideGroup, item, playoutItem, chapters, average, remainingToFill,
                            queue.next, |chapters|);
    Block(r.items, r.enumerators)
  }

  /**
   * Mid-roll padding: the padding preset's items, taken for the whole time
   * to fill, are shared out between the chapter breaks, each break filled
   * up to the average share; when they run out, fallback items make up the
   * rest. When neither is left the break is closed.
   */
  method AddMidRollPad(guideGroup: int, enumerators: Enumerators, item: ScheduleItem, playoutItem: PlayoutItem,
                       chapters: seq<Chapter>, padFiller: FillerPreset, remainingToFill: int)
    returns (items: seq<PlayoutItem>, next: Enumerators)
    requires HasEnumerators(item, enumerators) && padFiller.collection in enumerators
    ensures Block(items, next) == MidRollPad(guideGroup, enumerators, item, playoutItem, chapters, padFiller,
                                             remainingToFill)
  {
    var queue, rest := PadQueue(guideGroup, enumerators[padFiller.collection], remainingToFill,
                                padFiller.allowWatermarks);
    next := enumerators[padFiller.collection := rest];
    ghost var start := next;
    assert Block(queue, start) == DurationBlock(guideGroup, enumerators, padFiller, MidRoll, remainingToFill);
    var average := if |chapters| <= 1 then remainingToFill else RoundHalfEven(remainingToFill, |chapters| - 1);
    var filled := 0;
    var position: nat := 0;
    items := [];
    for i := 0 to |chapters|
      invariant HasEnumerators(item, next)
      invariant PadBreak(position, 0, filled, items, next)
             == MidRollPadUpTo(queue, guideGroup, item, playoutItem, chapters, average, remainingToFill, start, i)
    {
      items := items + [ForChapter(playoutItem, chapters[i])];
      if i < |chapters| - 1 {
        var added;
        added, position, filled, next := FillBreak(guideGroup, item, queue, average, remainingToFill,
                                                   position, filled, next);
        items := items + added;
      }
    }
  }

  /**
   * The bookkeeping of the mid-roll pad after `n` chapters: the items span
   * the chapters so far plus the time counted as filled, and that time plus
   * what is still queued never passes the time to fill.
   */
  predicate MidRollFits(r: PadBreak, queue: seq<PlayoutItem>, chapters: seq<Chapter>, n: nat, remainingToFill: int)
    requires n <= |chapters|
  {
    r.position <= |queue| && 0 <= r.filled
    && SumSpans(r.items) == ChapterSpans(chapters[..n]) + r.filled
    && r.filled + SumSpans(queue[r.position..]) <= Max(remainingToFill, 0)
  }

  lemma {:induction false} MidRollPadUpToFits(queue: seq<PlayoutItem>, guideGroup: int, item: ScheduleItem,
                                              playoutItem: PlayoutItem, chapters: seq<Chapter>, average: int,
                                              remainingToFill: int, start: Enumerators, n: nat)
    requires HasEnumerators(item, start) && n <= |chapters|
    requires forall j :: 0 <= j < |queue| ==> Span(queue[j]) >= 0
    requires SumSpans(queue) <= Max(remainingToFill, 0)
    ensures MidRollFits(MidRollPadUpTo(queue, guideGroup, item, playoutItem, chapters, average, remainingToFill,
                                       start, n), queue, chapters, n, remainingToFill)
  {
    if n == 0 {
      assert queue[0..] == queue;
    } else {
      MidRollPadUpToFits(queue, guideGroup, item, playoutItem, chapters, average, remainingToFill, start, n - 1);
      var s := MidRollPadUpTo(queue, guideGroup, item, playoutItem, chapters, average, remainingToFill, start, n - 1);
      var items := s.items + [ForChapter(playoutItem, chapters[n - 1])];
      assert chapters[..n][..n - 1] == chapters[..n - 1];
      SumSpansAppend(s.items, [ForChapter(playoutItem, chapters[n - 1])]);
      if n - 1 < |chapters| - 1 {
        var b := PadBreak(s.position, 0, s.filled, [], s.enumerators);
        FillBreakFromFits(b, queue, guideGroup, item, average, remainingToFill, s.filled);
        var f := FillBreakFrom(b, queue, guideGroup, item, average, remainingToFill);
        SumSpansAppend(items, f.items);
      }
    }
  }

  /** Mid-roll padding adds to the chapters no more than the time to fill. */
  lemma {:induction false} MidRollPadFits(guideGroup: int, enumerators: Enumerators, item: ScheduleItem, playoutItem: PlayoutItem,
                       chapters: seq<Chapter>, padFiller: FillerPreset, remainingToFill: int)
    requires HasEnumerators(item, enumerators) && padFiller.collection in enumerators
    ensures var m := MidRollPad(guideGroup, enumerators, item, playoutItem, chapters, padFiller, remainingToFill);
      ChapterSpans(chapters) <= SumSpans(m.items) <= ChapterSpans(chapters) + Max(remainingToFill, 0)
  {
    var queue := DurationBlock(guideGroup, enumerators, padFiller, MidRoll, remainingToFill);
    var upcoming := enumerators[padFiller.collection];
    var plan := DurationFill(upcoming, remainingToFill, TooLongThreshold(remainingToFill), false);
    PlaceholdersAt(plan.taken, MidRoll, guideGroup, padFiller.allowWatermarks);
    AtPlaceholderKind(queue.items, plan.taken, MidRoll, guideGroup, padFiller.allowWatermarks);
    DurationBlockFits(guideGroup, enumerators, padFiller, MidRoll, remainingToFill);
    var average := if |chapters| <= 1 then remainingToFill else RoundHalfEven(remainingToFill, |chapters| - 1);
    MidRollPadUpToFits(queue.items, guideGroup, item, playoutItem, chapters, average, remainingToFill,
                       queue.next, |chapters|);
    var r := MidRollPadUpTo(queue.items, guideGroup, item, playoutItem, chapters, average, remainingToFill,
                            queue.next, |chapters|);
    assert chapters[..|chapters|] == chapters;
    SumSpansSuffixNonnegative(queue.items, r.position);
  }

  lemma {:induction false} SumSpansSuffixNonnegative(items: seq<PlayoutItem>, from: nat)
    requires from <= |items|
    requires forall j :: 0 <= j < |items| ==> Span(items[j]) >= 0
    ensures SumSpans(items[from..]) >= 0
  {
    SumSpansNonnegative(items[from..]);
  }

  /**
   * One chapter break of the mid-roll padding: queued items, then fallback
   * items, are added until the break holds its average share or the whole
   * time to fill is used, or nothing is left to add.
   */
  method FillBreak(guideGroup: int, item: ScheduleItem, queue: seq<PlayoutItem>, average: int, remainingToFill: int,
                   position0: nat, filled0: int, next0: Enumerators)
    returns (added: seq<PlayoutItem>, position: nat, filled: int, next: Enumerators)
    requires HasEnumerators(item, next0) && position0 <= |queue|
    ensures var r := FillBreakFrom(PadBreak(position0, 0, filled0, [], next0), queue, guideGroup, item,
                                   average, remainingToFill);
      added == r.items && position == r.position && filled == r.filled && next == r.enumerators
  {
    var b := PadBreak(position0, 0, filled0, [], next0);
    ghost var goal := FillBreakFrom(b, queue, guideGroup, item, average, remainingToFill);
    while b.current < average && b.filled < remainingToFill
      invariant HasEnumerators(item, b.enumerators) && b.position <= |queue|
      invariant FillBreakFrom(b, queue, guideGroup, item, average, remainingToFill) == goal
      decreases |queue| - b.position, FallbackLeft(item, b.enumerators)
    {
      if b.position < |queue| {
        var fillerItem := queue[b.position];
        FillBreakQueued(b, queue, guideGroup, item, average, remainingToFill);
        b := PadBreak(b.position + 1, b.current + Span(fillerItem), b.filled + Span(fillerItem),
                      b.items + [fillerItem], b.enumerators);
      } else {
        var leftInThisBreak := average - b.current;
        var leftOverall := remainingToFill - b.filled;
        var maxThisBreak := if leftOverall < leftInThisBreak then leftOverall else leftInThisBreak;
        var fallback := FallbackFillerForPad(guideGroup, b.enumerators, item, maxThisBreak);
        if fallback.0.None? {
          break;
        }
        FillBreakFallback(b, queue, guideGroup, item, average, remainingToFill);
        b := PadBreak(b.position, b.current + Span(fallback.0.value), b.filled + Span(fallback.0.value),
                      b.items + [fallback.0.value], fallback.1);
      }
    }
    FillBreakDone(b, queue, guideGroup, item, average, remainingToFill);
    added, position, filled, next := b.items, b.position, b.filled, b.enumerators;
  }

  /**
   * Each turn keeps the break's bookkeeping: the items added span exactly
   * the time counted as filled, and that time plus what is still queued
   * never passes the time to fill.
   */
  predicate PadBreakFits(b: PadBreak, queue: seq<PlayoutItem>, filled0: int, remainingToFill: int)
  {
    b.position <= |queue| && filled0 <= b.filled
    && SumSpans(b.items) == b.filled - filled0
    && b.filled + SumSpans(queue[b.position..]) <= Max(remainingToFill, 0)
  }

  lemma {:induction false} MidRollPadTurnFits(b: PadBreak, queue: seq<PlayoutItem>, guideGroup: int, item: ScheduleItem,
                           average: int, remainingToFill: int, filled0: int)
    requires HasEnumerators(item, b.enumerators)
    requires forall j :: 0 <= j < |queue| ==> Span(queue[j]) >= 0
    requires b.current < average && b.filled < remainingToFill
    requires PadBreakFits(b, queue, filled0, remainingToFill)
    ensures PadBreakFits(MidRollPadTurn(b, queue, guideGroup, item, average, remainingToFill), queue, filled0,
                         remainingToFill)
  {
    var t := MidRollPadTurn(b, queue, guideGroup, item, average, remainingToFill);
    if b.position < |queue| {
      var fillerItem := queue[b.position];
      assert queue[b.position..] == [fillerItem] + queue[b.position + 1..];
      SumSpansCons(fillerItem, queue[b.position + 1..]);
      SumSpansAppend(b.items, [fillerItem]);
      SumSpansSuffixNonnegative(queue, b.position + 1);
    } else if t != b {
      SumSpansAppend(b.items, t.items[|b.items|..]);
      assert b.items + t.items[|b.items|..] == t.items;
      assert t.items[|b.items|..][..0] == [];
    }
  }

  lemma {:induction false} FillBreakFromFits(b: PadBreak, queue: seq<PlayoutItem>, guideGroup: int, item: ScheduleItem,
                                             average: int, remainingToFill: int, filled0: int)
    requires HasEnumerators(item, b.enumerators)
    requires forall j :: 0 <= j < |queue| ==> Span(queue[j]) >= 0
    requires PadBreakFits(b, queue, filled0, remainingToFill)
    ensures PadBreakFits(FillBreakFrom(b, queue, guideGroup, item, average, remainingToFill), queue, filled0,
                         remainingToFill)
    decreases |queue| - b.position, FallbackLeft(item, b.enumerators)
  {
    if b.current < average && b.filled < remainingToFill {
      var t := MidRollPadTurn(b, queue, guideGroup, item, average, remainingToFill);
      if t != b {
        MidRollPadTurnFits(b, queue, guideGroup, item, average, remainingToFill, filled0);
        FillBreakFromFits(t, queue, guideGroup, item, average, remainingToFill, filled0);
      }
    }
  }

  /** Taking the next queued item is one turn, and the rest of the break is filled from there. */
  lemma {:induction false} FillBreakQueued(b: PadBreak, queue: seq<PlayoutItem>, guideGroup: int, item: ScheduleItem,
                        average: int, remainingToFill: int)
    requires HasEnumerators(item, b.enumerators) && b.position < |queue|
    requires b.current < average && b.filled < remainingToFill
    ensures var x := queue[b.position];
      FillBreakFrom(PadBreak(b.position + 1, b.current + Span(x), b.filled + Span(x), b.items + [x], b.enumerators),
                    queue, guideGroup, item, average, remainingToFill)
      == FillBreakFrom(b, queue, guideGroup, item, average, remainingToFill)
  {
  }

  /** With the queue used up, drawing a fallback item is one turn, and the rest is filled from there. */
  lemma {:induction false} FillBreakFallback(b: PadBreak, queue: seq<PlayoutItem>, guideGroup: int, item: ScheduleItem,
                          average: int, remainingToFill: int)
    requires HasEnumerators(item, b.enumerators) && b.position == |queue|
    requires b.current < average && b.filled < remainingToFill
    requires var left := if remainingToFill - b.filled < average - b.current then remainingToFill - b.filled
                         else average - b.current;
      FallbackFillerForPad(guideGroup, b.enumerators, item, left).0.Some?
    ensures var left := if remainingToFill - b.filled < average - b.current then remainingToFill - b.filled
                        else average - b.current;
      var fallback := FallbackFillerForPad(guideGroup, b.enumerators, item, left);
      var x := fallback.0.value;
      FillBreakFrom(PadBreak(b.position, b.current + Span(x), b.filled + Span(x), b.items + [x], fallback.1),
                    queue, guideGroup, item, average, remainingToFill)
      == FillBreakFrom(b, queue, guideGroup, item, average, remainingToFill)
  {
  }

  /** The break is closed once it holds its share, the time is used, or a turn adds nothing. */
  lemma {:induction false} FillBreakDone(b: PadBreak, queue: seq<PlayoutItem>, guideGroup: int, item: ScheduleItem,
                      average: int, remainingToFill: int)
    requires HasEnumerators(item, b.enumerators) && b.position <= |queue|
    requires b.current < average && b.filled < remainingToFill ==>
      b.position >= |queue| && (item.fallback.None? || b.enumerators[item.fallback.value.collection] == [])
    ensures FillBreakFrom(b, queue, guideGroup, item, average, remainingToFill) == b
  {
  }

  /** The variables of the mid-roll padding loop within one chapter break. */
  datatype PadBreak = PadBreak(position: nat, current: int, filled: int, items: seq<PlayoutItem>,
                               enumerators: Enumerators)

  /**
   * One turn of the mid-roll padding loop: take the next queued filler
   * item, or else ask for a fallback item. With neither left the turn
   * changes nothing; the loop as written only looks at the time placed, so
   * it never ends, where the corrected loop stops.
   */
  function MidRollPadTurn(b: PadBreak, queue: seq<PlayoutItem>, guideGroup: int, item: ScheduleItem,
                          average: int, remainingToFill: int): (r: PadBreak)
    requires HasEnumerators(item, b.enumerators)
    ensures r.filled - b.filled == r.current - b.current
    ensures r == b <==> b.position >= |queue| && (item.fallback.None? || b.enumerators[item.fallback.value.collection] == [])
    ensures r.enumerators.Keys == b.enumerators.Keys
    ensures b.position <= r.position && (b.position <= |queue| ==> r.position <= |queue|)
    ensures r != b && r.position == b.position ==> FallbackLeft(item, r.enumerators) < FallbackLeft(item, b.enumerators)
  {
    if b.position < |queue| then
      var fillerItem := queue[b.position];
      PadBreak(b.position + 1, b.current + Span(fillerItem), b.filled + Span(fillerItem),
               b.items + [fillerItem], b.enumerators)
    else
      var leftInThisBreak := average - b.current;
      var leftOverall := remainingToFill - b.filled;
      var maxThisBreak := if leftOverall < leftInThisBreak then leftOverall else leftInThisBreak;
      var fallback := FallbackFillerForPad(guideGroup, b.enumerators, item, maxThisBreak);
      if fallback.0.Some? then
        assert |b.items + [fallback.0.value]| != |b.items|;
        PadBreak(b.position, b.current + Span(fallback.0.value), b.filled + Span(fallback.0.value),
                 b.items + [fallback.0.value], fallback.1)
      else b
  }

  /**
   * One chapter break of the mid-roll padding from state `b`: turns are
   * taken while the break is short of its average share and time is left
   * to fill, and the break is closed when a turn finds nothing to add.
   */
  function FillBreakFrom(b: PadBreak, queue: seq<PlayoutItem>, guideGroup: int, item: ScheduleItem,
                         average: int, remainingToFill: int): (r: PadBreak)
    requires HasEnumerators(item, b.enumerators) && b.position <= |queue|
    ensures HasEnumerators(item, r.enumerators) && r.enumerators.Keys == b.enumerators.Keys
    ensures b.position <= r.position <= |queue|
    decreases |queue| - b.position, FallbackLeft(item, b.enumerators)
  {
    if b.current < average && b.filled < remainingToFill then
      var t := MidRollPadTurn(b, queue, guideGroup, item, average, remainingToFill);
      if t == b then b else FillBreakFrom(t, queue, guideGroup, item, average, remainingToFill)
    else b
  }

  /**
   * A break is closed only when it holds its average share, or the whole
   * time to fill is used, or one more turn would add nothing.
   */
  lemma {:induction false} FillBreakFromStops(b: PadBreak, queue: seq<PlayoutItem>, guideGroup: int, item: ScheduleItem,
                                              average: int, remainingToFill: int)
    requires HasEnumerators(item, b.enumerators) && b.position <= |queue|
    ensures var r := FillBreakFrom(b, queue, guideGroup, item, average, remainingToFill);
      r.current < average && r.filled < remainingToFill ==>
        MidRollPadTurn(r, queue, guideGroup, item, average, remainingToFill) == r
    decreases |queue| - b.position, FallbackLeft(item, b.enumerators)
  {
    if b.current < average && b.filled < remainingToFill {
      var t := MidRollPadTurn(b, queue, guideGroup, item, average, remainingToFill);
      if t != b {
        FillBreakFromStops(t, queue, guideGroup, item, average, remainingToFill);
      }
    }
  }

  /**
   * Ten minutes to pad across two chapters from three-minute filler, with
   * no fallback preset: the duration filler queues three items (nine
   * minutes), the one break takes them all, and the loop is left with one
   * minute it can never place while its condition still holds.
   */
  lemma {:induction false} MidRollPadAsWrittenStalls()
    ensures var m := MediaItem(7, 3 * TicksPerMinute);
      var fillerKey := CollectionKey(Collection, Some(2), None, None, None);
      var padFiller := FillerPreset(MidRoll, Pad, None, None, Some(30), true, fillerKey);
      var item := ScheduleItem(1, One, Dynamic, None, CollectionKey(Collection, Some(1), None, None, None),
                               None, Some(padFiller), None, None, None);
      var enumerators := map[item.collection := [], fillerKey := [m, m, m, m]];
      var remainingToFill := 10 * TicksPerMinute;
      var plan := DurationFill([m, m, m, m], remainingToFill, TooLongThreshold(remainingToFill), false);
      var queue := seq(3, _ => FillerItem(m, PlaceholderStart, MidRoll, 1, true));
      var average := RoundHalfEven(remainingToFill, 2 - 1);
      var start := PadBreak(0, 0, 0, [], enumerators[fillerKey := []]);
      var b := MidRollPadTurn(
                 MidRollPadTurn(
                   MidRollPadTurn(start, queue, 1, item, average, remainingToFill),
                   queue, 1, item, average, remainingToFill),
                 queue, 1, item, average, remainingToFill);
      plan == FillPlan([m, m, m], 3)
      && AtPlaceholder(queue, plan.taken, MidRoll, 1, true)
      && b.current == 9 * TicksPerMinute && b.filled == 9 * TicksPerMinute
      && b.current < average && b.filled < remainingToFill
      && MidRollPadTurn(b, queue, 1, item, average, remainingToFill) == b
  {
    var m := MediaItem(7, 3 * TicksPerMinute);
    var remainingToFill := 10 * TicksPerMinute;
    var threshold := TooLongThreshold(remainingToFill);
    assert threshold == 15 * TicksPerMinute;
    assert [m, m, m, m][1..] == [m, m, m];
    assert [m, m, m][1..] == [m, m];
    assert [m, m][1..] == [m];
    assert DurationFill([m], TicksPerMinute, threshold, false) == FillPlan([], 0);
    assert DurationFill([m, m], 4 * TicksPerMinute, threshold, false) == FillPlan([m], 1);
    assert DurationFill([m, m, m], 7 * TicksPerMinute, threshold, false) == FillPlan([m, m], 2);
    assert RoundHalfEven(remainingToFill, 1) == remainingToFill;
    var f := FillerItem(m, PlaceholderStart, MidRoll, 1, true);
    assert seq(3, _ => f) == [f, f, f];
    assert AtPlaceholder([f], [m], MidRoll, 1, true) by {
      assert [f][..0] == [] && [m][..0] == [];
    }
    assert AtPlaceholder([f, f], [m, m], MidRoll, 1, true) by {
      assert [f, f][..1] == [f] && [m, m][..1] == [m];
    }
    assert AtPlaceholder([f, f, f], [m, m, m], MidRoll, 1, true) by {
      assert [f, f, f][..2] == [f, f] && [m, m, m][..2] == [m, m];
    }
  }

  /**
   * The length the padding is computed from, as written: every item so far
   * plus every effective chapter. It is the corrected base when the mid-roll
   * preset pads, and counts the chapters once more for any other preset.
   */
  function PadBaseAsWritten(unpadded: seq<PlayoutItem>, effectiveChapters: seq<Chapter>): (r: int)
    ensures forall pf: FillerPreset :: pf.kind == MidRoll ==> r == PadBase(unpadded, effectiveChapters, pf)
    ensures forall pf: FillerPreset :: pf.kind != MidRoll ==>
              r == PadBase(unpadded, effectiveChapters, pf) + ChapterSpans(effectiveChapters)
  {
    SumSpans(unpadded) + ChapterSpans(effectiveChapters)
  }

  /**
   * The length the padding is computed from: the items so far, plus the
   * chapters when the padding preset is the mid-roll one, which places the
   * chapters itself; any other preset finds them placed already.
   */
  function PadBase(unpadded: seq<PlayoutItem>, effectiveChapters: seq<Chapter>, padFiller: FillerPreset): int
  {
    SumSpans(unpadded) + (if padFiller.kind == MidRoll then ChapterSpans(effectiveChapters) else 0)
  }

  /**
   * For a pre- or post-roll pad the length padded from is the unpadded
   * block's own length: re-timed from `start`, the block ends exactly at
   * `start` plus that length, so the padded end is computed from where the
   * block really ends.
   */
  lemma {:induction false} PadBaseIsBlockEnd(unpadded: seq<PlayoutItem>, effectiveChapters: seq<Chapter>, padFiller: FillerPreset,
                          start: int)
    requires padFiller.kind != MidRoll && |unpadded| > 0
    ensures Retimed(unpadded, start)[|unpadded| - 1].finish == start + PadBase(unpadded, effectiveChapters, padFiller)
  {
    RetimedFacts(unpadded, start);
  }

  /**
   * Two ten-minute chapters with a one-minute mid-roll between them and a
   * post-roll padding to 30 minutes, starting on the hour: the block holds
   * 21 minutes, so it should be padded to half past; counting the chapters a
   * second time gives 41 minutes and pads to the next hour.
   */
  lemma {:induction false} PadBaseAsWrittenCountsChaptersTwice()
    ensures var item := PlayoutItem(1, 0, 20 * TicksPerMinute, 0, 20 * TicksPerMinute, NotFiller, 1, false);
      var chapters := [Chapter(0, 10 * TicksPerMinute), Chapter(10 * TicksPerMinute, 20 * TicksPerMinute)];
      var midRoll := FillerItem(MediaItem(2, TicksPerMinute), PlaceholderStart, MidRoll, 1, true);
      var unpadded := [ForChapter(item, chapters[0]), midRoll, ForChapter(item, chapters[1])];
      var padFiller := FillerPreset(PostRoll, Pad, None, None, Some(30), true,
                                    CollectionKey(Collection, Some(3), None, None, None));
      PadBaseAsWritten(unpadded, chapters) == 41 * TicksPerMinute
      && PadBase(unpadded, chapters, padFiller) == 21 * TicksPerMinute
      && PadTarget(item.start + PadBaseAsWritten(unpadded, chapters), 30) == 60 * TicksPerMinute
      && PadTarget(item.start + PadBase(unpadded, chapters, padFiller), 30) == 30 * TicksPerMinute
  {
    var item := PlayoutItem(1, 0, 20 * TicksPerMinute, 0, 20 * TicksPerMinute, NotFiller, 1, false);
    var chapters := [Chapter(0, 10 * TicksPerMinute), Chapter(10 * TicksPerMinute, 20 * TicksPerMinute)];
    var midRoll := FillerItem(MediaItem(2, TicksPerMinute), PlaceholderStart, MidRoll, 1, true);
    var unpadded := [ForChapter(item, chapters[0]), midRoll, ForChapter(item, chapters[1])];
    assert [unpadded[0]][..0] == [];
    assert SumSpans([unpadded[0]]) == 10 * TicksPerMinute;
    assert unpadded[..2][..1] == [unpadded[0]];
    assert SumSpans(unpadded[..2]) == 11 * TicksPerMinute;
    assert unpadded[..|unpadded| - 1] == unpadded[..2];
    assert SumSpans(unpadded) == 21 * TicksPerMinute;
    assert chapters[..1] == [chapters[0]];
    assert chapters[..1][..0] == [];
    assert ChapterSpans(chapters[..1]) == 10 * TicksPerMinute;
    assert ChapterSpans(chapters) == 20 * TicksPerMinute;
    DivUnique(41 * TicksPerMinute, TicksPerHour, 0);
    DivUnique(41 * TicksPerMinute + 30 * TicksPerMinute - 1, 30 * TicksPerMinute, 2);
    DivUnique(21 * TicksPerMinute, TicksPerHour, 0);
    DivUnique(21 * TicksPerMinute + 30 * TicksPerMinute - 1, 30 * TicksPerMinute, 1);
  }

  /** A pre-roll or post-roll pad: the padding preset's filler, the fallback top-up, the enumerators after. */
  datatype Padding = Padding(filler: seq<PlayoutItem>, top: seq<PlayoutItem>, next: Enumerators)

  /** Duration filler from a preset's enumerator for `duration`, at the placeholder. */
  function DurationBlock(guideGroup: int, enumerators: Enumerators, filler: FillerPreset, kind: FillerKind,
                         duration: int): (r: Block)
    requires filler.collection in enumerators
    ensures r.next.Keys == enumerators.Keys
  {
    var upcoming := enumerators[filler.collection];
    var plan := DurationFill(upcoming, duration, TooLongThreshold(duration), false);
    Block(Placeholders(plan.taken, kind, guideGroup, filler.allowWatermarks),
          enumerators[filler.collection := upcoming[plan.consumed..]])
  }

  /** The fallback top-up: one fallback item over `left`, if there is time left and the fallback has an item. */
  function TopUp(guideGroup: int, enumerators: Enumerators, item: ScheduleItem, left: int): (r: Block)
    requires HasEnumerators(item, enumerators)
    ensures r.next.Keys == enumerators.Keys
  {
    if left > 0 then
      var fallback := FallbackFillerForPad(guideGroup, enumerators, item, left);
      if fallback.0.Some? then Block([fallback.0.value], fallback.1) else Block([], enumerators)
    else Block([], enumerators)
  }

  /**
   * What a pre-roll or post-roll pad adds: duration filler from the padding
   * preset for the time to fill, then one fallback item over whatever time
   * is still left, if any is and the fallback has an item.
   */
  function PadFallback(guideGroup: int, enumerators: Enumerators, item: ScheduleItem, padFiller: FillerPreset,
                       kind: FillerKind, remainingToFill: int): (r: Padding)
    requires HasEnumerators(item, enumerators) && padFiller.collection in enumerators
    ensures r.next.Keys == enumerators.Keys
  {
    var filler := DurationBlock(guideGroup, enumerators, padFiller, kind, remainingToFill);
    var top := TopUp(guideGroup, filler.next, item, remainingToFill - SumSpans(filler.items));
    Padding(filler.items, top.items, top.next)
  }

  /**
   * A pre-roll or post-roll pad: filler of the pad's kind then at most one
   * fallback item, together no longer than the time to fill, and exactly as
   * long when a fallback item is ready to make up the rest.
   */
  predicate PadFits(p: Padding, kind: FillerKind, remainingToFill: int, fallbackReady: bool)
  {
    (forall i :: 0 <= i < |p.filler| ==> p.filler[i].fillerKind == kind)
    && |p.top| <= 1 && (forall i :: 0 <= i < |p.top| ==> p.top[i].fillerKind == Fallback)
    && 0 <= SumSpans(p.filler) + SumSpans(p.top) <= Max(remainingToFill, 0)
    && (fallbackReady ==> SumSpans(p.filler) + SumSpans(p.top) == Max(remainingToFill, 0))
  }

  lemma {:induction false} DurationBlockFits(guideGroup: int, enumerators: Enumerators, filler: FillerPreset, kind: FillerKind,
                          duration: int)
    requires filler.collection in enumerators
    ensures 0 <= SumSpans(DurationBlock(guideGroup, enumerators, filler, kind, duration).items) <= Max(duration, 0)
  {
    var upcoming := enumerators[filler.collection];
    var plan := DurationFill(upcoming, duration, TooLongThreshold(duration), false);
    PlaceholdersAt(plan.taken, kind, guideGroup, filler.allowWatermarks);
    FillerSpansFit(guideGroup, upcoming, duration, kind, filler.allowWatermarks,
                   Placeholders(plan.taken, kind, guideGroup, filler.allowWatermarks));
  }

  lemma {:induction false} TopUpFits(guideGroup: int, enumerators: Enumerators, item: ScheduleItem, left: int)
    requires HasEnumerators(item, enumerators)
    ensures var t := TopUp(guideGroup, enumerators, item, left);
      |t.items| <= 1 && (forall i :: 0 <= i < |t.items| ==> t.items[i].fillerKind == Fallback)
      && SumSpans(t.items) == (if t.items == [] then 0 else left)
      && (t.items != [] ==> left > 0)
      && (left > 0 && item.fallback.Some? && enumerators[item.fallback.value.collection] != [] ==> t.items != [])
  {
    var t := TopUp(guideGroup, enumerators, item, left);
    if t.items != [] {
      assert t.items[..0] == [];
    }
  }

  lemma {:induction false} PadFallbackFits(guideGroup: int, enumerators: Enumerators, item: ScheduleItem, padFiller: FillerPreset,
                        kind: FillerKind, remainingToFill: int)
    requires HasEnumerators(item, enumerators) && padFiller.collection in enumerators
    ensures PadFits(PadFallback(guideGroup, enumerators, item, padFiller, kind, remainingToFill), kind,
                    remainingToFill, FallbackReady(item, enumerators, [padFiller]))
  {
    var filler := DurationBlock(guideGroup, enumerators, padFiller, kind, remainingToFill);
    DurationBlockFits(guideGroup, enumerators, padFiller, kind, remainingToFill);
    TopUpFits(guideGroup, filler.next, item, remainingToFill - SumSpans(filler.items));
    if FallbackReady(item, enumerators, [padFiller]) {
      assert filler.next[item.fallback.value.collection] == enumerators[item.fallback.value.collection];
    }
  }

  /**
   * The pre-roll or post-roll pad: duration filler from the padding preset
   * for the whole time to fill, then, if time is still left, one fallback
   * item stretched over exactly what is left.
   */
  method PadWithFallback(guideGroup: int, enumerators: Enumerators, item: ScheduleItem, padFiller: FillerPreset,
                         kind: FillerKind, remainingToFill: int)
    returns (filler: seq<PlayoutItem>, top: seq<PlayoutItem>, next: Enumerators)
    requires HasEnumerators(item, enumerators) && padFiller.collection in enumerators
    ensures Padding(filler, top, next) == PadFallback(guideGroup, enumerators, item, padFiller, kind, remainingToFill)
  {
    var key := padFiller.collection;
    var rest;
    filler, rest := AddDurationFiller(guideGroup, enumerators[key], remainingToFill, kind, padFiller.allowWatermarks);
    ghost var plan := DurationFill(enumerators[key], remainingToFill, TooLongThreshold(remainingToFill), false);
    AtPlaceholderIs(filler, plan.taken, kind, guideGroup, padFiller.allowWatermarks);
    next := enumerators[key := rest];
    assert Block(filler, next) == DurationBlock(guideGroup, enumerators, padFiller, kind, remainingToFill);
    top := [];
    var left := remainingToFill - SumSpans(filler);
    if left > 0 {
      var fallback := FallbackFillerForPad(guideGroup, next, item, left);
      if fallback.0.Some? {
        top := [fallback.0.value];
        next := fallback.1;
      }
    }
  }

  /**
   * The block after padding: the pad goes before the block for pre-roll,
   * after it for post-roll, and between the chapters for mid-roll; a
   * padding preset of another kind changes nothing.
   */
  function PadFilled(guideGroup: int, enumerators: Enumerators, item: ScheduleItem, playoutItem: PlayoutItem,
                     effectiveChapters: seq<Chapter>, padFiller: FillerPreset, unpadded: seq<PlayoutItem>): (r: Block)
    requires HasEnumerators(item, enumerators) && padFiller.collection in enumerators && IsPadFiller(padFiller)
    ensures r.next.Keys == enumerators.Keys
  {
    var remainingToFill := PadRemaining(playoutItem.start, unpadded, effectiveChapters, padFiller);
    match padFiller.kind
    case PreRoll =>
      var p := PadFallback(guideGroup, enumerators, item, padFiller, PreRoll, remainingToFill);
      Block(p.top + p.filler + unpadded, p.next)
    case MidRoll =>
      var m := MidRollPad(guideGroup, enumerators, item, playoutItem, effectiveChapters, padFiller, remainingToFill);
      Block(unpadded + m.items, m.next)
    case PostRoll =>
      var p := PadFallback(guideGroup, enumerators, item, padFiller, PostRoll, remainingToFill);
      Block(unpadded + p.filler + p.top, p.next)
    case _ => Block(unpadded, enumerators)
  }

  /**
   * Padding: the block is filled out from the padding preset to the next
   * multiple of the pad, then topped up with one fallback item for a
   * pre-roll or post-roll pad; a mid-roll pad is spread between chapters.
   */
  method AddPadFiller(guideGroup: int, enumerators: Enumerators, item: ScheduleItem, playoutItem: PlayoutItem,
                      effectiveChapters: seq<Chapter>, padFiller: FillerPreset, unpadded: seq<PlayoutItem>)
    returns (result: seq<PlayoutItem>, next: Enumerators)
    requires HasEnumerators(item, enumerators) && padFiller.collection in enumerators && IsPadFiller(padFiller)
    ensures Block(result, next) == PadFilled(guideGroup, enumerators, item, playoutItem, effectiveChapters,
                                             padFiller, unpadded)
  {
    var totalDuration := PadBase(unpadded, effectiveChapters, padFiller);
    var targetTime := PadTarget(playoutItem.start + totalDuration, padFiller.padToNearestMinute.value);
    var remainingToFill := targetTime - totalDuration - playoutItem.start;
    result := unpadded;
    next := enumerators;
    match padFiller.kind {
      case PreRoll =>
        var filler, top;
        filler, top, next := PadWithFallback(guideGroup, enumerators, item, padFiller, PreRoll, remainingToFill);
        result := top + filler + unpadded;
      case MidRoll =>
        var items;
        items, next := AddMidRollPad(guideGroup, enumerators, item, playoutItem, effectiveChapters,
                                     padFiller, remainingToFill);
        result := unpadded + items;
      case PostRoll =>
        var filler, top;
        filler, top, next := PadWithFallback(guideGroup, enumerators, item, padFiller, PostRoll, remainingToFill);
        result := unpadded + filler + top;
      case _ =>
    }
  }

  /** The time a pad fills: from the end of the unpadded block to the padded end. */
  function PadRemaining(start: int, unpadded: seq<PlayoutItem>, effectiveChapters: seq<Chapter>,
                        padFiller: FillerPreset): (r: int)
    requires IsPadFiller(padFiller)
    ensures r >= 0
  {
    var totalDuration := PadBase(unpadded, effectiveChapters, padFiller);
    PadTarget(start + totalDuration, padFiller.padToNearestMinute.value) - totalDuration - start
  }

  /**
   * Padding ends the block no later than the padded end, and exactly on it
   * for a pre-roll or post-roll pad with a fallback item ready.
   */
  lemma {:induction false} PadFilledEnds(guideGroup: int, enumerators: Enumerators, item: ScheduleItem, playoutItem: PlayoutItem,
                      effectiveChapters: seq<Chapter>, padFiller: FillerPreset, unpadded: seq<PlayoutItem>)
    requires HasEnumerators(item, enumerators) && padFiller.collection in enumerators && IsPadFiller(padFiller)
    ensures PadEnds(PadFilled(guideGroup, enumerators, item, playoutItem, effectiveChapters, padFiller, unpadded).items,
                    playoutItem.start,
                    PadTarget(playoutItem.start + PadBase(unpadded, effectiveChapters, padFiller),
                              padFiller.padToNearestMinute.value),
                    padFiller.kind, FallbackReady(item, enumerators, [padFiller]))
  {
    if padFiller.kind == PreRoll {
      PadFilledEndsPre(guideGroup, enumerators, item, playoutItem, effectiveChapters, padFiller, unpadded);
    } else if padFiller.kind == MidRoll {
      PadFilledEndsMid(guideGroup, enumerators, item, playoutItem, effectiveChapters, padFiller, unpadded);
    } else if padFiller.kind == PostRoll {
      PadFilledEndsPost(guideGroup, enumerators, item, playoutItem, effectiveChapters, padFiller, unpadded);
    }
  }

  /** Outside a mid-roll pad, what is left to fill runs from the end of the items to the padded end. */
  lemma {:induction false} PadRemainingOutsideMidRoll(start: int, unpadded: seq<PlayoutItem>,
                                                     effectiveChapters: seq<Chapter>, padFiller: FillerPreset)
    requires IsPadFiller(padFiller) && padFiller.kind != MidRoll
    ensures PadBase(unpadded, effectiveChapters, padFiller) == SumSpans(unpadded)
    ensures PadRemaining(start, unpadded, effectiveChapters, padFiller)
            == PadTarget(start + SumSpans(unpadded), padFiller.padToNearestMinute.value) - SumSpans(unpadded) - start
  {
  }

  /**
   * A pre- or post-roll pad whose filler and top-up fit what was left to
   * fill ends the block no later than the padded end, and on it when the
   * fallback item was ready.
   */
  lemma {:induction false} PadEndsOfFallback(result: seq<PlayoutItem>, start: int, target: int, kind: FillerKind,
                                            fallbackReady: bool, unpadded: seq<PlayoutItem>, p: Padding,
                                            remainingToFill: int)
    requires kind == PreRoll || kind == PostRoll
    requires kind == PreRoll ==> result == p.top + p.filler + unpadded
    requires kind == PostRoll ==> result == unpadded + p.filler + p.top
    requires PadFits(p, kind, remainingToFill, fallbackReady)
    requires remainingToFill == target - SumSpans(unpadded) - start && remainingToFill >= 0
    ensures PadEnds(result, start, target, kind, fallbackReady)
  {
    if kind == PreRoll {
      SumSpansAppend(p.top, p.filler);
      SumSpansAppend(p.top + p.filler, unpadded);
    } else {
      SumSpansAppend(unpadded, p.filler);
      SumSpansAppend(unpadded + p.filler, p.top);
    }
  }

  /**
   * A mid-roll pad whose breaks and chapters fit the chapters plus what was
   * left to fill ends the block no later than the padded end.
   */
  lemma {:induction false} PadEndsOfMidRoll(result: seq<PlayoutItem>, start: int, target: int, fallbackReady: bool,
                                           unpadded: seq<PlayoutItem>, added: seq<PlayoutItem>, chapterSpans: int,
                                           remainingToFill: int)
    requires result == unpadded + added
    requires SumSpans(added) <= chapterSpans + Max(remainingToFill, 0)
    requires remainingToFill == target - SumSpans(unpadded) - chapterSpans - start && remainingToFill >= 0
    ensures PadEnds(result, start, target, MidRoll, fallbackReady)
  {
    SumSpansAppend(unpadded, added);
  }

  lemma {:induction false} PadFilledEndsPre(guideGroup: int, enumerators: Enumerators, item: ScheduleItem, playoutItem: PlayoutItem,
                      effectiveChapters: seq<Chapter>, padFiller: FillerPreset, unpadded: seq<PlayoutItem>)
    requires HasEnumerators(item, enumerators) && padFiller.collection in enumerators && IsPadFiller(padFiller)
    requires padFiller.kind == PreRoll
    ensures PadEnds(PadFilled(guideGroup, enumerators, item, playoutItem, effectiveChapters, padFiller, unpadded).items,
                    playoutItem.start,
                    PadTarget(playoutItem.start + PadBase(unpadded, effectiveChapters, padFiller),
                              padFiller.padToNearestMinute.value),
                    padFiller.kind, FallbackReady(item, enumerators, [padFiller]))
  {
    var remainingToFill := PadRemaining(playoutItem.start, unpadded, effectiveChapters, padFiller);
    var result := PadFilled(guideGroup, enumerators, item, playoutItem, effectiveChapters, padFiller, unpadded).items;
    var p := PadFallback(guideGroup, enumerators, item, padFiller, PreRoll, remainingToFill);
    PadFallbackFits(guideGroup, enumerators, item, padFiller, PreRoll, remainingToFill);
    PadRemainingOutsideMidRoll(playoutItem.start, unpadded, effectiveChapters, padFiller);
    PadEndsOfFallback(result, playoutItem.start,
                      PadTarget(playoutItem.start + PadBase(unpadded, effectiveChapters, padFiller),
                                padFiller.padToNearestMinute.value),
                      PreRoll, FallbackReady(item, enumerators, [padFiller]), unpadded, p, remainingToFill);
  }

  lemma {:induction false} PadFilledEndsMid(guideGroup: int, enumerators: Enumerators, item: ScheduleItem, playoutItem: PlayoutItem,
                      effectiveChapters: seq<Chapter>, padFiller: FillerPreset, unpadded: seq<PlayoutItem>)
    requires HasEnumerators(item, enumerators) && padFiller.collection in enumerators && IsPadFiller(padFiller)
    requires padFiller.kind == MidRoll
    ensures PadEnds(PadFilled(guideGroup, enumerators, item, playoutItem, effectiveChapters, padFiller, unpadded).items,
                    playoutItem.start,
                    PadTarget(playoutItem.start + PadBase(unpadded, effectiveChapters, padFiller),
                              padFiller.padToNearestMinute.value),
                    padFiller.kind, FallbackReady(item, enumerators, [padFiller]))
  {
    var remainingToFill := PadRemaining(playoutItem.start, unpadded, effectiveChapters, padFiller);
    var result := PadFilled(guideGroup, enumerators, item, playoutItem, effectiveChapters, padFiller, unpadded).items;
    var m := MidRollPad(guideGroup, enumerators, item, playoutItem, effectiveChapters, padFiller, remainingToFill);
    MidRollPadFits(guideGroup, enumerators, item, playoutItem, effectiveChapters, padFiller, remainingToFill);
    PadEndsOfMidRoll(result, playoutItem.start,
                     PadTarget(playoutItem.start + PadBase(unpadded, effectiveChapters, padFiller),
                               padFiller.padToNearestMinute.value),
                     FallbackReady(item, enumerators, [padFiller]), unpadded, m.items,
                     PadBase(unpadded, effectiveChapters, padFiller) - SumSpans(unpadded), remainingToFill);
  }

  lemma {:induction false} PadFilledEndsPost(guideGroup: int, enumerators: Enumerators, item: ScheduleItem, playoutItem: PlayoutItem,
                      effectiveChapters: seq<Chapter>, padFiller: FillerPreset, unpadded: seq<PlayoutItem>)
    requires HasEnumerators(item, enumerators) && padFiller.collection in enumerators && IsPadFiller(padFiller)
    requires padFiller.kind == PostRoll
    ensures PadEnds(PadFilled(guideGroup, enumerators, item, playoutItem, effectiveChapters, padFiller, unpadded).items,
                    playoutItem.start,
                    PadTarget(playoutItem.start + PadBase(unpadded, effectiveChapters, padFiller),
                              padFiller.padToNearestMinute.value),
                    padFiller.kind, FallbackReady(item, enumerators, [padFiller]))
  {
    var remainingToFill := PadRemaining(playoutItem.start, unpadded, effectiveChapters, padFiller);
    var result := PadFilled(guideGroup, enumerators, item, playoutItem, effectiveChapters, padFiller, unpadded).items;
    var p := PadFallback(guideGroup, enumerators, item, padFiller, PostRoll, remainingToFill);
    PadFallbackFits(guideGroup, enumerators, item, padFiller, PostRoll, remainingToFill);
    PadRemainingOutsideMidRoll(playoutItem.start, unpadded, effectiveChapters, padFiller);
    PadEndsOfFallback(result, playoutItem.start,
                      PadTarget(playoutItem.start + PadBase(unpadded, effectiveChapters, padFiller),
                                padFiller.padToNearestMinute.value),
                      PostRoll, FallbackReady(item, enumerators, [padFiller]), unpadded, p, remainingToFill);
  }

  /**
   * Padding keeps the unpadded items: at the end for a pre-roll pad, at
   * the start otherwise, and alone when the preset is of no roll kind.
   */
  lemma {:induction false} PadFilledKeeps(guideGroup: int, enumerators: Enumerators, item: ScheduleItem, playoutItem: PlayoutItem,
                       effectiveChapters: seq<Chapter>, padFiller: FillerPreset, unpadded: seq<PlayoutItem>)
    requires HasEnumerators(item, enumerators) && padFiller.collection in enumerators && IsPadFiller(padFiller)
    ensures var result := PadFilled(guideGroup, enumerators, item, playoutItem, effectiveChapters, padFiller,
                                    unpadded).items;
      (padFiller.kind !in {PreRoll, MidRoll, PostRoll} ==> result == unpadded)
      && (padFiller.kind != PreRoll ==> |unpadded| <= |result| && result[..|unpadded|] == unpadded)
      && (padFiller.kind == PreRoll ==> |unpadded| <= |result| && result[|result| - |unpadded|..] == unpadded)
  {
  }

  /** The chapters a block is cut at: none unless a mid-roll preset is configured and there are two or more. */
  function EffectiveChapters(item: ScheduleItem, chapters: seq<Chapter>): (r: seq<Chapter>)
    ensures r == [] || r == chapters
    ensures r != [] <==> |chapters| > 1 && exists f :: f in AllFiller(item) && f.kind == MidRoll
  {
    if (forall f :: f in AllFiller(item) ==> f.kind != MidRoll) || |chapters| <= 1 then [] else chapters
  }

  /** The chapter breaks of every mid-roll preset that does not pad, in preset order. */
  function MidRollBreaks(guideGroup: int, enumerators: Enumerators, fillers: seq<FillerPreset>,
                         playoutItem: PlayoutItem, chapters: seq<Chapter>): (r: Block)
    requires forall f :: f in fillers ==> f.collection in enumerators
    ensures r.next.Keys == enumerators.Keys
    ensures UntouchedOutside(r.next, enumerators, fillers)
    decreases |fillers|
  {
    if fillers == [] then Block([], enumerators)
    else
      var front := MidRollBreaks(guideGroup, enumerators, fillers[..|fillers| - 1], playoutItem, chapters);
      var f := fillers[|fillers| - 1];
      if f.kind == MidRoll && f.mode != Pad then
        var b := ChapterBreaks(guideGroup, front.next, f, playoutItem, chapters);
        Block(front.items + b.items, b.next)
      else front
  }

  /**
   * The block of one item before padding: its pre-roll blocks, the item
   * itself or its chapters with mid-roll breaks, then its post-roll blocks.
   */
  function Unpadded(guideGroup: int, enumerators: Enumerators, allFiller: seq<FillerPreset>,
                    playoutItem: PlayoutItem, effectiveChapters: seq<Chapter>): (r: Block)
    requires forall f :: f in allFiller ==> f.collection in enumerators
    ensures r.next.Keys == enumerators.Keys
    ensures UntouchedOutside(r.next, enumerators, allFiller)
  {
    var pre := RollBlocks(guideGroup, enumerators, allFiller, PreRoll);
    var middle := if |effectiveChapters| > 1 then MidRollBreaks(guideGroup, pre.next, allFiller, playoutItem, effectiveChapters)
                  else Block([playoutItem], pre.next);
    var post := RollBlocks(guideGroup, middle.next, allFiller, PostRoll);
    Block(pre.items + middle.items + post.items, post.next)
  }

  /** The middle of a block cut at its chapters: one pass per mid-roll preset that does not pad. */
  method AddMidRollBreaks(guideGroup: int, enumerators: Enumerators, fillers: seq<FillerPreset>,
                          playoutItem: PlayoutItem, chapters: seq<Chapter>)
    returns (items: seq<PlayoutItem>, next: Enumerators)
    requires forall f :: f in fillers ==> f.collection in enumerators
    ensures Block(items, next) == MidRollBreaks(guideGroup, enumerators, fillers, playoutItem, chapters)
    ensures UntouchedOutside(next, enumerators, fillers)
    ensures forall i :: 0 <= i < |items| ==> items[i] in ChapterItems(playoutItem, chapters) || items[i].fillerKind == MidRoll
  {
    items := [];
    next := enumerators;
    for i := 0 to |fillers|
      invariant Block(items, next) == MidRollBreaks(guideGroup, enumerators, fillers[..i], playoutItem, chapters)
      invariant UntouchedOutside(next, enumerators, fillers[..i])
      invariant forall j :: 0 <= j < |items| ==> items[j] in ChapterItems(playoutItem, chapters) || items[j].fillerKind == MidRoll
    {
      var filler := fillers[i];
      assert fillers[..i + 1][..i] == fillers[..i];
      if filler.kind == MidRoll && filler.mode != Pad {
        var added, after := AddChapterBreaks(guideGroup, next, filler, playoutItem, chapters);
        items := items + added;
        next := after;
      }
      assert forall f :: f in fillers[..i + 1] <==> f in fillers[..i] || f == filler;
    }
    assert fillers[..|fillers|] == fillers;
  }

  /** The unpadded block of a scheduled item, cut at its effective chapters. */
  function ItemUnpadded(guideGroup: int, enumerators: Enumerators, item: ScheduleItem, playoutItem: PlayoutItem,
                        chapters: seq<Chapter>): (r: Block)
    requires HasEnumerators(item, enumerators)
    ensures UntouchedOutside(r.next, enumerators, AllFiller(item))
  {
    FillerKeysPresent(item, enumerators);
    Unpadded(guideGroup, enumerators, AllFiller(item), playoutItem, EffectiveChapters(item, chapters))
  }

  /**
   * The block of one scheduled item before re-timing: its unpadded block,
   * padded by its padding preset if it has one.
   */
  function UntimedBlock(guideGroup: int, enumerators: Enumerators, item: ScheduleItem, playoutItem: PlayoutItem,
                        chapters: seq<Chapter>): (r: Block)
    requires HasEnumerators(item, enumerators)
    ensures r.next.Keys == enumerators.Keys
  {
    var unpadded := ItemUnpadded(guideGroup, enumerators, item, playoutItem, chapters);
    match FirstPadFiller(AllFiller(item))
    case Some(padFiller) =>
      PadFilled(guideGroup, unpadded.next, item, playoutItem, EffectiveChapters(item, chapters),
                padFiller, unpadded.items)
    case None => unpadded
  }

  /**
   * The block of one scheduled item: the item alone when more than one
   * padding preset is configured; otherwise its untimed block re-timed back
   * to back from its start.
   */
  function FillerBlock(guideGroup: int, enumerators: Enumerators, item: ScheduleItem, playoutItem: PlayoutItem,
                       chapters: seq<Chapter>): (r: Block)
    requires HasEnumerators(item, enumerators)
    ensures r.next.Keys == enumerators.Keys
  {
    if CountPadFillers(AllFiller(item)) > 1 then Block([playoutItem], enumerators)
    else
      var untimed := UntimedBlock(guideGroup, enumerators, item, playoutItem, chapters);
      Block(Retimed(untimed.items, playoutItem.start), untimed.next)
  }

  /** With at most one padding preset the block plays back to back from the item's start. */
  lemma {:induction false} FillerBlockContiguous(guideGroup: int, enumerators: Enumerators, item: ScheduleItem,
                              playoutItem: PlayoutItem, chapters: seq<Chapter>)
    requires HasEnumerators(item, enumerators)
    ensures var r := FillerBlock(guideGroup, enumerators, item, playoutItem, chapters).items;
      CountPadFillers(AllFiller(item)) <= 1 ==>
        Contiguous(r)
        && (|r| > 0 ==> r[0].start == playoutItem.start && r[|r| - 1].finish == playoutItem.start + SumSpans(r))
  {
    if CountPadFillers(AllFiller(item)) <= 1 {
      RetimedBackToBack(UntimedBlock(guideGroup, enumerators, item, playoutItem, chapters).items, playoutItem.start);
    }
  }

  /** Re-timed items play back to back from `start` and end after their own total length. */
  lemma {:induction false} RetimedBackToBack(items: seq<PlayoutItem>, start: int)
    ensures var r := Retimed(items, start);
      Contiguous(r) && (|r| > 0 ==> r[0].start == start && r[|r| - 1].finish == start + SumSpans(r))
  {
    RetimedFacts(items, start);
  }

  /** Without a padding preset the block is the unpadded block, only re-timed. */
  lemma {:induction false} FillerBlockUnpadded(guideGroup: int, enumerators: Enumerators, item: ScheduleItem,
                            playoutItem: PlayoutItem, chapters: seq<Chapter>)
    requires HasEnumerators(item, enumerators)
    ensures var r := FillerBlock(guideGroup, enumerators, item, playoutItem, chapters).items;
      var unpadded := ItemUnpadded(guideGroup, enumerators, item, playoutItem, chapters).items;
      CountPadFillers(AllFiller(item)) == 0 ==>
        |r| == |unpadded| && forall i :: 0 <= i < |r| ==> SameItem(r[i], unpadded[i])
  {
    if CountPadFillers(AllFiller(item)) == 0 {
      RetimedFacts(ItemUnpadded(guideGroup, enumerators, item, playoutItem, chapters).items, playoutItem.start);
    }
  }

  /** Padding an item's unpadded block, whose drawing left the fallback's enumerator alone. */
  lemma {:induction false} PadUnpaddedRetimed(guideGroup: int, enumerators: Enumerators, item: ScheduleItem, playoutItem: PlayoutItem,
                           effectiveChapters: seq<Chapter>, padFiller: FillerPreset, unpadded: Block,
                           result: seq<PlayoutItem>)
    requires HasEnumerators(item, enumerators) && UntouchedOutside(unpadded.next, enumerators, AllFiller(item))
    requires padFiller in AllFiller(item) && IsPadFiller(padFiller)
    requires result == Retimed(PadFilled(guideGroup, unpadded.next, item, playoutItem, effectiveChapters,
                                         padFiller, unpadded.items).items, playoutItem.start)
    ensures PadEnds(result, playoutItem.start,
              PadTarget(playoutItem.start + PadBase(unpadded.items, effectiveChapters, padFiller),
                        padFiller.padToNearestMinute.value),
              padFiller.kind, FallbackReady(item, enumerators, AllFiller(item)))
      && KeepsBlock(result, unpadded.items, padFiller.kind == PreRoll)
  {
    var next := unpadded.next;
    var ready := FallbackReady(item, enumerators, AllFiller(item));
    FillerKeysPresent(item, enumerators);
    assert padFiller.collection in next;
    SameKeysHaveEnumerators(item, enumerators, next);
    FallbackStillReady(item, enumerators, next, AllFiller(item), padFiller);
    PadFilledRetimed(guideGroup, next, item, playoutItem, effectiveChapters, padFiller, unpadded.items, ready);
    var target := PadTarget(playoutItem.start + PadBase(unpadded.items, effectiveChapters, padFiller),
                            padFiller.padToNearestMinute.value);
    assert PadEnds(result, playoutItem.start, target, padFiller.kind, ready);
    assert KeepsBlock(result, unpadded.items, padFiller.kind == PreRoll);
  }

  lemma {:induction false} SameKeysHaveEnumerators(item: ScheduleItem, enumerators: Enumerators, next: Enumerators)
    requires HasEnumerators(item, enumerators) && next.Keys == enumerators.Keys
    ensures HasEnumerators(item, next)
  {
  }

  /** With one padding preset the block is the unpadded block padded by it, re-timed. */
  lemma {:induction false} FillerBlockOnePad(guideGroup: int, enumerators: Enumerators, item: ScheduleItem,
                          playoutItem: PlayoutItem, chapters: seq<Chapter>, padFiller: FillerPreset)
    requires HasEnumerators(item, enumerators)
    requires CountPadFillers(AllFiller(item)) == 1 && FirstPadFiller(AllFiller(item)) == Some(padFiller)
    ensures var unpadded := ItemUnpadded(guideGroup, enumerators, item, playoutItem, chapters);
      FillerBlock(guideGroup, enumerators, item, playoutItem, chapters).items
        == Retimed(PadFilled(guideGroup, unpadded.next, item, playoutItem, EffectiveChapters(item, chapters),
                             padFiller, unpadded.items).items, playoutItem.start)
  {
  }

  /** The padded block, re-timed from the item's start, ends as the padding allows and keeps the unpadded items. */
  lemma {:induction false} PadFilledRetimed(guideGroup: int, enumerators: Enumerators, item: ScheduleItem, playoutItem: PlayoutItem,
                         effectiveChapters: seq<Chapter>, padFiller: FillerPreset, unpadded: seq<PlayoutItem>,
                         ready: bool)
    requires HasEnumerators(item, enumerators) && padFiller.collection in enumerators && IsPadFiller(padFiller)
    requires ready ==> FallbackReady(item, enumerators, [padFiller])
    ensures var result := Retimed(PadFilled(guideGroup, enumerators, item, playoutItem, effectiveChapters, padFiller,
                                            unpadded).items, playoutItem.start);
      PadEnds(result, playoutItem.start,
              PadTarget(playoutItem.start + PadBase(unpadded, effectiveChapters, padFiller),
                        padFiller.padToNearestMinute.value),
              padFiller.kind, ready)
      && KeepsBlock(result, unpadded, padFiller.kind == PreRoll)
  {
    var padded := PadFilled(guideGroup, enumerators, item, playoutItem, effectiveChapters, padFiller, unpadded).items;
    PadFilledEnds(guideGroup, enumerators, item, playoutItem, effectiveChapters, padFiller, unpadded);
    PadFilledKeeps(guideGroup, enumerators, item, playoutItem, effectiveChapters, padFiller, unpadded);
    RetimedSpans(padded, playoutItem.start);
    PaddedRetimed(padded, unpadded, playoutItem.start, padFiller.kind == PreRoll);
    PadEndsWeaken(padded, Retimed(padded, playoutItem.start), playoutItem.start,
                  PadTarget(playoutItem.start + PadBase(unpadded, effectiveChapters, padFiller),
                            padFiller.padToNearestMinute.value),
                  padFiller.kind, FallbackReady(item, enumerators, [padFiller]), ready);
  }

  lemma {:induction false} PadEndsWeaken(a: seq<PlayoutItem>, b: seq<PlayoutItem>, start: int, target: int, kind: FillerKind,
                      readyA: bool, readyB: bool)
    requires PadEnds(a, start, target, kind, readyA) && SumSpans(b) == SumSpans(a) && (readyB ==> readyA)
    ensures PadEnds(b, start, target, kind, readyB)
  {
  }

  /** Re-timing a padded block keeps which unpadded items it keeps where. */
  lemma {:induction false} PaddedRetimed(padded: seq<PlayoutItem>, block: seq<PlayoutItem>, start: int, atEnd: bool)
    requires !atEnd ==> |block| <= |padded| && padded[..|block|] == block
    requires atEnd ==> |block| <= |padded| && padded[|padded| - |block|..] == block
    ensures KeepsBlock(Retimed(padded, start), block, atEnd)
  {
    var result := Retimed(padded, start);
    if atEnd {
      forall i | 0 <= i < |block|
        ensures SameItem(result[|result| - |block| + i], block[i])
      {
        assert padded[|padded| - |block|..][i] == block[i];
      }
    } else {
      forall i | 0 <= i < |block|
        ensures SameItem(result[i], block[i])
      {
        assert padded[..|block|][i] == block[i];
      }
    }
  }

  /**
   * The block of one scheduled item: pre-roll filler, the item (or its
   * chapters with mid-roll breaks), post-roll filler, then padding, all
   * re-timed back to back from the item's start.
   */
  method AddFiller(state: BuilderState, enumerators: Enumerators, item: ScheduleItem, playoutItem: PlayoutItem,
                   chapters: seq<Chapter>)
    returns (result: seq<PlayoutItem>, next: Enumerators)
    requires HasEnumerators(item, enumerators)
    ensures Block(result, next) == FillerBlock(state.nextGuideGroup, enumerators, item, playoutItem, chapters)
  {
    var allFiller := AllFiller(item);
    FillerKeysPresent(item, enumerators);
    if CountPadFillers(allFiller) > 1 {
      return [playoutItem], enumerators;
    }
    var guideGroup := state.nextGuideGroup;
    var effectiveChapters := EffectiveChapters(item, chapters);
    var block, afterBlock := AddUnpadded(guideGroup, enumerators, allFiller, playoutItem, effectiveChapters);
    match FirstPadFiller(allFiller) {
      case Some(padFiller) =>
        result, next := PadAndRetime(guideGroup, afterBlock, item, playoutItem, effectiveChapters, padFiller, block);
      case None =>
        next := afterBlock;
        result := Retime(block, playoutItem.start);
    }
  }

  /**
   * A padded block ends no later than the padded end, and exactly on it
   * when pre- or post-roll padding has a fallback item to make up the rest.
   */
  predicate PadEnds(result: seq<PlayoutItem>, start: int, target: int, kind: FillerKind, fallbackReady: bool)
  {
    (kind in {PreRoll, MidRoll, PostRoll} ==> SumSpans(result) <= target - start)
    && (kind in {PreRoll, PostRoll} && fallbackReady ==> SumSpans(result) == target - start)
  }

  /** Filler presets leave the fallback preset's enumerator where it was. */
  lemma {:induction false} FallbackStillReady(item: ScheduleItem, enumerators: Enumerators, next: Enumerators,
                           fillers: seq<FillerPreset>, padFiller: FillerPreset)
    requires UntouchedOutside(next, enumerators, fillers) && padFiller in fillers
    ensures FallbackReady(item, enumerators, fillers) ==> FallbackReady(item, next, [padFiller])
  {
    if FallbackReady(item, enumerators, fillers) {
      var key := item.fallback.value.collection;
      assert next[key] == enumerators[key];
    }
  }

  /**
   * The padded block keeps the unpadded items, in order and re-timed only:
   * at its end when the padding comes first, at its start otherwise.
   */
  predicate KeepsBlock(result: seq<PlayoutItem>, block: seq<PlayoutItem>, atEnd: bool)
  {
    |block| <= |result|
    && (!atEnd ==> forall i :: 0 <= i < |block| ==> SameItem(result[i], block[i]))
    && (atEnd ==> forall i :: 0 <= i < |block| ==> SameItem(result[|result| - |block| + i], block[i]))
  }

  /** AddPadFiller followed by the re-timing pass. */
  method PadAndRetime(guideGroup: int, enumerators: Enumerators, item: ScheduleItem, playoutItem: PlayoutItem,
                      effectiveChapters: seq<Chapter>, padFiller: FillerPreset, block: seq<PlayoutItem>)
    returns (result: seq<PlayoutItem>, next: Enumerators)
    requires HasEnumerators(item, enumerators) && padFiller.collection in enumerators && IsPadFiller(padFiller)
    ensures var padded := PadFilled(guideGroup, enumerators, item, playoutItem, effectiveChapters, padFiller, block);
      result == Retimed(padded.items, playoutItem.start) && next == padded.next
  {
    var padded;
    padded, next := AddPadFiller(guideGroup, enumerators, item, playoutItem, effectiveChapters, padFiller, block);
    result := Retime(padded, playoutItem.start);
  }

  /** Pre-roll filler, the item or its chapters with mid-roll breaks, then post-roll filler. */
  method AddUnpadded(guideGroup: int, enumerators: Enumerators, allFiller: seq<FillerPreset>,
                     playoutItem: PlayoutItem, effectiveChapters: seq<Chapter>)
    returns (block: seq<PlayoutItem>, next: Enumerators)
    requires forall f :: f in allFiller ==> f.collection in enumerators
    ensures Block(block, next) == Unpadded(guideGroup, enumerators, allFiller, playoutItem, effectiveChapters)
    ensures UntouchedOutside(next, enumerators, allFiller)
    ensures forall i :: 0 <= i < |block| ==>
      block[i].fillerKind in {PreRoll, MidRoll, PostRoll} || block[i] == playoutItem
      || block[i] in ChapterItems(playoutItem, effectiveChapters)
    ensures |effectiveChapters| <= 1 ==> playoutItem in block
  {
    var pre, afterPre := AddRollFillers(guideGroup, enumerators, allFiller, PreRoll);
    var middle := [playoutItem];
    var afterMiddle := afterPre;
    if |effectiveChapters| > 1 {
      middle, afterMiddle := AddMidRollBreaks(guideGroup, afterPre, allFiller, playoutItem, effectiveChapters);
    }
    var post, afterPost := AddRollFillers(guideGroup, afterMiddle, allFiller, PostRoll);
    block := pre + middle + post;
    next := afterPost;
    BlockParts(pre, middle, post, playoutItem, effectiveChapters);
    assert |effectiveChapters| <= 1 ==> block[|pre|] == playoutItem;
  }

  lemma {:induction false} BlockParts(pre: seq<PlayoutItem>, middle: seq<PlayoutItem>, post: seq<PlayoutItem>,
                   playoutItem: PlayoutItem, chapters: seq<Chapter>)
    requires forall i :: 0 <= i < |pre| ==> pre[i].fillerKind == PreRoll
    requires forall i :: 0 <= i < |middle| ==>
      middle[i] == playoutItem || middle[i] in ChapterItems(playoutItem, chapters) || middle[i].fillerKind == MidRoll
    requires forall i :: 0 <= i < |post| ==> post[i].fillerKind == PostRoll
    ensures var block := pre + middle + post;
      forall i :: 0 <= i < |block| ==>
        block[i].fillerKind in {PreRoll, MidRoll, PostRoll} || block[i] == playoutItem
        || block[i] in ChapterItems(playoutItem, chapters)
  {
    var block := pre + middle + post;
    forall i | 0 <= i < |block|
      ensures block[i].fillerKind in {PreRoll, MidRoll, PostRoll} || block[i] == playoutItem
              || block[i] in ChapterItems(playoutItem, chapters)
    {
      if i < |pre| {
        assert block[i] == pre[i];
      } else if i < |pre| + |middle| {
        assert block[i] == middle[i - |pre|];
      } else {
        assert block[i] == post[i - |pre| - |middle|];
      }
    }
  }
}
