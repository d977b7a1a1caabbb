/**
 * The scheduling engine behind sequential schedules: a state object that
 * keeps the current time, the guide group (a counter from 1 to 1000 that
 * can be locked) and what a build adds or removes, and an engine that
 * registers content enumerators by key and plays items from them.
 * Instants are local ticks.
 */
module SchedulingEngine {
  import opened Common
  import opened PlayoutTypes

  // ---------------------------------------------------------------------
  // Guide groups
  // ---------------------------------------------------------------------

  /** Guide groups count up to this value and then start again at 1. */
  const MaxGuideGroup: int := 1000

  /** The group that follows `g`. */
  function NextGroup(g: int): (r: int)
    ensures r <= MaxGuideGroup && (g >= 0 ==> r >= 1)
    ensures g < MaxGuideGroup ==> r == g + 1
  {
    if g + 1 > MaxGuideGroup then 1 else g + 1
  }

  /** The group reached from `g` after `k` advances. */
  function Advanced(g: int, k: nat): int
  {
    if k == 0 then g else NextGroup(Advanced(g, k - 1))
  }

  /** Advancing counts modulo 1000 through 1..1000, from any starting group in 0..1000. */
  lemma {:induction false} AdvancedClosedForm(g: int, k: nat)
    requires 0 <= g <= MaxGuideGroup
    requires g >= 1 || k >= 1
    ensures Advanced(g, k) == (g + k - 1) % MaxGuideGroup + 1
  {
    if k == 0 {
    } else if k == 1 {
      if g == MaxGuideGroup {
        assert (g + k - 1) % MaxGuideGroup == 0;
      }
    } else {
      AdvancedClosedForm(g, k - 1);
      var x := (g + k - 2) % MaxGuideGroup;
      assert Advanced(g, k) == NextGroup(x + 1);
      if x + 1 == MaxGuideGroup {
        assert (g + k - 1) % MaxGuideGroup == 0;
      } else {
        assert (g + k - 1) % MaxGuideGroup == x + 1;
      }
    }
  }

  /** A thousand advances come back to the same group. */
  lemma {:induction false} GuideGroupCycle(g: int)
    requires 1 <= g <= MaxGuideGroup
    ensures Advanced(g, MaxGuideGroup) == g
  {
    AdvancedClosedForm(g, MaxGuideGroup);
    assert (g + MaxGuideGroup - 1) % MaxGuideGroup == g - 1;
  }

  /** The group used after `k` advances, which a lock holds still. */
  function GroupAfter(g: int, locked: bool, k: nat): int
  {
    if locked then g else Advanced(g, k)
  }

  /** The guide-group part of a saved context; either field may be absent. */
  datatype SerializedState = SerializedState(guideGroup: Option<int>, guideGroupLocked: Option<bool>)

  // ---------------------------------------------------------------------
  // Engine state
  // ---------------------------------------------------------------------

  class EngineState {
    var guideGroup: int
    var guideGroupLocked: bool
    var playoutId: int
    var mode: BuildMode
    var seed: int
    var start: int
    var finish: int
    var currentTime: int
    var removeBefore: Option<int>
    var clearItems: bool
    var addedItems: seq<PlayoutItem>
    var historyToRemove: set<int>
    var addedHistory: seq<History>

    constructor (guideGroup: int)
      ensures this.guideGroup == guideGroup && !guideGroupLocked
      ensures removeBefore == None && !clearItems
      ensures addedItems == [] && historyToRemove == {} && addedHistory == []
    {
      this.guideGroup := guideGroup;
      guideGroupLocked := false;
      playoutId := 0;
      mode := Continue;
      seed := 0;
      start := 0;
      finish := 0;
      currentTime := 0;
      removeBefore := None;
      clearItems := false;
      addedItems := [];
      historyToRemove := {};
      addedHistory := [];
    }

    /** The group the next item gets: the current one while locked, else the one after it. */
    function PeekNextGuideGroup(): (r: int)
      reads this
      ensures r == if guideGroupLocked then guideGroup else NextGroup(guideGroup)
      ensures !guideGroupLocked && guideGroup >= 0 ==> 1 <= r <= MaxGuideGroup
    {
      if guideGroupLocked then guideGroup
      else
        var result := guideGroup + 1;
        if result > MaxGuideGroup then 1 else result
    }

    /** Moves to the group Peek announced; nothing happens while locked. */
    method AdvanceGuideGroup()
      modifies this`guideGroup
      ensures guideGroup == old(PeekNextGuideGroup())
    {
      if guideGroupLocked {
        return;
      }
      guideGroup := guideGroup + 1;
      if guideGroup > MaxGuideGroup {
        guideGroup := 1;
      }
    }

    method LockGuideGroup(advance: bool)
      modifies this`guideGroup, this`guideGroupLocked
      ensures guideGroupLocked
      ensures guideGroup == if advance then old(PeekNextGuideGroup()) else old(guideGroup)
    {
      if advance {
        AdvanceGuideGroup();
      }
      guideGroupLocked := true;
    }

    method UnlockGuideGroup()
      modifies this`guideGroupLocked
      ensures !guideGroupLocked
    {
      guideGroupLocked := false;
    }

    /** The saved context: the guide group and its lock, both present. */
    function SerializeContext(): (r: SerializedState)
      reads this
      ensures r.guideGroup.Some? && r.guideGroupLocked.Some?
      ensures Restored(0, false, r) == (guideGroup, guideGroupLocked)
    {
      SerializedState(Some(guideGroup), Some(guideGroupLocked))
    }

    /** Takes each field the saved context holds. */
    method LoadContext(s: SerializedState)
      modifies this`guideGroup, this`guideGroupLocked
      ensures (guideGroup, guideGroupLocked) == Restored(old(guideGroup), old(guideGroupLocked), s)
    {
      if s.guideGroup.Some? {
        guideGroup := s.guideGroup.value;
      }
      if s.guideGroupLocked.Some? {
        guideGroupLocked := s.guideGroupLocked.value;
      }
    }
  }

  /** The guide group and lock after loading `s` over (`g`, `locked`): absent fields keep their value. */
  function Restored(g: int, locked: bool, s: SerializedState): (r: (int, bool))
    ensures s.guideGroup.None? ==> r.0 == g
    ensures s.guideGroupLocked.None? ==> r.1 == locked
  {
    (s.guideGroup.GetOr(g), s.guideGroupLocked.GetOr(locked))
  }

  /** Loading a saved context restores the saved guide group and lock, whatever was there before. */
  lemma {:induction false} SerializeRoundTrip(g: int, locked: bool, g0: int, locked0: bool)
    ensures Restored(g0, locked0, SerializedState(Some(g), Some(locked))) == (g, locked)
  {
  }

  // ---------------------------------------------------------------------
  // Items and history
  // ---------------------------------------------------------------------

  datatype PlaybackOrder = NoOrder | Chronological | Shuffle | OtherOrder(name: string)

  /**
   * A registered enumerator: what it will yield from its current position,
   * the seed it was created with, the history key and the playback order.
   */
  datatype EnumeratorDetails = EnumeratorDetails(
    upcoming: Upcoming,
    seed: int,
    historyKey: string,
    order: PlaybackOrder)

  /** GetFillerKind: the requested kind, or none. */
  function KindOf(fillerKind: Option<FillerKind>): FillerKind
  {
    fillerKind.GetOr(NotFiller)
  }

  /** The `k`-th item AddCount creates from `ms`: back to back from `start`, each with the group after k+1 advances. */
  function CountItemAt(ms: seq<MediaItem>, k: nat, start: int, g: int, locked: bool, kind: FillerKind,
                       disableWatermarks: bool): (r: PlayoutItem)
    requires k < |ms|
    ensures r.start == start + SumDurations(ms[..k]) && Span(r) == ms[k].duration
    ensures r.inPoint == 0 && r.outPoint == ms[k].duration && r.mediaItemId == ms[k].id
  {
    var d := ms[k].duration;
    var s := start + SumDurations(ms[..k]);
    PlayoutItem(ms[k].id, s, s + d, 0, d, kind, GroupAfter(g, locked, k + 1), disableWatermarks)
  }

  /** The items AddCount creates from the media items it takes. */
  function CountItems(ms: seq<MediaItem>, start: int, g: int, locked: bool, kind: FillerKind,
                      disableWatermarks: bool): (r: seq<PlayoutItem>)
    ensures |r| == |ms|
    ensures forall k :: 0 <= k < |ms| ==> r[k] == CountItemAt(ms, k, start, g, locked, kind, disableWatermarks)
  {
    seq(|ms|, k requires 0 <= k < |ms| => CountItemAt(ms, k, start, g, locked, kind, disableWatermarks))
  }

  lemma {:induction false} CountItemsSnoc(ms: seq<MediaItem>, m: MediaItem, start: int, g: int, locked: bool, kind: FillerKind,
                       disableWatermarks: bool)
    ensures CountItems(ms + [m], start, g, locked, kind, disableWatermarks)
            == CountItems(ms, start, g, locked, kind, disableWatermarks)
               + [CountItemAt(ms + [m], |ms|, start, g, locked, kind, disableWatermarks)]
  {
    forall k | 0 <= k < |ms|
      ensures CountItemAt(ms + [m], k, start, g, locked, kind, disableWatermarks)
              == CountItemAt(ms, k, start, g, locked, kind, disableWatermarks)
    {
      assert (ms + [m])[..k] == ms[..k];
    }
  }

  /** One round of AddCount: the next media item extends the items, the history and the elapsed time by one. */
  lemma {:induction false} CountStep(up: seq<MediaItem>, j: nat, start: int, g: int, locked: bool, kind: FillerKind,
                  disableWatermarks: bool, historyKey: string)
    requires j < |up|
    ensures var before := CountItems(up[..j], start, g, locked, kind, disableWatermarks);
            var s := start + SumDurations(up[..j]);
            var item := PlayoutItem(up[j].id, s, s + up[j].duration, 0, up[j].duration, kind,
                                    GroupAfter(g, locked, j + 1), disableWatermarks);
            CountItems(up[..j + 1], start, g, locked, kind, disableWatermarks) == before + [item]
            && HistoryFor(before + [item], historyKey)
               == HistoryFor(before, historyKey) + [History(0, historyKey, item.start, item.finish)]
            && SumDurations(up[..j + 1]) == SumDurations(up[..j]) + up[j].duration
  {
    SumDurationsPrefix(up, j);
    assert up[..j + 1][..j] == up[..j];
    assert up[..j + 1] == up[..j] + [up[j]];
    CountItemsSnoc(up[..j], up[j], start, g, locked, kind, disableWatermarks);
  }

  /** AddCount's loop after `j` media items: the items, history records and time they account for. */
  predicate Counted(up: seq<MediaItem>, j: nat, start: int, g: int, locked: bool, kind: FillerKind,
                    disableWatermarks: bool, historyKey: string, items0: seq<PlayoutItem>, records0: seq<History>,
                    items: seq<PlayoutItem>, records: seq<History>, time: int)
  {
    j <= |up|
    && time == start + SumDurations(up[..j])
    && items == items0 + CountItems(up[..j], start, g, locked, kind, disableWatermarks)
    && records == records0 + HistoryFor(CountItems(up[..j], start, g, locked, kind, disableWatermarks), historyKey)
  }

  lemma {:induction false} CountAdvance(up: seq<MediaItem>, j: nat, start: int, g: int, locked: bool, kind: FillerKind,
                     disableWatermarks: bool, historyKey: string, items0: seq<PlayoutItem>, records0: seq<History>,
                     items: seq<PlayoutItem>, records: seq<History>, time: int)
    requires j < |up|
    requires Counted(up, j, start, g, locked, kind, disableWatermarks, historyKey, items0, records0, items, records, time)
    ensures var item := PlayoutItem(up[j].id, time, time + up[j].duration, 0, up[j].duration, kind,
                                    GroupAfter(g, locked, j + 1), disableWatermarks);
            Counted(up, j + 1, start, g, locked, kind, disableWatermarks, historyKey, items0, records0,
                    items + [item], records + [History(0, historyKey, item.start, item.finish)],
                    time + up[j].duration)
  {
    CountStep(up, j, start, g, locked, kind, disableWatermarks, historyKey);
  }

  /** AddCount's items are back to back from the current time and together last as long as the media items. */
  lemma {:induction false} CountItemsTimeline(ms: seq<MediaItem>, start: int, g: int, locked: bool, kind: FillerKind,
                           disableWatermarks: bool)
    ensures var r := CountItems(ms, start, g, locked, kind, disableWatermarks);
            Contiguous(r) && (r != [] ==> r[0].start == start && r[|r| - 1].finish == start + SumDurations(ms))
  {
    var r := CountItems(ms, start, g, locked, kind, disableWatermarks);
    forall i | 0 <= i < |r| - 1 ensures r[i].finish == r[i + 1].start {
      SumDurationsPrefix(ms, i);
    }
    if r != [] {
      assert ms[..0] == [];
      SumDurationsPrefix(ms, |ms| - 1);
      assert ms[..|ms|] == ms;
    }
  }

  /** The history records AddCount writes: one per item, under the enumerator's history key. */
  function HistoryFor(items: seq<PlayoutItem>, historyKey: string): (r: seq<History>)
    ensures |r| == |items|
    ensures forall k :: 0 <= k < |items| ==>
              r[k] == History(0, historyKey, items[k].start, items[k].finish)
  {
    seq(|items|, k requires 0 <= k < |items| => History(0, historyKey, items[k].start, items[k].finish))
  }

  /** How many media items `count` rounds take from an enumerator yielding `upcoming`. */
  function TakenCount(upcoming: Upcoming, count: int): (r: nat)
    ensures r <= |upcoming|
    ensures count <= 0 ==> r == 0
    ensures count > 0 ==> r == Min(count, |upcoming|)
  {
    if count <= 0 then 0 else Min(count, |upcoming|)
  }

  // ---------------------------------------------------------------------
  // The engine
  // ---------------------------------------------------------------------

  /** A previous build's anchor: where to continue and the saved context (absent when blank). */
  datatype EngineAnchor = EngineAnchor(nextStart: int, context: Option<SerializedState>)

  class Engine {
    const state: EngineState
    var enumerators: map<string, EnumeratorDetails>
    /** The playout history of the reference data. */
    var history: seq<History>

    constructor ()
      ensures enumerators == map[] && history == []
      ensures fresh(state) && state.guideGroup == 0 && !state.guideGroupLocked
      ensures state.addedItems == [] && state.historyToRemove == {} && state.addedHistory == []
    {
      state := new EngineState(0);
      enumerators := map[];
      history := [];
    }

    method WithMode(mode: BuildMode)
      modifies state`mode
      ensures state.mode == mode
    {
      state.mode := mode;
    }

    method WithSeed(seed: int)
      modifies state`seed
      ensures state.seed == seed
    {
      state.seed := seed;
    }

    method WithReferenceData(history: seq<History>)
      modifies this`history
      ensures this.history == history
    {
      this.history := history;
    }

    method BuildBetween(start: int, finish: int)
      modifies state`start, state`finish, state`currentTime
      ensures state.start == start && state.finish == finish && state.currentTime == start
    {
      state.start := start;
      state.finish := finish;
      state.currentTime := start;
    }

    method RemoveBefore(removeBefore: int)
      modifies state`removeBefore
      ensures state.removeBefore == Some(removeBefore)
    {
      state.removeBefore := Some(removeBefore);
    }

    /**
     * RestoreOrReset: on reset, asks to clear the items and to remove every
     * history record that starts after the build start or is still playing
     * at it; otherwise continues from the anchor's next start and loads its
     * saved context when there is one.
     */
    method RestoreOrReset(anchor: Option<EngineAnchor>)
      modifies state`clearItems, state`historyToRemove, state`currentTime, state`guideGroup,
               state`guideGroupLocked
      ensures state.mode == Reset ==>
                state.clearItems
                && state.historyToRemove
                   == old(state.historyToRemove) + (set h | h in history && RemovedOnReset(h, state.start) :: h.id)
                && state.currentTime == old(state.currentTime)
                && state.guideGroup == old(state.guideGroup) && state.guideGroupLocked == old(state.guideGroupLocked)
      ensures state.mode != Reset ==>
                state.clearItems == old(state.clearItems) && state.historyToRemove == old(state.historyToRemove)
                && state.currentTime == (if anchor.Some? then anchor.value.nextStart else old(state.currentTime))
                && (state.guideGroup, state.guideGroupLocked)
                   == (if anchor.Some? && anchor.value.context.Some?
                       then Restored(old(state.guideGroup), old(state.guideGroupLocked), anchor.value.context.value)
                       else (old(state.guideGroup), old(state.guideGroupLocked)))
    {
      if state.mode == Reset {
        state.clearItems := true;
        var k := 0;
        while k < |history|
          invariant 0 <= k <= |history|
          invariant state.clearItems && state.currentTime == old(state.currentTime)
          invariant state.guideGroup == old(state.guideGroup) && state.guideGroupLocked == old(state.guideGroupLocked)
          invariant state.historyToRemove
                    == old(state.historyToRemove) + (set h | h in history[..k] && RemovedOnReset(h, state.start) :: h.id)
        {
          assert history[..k + 1] == history[..k] + [history[k]];
          if RemovedOnReset(history[k], state.start) {
            state.historyToRemove := state.historyToRemove + {history[k].id};
          }
          k := k + 1;
        }
        assert history[..k] == history;
      } else if anchor.Some? {
        state.currentTime := anchor.value.nextStart;
        if anchor.value.context.Some? {
          state.LoadContext(anchor.value.context.value);
        }
      }
    }

    /**
     * Registers content under `key`: nothing happens when the key is
     * already registered, when the content has no items, or when the
     * playback order has no enumerator (only chronological and shuffle do);
     * otherwise the new enumerator is seeded with the engine seed plus the
     * number of enumerators already registered. `upcoming` is what that
     * enumerator yields. This is the shared body of AddCollection,
     * AddMultiCollection, AddSmartCollection, AddSearch and AddShow.
     */
    method AddContent(key: string, items: seq<MediaItem>, order: PlaybackOrder, upcoming: Upcoming,
                      historyKey: string)
      modifies this`enumerators
      ensures key in old(enumerators) || items == [] || !(order == Chronological || order == Shuffle) ==>
                enumerators == old(enumerators)
      ensures key !in old(enumerators) && items != [] && (order == Chronological || order == Shuffle) ==>
                enumerators == old(enumerators)[key := EnumeratorDetails(upcoming, state.seed + |old(enumerators)|,
                                                                       historyKey, order)]
    {
      if key !in enumerators {
        var index := |enumerators|;
        if |items| == 0 {
          return;
        }
        var seed := state.seed + index;
        if order == Chronological || order == Shuffle {
          enumerators := enumerators[key := EnumeratorDetails(upcoming, seed, historyKey, order)];
        }
      }
    }

    /** AddPlaylist: a playlist enumerator is registered even when empty, with no playback order. */
    method AddPlaylist(key: string, upcoming: Upcoming, historyKey: string)
      modifies this`enumerators
      ensures key in old(enumerators) ==> enumerators == old(enumerators)
      ensures key !in old(enumerators) ==>
                enumerators == old(enumerators)[key := EnumeratorDetails(upcoming, state.seed + |old(enumerators)|,
                                                                       historyKey, NoOrder)]
    {
      if key !in enumerators {
        var index := |enumerators|;
        var seed := state.seed + index;
        enumerators := enumerators[key := EnumeratorDetails(upcoming, seed, historyKey, NoOrder)];
      }
    }

    /**
     * AddCount: plays `count` items of the content registered under
     * `content`, back to back from the current time, each in the next guide
     * group, with one history record each. An unknown key adds nothing and
     * answers false; otherwise the answer is whether anything was added.
     */
    method AddCount(content: string, count: int, fillerKind: Option<FillerKind>, disableWatermarks: bool)
      returns (added: bool)
      modifies this`enumerators, state`addedItems, state`addedHistory, state`currentTime, state`guideGroup
      ensures content !in old(enumerators) ==>
                !added && enumerators == old(enumerators) && state.addedItems == old(state.addedItems)
                && state.addedHistory == old(state.addedHistory) && state.currentTime == old(state.currentTime)
                && state.guideGroup == old(state.guideGroup)
      ensures content in old(enumerators) ==>
                var details := old(enumerators)[content];
                var n := TakenCount(details.upcoming, count);
                var taken := details.upcoming[..n];
                var items := CountItems(taken, old(state.currentTime), old(state.guideGroup), state.guideGroupLocked,
                                        KindOf(fillerKind), disableWatermarks);
                (added <==> n > 0)
                && enumerators == old(enumerators)[content := details.(upcoming := details.upcoming[n..])]
                && state.addedItems == old(state.addedItems) + items
                && state.addedHistory == old(state.addedHistory) + HistoryFor(items, details.historyKey)
                && state.currentTime == old(state.currentTime) + SumDurations(taken)
                && state.guideGroup == GroupAfter(old(state.guideGroup), state.guideGroupLocked, n)
    {
      if content !in enumerators {
        return false;
      }
      var details := enumerators[content];
      ghost var up := details.upcoming;
      ghost var t0 := state.currentTime;
      ghost var g0 := state.guideGroup;
      ghost var locked := state.guideGroupLocked;
      var kind := KindOf(fillerKind);
      var items := state.addedItems;
      var records := state.addedHistory;
      var time := state.currentTime;
      var upcoming := details.upcoming;
      added := false;
      var i := 0;
      ghost var j: nat := 0;
      while i < count
        invariant i == 0 || i <= count
        invariant enumerators == old(enumerators)
        invariant 0 <= j <= |up| && j == TakenCount(up, i) && upcoming == up[j..]
        invariant state.guideGroup == GroupAfter(g0, locked, j)
        invariant Counted(up, j, t0, g0, locked, kind, disableWatermarks, details.historyKey,
                          old(state.addedItems), old(state.addedHistory), items, records, time)
        invariant added <==> j > 0
        decreases count - i
      {
        var current := Current(upcoming);
        if current.Some? {
          var m := current.value;
          var item := PlayoutItem(m.id, time, time + m.duration, 0, m.duration, kind,
                                  state.PeekNextGuideGroup(), disableWatermarks);
          CountAdvance(up, j, t0, g0, locked, kind, disableWatermarks, details.historyKey,
                       old(state.addedItems), old(state.addedHistory), items, records, time);
          items := items + [item];
          time := time + (item.outPoint - item.inPoint);
          state.AdvanceGuideGroup();
          records := records + [History(0, details.historyKey, item.start, item.finish)];
          assert upcoming[1..] == up[j + 1..];
          upcoming := upcoming[1..];
          added := true;
          j := j + 1;
        }
        i := i + 1;
      }
      assert j == TakenCount(up, count);
      state.addedItems := items;
      state.addedHistory := records;
      state.currentTime := time;
      enumerators := enumerators[content := details.(upcoming := upcoming)];
    }

    /**
     * WaitUntil: moves the current time to `waitUntil` (a time of day) today
     * when that is not yet past; when it is past, to tomorrow at that time
     * if `tomorrow`, back to today at that time on a reset build if
     * `rewindOnReset`, and otherwise nowhere.
     */
    method WaitUntil(waitUntil: int, tomorrow: bool, rewindOnReset: bool)
      requires 0 <= waitUntil < TicksPerDay
      modifies state`currentTime
      ensures var t := old(state.currentTime);
              state.currentTime
              == if TimeOfDay(t) <= waitUntil then DateOf(t) + waitUntil
                 else if tomorrow then DateOf(t) + TicksPerDay + waitUntil
                 else if rewindOnReset && state.mode == Reset then DateOf(t) + waitUntil
                 else t
    {
      var currentTime := state.currentTime;
      var dayOnly := DateOf(currentTime);
      var timeOnly := TimeOfDay(currentTime);
      if timeOnly > waitUntil {
        if tomorrow {
          dayOnly := dayOnly + TicksPerDay;
          currentTime := dayOnly + waitUntil;
        } else if rewindOnReset && state.mode == Reset {
          currentTime := dayOnly + waitUntil;
        }
      } else {
        currentTime := dayOnly + waitUntil;
      }
      state.currentTime := currentTime;
    }

    /** GetAnchor's next start: the latest finish of the added items, or the current time when none was added. */
    function AnchorNextStart(): (r: int)
      reads state
      ensures state.addedItems == [] ==> r == state.currentTime
      ensures state.addedItems != [] ==>
                (forall i :: 0 <= i < |state.addedItems| ==> state.addedItems[i].finish <= r)
                && exists i :: 0 <= i < |state.addedItems| && state.addedItems[i].finish == r
    {
      if state.addedItems == [] then state.currentTime else MaxFinish(state.addedItems)
    }

    function GetAnchor(): (r: EngineAnchor)
      reads state
      ensures r.nextStart == AnchorNextStart()
      ensures r.context == Some(state.SerializeContext())
    {
      EngineAnchor(AnchorNextStart(), Some(state.SerializeContext()))
    }
  }

  /**
   * Waiting never lands at another time of day than the target, and it
   * moves time backwards only in the reset rewind case.
   */
  lemma {:induction false} WaitUntilLands(t: int, waitUntil: int)
    requires 0 <= waitUntil < TicksPerDay
    ensures TimeOfDay(t) <= waitUntil ==> DateOf(t) + waitUntil >= t && TimeOfDay(DateOf(t) + waitUntil) == waitUntil
    ensures TimeOfDay(t) > waitUntil ==>
              DateOf(t) + TicksPerDay + waitUntil > t && TimeOfDay(DateOf(t) + TicksPerDay + waitUntil) == waitUntil
              && DateOf(t) + waitUntil < t
  {
    MidnightPlus(DateOf(t), waitUntil);
    MidnightPlus(DateOf(t) + TicksPerDay, waitUntil);
  }
}
