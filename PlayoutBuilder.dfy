/**
 * The classic playout builder: validation of the schedule's collections,
 * the three build modes (continue, refresh, reset) and what each does to
 * the playout's items and anchors, the day-by-day build loop around the
 * schedulers, and the per-collection anchors saved for the next build.
 *
 * The schedulers themselves (one, multiple, duration, flood) are a
 * parameter: a function from the builder state to the next state and the
 * items it scheduled.
 */
module PlayoutBuilder {
  import opened Common
  import opened PlayoutTypes
  import SchedulerBase

  /** DateTimeOffset.MaxValue in ticks. */
  const MaxTicks: int := 3155378975999999999

  /** The playout-level anchor: where the next build resumes. */
  datatype PlayoutAnchor = PlayoutAnchor(
    scheduleItemsIndex: nat,
    nextStart: int,
    multipleRemaining: Option<int>,
    durationFinish: Option<int>,
    inFlood: bool,
    inDurationFiller: bool,
    nextGuideGroup: int)

  /**
   * A per-collection anchor: the enumerator state of one collection, either
   * a continue anchor (no date) or a checkpoint taken at a day boundary.
   */
  class ScheduleAnchor {
    const key: CollectionKey
    var anchorDate: Option<int>
    var enumeratorState: int

    constructor(key: CollectionKey, enumeratorState: int)
      ensures this.key == key && anchorDate == None && this.enumeratorState == enumeratorState
    {
      this.key := key;
      anchorDate := None;
      this.enumeratorState := enumeratorState;
    }
  }

  /** What the lookups of an anchor see: its collection and its date. */
  datatype AnchorView = AnchorView(key: CollectionKey, anchorDate: Option<int>)

  function Views(s: seq<ScheduleAnchor>): (r: seq<AnchorView>)
    reads s
    ensures |r| == |s|
    ensures forall j :: 0 <= j < |s| ==> r[j] == AnchorView(s[j].key, s[j].anchorDate)
  {
    if s == [] then [] else [AnchorView(s[0].key, s[0].anchorDate)] + Views(s[1..])
  }

  // ---------------------------------------------------------------------
  // Anchor pruning for the refresh and continue modes
  // ---------------------------------------------------------------------

  /** The three RemoveAll rules applied to the anchors. */
  datatype Removal = ContinueAnchors | OlderThan(date: int) | NewerThan(date: int)

  predicate Removes(rule: Removal, a: AnchorView)
  {
    match rule
    case ContinueAnchors => a.anchorDate.None?
    case OlderThan(date) => a.anchorDate.GetOr(MaxTicks) < date
    case NewerThan(date) => a.anchorDate.Some? && DateOf(a.anchorDate.value) > date
  }

  /** List.RemoveAll: the anchors the rule does not remove, in order. */
  function RemoveAll(s: seq<ScheduleAnchor>, rule: Removal): (r: seq<ScheduleAnchor>)
    reads s
    ensures |r| <= |s|
    ensures forall i :: 0 <= i < |r| ==> r[i] in s && !Removes(rule, AnchorView(r[i].key, r[i].anchorDate))
    ensures forall j :: 0 <= j < |s| && !Removes(rule, AnchorView(s[j].key, s[j].anchorDate)) ==> s[j] in r
  {
    if s == [] then []
    else
      var rest := RemoveAll(s[1..], rule);
      if Removes(rule, AnchorView(s[0].key, s[0].anchorDate)) then rest else [s[0]] + rest
  }

  /** A refresh's three passes: continue anchors, then checkpoints before and after the start date. */
  function RefreshKept(s: seq<ScheduleAnchor>, startDate: int): (r: seq<ScheduleAnchor>)
    reads s
    ensures |r| <= |s|
  {
    RemoveAll(RemoveAll(RemoveAll(s, ContinueAnchors), OlderThan(startDate)), NewerThan(startDate))
  }

  /** An anchor survives a refresh's pruning exactly when it is a checkpoint dated on the start date. */
  lemma {:induction false} RefreshKeepsStartDateCheckpoints(s: seq<ScheduleAnchor>, startDate: int)
    requires startDate % TicksPerDay == 0
    ensures var kept := RefreshKept(s, startDate);
      (forall i :: 0 <= i < |kept| ==>
         kept[i] in s && kept[i].anchorDate.Some? && DateOf(kept[i].anchorDate.value) == startDate)
      && (forall j :: 0 <= j < |s| && s[j].anchorDate.Some? && DateOf(s[j].anchorDate.value) == startDate ==>
            s[j] in kept)
  {
    forall j | 0 <= j < |s| && s[j].anchorDate.Some?
      ensures s[j].anchorDate.value >= startDate && DateOf(s[j].anchorDate.value) <= startDate
              <==> DateOf(s[j].anchorDate.value) == startDate
    {
      var t := s[j].anchorDate.value;
      if t >= startDate && DateOf(t) <= startDate {
        MidnightsApart(DateOf(t), startDate);
      }
      if DateOf(t) == startDate {
        assert t >= startDate;
      }
    }
  }

  /** Which id of an anchor a refresh groups by. */
  datatype IdKind = ByCollection | ByMultiCollection | BySmartCollection | ByMediaItem

  function IdOf(key: CollectionKey, kind: IdKind): Option<int>
  {
    match kind
    case ByCollection => key.collectionId
    case ByMultiCollection => key.multiCollectionId
    case BySmartCollection => key.smartCollectionId
    case ByMediaItem => key.mediaItemId
  }

  /** The MinBy key: the anchor date, or DateTimeOffset.MaxValue. */
  function DateKey(a: AnchorView): int
  {
    a.anchorDate.GetOr(MaxTicks)
  }

  /** The ids of one kind that the anchors carry, each once, in order of first appearance. */
  function IdsOf(s: seq<AnchorView>, kind: IdKind): (r: seq<int>)
    ensures forall x :: x in r <==> exists j :: 0 <= j < |s| && IdOf(s[j].key, kind) == Some(x)
    ensures forall i, j :: 0 <= i < j < |r| ==> r[i] != r[j]
  {
    Distinct(SomeIds(s, kind))
  }

  function SomeIds(s: seq<AnchorView>, kind: IdKind): (r: seq<int>)
    ensures forall x :: x in r <==> exists j :: 0 <= j < |s| && IdOf(s[j].key, kind) == Some(x)
  {
    if s == [] then []
    else
      var rest := SomeIds(s[1..], kind);
      assert forall j :: 0 < j < |s| ==> s[j] == s[1..][j - 1];
      match IdOf(s[0].key, kind)
      case Some(x) => [x] + rest
      case None => rest
  }

  /**
   * MinBy over the anchors with the given id: the position of the first
   * anchor with the smallest date key.
   */
  function EarliestWith(s: seq<AnchorView>, kind: IdKind, id: int): (r: Option<nat>)
    ensures r.Some? <==> exists j :: 0 <= j < |s| && IdOf(s[j].key, kind) == Some(id)
    ensures r.Some? ==> r.value < |s| && IdOf(s[r.value].key, kind) == Some(id)
    ensures r.Some? ==> forall j :: 0 <= j < |s| && IdOf(s[j].key, kind) == Some(id) ==>
      DateKey(s[r.value]) <= DateKey(s[j])
    ensures r.Some? ==> forall j :: 0 <= j < r.value && IdOf(s[j].key, kind) == Some(id) ==>
      DateKey(s[j]) > DateKey(s[r.value])
  {
    if s == [] then None
    else
      var r := EarliestWith(s[..|s| - 1], kind, id);
      var last := |s| - 1;
      assert forall j :: 0 <= j < last ==> s[..last][j] == s[j];
      if IdOf(s[last].key, kind) == Some(id) && (r.None? || DateKey(s[last]) < DateKey(s[r.value])) then Some(last)
      else r
  }

  /** For each id in turn, the position of the earliest anchor with that id. */
  function EarliestPerId(s: seq<AnchorView>, kind: IdKind, ids: seq<int>): (r: seq<nat>)
    requires forall x :: x in ids ==> exists j :: 0 <= j < |s| && IdOf(s[j].key, kind) == Some(x)
    ensures |r| == |ids|
    ensures forall i :: 0 <= i < |ids| ==> r[i] < |s| && IdOf(s[r[i]].key, kind) == Some(ids[i])
    ensures forall i, j :: 0 <= i < |ids| && 0 <= j < |s| && IdOf(s[j].key, kind) == Some(ids[i]) ==>
      DateKey(s[r[i]]) <= DateKey(s[j])
  {
    seq(|ids|, i requires 0 <= i < |ids| => EarliestWith(s, kind, ids[i]).value)
  }

  /** Positions of the anchors a refresh keeps: the earliest per collection, multi-collection, smart-collection and item id. */
  function RefreshedPositions(s: seq<AnchorView>): (r: seq<nat>)
    ensures forall i :: 0 <= i < |r| ==> r[i] < |s|
  {
    EarliestPerId(s, ByCollection, IdsOf(s, ByCollection))
    + EarliestPerId(s, ByMultiCollection, IdsOf(s, ByMultiCollection))
    + EarliestPerId(s, BySmartCollection, IdsOf(s, BySmartCollection))
    + EarliestPerId(s, ByMediaItem, IdsOf(s, ByMediaItem))
  }

  /**
   * The anchors a refresh keeps: the checkpoints dated on the start date,
   * reduced to the earliest per id of each kind.
   */
  function Refreshed(s: seq<ScheduleAnchor>, startDate: int): (r: seq<ScheduleAnchor>)
    reads s
    requires startDate % TicksPerDay == 0
    ensures forall i :: 0 <= i < |r| ==>
      r[i] in s && r[i].anchorDate.Some? && DateOf(r[i].anchorDate.value) == startDate
  {
    var kept := RefreshKept(s, startDate);
    RefreshKeepsStartDateCheckpoints(s, startDate);
    Pick(kept, RefreshedPositions(Views(kept)))
  }

  /** The anchors at the given positions. */
  function Pick(s: seq<ScheduleAnchor>, positions: seq<nat>): (r: seq<ScheduleAnchor>)
    requires forall i :: 0 <= i < |positions| ==> positions[i] < |s|
    ensures |r| == |positions| && forall i :: 0 <= i < |r| ==> r[i] == s[positions[i]]
  {
    if positions == [] then [] else [s[positions[0]]] + Pick(s, positions[1..])
  }

  /**
   * For every id of every kind among the kept anchors, the block of that
   * kind holds exactly one anchor with that id, and it is one of the
   * earliest.
   */
  lemma {:induction false} EarliestPerIdExactlyOne(s: seq<AnchorView>, kind: IdKind, id: int)
    requires exists j :: 0 <= j < |s| && IdOf(s[j].key, kind) == Some(id)
    ensures var ids := IdsOf(s, kind);
      var block := EarliestPerId(s, kind, ids);
      exists i :: 0 <= i < |ids| && ids[i] == id
        && (forall i' :: 0 <= i' < |ids| && IdOf(s[block[i']].key, kind) == Some(id) ==> i' == i)
        && forall j :: 0 <= j < |s| && IdOf(s[j].key, kind) == Some(id) ==> DateKey(s[block[i]]) <= DateKey(s[j])
  {
    var ids := IdsOf(s, kind);
    assert id in ids;
    var i :| 0 <= i < |ids| && ids[i] == id;
  }

  // ---------------------------------------------------------------------
  // The per-collection anchors saved after a build
  // ---------------------------------------------------------------------

  /** The first continue anchor (no date) saved for exactly this collection. */
  function FirstContinueAnchor(s: seq<AnchorView>, key: CollectionKey): (r: Option<nat>)
    ensures r.Some? ==> r.value < |s| && s[r.value].key == key && s[r.value].anchorDate.None?
    ensures r.Some? ==> forall j :: 0 <= j < r.value ==> !(s[j].key == key && s[j].anchorDate.None?)
    ensures r.None? ==> forall j :: 0 <= j < |s| ==> !(s[j].key == key && s[j].anchorDate.None?)
  {
    if s == [] then None
    else if s[0].key == key && s[0].anchorDate.None? then Some(0)
    else
      match FirstContinueAnchor(s[1..], key)
      case Some(j) => Some(j + 1)
      case None => None
  }

  /**
   * The match as the builder writes it: collection type, collection id and
   * media item id only. Every continue anchor of exactly the collection
   * matches, and the match ignores the multi-collection and smart-collection
   * ids and nothing else.
   */
  predicate MatchesAsWritten(a: AnchorView, key: CollectionKey): (r: bool)
    ensures a.key == key && a.anchorDate.None? ==> r
    ensures r && a.key.multiCollectionId == key.multiCollectionId && a.key.smartCollectionId == key.smartCollectionId
            ==> a.key == key && a.anchorDate.None?
  {
    a.key.collectionType == key.collectionType && a.key.collectionId == key.collectionId
    && a.key.mediaItemId == key.mediaItemId && a.anchorDate.None?
  }

  function FirstContinueAnchorAsWritten(s: seq<AnchorView>, key: CollectionKey): (r: Option<nat>)
    ensures r.Some? ==> r.value < |s| && MatchesAsWritten(s[r.value], key)
    ensures r.None? ==> forall j :: 0 <= j < |s| ==> !MatchesAsWritten(s[j], key)
  {
    if s == [] then None
    else if MatchesAsWritten(s[0], key) then Some(0)
    else
      match FirstContinueAnchorAsWritten(s[1..], key)
      case Some(j) => Some(j + 1)
      case None => None
  }

  /**
   * Two multi-collections (their keys carry neither a collection id nor a
   * media item id) and one continue anchor for the first: as written, the
   * second collection's lookup also finds that anchor, so the second
   * collection's enumerator state is written over the first's and the
   * second collection gets no anchor of its own. Matching on every field of
   * the key, as the enumerator lookup does, keeps them apart.
   */
  lemma {:induction false} ContinueAnchorAsWrittenSharedByMultiCollections()
    ensures var first := CollectionKey(MultiCollection, None, Some(1), None, None);
      var second := CollectionKey(MultiCollection, None, Some(2), None, None);
      var anchors := [AnchorView(first, None)];
      first != second
      && FirstContinueAnchorAsWritten(anchors, first) == Some(0)
      && FirstContinueAnchorAsWritten(anchors, second) == Some(0)
      && FirstContinueAnchor(anchors, first) == Some(0)
      && FirstContinueAnchor(anchors, second) == None
  {
    var second := CollectionKey(MultiCollection, None, Some(2), None, None);
    var anchors := [AnchorView(CollectionKey(MultiCollection, None, Some(1), None, None), None)];
    assert anchors[1..] == [];
    assert !(anchors[0].key == second);
  }

  /** The lookup only looks at anchors with the key, so changes to other anchors do not affect it. */
  lemma {:induction false} FirstContinueAnchorLocal(s: seq<AnchorView>, t: seq<AnchorView>, key: CollectionKey)
    requires |s| == |t|
    requires forall j :: 0 <= j < |s| ==> s[j].key == t[j].key
    requires forall j :: 0 <= j < |s| && s[j].key == key ==> s[j] == t[j]
    ensures FirstContinueAnchor(s, key) == FirstContinueAnchor(t, key)
  {
    if s != [] {
      FirstContinueAnchorLocal(s[1..], t[1..], key);
    }
  }

  /** The checkpoint anchors (those with a date), in order. */
  function Checkpoints(s: seq<ScheduleAnchor>): (r: seq<ScheduleAnchor>)
    reads s
    ensures forall i :: 0 <= i < |r| ==> r[i] in s && r[i].anchorDate.Some?
    ensures forall j :: 0 <= j < |s| && s[j].anchorDate.Some? ==> s[j] in r
  {
    if s == [] then []
    else if s[0].anchorDate.Some? then [s[0]] + Checkpoints(s[1..])
    else Checkpoints(s[1..])
  }

  /** The date stamped on the anchors of a day's build: the playout anchor's next start. */
  function NextStartOf(anchor: Option<PlayoutAnchor>): Option<int>
  {
    if anchor.Some? then Some(anchor.value.nextStart) else None
  }

  // ---------------------------------------------------------------------
  // Validation
  // ---------------------------------------------------------------------

  datatype MediaItemState = Normal | FileNotFound | Unavailable | RemoteOnly

  /**
   * A media item as validation sees it: the item, whether it is one of the
   * kinds that carry a duration (movie, episode, music video, other video,
   * song), and its state on disk.
   */
  datatype Candidate = Candidate(item: MediaItem, hasDurationKind: bool, state: MediaItemState)

  /** No head version duration, or not a kind with a duration. */
  predicate IsZero(c: Candidate)
  {
    !c.hasDurationKind || c.item.duration == 0
  }

  predicate IsMissing(c: Candidate, skipMissingItems: bool)
  {
    skipMissingItems && (c.state == FileNotFound || c.state == Unavailable)
  }

  function PlayableUnder(skipMissingItems: bool): Candidate -> bool
  {
    (c: Candidate) => !IsMissing(c, skipMissingItems) && !IsZero(c)
  }

  /** What is left of a collection once missing (when skipped) and zero-duration items are removed. */
  function Usable(items: seq<Candidate>, skipMissingItems: bool): (r: seq<Candidate>)
    ensures forall c :: c in r <==> c in items && !IsMissing(c, skipMissingItems) && !IsZero(c)
  {
    Filter(items, PlayableUnder(skipMissingItems))
  }

  /**
   * Removes unusable items from every collection, then reports the first
   * collection left empty, if any.
   */
  method CheckForEmptyCollections(collections: seq<(CollectionKey, seq<Candidate>)>, skipMissingItems: bool)
    returns (cleaned: seq<(CollectionKey, seq<Candidate>)>, empty: Option<CollectionKey>)
    ensures |cleaned| == |collections|
    ensures forall i :: 0 <= i < |collections| ==>
      cleaned[i] == (collections[i].0, Usable(collections[i].1, skipMissingItems))
    ensures empty.None? <==> forall i :: 0 <= i < |cleaned| ==> cleaned[i].1 != []
    ensures empty.Some? ==>
      exists i :: 0 <= i < |cleaned| && cleaned[i] == (empty.value, []) && forall j :: 0 <= j < i ==> cleaned[j].1 != []
  {
    cleaned := [];
    for i := 0 to |collections|
      invariant |cleaned| == i
      invariant forall j :: 0 <= j < i ==>
        cleaned[j] == (collections[j].0, Usable(collections[j].1, skipMissingItems))
    {
      var (key, items) := collections[i];
      var kept: seq<Candidate> := [];
      for j := 0 to |items|
        invariant kept == Filter(items[..j], PlayableUnder(skipMissingItems))
      {
        var c := items[j];
        FilterSnoc(items, j, PlayableUnder(skipMissingItems));
        var isZero := !c.hasDurationKind || c.item.duration == 0;
        if !(skipMissingItems && (c.state == FileNotFound || c.state == Unavailable)) && !isZero {
          kept := kept + [c];
        }
      }
      assert items[..|items|] == items;
      cleaned := cleaned + [(key, kept)];
    }
    var i := 0;
    while i < |cleaned| && cleaned[i].1 != []
      invariant 0 <= i <= |cleaned|
      invariant forall j :: 0 <= j < i ==> cleaned[j].1 != []
    {
      i := i + 1;
    }
    empty := if i < |cleaned| then Some(cleaned[i].0) else None;
  }

  /** Every schedule item's collection keys, in order, with repeats. */
  function AllCollectionKeys(scheduleItems: seq<ScheduleItem>): (r: seq<CollectionKey>)
    ensures |r| == 0 <==> |scheduleItems| == 0
    ensures forall k :: k in r <==> exists i :: 0 <= i < |scheduleItems| && k in CollectionKeysForItem(scheduleItems[i])
  {
    if scheduleItems == [] then []
    else
      var last := |scheduleItems| - 1;
      assert forall i :: 0 <= i < last ==> scheduleItems[..last][i] == scheduleItems[i];
      AllCollectionKeys(scheduleItems[..last]) + CollectionKeysForItem(scheduleItems[last])
  }

  /** The collections a schedule draws from, each once. */
  function ScheduleCollectionKeys(scheduleItems: seq<ScheduleItem>): (r: seq<CollectionKey>)
    ensures |r| == 0 <==> |scheduleItems| == 0
    ensures forall k :: k in r <==> exists i :: 0 <= i < |scheduleItems| && k in CollectionKeysForItem(scheduleItems[i])
    ensures forall i, j :: 0 <= i < j < |r| ==> r[i] != r[j]
  {
    var all := AllCollectionKeys(scheduleItems);
    if |all| > 0 then assert all[0] in Distinct(all); Distinct(all) else Distinct(all)
  }

  /** PlayoutParameters: the window to build and each collection's usable items. */
  datatype Parameters = Parameters(start: int, finish: int, collections: seq<(CollectionKey, seq<Candidate>)>)

  /**
   * The build goes ahead only when the schedule has collections and none
   * of them is empty once unusable items are removed; it then covers the
   * configured number of days (two by default) from now. `contents` is what
   * the repositories hold for each collection.
   */
  method Validate(scheduleItems: seq<ScheduleItem>, contents: CollectionKey -> seq<Candidate>,
                  skipMissingItems: Option<bool>, daysToBuild: Option<int>, now: int)
    returns (r: Option<Parameters>)
    ensures var keys := ScheduleCollectionKeys(scheduleItems);
      r.None? <==> keys == [] || exists k :: k in keys && Usable(contents(k), skipMissingItems.GetOr(false)) == []
    ensures r.Some? ==> |scheduleItems| > 0
    ensures r.Some? ==> r.value.start == now && r.value.finish == now + daysToBuild.GetOr(2) * TicksPerDay
    ensures r.Some? ==> var keys := ScheduleCollectionKeys(scheduleItems);
      |r.value.collections| == |keys| && forall i :: 0 <= i < |keys| ==>
        r.value.collections[i] == (keys[i], Usable(contents(keys[i]), skipMissingItems.GetOr(false)))
  {
    var keys := ScheduleCollectionKeys(scheduleItems);
    if keys == [] {
      return None;
    }
    var collections := seq(|keys|, i requires 0 <= i < |keys| => (keys[i], contents(keys[i])));
    var cleaned, empty := CheckForEmptyCollections(collections, skipMissingItems.GetOr(false));
    if empty.Some? {
      return None;
    }
    forall k | k in keys
      ensures Usable(contents(k), skipMissingItems.GetOr(false)) != []
    {
      var i :| 0 <= i < |keys| && keys[i] == k;
      assert cleaned[i].1 != [];
    }
    r := Some(Parameters(now, now + daysToBuild.GetOr(2) * TicksPerDay, cleaned));
  }

  // ---------------------------------------------------------------------
  // The build loop
  // ---------------------------------------------------------------------

  /** How a build ended: normally, on the scheduling-loop guard, or on a missing playout anchor. */
  datatype Outcome = Built | LoopAt(time: int) | MissingAnchor

  /** One call of the inner build: its range and its two flags. */
  datatype Window = Window(start: int, finish: int, saveAnchorDate: bool, randomStartPoint: bool)

  /** What the schedulers see and return: the builder state, the schedule items position and each collection enumerator's state. */
  datatype Step = Step(state: BuilderState, scheduleItemsIndex: nat, enumeratorStates: map<CollectionKey, int>)

  /**
   * The parts of a build outside this model: the four schedulers, chosen by
   * the current schedule item's kind, given the step and the build's finish;
   * and the creation of a collection enumerator from its resumed state (if
   * any) and the random-start-point flag.
   */
  datatype Env = Env(
    schedule: (Step, int) -> (Step, seq<PlayoutItem>),
    openEnumerator: (CollectionKey, Option<int>, bool) -> int)

  /** Schedulers never move the clock backwards and keep every enumerator. */
  ghost predicate NeverRewinds(env: Env)
  {
    forall s: Step, finish: int ::
      env.schedule(s, finish).0.state.currentTime >= s.state.currentTime
      && env.schedule(s, finish).0.enumeratorStates.Keys == s.enumeratorStates.Keys
  }

  /** Times a map of visit counts records for `t`. */
  function VisitsAt(timeCount: map<int, nat>, t: int): nat
  {
    if t in timeCount then timeCount[t] else 0
  }

  /**
   * The scheduling loop: calls the schedulers until the clock reaches the
   * finish, and gives up on the sixth visit of the same instant.
   */
  method RunSchedulers(env: Env, start: Step, finish: int)
    returns (outcome: Outcome, last: Step, scheduled: seq<PlayoutItem>, ghost visits: seq<int>)
    requires NeverRewinds(env)
    ensures outcome != MissingAnchor
    ensures last.enumeratorStates.Keys == start.enumeratorStates.Keys
    ensures outcome.Built? ==> last.state.currentTime >= finish
    ensures start.state.currentTime >= finish ==> outcome.Built? && last == start && scheduled == []
    ensures outcome.LoopAt? ==> start.state.currentTime <= outcome.time < finish && multiset(visits)[outcome.time] == 6
    ensures forall t :: t in visits ==> start.state.currentTime <= t < finish
    ensures forall i, j :: 0 <= i < j < |visits| ==> visits[i] <= visits[j]
    ensures forall t :: multiset(visits)[t] <= (if outcome.LoopAt? && t == outcome.time then 6 else 5)
  {
    var timeCount: map<int, nat> := map[];
    last := start;
    scheduled := [];
    visits := [];
    outcome := Built;
    while last.state.currentTime < finish
      invariant last.enumeratorStates.Keys == start.enumeratorStates.Keys
      invariant start.state.currentTime <= last.state.currentTime
      invariant start.state.currentTime >= finish ==> last == start && scheduled == []
      invariant forall t :: t in visits ==> start.state.currentTime <= t < finish && t <= last.state.currentTime
      invariant forall i, j :: 0 <= i < j < |visits| ==> visits[i] <= visits[j]
      invariant forall t :: multiset(visits)[t] == VisitsAt(timeCount, t) <= 5
      decreases finish - last.state.currentTime, 6 - VisitsAt(timeCount, last.state.currentTime)
    {
      var now := last.state.currentTime;
      var count := VisitsAt(timeCount, now) + 1;
      timeCount := timeCount[now := count];
      assert forall i :: 0 <= i < |visits| ==> visits[i] in visits;
      visits := visits + [now];
      if count == 6 {
        outcome := LoopAt(now);
        return;
      }
      var next := env.schedule(last, finish);
      assert next.0.state.currentTime >= now;
      scheduled := scheduled + next.1;
      last := next.0;
    }
  }

  /** Where a build starts when the playout has no anchor yet; an existing anchor is reused as is. */
  function FindStartAnchor(anchor: Option<PlayoutAnchor>, start: int, first: ScheduleItem): (r: PlayoutAnchor)
    ensures anchor.Some? ==> r == anchor.value
    ensures anchor.None? ==>
      r.scheduleItemsIndex == 0 && r.multipleRemaining.None? && r.durationFinish.None?
      && !r.inFlood && !r.inDurationFiller && r.nextGuideGroup == 0
    ensures anchor.None? && (first.startType == Dynamic || 0 <= first.startTime.GetOr(0) < TicksPerDay) ==>
      DateOf(r.nextStart) == DateOf(start)
      && TimeOfDay(r.nextStart) == (if first.startType == Fixed then first.startTime.GetOr(0) else 0)
  {
    if anchor.Some? then anchor.value
    else
      var midnight := DateOf(start);
      var offset := if first.startType == Fixed then first.startTime.GetOr(0) else 0;
      assert 0 <= offset < TicksPerDay ==>
        DateOf(midnight + offset) == midnight && TimeOfDay(midnight + offset) == offset by {
        if 0 <= offset < TicksPerDay {
          MidnightPlus(midnight, offset);
        }
      }
      PlayoutAnchor(0, midnight + offset, None, None, false, false, 0)
  }

  /**
   * The anchor an enumerator resumes from: among the anchors of exactly
   * this collection, the one with the latest date, a continue anchor
   * counting as later than any date, and the first of equals.
   */
  function LatestFor(s: seq<AnchorView>, key: CollectionKey): (r: Option<nat>)
    ensures r.Some? <==> exists j :: 0 <= j < |s| && s[j].key == key
    ensures r.Some? ==> r.value < |s| && s[r.value].key == key
    ensures r.Some? ==> forall j :: 0 <= j < |s| && s[j].key == key ==> DateKey(s[j]) <= DateKey(s[r.value])
    ensures r.Some? ==> forall j :: 0 <= j < r.value && s[j].key == key ==> DateKey(s[j]) < DateKey(s[r.value])
  {
    if s == [] then None
    else
      var last := |s| - 1;
      var r := LatestFor(s[..last], key);
      assert forall j :: 0 <= j < last ==> s[..last][j] == s[j];
      if s[last].key == key && (r.None? || DateKey(s[last]) > DateKey(s[r.value])) then Some(last)
      else r
  }

  /** The enumerator state saved for a collection, if any anchor holds one. */
  function ResumedState(s: seq<ScheduleAnchor>, key: CollectionKey): (r: Option<int>)
    reads s
    ensures r.None? <==> forall j :: 0 <= j < |s| ==> s[j].key != key
    ensures r.Some? ==> exists j :: 0 <= j < |s| && s[j].key == key && r.value == s[j].enumeratorState
  {
    var views := Views(s);
    match LatestFor(views, key)
    case Some(j) => Some(s[j].enumeratorState)
    case None => None
  }

  /** A dynamic item, or a fixed one whose start time is a time of day. */
  predicate ValidStartTime(item: ScheduleItem)
  {
    item.startType == Dynamic || 0 <= item.startTime.GetOr(0) < TicksPerDay
  }

  /** The playout items that start before `t`. */
  function ItemsBefore(items: seq<PlayoutItem>, t: int): (r: seq<PlayoutItem>)
    ensures forall x :: x in r <==> x in items && x.start < t
  {
    Filter(items, (x: PlayoutItem) => x.start < t)
  }

  /** The playout items that finish at or after `t`. */
  function ItemsFinishingFrom(items: seq<PlayoutItem>, t: int): (r: seq<PlayoutItem>)
    ensures forall x :: x in r <==> x in items && x.finish >= t
  {
    Filter(items, (x: PlayoutItem) => x.finish >= t)
  }

  /**
   * Saves one collection's enumerator state: into the first continue anchor
   * of that collection when there is one, otherwise into a new anchor; the
   * date is stamped when the build saves dates. No other anchor changes.
   */
  method SaveAnchor(existing: seq<ScheduleAnchor>, key: CollectionKey, state: int,
                    saveAnchorDate: bool, dated: Option<int>)
    returns (a: ScheduleAnchor)
    modifies existing
    ensures a.key == key && a.enumeratorState == state
    ensures a.anchorDate == (if saveAnchorDate then dated else None)
    ensures var found := FirstContinueAnchor(old(Views(existing)), key);
      (found.Some? ==> a == existing[found.value]) && (found.None? ==> fresh(a))
    ensures forall o :: o in existing && o != a ==>
      o.anchorDate == old(o.anchorDate) && o.enumeratorState == old(o.enumeratorState)
  {
    var found := FirstContinueAnchor(Views(existing), key);
    if found.Some? {
      a := existing[found.value];
      a.enumeratorState := state;
    } else {
      a := new ScheduleAnchor(key, state);
    }
    if saveAnchorDate {
      a.anchorDate := dated;
    }
  }

  /** SaveAnchor for each collection in turn. */
  method SaveAnchors(existing: seq<ScheduleAnchor>, keys: seq<CollectionKey>, states: map<CollectionKey, int>,
                     saveAnchorDate: bool, dated: Option<int>)
    returns (result: seq<ScheduleAnchor>)
    requires forall i, j :: 0 <= i < j < |keys| ==> keys[i] != keys[j]
    requires forall k :: k in keys ==> k in states
    modifies existing
    ensures |result| == |keys|
    ensures forall i :: 0 <= i < |keys| ==>
      result[i].key == keys[i] && result[i].enumeratorState == states[keys[i]]
      && result[i].anchorDate == (if saveAnchorDate then dated else None)
    ensures forall i :: 0 <= i < |keys| ==>
      var found := FirstContinueAnchor(old(Views(existing)), keys[i]);
      (found.Some? ==> result[i] == existing[found.value]) && (found.None? ==> fresh(result[i]))
  {
    ghost var views0 := Views(existing);
    result := [];
    for i := 0 to |keys|
      invariant |result| == i
      invariant forall j :: 0 <= j < |existing| && existing[j].key !in keys[..i] ==>
        existing[j].anchorDate == views0[j].anchorDate
      invariant forall j :: 0 <= j < i ==>
        result[j].key == keys[j] && result[j].enumeratorState == states[keys[j]]
        && result[j].anchorDate == (if saveAnchorDate then dated else None)
      invariant forall j :: 0 <= j < i ==>
        var found := FirstContinueAnchor(views0, keys[j]);
        (found.Some? ==> result[j] == existing[found.value]) && (found.None? ==> fresh(result[j]))
    {
      var key := keys[i];
      assert key !in keys[..i];
      FirstContinueAnchorLocal(Views(existing), views0, key);
      var scheduleAnchor := SaveAnchor(existing, key, states[key], saveAnchorDate, dated);
      forall j | 0 <= j < i
        ensures result[j] != scheduleAnchor
      {
        assert result[j].key == keys[j] != key;
      }
      result := result + [scheduleAnchor];
      assert keys[..i + 1] == keys[..i] + [key];
    }
  }

  class Playout {
    var items: seq<PlayoutItem>
    var anchor: Option<PlayoutAnchor>
    var scheduleAnchors: seq<ScheduleAnchor>
    /** The program schedule's items in order of their index. */
    const scheduleItems: seq<ScheduleItem>
    /** ProgramSchedule.RandomStartPoint. */
    const randomStartPoint: bool

    constructor(scheduleItems: seq<ScheduleItem>, randomStartPoint: bool, items: seq<PlayoutItem>,
                anchor: Option<PlayoutAnchor>, scheduleAnchors: seq<ScheduleAnchor>)
      ensures this.scheduleItems == scheduleItems && this.randomStartPoint == randomStartPoint
      ensures this.items == items && this.anchor == anchor && this.scheduleAnchors == scheduleAnchors
    {
      this.scheduleItems := scheduleItems;
      this.randomStartPoint := randomStartPoint;
      this.items := items;
      this.anchor := anchor;
      this.scheduleAnchors := scheduleAnchors;
    }

    /**
     * One anchor per collection in enumerator order, holding that
     * collection's enumerator state: the first continue anchor saved for
     * the collection is reused, otherwise a new one is made; when the
     * build saves anchor dates every one of them is stamped with the next
     * start. Every checkpoint follows, in order, including reused anchors
     * that were just stamped.
     */
    method BuildProgramScheduleAnchors(keys: seq<CollectionKey>, states: map<CollectionKey, int>, saveAnchorDate: bool)
      requires forall i, j :: 0 <= i < j < |keys| ==> keys[i] != keys[j]
      requires forall k :: k in keys ==> k in states
      modifies this`scheduleAnchors, scheduleAnchors
      ensures |scheduleAnchors| >= |keys|
      ensures forall i :: 0 <= i < |keys| ==>
        scheduleAnchors[i].key == keys[i] && scheduleAnchors[i].enumeratorState == states[keys[i]]
        && scheduleAnchors[i].anchorDate == (if saveAnchorDate then NextStartOf(anchor) else None)
      ensures forall i :: 0 <= i < |keys| ==>
        var found := FirstContinueAnchor(old(Views(scheduleAnchors)), keys[i]);
        (found.Some? ==> scheduleAnchors[i] == old(scheduleAnchors)[found.value])
        && (found.None? ==> fresh(scheduleAnchors[i]))
      ensures scheduleAnchors[|keys|..] == Checkpoints(old(scheduleAnchors))
      ensures forall i :: 0 <= i < |scheduleAnchors| ==> scheduleAnchors[i] in old(scheduleAnchors) || fresh(scheduleAnchors[i])
    {
      var dated := if saveAnchorDate then NextStartOf(anchor) else None;
      var existing := scheduleAnchors;
      var saved := SaveAnchors(existing, keys, states, saveAnchorDate, dated);
      scheduleAnchors := saved + Checkpoints(existing);
    }
  
    /**
     * Refresh's pruning: drops the items, the playout anchor, the continue
     * anchors and every checkpoint not dated on the start date, then keeps
     * the earliest of the rest per collection, multi-collection,
     * smart-collection and media item id; the first of them, if any, gives
     * the new playout anchor's start.
     */
    method PruneForRefresh(start: int)
      modifies this`items, this`anchor, this`scheduleAnchors
      ensures items == []
      ensures scheduleAnchors == old(Refreshed(scheduleAnchors, DateOf(start)))
      ensures anchor.Some? <==> scheduleAnchors != []
      ensures anchor.Some? ==>
        anchor.value == PlayoutAnchor(0, anchor.value.nextStart, None, None, false, false, 0)
        && Some(anchor.value.nextStart) == scheduleAnchors[0].anchorDate
        && DateOf(anchor.value.nextStart) == DateOf(start)
    {
      var kept := Refreshed(scheduleAnchors, DateOf(start));
      items := [];
      anchor := None;
      scheduleAnchors := kept;
      if kept != [] {
        var first := kept[0].anchorDate.value;
        anchor := Some(PlayoutAnchor(0, first, None, None, false, false, 0));
      }
    }

    /** Reset starts from nothing: no items, no playout anchor, no collection anchors. */
    method ClearForReset()
      modifies this`items, this`anchor, this`scheduleAnchors
      ensures items == [] && anchor == None && scheduleAnchors == []
    {
      items := [];
      anchor := None;
      scheduleAnchors := [];
    }

    /** Continue drops only the checkpoints dated before the start date; continue anchors stay. */
    method PruneForContinue(start: int)
      modifies this`scheduleAnchors
      ensures scheduleAnchors == RemoveAll(old(scheduleAnchors), OlderThan(DateOf(start)))
      ensures DateOf(start) <= MaxTicks ==>
        forall j :: 0 <= j < |old(scheduleAnchors)| && old(scheduleAnchors)[j].anchorDate.None? ==>
          old(scheduleAnchors)[j] in scheduleAnchors
      ensures forall i :: 0 <= i < |scheduleAnchors| ==>
        scheduleAnchors[i].anchorDate.None? || scheduleAnchors[i].anchorDate.value >= DateOf(start)
    {
      scheduleAnchors := RemoveAll(scheduleAnchors, OlderThan(DateOf(start)));
    }

    /** The enumerators of a build: each collection resumed from its anchor, if any. */
    function OpenEnumerators(keys: seq<CollectionKey>, randomStartPoint: bool, env: Env): (r: map<CollectionKey, int>)
      reads this, scheduleAnchors
      ensures r.Keys == set k | k in keys
      ensures forall k :: k in keys ==> r[k] == env.openEnumerator(k, ResumedState(scheduleAnchors, k), randomStartPoint)
    {
      map k | k in keys :: env.openEnumerator(k, ResumedState(scheduleAnchors, k), randomStartPoint)
    }

    /**
     * The inner build, from the start anchor to `playoutFinish`: nothing
     * happens when the start anchor is at or after the finish; otherwise
     * the items from the start anchor on are dropped, the schedulers run,
     * and the playout anchor and the collection anchors are saved.
     */
    method BuildWindow(keys: seq<CollectionKey>, playoutStart: int, playoutFinish: int,
                       saveAnchorDate: bool, randomStartPoint: bool, env: Env)
      returns (outcome: Outcome, ghost last: Step, ghost visits: seq<int>)
      requires |scheduleItems| > 0
      requires NeverRewinds(env)
      requires forall i, j :: 0 <= i < j < |keys| ==> keys[i] != keys[j]
      modifies this`items, this`anchor, this`scheduleAnchors, scheduleAnchors
      ensures outcome != MissingAnchor
      ensures forall k :: k in keys ==> k in last.enumeratorStates
      ensures forall i :: 0 <= i < |scheduleAnchors| ==> scheduleAnchors[i] in old(scheduleAnchors) || fresh(scheduleAnchors[i])
      ensures var t0 := FindStartAnchor(old(anchor), playoutStart, scheduleItems[0]).nextStart;
        t0 >= playoutFinish ==>
          outcome.Built? && items == old(items) && anchor == old(anchor) && scheduleAnchors == old(scheduleAnchors)
      ensures var t0 := FindStartAnchor(old(anchor), playoutStart, scheduleItems[0]).nextStart;
        var kept := ItemsBefore(old(items), t0);
        t0 < playoutFinish ==> |items| >= |kept| && items[..|kept|] == kept
      ensures var t0 := FindStartAnchor(old(anchor), playoutStart, scheduleItems[0]).nextStart;
        outcome.LoopAt? ==> t0 <= outcome.time < playoutFinish && multiset(visits)[outcome.time] == 6
      ensures var t0 := FindStartAnchor(old(anchor), playoutStart, scheduleItems[0]).nextStart;
        outcome.Built? && t0 < playoutFinish ==>
          last.state.currentTime >= playoutFinish
          && anchor.Some? && anchor.value.scheduleItemsIndex == last.scheduleItemsIndex
          && (ValidStartTime(scheduleItems[last.scheduleItemsIndex % |scheduleItems|]) ==>
                anchor.value.nextStart >= (if items == [] then playoutFinish else Min(playoutFinish, MaxFinish(items))))
          && anchor.value.inFlood == last.state.inFlood && anchor.value.inDurationFiller == last.state.inDurationFiller
          && anchor.value.nextGuideGroup == last.state.nextGuideGroup
          && anchor.value.multipleRemaining == last.state.multipleRemaining
          && anchor.value.durationFinish == last.state.durationFinish
      ensures var t0 := FindStartAnchor(old(anchor), playoutStart, scheduleItems[0]).nextStart;
        outcome.Built? && t0 < playoutFinish ==>
          |scheduleAnchors| >= |keys| && forall i :: 0 <= i < |keys| ==>
            scheduleAnchors[i].key == keys[i] && scheduleAnchors[i].enumeratorState == last.enumeratorStates[keys[i]]
            && scheduleAnchors[i].anchorDate == (if saveAnchorDate then Some(anchor.value.nextStart) else None)
    {
      var states := OpenEnumerators(keys, randomStartPoint, env);
      var startAnchor := FindStartAnchor(anchor, playoutStart, scheduleItems[0]);
      var currentTime := startAnchor.nextStart;
      var step := Step(BuilderState(currentTime, startAnchor.nextGuideGroup, startAnchor.multipleRemaining,
                                    startAnchor.durationFinish, startAnchor.inFlood, startAnchor.inDurationFiller),
                       startAnchor.scheduleItemsIndex, states);
      last := step;
      visits := [];
      if currentTime >= playoutFinish {
        return Built, last, visits;
      }
      items := ItemsBefore(items, currentTime);
      var scheduled;
      outcome, step, scheduled, visits := RunSchedulers(env, step, playoutFinish);
      last := step;
      items := items + scheduled;
      if outcome.LoopAt? {
        return;
      }
      SaveAnchor(keys, step, saveAnchorDate);
    }

    /**
     * After the loop: the clock is pulled back to the last item's finish
     * when it ran past it, the playout anchor resumes at the current schedule
     * item's next start from there, and the collection anchors are saved.
     */
    method SaveAnchor(keys: seq<CollectionKey>, last: Step, saveAnchorDate: bool)
      requires |scheduleItems| > 0
      requires forall i, j :: 0 <= i < j < |keys| ==> keys[i] != keys[j]
      requires forall k :: k in keys ==> k in last.enumeratorStates
      modifies this`anchor, this`scheduleAnchors, scheduleAnchors
      ensures forall i :: 0 <= i < |scheduleAnchors| ==> scheduleAnchors[i] in old(scheduleAnchors) || fresh(scheduleAnchors[i])
      ensures anchor.Some? && anchor.value.scheduleItemsIndex == last.scheduleItemsIndex
      ensures ValidStartTime(scheduleItems[last.scheduleItemsIndex % |scheduleItems|]) ==>
        anchor.value.nextStart >= (if items == [] then last.state.currentTime else Min(last.state.currentTime, MaxFinish(items)))
      ensures anchor.value.inFlood == last.state.inFlood && anchor.value.inDurationFiller == last.state.inDurationFiller
      ensures anchor.value.nextGuideGroup == last.state.nextGuideGroup
      ensures anchor.value.multipleRemaining == last.state.multipleRemaining
      ensures anchor.value.durationFinish == last.state.durationFinish
      ensures |scheduleAnchors| >= |keys| && forall i :: 0 <= i < |keys| ==>
        scheduleAnchors[i].key == keys[i] && scheduleAnchors[i].enumeratorState == last.enumeratorStates[keys[i]]
        && scheduleAnchors[i].anchorDate == (if saveAnchorDate then Some(anchor.value.nextStart) else None)
    {
      var endState := last.state;
      if items != [] {
        var maxFinish := MaxFinish(items);
        if maxFinish < endState.currentTime {
          endState := endState.(currentTime := maxFinish);
        }
      }
      var anchorItem := scheduleItems[last.scheduleItemsIndex % |scheduleItems|];
      var nextStart := SchedulerBase.GetStartTimeAfter(endState, anchorItem);
      anchor := Some(PlayoutAnchor(last.scheduleItemsIndex, nextStart, endState.multipleRemaining,
                                   endState.durationFinish, endState.inFlood, endState.inDurationFiller,
                                   endState.nextGuideGroup));
      BuildProgramScheduleAnchors(keys, last.enumeratorStates, saveAnchorDate);
    }
  
    /**
     * The outer build: one inner build per day up to each midnight before
     * the finish, saving dated anchors, each starting where the previous one
     * left the playout anchor; then a last one up to the finish without
     * dates. Only the first inner build may use a random start point.
     * Items that finished more than four hours before the start are then
     * dropped.
     */
    method BuildPlayoutItems(keys: seq<CollectionKey>, playoutStart: int, playoutFinish: int,
                             randomStartPoint: bool, env: Env)
      returns (outcome: Outcome, ghost windows: seq<Window>, ghost days: nat, ghost saved: seq<PlayoutAnchor>)
      requires |scheduleItems| > 0
      requires NeverRewinds(env)
      requires forall i, j :: 0 <= i < j < |keys| ==> keys[i] != keys[j]
      modifies this`items, this`anchor, this`scheduleAnchors, scheduleAnchors
      ensures forall i :: 0 <= i < |scheduleAnchors| ==> scheduleAnchors[i] in old(scheduleAnchors) || fresh(scheduleAnchors[i])
      ensures days <= |windows| <= days + 1
      ensures |windows| > 0 ==> windows[0].start == playoutStart
      ensures forall i :: 0 <= i < |windows| ==> windows[i].randomStartPoint == (randomStartPoint && i == 0)
      ensures forall i :: 0 <= i < days ==>
        windows[i].saveAnchorDate && windows[i].finish == DateOf(playoutStart) + (i + 1) * TicksPerDay
        && windows[i].finish < playoutFinish
      ensures |windows| == days + 1 ==>
        !windows[days].saveAnchorDate && windows[days].finish == playoutFinish && windows[days].start < playoutFinish
      ensures outcome.Built? ==> DateOf(playoutStart) + (days + 1) * TicksPerDay >= playoutFinish
      ensures |saved| <= days && (outcome.Built? ==> |saved| == days)
      ensures forall i :: 0 < i < |windows| && i <= |saved| ==> windows[i].start == saved[i - 1].nextStart
      ensures outcome.Built? && |windows| == days && days > 0 ==> anchor == Some(saved[days - 1])
      ensures outcome.Built? ==> forall x :: x in items ==> x.finish >= playoutStart - 4 * TicksPerHour
    {
      var trimBefore := playoutStart - 4 * TicksPerHour;
      var start := playoutStart;
      var finish := DateOf(playoutStart) + TicksPerDay;
      var random := randomStartPoint;
      windows := [];
      days := 0;
      saved := [];
      while finish < playoutFinish
        invariant finish == DateOf(playoutStart) + (days + 1) * TicksPerDay
        invariant |windows| == days && |saved| == days
        invariant days > 0 ==> anchor == Some(saved[days - 1]) && start == saved[days - 1].nextStart
        invariant forall i :: 0 < i < days ==> windows[i].start == saved[i - 1].nextStart
        invariant random == (randomStartPoint && days == 0)
        invariant days == 0 ==> start == playoutStart
        invariant |windows| > 0 ==> windows[0].start == playoutStart
        invariant forall i :: 0 <= i < |windows| ==> windows[i].randomStartPoint == (randomStartPoint && i == 0)
        invariant forall i :: 0 <= i < days ==>
          windows[i].saveAnchorDate && windows[i].finish == DateOf(playoutStart) + (i + 1) * TicksPerDay
          && windows[i].finish < playoutFinish
        invariant forall i :: 0 <= i < |scheduleAnchors| ==> scheduleAnchors[i] in old(scheduleAnchors) || fresh(scheduleAnchors[i])
        decreases playoutFinish - finish
      {
        var windowOutcome, _, _ := BuildWindow(keys, start, finish, true, random, env);
        windows := windows + [Window(start, finish, true, random)];
        days := days + 1;
        if windowOutcome.LoopAt? {
          return windowOutcome, windows, days, saved;
        }
        random := false;
        if anchor.None? {
          return MissingAnchor, windows, days, saved;
        }
        saved := saved + [anchor.value];
        start := anchor.value.nextStart;
        finish := finish + TicksPerDay;
      }
      if start < playoutFinish {
        var windowOutcome, _, _ := BuildWindow(keys, start, playoutFinish, false, random, env);
        windows := windows + [Window(start, playoutFinish, false, random)];
        if windowOutcome.LoopAt? {
          return windowOutcome, windows, days, saved;
        }
      }
      items := ItemsFinishingFrom(items, trimBefore);
      outcome := Built;
    }
  
    /**
     * Build: validation first, which leaves the playout as it was when it
     * fails; then refresh, reset or continue prepares the anchors and the
     * outer build runs over the validated range. Only a reset uses the
     * schedule's random start point.
     */
    method Build(mode: BuildMode, contents: CollectionKey -> seq<Candidate>, skipMissingItems: Option<bool>,
                 daysToBuild: Option<int>, now: int, env: Env)
      returns (outcome: Option<Outcome>)
      requires NeverRewinds(env)
      modifies this`items, this`anchor, this`scheduleAnchors, scheduleAnchors
      ensures var keys := ScheduleCollectionKeys(scheduleItems);
        outcome.None? <==> keys == [] || exists k :: k in keys && Usable(contents(k), skipMissingItems.GetOr(false)) == []
      ensures outcome.None? ==>
        items == old(items) && anchor == old(anchor) && scheduleAnchors == old(scheduleAnchors)
    {
      var parameters := Validate(scheduleItems, contents, skipMissingItems, daysToBuild, now);
      if parameters.None? {
        return None;
      }
      var p := parameters.value;
      var keys := ScheduleCollectionKeys(scheduleItems);
      var o;
      ghost var windows, days, saved;
      match mode {
        case Refresh =>
          PruneForRefresh(p.start);
          o, windows, days, saved := BuildPlayoutItems(keys, p.start, p.finish, false, env);
        case Reset =>
          ClearForReset();
          o, windows, days, saved := BuildPlayoutItems(keys, p.start, p.finish, randomStartPoint, env);
        case Continue =>
          PruneForContinue(p.start);
          o, windows, days, saved := BuildPlayoutItems(keys, p.start, p.finish, false, env);
      }
      outcome := Some(o);
    }
  }
}
