/**
 * The HLS segmenter session of one channel: which of the four
 * {Seek, Zero} x {WorkAhead, Realtime} states the next ffmpeg process runs
 * in, when a new process is started, and which segment files are deleted.
 */
module HlsSession {
  import opened Common

  datatype SessionState =
    | SeekAndWorkAhead
    | SeekAndRealtime
    | ZeroAndWorkAhead
    | ZeroAndRealtime
    | PlayoutUpdated

  /** The next item starts at its beginning rather than seeking into it. */
  predicate StartsAtZero(s: SessionState)
  {
    s == ZeroAndWorkAhead || s == ZeroAndRealtime
  }

  /** The next item is transcoded at playback speed. */
  predicate IsRealtime(s: SessionState)
  {
    s == SeekAndRealtime || s == ZeroAndRealtime
  }

  /**
   * State after a process ends. A realtime process always completes its
   * item, so the next item starts at zero; a work-ahead process that did not
   * complete its item is resumed by seeking, in realtime. A playout update
   * restarts the channel by seeking, working ahead.
   */
  function NextState(state: SessionState, isComplete: bool): (r: SessionState)
    ensures r != PlayoutUpdated
    ensures StartsAtZero(r) <==> state != PlayoutUpdated && (IsRealtime(state) || isComplete)
    ensures IsRealtime(r) <==> state != PlayoutUpdated && (IsRealtime(state) || !isComplete)
  {
    match state
    case PlayoutUpdated => SeekAndWorkAhead
    case SeekAndWorkAhead => if !isComplete then SeekAndRealtime else ZeroAndWorkAhead
    case ZeroAndWorkAhead => if !isComplete then SeekAndRealtime else ZeroAndWorkAhead
    case SeekAndRealtime => ZeroAndRealtime
    case ZeroAndRealtime => ZeroAndRealtime
  }

  /**
   * Before a transcode: a work-ahead request accelerates a realtime state and
   * a realtime request throttles a work-ahead state; the Seek/Zero half is
   * kept and PlayoutUpdated is left alone.
   */
  function PrepareState(state: SessionState, realtime: bool): (r: SessionState)
    ensures state == PlayoutUpdated ==> r == PlayoutUpdated
    ensures state != PlayoutUpdated ==> r != PlayoutUpdated && IsRealtime(r) == realtime
    ensures StartsAtZero(r) == StartsAtZero(state)
  {
    if !realtime then
      match state
      case SeekAndRealtime => SeekAndWorkAhead
      case ZeroAndRealtime => ZeroAndWorkAhead
      case _ => state
    else
      match state
      case SeekAndWorkAhead => SeekAndRealtime
      case ZeroAndWorkAhead => ZeroAndRealtime
      case _ => state
  }

  /** The first state of a session: work ahead while under the work-ahead limit. */
  function InitialState(workAheadCount: int, workAheadLimit: int): (r: SessionState)
    ensures !StartsAtZero(r) && r != PlayoutUpdated
    ensures IsRealtime(r) <==> workAheadCount >= workAheadLimit
  {
    if workAheadCount < workAheadLimit then SeekAndWorkAhead else SeekAndRealtime
  }

  /** A realtime transcode that finishes always leaves the session in ZeroAndRealtime. */
  lemma {:induction false} RealtimeSettles(state: SessionState, isComplete: bool)
    requires state != PlayoutUpdated
    ensures NextState(PrepareState(state, true), isComplete) == ZeroAndRealtime
  {
  }

  /**
   * A finished work-ahead transcode leaves ZeroAndWorkAhead when the item was
   * completed and SeekAndRealtime otherwise, whatever the state before.
   */
  lemma {:induction false} WorkAheadOutcome(state: SessionState, isComplete: bool)
    requires state != PlayoutUpdated
    ensures NextState(PrepareState(state, false), isComplete)
         == if isComplete then ZeroAndWorkAhead else SeekAndRealtime
  {
  }

  /** What the Run loop does next, given the transcoded buffer ahead of the clock. */
  datatype LoopAction = StartTranscode(realtime: bool) | TrimAndWait

  /**
   * A new process starts once at most one minute is buffered; it runs in
   * realtime when at least 30 seconds are buffered or when the work-ahead
   * limit is reached.
   */
  function NextLoopAction(transcodedUntil: int, now: int, workAheadCount: int, workAheadLimit: int)
    : (r: LoopAction)
    ensures r.StartTranscode? <==> transcodedUntil - now <= TicksPerMinute
    ensures r.StartTranscode? ==>
      (r.realtime <==> transcodedUntil - now >= 30 * TicksPerSecond || workAheadCount >= workAheadLimit)
  {
    var buffer := Max(0, transcodedUntil - now);
    if buffer <= TicksPerMinute then
      var realtime := buffer >= 30 * TicksPerSecond;
      var subsequentWorkAhead := !realtime && workAheadCount < workAheadLimit;
      StartTranscode(!subsequentWorkAhead)
    else TrimAndWait
  }

  /** The request sent for the next process. */
  datatype Request = Request(now: int, startAtZero: bool, realtime: bool, channelStart: int)

  /**
   * What came back for a request: no process at all, or a process that ran
   * with the given exit code; after a failed run an error process may have
   * been produced and run with its own exit code.
   */
  datatype ProcessOutcome =
    | NoProcess
    | Ran(until: int, isComplete: bool, segmentKey: Option<int>, exitCode: int, errorExit: Option<int>)

  datatype Segment = Segment(file: string, sequenceNumber: int, generatedAt: int)

  /** Segment files numbered below the trimmed playlist's first sequence. */
  function SegmentsToDelete(segments: seq<Segment>, sequence: int): (r: seq<Segment>)
    ensures forall s :: s in r <==> s in segments && s.sequenceNumber < sequence
    ensures |r| <= |segments|
  {
    if segments == [] then []
    else
      var rest := SegmentsToDelete(segments[1..], sequence);
      if segments[0].sequenceNumber < sequence then [segments[0]] + rest else rest
  }

  /**
   * Init segments are deleted only when no segment on disk was generated
   * with them, they are older than the trimmed playlist, and the init cache
   * does not hold them as the earliest of their hash.
   */
  function InitsToDelete(inits: seq<Segment>, generatedOnDisk: set<int>, trimGeneratedAt: int,
                         isEarliestByHash: string -> bool): (r: seq<Segment>)
    ensures forall s :: s in r <==>
      s in inits && s.generatedAt !in generatedOnDisk && s.generatedAt < trimGeneratedAt
      && !isEarliestByHash(s.file)
  {
    if inits == [] then []
    else
      var rest := InitsToDelete(inits[1..], generatedOnDisk, trimGeneratedAt, isEarliestByHash);
      var s := inits[0];
      if s.generatedAt in generatedOnDisk || s.generatedAt >= trimGeneratedAt || isEarliestByHash(s.file)
      then rest
      else [s] + rest
  }

  /**
   * The state a finished transcode leaves, given the state after
   * accelerate/throttle: a failure keeps it, a success never leaves the
   * playout-updated state, and a run saved only by the error screen counts as
   * an incomplete item, so the session goes on in realtime.
   */
  function StateAfter(prepared: SessionState, outcome: ProcessOutcome): (r: SessionState)
    ensures !Succeeded(outcome) ==> r == prepared
    ensures Succeeded(outcome) ==> r != PlayoutUpdated
    ensures outcome.Ran? && outcome.exitCode == 0 ==> r == NextState(prepared, outcome.isComplete)
    ensures outcome.Ran? && outcome.exitCode != 0 && outcome.errorExit == Some(0) ==>
              r == NextState(prepared, false)
    ensures Succeeded(outcome) && outcome.exitCode != 0 ==> (IsRealtime(r) <==> prepared != PlayoutUpdated)
  {
    match outcome
    case NoProcess => prepared
    case Ran(_, isComplete, _, exitCode, errorExit) =>
      if exitCode == 0 then NextState(prepared, isComplete)
      else if errorExit == Some(0) then NextState(prepared, false)
      else prepared
  }

  /** Whether the transcode reports success to the Run loop. */
  predicate Succeeded(outcome: ProcessOutcome)
  {
    outcome.Ran? && (outcome.exitCode == 0 || outcome.errorExit == Some(0))
  }

  class Session {
    var state: SessionState
    var transcodedUntil: int
    var channelStart: int
    var playlistStart: int
    var discontinuitySequence: int
    var discontinuityMap: map<int, int>

    /** Run's set-up: everything starts at the clock, in the initial state. */
    constructor Start(now: int, workAheadCount: int, workAheadLimit: int)
      ensures state == InitialState(workAheadCount, workAheadLimit)
      ensures transcodedUntil == now && channelStart == now && playlistStart == now
      ensures discontinuitySequence == 0 && discontinuityMap == map[]
    {
      state := InitialState(workAheadCount, workAheadLimit);
      transcodedUntil := now;
      channelStart := now;
      playlistStart := now;
      discontinuitySequence := 0;
      discontinuityMap := map[];
    }

    /** A playout change makes the channel start over. */
    method OnPlayoutUpdated()
      modifies this`state
      ensures state == PlayoutUpdated
    {
      state := PlayoutUpdated;
    }

    /**
     * One transcode: accelerate or throttle, build the request (a session
     * that was seeking ahead asks from the clock, every other one from where
     * transcoding stopped), and advance the state when a process completes.
     */
    method Transcode(realtime: bool, clock: int, mediator: Request -> ProcessOutcome)
      returns (ok: bool, request: Request)
      modifies this`state, this`transcodedUntil, this`discontinuitySequence, this`discontinuityMap
      ensures request.now == (if old(state) == SeekAndWorkAhead then clock else old(transcodedUntil))
      ensures request.startAtZero == StartsAtZero(old(state))
      ensures request.realtime == realtime && request.channelStart == channelStart
      ensures ok == Succeeded(mediator(request))
      ensures state == StateAfter(PrepareState(old(state), realtime), mediator(request))
      ensures transcodedUntil == (if ok then mediator(request).until else old(transcodedUntil))
      ensures var o := mediator(request);
        if o.Ran? && o.segmentKey.Some? then
          discontinuitySequence == old(discontinuitySequence) + 1
          && discontinuityMap == (if o.segmentKey.value in old(discontinuityMap) then old(discontinuityMap)
                                  else old(discontinuityMap)[o.segmentKey.value := discontinuitySequence])
        else
          discontinuitySequence == old(discontinuitySequence) && discontinuityMap == old(discontinuityMap)
    {
      var wasSeekAndWorkAhead := state == SeekAndWorkAhead;
      state := PrepareState(state, realtime);
      var now := if wasSeekAndWorkAhead then clock else transcodedUntil;
      var startAtZero := state == ZeroAndWorkAhead || state == ZeroAndRealtime;
      request := Request(now, startAtZero, realtime, channelStart);
      var outcome := mediator(request);
      ok := false;
      if outcome.Ran? {
        if outcome.segmentKey.Some? {
          discontinuitySequence := discontinuitySequence + 1;
          var key := outcome.segmentKey.value;
          if key !in discontinuityMap {
            discontinuityMap := discontinuityMap[key := discontinuitySequence];
          }
        }
        if outcome.exitCode == 0 {
          transcodedUntil := outcome.until;
          state := NextState(state, outcome.isComplete);
          ok := true;
        } else if outcome.errorExit == Some(0) {
          transcodedUntil := outcome.until;
          state := NextState(state, false);
          ok := true;
        }
      }
    }
  }
}
