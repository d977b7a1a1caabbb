/**
 * The decisions of the media server television library scanner shared by
 * Jellyfin and Emby: whether an episode is scanned, how it is flagged
 * afterwards, the scan progress, which shows are flagged as missing, and
 * when statistics and chapters are refreshed.
 */
module MediaServerTelevisionScanner {
  import opened Common
  import opened MetadataTypes

  /** The state flag a scan writes, if any. */
  datatype FlagAction = NoFlag | FlagRemoteOnly | FlagUnavailable

  datatype ScanDecision = ScanDecision(scan: bool, flag: FlagAction)

  /**
   * ShouldScanItem: always on a deep scan. An unchanged Unavailable or
   * FileNotFound item is skipped only while its file is missing locally and
   * the server cannot stream it; otherwise it is scanned. Any other
   * unchanged item is not scanned, and when its file is missing it is
   * flagged RemoteOnly (if the server streams) or Unavailable, unless it is
   * already in that state. A changed or new item is scanned.
   */
  function ShouldScanItem(existing: seq<ItemEtag>, itemId: string, incomingEtag: Option<string>,
                          fileExists: bool, remoteStreaming: bool, deepScan: bool): (r: ScanDecision)
    ensures deepScan ==> r == ScanDecision(true, NoFlag)
    ensures r.flag != NoFlag ==> !r.scan && !fileExists
    ensures !deepScan && Some(ExistingEtag(existing, itemId)) != incomingEtag ==> r == ScanDecision(true, NoFlag)
    ensures !deepScan && Some(ExistingEtag(existing, itemId)) == incomingEtag ==>
              (r.scan <==> ExistingState(existing, itemId) in {Unavailable, FileNotFound} && (fileExists || remoteStreaming))
    ensures r.flag == FlagRemoteOnly ==> remoteStreaming && ExistingState(existing, itemId) != RemoteOnly
    ensures r.flag == FlagUnavailable ==> !remoteStreaming && ExistingState(existing, itemId) != Unavailable
  {
    if deepScan then ScanDecision(true, NoFlag)
    else
      var tag := ExistingEtag(existing, itemId);
      var state := ExistingState(existing, itemId);
      if (state == Unavailable || state == FileNotFound) && Some(tag) == incomingEtag then
        if !fileExists && !remoteStreaming then ScanDecision(false, NoFlag) else ScanDecision(true, NoFlag)
      else if Some(tag) == incomingEtag then
        if fileExists then ScanDecision(false, NoFlag)
        else if remoteStreaming then ScanDecision(false, if state != RemoteOnly then FlagRemoteOnly else NoFlag)
        else ScanDecision(false, if state != Unavailable then FlagUnavailable else NoFlag)
      else ScanDecision(true, NoFlag)
  }

  /**
   * An unchanged item whose file is missing ends up flagged for the state a
   * scan would give it: a skipped item is flagged unless it already has
   * that state (an Unavailable or FileNotFound item is skipped unflagged).
   */
  lemma {:induction false} UnchangedMissingFileFlagged(existing: seq<ItemEtag>, itemId: string, incomingEtag: Option<string>, remoteStreaming: bool)
    requires Some(ExistingEtag(existing, itemId)) == incomingEtag
    requires ExistingState(existing, itemId) !in {Unavailable, FileNotFound}
    ensures var r := ShouldScanItem(existing, itemId, incomingEtag, false, remoteStreaming, false);
            && !r.scan
            && (r.flag == NoFlag <==> ExistingState(existing, itemId) == StateAfterScan(false, remoteStreaming))
            && (r.flag == FlagRemoteOnly ==> StateAfterScan(false, remoteStreaming) == RemoteOnly)
            && (r.flag == FlagUnavailable ==> StateAfterScan(false, remoteStreaming) == Unavailable)
  {
  }

  /** A new item is scanned unless the server gives it an empty etag. */
  lemma {:induction false} NewItemScanned(existing: seq<ItemEtag>, itemId: string, incomingEtag: Option<string>,
                       fileExists: bool, remoteStreaming: bool, deepScan: bool)
    requires forall i :: 0 <= i < |existing| ==> existing[i].key != itemId
    requires incomingEtag != Some("")
    ensures ShouldScanItem(existing, itemId, incomingEtag, fileExists, remoteStreaming, deepScan).scan
  {
  }

  /**
   * The state an episode is flagged with after a scan: Normal when its file
   * exists locally, else RemoteOnly when the server streams, else
   * Unavailable.
   */
  function StateAfterScan(fileExists: bool, remoteStreaming: bool): (r: MediaItemState)
    ensures r == Normal <==> fileExists
    ensures r == RemoteOnly <==> !fileExists && remoteStreaming
    ensures r == Unavailable <==> !fileExists && !remoteStreaming
  {
    if fileExists then Normal else if remoteStreaming then RemoteOnly else Unavailable
  }

  /**
   * The show scan progress: the shows seen so far over the total, clamped
   * to [0, 1]; a total of zero is a division by zero (None).
   */
  function Progress(seen: nat, total: int): (r: Option<real>)
    ensures r.None? <==> total == 0
    ensures r.Some? ==> 0.0 <= r.value <= 1.0
    ensures r.Some? && 0 < total && seen <= total ==> r.value == seen as real / total as real
  {
    if total == 0 then None
    else
      var p := seen as real / total as real;
      Some(if p < 0.0 then 0.0 else if p > 1.0 then 1.0 else p)
  }

  /**
   * The ids of shows to flag as missing: with cleanup requested, the
   * remembered ids the server no longer lists; otherwise none.
   */
  function ShowsToFlag(existingIds: seq<string>, incomingIds: seq<string>, cleanup: bool): (r: seq<string>)
    ensures !cleanup ==> r == []
    ensures cleanup ==> forall id :: id in r <==> id in existingIds && id !in incomingIds
    ensures forall i, j :: 0 <= i < j < |r| ==> r[i] != r[j]
  {
    if cleanup then Except(existingIds, incomingIds) else []
  }

  /**
   * UpdateStatistics: only on a deep scan, a new item, a changed etag or a
   * version without streams; the given statistics are used, or else those
   * fetched from the server, and the item is updated when the repository
   * reports a change.
   */
  function StatisticsUpdated(isUpdated: bool, deepScan: bool, isAdded: bool, etagChanged: bool, noStreams: bool,
                             given: Option<MediaVersion>, fetched: Option<MediaVersion>,
                             updateStatistics: MediaVersion -> bool): (r: bool)
    ensures !(deepScan || isAdded || etagChanged || noStreams) ==> r == isUpdated
    ensures isUpdated ==> r
    ensures r <==> (isUpdated ||
                    ((deepScan || isAdded || etagChanged || noStreams) &&
                     (if given.Some? then updateStatistics(given.value) else fetched.Some? && updateStatistics(fetched.value))))
  {
    if deepScan || isAdded || etagChanged || noStreams then
      var version := if given.Some? then given else fetched;
      isUpdated || (version.Some? && updateStatistics(version.value))
    else isUpdated
  }

  /**
   * UpdateChapters: without a local path (none, or empty) the result is
   * returned unchanged; otherwise the item is updated when the local
   * chapters provider reports a change.
   */
  function ChaptersUpdated(isUpdated: bool, localPath: Option<string>, chaptersChanged: bool): (r: bool)
    ensures (localPath.None? || localPath == Some("")) ==> r == isUpdated
    ensures r <==> isUpdated || (localPath.Some? && localPath != Some("") && chaptersChanged)
  {
    if localPath.None? || localPath == Some("") then isUpdated else isUpdated || chaptersChanged
  }
}
