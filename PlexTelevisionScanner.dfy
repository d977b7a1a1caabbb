/**
 * The decisions of the Plex television library scanner: whether an episode
 * is scanned, the keys flagged as no longer on the server, the partition of
 * an episode's metadata rows by episode number, when show metadata and
 * statistics are refreshed, and how an episode is flagged after a scan.
 */
module PlexTelevisionScanner {
  import opened Common
  import opened MetadataTypes
  import opened MetadataSync
  import opened ScannerLocalMetadata
  import MediaServerTelevisionScanner

  datatype ScanDecision = ScanDecision(scan: bool, flagUnavailable: bool)

  /**
   * ShouldScanItem: always on a deep scan. An Unavailable episode is
   * scanned only when its local file now exists. An episode whose etag has
   * not changed is not scanned, and is flagged Unavailable when its local
   * file is missing. Any other episode is scanned.
   */
  function ShouldScanItem(existing: seq<ItemEtag>, key: string, incomingEtag: Option<string>,
                          fileExists: bool, deepScan: bool): (r: ScanDecision)
    ensures deepScan ==> r == ScanDecision(true, false)
    ensures !deepScan && ExistingState(existing, key) == Unavailable ==> r == ScanDecision(fileExists, false)
    ensures !deepScan && ExistingState(existing, key) != Unavailable && Some(ExistingEtag(existing, key)) == incomingEtag ==>
              r == ScanDecision(false, !fileExists)
    ensures !deepScan && ExistingState(existing, key) != Unavailable && Some(ExistingEtag(existing, key)) != incomingEtag ==>
              r == ScanDecision(true, false)
    ensures r.flagUnavailable ==> !r.scan && !fileExists
  {
    if deepScan then ScanDecision(true, false)
    else
      var tag := ExistingEtag(existing, key);
      var state := ExistingState(existing, key);
      if state == Unavailable then ScanDecision(fileExists, false)
      else if Some(tag) == incomingEtag then ScanDecision(false, !fileExists)
      else ScanDecision(true, false)
  }

  /** A new episode is scanned unless Plex gives it an empty etag. */
  lemma {:induction false} NewEpisodeScanned(existing: seq<ItemEtag>, key: string, incomingEtag: Option<string>, fileExists: bool, deepScan: bool)
    requires forall i :: 0 <= i < |existing| ==> existing[i].key != key
    requires incomingEtag != Some("")
    ensures ShouldScanItem(existing, key, incomingEtag, fileExists, deepScan).scan
  {
  }

  /**
   * The keys flagged as no longer on the server, for shows, seasons and
   * episodes alike: the remembered keys the server did not list, each once.
   */
  function FileNotFoundKeys(existingKeys: seq<string>, incomingKeys: seq<string>): (r: seq<string>)
    ensures forall k :: k in r <==> k in existingKeys && k !in incomingKeys
    ensures forall i, j :: 0 <= i < j < |r| ==> r[i] != r[j]
  {
    Except(existingKeys, incomingKeys)
  }

  /** A scan that lists every remembered key flags nothing. */
  lemma {:induction false} FullListingFlagsNothing(existingKeys: seq<string>, incomingKeys: seq<string>)
    requires forall k :: k in existingKeys ==> k in incomingKeys
    ensures FileNotFoundKeys(existingKeys, incomingKeys) == []
  {
  }

  /**
   * Show metadata is fetched again for a new show, a changed etag or a deep
   * scan: a deep scan always refreshes, and a known show with an unchanged
   * etag is refreshed only by a deep scan.
   */
  predicate ShouldRefreshShow(isAdded: bool, etagChanged: bool, deepScan: bool): (r: bool)
    ensures deepScan ==> r
    ensures !isAdded && !etagChanged ==> (r <==> deepScan)
  {
    isAdded || etagChanged || deepScan
  }

  datatype StatisticsPlan = StatisticsPlan(refresh: bool, probeLocally: bool)

  /**
   * UpdateStatistics: statistics are refreshed for a new episode, a changed
   * etag, a deep scan or a version without streams; the local file is
   * probed only for a changed etag or a version without streams, and only
   * when the file exists.
   */
  function StatisticsPlanOf(isAdded: bool, etagChanged: bool, deepScan: bool, noStreams: bool, fileExists: bool): (r: StatisticsPlan)
    ensures r.probeLocally ==> r.refresh
    ensures r.refresh <==> isAdded || etagChanged || deepScan || noStreams
    ensures r.probeLocally <==> (etagChanged || noStreams) && fileExists
  {
    var refresh := isAdded || etagChanged || deepScan || noStreams;
    StatisticsPlan(refresh, refresh && (etagChanged || noStreams) && fileExists)
  }

  /**
   * Episode statistics are refreshed under the rule that refreshes show
   * metadata, and also for a version without streams.
   */
  lemma {:induction false} StatisticsFollowShowRule(isAdded: bool, etagChanged: bool, deepScan: bool, noStreams: bool, fileExists: bool)
    ensures StatisticsPlanOf(isAdded, etagChanged, deepScan, noStreams, fileExists).refresh
            <==> ShouldRefreshShow(isAdded, etagChanged, deepScan) || noStreams
  {
  }

  /** A deep scan of an unchanged episode that has streams refreshes without probing the file. */
  lemma {:induction false} DeepScanDoesNotProbe(fileExists: bool)
    ensures StatisticsPlanOf(false, false, true, false, fileExists) == StatisticsPlan(true, false)
  {
  }

  /** After a scan an episode is Normal when its local file exists and Unavailable otherwise. */
  function StateAfterScan(fileExists: bool): (r: MediaItemState)
    ensures r == Normal <==> fileExists
    ensures r == Unavailable <==> !fileExists
  {
    if fileExists then Normal else Unavailable
  }

  /** Plex flags episodes as the media server scanner does for a server that cannot stream remotely. */
  lemma {:induction false} StateAgreesWithoutRemoteStreaming(fileExists: bool)
    ensures StateAfterScan(fileExists) == MediaServerTelevisionScanner.StateAfterScan(fileExists, false)
  {
  }

  /** An added row belongs to the episode it is added to. */
  function OwnedBy(rows: seq<EpisodeMetadata>, episodeId: int): (r: seq<EpisodeMetadata>)
    ensures |r| == |rows|
    ensures forall i :: 0 <= i < |rows| ==>
              r[i] == rows[i].(metadata := rows[i].metadata.(ownerId := episodeId))
  {
    seq(|rows|, i requires 0 <= i < |rows| => rows[i].(metadata := rows[i].metadata.(ownerId := episodeId)))
  }

  lemma {:induction false} OwnedByNumbers(rows: seq<EpisodeMetadata>, episodeId: int)
    ensures Numbers(OwnedBy(rows, episodeId)) == Numbers(rows)
  {
    var r := OwnedBy(rows, episodeId);
    forall n | n in Numbers(rows) ensures n in Numbers(r) {
      var x :| x in rows && x.episodeNumber == n;
      var k :| 0 <= k < |rows| && rows[k] == x;
      assert r[k] in r;
    }
    forall n | n in Numbers(r) ensures n in Numbers(rows) {
      var x :| x in r && x.episodeNumber == n;
      var k :| 0 <= k < |r| && r[k] == x;
      assert rows[k] in rows;
    }
  }

  /** A Plex episode and its metadata rows. */
  class PlexEpisodeItem {
    const id: int
    var metadata: seq<EpisodeMetadata>

    constructor (id: int, metadata: seq<EpisodeMetadata>)
      ensures this.id == id && this.metadata == metadata
    {
      this.id := id;
      this.metadata := metadata;
    }

    /**
     * UpdateMetadata: rows whose episode number is no longer incoming are
     * removed and incoming rows with a new episode number are added to
     * this episode; rows kept are not updated.
     */
    method UpdateMetadata(incoming: seq<EpisodeMetadata>)
      modifies this
      ensures metadata == ToUpdate(old(metadata), incoming) + OwnedBy(ToAdd(old(metadata), incoming), id)
    {
      var existing := metadata;
      var toAdd := ToAdd(existing, incoming);
      metadata := ToUpdate(existing, incoming);
      for j := 0 to |toAdd|
        invariant metadata == ToUpdate(existing, incoming) + OwnedBy(toAdd[..j], id)
      {
        var m := toAdd[j];
        assert OwnedBy(toAdd[..j + 1], id) == OwnedBy(toAdd[..j], id) + [m.(metadata := m.metadata.(ownerId := id))];
        metadata := metadata + [m.(metadata := m.metadata.(ownerId := id))];
      }
      assert toAdd[..|toAdd|] == toAdd;
    }
  }

  /** After UpdateMetadata an episode's rows cover exactly the incoming episode numbers. */
  lemma {:induction false} UpdatedEpisodeNumbers(existing: seq<EpisodeMetadata>, incoming: seq<EpisodeMetadata>, episodeId: int)
    ensures Numbers(ToUpdate(existing, incoming) + OwnedBy(ToAdd(existing, incoming), episodeId)) == Numbers(incoming)
  {
    EpisodePartition(existing, incoming);
    OwnedByNumbers(ToAdd(existing, incoming), episodeId);
    NumbersConcat(ToUpdate(existing, incoming), OwnedBy(ToAdd(existing, incoming), episodeId));
  }
}
