/**
 * The Plex server API client's projections: the normalisation of Plex and
 * legacy agent guids, the guid list of an item, the merging of episodes that
 * share one file, the library projection, the media version built from the
 * stream list, and the poster and fan-art paths.
 */
module PlexServerApi {
  import opened Common
  import opened MetadataTypes

  // ---------------------------------------------------------------------
  // Guids
  // ---------------------------------------------------------------------

  /** string.Replace(pat, ""): every occurrence found scanning left to right is dropped. */
  function RemoveAll(s: string, pat: string): (r: string)
    requires |pat| > 0
    ensures |r| <= |s|
    ensures forall c :: c in r ==> c in s
    decreases |s|
  {
    if |s| < |pat| then s
    else if s[..|pat|] == pat then RemoveAll(s[|pat|..], pat)
    else [s[0]] + RemoveAll(s[1..], pat)
  }

  /** Without a character of the pattern, nothing is removed. */
  lemma {:induction false} RemoveAllAbsent(s: string, pat: string, c: char)
    requires |pat| > 0 && c in pat && c !in s
    ensures RemoveAll(s, pat) == s
    decreases |s|
  {
    if |s| >= |pat| {
      assert s[..|pat|] != pat by {
        var k :| 0 <= k < |pat| && pat[k] == c;
        assert s[..|pat|][k] == s[k];
      }
      RemoveAllAbsent(s[1..], pat, c);
      assert [s[0]] + s[1..] == s;
    }
  }

  /** A separator that is not part of the pattern splits the removal in two. */
  lemma {:induction false} RemoveAllAround(a: string, c: char, b: string, pat: string)
    requires |pat| > 0 && c !in pat && c !in a
    ensures RemoveAll(a + [c] + b, pat) == RemoveAll(a, pat) + [c] + RemoveAll(b, pat)
    decreases |a|, 1
  {
    var s := a + [c] + b;
    if |s| < |pat| {
      assert RemoveAll(a, pat) == a && RemoveAll(b, pat) == b;
    } else if |a| == 0 {
      SeparatorFirst(c, b, pat);
      assert s == [c] + b;
    } else if s[..|pat|] == pat {
      RemoveAllAroundMatch(a, c, b, pat);
    } else {
      RemoveAllAroundNoMatch(a, c, b, pat);
    }
  }

  lemma {:induction false} RemoveAllAroundMatch(a: string, c: char, b: string, pat: string)
    requires |pat| > 0 && c !in pat && c !in a && |a + [c] + b| >= |pat|
    requires (a + [c] + b)[..|pat|] == pat
    ensures RemoveAll(a + [c] + b, pat) == RemoveAll(a, pat) + [c] + RemoveAll(b, pat)
    decreases |a|, 0
  {
    MatchInside(a, c, b, pat);
    RemoveAllAround(a[|pat|..], c, b, pat);
  }

  lemma {:induction false} RemoveAllAroundNoMatch(a: string, c: char, b: string, pat: string)
    requires |pat| > 0 && c !in pat && c !in a && |a| > 0 && |a + [c] + b| >= |pat|
    requires (a + [c] + b)[..|pat|] != pat
    ensures RemoveAll(a + [c] + b, pat) == RemoveAll(a, pat) + [c] + RemoveAll(b, pat)
    decreases |a|, 0
  {
    NoMatchAtHead(a, c, b, pat);
    RemoveAllAround(a[1..], c, b, pat);
  }

  lemma {:induction false} SeparatorFirst(c: char, b: string, pat: string)
    requires |pat| > 0 && c !in pat
    ensures RemoveAll([c] + b, pat) == [c] + RemoveAll(b, pat)
  {
    var s := [c] + b;
    if |s| >= |pat| {
      assert s[..|pat|][0] == c;
      assert s[..|pat|] != pat by { assert pat[0] != c; }
      assert s[1..] == b;
    } else {
      assert RemoveAll(b, pat) == b;
    }
  }

  /** A match at the head of `a + [c] + b` lies inside `a`. */
  lemma {:induction false} MatchInside(a: string, c: char, b: string, pat: string)
    requires |pat| > 0 && c !in pat && |a + [c] + b| >= |pat|
    requires (a + [c] + b)[..|pat|] == pat
    ensures |pat| <= |a| && a[..|pat|] == pat
    ensures RemoveAll(a + [c] + b, pat) == RemoveAll(a[|pat|..] + [c] + b, pat)
    ensures RemoveAll(a, pat) == RemoveAll(a[|pat|..], pat)
  {
    var s := a + [c] + b;
    if |pat| > |a| {
      SeparatorInPrefix(a, c, b, |pat|);
    }
    assert a[..|pat|] == s[..|pat|];
    assert s[|pat|..] == a[|pat|..] + [c] + b;
  }

  lemma {:induction false} SeparatorInPrefix(a: string, c: char, b: string, n: nat)
    requires |a| < n <= |a + [c] + b|
    ensures c in (a + [c] + b)[..n]
  {
    assert (a + [c] + b)[..n][|a|] == c;
  }

  /** Without a match at the head, the first character of `a` is kept. */
  lemma {:induction false} NoMatchAtHead(a: string, c: char, b: string, pat: string)
    requires |pat| > 0 && |a| > 0 && |a + [c] + b| >= |pat|
    requires (a + [c] + b)[..|pat|] != pat
    ensures RemoveAll(a + [c] + b, pat) == [a[0]] + RemoveAll(a[1..] + [c] + b, pat)
    ensures RemoveAll(a, pat) == [a[0]] + RemoveAll(a[1..], pat)
  {
    var s := a + [c] + b;
    if |a| >= |pat| {
      assert a[..|pat|] == s[..|pat|];
    } else {
      assert RemoveAll(a, pat) == a;
      assert RemoveAll(a[1..], pat) == a[1..];
      assert [a[0]] + a[1..] == a;
    }
    assert s[1..] == a[1..] + [c] + b;
  }

  const ImdbAgent: string := "com.plexapp.agents.imdb"
  const TvdbAgent: string := "com.plexapp.agents.thetvdb"
  const TmdbAgent: string := "com.plexapp.agents.themoviedb"

  /** Guids that Plex's own agents give shows, seasons, episodes and movies. */
  predicate IsPlexGuid(guid: string)
  {
    StartsWith(guid, "plex://show") || StartsWith(guid, "plex://season") ||
    StartsWith(guid, "plex://episode") || StartsWith(guid, "plex://movie")
  }

  predicate IsLegacyAgentGuid(guid: string)
  {
    StartsWith(guid, ImdbAgent) || StartsWith(guid, TvdbAgent) || StartsWith(guid, TmdbAgent)
  }

  /** The id of a legacy agent guid: the agent prefix removed, cut at the first '?'. */
  function AgentId(guid: string, agent: string): string
  {
    Before(RemoveAll(guid, agent + "://"), '?')
  }

  /**
   * NormalizeGuid: Plex guids are kept as they are, the legacy imdb, thetvdb
   * and themoviedb agent guids become imdb://, tvdb:// and tmdb:// guids,
   * and every other guid (local:// among them) is dropped.
   */
  function NormalizeGuid(guid: string): (r: Option<string>)
    ensures r.None? <==> !IsPlexGuid(guid) && !IsLegacyAgentGuid(guid)
    ensures IsPlexGuid(guid) ==> r == Some(guid)
    ensures r.Some? && !IsPlexGuid(guid) ==>
              StartsWith(r.value, "imdb://") || StartsWith(r.value, "tvdb://") || StartsWith(r.value, "tmdb://")
    ensures r.Some? ==> '?' !in r.value || IsPlexGuid(guid)
  {
    if IsPlexGuid(guid) then Some(guid)
    else if StartsWith(guid, ImdbAgent) then Some("imdb://" + AgentId(guid, ImdbAgent))
    else if StartsWith(guid, TvdbAgent) then Some("tvdb://" + AgentId(guid, TvdbAgent))
    else if StartsWith(guid, TmdbAgent) then Some("tmdb://" + AgentId(guid, TmdbAgent))
    else None
  }

  function SchemeOf(agent: string): string
  {
    if agent == ImdbAgent then "imdb://" else if agent == TvdbAgent then "tvdb://" else "tmdb://"
  }

  /** A legacy agent guid is normalised by the branch of its own agent. */
  lemma {:induction false} NormalizeLegacy(g: string, agent: string)
    requires agent == ImdbAgent || agent == TvdbAgent || agent == TmdbAgent
    requires StartsWith(g, agent)
    ensures NormalizeGuid(g) == Some(SchemeOf(agent) + AgentId(g, agent))
  {
    assert g[..|agent|][0] == g[0];
    assert g[0] == 'c';
    assert g[..|agent|][19] == g[19] && g[..|agent|][22] == g[22];
    assert !StartsWith(g, "plex://show") && !StartsWith(g, "plex://season") by {
      assert g[..11][0] == g[0] && g[..13][0] == g[0];
    }
    assert !StartsWith(g, "plex://episode") && !StartsWith(g, "plex://movie") by {
      assert g[..14][0] == g[0] && g[..12][0] == g[0];
    }
    if agent != ImdbAgent {
      assert g[..|ImdbAgent|][19] == g[19];
    }
    if agent == TmdbAgent {
      assert g[..|TvdbAgent|][22] == g[22];
    }
  }

  lemma {:induction false} AgentIdPlain(agent: string, id: string)
    requires ':' !in id && '?' !in id
    ensures AgentId(agent + "://" + id, agent) == id
  {
    var pat := agent + "://";
    assert pat[|agent|] == ':';
    RemoveAllAbsent(id, pat, ':');
    var g := pat + id;
    assert g[..|pat|] == pat;
    assert g[|pat|..] == id;
    BeforeAbsent(id, '?');
  }

  lemma {:induction false} AgentIdQuery(agent: string, id: string, query: string)
    requires '?' !in agent && ':' !in id && '?' !in id
    ensures AgentId(agent + "://" + id + "?" + query, agent) == id
  {
    var pat := agent + "://";
    assert pat[|agent|] == ':';
    assert '?' !in pat;
    RemoveAllAbsent(id, pat, ':');
    var q := pat + id + "?" + query;
    assert q[..|pat|] == pat;
    assert q[|pat|..] == id + ['?'] + query;
    RemoveAllAround(id, '?', query, pat);
    BeforeAt(id, '?', RemoveAll(query, pat));
  }

  /** The id of a legacy agent guid survives normalisation, with any query after '?' dropped. */
  lemma {:induction false} LegacyGuidRoundTrip(agent: string, id: string, query: string)
    requires agent == ImdbAgent || agent == TvdbAgent || agent == TmdbAgent
    requires '?' !in id && ':' !in id
    ensures NormalizeGuid(agent + "://" + id) == Some(SchemeOf(agent) + id)
    ensures NormalizeGuid(agent + "://" + id + "?" + query) == Some(SchemeOf(agent) + id)
  {
    LegacyGuidPlain(agent, id);
    LegacyGuidQuery(agent, id, query);
  }

  lemma {:induction false} LegacyGuidPlain(agent: string, id: string)
    requires agent == ImdbAgent || agent == TvdbAgent || agent == TmdbAgent
    requires '?' !in id && ':' !in id
    ensures NormalizeGuid(agent + "://" + id) == Some(SchemeOf(agent) + id)
  {
    var g := agent + "://" + id;
    assert g[..|agent|] == agent;
    NormalizeLegacy(g, agent);
    AgentIdPlain(agent, id);
  }

  lemma {:induction false} LegacyGuidQuery(agent: string, id: string, query: string)
    requires agent == ImdbAgent || agent == TvdbAgent || agent == TmdbAgent
    requires '?' !in id && ':' !in id
    ensures NormalizeGuid(agent + "://" + id + "?" + query) == Some(SchemeOf(agent) + id)
  {
    var q := agent + "://" + id + "?" + query;
    assert q[..|agent|] == agent;
    NormalizeLegacy(q, agent);
    AgentIdQuery(agent, id, query);
  }

  lemma {:induction false} BeforeAbsent(s: string, c: char)
    requires c !in s
    ensures Before(s, c) == s
  {
  }

  lemma {:induction false} BeforeAt(a: string, c: char, b: string)
    requires c !in a
    ensures Before(a + [c] + b, c) == a
  {
    if a != [] {
      assert (a + [c] + b)[1..] == a[1..] + [c] + b;
      BeforeAt(a[1..], c, b);
    }
  }

  /**
   * The guid part of a metadata response: an XML response carries its guid
   * list and the item's Plex guid; a JSON response carries neither.
   */
  datatype GuidResponse = XmlGuids(guids: seq<string>, plexGuid: Option<string>) | JsonGuids

  /** The normalised Plex guid of an XML response, when it is non-blank and normalises. */
  function NormalizedPlexGuid(plexGuid: Option<string>): Option<string>
  {
    if IsBlankOpt(plexGuid) then None else NormalizeGuid(plexGuid.value)
  }

  /**
   * The item's guids: the XML guids in order, then the normalised Plex guid
   * when it is not already among them; none for a JSON response.
   */
  function ItemGuids(response: GuidResponse): (r: seq<MetadataGuid>)
    ensures response.JsonGuids? ==> r == []
    ensures response.XmlGuids? ==>
              var n := |response.guids|;
              && n <= |r| <= n + 1
              && (forall i :: 0 <= i < n ==> r[i] == MetadataGuid(response.guids[i]))
              && (|r| == n + 1 <==> NormalizedPlexGuid(response.plexGuid).Some? &&
                                    NormalizedPlexGuid(response.plexGuid).value !in response.guids)
              && (|r| == n + 1 ==> r[n] == MetadataGuid(NormalizedPlexGuid(response.plexGuid).value))
    ensures response.XmlGuids? && NormalizedPlexGuid(response.plexGuid).Some? ==>
              MetadataGuid(NormalizedPlexGuid(response.plexGuid).value) in r
  {
    match response
    case JsonGuids => []
    case XmlGuids(guids, plexGuid) =>
      var listed := seq(|guids|, i requires 0 <= i < |guids| => MetadataGuid(guids[i]));
      match NormalizedPlexGuid(plexGuid)
      case None => listed
      case Some(g) =>
        if MetadataGuid(g) in listed then
          var k :| 0 <= k < |listed| && listed[k] == MetadataGuid(g);
          assert guids[k] == g;
          listed
        else
          listed + [MetadataGuid(g)]
  }

  /** An item whose XML guids are distinct gets distinct guids. */
  lemma {:induction false} ItemGuidsDistinct(response: GuidResponse)
    requires response.XmlGuids?
    requires forall i, j :: 0 <= i < j < |response.guids| ==> response.guids[i] != response.guids[j]
    ensures forall i, j :: 0 <= i < j < |ItemGuids(response)| ==> ItemGuids(response)[i] != ItemGuids(response)[j]
  {
    var r := ItemGuids(response);
    var n := |response.guids|;
    forall i, j | 0 <= i < j < |r| ensures r[i] != r[j] {
      if j == n {
        assert r[i] == MetadataGuid(response.guids[i]);
        assert response.guids[i] in response.guids;
      }
    }
  }

  // ---------------------------------------------------------------------
  // Artwork
  // ---------------------------------------------------------------------

  /** The artwork path of a Plex image: "plex/{mediaSourceId}{path}". */
  function ArtworkPath(mediaSourceId: nat, path: string): string
  {
    "plex/" + NatToString(mediaSourceId) + path
  }

  /**
   * The artwork of a Plex item: a poster from a non-blank thumb, then fan art
   * from a non-blank art, both dated with the item's added and updated times.
   */
  function PlexArtwork(mediaSourceId: nat, thumb: Option<string>, art: Option<string>, dateAdded: int, lastWriteTime: int): (r: seq<Artwork>)
    ensures |r| <= 2
    ensures forall a :: a in r ==> a.dateAdded == dateAdded && a.dateUpdated == lastWriteTime
    ensures (exists a :: a in r && a.kind == Poster) <==> !IsBlankOpt(thumb)
    ensures (exists a :: a in r && a.kind == FanArt) <==> !IsBlankOpt(art)
    ensures forall a :: a in r && a.kind == Poster ==> thumb.Some? && a.path == ArtworkPath(mediaSourceId, thumb.value)
    ensures forall a :: a in r && a.kind == FanArt ==> art.Some? && a.path == ArtworkPath(mediaSourceId, art.value)
    ensures forall a :: a in r ==> a.kind == Poster || a.kind == FanArt
  {
    (if IsBlankOpt(thumb) then [] else [Artwork(ArtworkPath(mediaSourceId, thumb.value), Poster, dateAdded, lastWriteTime)]) +
    (if IsBlankOpt(art) then [] else [Artwork(ArtworkPath(mediaSourceId, art.value), FanArt, dateAdded, lastWriteTime)])
  }

  /**
   * Plex image paths begin with '/', so an artwork path names its media
   * source and its image unambiguously.
   */
  lemma {:induction false} ArtworkPathInjective(i: nat, p: string, j: nat, q: string)
    requires |p| > 0 && p[0] == '/' && |q| > 0 && q[0] == '/'
    requires ArtworkPath(i, p) == ArtworkPath(j, q)
    ensures i == j && p == q
  {
    var x := NatToString(i) + p;
    var y := NatToString(j) + q;
    assert x == ArtworkPath(i, p)[5..];
    assert y == ArtworkPath(j, q)[5..];
    DigitsBeforeSlash(i, p);
    DigitsBeforeSlash(j, q);
    ParseNatRoundTrip(i);
    ParseNatRoundTrip(j);
    assert p == x[|NatToString(i)|..];
  }

  /** The digits of a number followed by a path that starts with '/' end at that '/'. */
  lemma {:induction false} DigitsBeforeSlash(n: nat, p: string)
    requires |p| > 0 && p[0] == '/'
    ensures Before(NatToString(n) + p, '/') == NatToString(n)
  {
    var d := NatToString(n);
    assert '/' !in d;
    assert d + p == d + ['/'] + p[1..];
    BeforeAt(d, '/', p[1..]);
  }

  // ---------------------------------------------------------------------
  // Libraries
  // ---------------------------------------------------------------------

  datatype PlexLibraryResponse = PlexLibraryResponse(key: string, title: string, libraryType: string, uuid: string)

  /**
   * Project: a "show" library becomes a Shows library and a "movie" library
   * a Movies library, each not synchronised by default and with the single
   * path plex://{uuid}; any other library type is not projected.
   */
  function ProjectLibrary(response: PlexLibraryResponse): (r: Option<ServerLibrary>)
    ensures r.Some? <==> response.libraryType == "show" || response.libraryType == "movie"
    ensures r.Some? ==> r.value.key == response.key && r.value.name == response.title && !r.value.shouldSyncItems
    ensures r.Some? ==> (r.value.mediaKind == Shows <==> response.libraryType == "show")
    ensures r.Some? ==> (r.value.mediaKind == Movies <==> response.libraryType == "movie")
    ensures r.Some? ==> |r.value.paths| == 1 && StartsWith(r.value.paths[0], "plex://") && r.value.paths[0][7..] == response.uuid
  {
    var paths := ["plex://" + response.uuid];
    assert paths[0][..7] == "plex://";
    if response.libraryType == "show" then Some(ServerLibrary(response.key, response.title, Shows, false, paths))
    else if response.libraryType == "movie" then Some(ServerLibrary(response.key, response.title, Movies, false, paths))
    else None
  }

  // ---------------------------------------------------------------------
  // Episodes that share one file
  // ---------------------------------------------------------------------

  /**
   * A Plex episode as the merge sees it: its key, the path of the first file
   * of its first media version, and its episode metadata rows.
   */
  datatype PlexEpisode = PlexEpisode(key: string, path: string, metadata: seq<EpisodeMetadata>)

  predicate AllHaveMetadata(s: seq<PlexEpisode>)
  {
    forall i :: 0 <= i < |s| ==> |s[i].metadata| > 0
  }

  /** The episode number of an episode's first metadata row. */
  function HeadNumber(e: PlexEpisode): int
  {
    if |e.metadata| > 0 then e.metadata[0].episodeNumber else 0
  }

  function PathsOf(s: seq<PlexEpisode>): set<string>
  {
    set i | 0 <= i < |s| :: s[i].path
  }

  predicate DistinctPaths(s: seq<PlexEpisode>)
  {
    forall i, j :: 0 <= i < j < |s| ==> s[i].path != s[j].path
  }

  /** The first episode with the given path. */
  function IndexOfPath(s: seq<PlexEpisode>, path: string): (r: Option<nat>)
    ensures r.Some? ==> r.value < |s| && s[r.value].path == path
    ensures r.Some? ==> forall j :: 0 <= j < r.value ==> s[j].path != path
    ensures r.None? <==> path !in PathsOf(s)
  {
    if s == [] then None
    else if s[0].path == path then Some(0)
    else
      match IndexOfPath(s[1..], path)
      case None =>
        assert forall i :: 1 <= i < |s| ==> s[i] == s[1..][i - 1];
        None
      case Some(i) =>
        assert s[1..][i] == s[i + 1];
        Some(i + 1)
  }

  /** Among distinct paths, the only episode with a path is the first. */
  lemma {:induction false} IndexOfDistinctPath(s: seq<PlexEpisode>, i: nat)
    requires DistinctPaths(s) && i < |s|
    ensures IndexOfPath(s, s[i].path) == Some(i)
  {
    assert s[i].path in PathsOf(s);
  }

  /** The episode `e` joins `merged`: its first metadata row goes to the episode with its path, or it is appended. */
  function MergeOne(merged: seq<PlexEpisode>, e: PlexEpisode): (r: seq<PlexEpisode>)
    requires |e.metadata| > 0
  {
    match IndexOfPath(merged, e.path)
    case Some(i) => merged[i := merged[i].(metadata := merged[i].metadata + [e.metadata[0]])]
    case None => merged + [e]
  }

  /**
   * The episodes taken in order, each episode whose path was already seen
   * contributing its first metadata row to the episode first seen with it.
   */
  function Merge(s: seq<PlexEpisode>): (r: seq<PlexEpisode>)
    requires AllHaveMetadata(s)
    ensures AllHaveMetadata(r)
    ensures DistinctPaths(r)
    ensures PathsOf(r) == PathsOf(s)
    ensures |r| <= |s|
  {
    if s == [] then []
    else
      var front := s[..|s| - 1];
      var e := s[|s| - 1];
      var m := Merge(front);
      assert PathsOf(s) == PathsOf(front) + {e.path} by {
        assert forall i :: 0 <= i < |front| ==> front[i] == s[i];
      }
      var r := MergeOne(m, e);
      if IndexOfPath(m, e.path).Some? then
        assert PathsOf(r) == PathsOf(m) by {
          var i := IndexOfPath(m, e.path).value;
          assert forall k :: 0 <= k < |m| ==> r[k].path == m[k].path;
        }
        r
      else
        assert PathsOf(r) == PathsOf(m) + {e.path} by {
          assert forall k :: 0 <= k < |m| ==> r[k] == m[k];
          assert r[|m|] == e;
        }
        r
  }

  lemma {:induction false} MergeSnoc(s: seq<PlexEpisode>, e: PlexEpisode)
    requires AllHaveMetadata(s) && |e.metadata| > 0
    ensures AllHaveMetadata(s + [e])
    ensures Merge(s + [e]) == MergeOne(Merge(s), e)
  {
    assert (s + [e])[..|s|] == s;
  }

  /** The dictionary from path to position agrees with the merged episodes. */
  predicate IndexedBy(r: seq<PlexEpisode>, byPath: map<string, nat>)
  {
    && byPath.Keys == PathsOf(r)
    && forall p :: p in byPath ==> byPath[p] < |r| && r[byPath[p]].path == p
  }

  /** One step of the merge: the dictionary lookup, then the metadata append or the new entry. */
  method MergeInto(r: seq<PlexEpisode>, byPath: map<string, nat>, e: PlexEpisode)
    returns (r': seq<PlexEpisode>, byPath': map<string, nat>)
    requires DistinctPaths(r) && IndexedBy(r, byPath) && |e.metadata| > 0
    ensures r' == MergeOne(r, e)
    ensures IndexedBy(r', byPath')
  {
    if e.path in byPath {
      var i := byPath[e.path];
      IndexOfDistinctPath(r, i);
      r' := r[i := r[i].(metadata := r[i].metadata + [e.metadata[0]])];
      byPath' := byPath;
      assert forall k :: 0 <= k < |r| ==> r'[k].path == r[k].path;
      assert PathsOf(r') == PathsOf(r);
    } else {
      r' := r + [e];
      byPath' := byPath[e.path := |r|];
      assert forall k :: 0 <= k < |r| ==> r'[k] == r[k];
      assert r'[|r|] == e;
      assert PathsOf(r') == PathsOf(r) + {e.path} by {
        forall p | p in PathsOf(r') ensures p in PathsOf(r) + {e.path} {
          var k :| 0 <= k < |r'| && r'[k].path == p;
          if k < |r| { assert r[k].path == p; }
        }
      }
    }
  }

  /**
   * ProcessMultiEpisodeFiles: the episodes in order of their first episode
   * number, merged by file path through a dictionary from path to position.
   */
  method ProcessMultiEpisodeFiles(episodes: seq<PlexEpisode>) returns (r: seq<PlexEpisode>)
    requires AllHaveMetadata(episodes)
    ensures AllHaveMetadata(SortBy(episodes, HeadNumber))
    ensures r == Merge(SortBy(episodes, HeadNumber))
  {
    var sorted := SortBy(episodes, HeadNumber);
    SortedHaveMetadata(episodes);
    r := [];
    var byPath: map<string, nat> := map[];
    for k := 0 to |sorted|
      invariant AllHaveMetadata(sorted[..k])
      invariant r == Merge(sorted[..k])
      invariant IndexedBy(r, byPath)
    {
      MergeStep(sorted, k);
      r, byPath := MergeInto(r, byPath, sorted[k]);
    }
    assert sorted[..|sorted|] == sorted;
  }

  lemma {:induction false} SortedHaveMetadata(episodes: seq<PlexEpisode>)
    requires AllHaveMetadata(episodes)
    ensures AllHaveMetadata(SortBy(episodes, HeadNumber))
  {
    var sorted := SortBy(episodes, HeadNumber);
    forall i | 0 <= i < |sorted| ensures |sorted[i].metadata| > 0 {
      assert sorted[i] in multiset(episodes);
    }
  }

  /** Merging one more episode of `sorted` is one MergeOne. */
  lemma {:induction false} MergeStep(sorted: seq<PlexEpisode>, k: nat)
    requires AllHaveMetadata(sorted) && k < |sorted|
    ensures |sorted[k].metadata| > 0 && AllHaveMetadata(sorted[..k]) && AllHaveMetadata(sorted[..k + 1])
    ensures Merge(sorted[..k + 1]) == MergeOne(Merge(sorted[..k]), sorted[k])
  {
    assert sorted[..k + 1] == sorted[..k] + [sorted[k]];
    MergeSnoc(sorted[..k], sorted[k]);
  }

  function HeadNumbers(s: seq<PlexEpisode>): set<int>
  {
    set i | 0 <= i < |s| :: HeadNumber(s[i])
  }

  /** Merging only appends rows, so every merged episode keeps the first row it came with. */
  lemma {:induction false} MergeHeads(s: seq<PlexEpisode>)
    requires AllHaveMetadata(s)
    ensures HeadNumbers(Merge(s)) <= HeadNumbers(s)
  {
    if s != [] {
      var front := s[..|s| - 1];
      var e := s[|s| - 1];
      MergeHeads(front);
      assert s == front + [e];
      MergeSnoc(front, e);
      var m := Merge(front);
      var r := Merge(s);
      forall k | k in HeadNumbers(r) ensures k in HeadNumbers(s) {
        var i :| 0 <= i < |r| && HeadNumber(r[i]) == k;
        if i < |m| {
          assert HeadNumber(r[i]) == HeadNumber(m[i]);
          assert HeadNumber(m[i]) in HeadNumbers(m);
          var j :| 0 <= j < |front| && HeadNumber(front[j]) == k;
          assert s[j] == front[j];
        } else {
          assert r[i] == e;
          assert HeadNumber(s[|s| - 1]) in HeadNumbers(s);
        }
      }
    }
  }

  /** Episodes taken in episode-number order stay in that order once merged. */
  lemma {:induction false} MergeSorted(s: seq<PlexEpisode>)
    requires AllHaveMetadata(s) && SortedBy(s, HeadNumber)
    ensures SortedBy(Merge(s), HeadNumber)
  {
    if s != [] {
      var front := s[..|s| - 1];
      var e := s[|s| - 1];
      assert s == front + [e];
      MergeSorted(front);
      MergeHeads(front);
      MergeSnoc(front, e);
      var m := Merge(front);
      match IndexOfPath(m, e.path)
      case Some(i) =>
        SortedUnderSameHead(m, i, m[i].(metadata := m[i].metadata + [e.metadata[0]]));
      case None =>
        HeadsNotAfterLast(s, m);
        SortedSnoc(m, e, HeadNumber);
    }
  }

  /** Replacing an episode by one with the same first episode number keeps the order. */
  lemma {:induction false} SortedUnderSameHead(m: seq<PlexEpisode>, i: nat, x: PlexEpisode)
    requires SortedBy(m, HeadNumber) && i < |m| && |m[i].metadata| > 0
    requires |m[i].metadata| <= |x.metadata| && x.metadata[..|m[i].metadata|] == m[i].metadata
    ensures SortedBy(m[i := x], HeadNumber)
  {
    assert HeadNumber(x) == HeadNumber(m[i]) by {
      assert x.metadata[0] == m[i].metadata[0];
    }
  }

  /** Episodes whose first numbers all come from a sorted run's front start no later than its last one. */
  lemma {:induction false} HeadsNotAfterLast(s: seq<PlexEpisode>, m: seq<PlexEpisode>)
    requires s != [] && SortedBy(s, HeadNumber)
    requires HeadNumbers(m) <= HeadNumbers(s[..|s| - 1])
    ensures forall k :: 0 <= k < |m| ==> HeadNumber(m[k]) <= HeadNumber(s[|s| - 1])
  {
    var front := s[..|s| - 1];
    forall k | 0 <= k < |m| ensures HeadNumber(m[k]) <= HeadNumber(s[|s| - 1]) {
      assert HeadNumber(m[k]) in HeadNumbers(m);
      var j :| 0 <= j < |front| && HeadNumber(front[j]) == HeadNumber(m[k]);
      assert front[j] == s[j];
    }
  }

  function TotalMetadata(s: seq<PlexEpisode>): nat
  {
    if s == [] then 0 else TotalMetadata(s[..|s| - 1]) + |s[|s| - 1].metadata|
  }

  lemma {:induction false} TotalMetadataUpdate(s: seq<PlexEpisode>, i: nat, x: PlexEpisode)
    requires i < |s|
    ensures TotalMetadata(s[i := x]) == TotalMetadata(s) - |s[i].metadata| + |x.metadata|
  {
    var t := s[i := x];
    if i < |s| - 1 {
      assert t[..|t| - 1] == s[..|s| - 1][i := x];
      TotalMetadataUpdate(s[..|s| - 1], i, x);
    } else {
      assert t[..|t| - 1] == s[..|s| - 1];
    }
  }

  /** With one metadata row per episode, as the projection makes them, no row is lost or duplicated. */
  lemma {:induction false} MergeKeepsEveryRow(s: seq<PlexEpisode>)
    requires forall i :: 0 <= i < |s| ==> |s[i].metadata| == 1
    ensures TotalMetadata(Merge(s)) == |s|
  {
    if s != [] {
      var front := s[..|s| - 1];
      var e := s[|s| - 1];
      assert s == front + [e];
      MergeKeepsEveryRow(front);
      MergeSnoc(front, e);
      var m := Merge(front);
      match IndexOfPath(m, e.path)
      case Some(i) =>
        TotalMetadataUpdate(m, i, m[i].(metadata := m[i].metadata + [e.metadata[0]]));
      case None =>
        assert (m + [e])[..|m|] == m;
    }
  }

  /**
   * What ProcessMultiEpisodeFiles returns: one episode per distinct file
   * path, in episode-number order, the paths being those of the input and,
   * with one row per input episode, every row kept.
   */
  lemma {:induction false} ProcessedEpisodes(episodes: seq<PlexEpisode>)
    requires forall i :: 0 <= i < |episodes| ==> |episodes[i].metadata| == 1
    ensures AllHaveMetadata(SortBy(episodes, HeadNumber))
    ensures DistinctPaths(Merge(SortBy(episodes, HeadNumber)))
    ensures PathsOf(Merge(SortBy(episodes, HeadNumber))) == PathsOf(episodes)
    ensures SortedBy(Merge(SortBy(episodes, HeadNumber)), HeadNumber)
    ensures TotalMetadata(Merge(SortBy(episodes, HeadNumber))) == |episodes|
  {
    var sorted := SortBy(episodes, HeadNumber);
    forall i | 0 <= i < |sorted| ensures |sorted[i].metadata| == 1 {
      assert sorted[i] in multiset(episodes);
    }
    assert PathsOf(sorted) == PathsOf(episodes) by {
      forall p | p in PathsOf(sorted) ensures p in PathsOf(episodes) {
        var i :| 0 <= i < |sorted| && sorted[i].path == p;
        assert sorted[i] in multiset(episodes);
        var j :| 0 <= j < |episodes| && episodes[j] == sorted[i];
      }
      forall p | p in PathsOf(episodes) ensures p in PathsOf(sorted) {
        var i :| 0 <= i < |episodes| && episodes[i].path == p;
        assert episodes[i] in multiset(sorted);
        var j :| 0 <= j < |sorted| && sorted[j] == episodes[i];
      }
    }
    assert |sorted| == |multiset(sorted)| == |episodes|;
    MergeSorted(sorted);
    MergeKeepsEveryRow(sorted);
  }

  // ---------------------------------------------------------------------
  // Media versions
  // ---------------------------------------------------------------------

  /** A stream of a Plex part: type 1 is video, 2 audio and 3 subtitles. */
  datatype PlexStream = PlexStream(
    streamType: int, index: int, codec: Option<string>, profile: Option<string>,
    isDefault: bool, forced: bool, languageCode: Option<string>, channels: int,
    pixelAspectRatio: Option<string>, scanType: Option<string>)

  predicate IsAudio(s: PlexStream) { s.streamType == 2 }
  predicate IsSubtitle(s: PlexStream) { s.streamType == 3 }

  /** List.Find: the first stream of the given type. */
  function FirstOfType(streams: seq<PlexStream>, streamType: int): (r: Option<PlexStream>)
    ensures r.None? <==> forall i :: 0 <= i < |streams| ==> streams[i].streamType != streamType
    ensures r.Some? ==> exists i :: 0 <= i < |streams| && streams[i] == r.value &&
                          r.value.streamType == streamType &&
                          forall j :: 0 <= j < i ==> streams[j].streamType != streamType
  {
    if streams == [] then None
    else if streams[0].streamType == streamType then Some(streams[0])
    else
      var r := FirstOfType(streams[1..], streamType);
      assert forall i :: 1 <= i < |streams| ==> streams[i] == streams[1..][i - 1];
      if r.Some? then
        var i :| 0 <= i < |streams[1..]| && streams[1..][i] == r.value &&
                 forall j :: 0 <= j < i ==> streams[1..][j].streamType != streamType;
        assert streams[i + 1] == r.value;
        r
      else r
  }

  function ScanKindOf(scanType: Option<string>): VideoScanKind
  {
    if scanType == Some("interlaced") then Interlaced
    else if scanType == Some("progressive") then Progressive
    else UnknownScan
  }

  /** A profile lower-cased, a missing one read as empty. */
  function LowerProfile(profile: Option<string>): Option<string>
  {
    Some(ToLower(profile.GetOr("")))
  }

  function VideoStreamOf(s: PlexStream): MediaStream
  {
    MediaStream(0, s.index, BasicProps(VideoStream, s.codec, LowerProfile(s.profile), s.languageCode, 0, s.isDefault, s.forced))
  }

  function AudioStreamOf(s: PlexStream): MediaStream
  {
    MediaStream(0, s.index, BasicProps(AudioStream, s.codec, LowerProfile(s.profile), s.languageCode, s.channels, s.isDefault, s.forced))
  }

  function SubtitleStreamOf(s: PlexStream): MediaStream
  {
    MediaStream(0, s.index, BasicProps(SubtitleStream, s.codec, None, s.languageCode, 0, s.isDefault, s.forced))
  }

  function MapStreams(s: seq<PlexStream>, f: PlexStream -> MediaStream): (r: seq<MediaStream>)
    ensures |r| == |s| && forall i :: 0 <= i < |s| ==> r[i] == f(s[i])
  {
    seq(|s|, i requires 0 <= i < |s| => f(s[i]))
  }

  /** The version's streams: the video stream, then every audio stream, then every subtitle stream. */
  function VersionStreams(video: PlexStream, streams: seq<PlexStream>): seq<MediaStream>
  {
    [VideoStreamOf(video)] + MapStreams(Filter(streams, IsAudio), AudioStreamOf) + MapStreams(Filter(streams, IsSubtitle), SubtitleStreamOf)
  }

  /** The version built around a video stream, updated at the given ticks. */
  function VersionOf(video: PlexStream, streams: seq<PlexStream>, dateUpdated: int): MediaVersion
  {
    MediaVersion(0, None, 0, Some(video.pixelAspectRatio.GetOr("1:1")), None, 0, 0, ScanKindOf(video.scanType),
                 None, 0, dateUpdated, VersionStreams(video, streams), [])
  }

  /** The streams of one type mapped in order, as the foreach over the filtered list adds them. */
  method AddStreams(streams: seq<PlexStream>, p: PlexStream -> bool, f: PlexStream -> MediaStream, acc: seq<MediaStream>)
    returns (r: seq<MediaStream>)
    ensures r == acc + MapStreams(Filter(streams, p), f)
  {
    r := acc;
    for k := 0 to |streams|
      invariant r == acc + MapStreams(Filter(streams[..k], p), f)
    {
      FilterSnoc(streams, k, p);
      if p(streams[k]) {
        r := r + [f(streams[k])];
      }
    }
    assert streams[..|streams|] == streams;
  }

  /**
   * ProjectToMediaVersion: no version without a video stream; otherwise the
   * first video stream gives the aspect ratio ("1:1" when missing) and the
   * scan kind, and the streams are the video stream, the audio streams and
   * the subtitle streams.
   */
  method ProjectToMediaVersion(streams: seq<PlexStream>, updatedAt: int) returns (r: Option<MediaVersion>)
    ensures r.None? <==> FirstOfType(streams, 1).None?
    ensures r.Some? ==> r.value == VersionOf(FirstOfType(streams, 1).value, streams, FromUnixSeconds(updatedAt))
  {
    var maybeVideo := FirstOfType(streams, 1);
    if maybeVideo.None? {
      return None;
    }
    var video := maybeVideo.value;
    var all := [VideoStreamOf(video)];
    all := AddStreams(streams, IsAudio, AudioStreamOf, all);
    all := AddStreams(streams, IsSubtitle, SubtitleStreamOf, all);
    r := Some(MediaVersion(0, None, 0, Some(video.pixelAspectRatio.GetOr("1:1")), None, 0, 0, ScanKindOf(video.scanType),
                           None, 0, FromUnixSeconds(updatedAt), all, []));
  }

  /** A stream is among the mapped filtered streams exactly when it maps one that passes the filter. */
  lemma {:induction false} MappedFiltered(src: seq<PlexStream>, p: PlexStream -> bool, f: PlexStream -> MediaStream, m: MediaStream)
    ensures m in MapStreams(Filter(src, p), f) <==> exists s :: s in src && p(s) && m == f(s)
  {
    var kept := Filter(src, p);
    var mapped := MapStreams(kept, f);
    if m in mapped {
      var i :| 0 <= i < |mapped| && mapped[i] == m;
      assert kept[i] in kept;
    }
    if exists s :: s in src && p(s) && m == f(s) {
      var s :| s in src && p(s) && m == f(s);
      assert s in kept;
      var i :| 0 <= i < |kept| && kept[i] == s;
      assert mapped[i] == m;
    }
  }

  /**
   * The version has exactly one video stream, the first video response; its
   * audio streams are exactly the type 2 responses and its subtitle streams
   * exactly the type 3 responses, the subtitles without a profile.
   */
  lemma {:induction false} VersionStreamsByKind(video: PlexStream, streams: seq<PlexStream>, m: MediaStream)
    ensures VersionStreams(video, streams)[0] == VideoStreamOf(video)
    ensures m in VersionStreams(video, streams) && m.props.kind == VideoStream <==> m == VideoStreamOf(video)
    ensures m in VersionStreams(video, streams) && m.props.kind == AudioStream <==>
              exists s :: s in streams && IsAudio(s) && m == AudioStreamOf(s)
    ensures m in VersionStreams(video, streams) && m.props.kind == SubtitleStream <==>
              exists s :: s in streams && IsSubtitle(s) && m == SubtitleStreamOf(s)
    ensures m in VersionStreams(video, streams) && m.props.kind == SubtitleStream ==> m.props.profile.None?
  {
    var a := MapStreams(Filter(streams, IsAudio), AudioStreamOf);
    var t := MapStreams(Filter(streams, IsSubtitle), SubtitleStreamOf);
    assert VersionStreams(video, streams) == [VideoStreamOf(video)] + a + t;
    MappedFiltered(streams, IsAudio, AudioStreamOf, m);
    MappedFiltered(streams, IsSubtitle, SubtitleStreamOf, m);
  }
}
