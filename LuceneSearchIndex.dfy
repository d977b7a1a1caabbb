/**
 * The keys the Lucene search index derives from metadata (jump letter,
 * title-and-year duplicate key, guid fields, content ratings, season sort
 * title) and the two pure parts of a search: which hits a page returns and
 * the alphabetical page map that lets the UI jump to a letter. The Lucene
 * searcher itself is a parameter: `hits` is every matching document in sort
 * order.
 */
module LuceneSearchIndex {
  import opened Common

  // ---------------------------------------------------------------------
  // Jump letters and the page map
  // ---------------------------------------------------------------------

  /** The page map's keys, in order: '#' for anything that is not a letter, then a to z. */
  const Letters: string := "#abcdefghijklmnopqrstuvwxyz"

  /** List.IndexOf over Letters: -1 for a character that is not a key. */
  function LetterIndex(c: char): (r: int)
    ensures -1 <= r < |Letters|
    ensures r >= 0 ==> Letters[r] == c
    ensures r == -1 <==> c !in Letters
  {
    if c == '#' then 0
    else if 'a' <= c <= 'z' then c as int - 'a' as int + 1
    else -1
  }

  /**
   * GetJumpLetter: the lowercased first character of the sort title when it
   * is a to z, and '#' otherwise, including for a null or empty sort title.
   */
  function GetJumpLetter(sortTitle: Option<string>): (r: char)
    ensures LetterIndex(r) >= 0
    ensures r != '#' <==>
              sortTitle.Some? && |sortTitle.value| > 0
              && ('a' <= sortTitle.value[0] <= 'z' || 'A' <= sortTitle.value[0] <= 'Z')
    ensures r != '#' ==> r == LowerChar(sortTitle.value[0])
  {
    var s := ToLower(sortTitle.GetOr(" "));
    if |s| == 0 then '#'
    else if 'a' <= s[0] <= 'z' then s[0]
    else '#'
  }

  /** Where the walk stands after `p` pages of `limit` hits out of `n`. */
  function PageEnd(n: nat, limit: int, p: nat): (r: nat)
    requires limit > 0
    ensures r <= n
    ensures p >= 1 && n >= 1 ==> r >= 1
  {
    if p == 0 then 0 else Min(PageEnd(n, limit, p - 1) + limit, n)
  }

  /** The pages still to walk from page `p`, as the number of the last page. */
  function LastPageFrom(n: nat, limit: int, p: nat): (r: nat)
    requires limit > 0
    ensures r >= p && PageEnd(n, limit, r) == n
    ensures forall q :: p <= q < r ==> PageEnd(n, limit, q) < n
    decreases n - PageEnd(n, limit, p)
  {
    if PageEnd(n, limit, p) >= n then p
    else
      assert PageEnd(n, limit, p + 1) > PageEnd(n, limit, p);
      LastPageFrom(n, limit, p + 1)
  }

  /** Number of pages of `limit` hits needed for `n` hits. */
  function PageCount(n: nat, limit: int): (r: nat)
    requires limit > 0
    ensures PageEnd(n, limit, r) == n
    ensures forall q :: 0 <= q < r ==> PageEnd(n, limit, q) < n
    ensures n == 0 <==> r == 0
  {
    LastPageFrom(n, limit, 0)
  }

  /** Page `p` ends after hit min(p * limit, n). */
  lemma {:induction false} PageEndClosedForm(n: nat, limit: int, p: nat)
    requires limit > 0
    ensures PageEnd(n, limit, p) == Min(p * limit, n)
  {
    if p > 0 {
      PageEndClosedForm(n, limit, p - 1);
      assert (p - 1) * limit + limit == p * limit;
    }
  }

  /** The page count is n / limit rounded up. */
  lemma {:induction false} PageCountClosedForm(n: nat, limit: int)
    requires limit > 0
    ensures PageCount(n, limit) == (n + limit - 1) / limit
  {
    var c := PageCount(n, limit);
    PageEndClosedForm(n, limit, c);
    if c > 0 {
      PageEndClosedForm(n, limit, c - 1);
      assert (c - 1) * limit < n <= c * limit;
      assert (c - 1) * limit == c * limit - limit;
      DivUnique(n + limit - 1, limit, c);
    } else {
      DivUnique(n + limit - 1, limit, 0);
    }
  }

  /** The jump letter's key index of the last hit on page `p` (pages count from 1). */
  function PageLetter(jumps: string, limit: int, p: nat): int
    requires limit > 0
    requires 1 <= p <= PageCount(|jumps|, limit)
  {
    LetterIndex(jumps[PageEnd(|jumps|, limit, p) - 1])
  }

  /**
   * The first of pages 1..upTo whose last hit's jump letter is at or after
   * key `k`, or 0 when none is: the page the walk assigns to key `k` after
   * `upTo` pages.
   */
  function FirstReaching(jumps: string, limit: int, k: int, upTo: nat): (r: nat)
    requires limit > 0
    requires upTo <= PageCount(|jumps|, limit)
    ensures r == 0 || 1 <= r <= upTo
    ensures r != 0 ==> k <= PageLetter(jumps, limit, r)
  {
    if upTo == 0 then 0
    else
      var f := FirstReaching(jumps, limit, k, upTo - 1);
      if f != 0 then f
      else if k <= PageLetter(jumps, limit, upTo) then upTo
      else 0
  }

  /** The largest of a run of page numbers; 0 for none (the map always has 27). */
  function SeqMax(s: seq<int>): (r: int)
    ensures forall i :: 0 <= i < |s| ==> s[i] <= r
    ensures |s| > 0 ==> exists i :: 0 <= i < |s| && s[i] == r
  {
    if s == [] then 0
    else if |s| == 1 then s[0]
    else
      var m := SeqMax(s[..|s| - 1]);
      if s[|s| - 1] > m then s[|s| - 1] else m
  }

  /** Page each key reaches while walking the pages, 0 for keys never reached. */
  function Reached(jumps: string, limit: int): (r: seq<int>)
    requires limit > 0
    ensures |r| == |Letters|
  {
    seq(|Letters|, k => FirstReaching(jumps, limit, k, PageCount(|jumps|, limit)))
  }

  /**
   * The search page map, as the page of each key in Letters order: the first
   * page whose last hit has that key's letter or a later one, and for keys no
   * page reaches, the largest page assigned.
   */
  function PageMap(jumps: string, limit: int): (r: seq<int>)
    requires limit > 0
    ensures |r| == |Letters|
  {
    var reached := Reached(jumps, limit);
    var m := SeqMax(reached);
    seq(|Letters|, k requires 0 <= k < |Letters| => if reached[k] == 0 then m else reached[k])
  }

  /** Assigns `page` to every key up to `letter` that has no page yet. */
  method AssignPage(pages: seq<int>, letter: int, page: int) returns (r: seq<int>)
    requires |pages| == |Letters|
    ensures |r| == |Letters|
    ensures forall k :: 0 <= k < |Letters| ==>
              r[k] == (if k <= letter && pages[k] == 0 then page else pages[k])
  {
    r := pages;
    for k := 0 to |Letters|
      invariant |r| == |Letters|
      invariant forall i :: 0 <= i < k ==> r[i] == (if i <= letter && pages[i] == 0 then page else pages[i])
      invariant forall i :: k <= i < |Letters| ==> r[i] == pages[i]
    {
      if k <= letter && r[k] == 0 {
        r := r[k := page];
      }
    }
  }

  /**
   * The walk of GetSearchPageMap: a page (`limit` hits) at a time, each key
   * up to the letter of the page's last hit gets that page unless it has one.
   */
  method WalkPages(jumps: string, limit: int) returns (pages: seq<int>)
    requires limit > 0
    ensures pages == Reached(jumps, limit)
  {
    var n := |jumps|;
    pages := seq(|Letters|, _ => 0);
    var current := 0;
    var page := 0;
    while current < n
      invariant 0 <= page <= PageCount(n, limit)
      invariant current == PageEnd(n, limit, page)
      invariant |pages| == |Letters|
      invariant forall k :: 0 <= k < |Letters| ==> pages[k] == FirstReaching(jumps, limit, k, page)
      decreases n - current
    {
      page := page + 1;
      current := current + limit;
      if current > n {
        current := n;
      }
      assert current == PageEnd(n, limit, page);
      var letter := LetterIndex(jumps[current - 1]);
      assert letter == PageLetter(jumps, limit, page);
      ghost var before := pages;
      pages := AssignPage(pages, letter, page);
      forall k | 0 <= k < |Letters|
        ensures pages[k] == FirstReaching(jumps, limit, k, page)
      {
        assert before[k] == FirstReaching(jumps, limit, k, page - 1);
      }
    }
    assert page == PageCount(n, limit);
  }

  /**
   * GetSearchPageMap: walks the pages, then gives the keys never reached the
   * largest page assigned.
   */
  method GetSearchPageMap(jumps: string, limit: int) returns (pages: seq<int>)
    requires limit > 0
    ensures pages == PageMap(jumps, limit)
  {
    var reached := WalkPages(jumps, limit);
    var max := SeqMax(reached);
    pages := reached;
    for k := 0 to |Letters|
      invariant |pages| == |Letters|
      invariant forall i :: 0 <= i < k ==> pages[i] == (if reached[i] == 0 then max else reached[i])
      invariant forall i :: k <= i < |Letters| ==> pages[i] == reached[i]
    {
      if pages[k] == 0 {
        pages := pages[k := max];
      }
    }
  }

  /** A key that reaches a page is reached by every earlier key, no later. */
  lemma {:induction false} FirstReachingMonotone(jumps: string, limit: int, i: int, j: int, upTo: nat)
    requires limit > 0 && upTo <= PageCount(|jumps|, limit)
    requires i <= j && FirstReaching(jumps, limit, j, upTo) != 0
    ensures FirstReaching(jumps, limit, i, upTo) != 0
    ensures FirstReaching(jumps, limit, i, upTo) <= FirstReaching(jumps, limit, j, upTo)
  {
    assert upTo > 0;
    var fi := FirstReaching(jumps, limit, i, upTo - 1);
    var fj := FirstReaching(jumps, limit, j, upTo - 1);
    if fj != 0 {
      FirstReachingMonotone(jumps, limit, i, j, upTo - 1);
      assert FirstReaching(jumps, limit, i, upTo) == fi;
    } else {
      assert j <= PageLetter(jumps, limit, upTo);
      assert FirstReaching(jumps, limit, i, upTo) == if fi != 0 then fi else upTo;
    }
  }

  /** The page map never decreases along '#', a, ..., z. */
  lemma {:induction false} PageMapMonotone(jumps: string, limit: int, i: int, j: int)
    requires limit > 0
    requires 0 <= i <= j < |Letters|
    ensures PageMap(jumps, limit)[i] <= PageMap(jumps, limit)[j]
  {
    var reached := Reached(jumps, limit);
    if reached[j] != 0 {
      FirstReachingMonotone(jumps, limit, i, j, PageCount(|jumps|, limit));
    }
  }

  /** Key '#' is reached by the first page as soon as there is one. */
  lemma {:induction false} HashReachedFirst(jumps: string, limit: int, upTo: nat)
    requires limit > 0 && 1 <= upTo <= PageCount(|jumps|, limit)
    requires forall i :: 0 <= i < |jumps| ==> LetterIndex(jumps[i]) >= 0
    ensures FirstReaching(jumps, limit, 0, upTo) == 1
  {
    if upTo > 1 {
      HashReachedFirst(jumps, limit, upTo - 1);
    } else {
    }
  }

  /**
   * With jump letters from GetJumpLetter and at least one hit, '#' is on page
   * 1 and every key gets a page between 1 and the page count; with no hits
   * every key gets page 0.
   */
  lemma {:induction false} PageMapBounds(jumps: string, limit: int)
    requires limit > 0
    requires forall i :: 0 <= i < |jumps| ==> LetterIndex(jumps[i]) >= 0
    ensures |jumps| > 0 ==> PageMap(jumps, limit)[0] == 1
    ensures |jumps| > 0 ==> forall k :: 0 <= k < |Letters| ==>
              1 <= PageMap(jumps, limit)[k] <= PageCount(|jumps|, limit)
    ensures |jumps| == 0 ==> forall k :: 0 <= k < |Letters| ==> PageMap(jumps, limit)[k] == 0
  {
    var reached := Reached(jumps, limit);
    var m := SeqMax(reached);
    if |jumps| > 0 {
      HashReachedFirst(jumps, limit, PageCount(|jumps|, limit));
      assert reached[0] == 1;
      var w :| 0 <= w < |reached| && reached[w] == m;
      assert 1 <= m <= PageCount(|jumps|, limit);
    } else {
      assert forall k :: 0 <= k < |Letters| ==> reached[k] == 0;
      var w :| 0 <= w < |reached| && reached[w] == m;
    }
  }

  // ---------------------------------------------------------------------
  // Search paging
  // ---------------------------------------------------------------------

  /** What a hit projects to: its type and id. */
  datatype SearchItem = SearchItem(itemType: string, id: int)

  /** A matching document: the item it projects to and its stored jump letter. */
  datatype Hit = Hit(item: SearchItem, jumpLetter: char)

  datatype SearchResult = SearchResult(items: seq<SearchItem>, totalHits: nat, pageMap: Option<seq<int>>)

  /** The query with the wildcards '*' and '?' removed. */
  function WithoutWildcards(q: string): (r: string)
    ensures '*' !in r && '?' !in r
    ensures forall c :: c in r <==> c in q && c != '*' && c != '?'
  {
    Filter(q, (c: char) => c != '*' && c != '?')
  }

  function Items(hits: seq<Hit>): (r: seq<SearchItem>)
    ensures |r| == |hits|
    ensures forall i :: 0 <= i < |hits| ==> r[i] == hits[i].item
  {
    seq(|hits|, i requires 0 <= i < |hits| => hits[i].item)
  }

  function JumpLetters(hits: seq<Hit>): (r: string)
    ensures |r| == |hits|
    ensures forall i :: 0 <= i < |hits| ==> r[i] == hits[i].jumpLetter
  {
    seq(|hits|, i requires 0 <= i < |hits| => hits[i].jumpLetter)
  }

  /** LINQ Skip and Take on a run of hits. */
  function Skip<T>(s: seq<T>, n: nat): seq<T>
  {
    if n >= |s| then [] else s[n..]
  }

  function Take<T>(s: seq<T>, n: nat): seq<T>
  {
    if n >= |s| then s else s[..n]
  }

  /** A paged request: the page map is built only for a limit between 1 and 9999. */
  predicate Paged(limit: nat)
  {
    0 < limit < 10000
  }

  /**
   * Search: a query that is blank once wildcards are removed, or an empty
   * index, finds nothing; otherwise the searcher collects the top `hitsLimit`
   * hits (all of them for limit 0), the first `skip` are dropped, and a paged
   * request keeps `limit` of them and carries the page map.
   */
  function Search(query: string, maxDoc: nat, hits: seq<Hit>, skip: nat, limit: nat): (r: SearchResult)
    ensures IsBlank(WithoutWildcards(query)) || maxDoc == 0 ==> r.items == [] && r.totalHits == 0
    ensures !IsBlank(WithoutWildcards(query)) && maxDoc > 0 ==> r.totalHits == |hits|
    ensures |r.items| <= |hits|
    ensures Paged(limit) ==> |r.items| <= limit
    ensures r.pageMap.Some? ==> Paged(limit)
  {
    if IsBlank(WithoutWildcards(query)) || maxDoc == 0 then SearchResult([], 0, None)
    else
      var hitsLimit := if limit == 0 then maxDoc else skip + limit;
      var top := Take(hits, hitsLimit);
      var selected := Skip(top, skip);
      var page := if Paged(limit) then Take(selected, limit) else selected;
      SearchResult(Items(page), |hits|, if Paged(limit) then Some(PageMap(JumpLetters(hits), limit)) else None)
  }

  /**
   * A search returns exactly the hits from position `skip` on, at most
   * `limit` of them when a limit is given, counts every hit, and pairs each
   * paged request with the page map of all hits.
   */
  lemma {:induction false} SearchWindow(query: string, maxDoc: nat, hits: seq<Hit>, skip: nat, limit: nat)
    requires |hits| <= maxDoc
    ensures var r := Search(query, maxDoc, hits, skip, limit);
            && (IsBlank(WithoutWildcards(query)) || maxDoc == 0 ==> r == SearchResult([], 0, None))
            && (!IsBlank(WithoutWildcards(query)) && maxDoc > 0 ==>
                && r.totalHits == |hits|
                && r.items == Items(hits[Min(skip, |hits|)..Min(skip + limit, |hits|)])
                && (r.pageMap.Some? <==> Paged(limit))
                && (Paged(limit) ==> r.pageMap == Some(PageMap(JumpLetters(hits), limit))))
    requires limit > 0
  {
    var hitsLimit := skip + limit;
    var top := Take(hits, hitsLimit);
    assert top == hits[..Min(skip + limit, |hits|)];
    var selected := Skip(top, skip);
    assert selected == hits[Min(skip, |hits|)..Min(skip + limit, |hits|)];
  }

  /** Without a limit a search returns every hit from position `skip` on. */
  lemma {:induction false} SearchUnlimited(query: string, maxDoc: nat, hits: seq<Hit>, skip: nat)
    requires |hits| <= maxDoc
    requires !IsBlank(WithoutWildcards(query)) && maxDoc > 0
    ensures Search(query, maxDoc, hits, skip, 0) == SearchResult(Items(hits[Min(skip, |hits|)..]), |hits|, None)
  {
    assert Take(hits, maxDoc) == hits;
  }

  // ---------------------------------------------------------------------
  // Metadata keys
  // ---------------------------------------------------------------------

  /** string.Replace(char, char). */
  function ReplaceChar(s: string, from: char, to: char): (r: string)
    ensures |r| == |s|
    ensures forall i :: 0 <= i < |s| ==> r[i] == if s[i] == from then to else s[i]
  {
    seq(|s|, i requires 0 <= i < |s| => if s[i] == from then to else s[i])
  }

  /** The kinds of metadata GetTitleAndYear distinguishes, with what each adds to the key. */
  datatype KeyKind =
    | EpisodeKey(showTitle: Option<string>, seasonNumber: int, episodeNumber: int)
    | OtherVideoKey(originalTitle: Option<string>)
    | StatefulKey
    | PlainKey

  /** Metadata as the key derivation sees it; `state` is the owning item's state name. */
  datatype KeyMetadata = KeyMetadata(kind: KeyKind, title: Option<string>, year: Option<int>, state: string)

  /** A nullable int in an interpolated string: empty for null. */
  function OptIntToString(n: Option<int>): string
  {
    if n.Some? then IntToString(n.value) else ""
  }

  /** Title(metadata): the title, empty when null, with spaces made underscores. */
  function Title(m: KeyMetadata): (r: string)
    ensures ' ' !in r
  {
    ReplaceChar(m.title.GetOr(""), ' ', '_')
  }

  /** OtherVideoTitle: a non-blank original title wins over the title, which may be null. */
  function OtherVideoTitle(m: KeyMetadata): Option<string>
    requires m.kind.OtherVideoKey?
  {
    if IsBlankOpt(m.kind.originalTitle) then m.title else m.kind.originalTitle
  }

  /** What follows the title in the duplicate key, before lowercasing. */
  function KeySuffix(m: KeyMetadata): string
  {
    match m.kind
    case EpisodeKey(show, season, episode) =>
      "_" + show.GetOr("") + "_" + OptIntToString(m.year) + "_" + IntToString(season)
      + "_" + IntToString(episode) + "_" + m.state
    case OtherVideoKey(_) => "_" + OptIntToString(m.year) + "_" + m.state
    case StatefulKey => "_" + OptIntToString(m.year) + "_" + m.state
    case PlainKey => "_" + OptIntToString(m.year)
  }

  /**
   * GetTitleAndYear, the key that filters duplicate search results: the
   * title with spaces made underscores (for an other video, its non-blank
   * original title instead), then year, state and, for an episode, show,
   * season and episode number, all lowercased. An other video without a
   * title or original title makes the source throw (Err).
   */
  function GetTitleAndYear(m: KeyMetadata): (r: Result<string>)
    ensures r.Err? <==> m.kind.OtherVideoKey? && OtherVideoTitle(m).None?
    ensures r.Ok? ==> forall i :: 0 <= i < |r.value| ==> !('A' <= r.value[i] <= 'Z')
  {
    if m.kind.OtherVideoKey? then
      var t := OtherVideoTitle(m);
      if t.None? then Err("null reference")
      else Ok(ToLower(ReplaceChar(t.value, ' ', '_') + KeySuffix(m)))
    else Ok(ToLower(Title(m) + KeySuffix(m)))
  }

  /** An other video with a non-blank original title is keyed by it, whatever its title. */
  lemma {:induction false} OtherVideoKeyUsesOriginalTitle(m: KeyMetadata, title: Option<string>)
    requires m.kind.OtherVideoKey? && !IsBlankOpt(m.kind.originalTitle)
    ensures GetTitleAndYear(m) == GetTitleAndYear(m.(title := title))
    ensures GetTitleAndYear(m) == GetTitleAndYear(m.(title := m.kind.originalTitle, kind := OtherVideoKey(None)))
  {
  }

  lemma {:induction false} ToLowerAppend(a: string, b: string)
    ensures ToLower(a + b) == ToLower(a) + ToLower(b)
  {
    assert forall i :: 0 <= i < |a + b| ==> ToLower(a + b)[i] == (ToLower(a) + ToLower(b))[i];
  }

  /** Replacing spaces with underscores commutes with lowercasing. */
  lemma {:induction false} ToLowerReplace(s: string)
    ensures ToLower(ReplaceChar(s, ' ', '_')) == ReplaceChar(ToLower(s), ' ', '_')
  {
  }

  /** Titles that differ only in ASCII letter case give the same duplicate key. */
  lemma {:induction false} TitleAndYearIgnoresTitleCase(m: KeyMetadata, title: string)
    requires m.title.Some? && EqualsIgnoreCase(m.title.value, title)
    requires !m.kind.OtherVideoKey?
    ensures GetTitleAndYear(m) == GetTitleAndYear(m.(title := Some(title)))
  {
    var m2 := m.(title := Some(title));
    ToLowerReplace(m.title.value);
    ToLowerReplace(title);
    assert KeySuffix(m) == KeySuffix(m2);
    ToLowerAppend(Title(m), KeySuffix(m));
    ToLowerAppend(Title(m2), KeySuffix(m));
  }

  /** A guid's index field: its scheme, and its id lowercased. */
  datatype GuidField = GuidField(field: string, value: string)

  const SchemeSeparator: string := "://"

  /**
   * AddMetadataGuids, for one guid: indexed only when it splits on "://"
   * into exactly two parts and the id part is not blank.
   */
  function GuidFieldOf(guid: Option<string>): (r: Option<GuidField>)
    ensures guid.None? ==> r.None?
    ensures r.Some? ==> |r.value.value| > 0
  {
    var split := SplitStr(guid.GetOr(""), SchemeSeparator);
    if |split| == 2 && !IsBlank(split[1]) then Some(GuidField(split[0], ToLower(split[1]))) else None
  }

  /** An indexed guid is its field, "://" and an id that lowercases to the value. */
  lemma {:induction false} GuidFieldRecovers(g: string)
    requires GuidFieldOf(Some(g)).Some?
    ensures var f := GuidFieldOf(Some(g)).value;
            exists id :: g == f.field + SchemeSeparator + id && ToLower(id) == f.value && !IsBlank(id)
  {
    var split := SplitStr(g, SchemeSeparator);
    SplitStrJoin(g, SchemeSeparator);
    assert JoinStr(split[1..], SchemeSeparator) == split[1];
    assert g == split[0] + SchemeSeparator + split[1];
  }

  /** Splitting after a prefix that cannot start a separator. */
  lemma {:induction false} SplitStrAfter(a: string, b: string)
    requires ':' !in a
    ensures SplitStr(a + SchemeSeparator + b, SchemeSeparator) == [a] + SplitStr(b, SchemeSeparator)
    decreases |a|
  {
    var s := a + SchemeSeparator + b;
    if |a| == 0 {
      assert s[..3] == SchemeSeparator;
      assert s[3..] == b;
    } else {
      assert s[..3] != SchemeSeparator by { assert s[0] == a[0] != ':'; }
      assert s[1..] == a[1..] + SchemeSeparator + b;
      SplitStrAfter(a[1..], b);
      assert [a[0]] + a[1..] == a;
    }
  }

  /**
   * A guid made of a scheme without ':' and a non-blank id without "://" is
   * indexed under the scheme with the lowercased id; with a blank id it is
   * not indexed.
   */
  lemma {:induction false} GuidFieldOfScheme(scheme: string, id: string)
    requires ':' !in scheme && |SplitStr(id, SchemeSeparator)| == 1
    ensures !IsBlank(id) ==> GuidFieldOf(Some(scheme + SchemeSeparator + id)) == Some(GuidField(scheme, ToLower(id)))
    ensures IsBlank(id) ==> GuidFieldOf(Some(scheme + SchemeSeparator + id)) == None
  {
    SplitStrAfter(scheme, id);
    SplitStrJoin(id, SchemeSeparator);
  }

  /** The fields AddMetadataGuids adds, in guid order. */
  function GuidFields(guids: seq<Option<string>>): (r: seq<GuidField>)
    ensures |r| <= |guids|
    ensures forall f :: f in r <==> exists i :: 0 <= i < |guids| && GuidFieldOf(guids[i]) == Some(f)
  {
    if guids == [] then []
    else
      var f := GuidFieldOf(guids[0]);
      var rest := GuidFields(guids[1..]);
      assert forall i :: 1 <= i < |guids| ==> guids[i] == guids[1..][i - 1];
      (if f.Some? then [f.value] else []) + rest
  }

  /**
   * The content-rating terms of a rating such as "TV-14 / TV-PG": the parts
   * between '/', trimmed, with blank parts dropped; nothing for a blank rating.
   */
  function ContentRatings(rating: Option<string>): (r: seq<string>)
    ensures IsBlankOpt(rating) ==> r == []
    ensures forall x :: x in r ==> |x| > 0 && !IsWhiteSpace(x[0]) && !IsWhiteSpace(x[|x| - 1])
    ensures forall x :: x in r <==>
              !IsBlankOpt(rating) && NotBlank(x) && TrimmedPartOf(x, Split(rating.value, '/'))
  {
    if IsBlankOpt(rating) then []
    else
      NonBlankTrimmedParts(Split(rating.value, '/'));
      Filter(TrimAll(Split(rating.value, '/')), NotBlank)
  }

  /** Custom format "0000" for any int; a negative number keeps its sign. */
  function Format0000(n: int): string
  {
    if n < 0 then "-" + PadNat4(-n) else PadNat4(n)
  }

  /** A season's sort title: "{show sort title}_{season:0000}", lowercased. */
  function SeasonSortTitle(showSortTitle: Option<string>, seasonNumber: int): (r: string)
    ensures forall i :: 0 <= i < |r| ==> !('A' <= r[i] <= 'Z')
  {
    ToLower(showSortTitle.GetOr("") + ("_" + Format0000(seasonNumber)))
  }

  lemma {:induction false} ZerosValue(z: string)
    requires forall i :: 0 <= i < |z| ==> z[i] == '0'
    ensures DigitsValue(z) == 0
    decreases |z|
  {
    if |z| > 0 {
      ZerosValue(z[..|z| - 1]);
    }
  }

  /** Leading zeros do not change a digit string's value. */
  lemma {:induction false} LeadingZeros(z: string, d: string)
    requires forall i :: 0 <= i < |z| ==> z[i] == '0'
    requires forall i :: 0 <= i < |d| ==> IsDigit(d[i])
    ensures DigitsValue(z + d) == DigitsValue(d)
    decreases |d|
  {
    if |d| == 0 {
      assert z + d == z;
      ZerosValue(z);
    } else {
      assert (z + d)[..|z + d| - 1] == z + d[..|d| - 1];
      LeadingZeros(z, d[..|d| - 1]);
    }
  }

  /** The zero-padded season number parses back to the season. */
  lemma {:induction false} PadNat4RoundTrip(n: nat)
    ensures ParseNat(PadNat4(n)) == Some(n)
  {
    var d := NatToString(n);
    DigitsOfNat(n);
    if |d| < 4 {
      LeadingZeros(seq(4 - |d|, _ => '0'), d);
    }
  }

  lemma {:induction false} NatToStringLength(n: nat)
    ensures n < 10000 ==> |NatToString(n)| <= 4
    ensures n < 1000 ==> |NatToString(n)| <= 3
    ensures n < 100 ==> |NatToString(n)| <= 2
  {
    if n >= 10 {
      NatToStringLength(n / 10);
    }
  }

  lemma {:induction false} ToLowerDigits(s: string)
    requires forall i :: 0 <= i < |s| ==> IsDigit(s[i])
    ensures ToLower(s) == s
  {
  }

  /**
   * A season sort title is the lowercased show sort title, '_', and the
   * season number in exactly four digits (for seasons up to 9999), which
   * parse back to the season.
   */
  lemma {:induction false} SeasonSortTitleParts(showSortTitle: string, seasonNumber: nat)
    requires seasonNumber < 10000
    ensures var r := SeasonSortTitle(Some(showSortTitle), seasonNumber);
            && |r| == |showSortTitle| + 5
            && r[..|showSortTitle|] == ToLower(showSortTitle)
            && r[|showSortTitle|] == '_'
            && ParseNat(r[|showSortTitle| + 1..]) == Some(seasonNumber)
  {
    var p := PadNat4(seasonNumber);
    NatToStringLength(seasonNumber);
    assert |p| == 4;
    PadNat4RoundTrip(seasonNumber);
    assert forall i :: 0 <= i < |p| ==> IsDigit(p[i]);
    ToLowerDigits(p);
    ToLowerAppend(showSortTitle, "_" + p);
    ToLowerAppend("_", p);
    assert ToLower("_") == "_";
  }
}
