/**
 * The older search index: its jump letter, its paging (no 10,000 cap on the
 * page map), its query parse with an escaped retry, and the languages it
 * indexes. Its page map walk and guid fields are the same code as the
 * Lucene index's and are modelled there once.
 */
module SearchIndex {
  import opened Common
  import opened LuceneSearchIndex
  import opened MetadataTypes

  /**
   * The older GetJumpLetter takes the head of the lowercased sort title
   * without checking that there is one, so an empty sort title throws (Err).
   */
  function OldGetJumpLetter(sortTitle: Option<string>): (r: Result<char>)
    ensures r.Err? <==> sortTitle == Some("")
    ensures r.Ok? ==> LetterIndex(r.value) >= 0
  {
    var s := ToLower(sortTitle.GetOr(" "));
    if |s| == 0 then Err("sequence contains no elements")
    else if 'a' <= s[0] <= 'z' then Ok(s[0])
    else Ok('#')
  }

  /** An empty sort title makes the older index fail where the Lucene index files it under '#'. */
  lemma {:induction false} OldJumpLetterFailsOnEmptySortTitle()
    ensures OldGetJumpLetter(Some("")).Err?
    ensures GetJumpLetter(Some("")) == '#'
  {
  }

  /** On every other sort title the two jump letters agree. */
  lemma {:induction false} JumpLetterVersionsAgree(sortTitle: Option<string>)
    requires sortTitle != Some("")
    ensures OldGetJumpLetter(sortTitle) == Ok(GetJumpLetter(sortTitle))
  {
  }

  /**
   * The older Search: like the Lucene one, except that any positive limit
   * takes `limit` hits and builds the page map.
   */
  function OldSearch(query: string, maxDoc: nat, hits: seq<Hit>, skip: nat, limit: nat): (r: SearchResult)
    ensures IsBlank(WithoutWildcards(query)) || maxDoc == 0 ==> r.items == [] && r.totalHits == 0 && r.pageMap.None?
    ensures !IsBlank(WithoutWildcards(query)) && maxDoc > 0 ==>
              r.totalHits == |hits| && (r.pageMap.Some? <==> limit > 0)
    ensures |r.items| <= |hits|
    ensures limit > 0 ==> |r.items| <= limit
  {
    if IsBlank(WithoutWildcards(query)) || maxDoc == 0 then SearchResult([], 0, None)
    else
      var hitsLimit := if limit == 0 then maxDoc else skip + limit;
      var top := Take(hits, hitsLimit);
      var selected := Skip(top, skip);
      var page := if limit > 0 then Take(selected, limit) else selected;
      SearchResult(Items(page), |hits|, if limit > 0 then Some(PageMap(JumpLetters(hits), limit)) else None)
  }

  /**
   * Both searches return the same hits and totals; they differ only in that
   * the older one also builds a page map for a limit of 10,000 or more.
   */
  lemma {:induction false} SearchVersionsAgree(query: string, maxDoc: nat, hits: seq<Hit>, skip: nat, limit: nat)
    ensures OldSearch(query, maxDoc, hits, skip, limit).items == Search(query, maxDoc, hits, skip, limit).items
    ensures OldSearch(query, maxDoc, hits, skip, limit).totalHits == Search(query, maxDoc, hits, skip, limit).totalHits
    ensures limit < 10000 ==> OldSearch(query, maxDoc, hits, skip, limit) == Search(query, maxDoc, hits, skip, limit)
    ensures (!IsBlank(WithoutWildcards(query)) && maxDoc > 0 && limit >= 10000) ==>
              && OldSearch(query, maxDoc, hits, skip, limit).pageMap.Some?
              && Search(query, maxDoc, hits, skip, limit).pageMap.None?
  {
    if !IsBlank(WithoutWildcards(query)) && maxDoc > 0 && limit >= 10000 {
      var selected := Skip(Take(hits, skip + limit), skip);
      assert |selected| <= limit;
      assert Take(selected, limit) == selected;
    }
  }

  // ---------------------------------------------------------------------
  // Query parsing
  // ---------------------------------------------------------------------

  /** The characters Lucene's QueryParserBase.Escape prefixes with a backslash. */
  predicate IsSpecial(c: char)
  {
    c in "\\+-!():^[]\"{}~*?|&/"
  }

  /** QueryParserBase.Escape. */
  function Escape(s: string): (r: string)
    ensures |r| >= |s|
  {
    if s == [] then []
    else (if IsSpecial(s[0]) then ['\\', s[0]] else [s[0]]) + Escape(s[1..])
  }

  /** Undoes Escape: a backslash makes the next character literal. */
  function Unescape(s: string): (r: string)
  {
    if s == [] then []
    else if s[0] == '\\' && |s| >= 2 then [s[1]] + Unescape(s[2..])
    else [s[0]] + Unescape(s[1..])
  }

  /** Every special character in `s` is a literal: escaped by the backslash before it. */
  predicate Escaped(s: string)
  {
    if s == [] then true
    else if s[0] == '\\' then |s| >= 2 && IsSpecial(s[1]) && Escaped(s[2..])
    else !IsSpecial(s[0]) && Escaped(s[1..])
  }

  /** Escaping leaves no special character unescaped, and loses nothing. */
  lemma {:induction false} EscapeRoundTrip(s: string)
    ensures Escaped(Escape(s))
    ensures Unescape(Escape(s)) == s
  {
    if s != [] {
      EscapeRoundTrip(s[1..]);
      var e := Escape(s);
      if IsSpecial(s[0]) {
        assert e[2..] == Escape(s[1..]);
      } else {
        assert e[1..] == Escape(s[1..]);
      }
    }
  }

  /**
   * ParseQuery: the trimmed query is parsed, and when that fails it is parsed
   * once more escaped; `parse` stands for the query parser (None when it
   * throws), and a second failure is the caller's exception (None).
   */
  function ParseQuery<Q>(query: string, parse: string -> Option<Q>): (r: Option<Q>)
    ensures parse(Trim(query)).Some? ==> r == parse(Trim(query))
    ensures parse(Trim(query)).None? ==> r == parse(Escape(Trim(query)))
  {
    var t := Trim(query);
    match parse(t)
    case Some(q) => Some(q)
    case None => parse(Escape(t))
  }

  /** When the parser accepts every fully escaped query, ParseQuery always yields a query. */
  lemma {:induction false} ParseQueryNeverFailsTwice<Q>(query: string, parse: string -> Option<Q>)
    requires forall s :: Escaped(s) ==> parse(s).Some?
    ensures ParseQuery(query, parse).Some?
  {
    EscapeRoundTrip(Trim(query));
  }

  // ---------------------------------------------------------------------
  // Languages
  // ---------------------------------------------------------------------

  /** A media version as AddLanguages sees it: its streams. */
  type MediaVersionStreams = seq<MediaStream>

  function AudioLanguagesOf(streams: MediaVersionStreams): (r: seq<Option<string>>)
    ensures forall l :: l in r <==> exists i :: 0 <= i < |streams| && streams[i].props.kind == AudioStream && streams[i].props.language == l
  {
    if streams == [] then []
    else
      var rest := AudioLanguagesOf(streams[1..]);
      assert forall i :: 1 <= i < |streams| ==> streams[i] == streams[1..][i - 1];
      (if streams[0].props.kind == AudioStream then [streams[0].props.language] else []) + rest
  }

  /**
   * AddLanguages: the languages of the audio streams of the first media
   * version only, each once.
   */
  function MediaCodes(versions: seq<MediaVersionStreams>): (r: seq<Option<string>>)
    ensures versions == [] ==> r == []
    ensures forall l :: l in r <==>
              |versions| > 0 && exists i :: 0 <= i < |versions[0]| && versions[0][i].props.kind == AudioStream && versions[0][i].props.language == l
    ensures forall i, j :: 0 <= i < j < |r| ==> r[i] != r[j]
  {
    if versions == [] then [] else Distinct(AudioLanguagesOf(versions[0]))
  }
}
