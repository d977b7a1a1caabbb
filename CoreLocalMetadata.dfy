/**
 * The older local metadata provider in the core library. It reads years and
 * air dates as strings; its genre splitting, actor building, episode
 * partition, collection sync and new-row path are the same code as the
 * scanner's and are modelled there once. Its episode write-back updates
 * every matched row (ScannerLocalMetadata.Episode.ApplyMetadataUpdate).
 */
module CoreLocalMetadata {
  import opened Common
  import opened MetadataTypes
  import opened ScannerLocalMetadata

  /**
   * A date string as DateTime.TryParse reads it: nothing for a blank string;
   * `parse` stands for the parser and answers None where it fails.
   */
  function ParsedDate(s: Option<string>, parse: string -> Option<Date>): Option<Date>
  {
    if IsBlankOpt(s) then None else parse(s.value)
  }

  /**
   * GetYear on strings: a year after 1000 as is; nothing for a blank
   * premiered string; else the year of the parsed date, or nothing when it
   * does not parse.
   */
  function OldGetYear(year: Option<int>, premiered: Option<string>, parse: string -> Option<Date>): (r: Option<int>)
    ensures PlausibleYear(year) ==> r == year
    ensures !PlausibleYear(year) && IsBlankOpt(premiered) ==> r.None?
    ensures !PlausibleYear(year) && !IsBlankOpt(premiered) ==>
              r == if parse(premiered.value).Some? then Some(parse(premiered.value).value.year) else None
  {
    if PlausibleYear(year) then year
    else if IsBlankOpt(premiered) then None
    else match parse(premiered.value)
      case Some(parsed) => Some(parsed.year)
      case None => None
  }

  /**
   * GetAired on strings: the parsed aired date, falling back to January 1
   * of a year after 1000 (or nothing) when the string is blank or does not
   * parse.
   */
  function OldGetAired(year: Option<int>, aired: Option<string>, parse: string -> Option<Date>): (r: Option<Date>)
    ensures !IsBlankOpt(aired) && parse(aired.value).Some? ==> r == parse(aired.value)
    ensures (IsBlankOpt(aired) || parse(aired.value).None?) ==>
              r == if PlausibleYear(year) then Some(Jan1(year.value)) else None
  {
    var fallback := if PlausibleYear(year) then Some(Jan1(year.value)) else None;
    if IsBlankOpt(aired) then fallback
    else match parse(aired.value)
      case Some(parsed) => Some(parsed)
      case None => fallback
  }

  /** The string versions are the scanner's versions applied to the parsed string. */
  lemma {:induction false} OldVersionsParseThenAgree(year: Option<int>, date: Option<string>, parse: string -> Option<Date>)
    ensures OldGetYear(year, date, parse) == GetYear(year, ParsedDate(date, parse))
    ensures OldGetAired(year, date, parse) == GetAired(year, ParsedDate(date, parse))
  {
  }
}
