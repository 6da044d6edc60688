/**
 * `handleSearch`: the movie name is taken from the override or the input box,
 * normalised, and either rejected as blank before anything is fetched or
 * resolved to a preview, to "no preview found", or to an error message.
 */
module SearchHandler {
  import opened Wrappers
  import opened Text
  import opened Catalog
  import opened Numerals
  import opened Pipeline

  /** `normalize(s)`: a missing value becomes the empty string, anything else is trimmed. */
  function Normalize(s: Option<string>): (r: string)
    ensures s.None? ==> r == ""
    ensures s.Some? ==> StripsWhitespace(s.value, r)
    ensures r != [] ==> !IsWhitespace(r[0]) && !IsWhitespace(r[|r| - 1])
  {
    match s
    case None => ""
    case Some(v) => Trim(v)
  }

  /** A value normalises to the empty string exactly when it is missing or only whitespace. */
  lemma NormalizeBlank(s: Option<string>)
    ensures Normalize(s) == "" <==> s.None? || AllWhitespace(s.value)
  {
    if s.Some? {
      TrimEmptyIffBlank(s.value);
    }
  }

  /** Normalising a normalised name changes nothing. */
  lemma NormalizeIdempotent(s: Option<string>)
    ensures Normalize(Some(Normalize(s))) == Normalize(s)
  {
    if s.Some? {
      TrimIdempotent(s.value);
    }
  }

  /** What the chat shows once a search is handled. */
  datatype Outcome =
    | AskedForName                                 // "Type a movie name": nothing was fetched
    | NoPreview(movieName: string)                 // "No preview found"
    | Loaded(movieName: string, preview: Preview)  // the player now holds `preview.previewUrl`
    | Failed(movieName: string, message: string)   // "Error: <message>"

  /** One handled search: its outcome and the catalog requests it made, in order. */
  datatype Search = Search(outcome: Outcome, calls: seq<Request>)

  /** `movieNameOverride ?? movieInput.value`: the override unless it is missing. */
  function RawName(movieNameOverride: Option<string>, inputValue: string): string {
    match movieNameOverride
    case None => inputValue
    case Some(v) => v
  }

  /** `handleSearch(movieNameOverride)` with the input box holding `inputValue`. */
  function HandleSearch(fetch: Fetcher, movieNameOverride: Option<string>, inputValue: string): (s: Search)
    ensures s.outcome.AskedForName? <==> AllWhitespace(RawName(movieNameOverride, inputValue))
    ensures s.outcome.AskedForName? <==> s.calls == []
    ensures !s.outcome.AskedForName? ==>
              var name := s.outcome.movieName;
              name != "" && Normalize(Some(name)) == name &&
              s.calls[0] == AlbumSearchRequest(name)
    ensures s.outcome.Loaded? ==> s.outcome.preview.previewUrl != ""
  {
    var raw := Some(RawName(movieNameOverride, inputValue));
    NormalizeBlank(raw);
    NormalizeIdempotent(raw);
    Respond(fetch, Normalize(raw))
  }

  /** The body of `handleSearch` after normalisation: the blank guard, then the resolution and its report. */
  function Respond(fetch: Fetcher, movieName: string): (s: Search)
    ensures s.outcome.AskedForName? <==> movieName == ""
    ensures s.outcome.AskedForName? <==> s.calls == []
    ensures !s.outcome.AskedForName? ==> s.outcome.movieName == movieName && s.calls[0] == AlbumSearchRequest(movieName)
    ensures s.outcome.Loaded? ==> s.outcome.preview.previewUrl != ""
  {
    if movieName == "" then
      Search(AskedForName, [])
    else
      var run := FetchPreviewForMovie(fetch, movieName);
      match run.result
      case Failure(e) => Search(Failed(movieName, Message(e)), run.calls)
      case Success(None) => Search(NoPreview(movieName), run.calls)
      case Success(Some(p)) => Search(Loaded(movieName, p), run.calls)
  }

  /** A blank or whitespace-only name is answered at once and never reaches the catalog. */
  lemma BlankInputNeverFetches(fetch: Fetcher, movieNameOverride: Option<string>, inputValue: string)
    requires AllWhitespace(RawName(movieNameOverride, inputValue))
    ensures HandleSearch(fetch, movieNameOverride, inputValue) == Search(AskedForName, [])
  {
    NormalizeBlank(Some(RawName(movieNameOverride, inputValue)));
  }

  /**
   * Any other name is resolved trimmed, and the outcome reports the resolution
   * as it is: its error's message, no preview, or the preview itself.
   */
  lemma OutcomeFollowsResolution(fetch: Fetcher, movieNameOverride: Option<string>, inputValue: string)
    requires !AllWhitespace(RawName(movieNameOverride, inputValue))
    ensures HandleSearch(fetch, movieNameOverride, inputValue) == Respond(fetch, Trim(RawName(movieNameOverride, inputValue)))
    ensures Trim(RawName(movieNameOverride, inputValue)) != ""
  {
    NormalizeBlank(Some(RawName(movieNameOverride, inputValue)));
  }

  /** For a non-empty name, the outcome reports the resolution as it is. */
  lemma RespondReportsResolution(fetch: Fetcher, movieName: string)
    requires movieName != ""
    ensures var run := FetchPreviewForMovie(fetch, movieName);
            var s := Respond(fetch, movieName);
            && s.calls == run.calls
            && s.outcome.movieName == movieName
            && (s.outcome.Failed? <==> run.result.Failure?)
            && (s.outcome.Failed? ==> s.outcome.message == Message(run.result.error))
            && (s.outcome.NoPreview? <==> run.result == Success(None))
            && (s.outcome.Loaded? <==> run.result.Success? && run.result.value.Some?)
            && (s.outcome.Loaded? ==> s.outcome.preview == run.result.value.value)
  {
  }

  /** The override, when present, decides the name, even when it is the empty string; the input box is ignored. */
  lemma OverrideWins(fetch: Fetcher, name: string, input1: string, input2: string)
    ensures HandleSearch(fetch, Some(name), input1) == HandleSearch(fetch, Some(name), input2)
  {
  }

  /** Without an override, the input box is read. */
  lemma InputUsedWithoutOverride(fetch: Fetcher, inputValue: string, other: string)
    ensures HandleSearch(fetch, None, inputValue) == HandleSearch(fetch, Some(inputValue), other)
  {
  }

  /** Whitespace around the name changes nothing: typing " Leo " searches exactly as typing "Leo". */
  lemma SurroundingWhitespaceIgnored(fetch: Fetcher, inputValue: string)
    ensures HandleSearch(fetch, None, inputValue) == HandleSearch(fetch, None, Trim(inputValue))
  {
    TrimIdempotent(inputValue);
  }

  /** A proxy error on the album search surfaces with its status and text in the message. */
  lemma ProxyFailureMessage(catalog: Catalog, name: string)
    requires Normalize(Some(name)) == name && name != ""
    requires catalog(RequestUrl(AlbumSearchRequest(name))) == Http(503, "down", Failure(""))
    ensures HandleSearch(ProxyFetcher(catalog), None, name) ==
              Search(Failed(name, "Proxy request failed (503). down"), [AlbumSearchRequest(name)])
  {
    var fetch := ProxyFetcher(catalog);
    assert fetch(AlbumSearchRequest(name)) == Failure(ProxyFailed(503, "down"));
    ProxyFailedText();
  }

  lemma ProxyFailedText()
    ensures Message(ProxyFailed(503, "down")) == "Proxy request failed (503). down"
  {
    assert IntToString(503) == "503";
  }
}
