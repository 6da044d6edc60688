/**
 * `fetchPreviewForMovie`: the album search, the choice of one album, the lookup
 * of its tracks, and the song search used when the album path yields nothing.
 * How requests are answered is a parameter (a fetcher), so the resolution is a
 * function of those answers; `calls` records the requests made, in order.
 */
module Pipeline {
  import opened Wrappers
  import opened Numerals
  import opened Seqs
  import opened Catalog
  import opened Selector

  /** The result of `searchSoundtrackAlbum`. */
  datatype AlbumSearch = AlbumSearch(resultCount: int, albums: seq<Entry>)

  /** The result of `lookupAlbumSongs` and `fallbackSearchSongs`: the raw count and the kept songs. */
  datatype SongList = SongList(resultCount: int, songs: seq<Entry>)

  datatype Source = AlbumLookup | SongSearch

  /** The record `fetchPreviewForMovie` returns; `previewUrl` is always a non-empty string. */
  datatype Preview = Preview(
    source: Source,
    debug: string,
    album: Option<string>,
    song: Option<string>,
    artist: Option<string>,
    previewUrl: string)

  /**
   * One resolution: its outcome (an error thrown, no preview, or a preview) and
   * the requests it made, in order.
   */
  datatype Run = Run(result: Result<Option<Preview>, FetchError>, calls: seq<Request>)

  /** The three requests the resolution can make. */
  datatype Request =
    | AlbumSearchRequest(movieName: string)
    | LookupRequest(collectionId: int)
    | SongSearchRequest(movieName: string)

  /** The iTunes URL each request fetches. */
  function RequestUrl(r: Request): string {
    match r
    case AlbumSearchRequest(m) => SearchUrl(m + " original motion picture soundtrack", "album", "albumTerm")
    case LookupRequest(id) => LookupUrl(id)
    case SongSearchRequest(m) => SearchUrl(m + " song tamil", "song", "songTerm")
  }

  /**
   * How the resolution fetches: each request's outcome. The resolution is
   * stated for any fetcher; `ProxyFetcher` is the one the page uses.
   */
  type Fetcher = Request -> Result<Body, FetchError>

  /** `proxyFetchJson` applied to the URL of each request. */
  function ProxyFetcher(catalog: Catalog): Fetcher {
    r => ProxyFetchJson(catalog, RequestUrl(r))
  }

  /** What the lookup keeps: `r.wrapperType === "track" && r.previewUrl`. */
  predicate PlayableTrack(e: Entry) {
    IsTrack(e) && HasPreview(e)
  }

  /**
   * The lookup filter: it keeps every playable track and nothing else, and its
   * first element is the first playable track of `results`.
   */
  function LookupFilter(results: seq<Entry>): (r: seq<Entry>)
    ensures forall k :: 0 <= k < |r| ==> r[k] in results && PlayableTrack(r[k])
    ensures forall j :: 0 <= j < |results| && PlayableTrack(results[j]) ==> results[j] in r
    ensures r != [] <==> FindIndex(results, PlayableTrack).Some?
    ensures r != [] ==> r[0] == results[FindIndex(results, PlayableTrack).value]
  {
    FilterHeadIsFirstMatch(results, PlayableTrack);
    Filter(results, PlayableTrack)
  }

  /**
   * The song-search filter: `r.previewUrl` only, whatever the wrapper type. Its
   * first element is the first row of `results` with a preview URL.
   */
  function FallbackFilter(results: seq<Entry>): (r: seq<Entry>)
    ensures forall k :: 0 <= k < |r| ==> r[k] in results && HasPreview(r[k])
    ensures forall j :: 0 <= j < |results| && HasPreview(results[j]) ==> results[j] in r
    ensures r != [] <==> FindIndex(results, HasPreview).Some?
    ensures r != [] ==> r[0] == results[FindIndex(results, HasPreview).value]
  {
    FilterHeadIsFirstMatch(results, HasPreview);
    Filter(results, HasPreview)
  }

  /** `searchSoundtrackAlbum`. */
  function SearchSoundtrackAlbum(fetch: Fetcher, movieName: string): (r: Result<AlbumSearch, FetchError>)
    ensures r.Failure? <==> fetch(AlbumSearchRequest(movieName)).Failure?
    ensures r.Failure? ==> r.error == fetch(AlbumSearchRequest(movieName)).error
    ensures r.Success? ==> var data := fetch(AlbumSearchRequest(movieName)).value;
                           && r.value.albums == Results(data)
                           && (data.resultCount.Some? ==> r.value.resultCount == data.resultCount.value)
                           && (data.resultCount.None? ==> r.value.resultCount == 0)
  {
    match fetch(AlbumSearchRequest(movieName))
    case Failure(e) => Failure(e)
    case Success(data) => Success(AlbumSearch(ResultCount(data), Results(data)))
  }

  /** `lookupAlbumSongs`. */
  function LookupAlbumSongs(fetch: Fetcher, collectionId: int): (r: Result<SongList, FetchError>)
    ensures r.Failure? <==> fetch(LookupRequest(collectionId)).Failure?
    ensures r.Failure? ==> r.error == fetch(LookupRequest(collectionId)).error
    ensures r.Success? ==> var rows := Results(fetch(LookupRequest(collectionId)).value);
                           && r.value.resultCount == ResultCount(fetch(LookupRequest(collectionId)).value)
                           && |r.value.songs| <= |rows|
                           && (forall k :: 0 <= k < |r.value.songs| ==> r.value.songs[k] in rows && PlayableTrack(r.value.songs[k]))
                           && (forall j :: 0 <= j < |rows| && PlayableTrack(rows[j]) ==> rows[j] in r.value.songs)
                           && r.value.songs == LookupFilter(rows)
                           && (r.value.songs != [] <==> FindIndex(rows, PlayableTrack).Some?)
                           && (r.value.songs != [] ==> r.value.songs[0] == rows[FindIndex(rows, PlayableTrack).value])
  {
    match fetch(LookupRequest(collectionId))
    case Failure(e) => Failure(e)
    case Success(data) =>
      Success(SongList(ResultCount(data), LookupFilter(Results(data))))
  }

  /** `fallbackSearchSongs`. */
  function FallbackSearchSongs(fetch: Fetcher, movieName: string): (r: Result<SongList, FetchError>)
    ensures r.Failure? <==> fetch(SongSearchRequest(movieName)).Failure?
    ensures r.Failure? ==> r.error == fetch(SongSearchRequest(movieName)).error
    ensures r.Success? ==> var rows := Results(fetch(SongSearchRequest(movieName)).value);
                           && r.value.resultCount == ResultCount(fetch(SongSearchRequest(movieName)).value)
                           && |r.value.songs| <= |rows|
                           && (forall k :: 0 <= k < |r.value.songs| ==> r.value.songs[k] in rows && HasPreview(r.value.songs[k]))
                           && (forall j :: 0 <= j < |rows| && HasPreview(rows[j]) ==> rows[j] in r.value.songs)
                           && r.value.songs == FallbackFilter(rows)
                           && (r.value.songs != [] <==> FindIndex(rows, HasPreview).Some?)
                           && (r.value.songs != [] ==> r.value.songs[0] == rows[FindIndex(rows, HasPreview).value])
  {
    match fetch(SongSearchRequest(movieName))
    case Failure(e) => Failure(e)
    case Success(data) =>
      Success(SongList(ResultCount(data), FallbackFilter(Results(data))))
  }

  /** `fetchPreviewForMovie`. */
  function FetchPreviewForMovie(fetch: Fetcher, movieName: string): (run: Run)
    ensures 1 <= |run.calls| <= 3 && run.calls[0] == AlbumSearchRequest(movieName)
    ensures run.result.Failure? <==> fetch(run.calls[|run.calls| - 1]).Failure?
    ensures run.result.Failure? ==> run.result.error == fetch(run.calls[|run.calls| - 1]).error
    ensures run.result.Success? && run.result.value.Some? ==> run.result.value.value.previewUrl != ""
  {
    match SearchSoundtrackAlbum(fetch, movieName)
    case Failure(e) => Run(Failure(e), [AlbumSearchRequest(movieName)])
    case Success(albumSearch) =>
      var best := PickBestAlbum(albumSearch.albums, movieName);
      if |albumSearch.albums| > 0 && best.Some? && HasCollectionId(best.value) then
        AlbumLookupStage(fetch, movieName, albumSearch.resultCount, best.value)
      else
        SongSearchStage(fetch, movieName, [AlbumSearchRequest(movieName)])
  }

  /**
   * The lookup half of `fetchPreviewForMovie`, once `album` has been chosen:
   * the first playable track wins, an error is thrown, or the song search follows.
   */
  function AlbumLookupStage(fetch: Fetcher, movieName: string, albumCount: int, album: Entry): (run: Run)
    requires HasCollectionId(album)
    ensures var lookup := LookupRequest(album.collectionId.value);
            || run.calls == [AlbumSearchRequest(movieName), lookup]
            || (run.calls == [AlbumSearchRequest(movieName), lookup, SongSearchRequest(movieName)] &&
                fetch(lookup).Success? && LookupFilter(Results(fetch(lookup).value)) == [])
    ensures var lookup := LookupRequest(album.collectionId.value);
            fetch(lookup).Success? && FindIndex(Results(fetch(lookup).value), PlayableTrack).Some? ==>
              var data := fetch(lookup).value;
              var track := Results(data)[FindIndex(Results(data), PlayableTrack).value];
              run == Run(Success(Some(Preview(
                           AlbumLookup,
                           "AlbumSearch=" + IntToString(albumCount) + ", AlbumTracks=" + IntToString(ResultCount(data)),
                           album.collectionName, track.trackName, track.artistName, track.previewUrl.value))),
                         [AlbumSearchRequest(movieName), lookup])
    ensures run.result.Failure? <==> fetch(run.calls[|run.calls| - 1]).Failure?
    ensures run.result.Failure? ==> run.result.error == fetch(run.calls[|run.calls| - 1]).error
    ensures run.result.Success? && run.result.value.Some? ==> run.result.value.value.previewUrl != ""
  {
    var id := album.collectionId.value;
    var issued := [AlbumSearchRequest(movieName), LookupRequest(id)];
    match LookupAlbumSongs(fetch, id)
    case Failure(e) => Run(Failure(e), issued)
    case Success(lookup) =>
      if |lookup.songs| > 0 then
        var track := lookup.songs[0];
        var debug := "AlbumSearch=" + IntToString(albumCount) + ", AlbumTracks=" + IntToString(lookup.resultCount);
        var preview := Preview(AlbumLookup, debug, album.collectionName,
                               track.trackName, track.artistName, track.previewUrl.value);
        Run(Success(Some(preview)), issued)
      else
        SongSearchStage(fetch, movieName, issued)
  }

  /**
   * A lookup that succeeds without a playable track falls through to the song
   * search, after the album search and the lookup.
   */
  lemma AlbumLookupStageFallsThrough(fetch: Fetcher, movieName: string, albumCount: int, album: Entry)
    requires HasCollectionId(album)
    requires fetch(LookupRequest(album.collectionId.value)).Success?
    requires LookupFilter(Results(fetch(LookupRequest(album.collectionId.value)).value)) == []
    ensures AlbumLookupStage(fetch, movieName, albumCount, album) ==
              SongSearchStage(fetch, movieName, [AlbumSearchRequest(movieName), LookupRequest(album.collectionId.value)])
  {
  }

  /** The fallback half of `fetchPreviewForMovie`, after the requests already `issued`. */
  function SongSearchStage(fetch: Fetcher, movieName: string, issued: seq<Request>): (run: Run)
    ensures run.calls == issued + [SongSearchRequest(movieName)]
    ensures run.result.Failure? <==> fetch(SongSearchRequest(movieName)).Failure?
    ensures run.result.Failure? ==> run.result.error == fetch(SongSearchRequest(movieName)).error
    ensures run.result.Success? && run.result.value.Some? ==>
              run.result.value.value.source == SongSearch && run.result.value.value.previewUrl != ""
    ensures var fetched := fetch(SongSearchRequest(movieName));
            fetched.Success? ==>
              var rows := Results(fetched.value);
              match FindIndex(rows, HasPreview)
              case None => run.result == Success(None)
              case Some(i) =>
                run.result == Success(Some(Preview(
                  SongSearch,
                  "SongSearch=" + IntToString(ResultCount(fetched.value)),
                  rows[i].collectionName, rows[i].trackName, rows[i].artistName,
                  rows[i].previewUrl.value)))
  {
    var request := SongSearchRequest(movieName);
    match FallbackSearchSongs(fetch, movieName)
    case Failure(e) => Run(Failure(e), issued + [request])
    case Success(songSearch) =>
      if |songSearch.songs| > 0 then
        var track := songSearch.songs[0];
        var preview := Preview(SongSearch, "SongSearch=" + IntToString(songSearch.resultCount),
                               track.collectionName, track.trackName, track.artistName, track.previewUrl.value);
        Run(Success(Some(preview)), issued + [request])
      else
        Run(Success(None), issued + [request])
  }

  /** The lookup filter keeps exactly the playable tracks, in their original order. */
  lemma LookupFilterExact(rows: seq<Entry>, more: seq<Entry>)
    ensures forall k :: 0 <= k < |LookupFilter(rows)| ==> LookupFilter(rows)[k] in rows && PlayableTrack(LookupFilter(rows)[k])
    ensures forall j :: 0 <= j < |rows| && PlayableTrack(rows[j]) ==> rows[j] in LookupFilter(rows)
    ensures LookupFilter(rows + more) == LookupFilter(rows) + LookupFilter(more)
  {
    FilterAppend(rows, more, PlayableTrack);
  }

  /** The song-search filter keeps exactly the rows with a preview URL, in their original order. */
  lemma FallbackFilterExact(rows: seq<Entry>, more: seq<Entry>)
    ensures forall k :: 0 <= k < |FallbackFilter(rows)| ==> FallbackFilter(rows)[k] in rows && HasPreview(FallbackFilter(rows)[k])
    ensures forall j :: 0 <= j < |rows| && HasPreview(rows[j]) ==> rows[j] in FallbackFilter(rows)
    ensures FallbackFilter(rows + more) == FallbackFilter(rows) + FallbackFilter(more)
  {
    FilterAppend(rows, more, HasPreview);
  }

  /** The lookup filter is the song-search filter followed by the wrapper-type test. */
  lemma {:induction false} LookupFilterRefinesFallback(rows: seq<Entry>)
    ensures LookupFilter(rows) == Filter(FallbackFilter(rows), IsTrack)
  {
    if rows != [] {
      LookupFilterRefinesFallback(rows[1..]);
      var head := if HasPreview(rows[0]) then [rows[0]] else [];
      FilterAppend(head, FallbackFilter(rows[1..]), IsTrack);
    }
  }

  /** The two filters differ: a row with a preview URL but another wrapper type passes only the song-search one. */
  lemma FiltersAsymmetric(row: Entry)
    requires HasPreview(row) && !IsTrack(row)
    ensures FallbackFilter([row]) == [row] && LookupFilter([row]) == []
  {
  }

  // ---------------------------------------------------------------------------
  // The stages, named so that properties can be stated about them.

  /** The album search succeeded and the chosen album has a truthy `collectionId`. */
  predicate ReachesLookup(fetch: Fetcher, movieName: string) {
    var s := SearchSoundtrackAlbum(fetch, movieName);
    s.Success? && |s.value.albums| > 0 && HasCollectionId(PickBestAlbum(s.value.albums, movieName).value)
  }

  function ChosenAlbum(fetch: Fetcher, movieName: string): Entry
    requires ReachesLookup(fetch, movieName)
  {
    PickBestAlbum(SearchSoundtrackAlbum(fetch, movieName).value.albums, movieName).value
  }

  function ChosenId(fetch: Fetcher, movieName: string): int
    requires ReachesLookup(fetch, movieName)
  {
    ChosenAlbum(fetch, movieName).collectionId.value
  }

  /** The album path produced at least one playable track. */
  predicate AlbumStageHits(fetch: Fetcher, movieName: string) {
    ReachesLookup(fetch, movieName) &&
    var l := LookupAlbumSongs(fetch, ChosenId(fetch, movieName));
    l.Success? && |l.value.songs| > 0
  }

  /** A request of the album path threw. */
  predicate AlbumStageFails(fetch: Fetcher, movieName: string) {
    SearchSoundtrackAlbum(fetch, movieName).Failure? ||
    (ReachesLookup(fetch, movieName) && LookupAlbumSongs(fetch, ChosenId(fetch, movieName)).Failure?)
  }

  /** The album path ended without a preview and without an error. */
  predicate ReachesSongSearch(fetch: Fetcher, movieName: string) {
    !AlbumStageHits(fetch, movieName) && !AlbumStageFails(fetch, movieName)
  }

  // ---------------------------------------------------------------------------
  // Properties.

  /** Both requests are album searches, or both are song searches. */
  predicate SameSearch(r1: Request, r2: Request) {
    || (r1.AlbumSearchRequest? && r2.AlbumSearchRequest?)
    || (r1.SongSearchRequest? && r2.SongSearchRequest?)
  }

  /**
   * Requests of different kinds, or lookups of different ids, fetch different
   * URLs: the endpoint, the `entity` parameter or the parsed `id` tells them
   * apart. Two searches of one kind for different movie names are not covered.
   */
  lemma RequestUrlsDistinct(r1: Request, r2: Request)
    requires r1 != r2 && !SameSearch(r1, r2)
    ensures RequestUrl(r1) != RequestUrl(r2)
  {
    if r1.LookupRequest? && r2.LookupRequest? {
      LookupUrlParams(r1.collectionId);
      LookupUrlParams(r2.collectionId);
    } else if r1.LookupRequest? || r2.LookupRequest? {
      var (l, s) := if r1.LookupRequest? then (r1, r2) else (r2, r1);
      LookupIsNotSearch(l, s);
    } else {
      var (a, f) := if r1.AlbumSearchRequest? then (r1, r2) else (r2, r1);
      AlbumIsNotSongSearch(a, f);
    }
  }

  lemma LookupIsNotSearch(l: Request, s: Request)
    requires l.LookupRequest? && !s.LookupRequest?
    ensures RequestUrl(l) != RequestUrl(s)
  {
    RequestEndpoint(l);
    RequestEndpoint(s);
    EndpointsDiffer();
  }

  lemma EndpointsDiffer()
    ensures SearchEndpoint != LookupEndpoint
  {
    assert SearchEndpoint[28] != LookupEndpoint[28];
  }

  /** Lookups go to the lookup endpoint, both searches to the search endpoint. */
  lemma RequestEndpoint(r: Request)
    ensures Endpoint(RequestUrl(r)) == if r.LookupRequest? then LookupEndpoint else SearchEndpoint
  {
    match r
    case AlbumSearchRequest(m) =>
      SearchUrlParams(m + " original motion picture soundtrack", "album", "albumTerm");
    case LookupRequest(id) =>
      LookupUrlParams(id);
    case SongSearchRequest(m) =>
      SearchUrlParams(m + " song tamil", "song", "songTerm");
  }

  /**
   * The parameters each request carries: the album search asks for albums by
   * album term, the song search for songs by song term, each with its suffix
   * appended to the movie name, and the lookup for the songs of one id.
   */
  lemma RequestParams(r: Request)
    ensures QueryParams(RequestUrl(r)) ==
              match r
              case AlbumSearchRequest(m) => SearchParams(m + " original motion picture soundtrack", "album", "albumTerm")
              case LookupRequest(id) => ["id=" + IntToString(id), "entity=song", "limit=50"]
              case SongSearchRequest(m) => SearchParams(m + " song tamil", "song", "songTerm")
  {
    match r
    case AlbumSearchRequest(m) =>
      SearchUrlParams(m + " original motion picture soundtrack", "album", "albumTerm");
    case LookupRequest(id) =>
      LookupUrlParams(id);
    case SongSearchRequest(m) =>
      SearchUrlParams(m + " song tamil", "song", "songTerm");
  }

  lemma AlbumIsNotSongSearch(a: Request, f: Request)
    requires a.AlbumSearchRequest? && f.SongSearchRequest?
    ensures RequestUrl(a) != RequestUrl(f)
  {
    assert "album" != "song" by {
      assert "album"[0] != "song"[0];
    }
    SearchUrlsDifferByEntity(a.movieName + " original motion picture soundtrack", "album", "albumTerm",
                             f.movieName + " song tamil", "song", "songTerm");
  }

  /**
   * The requests, exactly: the album search always; then the lookup of the
   * chosen album's id when it has one; then the song search when the album
   * path ended with neither a preview nor an error.
   */
  lemma CallsInOrder(fetch: Fetcher, movieName: string)
    ensures FetchPreviewForMovie(fetch, movieName).calls ==
              [AlbumSearchRequest(movieName)]
              + (if ReachesLookup(fetch, movieName) then [LookupRequest(ChosenId(fetch, movieName))] else [])
              + (if ReachesSongSearch(fetch, movieName) then [SongSearchRequest(movieName)] else [])
  {
    if ReachesLookup(fetch, movieName) {
      CallsWithLookup(fetch, movieName);
    } else {
      CallsWithoutLookup(fetch, movieName);
    }
  }

  lemma CallsWithLookup(fetch: Fetcher, movieName: string)
    requires ReachesLookup(fetch, movieName)
    ensures FetchPreviewForMovie(fetch, movieName).calls ==
              [AlbumSearchRequest(movieName), LookupRequest(ChosenId(fetch, movieName))]
              + (if ReachesSongSearch(fetch, movieName) then [SongSearchRequest(movieName)] else [])
  {
    var a, l := AlbumSearchRequest(movieName), LookupRequest(ChosenId(fetch, movieName));
    var run := FetchPreviewForMovie(fetch, movieName);
    if AlbumStageHits(fetch, movieName) || AlbumStageFails(fetch, movieName) {
      assert run.calls == [a, l];
    } else {
      assert run.calls == [a, l, SongSearchRequest(movieName)];
    }
  }

  lemma CallsWithoutLookup(fetch: Fetcher, movieName: string)
    requires !ReachesLookup(fetch, movieName)
    ensures FetchPreviewForMovie(fetch, movieName).calls ==
              [AlbumSearchRequest(movieName)]
              + (if ReachesSongSearch(fetch, movieName) then [SongSearchRequest(movieName)] else [])
  {
    var a := AlbumSearchRequest(movieName);
    var run := FetchPreviewForMovie(fetch, movieName);
    if SearchSoundtrackAlbum(fetch, movieName).Failure? {
      assert run.calls == [a];
      assert !ReachesSongSearch(fetch, movieName);
    } else {
      assert run.calls == [a, SongSearchRequest(movieName)];
      assert !AlbumStageHits(fetch, movieName) && !AlbumStageFails(fetch, movieName);
    }
  }

  /** A lookup is requested exactly when the chosen album has a truthy id, and only for that id. */
  lemma LookupOnlyForChosenId(fetch: Fetcher, movieName: string)
    ensures var calls := FetchPreviewForMovie(fetch, movieName).calls;
            forall k :: 0 <= k < |calls| && calls[k].LookupRequest? ==>
              k == 1 && ReachesLookup(fetch, movieName) && calls[k].collectionId == ChosenId(fetch, movieName)
    ensures ReachesLookup(fetch, movieName) ==>
              FetchPreviewForMovie(fetch, movieName).calls[1] == LookupRequest(ChosenId(fetch, movieName))
  {
    var calls := FetchPreviewForMovie(fetch, movieName).calls;
    var song := ReachesSongSearch(fetch, movieName);
    if ReachesLookup(fetch, movieName) {
      CallsWithLookup(fetch, movieName);
      LookupOnlySecond(calls, movieName, true, ChosenId(fetch, movieName), song);
    } else {
      CallsWithoutLookup(fetch, movieName);
      LookupOnlySecond(calls, movieName, false, 0, song);
    }
  }

  /** In a call sequence of the shape `CallsInOrder` gives, a lookup can only be the second call. */
  lemma LookupOnlySecond(calls: seq<Request>, movieName: string, lookup: bool, id: int, song: bool)
    requires calls == (if lookup then [AlbumSearchRequest(movieName), LookupRequest(id)] else [AlbumSearchRequest(movieName)])
                      + (if song then [SongSearchRequest(movieName)] else [])
    ensures forall k :: 0 <= k < |calls| && calls[k].LookupRequest? ==> k == 1 && lookup && calls[k].collectionId == id
    ensures lookup ==> calls[1] == LookupRequest(id)
  {
  }

  /** The song search is requested exactly when the album path ended with neither a preview nor an error. */
  lemma SongSearchIssuedIff(fetch: Fetcher, movieName: string)
    ensures SongSearchRequest(movieName) in FetchPreviewForMovie(fetch, movieName).calls <==> ReachesSongSearch(fetch, movieName)
  {
    CallsInOrder(fetch, movieName);
  }

  /** A request is made only after every earlier request succeeded: an error ends the resolution. */
  lemma EarlierCallsSucceeded(fetch: Fetcher, movieName: string)
    ensures var calls := FetchPreviewForMovie(fetch, movieName).calls;
            forall k :: 0 <= k < |calls| - 1 ==> fetch(calls[k]).Success?
  {
    CallsInOrder(fetch, movieName);
  }

  /** No URL is fetched twice in one resolution. */
  lemma CallUrlsDistinct(fetch: Fetcher, movieName: string)
    ensures var calls := FetchPreviewForMovie(fetch, movieName).calls;
            forall i, j :: 0 <= i < j < |calls| ==> RequestUrl(calls[i]) != RequestUrl(calls[j])
  {
    var calls := FetchPreviewForMovie(fetch, movieName).calls;
    CallsInOrder(fetch, movieName);
    var lookup := if ReachesLookup(fetch, movieName) then [LookupRequest(ChosenId(fetch, movieName))] else [];
    var song := if ReachesSongSearch(fetch, movieName) then [SongSearchRequest(movieName)] else [];
    KindsIncrease(AlbumSearchRequest(movieName), lookup, song);
    forall i, j | 0 <= i < j < |calls|
      ensures RequestUrl(calls[i]) != RequestUrl(calls[j])
    {
      RequestUrlsDistinct(calls[i], calls[j]);
    }
  }

  /** An album search, then at most one lookup, then at most one song search: no two of them are alike. */
  lemma KindsIncrease(a: Request, lookup: seq<Request>, song: seq<Request>)
    requires a.AlbumSearchRequest?
    requires |lookup| <= 1 && (lookup != [] ==> lookup[0].LookupRequest?)
    requires |song| <= 1 && (song != [] ==> song[0].SongSearchRequest?)
    ensures var calls := [a] + lookup + song;
            forall i, j :: 0 <= i < j < |calls| ==> calls[i] != calls[j] && !SameSearch(calls[i], calls[j])
  {
  }

  /**
   * When the album path finds a playable track, the result is built from the
   * chosen album and the first playable track the lookup returned, in upstream
   * order, and the song search is never requested.
   */
  lemma AlbumLookupWins(fetch: Fetcher, movieName: string)
    requires AlbumStageHits(fetch, movieName)
    ensures var albumData := fetch(AlbumSearchRequest(movieName)).value;
            var id := ChosenId(fetch, movieName);
            var lookupData := fetch(LookupRequest(id)).value;
            var rows := Results(lookupData);
            var first := FindIndex(rows, PlayableTrack);
            first.Some? &&
            FetchPreviewForMovie(fetch, movieName) ==
              Run(Success(Some(Preview(
                    AlbumLookup,
                    "AlbumSearch=" + IntToString(ResultCount(albumData)) +
                      ", AlbumTracks=" + IntToString(ResultCount(lookupData)),
                    ChosenAlbum(fetch, movieName).collectionName,
                    rows[first.value].trackName,
                    rows[first.value].artistName,
                    rows[first.value].previewUrl.value))),
                  [AlbumSearchRequest(movieName), LookupRequest(id)])
  {
    var id := ChosenId(fetch, movieName);
    FilterHeadIsFirstMatch(Results(fetch(LookupRequest(id)).value), PlayableTrack);
  }

  /**
   * `run` ends with the song search, and its result is that search's error,
   * the preview built from the first row with a preview URL, or none.
   */
  predicate DecidedBySongSearch(fetch: Fetcher, movieName: string, run: Run) {
    var fetched := fetch(SongSearchRequest(movieName));
    && |run.calls| >= 1
    && run.calls[|run.calls| - 1] == SongSearchRequest(movieName)
    && (fetched.Failure? ==> run.result == Failure(fetched.error))
    && (fetched.Success? ==>
          var rows := Results(fetched.value);
          match FindIndex(rows, HasPreview)
          case None => run.result == Success(None)
          case Some(i) =>
            run.result == Success(Some(Preview(
              SongSearch,
              "SongSearch=" + IntToString(ResultCount(fetched.value)),
              rows[i].collectionName, rows[i].trackName, rows[i].artistName,
              rows[i].previewUrl.value))))
  }


  /**
   * When the album path ends without a preview and without an error, the song
   * search decides: its error is thrown, or the result is built from the first
   * song with a preview URL, or there is no result.
   */
  lemma SongSearchDecides(fetch: Fetcher, movieName: string)
    requires ReachesSongSearch(fetch, movieName)
    ensures DecidedBySongSearch(fetch, movieName, FetchPreviewForMovie(fetch, movieName))
  {
    var fetched := fetch(SongSearchRequest(movieName));
    if fetched.Success? {
      FilterHeadIsFirstMatch(Results(fetched.value), HasPreview);
    }
  }

  /**
   * Some request of `calls` was answered with a row whose `previewUrl` is
   * that of `p`, a track row when `p` comes from the album lookup.
   */
  predicate ComesFromRow(fetch: Fetcher, calls: seq<Request>, p: Preview) {
    exists k, row ::
      0 <= k < |calls| && fetch(calls[k]).Success? &&
      row in Results(fetch(calls[k]).value) &&
      row.previewUrl == Some(p.previewUrl) &&
      (p.source == AlbumLookup ==> IsTrack(row))
  }

  /**
   * A preview is never invented: its URL is the non-empty `previewUrl` of a
   * row the catalog returned to one of the requests, a track row when it comes
   * from the album lookup.
   */
  lemma PreviewComesFromCatalog(fetch: Fetcher, movieName: string)
    requires FetchPreviewForMovie(fetch, movieName).result.Success?
    requires FetchPreviewForMovie(fetch, movieName).result.value.Some?
    ensures var run := FetchPreviewForMovie(fetch, movieName);
            var p := run.result.value.value;
            p.previewUrl != "" && ComesFromRow(fetch, run.calls, p)
  {
    if AlbumStageHits(fetch, movieName) {
      ProvenanceOnHit(fetch, movieName);
    } else {
      SuccessMeansNoAlbumError(fetch, movieName);
      SongSearchDecides(fetch, movieName);
      SongRowWitness(fetch, movieName, FetchPreviewForMovie(fetch, movieName));
    }
  }

  /** A resolution that did not throw had no error on the album path. */
  lemma SuccessMeansNoAlbumError(fetch: Fetcher, movieName: string)
    requires FetchPreviewForMovie(fetch, movieName).result.Success?
    ensures !AlbumStageFails(fetch, movieName)
  {
    CallsInOrder(fetch, movieName);
  }

  /** On the album path, the preview's URL is that of the first playable row of the lookup. */
  lemma ProvenanceOnHit(fetch: Fetcher, movieName: string)
    requires AlbumStageHits(fetch, movieName)
    ensures var run := FetchPreviewForMovie(fetch, movieName);
            run.result.Success? && run.result.value.Some? &&
            ComesFromRow(fetch, run.calls, run.result.value.value)
  {
    AlbumLookupWins(fetch, movieName);
    var run := FetchPreviewForMovie(fetch, movieName);
    var rows := Results(fetch(LookupRequest(ChosenId(fetch, movieName))).value);
    var row := rows[FindIndex(rows, PlayableTrack).value];
    ProvenanceWitness(fetch, run.calls, run.result.value.value, 1, row);
  }

  /** On the song-search path, the preview's URL is that of the first song-search row with one. */
  lemma SongRowWitness(fetch: Fetcher, movieName: string, run: Run)
    requires DecidedBySongSearch(fetch, movieName, run)
    requires run.result.Success? && run.result.value.Some?
    ensures ComesFromRow(fetch, run.calls, run.result.value.value)
  {
    var rows := Results(fetch(SongSearchRequest(movieName)).value);
    var row := rows[FindIndex(rows, HasPreview).value];
    ProvenanceWitness(fetch, run.calls, run.result.value.value, |run.calls| - 1, row);
  }

  lemma ProvenanceWitness(fetch: Fetcher, calls: seq<Request>, p: Preview, k: nat, row: Entry)
    requires k < |calls| && fetch(calls[k]).Success?
    requires row in Results(fetch(calls[k]).value)
    requires row.previewUrl == Some(p.previewUrl)
    requires p.source == AlbumLookup ==> IsTrack(row)
    ensures ComesFromRow(fetch, calls, p)
  {
  }

  /** The resolution depends on the fetcher only through its answers to the requests it makes. */
  lemma OnlyIssuedCallsMatter(f1: Fetcher, f2: Fetcher, movieName: string)
    requires forall r :: r in FetchPreviewForMovie(f1, movieName).calls ==> f1(r) == f2(r)
    ensures FetchPreviewForMovie(f1, movieName) == FetchPreviewForMovie(f2, movieName)
  {
    var calls := FetchPreviewForMovie(f1, movieName).calls;
    CallsInOrder(f1, movieName);
    CallsInOrder(f2, movieName);
    assert f1(calls[0]) == f2(calls[0]);
    if ReachesLookup(f1, movieName) {
      assert f1(calls[1]) == f2(calls[1]);
    }
    if |calls| == 3 || (|calls| == 2 && !ReachesLookup(f1, movieName)) {
      assert f1(calls[|calls| - 1]) == f2(calls[|calls| - 1]);
    }
  }

  /**
   * Once the album path has found a track, what the catalog would have
   * answered to the song search cannot change the result.
   */
  lemma SongSearchIgnoredAfterAlbumHit(c1: Catalog, c2: Catalog, movieName: string)
    requires AlbumStageHits(ProxyFetcher(c1), movieName)
    requires forall u :: u != RequestUrl(SongSearchRequest(movieName)) ==> c1(u) == c2(u)
    ensures FetchPreviewForMovie(ProxyFetcher(c1), movieName) == FetchPreviewForMovie(ProxyFetcher(c2), movieName)
  {
    var f1, f2 := ProxyFetcher(c1), ProxyFetcher(c2);
    forall r: Request | !r.SongSearchRequest?
      ensures f1(r) == f2(r)
    {
      AgreeAwayFromSongSearch(c1, c2, movieName, r);
    }
    AlbumHitIgnoresSongSearch(f1, f2, movieName);
  }

  /** The same for any two fetchers that answer all but song searches alike. */
  lemma AlbumHitIgnoresSongSearch(f1: Fetcher, f2: Fetcher, movieName: string)
    requires AlbumStageHits(f1, movieName)
    requires forall r: Request :: !r.SongSearchRequest? ==> f1(r) == f2(r)
    ensures FetchPreviewForMovie(f1, movieName) == FetchPreviewForMovie(f2, movieName)
  {
    AlbumLookupWins(f1, movieName);
    OnlyIssuedCallsMatter(f1, f2, movieName);
  }

  /** Catalogs that differ at most on the song-search URL answer every other request alike. */
  lemma AgreeAwayFromSongSearch(c1: Catalog, c2: Catalog, movieName: string, r: Request)
    requires forall u :: u != RequestUrl(SongSearchRequest(movieName)) ==> c1(u) == c2(u)
    requires !r.SongSearchRequest?
    ensures ProxyFetcher(c1)(r) == ProxyFetcher(c2)(r)
  {
    RequestUrlsDistinct(r, SongSearchRequest(movieName));
  }

  /** An error from the album search ends the resolution: nothing else is requested and the error is thrown as it is. */
  lemma AlbumSearchErrorAborts(fetch: Fetcher, movieName: string)
    requires fetch(AlbumSearchRequest(movieName)).Failure?
    ensures FetchPreviewForMovie(fetch, movieName) ==
              Run(Failure(fetch(AlbumSearchRequest(movieName)).error), [AlbumSearchRequest(movieName)])
  {
  }

  // ---------------------------------------------------------------------------
  // Worked cases: what the fetcher answers to each request, and the run that follows.

  function OkBody(count: int, rows: seq<Entry>): Result<Body, FetchError> {
    Success(Body(Some(count), Some(rows)))
  }

  const LeoAlbum := Entry(Some(1), Some("Leo (Original Motion Picture Soundtrack)"), None, None, None, None)
  const LeoTrack := Entry(None, None, Some("track"), Some("https://x/1.m4a"), Some("Naa Ready"), Some("Anirudh"))

  /** One soundtrack album with a playable track: the album lookup answers, nothing else is asked. */
  lemma AlbumLookupExample(fetch: Fetcher, movieName: string)
    requires fetch(AlbumSearchRequest(movieName)) == OkBody(1, [LeoAlbum])
    requires fetch(LookupRequest(1)) == OkBody(1, [LeoTrack])
    ensures FetchPreviewForMovie(fetch, movieName) ==
              Run(Success(Some(Preview(AlbumLookup, "AlbumSearch=1, AlbumTracks=1",
                                       Some("Leo (Original Motion Picture Soundtrack)"), Some("Naa Ready"),
                                       Some("Anirudh"), "https://x/1.m4a"))),
                  [AlbumSearchRequest(movieName), LookupRequest(1)])
  {
    assert SearchSoundtrackAlbum(fetch, movieName) == Success(AlbumSearch(1, [LeoAlbum]));
    assert PickBestAlbum([LeoAlbum], movieName) == Some(LeoAlbum);
    assert LookupFilter([LeoTrack]) == [LeoTrack];
    assert LookupAlbumSongs(fetch, 1) == Success(SongList(1, [LeoTrack]));
    assert IntToString(1) == "1";
    AlbumDebugText();
  }

  lemma AlbumDebugText()
    ensures "AlbumSearch=" + "1" + ", AlbumTracks=" + "1" == "AlbumSearch=1, AlbumTracks=1"
  {
  }

  const LooseSong := Entry(None, Some("C"), None, Some("https://x/2.m4a"), Some("Song"), Some("A"))

  /** No album: the song search answers, with a row that is not marked as a track. */
  lemma SongSearchExample(fetch: Fetcher, movieName: string)
    requires fetch(AlbumSearchRequest(movieName)) == OkBody(0, [])
    requires fetch(SongSearchRequest(movieName)) == OkBody(1, [LooseSong])
    ensures FetchPreviewForMovie(fetch, movieName) ==
              Run(Success(Some(Preview(SongSearch, "SongSearch=1", Some("C"), Some("Song"), Some("A"), "https://x/2.m4a"))),
                  [AlbumSearchRequest(movieName), SongSearchRequest(movieName)])
  {
    assert FallbackFilter([LooseSong]) == [LooseSong];
    assert FallbackSearchSongs(fetch, movieName) == Success(SongList(1, [LooseSong]));
    assert IntToString(1) == "1";
    assert "SongSearch=" + "1" == "SongSearch=1";
  }

  const NumberedAlbum := Entry(Some(7), Some("Soundtrack"), None, None, None, None)
  const SilentTrack := Entry(None, None, Some("track"), None, Some("Intro"), Some("A"))
  const BlankTrack := Entry(None, None, Some("track"), Some(""), Some("Theme"), Some("B"))

  /** Tracks without preview URLs on both paths: all three requests are made and there is no result. */
  lemma NothingPlayableExample(fetch: Fetcher, movieName: string)
    requires fetch(AlbumSearchRequest(movieName)) == OkBody(1, [NumberedAlbum])
    requires fetch(LookupRequest(7)) == OkBody(2, [NumberedAlbum, SilentTrack])
    requires fetch(SongSearchRequest(movieName)) == OkBody(1, [BlankTrack])
    ensures FetchPreviewForMovie(fetch, movieName) ==
              Run(Success(None), [AlbumSearchRequest(movieName), LookupRequest(7), SongSearchRequest(movieName)])
  {
    assert PickBestAlbum([NumberedAlbum], movieName) == Some(NumberedAlbum);
    assert LookupFilter([NumberedAlbum, SilentTrack]) == [] by {
      assert [NumberedAlbum, SilentTrack][1..] == [SilentTrack] && [SilentTrack][1..] == [];
      assert !PlayableTrack(NumberedAlbum) && !PlayableTrack(SilentTrack);
      assert Filter([SilentTrack], PlayableTrack) == [];
    }
    assert LookupAlbumSongs(fetch, 7) == Success(SongList(2, []));
    assert FallbackFilter([BlankTrack]) == [];
    assert FallbackSearchSongs(fetch, movieName) == Success(SongList(1, []));
  }

  /** An HTTP error from the proxy on the lookup is thrown as it is: the song search is not tried. */
  lemma LookupErrorExample(catalog: Catalog, movieName: string)
    requires ProxyFetchJson(catalog, RequestUrl(AlbumSearchRequest(movieName))) == OkBody(1, [NumberedAlbum])
    requires catalog(RequestUrl(LookupRequest(7))) == Http(502, "Bad Gateway", Failure("Unexpected token B"))
    ensures FetchPreviewForMovie(ProxyFetcher(catalog), movieName) ==
              Run(Failure(ProxyFailed(502, "Bad Gateway")), [AlbumSearchRequest(movieName), LookupRequest(7)])
  {
    var fetch := ProxyFetcher(catalog);
    assert fetch(AlbumSearchRequest(movieName)) == OkBody(1, [NumberedAlbum]);
    assert fetch(LookupRequest(7)) == Failure(ProxyFailed(502, "Bad Gateway"));
    assert PickBestAlbum([NumberedAlbum], movieName) == Some(NumberedAlbum);
  }
}
