# Movie song bot: preview resolution

This project models how the movie song bot turns a movie name into one playable
song preview, following `public/app.js`. The user types a movie name, speaks it,
or hands one over. It is normalised (trimmed, a missing value read as empty), and
a blank name is answered with a prompt before anything is fetched. Any other name
is resolved against the iTunes catalog, reached through a local proxy:

1. search the India storefront for the movie's soundtrack album;
2. pick the first album whose name contains the movie name, case-insensitively,
   or else the first album;
3. if that album has a truthy `collectionId`, look up its songs and keep the
   tracks that carry a preview URL; the first one wins;
4. otherwise, or when no track qualified, search songs for
   "`<movie>` song tamil" and keep the first row with a preview URL.

Any error from a request (network failure, non-2xx proxy status, a body that is
not JSON) ends the resolution and is shown as it is. Running out of stages gives
"no preview found".

The model is pure, as the source's core is. Its parts:

- **Requests and fetchers.** The three requests are a `Request` datatype, and
  `RequestUrl` builds the exact iTunes URL of each. The resolution takes a
  `Fetcher` (request → decoded body or error) as a parameter.
- **The page's fetcher.** `ProxyFetcher(catalog)` applies `proxyFetchJson` to
  each request's URL. Here `catalog` is an oracle from iTunes URL to the proxy's
  reply.
- **URL encoding.** `encodeURIComponent` is modelled concretely, as UTF-8
  percent-encoding. This lets the URLs be read back and their parameters proved.

Modules:

- `Text`: trim, ASCII lower-casing, substring search, split and join.
- `Seqs`: `find`, `filter`.
- `Numerals`: the decimal text of integers.
- `UriEncoding`: `encodeURIComponent` and percent-decoding.
- `Catalog`: entries, replies, `proxyFetchJson`, the URL builders.
- `Selector`: `pickBestAlbum`.
- `Pipeline`: `fetchPreviewForMovie` and its stages.
- `SearchHandler`: `normalize` and `handleSearch`.

Details of `public/app.js` that the model keeps:

- **No timeout.** No request has one; there is no timeout error.
- **Debug counts are raw.** The album-lookup debug text reports the lookup's raw
  `resultCount`, not the number of qualifying tracks. The song-search debug text
  reports the raw `resultCount` too.
- **Missing fields pass through.** A preview's `song`, `artist` and `album` are
  copied from the row and may be missing. Only `previewUrl` is guaranteed
  non-empty.
- **Proxy route and headers.** Every request goes to the one proxy route
  `/itunes?url=<encoded iTunes URL>` on `localhost:3000`. No client header is
  sent.
- **Blank names.** Only `handleSearch` rejects a blank name; the URL builders
  accept any term.

## Model

| member | source | states |
|---|---|---|
| Text.Trim | public/app.js:30-32 | `trim()` removes exactly a whitespace prefix and a whitespace suffix: the result is a slice of the input whose first and last characters, when present, are not whitespace |
| Text.TrimEmptyIffBlank | public/app.js:30-32 | a string trims to "" exactly when every character is whitespace |
| Text.TrimIdempotent | public/app.js:30-32 | trimming a trimmed string changes nothing |
| Text.ToLower | public/app.js:93-95 | lower-casing keeps the length and leaves no ASCII capital letter |
| Text.ToLowerIdempotent | public/app.js:93-95 | lower-casing twice equals lower-casing once |
| Text.Contains | public/app.js:95-95 | `includes`: the empty needle is found everywhere, and a needle longer than the text is never found |
| Text.ContainsIffOccurs | public/app.js:95-95 | `Contains` holds exactly when the needle occurs at some position of the text |
| Seqs.FindIndex | public/app.js:95-95 | `find` gives the first index whose element satisfies the test, and gives none exactly when no element does |
| Seqs.Filter | public/app.js:77-79 | `filter` keeps only elements of the input that pass the test, and keeps every element that passes |
| Seqs.FilterHeadIsFirstMatch | public/app.js:111-112 | the first element of a filtered list is the first passing element of the original list, found by `FindIndex` |
| Numerals.IntToString | public/app.js:62-64 | the decimal text of an integer contains neither `&` nor `?`, so it cannot break a query string |
| Numerals.ParseIntToString | public/app.js:62-64 | the decimal text of every integer parses back to that integer |
| UriEncoding.EncodeURIComponent | public/app.js:57-60 | the encoded text consists of unreserved characters and `%` only |
| UriEncoding.EncodedHasNoDelimiters | public/app.js:57-60 | no `&`, `?`, `=`, `#`, space or `/` survives encoding, so a term cannot inject a parameter |
| UriEncoding.EncodeKeepsUnreserved | public/app.js:57-60 | text made only of unreserved characters is encoded as itself |
| UriEncoding.DecodeEncode | public/app.js:46-47 | percent-decoding the encoding of any string gives exactly its UTF-8 bytes |
| Catalog.ProxyUrl | public/app.js:47-47 | the proxy request URL starts with `http://localhost:3000/itunes?url=` |
| Catalog.Message | public/app.js:51-51 | a non-2xx reply's message starts with "Proxy request failed (" and ends with the reply's text; network and parse errors are reported by their own message |
| Catalog.MessageStatusReadsBack | public/app.js:51-51 | for every status and text, the proxy-failure message is "Proxy request failed (", then text that parses back to the status, then "). ", then the reply's text |
| Catalog.ProxyFetchJson | public/app.js:46-54 | the fetch succeeds exactly on a 2xx reply whose body is JSON, and then returns that body; a network failure fails with its reason; a non-2xx reply fails with its status and text; a 2xx reply that is not JSON fails with the parse error |
| Catalog.ProxyUrlCarriesUrl | public/app.js:46-47 | the proxy request goes to `/itunes` with a single `url` parameter that decodes to exactly the iTunes URL |
| Catalog.SearchUrlParams | public/app.js:57-60 | a search URL is the `/in/search` endpoint with exactly the parameters `term=<encoded term>`, `media=music`, `entity`, `attribute` and `limit=10`, in that order |
| Catalog.SearchUrlsDifferByEntity | public/app.js:57-60 | search URLs with different `entity` values are different URLs, whatever their terms |
| Catalog.LookupUrlParams | public/app.js:62-64 | a lookup URL is the `/in/lookup` endpoint with exactly `id=<id>`, `entity=song` and `limit=50`, and the `id` value parses back to the collection id |
| Catalog.UrlsOnItunesOrigin | public/app.js:57-64 | both builders produce URLs on `https://itunes.apple.com/` |
| Selector.PickBestAlbum | public/app.js:91-99 | the result is none exactly when the list is empty, and otherwise is an element of the list |
| Selector.PickBestAlbumFirstMatch | public/app.js:93-95 | when some album's lower-cased name contains the lower-cased movie name, the result is the first such album in list order |
| Selector.PickBestAlbumFallsBackToFirst | public/app.js:95-96 | when no album matches, the result is the first album |
| Selector.MatchesIffOccurs | public/app.js:93-95 | an album matches exactly when the lower-cased movie name occurs somewhere in the album's lower-cased name, a missing name counting as the empty string |
| Selector.Matches | public/app.js:95-95 | the empty movie name matches every album; a match needs the album name to be at least as long as the movie name; an album without a name matches only the empty movie name |
| Selector.PickBestAlbumIgnoresCase | public/app.js:93-93 | movie names that are equal after lower-casing pick the same album |
| Pipeline.SearchSoundtrackAlbum | public/app.js:67-72 | fails exactly when the album-search request fails, with its error; otherwise the albums are the reply's `results` (or []) and the count is its `resultCount` (or 0) |
| Pipeline.LookupFilter | public/app.js:77-79 | keeps every row that is a track with a non-empty preview URL and nothing else; it is empty exactly when no row is playable, and otherwise starts with the first playable row |
| Pipeline.FallbackFilter | public/app.js:87-87 | keeps every row with a non-empty preview URL and nothing else; it is empty exactly when no row has one, and otherwise starts with the first such row |
| Pipeline.LookupAlbumSongs | public/app.js:74-81 | fails exactly when the lookup fails, with its error; otherwise the songs are the lookup filter of the reply rows, in order, so the first song is the first playable row and there is none exactly when no row is playable; the count is the raw `resultCount` (or 0) |
| Pipeline.FallbackSearchSongs | public/app.js:83-89 | fails exactly when the song search fails, with its error; otherwise the songs are the reply rows with a non-empty preview URL, in order, so the first song is the first such row; the count is the raw `resultCount` (or 0) |
| Pipeline.FetchPreviewForMovie | public/app.js:101-141 | one to three requests, the album search first; the result fails exactly when the last request failed, with that request's error; a preview always has a non-empty preview URL |
| Pipeline.AlbumLookupStage | public/app.js:105-123 | after the album search, exactly the lookup of the chosen album's id; when the lookup has a playable row, the result is the album-lookup preview of the first one, with both raw counts in the debug text, after two requests; the song search follows only if the lookup succeeded with no playable row |
| Pipeline.AlbumLookupStageFallsThrough | public/app.js:111-126 | when the lookup succeeds with no playable track, the stage is exactly the song search issued after the album search and the lookup |
| Pipeline.SongSearchStage | public/app.js:125-140 | the song search is the last request; its failure is the result's failure; otherwise the result is the song-search preview built from the first row with a preview URL, with the raw count in the debug text, or none when no row has one |
| Pipeline.LookupFilterExact | public/app.js:77-79 | the lookup filter keeps exactly the tracks with a non-empty preview URL, in order, and distributes over concatenation |
| Pipeline.FallbackFilterExact | public/app.js:87-87 | the song-search filter keeps exactly the rows with a non-empty preview URL, in order, and distributes over concatenation |
| Pipeline.LookupFilterRefinesFallback | public/app.js:77-87 | the lookup filter is the song-search filter followed by the `wrapperType === "track"` test |
| Pipeline.FiltersAsymmetric | public/app.js:77-87 | a row with a preview URL but another wrapper type passes the song-search filter and not the lookup filter |
| Pipeline.RequestUrlsDistinct | public/app.js:57-89 | requests of different kinds, or lookups of different ids, fetch different URLs |
| Pipeline.RequestEndpoint | public/app.js:57-89 | lookups go to the lookup endpoint and both searches to the search endpoint |
| Pipeline.RequestParams | public/app.js:57-89 | the album search carries `term=<movie> original motion picture soundtrack` (encoded), `entity=album` and `attribute=albumTerm`; the song search carries `<movie> song tamil`, `song` and `songTerm`; the lookup carries `id=<id>`, `entity=song`, `limit=50` |
| Pipeline.CallsInOrder | public/app.js:101-141 | the requests are exactly: the album search; the lookup of the chosen id when the chosen album has a truthy id; the song search when the album path ended without a preview and without an error |
| Pipeline.LookupOnlyForChosenId | public/app.js:105-109 | a lookup is made only as the second request, only when the chosen album has a truthy id, and only for that id |
| Pipeline.SongSearchIssuedIff | public/app.js:105-126 | the song search is requested exactly when the album path ended with neither a preview nor an error |
| Pipeline.EarlierCallsSucceeded | public/app.js:101-141 | every request except the last succeeded: an error stops the resolution |
| Pipeline.SuccessMeansNoAlbumError | public/app.js:101-123 | a resolution that did not throw had neither an album-search error nor a lookup error |
| Pipeline.CallUrlsDistinct | public/app.js:101-141 | no URL is fetched twice in one resolution |
| Pipeline.AlbumLookupWins | public/app.js:105-121 | when the lookup yields a playable track, the result is the album-lookup preview built from the chosen album and the first playable row, with the raw counts in the debug text, after exactly two requests |
| Pipeline.SongSearchDecides | public/app.js:125-140 | when the song search runs, its error is the result's error; otherwise the result is the preview built from the first row with a preview URL, or none when there is no such row |
| Pipeline.PreviewComesFromCatalog | public/app.js:111-136 | a preview's URL is the non-empty `previewUrl` of a row returned by one of the requests, a track row when the preview comes from the lookup |
| Pipeline.OnlyIssuedCallsMatter | public/app.js:101-141 | two fetchers that agree on the requests made give the same resolution |
| Pipeline.SongSearchIgnoredAfterAlbumHit | public/app.js:111-121 | once the lookup yields a track, changing the catalog's answer to the song search changes nothing |
| Pipeline.AlbumHitIgnoresSongSearch | public/app.js:111-121 | once the lookup yields a track, two fetchers that answer every request other than song searches alike give the same resolution |
| Pipeline.AlbumSearchErrorAborts | public/app.js:103-103 | an album-search error is the result, and nothing else is requested |
| Pipeline.AlbumLookupExample | public/app.js:105-121 | one matching album with one playable track gives the album-lookup preview with debug "AlbumSearch=1, AlbumTracks=1", after two requests |
| Pipeline.SongSearchExample | public/app.js:125-138 | with no albums, a song-search row that is not marked as a track still gives a song-search preview |
| Pipeline.NothingPlayableExample | public/app.js:101-141 | with no playable row on either path, all three requests are made and the result is none |
| Pipeline.LookupErrorExample | public/app.js:49-51 | a 502 from the proxy on the lookup is the result's error, and the song search is not tried |
| SearchHandler.Normalize | public/app.js:30-32 | a missing value becomes ""; otherwise the result is the value without surrounding whitespace |
| SearchHandler.NormalizeBlank | public/app.js:30-32 | a value normalises to "" exactly when it is missing or only whitespace |
| SearchHandler.NormalizeIdempotent | public/app.js:30-32 | normalising twice equals normalising once |
| SearchHandler.HandleSearch | public/app.js:144-195 | the user is asked for a name, with no request made, exactly when the name given is blank; otherwise the trimmed name is searched, and a loaded preview has a non-empty URL |
| SearchHandler.Respond | public/app.js:146-194 | an empty name makes no request; a non-empty name's requests start with its album search |
| SearchHandler.BlankInputNeverFetches | public/app.js:145-149 | a blank name gives the prompt and no request |
| SearchHandler.OutcomeFollowsResolution | public/app.js:145-157 | a non-blank name is handled as its trimmed form |
| SearchHandler.RespondReportsResolution | public/app.js:157-194 | the outcome is the error's message, "no preview found" or the loaded preview, exactly as the resolution ended, with the same requests |
| SearchHandler.OverrideWins | public/app.js:145-145 | an override, even "", decides the name and the input box is ignored |
| SearchHandler.InputUsedWithoutOverride | public/app.js:145-145 | without an override the input box's value is used |
| SearchHandler.SurroundingWhitespaceIgnored | public/app.js:145-145 | a name and its trimmed form are handled identically |
| SearchHandler.ProxyFailureMessage | public/app.js:49-52 | a 503 from the proxy on the album search is shown as "Proxy request failed (503). down", after one request |

## Left out

- `server.js` is not part of this model. Its proxy is reached only through the oracle that `ProxyFetchJson` consults.
- Transport is an oracle from iTunes URL to reply: `fetch`, `res.text()` and `res.json()`. A failed `res.text()` appears as the reply's text being "". The messages of network and JSON-parse errors are carried as given.
- The DOM and UI are not modelled: `addMsg`, its message texts and the checklist, `resetPlayer`, the audio element and its buttons, and the globals `currentPreviewUrl` and `currentMeta`. A `Loaded` outcome stands for the player being given the preview.
- Voice input (public/app.js:224-257) is left out as a browser API. Its only effect on the core, `handleSearch(spoken)`, is the override parameter of `HandleSearch`.
- Async scheduling is left out. Each request is awaited in turn, so the model is sequential. Overlapping searches are not modelled.
- Text.ToLower: lower-cases ASCII letters only. Full Unicode `toLowerCase` and its length-changing mappings are not modelled.
- Numerals.IntToString: renders integers only, in plain digits. JavaScript's `${n}` switches to exponent form from 1e21, and loses precision above 2^53; neither is modelled, and neither are non-integer numbers. Counts and ids are taken to be exact integers.
- UriEncoding.EncodeURIComponent: is defined on Unicode scalar values. The `URIError` JavaScript throws for a lone surrogate cannot arise here.
- Catalog.Entry: each field is modelled as present or missing with its expected type. JSON values of other types in those fields (a numeric `collectionName`, a string `collectionId`) are not modelled. A `null` row cannot be expressed: in the source it throws a `TypeError` in the filters (public/app.js:77, 87) and in `pickBestAlbum` (public/app.js:95).
- Catalog.Body: a decoded body is always an object whose `results` is a list or missing. A `null` body (public/app.js:71) and a non-list `results` (public/app.js:77, 87) throw a `TypeError` in the source; neither can be expressed.
