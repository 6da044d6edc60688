/**
 * The catalog as the preview resolution sees it: the shape of its JSON replies,
 * the two request URLs against the India storefront, and the proxy fetch that
 * turns an HTTP reply into decoded results or an error.
 */
module Catalog {
  import opened Wrappers
  import opened Text
  import opened Numerals
  import opened UriEncoding

  /**
   * One element of a reply's `results`: an album from an album search, a
   * collection or track row from a lookup, a song from a song search. Every
   * field may be missing.
   */
  datatype Entry = Entry(
    collectionId: Option<int>,
    collectionName: Option<string>,
    wrapperType: Option<string>,
    previewUrl: Option<string>,
    trackName: Option<string>,
    artistName: Option<string>)

  /** `collectionId` is truthy: present and not 0. */
  predicate HasCollectionId(e: Entry) {
    e.collectionId.Some? && e.collectionId.value != 0
  }

  /** `previewUrl` is truthy: present and not the empty string. */
  predicate HasPreview(e: Entry) {
    e.previewUrl.Some? && e.previewUrl.value != ""
  }

  /** `wrapperType === "track"`. */
  predicate IsTrack(e: Entry) {
    e.wrapperType == Some("track")
  }

  /** A decoded reply body: `{ resultCount, results }`, either of which may be missing. */
  datatype Body = Body(resultCount: Option<int>, results: Option<seq<Entry>>)

  /** `data.resultCount || 0`. */
  function ResultCount(data: Body): int {
    match data.resultCount
    case None => 0
    case Some(n) => n
  }

  /** `data.results || []`. */
  function Results(data: Body): seq<Entry> {
    match data.results
    case None => []
    case Some(rs) => rs
  }

  /**
   * What the proxy does with one request: the network call fails outright, or
   * an HTTP reply arrives with a status, its text, and what `res.json()` makes
   * of that text: the decoded body, or the message of the parse error.
   */
  datatype Reply = Unreachable(reason: string) | Http(status: int, text: string, json: Result<Body, string>)

  /** The ways `proxyFetchJson` can throw. */
  datatype FetchError =
    | NetworkError(reason: string)
    | ProxyFailed(status: int, text: string)
    | InvalidJson(reason: string)

  /** The `message` of the thrown error, as shown to the user. */
  function Message(e: FetchError): (r: string)
    ensures e.NetworkError? ==> r == e.reason
    ensures e.InvalidJson? ==> r == e.reason
    ensures e.ProxyFailed? ==> "Proxy request failed (" <= r && |e.text| <= |r| && r[|r| - |e.text|..] == e.text
  {
    match e
    case NetworkError(reason) => reason
    case ProxyFailed(status, text) => "Proxy request failed (" + IntToString(status) + "). " + text
    case InvalidJson(reason) => reason
  }

  /**
   * The proxy-failure message reads back: between the fixed opening and the
   * `). ` before the reply's text lies the decimal text of the status.
   */
  lemma MessageStatusReadsBack(status: int, text: string)
    ensures var r := Message(ProxyFailed(status, text));
            && |r| >= 26 + |text|
            && r[..22] == "Proxy request failed ("
            && ParseInt(r[22..|r| - |text| - 3]) == Some(status)
            && r[|r| - |text| - 3..|r| - |text|] == "). "
            && r[|r| - |text|..] == text
  {
    var digits := IntToString(status);
    var r := Message(ProxyFailed(status, text));
    assert r == "Proxy request failed (" + digits + "). " + text;
    assert r[22..|r| - |text| - 3] == digits;
    ParseIntToString(status);
  }

  /** The catalog, reached through the proxy: the reply to a request for each iTunes URL. */
  type Catalog = string -> Reply

  const ItunesOrigin: string := "https://itunes.apple.com/"
  const SearchEndpoint: string := "https://itunes.apple.com/in/search"
  const LookupEndpoint: string := "https://itunes.apple.com/in/lookup"
  const ProxyEndpoint: string := "http://localhost:3000/itunes"

  /** The proxy request that carries an iTunes URL as its `url` parameter. */
  function ProxyUrl(itunesUrl: string): (r: string)
    ensures ProxyEndpoint + "?url=" <= r
  {
    ProxyEndpoint + "?" + "url=" + EncodeURIComponent(itunesUrl)
  }

  /** `res.ok`: a 2xx status. */
  predicate IsOk(status: int) {
    200 <= status <= 299
  }

  /**
   * `proxyFetchJson`: a failed fetch, a non-2xx status or a body that is not
   * JSON is an error; otherwise the decoded body.
   *
   * The request sent is `ProxyUrl(itunesUrl)`; the catalog is keyed by the
   * iTunes URL itself, which identifies the same request because the proxy URL
   * carries exactly that URL and nothing else (`ProxyUrlCarriesUrl`).
   */
  function ProxyFetchJson(catalog: Catalog, itunesUrl: string): (r: Result<Body, FetchError>)
    ensures r.Success? <==> catalog(itunesUrl).Http? && IsOk(catalog(itunesUrl).status) && catalog(itunesUrl).json.Success?
    ensures r.Success? ==> r.value == catalog(itunesUrl).json.value
    ensures catalog(itunesUrl).Http? && !IsOk(catalog(itunesUrl).status) ==>
              r == Failure(ProxyFailed(catalog(itunesUrl).status, catalog(itunesUrl).text))
    ensures catalog(itunesUrl).Unreachable? ==> r == Failure(NetworkError(catalog(itunesUrl).reason))
    ensures catalog(itunesUrl).Http? && IsOk(catalog(itunesUrl).status) && catalog(itunesUrl).json.Failure? ==>
              r == Failure(InvalidJson(catalog(itunesUrl).json.error))
  {
    match catalog(itunesUrl)
    case Unreachable(reason) => Failure(NetworkError(reason))
    case Http(status, text, json) =>
      if !IsOk(status) then Failure(ProxyFailed(status, text))
      else match json
        case Failure(reason) => Failure(InvalidJson(reason))
        case Success(data) => Success(data)
  }

  /** `itunesSearchUrl(term, entity, attribute)`: a search on the India storefront, at most 10 results. */
  function SearchUrl(term: string, entity: string, attribute: string): string {
    SearchEndpoint + "?" + "term=" + EncodeURIComponent(term) + "&" + "media=music" + "&" + "entity=" + entity +
      "&" + "attribute=" + attribute + "&" + "limit=10"
  }

  /** `itunesLookupUrl(collectionId)`: the songs of one collection, at most 50 results. */
  function LookupUrl(collectionId: int): string {
    LookupEndpoint + "?" + "id=" + IntToString(collectionId) + "&" + "entity=song" + "&" + "limit=50"
  }

  /** The query parameters of a URL: what follows the `?`, split at each `&`. */
  function QueryParams(url: string): seq<string> {
    var parts := Split(url, '?');
    if |parts| == 2 then Split(parts[1], '&') else []
  }

  /** The part of a URL before its `?`. */
  function Endpoint(url: string): string {
    Split(url, '?')[0]
  }

  /** A character absent from every part is absent from their join. */
  lemma {:induction false} JoinAvoids(parts: seq<string>, sep: char, c: char)
    requires |parts| >= 1 && c != sep
    requires forall k :: 0 <= k < |parts| ==> c !in parts[k]
    ensures c !in Join(parts, sep)
  {
    if |parts| > 1 {
      JoinAvoids(parts[1..], sep, c);
    }
  }

  /** `endpoint?` followed by the `&`-join of separator-free parameters reads back as those parameters. */
  lemma ReadBackQuery(endpoint: string, params: seq<string>)
    requires '?' !in endpoint
    requires |params| >= 1
    requires forall k :: 0 <= k < |params| ==> '&' !in params[k] && '?' !in params[k]
    ensures Endpoint(endpoint + "?" + Join(params, '&')) == endpoint
    ensures QueryParams(endpoint + "?" + Join(params, '&')) == params
  {
    var q := Join(params, '&');
    JoinAvoids(params, '&', '?');
    SplitAfterPiece(endpoint, '?', q);
    SplitWithoutSep(q, '?');
    SplitJoin(params, '&');
  }

  /** The five parameters a search URL carries. */
  function SearchParams(term: string, entity: string, attribute: string): seq<string> {
    ["term=" + EncodeURIComponent(term), "media=music", "entity=" + entity, "attribute=" + attribute, "limit=10"]
  }

  /**
   * A search URL names the search endpoint and carries exactly five parameters,
   * in order: the encoded term, `media=music`, the entity, the attribute and `limit=10`.
   */
  lemma SearchUrlParams(term: string, entity: string, attribute: string)
    requires '&' !in entity && '?' !in entity && '&' !in attribute && '?' !in attribute
    ensures Endpoint(SearchUrl(term, entity, attribute)) == SearchEndpoint
    ensures QueryParams(SearchUrl(term, entity, attribute)) == SearchParams(term, entity, attribute)
  {
    var params := SearchParams(term, entity, attribute);
    SearchUrlIsJoin(term, entity, attribute);
    EncodedHasNoDelimiters(term);
    ReadBackQuery(SearchEndpoint, params);
  }

  lemma SearchUrlIsJoin(term: string, entity: string, attribute: string)
    ensures SearchUrl(term, entity, attribute) == SearchEndpoint + "?" + Join(SearchParams(term, entity, attribute), '&')
  {
    var t, e, a := "term=" + EncodeURIComponent(term), "entity=" + entity, "attribute=" + attribute;
    JoinFive(t, "media=music", e, a, "limit=10", '&');
    Regroup(SearchEndpoint, "?", "term=", EncodeURIComponent(term), "&", "media=music", "&", "entity=", entity,
            "&", "attribute=", attribute, "&", "limit=10");
  }

  /** The `&`-join of five parameters, written out. */
  lemma JoinFive(p1: string, p2: string, p3: string, p4: string, p5: string, sep: char)
    ensures Join([p1, p2, p3, p4, p5], sep) == p1 + [sep] + (p2 + [sep] + (p3 + [sep] + (p4 + [sep] + p5)))
  {
    assert Join([p5], sep) == p5;
    assert Join([p4, p5], sep) == p4 + [sep] + p5 by {
      assert [p4, p5][1..] == [p5];
    }
    assert Join([p3, p4, p5], sep) == p3 + [sep] + (p4 + [sep] + p5) by {
      assert [p3, p4, p5][1..] == [p4, p5];
    }
    assert Join([p2, p3, p4, p5], sep) == p2 + [sep] + (p3 + [sep] + (p4 + [sep] + p5)) by {
      assert [p2, p3, p4, p5][1..] == [p3, p4, p5];
    }
    assert [p1, p2, p3, p4, p5][1..] == [p2, p3, p4, p5];
  }

  /** Concatenation regrouped from left to right nesting, as the search URL and its join differ. */
  lemma Regroup<T>(x0: seq<T>, x1: seq<T>, x2: seq<T>, x3: seq<T>, x4: seq<T>, x5: seq<T>, x6: seq<T>,
                   x7: seq<T>, x8: seq<T>, x9: seq<T>, x10: seq<T>, x11: seq<T>, x12: seq<T>, x13: seq<T>)
    ensures x0 + x1 + x2 + x3 + x4 + x5 + x6 + x7 + x8 + x9 + x10 + x11 + x12 + x13 ==
            x0 + x1 + ((x2 + x3) + x4 + (x5 + x6 + ((x7 + x8) + x9 + ((x10 + x11) + x12 + x13))))
  {
  }

  /** Two searches for different entities are different URLs, whatever their terms. */
  lemma SearchUrlsDifferByEntity(t1: string, e1: string, a1: string, t2: string, e2: string, a2: string)
    requires '&' !in e1 && '?' !in e1 && '&' !in a1 && '?' !in a1
    requires '&' !in e2 && '?' !in e2 && '&' !in a2 && '?' !in a2
    requires e1 != e2
    ensures SearchUrl(t1, e1, a1) != SearchUrl(t2, e2, a2)
  {
    SearchUrlParams(t1, e1, a1);
    SearchUrlParams(t2, e2, a2);
    assert ("entity=" + e1)[7..] == e1;
    assert ("entity=" + e2)[7..] == e2;
    assert SearchParams(t1, e1, a1)[2] != SearchParams(t2, e2, a2)[2];
  }

  /**
   * A lookup URL names the lookup endpoint and carries `id`, `entity=song` and
   * `limit=50`; the `id` value reads back as the collection id.
   */
  lemma LookupUrlParams(collectionId: int)
    ensures Endpoint(LookupUrl(collectionId)) == LookupEndpoint
    ensures QueryParams(LookupUrl(collectionId)) == ["id=" + IntToString(collectionId), "entity=song", "limit=50"]
    ensures ParseInt(QueryParams(LookupUrl(collectionId))[0][3..]) == Some(collectionId)
  {
    var id := IntToString(collectionId);
    var params := ["id=" + id, "entity=song", "limit=50"];
    LookupUrlIsJoin(collectionId);
    ReadBackQuery(LookupEndpoint, params);
    assert ("id=" + id)[3..] == id;
    ParseIntToString(collectionId);
  }

  lemma LookupUrlIsJoin(collectionId: int)
    ensures LookupUrl(collectionId) ==
              LookupEndpoint + "?" + Join(["id=" + IntToString(collectionId), "entity=song", "limit=50"], '&')
  {
    var id := IntToString(collectionId);
    var params := ["id=" + id, "entity=song", "limit=50"];
    assert Join(params, '&') == ("id=" + id) + "&" + ("entity=song" + "&" + "limit=50") by {
      assert params[1..] == ["entity=song", "limit=50"];
      assert Join(params[1..], '&') == "entity=song" + "&" + "limit=50";
    }
  }

  /** Both builders target the iTunes origin, the only one the proxy forwards to. */
  lemma UrlsOnItunesOrigin(term: string, entity: string, attribute: string, collectionId: int)
    ensures SearchUrl(term, entity, attribute)[..|ItunesOrigin|] == ItunesOrigin
    ensures LookupUrl(collectionId)[..|ItunesOrigin|] == ItunesOrigin
  {
    var n := |ItunesOrigin|;
    assert SearchEndpoint[..n] == ItunesOrigin;
    assert LookupEndpoint[..n] == ItunesOrigin;
    SearchUrlIsJoin(term, entity, attribute);
    PrefixOfConcat(SearchEndpoint, "?", Join(SearchParams(term, entity, attribute), '&'), n);
    PrefixOfLookupUrl(LookupEndpoint, "?", "id=", IntToString(collectionId), "&", "entity=song", "&", "limit=50", n);
  }

  /** A prefix of the first part is a prefix of the whole. */
  lemma PrefixOfConcat<T>(x0: seq<T>, x1: seq<T>, x2: seq<T>, n: nat)
    requires n <= |x0|
    ensures (x0 + x1 + x2)[..n] == x0[..n]
  {
  }

  /** The same for the eight parts of a lookup URL. */
  lemma PrefixOfLookupUrl<T>(x0: seq<T>, x1: seq<T>, x2: seq<T>, x3: seq<T>, x4: seq<T>, x5: seq<T>, x6: seq<T>,
                             x7: seq<T>, n: nat)
    requires n <= |x0|
    ensures (x0 + x1 + x2 + x3 + x4 + x5 + x6 + x7)[..n] == x0[..n]
  {
  }

  /**
   * The proxy request carries the iTunes URL as one `url` parameter that
   * percent-decodes to exactly the UTF-8 bytes of that URL.
   */
  lemma ProxyUrlCarriesUrl(itunesUrl: string)
    ensures Endpoint(ProxyUrl(itunesUrl)) == ProxyEndpoint
    ensures QueryParams(ProxyUrl(itunesUrl)) == ["url=" + EncodeURIComponent(itunesUrl)]
    ensures PercentDecode(QueryParams(ProxyUrl(itunesUrl))[0][4..]) == Some(Utf8String(itunesUrl))
  {
    var e := EncodeURIComponent(itunesUrl);
    assert ProxyUrl(itunesUrl) == ProxyEndpoint + "?" + Join(["url=" + e], '&');
    EncodedHasNoDelimiters(itunesUrl);
    ReadBackQuery(ProxyEndpoint, ["url=" + e]);
    assert ("url=" + e)[4..] == e;
    DecodeEncode(itunesUrl);
  }
}
