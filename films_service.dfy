/**
 * FilmsService.swift: poster sizes, the three URL builders over `URLComponents`, and how a
 * data task's completion is turned into events on the service's subjects.
 */
module Catalog {
  import opened Wrappers
  import opened Seqs
  import opened Models

  /** `enum FilmPosterSize: String`. */
  datatype PosterSize = W92 | W154 | W185 | W300 | W342 | W500 | W780 | Original

  /** `rawValue`: each case's raw value is its own name. */
  function RawValue(size: PosterSize): string {
    match size
    case W92 => "w92"
    case W154 => "w154"
    case W185 => "w185"
    case W300 => "w300"
    case W342 => "w342"
    case W500 => "w500"
    case W780 => "w780"
    case Original => "original"
  }

  /** The synthesized `init?(rawValue:)`. */
  function PosterSizeFromRaw(raw: string): (r: Option<PosterSize>)
    ensures r.Some? ==> RawValue(r.value) == raw
    ensures r.None? ==> forall size: PosterSize :: RawValue(size) != raw
  {
    if raw == "w92" then Some(W92)
    else if raw == "w154" then Some(W154)
    else if raw == "w185" then Some(W185)
    else if raw == "w300" then Some(W300)
    else if raw == "w342" then Some(W342)
    else if raw == "w500" then Some(W500)
    else if raw == "w780" then Some(W780)
    else if raw == "original" then Some(Original)
    else None
  }

  /** The raw values are distinct: `init?(rawValue:)` inverts `rawValue`. */
  lemma RawValueRoundTrip(size: PosterSize)
    ensures PosterSizeFromRaw(RawValue(size)) == Some(size)
  {
  }

  lemma RawValueHasNoSlash(size: PosterSize)
    ensures forall i :: 0 <= i < |RawValue(size)| ==> RawValue(size)[i] != '/'
  {
  }

  // ---------------------------------------------------------------------------------
  // URLComponents

  datatype QueryItem = QueryItem(name: string, value: Option<string>)

  /** The parts the builders set; unset parts are `nil`. */
  datatype Components = Components(
    scheme: Option<string>,
    host: Option<string>,
    path: string,
    queryItems: Option<seq<QueryItem>>)

  datatype Url = FileUrl(filePath: string) | WebUrl(parts: Components)

  /** `URL(fileURLWithPath: "")`, the fallback of the endpoint builders. */
  const EmptyFileUrl: Url := FileUrl("")

  /**
   * `URLComponents.url`: `nil` when the path cannot follow the authority, that is a non-empty
   * path not starting with `/` after a host, or a path starting with `//` without one.
   */
  function ComponentsUrl(c: Components): Option<Url> {
    if c.host.Some? && |c.path| > 0 && c.path[0] != '/' then None
    else if c.host.None? && |c.path| >= 2 && c.path[..2] == "//" then None
    else Some(WebUrl(c))
  }

  const Scheme: string := "https"
  const ApiHost: string := "api.themoviedb.org"
  const PopularPath: string := "/3/movie/popular"
  const DetailsPathPrefix: string := "/3/movie/"
  const ApiKeyName: string := "api_key"
  const ImageHost: string := "image.tmdb.org"
  const ImagePathPrefix: string := "/t/p/"

  /** The one query item both endpoints carry. */
  function ApiKeyQuery(key: string): seq<QueryItem> {
    [QueryItem(ApiKeyName, Some(key))]
  }

  // ---------------------------------------------------------------------------------
  // Decimal text of an `Int`, as string interpolation writes it, and its inverse.

  predicate IsDigit(c: char) {
    '0' <= c <= '9'
  }

  predicate AllDigits(s: string) {
    forall i :: 0 <= i < |s| ==> IsDigit(s[i])
  }

  function DigitChar(d: nat): (c: char)
    requires d < 10
    ensures IsDigit(c) && c as int - '0' as int == d
  {
    (d + '0' as int) as char
  }

  function NatDigits(n: nat): (s: string)
    ensures |s| >= 1 && AllDigits(s)
    decreases n
  {
    if n < 10 then [DigitChar(n)] else NatDigits(n / 10) + [DigitChar(n % 10)]
  }

  /** `"\(id)"`: a minus sign for negative values, then the digits. */
  function Decimal(n: int): string {
    if n < 0 then "-" + NatDigits(-n) else NatDigits(n)
  }

  function DigitsValue(s: string): nat
    requires AllDigits(s)
    decreases |s|
  {
    if |s| == 0 then 0 else DigitsValue(s[..|s| - 1]) * 10 + (s[|s| - 1] as int - '0' as int)
  }

  /** Reading decimal text back: an optional minus sign and at least one digit. */
  function ParseDecimal(s: string): Option<int> {
    if |s| > 1 && s[0] == '-' && AllDigits(s[1..]) then Some(0 - DigitsValue(s[1..]) as int)
    else if |s| > 0 && AllDigits(s) then Some(DigitsValue(s))
    else None
  }

  lemma {:induction false} NatDigitsValue(n: nat)
    ensures DigitsValue(NatDigits(n)) == n
    decreases n
  {
    if n >= 10 {
      NatDigitsValue(n / 10);
      var s := NatDigits(n);
      assert s[..|s| - 1] == NatDigits(n / 10);
    }
  }

  /** The decimal text determines the number, so distinct ids give distinct detail paths. */
  lemma DecimalRoundTrip(n: int)
    ensures ParseDecimal(Decimal(n)) == Some(n)
  {
    if n < 0 {
      NatDigitsValue(-n);
      assert Decimal(n)[1..] == NatDigits(-n);
    } else {
      NatDigitsValue(n);
    }
  }

  // ---------------------------------------------------------------------------------
  // The builders

  /**
   * `createURL`: no API key gives the empty file URL; with a key, the popular-films endpoint
   * with `api_key` as its only query item. The builder's own `nil` fallback is never taken.
   */
  function CreateURL(apiKey: Option<string>): (u: Url)
    ensures apiKey.None? <==> u == EmptyFileUrl
    ensures apiKey.Some? ==>
      u == WebUrl(Components(Some(Scheme), Some(ApiHost), PopularPath, Some(ApiKeyQuery(apiKey.value))))
  {
    match apiKey
    case None => EmptyFileUrl
    case Some(key) =>
      ComponentsUrl(Components(Some(Scheme), Some(ApiHost), PopularPath, Some(ApiKeyQuery(key))))
        .GetOr(EmptyFileUrl)
  }

  /**
   * `createDetailsURL(with:)`: no API key gives the empty file URL; with a key, the path is
   * `/3/movie/` followed by the decimal id, and `api_key` is the only query item.
   */
  function CreateDetailsURL(id: Int64, apiKey: Option<string>): (u: Url)
    ensures apiKey.None? <==> u == EmptyFileUrl
    ensures apiKey.Some? ==>
      u == WebUrl(Components(Some(Scheme), Some(ApiHost), DetailsPathPrefix + Decimal(id),
                             Some(ApiKeyQuery(apiKey.value))))
  {
    match apiKey
    case None => EmptyFileUrl
    case Some(key) =>
      ComponentsUrl(Components(Some(Scheme), Some(ApiHost), DetailsPathPrefix + Decimal(id),
                               Some(ApiKeyQuery(key))))
        .GetOr(EmptyFileUrl)
  }

  /** The film id a details path names, if it is one. */
  function DetailsIdFromPath(path: string): Option<int> {
    if |path| >= |DetailsPathPrefix| && path[..|DetailsPathPrefix|] == DetailsPathPrefix
    then ParseDecimal(path[|DetailsPathPrefix|..])
    else None
  }

  /** A details URL names exactly its film, and the list endpoint is no film's details. */
  lemma DetailsPathNamesFilm(id: Int64, key: string)
    ensures DetailsIdFromPath(CreateDetailsURL(id, Some(key)).parts.path) == Some(id as int)
    ensures DetailsIdFromPath(PopularPath) == None
  {
    var path := DetailsPathPrefix + Decimal(id);
    assert path[..|DetailsPathPrefix|] == DetailsPathPrefix;
    assert path[|DetailsPathPrefix|..] == Decimal(id);
    DecimalRoundTrip(id);
    assert PopularPath[..|DetailsPathPrefix|] == DetailsPathPrefix;
    assert PopularPath[|DetailsPathPrefix|..] == "popular";
    assert !IsDigit("popular"[0]);
  }

  /**
   * `createImageURL(with:size:)`: `nil` without a name; otherwise an `https` URL on the image
   * host whose path is `/t/p/`, the size's raw value, `/` and the name, with no query.
   */
  function CreateImageURL(name: Option<string>, size: PosterSize): (r: Option<Url>)
    ensures name.None? <==> r.None?
    ensures name.Some? ==>
      r == Some(WebUrl(Components(Some(Scheme), Some(ImageHost),
                                  ImagePathPrefix + RawValue(size) + "/" + name.value, None)))
  {
    match name
    case None => None
    case Some(n) =>
      ComponentsUrl(Components(Some("https"), Some(ImageHost),
                               ImagePathPrefix + RawValue(size) + "/" + n, None))
  }

  /** Splitting an image path back into the size and the poster name. */
  function ImagePathParts(path: string): Option<(PosterSize, string)> {
    if |path| < |ImagePathPrefix| || path[..|ImagePathPrefix|] != ImagePathPrefix then None
    else
      var rest := path[|ImagePathPrefix|..];
      match FirstIndex(rest, (c: char) => c == '/')
      case None => None
      case Some(k) =>
        match PosterSizeFromRaw(rest[..k])
        case None => None
        case Some(size) => Some((size, rest[k + 1..]))
  }

  /** The image path determines both the size and the name, even when the name holds `/`. */
  lemma ImagePathRoundTrip(name: string, size: PosterSize)
    ensures ImagePathParts(CreateImageURL(Some(name), size).value.parts.path) == Some((size, name))
  {
    var raw := RawValue(size);
    var path := ImagePathPrefix + raw + "/" + name;
    assert path[..|ImagePathPrefix|] == ImagePathPrefix;
    var rest := path[|ImagePathPrefix|..];
    assert rest == raw + "/" + name;
    RawValueHasNoSlash(size);
    var found := FirstIndex(rest, (c: char) => c == '/');
    assert rest[|raw|] == '/';
    assert found.Some?;
    assert forall j :: 0 <= j < |raw| ==> rest[j] == raw[j];
    assert found.value == |raw|;
    assert rest[..|raw|] == raw;
    assert rest[|raw| + 1..] == name;
    RawValueRoundTrip(size);
  }

  // ---------------------------------------------------------------------------------
  // Data task completions

  /** `FilmsService.NetworkError`. `apiKey` and `invalidURL` are declared but never sent. */
  datatype NetworkError =
    | ApiKey
    | InvalidURL
    | InvalidResponse
    | ServerError
    | UrlSessionError(message: string)
    | DecodingError

  /** One `send` on a subject: a value, or a failure completion. */
  datatype Event<+T> = Value(value: T) | Failure(error: NetworkError)

  /**
   * What a data task hands its completion handler: a transport error, the HTTP status
   * (`None` when the response is not an `HTTPURLResponse`), whether data came, and what the
   * JSON decoder made of it (`None` when it threw).
   */
  datatype Response<+T> = Response(
    transportError: Option<string>,
    statusCode: Option<int>,
    hasData: bool,
    decoded: Option<T>)

  /** The status threshold: anything above 299 is a server error. */
  predicate IsServerErrorStatus(code: int) {
    code > 299
  }

  /** The two checks both handlers make first, each of which sends a failure and goes on. */
  function ResponseFailures<T>(r: Response<T>): (failures: seq<Event<T>>)
    ensures forall i :: 0 <= i < |failures| ==> failures[i].Failure?
    ensures |failures| == 0 <==>
      r.transportError.None? && !(r.statusCode.Some? && IsServerErrorStatus(r.statusCode.value))
    ensures r.transportError.Some? ==> failures[0] == Failure(UrlSessionError(r.transportError.value))
    ensures r.statusCode.Some? && IsServerErrorStatus(r.statusCode.value) ==>
      failures[|failures| - 1] == Failure(ServerError)
  {
    (match r.transportError case None => [] case Some(m) => [Failure(UrlSessionError(m))])
    + (if r.statusCode.Some? && IsServerErrorStatus(r.statusCode.value) then [Failure(ServerError)] else [])
  }

  /**
   * Everything the `fetchFilms` handler sends, in order. Missing data sends `invalidResponse`:
   * the `send` on the line after `return` is parsed as the returned expression.
   */
  function FilmsSends(r: Response<Option<seq<Film>>>): (sends: seq<Event<Option<seq<Film>>>>)
    ensures |sends| > 0
    ensures forall i :: 0 <= i < |sends| - 1 ==> sends[i].Failure?
    ensures sends[|sends| - 1].Value? <==> r.hasData && r.decoded.Some?
    ensures r.hasData && r.decoded.Some? ==> sends[|sends| - 1] == Value(r.decoded.value)
    ensures r.transportError.Some? ==> sends[0] == Failure(UrlSessionError(r.transportError.value))
  {
    ResponseFailures(r)
    + (if !r.hasData then [Failure(InvalidResponse)]
       else match r.decoded case Some(page) => [Value(page)] case None => [Failure(DecodingError)])
  }

  /** Everything the `fetchFilmDetails` handler sends: missing data just returns. */
  function DetailsSends<D>(r: Response<D>): (sends: seq<Event<D>>)
    ensures forall i :: 0 <= i < |sends| - 1 ==> sends[i].Failure?
    ensures |sends| == 0 <==>
      r.transportError.None? && !(r.statusCode.Some? && IsServerErrorStatus(r.statusCode.value)) && !r.hasData
    ensures r.hasData && r.decoded.Some? ==> sends[|sends| - 1] == Value(r.decoded.value)
    ensures !(r.hasData && r.decoded.Some?) ==> forall i :: 0 <= i < |sends| ==> sends[i].Failure?
    ensures r.transportError.Some? ==> sends[0] == Failure(UrlSessionError(r.transportError.value))
    ensures r.transportError.None? && r.statusCode.Some? && IsServerErrorStatus(r.statusCode.value) ==>
      sends[0] == Failure(ServerError)
    ensures r.transportError.None? && !(r.statusCode.Some? && IsServerErrorStatus(r.statusCode.value)) ==>
      |sends| <= 1
  {
    ResponseFailures(r)
    + (if !r.hasData then []
       else match r.decoded case Some(d) => [Value(d)] case None => [Failure(DecodingError)])
  }

  predicate HasFailure<T>(events: seq<Event<T>>) {
    exists i :: 0 <= i < |events| && events[i].Failure?
  }

  /**
   * What a `PassthroughSubject` delivers of a run of sends: nothing once it has completed,
   * otherwise the sends up to and including the first failure completion.
   */
  function Delivered<T>(completed: bool, sends: seq<Event<T>>): (r: seq<Event<T>>)
    ensures completed ==> r == []
    ensures |r| <= |sends| && r == sends[..|r|]
    ensures forall i :: 0 <= i < |r| - 1 ==> r[i].Value?
    ensures !completed && |r| < |sends| ==> |r| > 0 && r[|r| - 1].Failure?
    ensures !completed && !HasFailure(sends) ==> r == sends
    decreases |sends|
  {
    if completed || |sends| == 0 then []
    else if sends[0].Failure? then [sends[0]]
    else [sends[0]] + Delivered(false, sends[1..])
  }

  /** A status above 299 ends the page stream with `serverError`, even when the body decodes. */
  lemma ServerErrorHidesPage(r: Response<Option<seq<Film>>>)
    requires r.transportError.None? && r.statusCode.Some? && IsServerErrorStatus(r.statusCode.value)
    ensures Delivered(false, FilmsSends(r)) == [Failure(ServerError)]
  {
    assert FilmsSends(r)[0] == Failure(ServerError);
  }

  /** A clean response with a decodable body delivers exactly its page. */
  lemma CleanResponseDeliversPage(r: Response<Option<seq<Film>>>)
    requires r.transportError.None? && !(r.statusCode.Some? && IsServerErrorStatus(r.statusCode.value))
    requires r.hasData && r.decoded.Some?
    ensures Delivered(false, FilmsSends(r)) == [Value(r.decoded.value)]
  {
    assert FilmsSends(r) == [Value(r.decoded.value)];
  }

  /** A transport error is what subscribers see, whatever else the response holds. */
  lemma TransportErrorWins<T>(r: Response<T>)
    requires r.transportError.Some?
    ensures Delivered(false, DetailsSends(r)) == [Failure(UrlSessionError(r.transportError.value))]
  {
    assert DetailsSends(r)[0] == Failure(UrlSessionError(r.transportError.value));
  }

  /** A status above 299 ends the details stream with `serverError`, even when the body decodes. */
  lemma ServerErrorHidesDetails<D>(r: Response<D>)
    requires r.transportError.None? && r.statusCode.Some? && IsServerErrorStatus(r.statusCode.value)
    ensures Delivered(false, DetailsSends(r)) == [Failure(ServerError)]
  {
  }

  /** A details response without errors whose body decodes delivers exactly its value. */
  lemma CleanResponseDeliversDetails<D>(r: Response<D>)
    requires r.transportError.None? && !(r.statusCode.Some? && IsServerErrorStatus(r.statusCode.value))
    requires r.hasData && r.decoded.Some?
    ensures Delivered(false, DetailsSends(r)) == [Value(r.decoded.value)]
  {
  }

  class FilmsService {
    /** `filmsSubject` has completed with a failure. */
    var filmsCompleted: bool
    /** `filmDetailsSubject` has completed with a failure. */
    var detailsCompleted: bool

    constructor ()
      ensures !filmsCompleted && !detailsCompleted
    {
      filmsCompleted := false;
      detailsCompleted := false;
    }

    /**
     * `fetchFilms`: the request URL is built from the key, and the task's completion is turned
     * into sends; what reaches subscribers stops at the first failure, for this and every later
     * fetch.
     */
    method FetchFilms(apiKey: Option<string>, response: Response<Option<seq<Film>>>)
      returns (url: Url, delivered: seq<Event<Option<seq<Film>>>>)
      modifies this`filmsCompleted
      ensures url == CreateURL(apiKey)
      ensures delivered == Delivered(old(filmsCompleted), FilmsSends(response))
      ensures filmsCompleted == (old(filmsCompleted) || HasFailure(delivered))
    {
      url := CreateURL(apiKey);
      delivered := Delivered(filmsCompleted, FilmsSends(response));
      if HasFailure(delivered) {
        filmsCompleted := true;
      }
    }

    /** `fetchFilmDetails(with:)`, in the same way on `filmDetailsSubject`. */
    method FetchFilmDetails<D>(id: Int64, apiKey: Option<string>, response: Response<D>)
      returns (url: Url, delivered: seq<Event<D>>)
      modifies this`detailsCompleted
      ensures url == CreateDetailsURL(id, apiKey)
      ensures delivered == Delivered(old(detailsCompleted), DetailsSends(response))
      ensures detailsCompleted == (old(detailsCompleted) || HasFailure(delivered))
    {
      url := CreateDetailsURL(id, apiKey);
      delivered := Delivered(detailsCompleted, DetailsSends(response));
      if HasFailure(delivered) {
        detailsCompleted := true;
      }
    }
  }
}
