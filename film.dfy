/**
 * The `Film` value type of Film.swift: the catalog payload, its synthesized `Codable`
 * conformance over the coding keys, and `updateFavourite`.
 */
module Models {
  import opened Wrappers

  /** Swift's `Int` on the 64-bit platforms the app runs on. */
  type Int64 = x: int | -0x8000_0000_0000_0000 <= x < 0x8000_0000_0000_0000

  predicate FitsInt64(x: int) {
    -0x8000_0000_0000_0000 <= x < 0x8000_0000_0000_0000
  }

  /**
   * One film. Every payload field is an optional `let`; `isFavourite` is the one `var`,
   * defaulting to `false`. The two `Double?` fields, `popularity` and `voteAverage`, are
   * not carried.
   */
  datatype Film = Film(
    adult: Option<bool>,
    backdropPath: Option<string>,
    genresIDs: Option<seq<Int64>>,
    id: Option<Int64>,
    originalLanguage: Option<string>,
    originalTitle: Option<string>,
    overview: Option<string>,
    posterPath: Option<string>,
    releaseDate: Option<string>,
    title: Option<string>,
    voteCount: Option<Int64>,
    isFavourite: bool)

  /** `a` and `b` agree on every `let` field; only the favourite flag may differ. */
  predicate SameExceptFlag(a: Film, b: Film) {
    a.(isFavourite := b.isFavourite) == b
  }

  /**
   * The memberwise initializer without an `isFavourite:` argument, as `prepareFilms`
   * and the decoder use it: the flag takes its declared default.
   */
  function NewFilm(adult: Option<bool>, backdropPath: Option<string>, genresIDs: Option<seq<Int64>>,
                   id: Option<Int64>, originalLanguage: Option<string>, originalTitle: Option<string>,
                   overview: Option<string>, posterPath: Option<string>, releaseDate: Option<string>,
                   title: Option<string>, voteCount: Option<Int64>): (f: Film)
    ensures !f.isFavourite
  {
    Film(adult, backdropPath, genresIDs, id, originalLanguage, originalTitle, overview,
         posterPath, releaseDate, title, voteCount, false)
  }

  /** `mutating func updateFavourite(_:)`, on the value: only the flag is replaced. */
  function UpdateFavourite(f: Film, b: bool): (r: Film)
    ensures r.isFavourite == b
    ensures SameExceptFlag(r, f)
  {
    f.(isFavourite := b)
  }

  lemma UpdateFavouriteIdempotent(f: Film, b: bool)
    ensures UpdateFavourite(UpdateFavourite(f, b), b) == UpdateFavourite(f, b)
  {
  }

  lemma UpdateFavouriteLastWins(f: Film, a: bool, b: bool)
    ensures UpdateFavourite(UpdateFavourite(f, a), b) == UpdateFavourite(f, b)
  {
  }

  // ---------------------------------------------------------------------------------
  // Codable. JSON numbers other than integers are not modelled.

  datatype Json = JNull | JBool(b: bool) | JInt(n: int) | JString(s: string) | JArray(items: seq<Json>)

  datatype DecodeError =
    | TypeMismatch(key: string)        // the value under the key has the wrong JSON type
    | NumberOutOfRange(key: string)    // an integer that does not fit Swift's Int

  /** The coding keys, in declaration order; `isFavourite` has none. */
  const CodingKeys: seq<string> :=
    ["adult", "backdrop_path", "genres_ids", "id", "original_language", "original_title",
     "overview", "popularity", "poster_path", "release_date", "title", "vote_average", "vote_count"]

  lemma FlagHasNoCodingKey()
    ensures "isFavourite" !in CodingKeys && "is_favourite" !in CodingKeys
    ensures |CodingKeys| == 13
  {
  }

  /** `decodeIfPresent`: a missing key and an explicit `null` both give `nil`. */
  predicate Absent(obj: map<string, Json>, key: string) {
    key !in obj || obj[key].JNull?
  }

  function DecodeBool(obj: map<string, Json>, key: string): Result<Option<bool>, DecodeError> {
    if Absent(obj, key) then Ok(None)
    else if obj[key].JBool? then Ok(Some(obj[key].b))
    else Err(TypeMismatch(key))
  }

  function DecodeString(obj: map<string, Json>, key: string): Result<Option<string>, DecodeError> {
    if Absent(obj, key) then Ok(None)
    else if obj[key].JString? then Ok(Some(obj[key].s))
    else Err(TypeMismatch(key))
  }

  function DecodeIntValue(v: Json, key: string): Result<Int64, DecodeError> {
    if !v.JInt? then Err(TypeMismatch(key))
    else if !FitsInt64(v.n) then Err(NumberOutOfRange(key))
    else Ok(v.n)
  }

  function DecodeInt(obj: map<string, Json>, key: string): Result<Option<Int64>, DecodeError> {
    if Absent(obj, key) then Ok(None)
    else
      var n :- DecodeIntValue(obj[key], key);
      Ok(Some(n))
  }

  function DecodeIntItems(items: seq<Json>, key: string): Result<seq<Int64>, DecodeError>
    decreases |items|
  {
    if |items| == 0 then Ok([])
    else
      var head :- DecodeIntValue(items[0], key);
      var tail :- DecodeIntItems(items[1..], key);
      Ok([head] + tail)
  }

  function DecodeIntArray(obj: map<string, Json>, key: string): Result<Option<seq<Int64>>, DecodeError> {
    if Absent(obj, key) then Ok(None)
    else if !obj[key].JArray? then Err(TypeMismatch(key))
    else
      var xs :- DecodeIntItems(obj[key].items, key);
      Ok(Some(xs))
  }

  /** A `Double?` key: checked for a number and then dropped, since the model keeps no floats. */
  function CheckNumber(obj: map<string, Json>, key: string): Result<bool, DecodeError> {
    if Absent(obj, key) then Ok(false)
    else if obj[key].JInt? then Ok(true)
    else Err(TypeMismatch(key))
  }

  /**
   * The synthesized `init(from:)`: the keys are decoded in declaration order, the first
   * failing key raises, and `isFavourite` is never read, so it keeps its default.
   */
  function DecodeFilm(obj: map<string, Json>): (r: Result<Film, DecodeError>)
    ensures r.Ok? ==> !r.value.isFavourite
    ensures r.Ok? ==> (r.value.id.Some? <==> !Absent(obj, "id"))
    ensures r.Ok? && r.value.id.Some? ==> obj["id"] == JInt(r.value.id.value)
    ensures r.Ok? ==> (r.value.title.Some? <==> !Absent(obj, "title"))
    ensures r.Ok? && r.value.title.Some? ==> obj["title"] == JString(r.value.title.value)
  {
    var adult :- DecodeBool(obj, "adult");
    var backdropPath :- DecodeString(obj, "backdrop_path");
    var genresIDs :- DecodeIntArray(obj, "genres_ids");
    var id :- DecodeInt(obj, "id");
    var originalLanguage :- DecodeString(obj, "original_language");
    var originalTitle :- DecodeString(obj, "original_title");
    var overview :- DecodeString(obj, "overview");
    var hasPopularity :- CheckNumber(obj, "popularity");
    var posterPath :- DecodeString(obj, "poster_path");
    var releaseDate :- DecodeString(obj, "release_date");
    var title :- DecodeString(obj, "title");
    var hasVoteAverage :- CheckNumber(obj, "vote_average");
    var voteCount :- DecodeInt(obj, "vote_count");
    Ok(NewFilm(adult, backdropPath, genresIDs, id, originalLanguage, originalTitle, overview,
               posterPath, releaseDate, title, voteCount))
  }

  function EncodeIntItems(xs: seq<Int64>): (r: seq<Json>)
    ensures |r| == |xs|
    decreases |xs|
  {
    if |xs| == 0 then [] else [JInt(xs[0])] + EncodeIntItems(xs[1..])
  }

  function EncodeOptString(v: Option<string>): Option<Json> {
    match v
    case None => None
    case Some(s) => Some(JString(s))
  }

  function EncodeOptInt(v: Option<Int64>): Option<Json> {
    match v
    case None => None
    case Some(n) => Some(JInt(n))
  }

  /** The JSON value `encode(to:)` writes under `key`; `None` when the key is left out. */
  function EncodedField(f: Film, key: string): Option<Json> {
    if key == "adult" then (match f.adult case None => None case Some(b) => Some(JBool(b)))
    else if key == "backdrop_path" then EncodeOptString(f.backdropPath)
    else if key == "genres_ids" then
      (match f.genresIDs case None => None case Some(xs) => Some(JArray(EncodeIntItems(xs))))
    else if key == "id" then EncodeOptInt(f.id)
    else if key == "original_language" then EncodeOptString(f.originalLanguage)
    else if key == "original_title" then EncodeOptString(f.originalTitle)
    else if key == "overview" then EncodeOptString(f.overview)
    else if key == "poster_path" then EncodeOptString(f.posterPath)
    else if key == "release_date" then EncodeOptString(f.releaseDate)
    else if key == "title" then EncodeOptString(f.title)
    else if key == "vote_count" then EncodeOptInt(f.voteCount)
    else None
  }

  /**
   * The synthesized `encode(to:)` with `encodeIfPresent`: a `nil` field leaves its key out,
   * and only keys in `CodingKeys` are written, so the flag never is.
   */
  function EncodeFilm(f: Film): (obj: map<string, Json>)
    ensures obj.Keys <= set k | k in CodingKeys
  {
    map k | k in CodingKeys && EncodedField(f, k).Some? :: EncodedField(f, k).value
  }

  lemma {:induction false} IntItemsRoundTrip(xs: seq<Int64>, key: string)
    ensures DecodeIntItems(EncodeIntItems(xs), key) == Ok(xs)
    decreases |xs|
  {
    if |xs| > 0 {
      IntItemsRoundTrip(xs[1..], key);
      var items := EncodeIntItems(xs);
      assert items[0] == JInt(xs[0]);
      assert items[1..] == EncodeIntItems(xs[1..]);
      assert [xs[0]] + xs[1..] == xs;
    }
  }

  lemma EncodedAt(f: Film, key: string)
    requires key in CodingKeys
    ensures key in EncodeFilm(f) <==> EncodedField(f, key).Some?
    ensures key in EncodeFilm(f) ==> EncodeFilm(f)[key] == EncodedField(f, key).value
  {
  }

  lemma StringKeyRoundTrip(f: Film, key: string, v: Option<string>)
    requires key in CodingKeys && EncodedField(f, key) == EncodeOptString(v)
    ensures DecodeString(EncodeFilm(f), key) == Ok(v)
  {
    EncodedAt(f, key);
  }

  lemma IntKeyRoundTrip(f: Film, key: string, v: Option<Int64>)
    requires key in CodingKeys && EncodedField(f, key) == EncodeOptInt(v)
    ensures DecodeInt(EncodeFilm(f), key) == Ok(v)
  {
    EncodedAt(f, key);
  }

  lemma AdultRoundTrip(f: Film)
    ensures DecodeBool(EncodeFilm(f), "adult") == Ok(f.adult)
  {
    EncodedAt(f, "adult");
  }

  lemma GenresRoundTrip(f: Film)
    ensures DecodeIntArray(EncodeFilm(f), "genres_ids") == Ok(f.genresIDs)
  {
    EncodedAt(f, "genres_ids");
    if f.genresIDs.Some? {
      IntItemsRoundTrip(f.genresIDs.value, "genres_ids");
    }
  }

  lemma NumberKeyAbsent(f: Film, key: string)
    requires key in CodingKeys && EncodedField(f, key) == None
    ensures CheckNumber(EncodeFilm(f), key) == Ok(false)
  {
    EncodedAt(f, key);
  }

  /** Decoding succeeds with `f`'s fields when every key decodes to the matching field. */
  lemma DecodeFromFields(obj: map<string, Json>, f: Film)
    requires DecodeBool(obj, "adult") == Ok(f.adult)
    requires DecodeString(obj, "backdrop_path") == Ok(f.backdropPath)
    requires DecodeIntArray(obj, "genres_ids") == Ok(f.genresIDs)
    requires DecodeInt(obj, "id") == Ok(f.id)
    requires DecodeString(obj, "original_language") == Ok(f.originalLanguage)
    requires DecodeString(obj, "original_title") == Ok(f.originalTitle)
    requires DecodeString(obj, "overview") == Ok(f.overview)
    requires CheckNumber(obj, "popularity").Ok?
    requires DecodeString(obj, "poster_path") == Ok(f.posterPath)
    requires DecodeString(obj, "release_date") == Ok(f.releaseDate)
    requires DecodeString(obj, "title") == Ok(f.title)
    requires CheckNumber(obj, "vote_average").Ok?
    requires DecodeInt(obj, "vote_count") == Ok(f.voteCount)
    ensures DecodeFilm(obj) == Ok(f.(isFavourite := false))
  {
  }

  lemma EncodedStringsDecode(f: Film)
    ensures DecodeString(EncodeFilm(f), "backdrop_path") == Ok(f.backdropPath)
    ensures DecodeString(EncodeFilm(f), "original_language") == Ok(f.originalLanguage)
    ensures DecodeString(EncodeFilm(f), "original_title") == Ok(f.originalTitle)
    ensures DecodeString(EncodeFilm(f), "overview") == Ok(f.overview)
    ensures DecodeString(EncodeFilm(f), "poster_path") == Ok(f.posterPath)
    ensures DecodeString(EncodeFilm(f), "release_date") == Ok(f.releaseDate)
    ensures DecodeString(EncodeFilm(f), "title") == Ok(f.title)
  {
    StringKeyRoundTrip(f, "backdrop_path", f.backdropPath);
    StringKeyRoundTrip(f, "original_language", f.originalLanguage);
    StringKeyRoundTrip(f, "original_title", f.originalTitle);
    StringKeyRoundTrip(f, "overview", f.overview);
    StringKeyRoundTrip(f, "poster_path", f.posterPath);
    StringKeyRoundTrip(f, "release_date", f.releaseDate);
    StringKeyRoundTrip(f, "title", f.title);
  }

  lemma EncodedNonStringsDecode(f: Film)
    ensures DecodeBool(EncodeFilm(f), "adult") == Ok(f.adult)
    ensures DecodeIntArray(EncodeFilm(f), "genres_ids") == Ok(f.genresIDs)
    ensures DecodeInt(EncodeFilm(f), "id") == Ok(f.id)
    ensures CheckNumber(EncodeFilm(f), "popularity") == Ok(false)
    ensures CheckNumber(EncodeFilm(f), "vote_average") == Ok(false)
    ensures DecodeInt(EncodeFilm(f), "vote_count") == Ok(f.voteCount)
  {
    AdultRoundTrip(f);
    GenresRoundTrip(f);
    IntKeyRoundTrip(f, "id", f.id);
    NumberKeyAbsent(f, "popularity");
    NumberKeyAbsent(f, "vote_average");
    IntKeyRoundTrip(f, "vote_count", f.voteCount);
  }

  /**
   * Encoding a film and decoding the result gives the film back, except the favourite
   * flag, which comes back `false` whatever it was.
   */
  lemma EncodeDecodeRoundTrip(f: Film)
    ensures DecodeFilm(EncodeFilm(f)) == Ok(f.(isFavourite := false))
  {
    EncodedStringsDecode(f);
    EncodedNonStringsDecode(f);
    DecodeFromFields(EncodeFilm(f), f);
  }
}
