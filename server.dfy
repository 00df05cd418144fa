/**
 * The two proxy routes of the server: `/api/movie` reshapes TMDB
 * `search/movie` records, `/api/anime` reshapes Jikan v4 `anime` records,
 * each into a flat display record; both reject a request without a query,
 * and the movie route also rejects when no TMDB key is configured.
 *
 * Records are modelled as the JSON the handler sends with `res.json`, so a
 * field whose value would be `undefined` is simply None, and a `NaN` year
 * is `null`, as `JSON.stringify` writes it.
 */
module Server {
  import opened Js

  /**
   * The two number and date services the normalisers call and that are not
   * modelled: `Number(x).toFixed(1)` and `new Date(s).getFullYear()` (None
   * when the date does not parse and the year is NaN).
   */
  datatype Platform = Platform(toFixed1: real -> string, fullYear: string -> Option<int>)

  /** `toFixed` writes digits, a sign, a point or an exponent: never the text "N/A". */
  ghost predicate ValidPlatform(p: Platform) {
    forall x :: p.toFixed1(x) != NotAvailable
  }

  const NotAvailable: string := "N/A"
  const Untitled: string := "Untitled"
  const PosterBase: string := "https://image.tmdb.org/t/p/w500"

  const QueryRequired: string := "Query parameter q is required"
  const KeyMissing: string := "TMDB API key not configured on server"
  const MovieFetchFailed: string := "Failed to fetch movies from TMDB"
  const AnimeFetchFailed: string := "Failed to fetch anime from Jikan"

  /** `xs || []` for an optional list (an empty list is truthy and kept). */
  function Records<T>(o: Option<seq<T>>): (xs: seq<T>)
    ensures o.Some? ==> xs == o.value
    ensures o.None? ==> xs == []
  {
    if o.Some? then o.value else []
  }

  // ---------------------------------------------------------------------
  // TMDB movies

  /** One record of the `results` array of TMDB's `search/movie`. */
  datatype RawMovie = RawMovie(
    id: Option<int>,
    title: Option<string>,
    originalTitle: Option<string>,
    releaseDate: Option<string>,
    voteAverage: Option<real>,
    voteCount: Option<int>,
    popularity: Option<real>,
    originalLanguage: Option<string>,
    adult: Option<bool>,
    overview: Option<string>,
    posterPath: Option<string>)

  /** The display record the movie route sends for one TMDB record. */
  datatype MovieItem = MovieItem(
    id: Option<int>,
    title: string,
    originalTitle: Option<string>,
    releaseDate: Option<string>,
    year: string,
    rating: string,
    voteCount: int,
    popularity: real,
    language: Option<string>,
    adult: bool,
    overview: string,
    poster: Option<string>)

  /**
   * The movie year as written: the ternary's middle branch repeats the
   * test of the outer one and is never taken.
   */
  function MovieYear(releaseDate: Option<string>): (y: string)
    ensures TruthyStr(releaseDate) ==> y == Prefix(releaseDate.value, 4) && y != ""
    ensures !TruthyStr(releaseDate) ==> y == NotAvailable
  {
    if TruthyStr(releaseDate) then Prefix(releaseDate.value, 4)
    else if TruthyStr(releaseDate) then StrOr(releaseDate, "")
    else NotAvailable
  }

  /** A rating: `x ? Number(x).toFixed(1) : 'N/A'`. */
  function Rating(p: Platform, x: Option<real>): (s: string)
    ensures TruthyReal(x) ==> s == p.toFixed1(x.value)
    ensures !TruthyReal(x) ==> s == NotAvailable
  {
    if TruthyReal(x) then p.toFixed1(x.value) else NotAvailable
  }

  /** The movie route's mapping closure applied to one record. */
  function NormalizeMovie(p: Platform, r: RawMovie): (m: MovieItem)
    ensures m.id == r.id
    ensures m.title != ""
    ensures TruthyStr(r.title) ==> m.title == r.title.value
    ensures !TruthyStr(r.title) && TruthyStr(r.originalTitle) ==> m.title == r.originalTitle.value
    ensures !TruthyStr(r.title) && !TruthyStr(r.originalTitle) ==> m.title == Untitled
    ensures KeptIfTruthy(m.originalTitle, r.originalTitle) && KeptIfTruthy(m.releaseDate, r.releaseDate)
    ensures !TruthyStr(r.releaseDate) ==> m.year == NotAvailable
    ensures TruthyStr(r.releaseDate) ==> m.year != "" && m.year <= r.releaseDate.value
                                         && |m.year| == if |r.releaseDate.value| < 4 then |r.releaseDate.value| else 4
    ensures TruthyReal(r.voteAverage) ==> m.rating == p.toFixed1(r.voteAverage.value)
    ensures !TruthyReal(r.voteAverage) ==> m.rating == NotAvailable
    ensures m.voteCount == (if TruthyInt(r.voteCount) then r.voteCount.value else 0)
    ensures m.popularity == (if TruthyReal(r.popularity) then r.popularity.value else 0.0)
    ensures KeptIfTruthy(m.language, r.originalLanguage)
    ensures m.adult <==> r.adult == Some(true)
    ensures TruthyStr(r.overview) ==> m.overview == r.overview.value
    ensures !TruthyStr(r.overview) ==> m.overview == ""
    ensures m.poster.Some? <==> TruthyStr(r.posterPath)
    ensures m.poster.Some? ==> m.poster.value == PosterBase + r.posterPath.value
  {
    MovieItem(
      id := r.id,
      title := StrOr(r.title, StrOr(r.originalTitle, Untitled)),
      originalTitle := StrOrNull(r.originalTitle),
      releaseDate := StrOrNull(r.releaseDate),
      year := MovieYear(r.releaseDate),
      rating := Rating(p, r.voteAverage),
      voteCount := if TruthyInt(r.voteCount) then r.voteCount.value else 0,
      popularity := if TruthyReal(r.popularity) then r.popularity.value else 0.0,
      language := StrOrNull(r.originalLanguage),
      adult := r.adult == Some(true),
      overview := StrOr(r.overview, ""),
      poster := if TruthyStr(r.posterPath) then Some(PosterBase + r.posterPath.value) else None)
  }

  /** `(response.data.results || []).map(...)`: one item per record, in upstream order. */
  function NormalizeMovies(p: Platform, results: Option<seq<RawMovie>>): (ms: seq<MovieItem>)
    ensures |ms| == |Records(results)|
    ensures forall i :: 0 <= i < |ms| ==> ms[i] == NormalizeMovie(p, Records(results)[i])
    ensures results.None? ==> ms == []
  {
    MapElements((r: RawMovie) => NormalizeMovie(p, r), Records(results));
    Map((r: RawMovie) => NormalizeMovie(p, r), Records(results))
  }

  // ---------------------------------------------------------------------
  // Jikan anime

  datatype Aired = Aired(from: Option<string>)
  datatype ImageSet = ImageSet(imageUrl: Option<string>)
  datatype Images = Images(jpg: Option<ImageSet>)
  /** A genre or producer entry; only its `name` is read. */
  datatype Named = Named(name: Option<string>)

  /** One record of the `data` array of Jikan's `/v4/anime`. */
  datatype RawAnime = RawAnime(
    malId: Option<int>,
    title: Option<string>,
    titleEnglish: Option<string>,
    episodes: Option<int>,
    kind: Option<string>,
    status: Option<string>,
    aired: Option<Aired>,
    year: Option<int>,
    score: Option<real>,
    rating: Option<string>,
    rank: Option<int>,
    synopsis: Option<string>,
    images: Option<Images>,
    genres: Option<seq<Named>>,
    producers: Option<seq<Named>>)

  /** The JSON value of a `year` field: a number, a string, or null. */
  datatype YearValue = YearNull | YearNumber(n: int) | YearText(s: string)

  /** The display record the anime route sends for one Jikan record. */
  datatype AnimeItem = AnimeItem(
    id: Option<int>,
    title: string,
    englishTitle: Option<string>,
    episodes: Option<int>,
    kind: Option<string>,
    status: Option<string>,
    airedFrom: Option<string>,
    year: YearValue,
    rating: string,
    contentRating: Option<string>,
    rank: Option<int>,
    overview: string,
    poster: Option<string>,
    genres: seq<Option<string>>,
    producers: seq<Option<string>>)

  /** `a.aired && a.aired.from ? a.aired.from : null`. */
  function AiredFrom(aired: Option<Aired>): (f: Option<string>)
    ensures f.Some? <==> aired.Some? && TruthyStr(aired.value.from)
    ensures f.Some? ==> f == aired.value.from
  {
    if aired.Some? && TruthyStr(aired.value.from) then aired.value.from else None
  }

  /**
   * The anime year: the calendar year of `aired.from` when that is set
   * (null when the date does not parse), otherwise `a.year || 'N/A'`.
   */
  function AnimeYear(p: Platform, a: RawAnime): (y: YearValue)
    ensures AiredFrom(a.aired).Some? ==>
      y == (match p.fullYear(AiredFrom(a.aired).value)
            case Some(n) => YearNumber(n)
            case None => YearNull)
    ensures AiredFrom(a.aired).None? && TruthyInt(a.year) ==> y == YearNumber(a.year.value)
    ensures AiredFrom(a.aired).None? && !TruthyInt(a.year) ==> y == YearText(NotAvailable)
    ensures y.YearText? ==> y.s == NotAvailable
  {
    var from := AiredFrom(a.aired);
    if from.Some? then
      match p.fullYear(from.value)
      case Some(n) => YearNumber(n)
      case None => YearNull
    else if TruthyInt(a.year) then YearNumber(a.year.value)
    else YearText(NotAvailable)
  }

  /** `a.images && a.images.jpg ? a.images.jpg.image_url : null`. */
  function AnimePoster(images: Option<Images>): (u: Option<string>)
    ensures images.Some? && images.value.jpg.Some? ==> u == images.value.jpg.value.imageUrl
    ensures images.None? || images.value.jpg.None? ==> u == None
  {
    if images.Some? && images.value.jpg.Some? then images.value.jpg.value.imageUrl else None
  }

  function NameOf(n: Named): Option<string> {
    n.name
  }

  /** `(xs || []).map(g => g.name)`: the names, in upstream order. */
  function Names(xs: Option<seq<Named>>): (ns: seq<Option<string>>)
    ensures |ns| == |Records(xs)|
    ensures forall i :: 0 <= i < |ns| ==> ns[i] == Records(xs)[i].name
  {
    MapElements(NameOf, Records(xs));
    Map(NameOf, Records(xs))
  }

  /** The anime route's mapping closure applied to one record. */
  function NormalizeAnime(p: Platform, a: RawAnime): (m: AnimeItem)
    ensures m.title != ""
    ensures TruthyStr(a.title) ==> m.title == a.title.value
    ensures !TruthyStr(a.title) ==> m.title == Untitled
    ensures KeptIfTruthyInt(m.id, a.malId) && KeptIfTruthyInt(m.episodes, a.episodes) && KeptIfTruthyInt(m.rank, a.rank)
    ensures KeptIfTruthy(m.englishTitle, a.titleEnglish) && KeptIfTruthy(m.contentRating, a.rating)
    ensures KeptIfTruthy(m.kind, a.kind) && KeptIfTruthy(m.status, a.status)
    ensures m.airedFrom.Some? <==> a.aired.Some? && TruthyStr(a.aired.value.from)
    ensures m.airedFrom.Some? ==> m.airedFrom == a.aired.value.from
    ensures m.airedFrom.Some? ==>
      m.year == (match p.fullYear(m.airedFrom.value) case Some(n) => YearNumber(n) case None => YearNull)
    ensures m.airedFrom.None? && TruthyInt(a.year) ==> m.year == YearNumber(a.year.value)
    ensures m.airedFrom.None? && !TruthyInt(a.year) ==> m.year == YearText(NotAvailable)
    ensures TruthyReal(a.score) ==> m.rating == p.toFixed1(a.score.value)
    ensures !TruthyReal(a.score) ==> m.rating == NotAvailable
    ensures TruthyStr(a.synopsis) ==> m.overview == a.synopsis.value
    ensures !TruthyStr(a.synopsis) ==> m.overview == ""
    ensures a.images.Some? && a.images.value.jpg.Some? ==> m.poster == a.images.value.jpg.value.imageUrl
    ensures a.images.None? || a.images.value.jpg.None? ==> m.poster.None?
    ensures m.genres == Names(a.genres) && m.producers == Names(a.producers)
  {
    AnimeItem(
      id := IntOrNull(a.malId),
      title := StrOr(a.title, Untitled),
      englishTitle := StrOrNull(a.titleEnglish),
      episodes := IntOrNull(a.episodes),
      kind := StrOrNull(a.kind),
      status := StrOrNull(a.status),
      airedFrom := AiredFrom(a.aired),
      year := AnimeYear(p, a),
      rating := Rating(p, a.score),
      contentRating := StrOrNull(a.rating),
      rank := IntOrNull(a.rank),
      overview := StrOr(a.synopsis, ""),
      poster := AnimePoster(a.images),
      genres := Names(a.genres),
      producers := Names(a.producers))
  }

  /** `(response.data.data || []).map(...)`: one item per record, in upstream order. */
  function NormalizeAnimeList(p: Platform, data: Option<seq<RawAnime>>): (ms: seq<AnimeItem>)
    ensures |ms| == |Records(data)|
    ensures forall i :: 0 <= i < |ms| ==> ms[i] == NormalizeAnime(p, Records(data)[i])
    ensures data.None? ==> ms == []
  {
    MapElements((a: RawAnime) => NormalizeAnime(p, a), Records(data));
    Map((a: RawAnime) => NormalizeAnime(p, a), Records(data))
  }

  // ---------------------------------------------------------------------
  // Properties of the normalisers

  /** A rating is "N/A" exactly when the upstream number is missing or zero. */
  lemma RatingNotAvailable(p: Platform, x: Option<real>)
    requires ValidPlatform(p)
    ensures Rating(p, x) == NotAvailable <==> !TruthyReal(x)
  {
  }

  /**
   * Records are normalised independently: the items for two batches of
   * records are the items for each batch, one after the other.
   */
  lemma {:induction false} NormalizeMoviesAppend(p: Platform, xs: seq<RawMovie>, ys: seq<RawMovie>)
    ensures NormalizeMovies(p, Some(xs + ys)) == NormalizeMovies(p, Some(xs)) + NormalizeMovies(p, Some(ys))
  {
    MapAppend((r: RawMovie) => NormalizeMovie(p, r), xs, ys);
  }

  /** The same for anime records. */
  lemma {:induction false} NormalizeAnimeAppend(p: Platform, xs: seq<RawAnime>, ys: seq<RawAnime>)
    ensures NormalizeAnimeList(p, Some(xs + ys)) == NormalizeAnimeList(p, Some(xs)) + NormalizeAnimeList(p, Some(ys))
  {
    MapAppend((a: RawAnime) => NormalizeAnime(p, a), xs, ys);
  }

  // ---------------------------------------------------------------------
  // The two routes

  /** What the provider call produced: a reply with its `data` (None when it is null), or a rejection. */
  datatype Upstream<T> = Replied(data: Option<T>) | Rejected

  datatype MoviePage = MoviePage(results: Option<seq<RawMovie>>)
  datatype AnimePage = AnimePage(data: Option<seq<RawAnime>>)

  datatype Body = ErrorBody(error: string) | MovieResults(movies: seq<MovieItem>) | AnimeResults(anime: seq<AnimeItem>)
  datatype Response = Response(status: int, body: Body)

  /**
   * `GET /api/movie?q=...`. `key` is the configured TMDB key; `tmdb` is the
   * provider call for a query and a key. A reply whose `data` is null makes
   * reading `.results` throw, which the handler reports like a failed call.
   */
  function MovieRoute(q: Option<string>, key: Option<string>,
                      tmdb: (string, string) -> Upstream<MoviePage>, p: Platform): (resp: Response)
    ensures !TruthyStr(q) ==> resp == Response(400, ErrorBody(QueryRequired))
    ensures TruthyStr(q) && !TruthyStr(key) ==> resp == Response(500, ErrorBody(KeyMissing))
    ensures resp.status == 200 <==>
      TruthyStr(q) && TruthyStr(key) && tmdb(q.value, key.value).Replied? && tmdb(q.value, key.value).data.Some?
    ensures resp.status == 200 ==>
      resp.body == MovieResults(NormalizeMovies(p, tmdb(q.value, key.value).data.value.results))
    ensures resp.status != 200 ==> resp.body.ErrorBody?
    ensures TruthyStr(q) && TruthyStr(key) && resp.status != 200 ==> resp == Response(500, ErrorBody(MovieFetchFailed))
  {
    if !TruthyStr(q) then Response(400, ErrorBody(QueryRequired))
    else if !TruthyStr(key) then Response(500, ErrorBody(KeyMissing))
    else match tmdb(q.value, key.value)
      case Replied(Some(page)) => Response(200, MovieResults(NormalizeMovies(p, page.results)))
      case _ => Response(500, ErrorBody(MovieFetchFailed))
  }

  /** `GET /api/anime?q=...`; `jikan` is the provider call for a query. No key is involved. */
  function AnimeRoute(q: Option<string>, jikan: string -> Upstream<AnimePage>, p: Platform): (resp: Response)
    ensures !TruthyStr(q) ==> resp == Response(400, ErrorBody(QueryRequired))
    ensures resp.status == 200 <==> TruthyStr(q) && jikan(q.value).Replied? && jikan(q.value).data.Some?
    ensures resp.status == 200 ==>
      resp.body == AnimeResults(NormalizeAnimeList(p, jikan(q.value).data.value.data))
    ensures resp.status != 200 ==> resp.body.ErrorBody? && resp.body.error != KeyMissing
    ensures TruthyStr(q) && resp.status != 200 ==> resp == Response(500, ErrorBody(AnimeFetchFailed))
  {
    if !TruthyStr(q) then Response(400, ErrorBody(QueryRequired))
    else match jikan(q.value)
      case Replied(Some(page)) => Response(200, AnimeResults(NormalizeAnimeList(p, page.data)))
      case _ => Response(500, ErrorBody(AnimeFetchFailed))
  }

  /** A rejected request is decided before the provider is called: its response does not depend on the provider. */
  lemma MovieGuardsPrecedeUpstream(q: Option<string>, key: Option<string>,
                                   t1: (string, string) -> Upstream<MoviePage>,
                                   t2: (string, string) -> Upstream<MoviePage>, p: Platform)
    requires !TruthyStr(q) || !TruthyStr(key)
    ensures MovieRoute(q, key, t1, p) == MovieRoute(q, key, t2, p)
    ensures MovieRoute(q, key, t1, p).status in {400, 500}
  {
  }

  /** The same for the anime route, whose only guard is the query. */
  lemma AnimeGuardPrecedesUpstream(q: Option<string>, j1: string -> Upstream<AnimePage>,
                                   j2: string -> Upstream<AnimePage>, p: Platform)
    requires !TruthyStr(q)
    ensures AnimeRoute(q, j1, p) == AnimeRoute(q, j2, p) == Response(400, ErrorBody(QueryRequired))
  {
  }
}
