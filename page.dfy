/**
 * The search page around the cards: the submit handler, which sends
 * nothing for a blank query, and `fetchResults`, which shows "Loading...",
 * clears the cards, and when the reply is in shows a status line and one
 * card per result.
 *
 * The network is a parameter: `Reply` is what `fetch` and `res.json()`
 * produced for the request the page sent.
 */
module Page {
  import opened Js
  import opened Server
  import opened Presenter

  const Loading: string := "Loading..."
  const NoResults: string := "No results found. Try a different title."
  const FetchError: string := "Something went wrong" + " while fetching results." + " Please try again."
  const ResultsSuffix: string := " result(s)"

  /** The search type the page's switch selects. */
  datatype Provider = MovieProvider | AnimeProvider

  /** The route a search goes to: `/api/${type}`. */
  function Endpoint(provider: Provider): string {
    match provider
    case MovieProvider => "/api/movie"
    case AnimeProvider => "/api/anime"
  }

  /** A search the page sends: the trimmed query and the selected route. */
  datatype Request = Request(query: string, provider: Provider)

  /**
   * The JSON `res.json()` reads: not JSON at all (the promise rejects),
   * `null` (reading `.results` throws), or any other value with its
   * `results` field, absent for values that have none.
   */
  datatype ReplyBody = NotJson | JsonNull | JsonValue(results: Option<seq<CardItem>>)

  /** What `fetch` produced: a network failure, or a reply with its `ok` flag and body. */
  datatype Reply = NetworkError | HttpReply(ok: bool, body: ReplyBody)

  /** What the page shows once a reply is in: the status line, its error colour, and the records to render. */
  datatype Settled = Settled(status: string, isError: bool, items: seq<CardItem>)

  /** The reply was usable: it arrived, its status was ok, and its body was a non-null JSON value. */
  predicate Usable(reply: Reply) {
    reply.HttpReply? && reply.ok && reply.body.JsonValue?
  }

  /** The status decisions of `fetchResults` once the reply is in. */
  function Settle(reply: Reply): (d: Settled)
    ensures d.isError <==> !Usable(reply)
    ensures d.isError ==> d.status == FetchError && d.items == []
    ensures !d.isError ==> d.items == Records(reply.body.results)
    ensures !d.isError && d.items == [] ==> d.status == NoResults
    ensures !d.isError && d.items != [] ==> d.status == IntToString(|d.items|) + ResultsSuffix
  {
    if !Usable(reply) then Settled(FetchError, true, [])
    else
      var results := Records(reply.body.results);
      if results == [] then Settled(NoResults, false, [])
      else Settled(IntToString(|results|) + ResultsSuffix, false, results)
  }

  /** The three outcomes show three different status lines. */
  lemma StatusLinesDistinct(n: nat)
    requires n > 0
    ensures IntToString(n) + ResultsSuffix != NoResults
    ensures IntToString(n) + ResultsSuffix != FetchError
    ensures NoResults != FetchError
  {
    var s := IntToString(n) + ResultsSuffix;
    assert IsDigit(s[0]);
    assert NoResults[0] == 'N';
    assert FetchError[0] == 'S';
  }

  /** The submit handler's decision: nothing for a blank query, otherwise the trimmed query and the selected route. */
  function Dispatch(inputValue: string, animeChecked: bool): (r: Option<Request>)
    ensures r.None? <==> AllWhitespace(inputValue)
    ensures r.Some? ==> r.value.query == Trim(inputValue) && r.value.query != ""
    ensures r.Some? ==> (r.value.provider == AnimeProvider <==> animeChecked)
  {
    var q := Trim(inputValue);
    if q == "" then None
    else Some(Request(q, if animeChecked then AnimeProvider else MovieProvider))
  }

  /** The status line and the results container of the page. */
  class Page {
    var status: string
    var statusIsError: bool
    var cards: seq<Card>

    constructor ()
      ensures status == "" && !statusIsError && cards == []
    {
      status := "";
      statusIsError := false;
      cards := [];
    }

    /** `setStatus`: the text and whether it is shown in the error colour. */
    method SetStatus(text: string, isError: bool)
      modifies this
      ensures status == text && statusIsError == isError && cards == old(cards)
    {
      status := text;
      statusIsError := isError;
    }

    /** `clearResults`: remove every card. */
    method ClearResults()
      modifies this
      ensures cards == [] && status == old(status) && statusIsError == old(statusIsError)
    {
      cards := [];
    }

    /** The part of `fetchResults` before the request is awaited. */
    method BeginFetch()
      modifies this
      ensures status == Loading && !statusIsError && cards == []
    {
      SetStatus(Loading, false);
      ClearResults();
    }

    /**
     * The part of `fetchResults` after the reply is in: the status line, and
     * one card per result appended in order after whatever cards are there.
     */
    method CompleteFetch(reply: Reply)
      modifies this
      ensures status == Settle(reply).status && statusIsError == Settle(reply).isError
      ensures cards == old(cards) + Map(InitialCard, Settle(reply).items)
    {
      if !(reply.HttpReply? && reply.ok) || !reply.body.JsonValue? {
        SetStatus(FetchError, true);
        return;
      }
      var results := if reply.body.results.Some? then reply.body.results.value else [];
      if |results| == 0 {
        SetStatus(NoResults, false);
        return;
      }
      SetStatus(IntToString(|results|) + ResultsSuffix, false);
      AppendCards(results);
    }

    /** `results.forEach(item => resultsEl.appendChild(renderCard(item)))`. */
    method AppendCards(results: seq<CardItem>)
      modifies this
      ensures status == old(status) && statusIsError == old(statusIsError)
      ensures cards == old(cards) + Map(InitialCard, results)
    {
      var i := 0;
      while i < |results|
        invariant 0 <= i <= |results|
        invariant status == old(status) && statusIsError == old(statusIsError)
        invariant cards == old(cards) + Map(InitialCard, results[..i])
      {
        var card := RenderCard(results[i]);
        MapStep(old(cards), InitialCard, results, i, card);
        cards := cards + [card];
        i := i + 1;
      }
      assert results[..i] == results;
    }

    /** The submit handler: trim the query and, when it is not blank, start the search. */
    method Submit(inputValue: string, animeChecked: bool) returns (request: Option<Request>)
      modifies this
      ensures request == Dispatch(inputValue, animeChecked)
      ensures request.None? ==> status == old(status) && statusIsError == old(statusIsError) && cards == old(cards)
      ensures request.Some? ==> status == Loading && !statusIsError && cards == []
    {
      var q := Trim(inputValue);
      if q == "" {
        return None;
      }
      request := Some(Request(q, if animeChecked then AnimeProvider else MovieProvider));
      BeginFetch();
    }
  }

  /** One step of `forEach`: appending the card for element i extends the mapped prefix by one. */
  lemma MapStep<A, B>(before: seq<B>, f: A -> B, xs: seq<A>, i: nat, y: B)
    requires i < |xs| && y == f(xs[i])
    ensures before + Map(f, xs[..i]) + [y] == before + Map(f, xs[..i + 1])
  {
    MapSnoc(f, xs, i);
  }

  /** A whole search: submit, then the reply; a blank query sends nothing and changes nothing. */
  method Search(page: Page, inputValue: string, animeChecked: bool, reply: Request -> Reply)
      returns (request: Option<Request>)
    modifies page
    ensures request == Dispatch(inputValue, animeChecked)
    ensures request.None? ==>
      page.status == old(page.status) && page.statusIsError == old(page.statusIsError) && page.cards == old(page.cards)
    ensures request.Some? ==>
      && page.status == Settle(reply(request.value)).status
      && page.statusIsError == Settle(reply(request.value)).isError
      && page.cards == Map(InitialCard, Settle(reply(request.value)).items)
  {
    request := page.Submit(inputValue, animeChecked);
    if request.Some? {
      page.CompleteFetch(reply(request.value));
    }
  }

  // ---------------------------------------------------------------------
  // The page reading the server's replies

  /**
   * How the page receives a server response: `ok` exactly for a 2xx status,
   * and a JSON body whose `results` is absent for an error body and lists the
   * records otherwise.
   */
  function ReplyFor(resp: Response): (r: Reply)
    ensures r.HttpReply? && r.body.JsonValue?
    ensures r.ok <==> 200 <= resp.status < 300
    ensures resp.body.ErrorBody? ==> r.body.results.None?
    ensures resp.body.MovieResults? ==> r.body.results == Some(Map(FromMovie, resp.body.movies))
    ensures resp.body.AnimeResults? ==> r.body.results == Some(Map(FromAnime, resp.body.anime))
  {
    HttpReply(200 <= resp.status < 300,
      match resp.body
      case ErrorBody(_) => JsonValue(None)
      case MovieResults(ms) => JsonValue(Some(Map(FromMovie, ms)))
      case AnimeResults(as_) => JsonValue(Some(Map(FromAnime, as_))))
  }

  /**
   * A usable reply listing the records `ms` shows one card per record, in
   * order, and "No results found" or the count in the status line.
   */
  lemma ResultsShown<T>(reply: Reply, ms: seq<T>, toItem: T -> CardItem)
    requires reply == HttpReply(true, JsonValue(Some(Map(toItem, ms))))
    ensures var d := Settle(reply);
      && !d.isError
      && |d.items| == |ms|
      && (forall i :: 0 <= i < |ms| ==> d.items[i] == toItem(ms[i]))
      && (ms == [] ==> d.status == NoResults)
      && (ms != [] ==> d.status == IntToString(|ms|) + ResultsSuffix)
  {
    MapElements(toItem, ms);
  }

  /** A reply whose status is not 2xx shows the error line and no cards. */
  lemma ErrorShown(resp: Response)
    requires !(200 <= resp.status < 300)
    ensures Settle(ReplyFor(resp)) == Settled(FetchError, true, [])
  {
  }

  /**
   * A movie search as the page shows it: a rejected or failed request shows
   * the error line and no cards; otherwise one card per TMDB record, in order,
   * and the count or "No results found" in the status line.
   */
  lemma MovieSearchShown(q: Option<string>, key: Option<string>,
                         tmdb: (string, string) -> Upstream<MoviePage>, p: Platform)
    ensures var resp := MovieRoute(q, key, tmdb, p); var d := Settle(ReplyFor(resp));
      && (resp.status != 200 ==> d == Settled(FetchError, true, []))
      && (resp.status == 200 ==>
            var records := Records(tmdb(q.value, key.value).data.value.results);
            && !d.isError
            && |d.items| == |records|
            && (forall i :: 0 <= i < |records| ==> d.items[i] == FromMovie(NormalizeMovie(p, records[i])))
            && (records == [] ==> d.status == NoResults)
            && (records != [] ==> d.status == IntToString(|records|) + ResultsSuffix))
  {
    var resp := MovieRoute(q, key, tmdb, p);
    if resp.status == 200 {
      var ms := NormalizeMovies(p, tmdb(q.value, key.value).data.value.results);
      ResultsShown(ReplyFor(resp), ms, FromMovie);
    } else {
      ErrorShown(resp);
    }
  }

  /** The same for an anime search. */
  lemma AnimeSearchShown(q: Option<string>, jikan: string -> Upstream<AnimePage>, p: Platform)
    ensures var resp := AnimeRoute(q, jikan, p); var d := Settle(ReplyFor(resp));
      && (resp.status != 200 ==> d == Settled(FetchError, true, []))
      && (resp.status == 200 ==>
            var records := Records(jikan(q.value).data.value.data);
            && !d.isError
            && |d.items| == |records|
            && (forall i :: 0 <= i < |records| ==> d.items[i] == FromAnime(NormalizeAnime(p, records[i])))
            && (records == [] ==> d.status == NoResults)
            && (records != [] ==> d.status == IntToString(|records|) + ResultsSuffix))
  {
    var resp := AnimeRoute(q, jikan, p);
    if resp.status == 200 {
      var ms := NormalizeAnimeList(p, jikan(q.value).data.value.data);
      ResultsShown(ReplyFor(resp), ms, FromAnime);
    } else {
      ErrorShown(resp);
    }
  }
}
