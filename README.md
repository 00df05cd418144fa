# movie-anime-fetcher, modelled in Dafny

movie-anime-fetcher is a small web application that sends one search to
one of two catalogues, TMDB for movies and Jikan for anime, and shows the
results on one kind of card. This project models the logic of the
application and proves properties of it:

- **Server** (`server.dfy`): the two proxy routes. `/api/movie` rejects a
  missing query (400) and a missing TMDB key (500). It then reshapes every TMDB
  `search/movie` record into a flat display record. `/api/anime` rejects a
  missing query and reshapes every Jikan v4 `anime` record. Every field follows
  its `||` or ternary fallback: the title chain, the `'N/A'` year and rating,
  the poster URL, the default counts and texts, and the genre and producer names.
- **Presenter** (`presenter.dfy`): `renderCard` decides the poster source,
  the title line, the optional subtitle, the chips row, the optional genres
  line and the overview text. An overview longer than 220 characters shows its
  first 220 characters and "...", behind a "Read more" button and a "Read more"
  chip. `Present(item, expanded)` is the card as a value. `RenderCard` builds
  the first card one append at a time, as the page does, and is proved equal to
  `Present(item, false)`. The class `CardState` holds what `setExpandedState`
  and the two click handlers change.
- **Page** (`page.dfy`): the submit handler, which trims the query and sends
  nothing when it is blank, and `fetchResults`. `fetchResults` shows
  "Loading...", clears the cards, and once the reply is in shows the count, "No
  results found" or the error line in red, with one card per record. The class
  `Page` holds the status line and the list of cards.
- **Js** (`js.dfy`): the JavaScript semantics the other modules use:
  - truthiness of optional values, and `||`;
  - `slice`, `join` and `map`;
  - `trim` with ECMAScript's WhiteSpace and LineTerminator set;
  - `toUpperCase` on ASCII letters;
  - the decimal text of an integer in a template literal.

Records are modelled as the JSON their sender writes. A field that would be
`undefined` is `None`. A `NaN` year, from an air date that does not parse, is
`null`, as `JSON.stringify` writes it. `Number(x).toFixed(1)` and
`new Date(s).getFullYear()` are not modelled. They are the two function
fields of a `Platform` value that the normalisers receive. `ValidPlatform`
states the one fact used about them: `toFixed` never writes the text `N/A`.
The upstream services and the page's `fetch` are function parameters too
(`tmdb`, `jikan`, `reply`).

Notable behaviours of the code, all modelled as written:

- The page shows an upper-cased language chip for every movie with an
  original language (public/script.js:61).
- A rating of `'N/A'` is shown as `⭐ —`, not `⭐ N/A` (public/script.js:54).
- A movie's year is `'N/A'` when it has no release date. That text is truthy,
  so the title line reads `Dune (N/A)` (public/script.js:35).
- The genres line is appended to the card before the title line
  (public/script.js:69 against 121 and 128).
- The server sends `original_title` even when it equals the title. The
  page filters the subtitle again when it renders (public/script.js:40-41).
- A movie's year is the first four characters of any non-empty date
  string, not necessarily four digits (server.js:37).
- An anime's year is a number, `null` or the string `'N/A'` (server.js:68).
- When `a.aired.from` is absent, an anime's year is `a.year`, and `'N/A'`
  only when that is falsy too (server.js:68).

## Model

| member | source | states |
|---|---|---|
| Js.StrOr | server.js:34-43 | `o \|\| d` is o's value exactly when o is a non-empty string, otherwise d |
| Js.StrOrNull | server.js:35-36 | `o \|\| null` is present exactly when o is truthy, and then it is o itself, non-empty |
| Js.IntOrNull | server.js:61-64 | `n \|\| null` is present exactly when n is present and not 0 |
| Js.Prefix | server.js:37 | `s.slice(0, k)` is a prefix of s of length min(k, \|s\|) |
| Js.Join | public/script.js:68 | `join` of no element is "", of one element is that element, and starts with the first element (the general case is `JoinSnoc`) |
| Js.JoinSnoc | public/script.js:68 | joining one more element appends the separator and that element; with the two cases above this fixes every joined string |
| Js.JoinLength | public/script.js:68 | a joined string is as long as its parts plus one separator between each two |
| Js.MapElements | server.js:32 | `map` keeps the length and the order: element i of the result is f of element i |
| Js.MapAppend | server.js:32 | mapping a concatenation is the concatenation of the mapped parts |
| Js.NatToString | public/script.js:57-58 | the decimal text of a natural number is non-empty, all digits, and has no leading zero |
| Js.IntToString | public/script.js:57-58 | the text of an integer starts with a minus sign exactly when the integer is negative |
| Js.ParseNatToString | public/script.js:57-58 | reading the decimal text back gives the number |
| Js.IntToStringInjective | public/script.js:57-58 | two different counts never show the same chip text |
| Js.ToUpper | public/script.js:61 | `toUpperCase` keeps the length and upper-cases each ASCII letter in place |
| Js.ToUpperIdempotent | public/script.js:61 | upper-casing twice is upper-casing once |
| Js.SkipLeading | public/script.js:163 | the index of the first non-whitespace character, with only whitespace before it |
| Js.SkipTrailing | public/script.js:163 | the end of the last non-whitespace character, with only whitespace after it |
| Js.TrimCut | public/script.js:163 | the cut `trim` makes has whitespace outside it, non-whitespace at both ends, and is empty exactly when the text is all whitespace |
| Js.Trim | public/script.js:163 | `trim` returns a substring with only whitespace around it and no whitespace at either end; it is "" exactly when the input is all whitespace |
| Server.Records | server.js:32 | `xs \|\| []` is xs when present and the empty list otherwise |
| Server.MovieYear | server.js:37 | the year is the first min(4, length) characters of a non-empty release date, and exactly "N/A" without one; the middle branch is never taken |
| Server.Rating | server.js:38 | the rating is the formatted value when the number is present and not 0, and "N/A" otherwise |
| Server.RatingNotAvailable | server.js:38 | with a `toFixed` that never writes "N/A", the rating is "N/A" if and only if the number is missing or 0 |
| Server.NormalizeMovie | server.js:32-45 | every field of the movie record: title `title`, else `original_title`, else "Untitled", never empty; original title and language or null; year and rating as above; vote count and popularity default to 0; `adult` only for `true`; overview default ""; poster the TMDB base URL plus the path exactly when there is a path |
| Server.NormalizeMovies | server.js:32 | one movie record per TMDB record, in upstream order; no `results` gives no records |
| Server.NormalizeMoviesAppend | server.js:32-45 | records are mapped independently: two batches give the two batches' items, one after the other |
| Server.AiredFrom | server.js:67 | `aired_from` is `aired.from` when `aired` exists and `from` is truthy, otherwise null |
| Server.AnimeYear | server.js:68 | with an air date, the year is its calendar year (null when it does not parse); without one it is `a.year` when truthy, else "N/A" |
| Server.AnimePoster | server.js:73 | the poster is `images.jpg.image_url` when `images` and `images.jpg` exist, otherwise null |
| Server.Names | server.js:74-75 | the genre or producer names, one per entry, in upstream order; none when the list is missing |
| Server.NormalizeAnime | server.js:60-76 | every field of the anime record: title or "Untitled"; English title, episodes, type, status, content rating and rank or null; year, rating and poster as above; overview the synopsis or ""; the genre and producer names |
| Server.NormalizeAnimeList | server.js:60 | one anime record per Jikan record, in upstream order; no `data` gives no records |
| Server.NormalizeAnimeAppend | server.js:60-76 | anime records are mapped independently, batch by batch |
| Server.MovieRoute | server.js:17-51 | no query gives 400 and no key gives 500, in that order; 200 exactly when the provider replied with data, and then the normalised results; any other outcome is 500 with the TMDB failure message |
| Server.AnimeRoute | server.js:54-82 | no query gives 400; 200 exactly when Jikan replied with data, then the normalised results; otherwise 500 with the Jikan failure message, and never the missing-key error |
| Server.MovieGuardsPrecedeUpstream | server.js:19-23 | a request without query or key gets the same 400 or 500 whatever the provider would answer |
| Server.AnimeGuardPrecedesUpstream | server.js:56-59 | an anime request without query gets 400 whatever Jikan would answer |
| Presenter.TitleText | public/script.js:35 | the title line starts with the title, and is followed by " (year)" exactly when the year is truthy |
| Presenter.SubtitleText | public/script.js:40-41 | the original title, else the English title, whichever is first truthy and differs from the title; no subtitle when neither is; a subtitle is never empty and never the title |
| Presenter.RatingChipText | public/script.js:54 | the rating chip is the star, then a dash for "N/A" or else the rating itself |
| Presenter.FullText | public/script.js:74 | the full overview is the overview, else the synopsis, else "No description available."; never empty |
| Presenter.Preview | public/script.js:81 | a long text is cut to its first 220 characters plus "...", shorter than the text plus the ellipsis |
| Presenter.OverviewShown | public/script.js:74-81 | a short text is always shown whole; a long one is shown whole when expanded and as the preview when collapsed |
| Presenter.ToggleLabel | public/script.js:86-104 | the label is "Read more" exactly when collapsed and "Show less" exactly when expanded |
| Presenter.GenresText | public/script.js:65-68 | a genres line exists exactly when the list is non-empty, and it starts with "Genres: " |
| Presenter.GenresNames | public/script.js:68 | the genres line is "Genres: " and the first min(4, n) names joined by ", ", a missing name written empty |
| Presenter.GenresFirstFour | public/script.js:68 | five genres with the third unnamed give "Genres: " and the first four joined by ", ", the third empty |
| Presenter.FactChips | public/script.js:54-62 | appending the rating chip, then each detail chip whose field is truthy, gives `InfoChips` |
| Presenter.RenderCard | public/script.js:21-138 | the card built one append at a time is `Present(item, false)`: poster or placeholder, the title as alt text, the genres, title and subtitle nodes, the chips, the overview and, for a long overview, the button |
| Presenter.InfoChipsAreFacts | public/script.js:54-62 | every chip before the toggle chip is a fact chip |
| Presenter.ChipOrder | public/script.js:54-62 | the rating chip is first, the fact chips follow, and the toggle chip is present exactly when the overview is long, as the last chip |
| Presenter.OverviewLayout | public/script.js:119-131 | a short overview is the last node, after the chips row; a long one is followed by the button, and the button and the chip carry the same caption |
| Presenter.ShortOverviewIgnoresExpansion | public/script.js:126-131 | a card with a short overview is the same whether or not it is expanded |
| Presenter.TruncationBoundary | public/script.js:79-81 | 220 characters are shown whole; 221 characters are cut to 220 plus "..." |
| Presenter.MetaOrder | public/script.js:65-129 | the genres line first when there are genres, then the title line, then the subtitle exactly when there is one, then the chips row |
| Presenter.HeadNodes | public/script.js:65-129 | the nodes before the chips row: the genres line when present, the title line, the subtitle when present, and nothing else |
| Presenter.PosterSource | public/script.js:27 | the poster is the record's poster when it is a non-empty string, and the placeholder image otherwise |
| Presenter.Present | public/script.js:21-138 | the card as a value of the record and the expansion; its alt text is the title (the other parts are stated by `PosterSource`, `MetaOrder`, `MetaShape`, `ChipOrder` and `OverviewLayout`) |
| Presenter.MetaShape | public/script.js:119-131 | the card's nodes are the head nodes, then the chips row and the overview, then the button exactly when the overview is long, and nothing else |
| Presenter.ShortOverviewHasNoButton | public/script.js:126-131 | a card whose overview has 220 characters or fewer has no "Read more" button anywhere |
| Presenter.InfoChips | public/script.js:54-62 | the rating chip first, then at most six detail chips |
| Presenter.Chips | public/script.js:54-119 | the chips row starts with the rating chip |
| Presenter.FromMovie | server.js:32-46 | the page reads a movie's title, poster, rating, original title, language and overview as sent; its year is truthy exactly when non-empty and its votes chip shows exactly when the count is not 0; a movie has no genres, episodes, type, status, content rating or English title |
| Presenter.FromAnime | server.js:60-77 | the page reads an anime's title, poster, rating, year, English title, episodes, type, status, content rating and overview as sent, and always receives its genres list; it has no vote count, language or original title |
| Presenter.YearShown | public/script.js:35 | the falsy years are exactly null, 0 and ""; a year is written empty only when it is ""; a number is written in decimal |
| Presenter.MovieChips | public/script.js:54-62 | a movie card shows the rating, the votes when non-zero, and the upper-cased language when set |
| Presenter.AnimeChips | public/script.js:54-62 | an anime card shows the rating, then episodes, type, status and content rating, each when set |
| Presenter.MovieTitleLine | public/script.js:35 | a movie's title line always carries its year in parentheses; without a release date it reads "(N/A)" |
| Presenter.AnimeTitleLine | public/script.js:35 | an anime's title line has no year when the air date does not parse or its year is 0; without a date it shows `a.year` or "(N/A)" |
| Presenter.MovieRatingChip | public/script.js:54 | an unrated movie shows a dash, a rated one the formatted value |
| Presenter.MovieSubtitle | public/script.js:40-41 | a movie's subtitle is its original title, shown exactly when set and different from the displayed title |
| Presenter.AnimeSubtitle | public/script.js:40-41 | an anime's subtitle is its English title, shown exactly when set and different from the title |
| Presenter.DuneItem | server.js:32-45 | the record `{title: "Dune", original_title: "Dune", vote_average: 8.1, vote_count: 5000, poster_path: "/x.jpg"}` becomes rating "8.1", year "N/A", votes 5000 and the TMDB poster URL |
| Presenter.DuneChips | public/script.js:54-62 | that record shows the chips "⭐ 8.1" and "Votes: 5000" |
| Presenter.DuneShownCard | public/script.js:21-138 | with 300 characters of overview its card is the title "Dune (N/A)", the chips with "Read more" last, the preview and the button |
| Presenter.DuneCard | public/script.js:21-138 | the same card, from the TMDB record through the server and the page |
| Presenter.CardState.constructor | public/script.js:79-90 | a long overview starts collapsed, showing the preview, with "Read more" on both controls |
| Presenter.CardState.SetExpandedState | public/script.js:92-106 | one flag sets both classes, the text and both captions: the full text and "Show less" when expanded, the preview and "Read more" when not |
| Presenter.CardState.Toggle | public/script.js:108-116 | a click on either control flips the expansion and swaps the text and both captions |
| Presenter.StateShowsCard | public/script.js:92-131 | a consistent state shows what `Present` gives for its record and its expansion |
| Presenter.ToggleTwice | public/script.js:108-116 | two clicks restore the text, the flag and both captions |
| Page.Settle | public/script.js:146-157 | the status is the error line with no cards exactly when the reply failed, was not ok or was not JSON; otherwise the records are `results \|\| []`, with "No results found" for none and "N result(s)" otherwise |
| Page.StatusLinesDistinct | public/script.js:150-157 | the three status lines differ from one another |
| Page.Dispatch | public/script.js:161-166 | nothing is sent exactly when the input is all whitespace; otherwise the trimmed query goes to the anime route exactly when the switch is on |
| Page.Page.constructor | public/script.js:5-6 | the page starts with an empty status line in the normal colour and no cards; that the two elements start empty is assumed, since the page's markup is not part of this model |
| Page.Page.SetStatus | public/script.js:12-15 | the status text and its error colour are set, and the cards are kept |
| Page.Page.ClearResults | public/script.js:17-19 | the cards are removed, and the status is kept |
| Page.Page.BeginFetch | public/script.js:141-142 | "Loading..." in the normal colour, and no cards |
| Page.Page.CompleteFetch | public/script.js:143-158 | the status is `Settle`'s, and one collapsed card per record is appended in order |
| Page.Page.AppendCards | public/script.js:154 | `forEach` appends the rendered cards in order after the existing ones, and keeps the status |
| Page.Page.Submit | public/script.js:161-166 | a blank query changes nothing; any other starts the search with "Loading..." and no cards |
| Page.Search | public/script.js:140-166 | a whole search: the request is `Dispatch`'s; a blank query leaves the status, its colour and the cards as they were; otherwise the page ends with `Settle`'s status and one card per record |
| Page.ReplyFor | public/script.js:145-148 | the page's view of a server response: `ok` exactly for a 2xx status; `results` absent for an error body, otherwise the records as the page reads them, in order |
| Page.ResultsShown | public/script.js:147-154 | a 2xx reply listing records shows one card per record in order, "No results found" for none and "N result(s)" with N the number of records otherwise |
| Page.ErrorShown | public/script.js:146-157 | a reply whose status is not 2xx shows the error line in the error colour and no cards |
| Page.MovieSearchShown | server.js:17-51 | a failed or rejected movie search shows the error line and no cards; otherwise one card per TMDB record, in order, and "No results found" or the count of records |
| Page.AnimeSearchShown | server.js:54-82 | the same for an anime search |

## Left out

- Network I/O is not modelled. This covers the `axios.get` calls, their parameters (language, `include_adult`, page, `limit: 12`), `fetch`, `res.json()` and the URL built with `encodeURIComponent`. The model takes the outcome of each call as a parameter: `tmdb`, `jikan` or `reply`.
- Express plumbing is not modelled: the app's setup, static file serving, `app.listen`, `dotenv` and the `console` logging. These are setup and output only.
- The DOM is modelled as values: `Card`, `MetaNode` and `Chip`, with the `CardState` and `Page` classes for what changes. Element names, CSS class names other than `collapsed` and `expanded`, the status colour value and event registration are not modelled.
- The Enter-key re-dispatch (public/script.js:170-174) and the Anime/Movie switch label (public/script.js:8-10) are DOM wiring and not modelled.
- `Number(x).toFixed(1)` and `new Date(s).getFullYear()` are parameters, not modelled. They are floating-point formatting and time-zone-dependent date parsing.
- Interleaved searches are not modelled. `Search` runs the submit handler and the completion of `fetchResults` one after the other. The page has no guard against a late reply from an earlier search, and the model does not invent one.
- Exceptions from ill-typed records are not modelled.
  - A `null` entry in an upstream list would make the server's `map` throw, giving a 500.
  - A `null` record, or a non-string `language`, would make `renderCard` throw part-way through `forEach`. The page would then show the error line after some cards.
  - Records in the model are well-typed, so neither happens.
- A query given twice (`?q=a&q=b`, which Express reads as an array) is not modelled. The query is an optional string.
- Lengths and slices count characters. JavaScript counts UTF-16 code units, so the 220-character cut and the 4-character year agree with the page only on text from the Basic Multilingual Plane.
- Js.ToUpper: upper-cases ASCII letters only, not the full Unicode case mapping of `toUpperCase`.
- Vote counts, episode counts, ranks and `a.year` are integers. The text `${n}` of a non-integer number is not modelled.
