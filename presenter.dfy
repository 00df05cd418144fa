/**
 * The page's card renderer: from one result record it decides the poster
 * source, the title line, the optional subtitle, the ordered chips, the
 * optional genres line and the overview text, which is cut to a preview
 * of 220 characters behind a "Read more" control when it is longer.
 *
 * `Present` is the card as a function of the record and of whether the
 * overview is expanded; `RenderCard` builds the initial card step by step
 * the way the page does; `CardState` holds what the two toggle controls
 * change afterwards.
 */
module Presenter {
  import opened Js
  import opened Server

  /** A result record as the page reads it from the JSON (absent fields are None). */
  datatype CardItem = CardItem(
    poster: Option<string>,
    title: string,
    year: YearValue,
    originalTitle: Option<string>,
    englishTitle: Option<string>,
    rating: string,
    voteCount: Option<int>,
    episodes: Option<int>,
    kind: Option<string>,
    status: Option<string>,
    language: Option<string>,
    contentRating: Option<string>,
    genres: Option<seq<Option<string>>>,
    overview: Option<string>,
    synopsis: Option<string>)

  /**
   * A movie record as the page receives it; fields the movie route does not
   * send are absent, so a movie card never has genres, episodes, a type, a
   * status, a content rating or an English title.
   */
  function FromMovie(m: MovieItem): (c: CardItem)
    ensures c.title == m.title && c.poster == m.poster && c.rating == m.rating
    ensures c.originalTitle == m.originalTitle && c.language == m.language && c.overview == Some(m.overview)
    ensures YearTruthy(c.year) <==> m.year != ""
    ensures TruthyInt(c.voteCount) <==> m.voteCount != 0
    ensures c.genres.None? && c.episodes.None? && c.kind.None? && c.status.None?
    ensures c.contentRating.None? && c.englishTitle.None? && c.synopsis.None?
  {
    CardItem(
      poster := m.poster, title := m.title, year := YearText(m.year),
      originalTitle := m.originalTitle, englishTitle := None, rating := m.rating,
      voteCount := Some(m.voteCount), episodes := None, kind := None, status := None,
      language := m.language, contentRating := None, genres := None,
      overview := Some(m.overview), synopsis := None)
  }

  /**
   * An anime record as the page receives it: the genres list is always sent,
   * and the movie-only fields (votes, language, original title) are absent.
   */
  function FromAnime(a: AnimeItem): (c: CardItem)
    ensures c.title == a.title && c.poster == a.poster && c.rating == a.rating && c.year == a.year
    ensures c.genres == Some(a.genres) && c.overview == Some(a.overview)
    ensures c.englishTitle == a.englishTitle && c.episodes == a.episodes && c.kind == a.kind
    ensures c.status == a.status && c.contentRating == a.contentRating
    ensures c.voteCount.None? && c.language.None? && c.originalTitle.None? && c.synopsis.None?
  {
    CardItem(
      poster := a.poster, title := a.title, year := a.year,
      originalTitle := None, englishTitle := a.englishTitle, rating := a.rating,
      voteCount := None, episodes := a.episodes, kind := a.kind, status := a.status,
      language := None, contentRating := a.contentRating, genres := Some(a.genres),
      overview := Some(a.overview), synopsis := None)
  }

  const Placeholder: string := "https://via.placeholder.com/500x750?text=No+Image"
  const NoDescription: string := "No description available."
  const PreviewChars: nat := 220
  const Ellipsis: string := "..."
  const ReadMore: string := "Read more"
  const ShowLess: string := "Show less"
  const Star: string := "\U{2B50} "
  const Dash: string := "\U{2014}"
  const GenresPrefix: string := "Genres: "
  const GenresShown: nat := 4

  /** A chip of the chips row: a fact about the record, or the read-more toggle. */
  datatype Chip = Fact(text: string) | ToggleChip(caption: string)

  /** A child of the card's `meta` element, in the order the page appends them. */
  datatype MetaNode =
    | GenresLine(text: string)
    | TitleLine(text: string)
    | SubtitleLine(text: string)
    | ChipRow(chips: seq<Chip>)
    | OverviewPara(text: string, collapsed: bool, expanded: bool)
    | ReadMoreButton(caption: string)

  /** A rendered card: the poster image's source and alt text, then the `meta` children. */
  datatype Card = Card(posterSrc: string, alt: string, meta: seq<MetaNode>)

  // ---------------------------------------------------------------------
  // Text decisions

  /** JavaScript truthiness of a `year` value: only null, 0 and the empty string are falsy. */
  predicate YearTruthy(y: YearValue) {
    match y
    case YearNull => false
    case YearNumber(n) => n != 0
    case YearText(s) => s != ""
  }

  /** `${year}` in a template literal: null is written "null", a number in decimal, a string as it is. */
  function YearString(y: YearValue): string {
    match y
    case YearNull => "null"
    case YearNumber(n) => IntToString(n)
    case YearText(s) => s
  }

  /**
   * The falsy years are exactly null, 0 and the empty string, and a truthy
   * year is never written empty, so the title line's parentheses always
   * hold something.
   */
  lemma YearShown(y: YearValue)
    ensures YearTruthy(y) <==> y != YearNull && y != YearNumber(0) && y != YearText("")
    ensures YearString(y) == "" <==> y == YearText("")
    ensures y.YearNumber? ==> YearString(y) == IntToString(y.n)
  {
  }

  /** The title line: the title, followed by the year in parentheses when the year is truthy. */
  function TitleText(item: CardItem): (t: string)
    ensures item.title <= t
    ensures YearTruthy(item.year) ==> t[|item.title|..] == " (" + YearString(item.year) + ")"
    ensures !YearTruthy(item.year) ==> t == item.title
  {
    var suffix := if YearTruthy(item.year) then " (" + YearString(item.year) + ")" else "";
    assert (item.title + suffix)[|item.title|..] == suffix;
    item.title + suffix
  }

  /** The subtitle: the original title, else the English title, when it is set and differs from the title. */
  function SubtitleText(item: CardItem): (s: Option<string>)
    ensures s.Some? <==>
      || (TruthyStr(item.originalTitle) && item.originalTitle.value != item.title)
      || (TruthyStr(item.englishTitle) && item.englishTitle.value != item.title)
    ensures s.Some? ==> s.value != "" && s.value != item.title
    ensures TruthyStr(item.originalTitle) && item.originalTitle.value != item.title ==> s == item.originalTitle
    ensures s.Some? && s != item.originalTitle ==> s == item.englishTitle
  {
    if TruthyStr(item.originalTitle) && item.originalTitle.value != item.title then item.originalTitle
    else if TruthyStr(item.englishTitle) && item.englishTitle.value != item.title then item.englishTitle
    else None
  }

  /** The rating chip: a star, then the rating, or a dash when the rating is "N/A". */
  function RatingChipText(rating: string): (t: string)
    ensures Star <= t
    ensures rating == NotAvailable ==> t == Star + Dash
    ensures rating != NotAvailable ==> t[|Star|..] == rating
  {
    var shown := if rating != NotAvailable then rating else Dash;
    assert (Star + shown)[|Star|..] == shown;
    Star + shown
  }

  /** The one-element list [x] when b holds, else the empty list. */
  function When<T>(b: bool, x: T): (xs: seq<T>)
    ensures b ==> xs == [x]
    ensures !b ==> xs == []
  {
    if b then [x] else []
  }

  function VotesChip(item: CardItem): string {
    "Votes: " + IntToString(if item.voteCount.Some? then item.voteCount.value else 0)
  }

  function EpisodesChip(item: CardItem): string {
    "Episodes: " + IntToString(if item.episodes.Some? then item.episodes.value else 0)
  }

  /**
   * The rating chip, then the detail chips (votes, episodes, type, status,
   * language, content rating), each present only when its field is truthy.
   */
  function InfoChips(item: CardItem): (cs: seq<Chip>)
    ensures 1 <= |cs| <= 7
    ensures cs[0] == Fact(RatingChipText(item.rating))
  {
    [Fact(RatingChipText(item.rating))]
    + When(TruthyInt(item.voteCount), Fact(VotesChip(item)))
    + When(TruthyInt(item.episodes), Fact(EpisodesChip(item)))
    + When(TruthyStr(item.kind), Fact(StrOr(item.kind, "")))
    + When(TruthyStr(item.status), Fact(StrOr(item.status, "")))
    + When(TruthyStr(item.language), Fact(ToUpper(StrOr(item.language, ""))))
    + When(TruthyStr(item.contentRating), Fact(StrOr(item.contentRating, "")))
  }

  /** The overview's full text: `overview || synopsis || 'No description available.'`. */
  function FullText(item: CardItem): (t: string)
    ensures t != ""
    ensures TruthyStr(item.overview) ==> t == item.overview.value
    ensures !TruthyStr(item.overview) && TruthyStr(item.synopsis) ==> t == item.synopsis.value
    ensures !TruthyStr(item.overview) && !TruthyStr(item.synopsis) ==> t == NoDescription
  {
    StrOr(item.overview, StrOr(item.synopsis, NoDescription))
  }

  /** The overview is cut, and gets a toggle, only when it is longer than 220 characters. */
  predicate IsLong(text: string) {
    |text| > PreviewChars
  }

  /** The collapsed overview: the first 220 characters and an ellipsis. */
  function Preview(text: string): (p: string)
    ensures IsLong(text) ==> p == text[..PreviewChars] + Ellipsis
    ensures IsLong(text) ==> |p| == PreviewChars + |Ellipsis| < |text| + |Ellipsis|
  {
    Prefix(text, PreviewChars) + Ellipsis
  }

  /** The overview text shown: the preview while collapsed, the full text otherwise. */
  function OverviewShown(text: string, expanded: bool): (s: string)
    ensures !IsLong(text) ==> s == text
    ensures IsLong(text) && expanded ==> s == text
    ensures IsLong(text) && !expanded ==> s == Preview(text)
  {
    if IsLong(text) && !expanded then Preview(text) else text
  }

  /** The label both toggle controls show. */
  function ToggleLabel(expanded: bool): (l: string)
    ensures l == ReadMore <==> !expanded
    ensures l == ShowLess <==> expanded
  {
    if expanded then ShowLess else ReadMore
  }

  /** The full chips row. */
  function Chips(item: CardItem, expanded: bool): (cs: seq<Chip>)
    ensures |cs| >= 1 && cs[0] == Fact(RatingChipText(item.rating))
  {
    InfoChips(item)
    + When(IsLong(FullText(item)), ToggleChip(ToggleLabel(expanded)))
  }

  /** The genres line, when the record has any genres: the first four names, comma-separated. */
  function GenresText(item: CardItem): (g: Option<string>)
    ensures g.Some? <==> item.genres.Some? && item.genres.value != []
    ensures g.Some? ==> GenresPrefix <= g.value
  {
    if item.genres.Some? && item.genres.value != [] then
      var names := Map(JoinText, Prefix(item.genres.value, GenresShown));
      Some(GenresPrefix + Join(names, ", "))
    else None
  }

  /** How `join` writes an element: null and undefined become the empty string. */
  function JoinText(o: Option<string>): string {
    if o.Some? then o.value else ""
  }

  /**
   * The `meta` children before the chips row: the genres line when there are
   * genres, the title line, then the subtitle when there is one.
   */
  function HeadNodes(item: CardItem): (ns: seq<MetaNode>)
    ensures var k := if GenresText(item).Some? then 1 else 0;
      && |ns| == k + 1 + (if SubtitleText(item).Some? then 1 else 0)
      && (GenresText(item).Some? ==> ns[0] == GenresLine(GenresText(item).value))
      && ns[k] == TitleLine(TitleText(item))
      && (SubtitleText(item).Some? ==> ns[k + 1] == SubtitleLine(SubtitleText(item).value))
  {
    (if GenresText(item).Some? then [GenresLine(GenresText(item).value)] else [])
    + [TitleLine(TitleText(item))]
    + (if SubtitleText(item).Some? then [SubtitleLine(SubtitleText(item).value)] else [])
  }

  /** The card for a record and an expansion state. */
  function Present(item: CardItem, expanded: bool): (c: Card)
    ensures c.alt == item.title
  {
    var full := FullText(item);
    var long := IsLong(full);
    Card(
      posterSrc := StrOr(item.poster, Placeholder),
      alt := item.title,
      meta := HeadNodes(item)
              + [ChipRow(Chips(item, expanded))]
              + [OverviewPara(OverviewShown(full, expanded), long && !expanded, long && expanded)]
              + When(long, ReadMoreButton(ToggleLabel(expanded))))
  }

  /** The rating chip and the detail chips, appended one at a time (lines 54-62 of the page script). */
  method FactChips(item: CardItem) returns (chips: seq<Chip>)
    ensures chips == InfoChips(item)
  {
    chips := [Fact(RatingChipText(item.rating))];
    ghost var planned := chips;
    if TruthyInt(item.voteCount) { chips := chips + [Fact(VotesChip(item))]; }
    planned := planned + When(TruthyInt(item.voteCount), Fact(VotesChip(item)));
    assert chips == planned;
    if TruthyInt(item.episodes) { chips := chips + [Fact(EpisodesChip(item))]; }
    planned := planned + When(TruthyInt(item.episodes), Fact(EpisodesChip(item)));
    assert chips == planned;
    if TruthyStr(item.kind) { chips := chips + [Fact(item.kind.value)]; }
    planned := planned + When(TruthyStr(item.kind), Fact(StrOr(item.kind, "")));
    assert chips == planned;
    if TruthyStr(item.status) { chips := chips + [Fact(item.status.value)]; }
    planned := planned + When(TruthyStr(item.status), Fact(StrOr(item.status, "")));
    assert chips == planned;
    if TruthyStr(item.language) { chips := chips + [Fact(ToUpper(item.language.value))]; }
    planned := planned + When(TruthyStr(item.language), Fact(ToUpper(StrOr(item.language, ""))));
    assert chips == planned;
    if TruthyStr(item.contentRating) { chips := chips + [Fact(item.contentRating.value)]; }
    planned := planned + When(TruthyStr(item.contentRating), Fact(StrOr(item.contentRating, "")));
  }

  /** The card the page first renders for a record: collapsed. */
  function InitialCard(item: CardItem): Card {
    Present(item, false)
  }

  /**
   * `renderCard`: the card as the page first builds it, appending chips and
   * `meta` children one at a time.
   */
  method RenderCard(item: CardItem) returns (card: Card)
    ensures card == InitialCard(item)
  {
    var posterSrc := StrOr(item.poster, Placeholder);
    var meta: seq<MetaNode> := [];
    var title := TitleText(item);
    var subtitle := SubtitleText(item);
    var chips := FactChips(item);
    if item.genres.Some? && |item.genres.value| > 0 {
      meta := meta + [GenresLine(GenresText(item).value)];
    }
    var fullText := FullText(item);
    if |fullText| > PreviewChars {
      var overview := fullText[..PreviewChars] + Ellipsis;
      chips := chips + [ToggleChip(ReadMore)];
      assert chips == Chips(item, false);
      meta := meta + [TitleLine(title)];
      if subtitle.Some? { meta := meta + [SubtitleLine(subtitle.value)]; }
      assert meta == HeadNodes(item);
      meta := meta + [ChipRow(chips)];
      meta := meta + [OverviewPara(overview, true, false)];
      meta := meta + [ReadMoreButton(ReadMore)];
    } else {
      assert chips == Chips(item, false);
      meta := meta + [TitleLine(title)];
      if subtitle.Some? { meta := meta + [SubtitleLine(subtitle.value)]; }
      assert meta == HeadNodes(item);
      meta := meta + [ChipRow(chips)];
      meta := meta + [OverviewPara(fullText, false, false)];
    }
    card := Card(posterSrc, item.title, meta);
  }

  // ---------------------------------------------------------------------
  // Properties of the card

  /** Every chip of cs is a fact chip. */
  predicate AllFacts(cs: seq<Chip>) {
    forall i :: 0 <= i < |cs| ==> cs[i].Fact?
  }

  /** Appending fact chips to fact chips gives fact chips. */
  lemma FactsAppend(cs: seq<Chip>, more: seq<Chip>)
    requires AllFacts(cs) && AllFacts(more)
    ensures AllFacts(cs + more)
  {
    forall i | 0 <= i < |cs + more| ensures (cs + more)[i].Fact? {
      if i >= |cs| {
        assert (cs + more)[i] == more[i - |cs|];
      }
    }
  }

  /** Every chip before the toggle is a fact chip. */
  lemma InfoChipsAreFacts(item: CardItem)
    ensures AllFacts(InfoChips(item))
  {
    var cs := [Fact(RatingChipText(item.rating))];
    FactsAppend(cs, When(TruthyInt(item.voteCount), Fact(VotesChip(item))));
    cs := cs + When(TruthyInt(item.voteCount), Fact(VotesChip(item)));
    FactsAppend(cs, When(TruthyInt(item.episodes), Fact(EpisodesChip(item))));
    cs := cs + When(TruthyInt(item.episodes), Fact(EpisodesChip(item)));
    FactsAppend(cs, When(TruthyStr(item.kind), Fact(StrOr(item.kind, ""))));
    cs := cs + When(TruthyStr(item.kind), Fact(StrOr(item.kind, "")));
    FactsAppend(cs, When(TruthyStr(item.status), Fact(StrOr(item.status, ""))));
    cs := cs + When(TruthyStr(item.status), Fact(StrOr(item.status, "")));
    FactsAppend(cs, When(TruthyStr(item.language), Fact(ToUpper(StrOr(item.language, "")))));
    cs := cs + When(TruthyStr(item.language), Fact(ToUpper(StrOr(item.language, ""))));
    FactsAppend(cs, When(TruthyStr(item.contentRating), Fact(StrOr(item.contentRating, ""))));
  }

  /**
   * Chip order: the rating chip comes first, the fact chips follow, and the
   * toggle chip is present exactly when the overview is long, as the last chip.
   */
  lemma ChipOrder(item: CardItem, expanded: bool)
    ensures var cs := Chips(item, expanded);
      && cs[0] == Fact(RatingChipText(item.rating))
      && |cs| == |InfoChips(item)| + (if IsLong(FullText(item)) then 1 else 0)
      && AllFacts(cs[..|InfoChips(item)|])
      && (IsLong(FullText(item)) ==> cs[|cs| - 1] == ToggleChip(ToggleLabel(expanded)))
      && (!IsLong(FullText(item)) ==> AllFacts(cs))
  {
    InfoChipsAreFacts(item);
  }

  /**
   * The overview part of the card: a short overview is shown whole as the
   * last child; a long one is followed by the button, and the button and the
   * chip carry the same caption, "Read more" while collapsed and "Show less"
   * while expanded.
   */
  lemma OverviewLayout(item: CardItem, expanded: bool)
    ensures var c := Present(item, expanded); var full := FullText(item); var n := |c.meta|;
      && (!IsLong(full) ==>
            n >= 3 && c.meta[n - 1] == OverviewPara(full, false, false)
            && c.meta[n - 2] == ChipRow(InfoChips(item)))
      && (IsLong(full) ==>
            n >= 4
            && c.meta[n - 1] == ReadMoreButton(ToggleLabel(expanded))
            && c.meta[n - 2] == OverviewPara(OverviewShown(full, expanded), !expanded, expanded)
            && c.meta[n - 3] == ChipRow(Chips(item, expanded))
            && Chips(item, expanded)[|Chips(item, expanded)| - 1] == ToggleChip(ToggleLabel(expanded)))
  {
  }

  /** Without the toggle there is nothing to expand: a short overview renders the same either way. */
  lemma ShortOverviewIgnoresExpansion(item: CardItem)
    requires !IsLong(FullText(item))
    ensures Present(item, true) == Present(item, false)
  {
  }

  /** The truncation boundary: 220 characters are shown whole, 221 are cut to the 220 first and an ellipsis. */
  lemma TruncationBoundary(text: string)
    ensures |text| == PreviewChars ==> OverviewShown(text, false) == text
    ensures |text| == PreviewChars + 1 ==>
      OverviewShown(text, false) == text[..PreviewChars] + Ellipsis && OverviewShown(text, true) == text
  {
  }

  /** The poster image shows the record's poster, or the placeholder when it has none (`item.poster || placeholder`). */
  lemma PosterSource(item: CardItem, expanded: bool)
    ensures Present(item, expanded).posterSrc == (if TruthyStr(item.poster) then item.poster.value else Placeholder)
  {
  }

  /**
   * The order of the `meta` children: the genres line first when there are
   * genres, then the title line, then the subtitle exactly when there is one,
   * and then the chips row.
   */
  lemma MetaOrder(item: CardItem, expanded: bool)
    ensures var c := Present(item, expanded); var k := if GenresText(item).Some? then 1 else 0;
      && (GenresText(item).Some? ==> c.meta[0] == GenresLine(GenresText(item).value))
      && c.meta[k] == TitleLine(TitleText(item))
      && (SubtitleText(item).Some? ==>
            c.meta[k + 1] == SubtitleLine(SubtitleText(item).value) && c.meta[k + 2] == ChipRow(Chips(item, expanded)))
      && (SubtitleText(item).None? ==> c.meta[k + 1] == ChipRow(Chips(item, expanded)))
  {
  }

  /**
   * The card is the head nodes, then the chips row and the overview, then the
   * button exactly when the overview is long: nothing else comes between.
   */
  lemma MetaShape(item: CardItem, expanded: bool)
    ensures var c := Present(item, expanded);
      && c.meta[..|HeadNodes(item)|] == HeadNodes(item)
      && |c.meta| == |HeadNodes(item)| + (if IsLong(FullText(item)) then 3 else 2)
  {
  }

  /** A card whose overview has 220 characters or fewer has no "Read more" button. */
  lemma ShortOverviewHasNoButton(item: CardItem, expanded: bool)
    requires !IsLong(FullText(item))
    ensures forall i :: 0 <= i < |Present(item, expanded).meta| ==> !Present(item, expanded).meta[i].ReadMoreButton?
  {
    var c := Present(item, expanded);
    var head := HeadNodes(item);
    MetaShape(item, expanded);
    OverviewLayout(item, expanded);
    forall i | 0 <= i < |c.meta| ensures !c.meta[i].ReadMoreButton? {
      if i < |head| {
        assert c.meta[i] == c.meta[..|head|][i];
      }
    }
  }

  /**
   * The genres line lists the first four genre names, or all of them when
   * there are fewer, separated by ", ", with a missing name written empty.
   */
  lemma GenresNames(item: CardItem, names: seq<string>)
    requires item.genres.Some? && item.genres.value != []
    requires |names| == if |item.genres.value| < GenresShown then |item.genres.value| else GenresShown
    requires forall i :: 0 <= i < |names| ==> names[i] == JoinText(item.genres.value[i])
    ensures GenresText(item) == Some(GenresPrefix + Join(names, ", "))
  {
    var shown := Prefix(item.genres.value, GenresShown);
    MapElements(JoinText, shown);
    assert names == Map(JoinText, shown);
  }

  /** Five genres, the third without a name: the line shows the first four, the missing name written empty. */
  lemma GenresFirstFour(item: CardItem, g0: string, g1: string, g3: string, g4: string)
    requires item.genres == Some([Some(g0), Some(g1), None, Some(g3), Some(g4)])
    ensures GenresText(item) == Some(GenresPrefix + (g0 + ", " + g1 + ", " + "" + ", " + g3))
  {
    var names := [g0, g1, "", g3];
    GenresNames(item, names);
    JoinSnoc([g0], g1, ", ");
    assert [g0] + [g1] == names[..2];
    JoinSnoc(names[..2], "", ", ");
    assert names[..2] + [""] == names[..3];
    JoinSnoc(names[..3], g3, ", ");
    assert names[..3] + [g3] == names;
  }

  /** The chips a movie card can show: rating, votes when non-zero, and the upper-cased language when set. */
  lemma MovieChips(m: MovieItem)
    ensures InfoChips(FromMovie(m)) ==
      [Fact(RatingChipText(m.rating))]
      + When(m.voteCount != 0, Fact("Votes: " + IntToString(m.voteCount)))
      + When(TruthyStr(m.language), Fact(ToUpper(StrOr(m.language, ""))))
  {
  }

  /** The chips an anime card can show: rating, episodes, type, status and content rating, each when set. */
  lemma AnimeChips(a: AnimeItem)
    ensures InfoChips(FromAnime(a)) ==
      [Fact(RatingChipText(a.rating))]
      + When(TruthyInt(a.episodes), Fact("Episodes: " + IntToString(if a.episodes.Some? then a.episodes.value else 0)))
      + When(TruthyStr(a.kind), Fact(StrOr(a.kind, "")))
      + When(TruthyStr(a.status), Fact(StrOr(a.status, "")))
      + When(TruthyStr(a.contentRating), Fact(StrOr(a.contentRating, "")))
  {
    var item := FromAnime(a);
    var rating := [Fact(RatingChipText(a.rating))];
    var episodes := When(TruthyInt(a.episodes), Fact("Episodes: " + IntToString(if a.episodes.Some? then a.episodes.value else 0)));
    var kind := When(TruthyStr(a.kind), Fact(StrOr(a.kind, "")));
    var status := When(TruthyStr(a.status), Fact(StrOr(a.status, "")));
    var contentRating := When(TruthyStr(a.contentRating), Fact(StrOr(a.contentRating, "")));
    assert When(TruthyInt(item.voteCount), Fact(VotesChip(item))) == [];
    assert When(TruthyStr(item.language), Fact(ToUpper(StrOr(item.language, "")))) == [];
    assert InfoChips(item) == rating + [] + episodes + kind + status + [] + contentRating;
    AppendEmpty(rating + [] + episodes + kind + status, contentRating);
  }

  /** An empty list between two lists drops out. */
  lemma AppendEmpty<T>(xs: seq<T>, ys: seq<T>)
    ensures xs + [] + ys == xs + ys
  {
  }

  /**
   * A movie's title line always carries the year in parentheses, because the
   * year is never empty; without a release date it reads "(N/A)".
   */
  lemma MovieTitleLine(p: Platform, r: RawMovie)
    ensures var m := NormalizeMovie(p, r);
      && TitleText(FromMovie(m)) == m.title + " (" + m.year + ")"
      && (!TruthyStr(r.releaseDate) ==> TitleText(FromMovie(m)) == m.title + " (N/A)")
  {
    var m := NormalizeMovie(p, r);
    var t := TitleText(FromMovie(m));
    assert m.year != "";
    assert t == m.title + t[|m.title|..];
  }

  /** An anime's title line: no year when the air date does not parse, "(N/A)" when there is no date and no year. */
  lemma AnimeTitleLine(p: Platform, a: RawAnime)
    ensures var m := NormalizeAnime(p, a); var from := AiredFrom(a.aired);
      && (from.Some? && p.fullYear(from.value).None? ==> TitleText(FromAnime(m)) == m.title)
      && (from.Some? && p.fullYear(from.value) == Some(0) ==> TitleText(FromAnime(m)) == m.title)
      && (from.None? && !TruthyInt(a.year) ==> TitleText(FromAnime(m)) == m.title + " (N/A)")
      && (from.None? && TruthyInt(a.year) ==>
            TitleText(FromAnime(m)) == m.title + " (" + IntToString(a.year.value) + ")")
  {
    var m := NormalizeAnime(p, a);
    assert TitleText(FromAnime(m)) == m.title + TitleText(FromAnime(m))[|m.title|..];
  }

  /** An unrated movie (no average, or 0) shows a dash in its rating chip; a rated one shows the formatted value. */
  lemma MovieRatingChip(p: Platform, r: RawMovie, expanded: bool)
    requires ValidPlatform(p)
    ensures var cs := Chips(FromMovie(NormalizeMovie(p, r)), expanded);
      && (!TruthyReal(r.voteAverage) ==> cs[0] == Fact(Star + Dash))
      && (TruthyReal(r.voteAverage) ==> cs[0] == Fact(Star + p.toFixed1(r.voteAverage.value)))
  {
    var rating := NormalizeMovie(p, r).rating;
    var t := RatingChipText(rating);
    if TruthyReal(r.voteAverage) {
      assert rating != NotAvailable;
      assert t == Star + t[|Star|..];
    }
  }

  /** A movie shows its original title as subtitle only when that is set and differs from the displayed title. */
  lemma MovieSubtitle(p: Platform, r: RawMovie)
    ensures var m := NormalizeMovie(p, r);
      && (SubtitleText(FromMovie(m)).Some? <==> TruthyStr(r.originalTitle) && r.originalTitle.value != m.title)
      && (SubtitleText(FromMovie(m)).Some? ==> SubtitleText(FromMovie(m)) == r.originalTitle)
      && (!TruthyStr(r.title) ==> SubtitleText(FromMovie(m)).None?)
  {
  }

  /** An anime shows its English title as subtitle only when that is set and differs from the title. */
  lemma AnimeSubtitle(p: Platform, a: RawAnime)
    ensures var m := NormalizeAnime(p, a);
      && (SubtitleText(FromAnime(m)).Some? <==> TruthyStr(a.titleEnglish) && a.titleEnglish.value != m.title)
      && (SubtitleText(FromAnime(m)).Some? ==> SubtitleText(FromAnime(m)) == a.titleEnglish)
  {
  }

  /**
   * A TMDB record with a long overview: `{title: "Dune", original_title:
   * "Dune", vote_average: 8.1, vote_count: 5000, poster_path: "/x.jpg"}`,
   * the given overview and no release date.
   */
  function DuneRecord(overview: string): RawMovie {
    RawMovie(None, Some("Dune"), Some("Dune"), None, Some(8.1), Some(5000), None,
             None, None, Some(overview), Some("/x.jpg"))
  }

  /** The record the page receives for it: no year, rating "8.1", no subtitle since both titles agree. */
  function DuneShown(overview: string): CardItem {
    CardItem(Some(PosterBase + "/x.jpg"), "Dune", YearText(NotAvailable), Some("Dune"), None, "8.1",
             Some(5000), None, None, None, None, None, None, Some(overview), None)
  }

  /** The movie route and the page turn the Dune record into that record. */
  lemma DuneItem(p: Platform, overview: string)
    requires p.toFixed1(8.1) == "8.1"
    ensures FromMovie(NormalizeMovie(p, DuneRecord(overview))) == DuneShown(overview)
  {
  }

  /** The vote count 5000 is written "5000". */
  lemma VotesText()
    ensures IntToString(5000) == "5000"
  {
    assert NatToString(5) == "5";
    assert NatToString(50) == "50";
    assert NatToString(500) == "500";
  }

  /** Its chips: the rating and the vote count; type, status, language and content rating are absent. */
  lemma DuneChips(overview: string)
    ensures InfoChips(DuneShown(overview)) == [Fact(Star + "8.1"), Fact("Votes: 5000")]
  {
    var item := DuneShown(overview);
    VotesText();
    assert RatingChipText(item.rating) == Star + "8.1";
    assert VotesChip(item) == "Votes: 5000";
  }

  /** The card the page shows collapsed for that record, when the overview has 300 characters. */
  lemma DuneShownCard(overview: string)
    requires |overview| == 300
    ensures Present(DuneShown(overview), false) ==
      Card(PosterBase + "/x.jpg", "Dune",
           [TitleLine("Dune" + " (N/A)")]
           + [ChipRow([Fact(Star + "8.1"), Fact("Votes: 5000")] + [ToggleChip(ReadMore)])]
           + [OverviewPara(overview[..PreviewChars] + Ellipsis, true, false)]
           + [ReadMoreButton(ReadMore)])
  {
    var item := DuneShown(overview);
    DuneChips(overview);
    assert FullText(item) == overview;
    assert " (" + NotAvailable + ")" == " (N/A)";
    assert YearTruthy(item.year) && YearString(item.year) == NotAvailable;
    assert TitleText(item) == "Dune" + " (N/A)";
    assert GenresText(item).None? && SubtitleText(item).None?;
    assert HeadNodes(item) == [TitleLine("Dune" + " (N/A)")];
  }

  /** From the TMDB record to the collapsed card: the whole pipeline on one example. */
  lemma DuneCard(p: Platform, overview: string)
    requires p.toFixed1(8.1) == "8.1"
    requires |overview| == 300
    ensures Present(FromMovie(NormalizeMovie(p, DuneRecord(overview))), false) ==
      Card(PosterBase + "/x.jpg", "Dune",
           [TitleLine("Dune" + " (N/A)")]
           + [ChipRow([Fact(Star + "8.1"), Fact("Votes: 5000")] + [ToggleChip(ReadMore)])]
           + [OverviewPara(overview[..PreviewChars] + Ellipsis, true, false)]
           + [ReadMoreButton(ReadMore)])
  {
    DuneItem(p, overview);
    DuneShownCard(overview);
  }

  // ---------------------------------------------------------------------
  // The expand/collapse controls of a card with a long overview

  /**
   * The state the two toggle controls of a long overview change: the
   * paragraph's text and its `expanded`/`collapsed` classes, the button's
   * caption and the chip's caption.
   */
  class CardState {
    ghost const item: CardItem
    const fullText: string
    var expanded: bool
    var collapsed: bool
    var overviewText: string
    var buttonCaption: string
    var chipCaption: string

    /** The three elements agree with the card `Present` gives for the current state. */
    ghost predicate Shows(c: Card)
      reads this
    {
      var n := |c.meta|;
      && n >= 3
      && c.meta[n - 1] == ReadMoreButton(buttonCaption)
      && c.meta[n - 2] == OverviewPara(overviewText, collapsed, expanded)
      && c.meta[n - 3].ChipRow?
      && |c.meta[n - 3].chips| >= 1
      && c.meta[n - 3].chips[|c.meta[n - 3].chips| - 1] == ToggleChip(chipCaption)
    }

    ghost predicate Valid()
      reads this
    {
      && fullText == FullText(item)
      && IsLong(fullText)
      && collapsed == !expanded
      && overviewText == OverviewShown(fullText, expanded)
      && buttonCaption == ToggleLabel(expanded)
      && chipCaption == buttonCaption
    }

    /** The state `renderCard` leaves behind for a long overview: collapsed, both captions "Read more". */
    constructor (item: CardItem)
      requires IsLong(FullText(item))
      ensures Valid() && this.item == item && !expanded
      ensures overviewText == Preview(fullText) && buttonCaption == ReadMore
    {
      this.item := item;
      var text := FullText(item);
      fullText := text;
      collapsed := true;
      expanded := false;
      overviewText := text[..PreviewChars] + Ellipsis;
      buttonCaption := ReadMore;
      chipCaption := ReadMore;
    }

    /** `setExpandedState`: sets the classes, the text and both captions from one flag. */
    method SetExpandedState(e: bool)
      requires Valid()
      modifies this
      ensures Valid() && expanded == e
      ensures e ==> overviewText == fullText && buttonCaption == ShowLess
      ensures !e ==> overviewText == Preview(fullText) && buttonCaption == ReadMore
    {
      if e {
        expanded := true;
        collapsed := false;
        overviewText := fullText;
        buttonCaption := ShowLess;
        chipCaption := ShowLess;
      } else {
        expanded := false;
        collapsed := true;
        overviewText := fullText[..PreviewChars] + Ellipsis;
        buttonCaption := ReadMore;
        chipCaption := ReadMore;
      }
    }

    /** The click handler of either control: flip the `expanded` class. */
    method Toggle()
      requires Valid()
      modifies this
      ensures Valid() && expanded == !old(expanded)
      ensures overviewText == (if old(expanded) then Preview(fullText) else fullText)
      ensures buttonCaption == chipCaption == (if old(expanded) then ReadMore else ShowLess)
    {
      var isExpanded := !expanded;
      SetExpandedState(isExpanded);
    }
  }

  /** A consistent state shows what `Present` gives for its record and its expansion state. */
  lemma StateShowsCard(s: CardState)
    requires s.Valid()
    ensures s.Shows(Present(s.item, s.expanded))
  {
    OverviewLayout(s.item, s.expanded);
  }

  /** Two clicks, on either control, restore the text and the captions. */
  method ToggleTwice(s: CardState)
    requires s.Valid()
    modifies s
    ensures s.Valid() && s.expanded == old(s.expanded)
    ensures s.overviewText == old(s.overviewText)
    ensures s.buttonCaption == old(s.buttonCaption) && s.chipCaption == old(s.chipCaption)
  {
    s.Toggle();
    s.Toggle();
  }
}
