/** src/Components/ContentCard.jsx: one poster card of a list. It decides whether the item
    is a movie or a tv show, guards the click, picks the title and date to show, names at
    most two genres and assembles its class names. */
module ContentCard {
  import opened Js
  import opened Payloads
  import TmdbService
  import Content
  import DetailsCard

  /** The `let contentType` chain: an explicit `media_type` wins; otherwise the name/date
      fields decide, with "movie" as the default. */
  function ContentType(item: Item): (r: string)
    ensures item.mediaType.Truthy() ==> r == item.mediaType.s
    ensures !item.mediaType.Truthy() ==>
      (r == "tv" <==> item.firstAirDate.Truthy() && !item.releaseDate.Truthy())
    ensures !item.mediaType.Truthy() ==> r == "tv" || r == "movie"
    ensures r != ""
  {
    if item.mediaType.Truthy() then item.mediaType.s
    else if item.name.Truthy() && item.firstAirDate.Truthy() && !item.title.Truthy() && !item.releaseDate.Truthy() then "tv"
    else if item.title.Truthy() && item.releaseDate.Truthy() && !item.name.Truthy() && !item.firstAirDate.Truthy() then "movie"
    else if item.firstAirDate.Truthy() && !item.releaseDate.Truthy() then "tv"
    else if item.releaseDate.Truthy() && !item.firstAirDate.Truthy() then "movie"
    else "movie"
  }

  /** The detail modal's classification of a similar item is the card's. */
  lemma SimilarItemKindIsContentType(item: Item)
    ensures DetailsCard.SimilarItemKind(item) == ContentType(item)
  {
  }

  /** Content's `isTv` guess on click accepts every item the card calls "tv", and accepts
      more: exactly the items with a `first_air_date` key (even null or empty) that the
      card still calls something else, such as an item carrying both dates. */
  lemma IsTvItemAgainstContentType(item: Item)
    ensures ContentType(item) == "tv" ==> Content.IsTvItem(item)
    ensures Content.IsTvItem(item) && ContentType(item) != "tv" <==>
      item.firstAirDate.Defined() && ContentType(item) != "tv"
  {
  }

  /** A concrete item on which the two classifiers disagree. */
  lemma ClassifiersDisagreeOnBothDates(id: int)
    ensures var item := Item(Number(id), Str("A"), Undef, Str("2020-01-01"), Str("2021-01-01"),
                             Undef, Undef, None, Undef);
      Content.IsTvItem(item) && ContentType(item) == "movie"
  {
  }

  /** `onClick(id, contentType)` is made only when there is a callback and the id is truthy
      and is neither the string "undefined" nor "null": the same values the service's id
      check refuses first. */
  function Click(item: Item, hasOnClick: bool): (r: Option<(RawId, string)>)
    ensures r.Some? <==> hasOnClick && !TmdbService.IsInvalidIdValue(item.id)
    ensures r.Some? ==> r.value == (item.id, ContentType(item))
  {
    if hasOnClick && item.id.Truthy() && item.id != Text("undefined") && item.id != Text("null")
    then Some((item.id, ContentType(item)))
    else None
  }

  /** `title || name`: the movie title when truthy, else the tv name. */
  function DisplayTitle(item: Item): (r: JsStr)
    ensures item.title.Truthy() ==> r == item.title
    ensures !item.title.Truthy() ==> r == item.name
  {
    Or(item.title, item.name)
  }

  /** `release_date || first_air_date` */
  function DisplayDate(item: Item): (r: JsStr)
    ensures item.releaseDate.Truthy() ==> r == item.releaseDate
    ensures !item.releaseDate.Truthy() ==> r == item.firstAirDate
  {
    Or(item.releaseDate, item.firstAirDate)
  }

  /** The badge: "TV" for a tv item, "Movie" for anything else. */
  function TypeBadge(item: Item): (r: string)
    ensures r == "TV" <==> ContentType(item) == "tv"
    ensures r == "TV" || r == "Movie"
  {
    if ContentType(item) == "tv" then "TV" else "Movie"
  }

  const GenreChipCap := 2

  /** The genre chips: with `showGenres`, the first two `genre_ids` in order, each named by
      `tmdbUtils.getGenreName` in the card's kind; without it, none. */
  function GenreChips(item: Item, showGenres: bool): (r: seq<string>)
    ensures !showGenres ==> r == []
    ensures showGenres ==>
      var ids := item.genreIds.GetOr([]);
      && |r| == Min(GenreChipCap, |ids|)
      && forall i :: 0 <= i < |r| ==> r[i] == TmdbService.GetGenreName(ids[i], ContentType(item))
  {
    var ids := item.genreIds.GetOr([]);
    if !showGenres || |ids| == 0 then []
    else
      var shown := Take(ids, GenreChipCap);
      seq(|shown|, i requires 0 <= i < |shown| => TmdbService.GetGenreName(shown[i], ContentType(item)))
  }

  /** Joining the non-empty ones of three strings whose first two are non-empty. */
  lemma JoinNonEmptyOfThree(a: string, b: string, c: string, sep: string)
    requires a != "" && b != ""
    ensures Join(NonEmpty([a, b, c]), sep) == if c == "" then a + sep + b else a + sep + b + sep + c
  {
    var parts := [a, b, c];
    assert parts[1..] == [b, c];
    assert parts[1..][1..] == [c];
    if c == "" {
      assert NonEmpty([c]) == [];
      assert NonEmpty(parts) == [a, b];
      assert [a, b][1..] == [b];
    } else {
      assert NonEmpty(parts) == parts;
    }
  }

  /** `["content-card", "content-card--" + size, className].filter(Boolean).join(" ")`:
      the base class, the size modifier, and the caller's class only when non-empty. */
  function CardClasses(size: string := "medium", className: string := ""): (r: string)
    ensures className == "" ==> r == "content-card content-card--" + size
    ensures className != "" ==> r == "content-card content-card--" + size + " " + className
  {
    var base := "content-card";
    var modifier := "content-card--" + size;
    JoinNonEmptyOfThree(base, modifier, className, " ");
    Join(NonEmpty([base, modifier, className]), " ")
  }
}
