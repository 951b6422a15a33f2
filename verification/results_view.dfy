/** The results page of the client (`Results.tsx`): four cards, one per
    category in fixed order, each showing the first event of its category or
    a "No event found tonight" placeholder, with a maps link built from the
    place id. Markup, icons and number formatting are not modelled; a card
    is described by which parts it shows and with what values. */
module ResultsView {
  import opened Wrappers
  import opened Domain

  /** The prefix of every maps link. */
  const MapsPrefix: string := "https://www.google.com/maps/place/?q=place_id:"

  /** `getGoogleMapsUrl`: no link for an absent or empty id, otherwise the
      prefix followed by the id. */
  function MapsUrl(placeId: Option<string>): (r: Option<string>)
    ensures r.None? <==> placeId.None? || placeId.value == ""
    ensures r.Some? ==> |r.value| > |MapsPrefix|
                        && r.value[..|MapsPrefix|] == MapsPrefix
                        && r.value[|MapsPrefix|..] == placeId.value
  {
    if placeId.None? || placeId.value == "" then None
    else Some(MapsPrefix + placeId.value)
  }

  /** Reads the place id back out of a maps link; the partner of `MapsUrl`. */
  function PlaceIdOfUrl(url: string): Option<string> {
    if |url| > |MapsPrefix| && url[..|MapsPrefix|] == MapsPrefix
    then Some(url[|MapsPrefix|..])
    else None
  }

  /** The ratings-total part of the rating block: nothing, a stray "0"
      (React prints a number that a `&&` guard evaluates to), or "(n)". */
  datatype CountView = NoCount | CountStrayZero | Count(n: int)

  /** The rating part of a card: nothing, a stray "0", or stars with the
      rating and its count part. */
  datatype RatingView = NoRating | RatingStrayZero | Stars(rating: real, count: CountView)

  /** What a card with an event shows. */
  datatype VenueView = VenueView(
    venueName: string,
    eventTitle: Option<string>,
    distance: real,
    rating: RatingView,
    reasoning: string,
    mapsLink: Option<string>)

  datatype CardBody = NoEventFound | Venue(view: VenueView)

  /** A card: its heading (the category label) and its body. */
  datatype Card = Card(heading: string, body: CardBody)

  /** The rating block as written: `rating && rating > 0 && (…)` with
      `userRatingsTotal && (…)` inside; a guard that evaluates to the number
      0 is rendered as the text "0". */
  function RatingAsWritten(e: Event): (r: RatingView)
    ensures r.RatingStrayZero? <==> e.rating == Some(0.0)
    ensures r.Stars? <==> e.rating.Some? && e.rating.value > 0.0
    ensures r.Stars? ==> r.rating == e.rating.value
    ensures r.Stars? ==> (r.count.NoCount? <==> e.userRatingsTotal.None?)
                         && (r.count.CountStrayZero? <==> e.userRatingsTotal == Some(0))
                         && (r.count.Count? ==> Some(r.count.n) == e.userRatingsTotal)
  {
    match e.rating
    case None => NoRating
    case Some(x) =>
      if x == 0.0 then RatingStrayZero
      else if x < 0.0 then NoRating
      else Stars(x, match e.userRatingsTotal
                    case None => NoCount
                    case Some(n) => if n == 0 then CountStrayZero else Count(n))
  }

  /** The rating block as evidently intended: shown only for a rating above
      zero, with the count only when it is non-zero; never a stray "0". */
  function Rating(e: Event): (r: RatingView)
    ensures !r.RatingStrayZero?
    ensures r.Stars? <==> e.rating.Some? && e.rating.value > 0.0
    ensures r.Stars? ==> r.rating == e.rating.value && !r.count.CountStrayZero?
    ensures r.Stars? ==> (r.count.Count? <==> e.userRatingsTotal.GetOr(0) != 0)
    ensures r.Stars? && r.count.Count? ==> Some(r.count.n) == e.userRatingsTotal
  {
    if e.rating.Some? && e.rating.value > 0.0 then
      Stars(e.rating.value,
            if e.userRatingsTotal.GetOr(0) != 0 then Count(e.userRatingsTotal.value) else NoCount)
    else NoRating
  }

  /** Removes the stray zeros from a rating view. */
  function WithoutStrayZeros(v: RatingView): RatingView {
    match v
    case RatingStrayZero => NoRating
    case Stars(x, CountStrayZero) => Stars(x, NoCount)
    case _ => v
  }

  /** Which rating block a card renders: the one in the page as written, or
      the corrected one. */
  datatype RatingBlock = AsWritten | Corrected

  /** What a card shows for an event: name; title only when non-empty;
      distance; the rating block; reasoning; a maps link only when the
      place id is non-empty, pointing at `MapsUrl` (the `'#'` fallback). */
  function ViewOf(e: Event, block: RatingBlock): (v: VenueView)
    ensures v.venueName == e.venueName && v.reasoning == e.aiReasoning && v.distance == e.distance
    ensures v.eventTitle.Some? <==> e.eventTitle != ""
    ensures v.eventTitle.Some? ==> v.eventTitle.value == e.eventTitle
    ensures v.mapsLink.Some? <==> e.placeId.Some? && e.placeId.value != ""
    ensures v.mapsLink.Some? ==> v.mapsLink.value != "#"
                                 && PlaceIdOfUrl(v.mapsLink.value) == e.placeId
    ensures block == AsWritten ==> v.rating == RatingAsWritten(e)
    ensures block == Corrected ==> v.rating == Rating(e)
    ensures WithoutStrayZeros(v.rating) == Rating(e)
  {
    var link := if e.placeId.Some? && e.placeId.value != ""
                then Some(MapsUrl(e.placeId).GetOr("#")) else None;
    MapsUrlRoundTrip(e.placeId);
    RatingDiffersOnlyByStrayZeros(e);
    VenueView(e.venueName, if e.eventTitle != "" then Some(e.eventTitle) else None,
              e.distance, if block == AsWritten then RatingAsWritten(e) else Rating(e),
              e.aiReasoning, link)
  }

  /** The card for one category: `getEventForCategory` picks the first event
      of the category. */
  function CardFor(events: seq<Event>, c: Category, block: RatingBlock): Card {
    Card(Label(c), match FirstOfCategory(events, c)
                   case None => NoEventFound
                   case Some(e) => Venue(ViewOf(e, block)))
  }

  /** `CATEGORIES.map(…)`: exactly four cards, headed by the categories in
      fixed order, whatever the events are; a card shows details exactly
      when some event has its category, and then those of the first such. */
  function Cards(events: seq<Event>, block: RatingBlock): (cards: seq<Card>)
    ensures |cards| == |Categories|
    ensures forall i :: 0 <= i < |cards| ==> cards[i].heading == Label(Categories[i])
    ensures forall i :: 0 <= i < |cards| ==>
              (cards[i].body.NoEventFound? <==>
               forall k :: 0 <= k < |events| ==> events[k].category != Categories[i])
    ensures forall i :: 0 <= i < |cards| && cards[i].body.Venue? ==>
              exists k :: 0 <= k < |events| && events[k].category == Categories[i]
                          && cards[i].body.view == ViewOf(events[k], block)
                          && forall j :: 0 <= j < k ==> events[j].category != Categories[i]
  {
    seq(|Categories|, i requires 0 <= i < |Categories| => CardFor(events, Categories[i], block))
  }

  /** A card with the stray zeros of its rating block removed. */
  function Cleaned(card: Card): Card {
    match card.body
    case NoEventFound => card
    case Venue(v) => Card(card.heading, Venue(v.(rating := WithoutStrayZeros(v.rating))))
  }

  /** A page with the stray zeros of every card removed. */
  function CleanedPage(cards: seq<Card>): seq<Card> {
    seq(|cards|, i requires 0 <= i < |cards| => Cleaned(cards[i]))
  }

  // ---------------------------------------------------------------- lemmas

  /** `PlaceIdOfUrl` undoes `MapsUrl` whenever a link is built. */
  lemma MapsUrlRoundTrip(placeId: Option<string>)
    ensures MapsUrl(placeId).Some? ==> PlaceIdOfUrl(MapsUrl(placeId).value) == placeId
  {
  }

  /** Every link `PlaceIdOfUrl` accepts is the maps link of the id it reads. */
  lemma UrlOfPlaceIdRoundTrip(url: string)
    requires PlaceIdOfUrl(url).Some?
    ensures MapsUrl(PlaceIdOfUrl(url)) == Some(url)
  {
    assert url == url[..|MapsPrefix|] + url[|MapsPrefix|..];
  }

  /** The as-written rating block and the intended one differ only by the
      stray zeros. */
  lemma RatingDiffersOnlyByStrayZeros(e: Event)
    ensures WithoutStrayZeros(RatingAsWritten(e)) == Rating(e)
  {
  }

  /** The page as written is the corrected page plus stray zeros: removing
      them from every card gives exactly the corrected page. */
  lemma CleanedPageIsCorrected(events: seq<Event>)
    ensures CleanedPage(Cards(events, AsWritten)) == Cards(events, Corrected)
  {
    var written, corrected := Cards(events, AsWritten), Cards(events, Corrected);
    forall i | 0 <= i < |corrected| ensures Cleaned(written[i]) == corrected[i] {
      match FirstOfCategory(events, Categories[i])
      case None =>
      case Some(e) => RatingDiffersOnlyByStrayZeros(e);
    }
  }

  /** A rating of exactly 0 makes the as-written card print a bare "0". */
  lemma ZeroRatingPrintsZero(e: Event)
    requires e.rating == Some(0.0)
    ensures RatingAsWritten(e) == RatingStrayZero
    ensures Rating(e) == NoRating
  {
  }
}
