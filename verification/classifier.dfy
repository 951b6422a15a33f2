/** What `classifyWithAI` does once the language model's reply has been
    decoded: walk the four categories in order and turn each usable answer
    into an event for the place it names. Prompt construction, the
    completion request and `JSON.parse` are outside the model; their
    outcome is the `ClassifierReply` given as input. */
module Classifier {
  import opened Wrappers
  import opened Domain
  import opened PlaceSearch

  /** One category's answer, `{"place_id": …, "reasoning": …}`. A missing,
      empty or non-string `place_id` is represented by "". */
  datatype Pick = Pick(placeId: string, reasoning: string)

  /** The decoded reply, per category: key absent, `null` (None), or an answer. */
  type Picks = map<Category, Option<Pick>>

  /** The completion request, reading its reply, or decoding it threw;
      or it decoded to per-category answers. */
  datatype ClassifierReply = ReplyThrew(message: string) | Parsed(picks: Picks)

  /** The great-circle distance function, taken as given:
      (user latitude, user longitude, place latitude, place longitude) to miles. */
  type DistanceFn = (real, real, real, real) -> real

  /** `new Map(places.map(p => [p.place_id, p]))`: a later place with the same
      id replaces an earlier one. */
  function PlaceIndex(places: seq<Place>): (index: map<string, Place>)
    ensures index.Keys == Ids(places)
    ensures forall id | id in index :: index[id].placeId == id && index[id] in places
  {
    if |places| == 0 then map[]
    else
      var init := places[..|places| - 1];
      var last := places[|places| - 1];
      IdsSnoc(init, last);
      assert places == init + [last];
      PlaceIndex(init)[last.placeId := last]
  }

  /** The answer for `c`, when it is usable: the key is present, not null,
      has a non-empty `place_id`, and that id is a known place. */
  function Chosen(picks: Picks, c: Category, index: map<string, Place>): Option<Pick> {
    if c in picks && picks[c].Some? && picks[c].value.placeId != "" && picks[c].value.placeId in index
    then picks[c]
    else None
  }

  /** The event built for category `c` from the answer and the place it names. */
  function MakeEvent(c: Category, pick: Pick, place: Place,
                     userLat: real, userLng: real, distance: DistanceFn): Event
  {
    Event(c, place.name, "", distance(userLat, userLng, place.lat, place.lng), pick.reasoning,
          Some(place.placeId), place.vicinity, place.rating, place.userRatingsTotal,
          Some(place.lat), Some(place.lng))
  }

  /** `e` presents `place`: its name, address, rating, ratings total,
      coordinates, id and the distance to it, with an empty event title. */
  ghost predicate Presents(e: Event, place: Place, userLat: real, userLng: real, distance: DistanceFn) {
    && e.venueName == place.name
    && e.eventTitle == ""
    && e.placeId == Some(place.placeId)
    && e.address == place.vicinity
    && e.rating == place.rating
    && e.userRatingsTotal == place.userRatingsTotal
    && e.latitude == Some(place.lat)
    && e.longitude == Some(place.lng)
    && e.distance == distance(userLat, userLng, place.lat, place.lng)
  }

  /** `e` is backed by the model's answer for its own category: the answer
      names a known place, `e` presents that place and carries the answer's
      reasoning. */
  ghost predicate Justified(e: Event, picks: Picks, index: map<string, Place>,
                            userLat: real, userLng: real, distance: DistanceFn)
  {
    && e.category in picks && picks[e.category].Some?
    && var pick := picks[e.category].value;
    && pick.placeId != "" && pick.placeId in index
    && e.aiReasoning == pick.reasoning
    && Presents(e, index[pick.placeId], userLat, userLng, distance)
  }

  /** Categories listed in strictly increasing display order. */
  ghost predicate Ascending(cats: seq<Category>) {
    forall i, j :: 0 <= i < j < |cats| ==> Rank(cats[i]) < Rank(cats[j])
  }

  /** Events whose categories are in strictly increasing display order. */
  ghost predicate EventsAscending(events: seq<Event>) {
    forall i, j :: 0 <= i < j < |events| ==> Rank(events[i].category) < Rank(events[j].category)
  }

  /** The loop `for (const category of cats)`: one event per category whose
      answer is usable, in the order of `cats`. */
  function ClassifyFrom(cats: seq<Category>, picks: Picks, index: map<string, Place>,
                        userLat: real, userLng: real, distance: DistanceFn): seq<Event>
  {
    if |cats| == 0 then []
    else
      var rest := ClassifyFrom(cats[1..], picks, index, userLat, userLng, distance);
      match Chosen(picks, cats[0], index)
      case None => rest
      case Some(pick) =>
        [MakeEvent(cats[0], pick, index[pick.placeId], userLat, userLng, distance)] + rest
  }

  /** The loop emits at most one event per listed category; a category gets
      one exactly when its answer is usable; every event is backed by its
      category's answer; listed in display order, the events are too. */
  lemma {:induction false} ClassifyFromSpec(cats: seq<Category>, picks: Picks, index: map<string, Place>,
                                            userLat: real, userLng: real, distance: DistanceFn)
    ensures var r := ClassifyFrom(cats, picks, index, userLat, userLng, distance);
            && |r| <= |cats|
            && (forall e | e in r :: e.category in cats)
            && (forall e | e in r :: Justified(e, picks, index, userLat, userLng, distance))
            && (forall c | c in cats ::
                  (exists e :: e in r && e.category == c) <==> Chosen(picks, c, index).Some?)
            && (Ascending(cats) ==> EventsAscending(r))
    decreases |cats|
  {
    if |cats| > 0 {
      var c := cats[0];
      var rest := ClassifyFrom(cats[1..], picks, index, userLat, userLng, distance);
      ClassifyFromSpec(cats[1..], picks, index, userLat, userLng, distance);
      assert forall d | d in cats :: d == c || d in cats[1..];
      match Chosen(picks, c, index)
      case None =>
      case Some(pick) =>
        var e := MakeEvent(c, pick, index[pick.placeId], userLat, userLng, distance);
        var r := [e] + rest;
        assert forall x | x in r :: x == e || x in rest;
        PrependKeepsAscending(cats, e, rest);
    }
  }

  /** The post-parse part of `classifyWithAI`: at most one event per
      category, in the order of `Categories`, each backed by the answer for
      its category and naming one of the given places. */
  function Classify(places: seq<Place>, picks: Picks,
                    userLat: real, userLng: real, distance: DistanceFn): (r: seq<Event>)
    ensures |r| <= |Categories|
    ensures EventsAscending(r)
    ensures forall e | e in r :: e.placeId.Some? && e.placeId.value in Ids(places)
    ensures forall e | e in r :: Justified(e, picks, PlaceIndex(places), userLat, userLng, distance)
    ensures forall c :: (exists e :: e in r && e.category == c) <==>
                        Chosen(picks, c, PlaceIndex(places)).Some?
  {
    assert Ascending(Categories);
    var r := ClassifyFrom(Categories, picks, PlaceIndex(places), userLat, userLng, distance);
    ClassifyFromSpec(Categories, picks, PlaceIndex(places), userLat, userLng, distance);
    assert forall c :: c in Categories by {
      forall c ensures c in Categories { assert Categories[Rank(c)] == c; }
    }
    r
  }

  // ---------------------------------------------------------------- lemmas

  lemma PrependKeepsAscending(cats: seq<Category>, e: Event, rest: seq<Event>)
    requires |cats| > 0 && e.category == cats[0]
    requires forall x | x in rest :: x.category in cats[1..]
    requires Ascending(cats[1..]) ==> EventsAscending(rest)
    ensures Ascending(cats) ==> EventsAscending([e] + rest)
  {
    if Ascending(cats) {
      assert Ascending(cats[1..]);
      var r := [e] + rest;
      forall i, j | 0 <= i < j < |r| ensures Rank(r[i].category) < Rank(r[j].category) {
        if i == 0 {
          assert r[j] in rest;
          var k :| 0 <= k < |cats[1..]| && cats[1..][k] == r[j].category;
          assert cats[k + 1] == r[j].category;
        } else {
          assert r[i] == rest[i - 1] && r[j] == rest[j - 1];
        }
      }
    }
  }

  /** No two events of a classification share a category. */
  lemma OneEventPerCategory(places: seq<Place>, picks: Picks,
                            userLat: real, userLng: real, distance: DistanceFn)
    ensures var r := Classify(places, picks, userLat, userLng, distance);
            forall i, j :: 0 <= i < j < |r| ==> r[i].category != r[j].category
  {
  }

  /** The place index returns, for an id, the last place carrying it. */
  lemma {:induction false} PlaceIndexLast(places: seq<Place>, i: nat)
    requires i < |places|
    requires forall j :: i < j < |places| ==> places[j].placeId != places[i].placeId
    ensures PlaceIndex(places)[places[i].placeId] == places[i]
    decreases |places|
  {
    var n := |places| - 1;
    if i < n {
      var init := places[..n];
      assert init[i] == places[i];
      PlaceIndexLast(init, i);
    }
  }

  /** For a de-duplicated list, as the place search produces, the index
      returns the one place that carries the id. */
  lemma PlaceIndexOfDistinct(places: seq<Place>, i: nat)
    requires DistinctIds(places) && i < |places|
    ensures PlaceIndex(places)[places[i].placeId] == places[i]
  {
    PlaceIndexLast(places, i);
  }

  /** An answer with an empty id, a null entry, a missing key or an unknown
      id yields no event for that category. */
  lemma UnusableAnswerSkipped(places: seq<Place>, picks: Picks, c: Category,
                              userLat: real, userLng: real, distance: DistanceFn)
    requires c !in picks || picks[c].None? || picks[c].value.placeId == ""
             || picks[c].value.placeId !in Ids(places)
    ensures forall e | e in Classify(places, picks, userLat, userLng, distance) :: e.category != c
  {
  }
}
