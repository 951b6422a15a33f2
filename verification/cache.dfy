/** The cache gateway of the edge function: `saveToCache` shapes one row per
    event, `checkCache` turns the fresh rows the store returns for a location
    hash back into events and honours them only when there are exactly as
    many rows as categories. The store itself (its expiry filter, its
    column types) is outside the model: the query's outcome is an input. */
module Cache {
  import opened Wrappers
  import opened Domain

  /** A row of the `comedy_events_cache` table as `saveToCache` writes it. */
  datatype Row = Row(
    locationHash: string,
    category: Category,
    venueName: string,
    eventTitle: string,
    description: string,
    distanceMiles: real,
    rating: real,
    userRatingsTotal: int,
    address: string,
    placeId: string,
    latitude: Option<real>,
    longitude: Option<real>,
    aiReasoning: string)

  /** What the select for a location hash returned: an error or no data,
      or the rows whose expiry lies in the future. */
  datatype CacheQuery = QueryFailed | Fetched(rows: seq<Row>)

  /** The row for one event: `rating || 0`, `userRatingsTotal || 0`,
      `address || ""`, `placeId || ""`, an empty description. */
  function ToRow(hash: string, e: Event): Row {
    Row(hash, e.category, e.venueName, e.eventTitle, "", e.distance,
        e.rating.GetOr(0.0), e.userRatingsTotal.GetOr(0), e.address.GetOr(""),
        e.placeId.GetOr(""), e.latitude, e.longitude, e.aiReasoning)
  }

  /** The rows `saveToCache` inserts: one per event, in order, all under
      the same location hash, every field copied, missing ones replaced by
      0 or "", and an empty description. */
  function RowsFor(hash: string, events: seq<Event>): (rows: seq<Row>)
    ensures |rows| == |events|
    ensures forall i :: 0 <= i < |rows| ==>
              && rows[i].locationHash == hash
              && rows[i].category == events[i].category
              && rows[i].venueName == events[i].venueName
              && rows[i].eventTitle == events[i].eventTitle
              && rows[i].description == ""
              && rows[i].distanceMiles == events[i].distance
              && rows[i].aiReasoning == events[i].aiReasoning
              && rows[i].latitude == events[i].latitude
              && rows[i].longitude == events[i].longitude
    ensures forall i :: 0 <= i < |rows| ==>
              && (events[i].rating.Some? ==> rows[i].rating == events[i].rating.value)
              && (events[i].rating.None? ==> rows[i].rating == 0.0)
              && (events[i].userRatingsTotal.Some? ==> rows[i].userRatingsTotal == events[i].userRatingsTotal.value)
              && (events[i].userRatingsTotal.None? ==> rows[i].userRatingsTotal == 0)
              && (events[i].address.Some? ==> rows[i].address == events[i].address.value)
              && (events[i].address.None? ==> rows[i].address == "")
              && (events[i].placeId.Some? ==> rows[i].placeId == events[i].placeId.value)
              && (events[i].placeId.None? ==> rows[i].placeId == "")
  {
    seq(|events|, i requires 0 <= i < |events| => ToRow(hash, events[i]))
  }

  /** The event `checkCache` rebuilds from a row: a zero rating reads back
      as absent; coordinates are not read back. */
  function ReadRow(row: Row): Event {
    Event(row.category, row.venueName, row.eventTitle, row.distanceMiles, row.aiReasoning,
          Some(row.placeId), Some(row.address),
          if row.rating != 0.0 then Some(row.rating) else None,
          Some(row.userRatingsTotal), None, None)
  }

  /** The acceptance rule of `checkCache`: a failed or empty query is a
      miss; otherwise the rows are honoured exactly when there are as many
      as there are categories. Distinctness of categories is not checked. */
  function Accept(q: CacheQuery): (r: Option<seq<Event>>)
    ensures r.Some? <==> q.Fetched? && |q.rows| == |Categories|
    ensures r.Some? ==> |r.value| == |q.rows|
                        && forall i :: 0 <= i < |r.value| ==> r.value[i] == ReadRow(q.rows[i])
  {
    match q
    case QueryFailed => None
    case Fetched(rows) =>
      if |rows| == 0 then None
      else
        var events := seq(|rows|, i requires 0 <= i < |rows| => ReadRow(rows[i]));
        if |events| == |Categories| then Some(events) else None
  }

  // ---------------------------------------------------------------- lemmas

  /** Writing an event and reading it back keeps what it says and
      normalises what is missing: category, names, distance and reasoning
      survive; id, address and ratings total always read back as present,
      an absent one as "" or 0; a zero or absent rating reads back as
      absent; coordinates are lost. */
  lemma RowRoundTrip(hash: string, e: Event)
    ensures var back := ReadRow(ToRow(hash, e));
            && back.category == e.category
            && back.venueName == e.venueName
            && back.eventTitle == e.eventTitle
            && back.distance == e.distance
            && back.aiReasoning == e.aiReasoning
            && back.placeId == Some(e.placeId.GetOr(""))
            && back.address == Some(e.address.GetOr(""))
            && back.rating.GetOr(0.0) == e.rating.GetOr(0.0)
            && (back.rating.Some? <==> e.rating.GetOr(0.0) != 0.0)
            && back.userRatingsTotal == Some(e.userRatingsTotal.GetOr(0))
            && back.latitude.None? && back.longitude.None?
  {
  }

  /** A second trip through the cache changes nothing more. */
  lemma RoundTripSettles(hash: string, e: Event)
    ensures var once := ReadRow(ToRow(hash, e));
            ReadRow(ToRow(hash, once)) == once
  {
  }

  /** A saved classification is honoured on the next lookup exactly when it
      held four events, and then the lookup yields one event per saved event. */
  lemma SavedEventsAccepted(hash: string, events: seq<Event>)
    ensures Accept(Fetched(RowsFor(hash, events))).Some? <==> |events| == 4
    ensures Accept(Fetched(RowsFor(hash, events))).Some? ==>
              var back := Accept(Fetched(RowsFor(hash, events))).value;
              forall i :: 0 <= i < |back| ==> back[i] == ReadRow(ToRow(hash, events[i]))
  {
  }

  /** The rule counts rows, not categories: two saves of the same two events
      under one hash make a hit whose events repeat a category, so some
      category is missing from it. */
  lemma RowCountIgnoresCategories(hash: string, e1: Event, e2: Event)
    ensures var rows := RowsFor(hash, [e1, e2]) + RowsFor(hash, [e1, e2]);
            && Accept(Fetched(rows)).Some?
            && Accept(Fetched(rows)).value[0].category == Accept(Fetched(rows)).value[2].category
            && exists c :: FirstOfCategory(Accept(Fetched(rows)).value, c).None?
  {
    var r1, r2 := ToRow(hash, e1), ToRow(hash, e2);
    var rows := RowsFor(hash, [e1, e2]) + RowsFor(hash, [e1, e2]);
    assert rows == [r1, r2, r1, r2];
    var back := Accept(Fetched(rows)).value;
    assert back == [ReadRow(r1), ReadRow(r2), ReadRow(r1), ReadRow(r2)];
    var missing := if ComedyWorkshop != e1.category && ComedyWorkshop != e2.category then ComedyWorkshop
                   else if ComedyPodcasts != e1.category && ComedyPodcasts != e2.category then ComedyPodcasts
                   else StandUpComedyClub;
    assert forall k :: 0 <= k < |back| ==> back[k].category != missing;
    assert FirstOfCategory(back, missing).None?;
  }
}
