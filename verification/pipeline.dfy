/** Properties that span the edge function and the client: what the results
    page shows for a response, that a cached answer renders as the fresh
    one did, and that each shown venue is one the search found. */
module Pipeline {
  import opened Wrappers
  import opened Domain
  import opened PlaceSearch
  import opened Classifier
  import opened Cache
  import opened Handler
  import opened ResultsView
  import App

  /** How the client sees a handler response: `ok` for a 2xx status; a
      preflight's empty body cannot be read as JSON; an error body has no
      `events` field. */
  function Deliver(r: Response): App.FetchResult {
    App.Reply(200 <= r.status < 300,
              match r.body
              case NoBody => App.Unparseable
              case ErrorBody(_) => App.Json(None)
              case EventsBody(events, _) => App.Json(Some(events)))
  }

  /** The events as they come back from the cache after being saved. */
  function ReadBack(hash: string, events: seq<Event>): (back: seq<Event>)
    ensures |back| == |events|
    ensures forall k :: 0 <= k < |back| ==> back[k] == ReadRow(ToRow(hash, events[k]))
  {
    seq(|events|, k requires 0 <= k < |events| => ReadRow(ToRow(hash, events[k])))
  }

  // ---------------------------------------------------------------- lemmas

  /** A search through the handler ends on the results page exactly when
      the handler answered with events, and then shows those events;
      every other answer ends on the error page with the fixed message. */
  lemma {:induction false} SearchOutcome(s: App.State, req: Request, env: Env, up: Upstream)
    requires req.httpMethod == "POST"
    ensures var r := Handle(req, env, up);
            var after := App.FindComedy(s, Deliver(r));
            && (after.phase == App.Results <==> r.body.EventsBody?)
            && (r.body.EventsBody? ==> after.events == r.body.events)
            && (r.status != 200 ==> after.phase == App.Error
                                    && after.errorMessage == App.FailureMessage)
  {
    var r := Handle(req, env, up);
    assert r.body.NoBody? ==> req.httpMethod == "OPTIONS";
  }

  /** With the corrected rating block, a cached event renders exactly as
      the event that was saved; as written, the two differ at most by stray
      zeros. */
  lemma CachedViewMatchesFresh(hash: string, e: Event)
    ensures ViewOf(ReadRow(ToRow(hash, e)), Corrected) == ViewOf(e, Corrected)
    ensures var written, back := ViewOf(e, AsWritten), ViewOf(ReadRow(ToRow(hash, e)), AsWritten);
            back.(rating := WithoutStrayZeros(back.rating)) == written.(rating := WithoutStrayZeros(written.rating))
  {
    var back := ReadRow(ToRow(hash, e));
    assert Rating(back) == Rating(e);
  }

  lemma {:induction false} FirstOfCategoryAligned(a: seq<Event>, b: seq<Event>, c: Category, block: RatingBlock)
    requires |a| == |b|
    requires forall k :: 0 <= k < |a| ==>
               a[k].category == b[k].category && ViewOf(a[k], block) == ViewOf(b[k], block)
    ensures FirstOfCategory(a, c).Some? <==> FirstOfCategory(b, c).Some?
    ensures FirstOfCategory(a, c).Some? ==>
              ViewOf(FirstOfCategory(a, c).value, block) == ViewOf(FirstOfCategory(b, c).value, block)
    decreases |a|
  {
    if |a| > 0 && a[0].category != c {
      FirstOfCategoryAligned(a[1..], b[1..], c, block);
    }
  }

  /** With the corrected rating block, the results page for events served
      from the cache is the page that was shown for them fresh; as written,
      the two pages agree once their stray zeros are removed. */
  lemma CachedPageMatchesFresh(hash: string, events: seq<Event>)
    ensures Cards(ReadBack(hash, events), Corrected) == Cards(events, Corrected)
    ensures CleanedPage(Cards(ReadBack(hash, events), AsWritten)) == CleanedPage(Cards(events, AsWritten))
  {
    var back := ReadBack(hash, events);
    forall k | 0 <= k < |events| ensures ViewOf(back[k], Corrected) == ViewOf(events[k], Corrected) {
      CachedViewMatchesFresh(hash, events[k]);
    }
    forall i | 0 <= i < |Categories|
      ensures CardFor(back, Categories[i], Corrected) == CardFor(events, Categories[i], Corrected)
    {
      FirstOfCategoryAligned(back, events, Categories[i], Corrected);
    }
    CleanedPageIsCorrected(back);
    CleanedPageIsCorrected(events);
  }

  /** Finding, as written: for a place with a rating but no ratings total,
      the fresh card shows the rating alone, while the same event read back
      from the cache (which stored the total as 0) prints a stray "0". */
  lemma StrayZeroAfterCacheRoundTrip(hash: string, e: Event)
    requires e.rating.Some? && e.rating.value > 0.0 && e.userRatingsTotal.None?
    ensures RatingAsWritten(e) == Stars(e.rating.value, NoCount)
    ensures RatingAsWritten(ReadRow(ToRow(hash, e))) == Stars(e.rating.value, CountStrayZero)
    ensures Rating(ReadRow(ToRow(hash, e))) == Rating(e)
    ensures ViewOf(ReadRow(ToRow(hash, e)), AsWritten) != ViewOf(e, AsWritten)
  {
  }

  /** A fresh answer of four events, saved and then returned by the next
      lookup for the same request, is served from the cache without a
      search. With the corrected rating block it renders the same page; as
      written, the pages agree up to stray zeros, which
      `StrayZeroAfterCacheRoundTrip` shows can differ. */
  lemma SecondRequestServedFromCache(req: Request, env: Env, up1: Upstream, up2: Upstream)
    requires var r := Handle(req, env, up1);
             r.body.EventsBody? && !r.body.cached && |r.body.events| == 4
    requires up2.locationHash == up1.locationHash
    requires up2.cache == Fetched(Handle(req, env, up1).calls[3].rows)
    ensures var r1 := Handle(req, env, up1);
            var r2 := Handle(req, env, up2);
            && r2.status == 200 && r2.body.EventsBody? && r2.body.cached
            && |r2.calls| == 1
            && Cards(r2.body.events, Corrected) == Cards(r1.body.events, Corrected)
            && CleanedPage(Cards(r2.body.events, AsWritten)) == CleanedPage(Cards(r1.body.events, AsWritten))
  {
    var r1 := Handle(req, env, up1);
    var hash := HashOf(req, up1);
    SavedEventsAccepted(hash, r1.body.events);
    assert Accept(up2.cache).value == ReadBack(hash, r1.body.events);
    CachedPageMatchesFresh(hash, r1.body.events);
  }

  /** On a fresh answer, a category's card shows a venue exactly when the
      model's answer for it named a place the search found. */
  lemma {:induction false} CardShownIffUsableAnswer(req: Request, env: Env, up: Upstream, i: nat)
    requires var r := Handle(req, env, up); r.body.EventsBody? && !r.body.cached
    requires i < |Categories|
    ensures var r := Handle(req, env, up);
            var places := SearchPlaces(up.placeSearch).value;
            Cards(r.body.events, AsWritten)[i].body.Venue? <==>
              Chosen(up.classifier.picks, Categories[i], PlaceIndex(places)).Some?
  {
    var r := Handle(req, env, up);
    var events := r.body.events;
    var c := Categories[i];
    if Cards(events, AsWritten)[i].body.Venue? {
      var k :| 0 <= k < |events| && events[k].category == c;
      assert events[k] in events;
    }
  }

  /** On a fresh answer, every event presents the one place of the search
      result that carries its id, with the reasoning given for its category. */
  lemma {:induction false} EventsPresentFoundPlaces(req: Request, env: Env, up: Upstream, k: nat)
    requires var r := Handle(req, env, up); r.body.EventsBody? && !r.body.cached
    requires k < |Handle(req, env, up).body.events|
    ensures var e := Handle(req, env, up).body.events[k];
            var places := SearchPlaces(up.placeSearch).value;
            exists j :: 0 <= j < |places|
                        && e.placeId == Some(places[j].placeId)
                        && Presents(e, places[j], req.body.latitude.n, req.body.longitude.n, up.distance)
                        && e.category in up.classifier.picks && up.classifier.picks[e.category].Some?
                        && e.aiReasoning == up.classifier.picks[e.category].value.reasoning
                        && forall j' :: 0 <= j' < |places| && places[j'].placeId == places[j].placeId ==> j' == j
  {
    var r := Handle(req, env, up);
    var places := SearchPlaces(up.placeSearch).value;
    var e := r.body.events[k];
    assert e in r.body.events;
    var index := PlaceIndex(places);
    var id := e.placeId.value;
    assert id in index;
    var j :| 0 <= j < |places| && places[j] == index[id];
    PlaceIndexOfDistinct(places, j);
  }
}
