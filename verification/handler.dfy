/** The request handler of the edge function (the `Deno.serve` callback) as
    a pure decision function. Every awaited step outside the function (the
    body's JSON decoding, the cache select, the keyword searches, the
    completion request) is an input; the response records the status, the
    body and the upstream calls made, in order. */
module Handler {
  import opened Wrappers
  import opened Domain
  import opened PlaceSearch
  import opened Classifier
  import opened Cache

  /** `await req.json()` followed by destructuring: it threw (malformed JSON,
      a `null` body), or it yielded the two fields as JSON values. */
  datatype RequestBody = Unreadable(message: string) | Fields(latitude: JsValue, longitude: JsValue)

  datatype Request = Request(httpMethod: string, body: RequestBody)

  /** The two provider keys read from the environment. */
  datatype Env = Env(googlePlacesKey: Option<string>, openAiKey: Option<string>)

  /** The outcomes of the steps the handler awaits, and the two numeric
      helpers left abstract (location quantisation and distance). */
  datatype Upstream = Upstream(
    locationHash: (real, real) -> string,
    cache: CacheQuery,
    placeSearch: seq<KeywordResponse>,
    classifier: ClassifierReply,
    distance: DistanceFn)

  /** An upstream call the handler made. */
  datatype Call =
    | CacheLookup(hash: string)
    | PlaceSearchCall
    | Classification(places: seq<Place>)
    | CacheSave(rows: seq<Row>)

  /** The JSON body of a response: none (preflight), `{error}`, or `{events, cached}`. */
  datatype Body = NoBody | ErrorBody(error: string) | EventsBody(events: seq<Event>, cached: bool)

  datatype Response = Response(status: int, body: Body, calls: seq<Call>)

  const MissingCoordinates: string := "Missing latitude or longitude"
  const KeysNotConfigured: string :=
    "API keys not configured. Please set GOOGLE_PLACES_API_KEY and OPENAI_API_KEY."
  const NoVenues: string := "No comedy venues found in your area"
  const InternalError: string := "Internal server error"

  /** `!key` is false: the variable is set and non-empty. */
  predicate KeySet(key: Option<string>) {
    key.Some? && key.value != ""
  }

  /** `error.message || "Internal server error"`. */
  function ErrorText(message: string): (t: string)
    ensures t != ""
    ensures message != "" ==> t == message
    ensures message == "" ==> t == InternalError
  {
    if message != "" then message else InternalError
  }

  /** The message of the TypeError `createLocationHash` throws when a
      coordinate is truthy but not a number (wording of the JavaScript engine). */
  function ToFixedFailure(name: string): string {
    name + ".toFixed is not a function"
  }

  /** The request passed every check before the first upstream call: not a
      preflight, a readable body, truthy numeric coordinates, both keys set. */
  ghost predicate Admitted(req: Request, env: Env) {
    && req.httpMethod != "OPTIONS"
    && req.body.Fields?
    && Truthy(req.body.latitude) && Truthy(req.body.longitude)
    && KeySet(env.googlePlacesKey) && KeySet(env.openAiKey)
    && req.body.latitude.Num? && req.body.longitude.Num?
  }

  /** The location hash of an admitted request. */
  ghost function HashOf(req: Request, up: Upstream): string
    requires req.body.Fields? && req.body.latitude.Num? && req.body.longitude.Num?
  {
    up.locationHash(req.body.latitude.n, req.body.longitude.n)
  }

  /** The handler. */
  function Handle(req: Request, env: Env, up: Upstream): (r: Response)
    ensures r.status in {200, 400, 404, 500}
    ensures r.status != 200 ==> r.body.ErrorBody? && r.body.error != ""
    ensures r.status == 200 ==> !r.body.ErrorBody?
    // preflight first, before the body is read
    ensures req.httpMethod == "OPTIONS" ==> r == Response(200, NoBody, [])
    ensures r.body.NoBody? ==> req.httpMethod == "OPTIONS"
    // a body that cannot be read is caught as a 500 with its message
    ensures req.httpMethod != "OPTIONS" && req.body.Unreadable? ==>
              r == Response(500, ErrorBody(ErrorText(req.body.message)), [])
    // then a falsy coordinate (missing, null, 0, "", false)
    ensures req.httpMethod != "OPTIONS" && req.body.Fields?
            && (!Truthy(req.body.latitude) || !Truthy(req.body.longitude))
            ==> r == Response(400, ErrorBody(MissingCoordinates), [])
    ensures r.status == 400 ==> req.body.Fields?
                                && (!Truthy(req.body.latitude) || !Truthy(req.body.longitude))
    // then the keys
    ensures req.httpMethod != "OPTIONS" && req.body.Fields?
            && Truthy(req.body.latitude) && Truthy(req.body.longitude)
            && !(KeySet(env.googlePlacesKey) && KeySet(env.openAiKey))
            ==> r == Response(500, ErrorBody(KeysNotConfigured), [])
    // a truthy coordinate that is not a number makes the hashing throw
    ensures req.httpMethod != "OPTIONS" && req.body.Fields?
            && Truthy(req.body.latitude) && Truthy(req.body.longitude)
            && KeySet(env.googlePlacesKey) && KeySet(env.openAiKey)
            && !(req.body.latitude.Num? && req.body.longitude.Num?)
            ==> r == Response(500, ErrorBody(ToFixedFailure(if req.body.latitude.Num? then "lng" else "lat")), [])
    // nothing upstream is called unless every check passed; the cache comes first
    ensures r.calls != [] <==> Admitted(req, env)
    ensures r.calls != [] ==> r.calls[0] == CacheLookup(HashOf(req, up))
    // a cache hit answers at once, without searching
    ensures Admitted(req, env) && Accept(up.cache).Some? ==>
              r == Response(200, EventsBody(Accept(up.cache).value, true), [CacheLookup(HashOf(req, up))])
    ensures r.body.EventsBody? && r.body.cached ==> |r.calls| == 1
    // otherwise the search runs; no venues at all is a 404
    ensures Admitted(req, env) && Accept(up.cache).None? ==>
              |r.calls| >= 2 && r.calls[1] == PlaceSearchCall
    ensures r.status == 404 <==>
              Admitted(req, env) && Accept(up.cache).None? && SearchPlaces(up.placeSearch) == Done([])
    ensures r.status == 404 ==> r.body == ErrorBody(NoVenues) && |r.calls| == 2
    // a search that threw is caught as a 500 with its message
    ensures Admitted(req, env) && Accept(up.cache).None? && SearchPlaces(up.placeSearch).Threw? ==>
              r == Response(500, ErrorBody(ErrorText(SearchPlaces(up.placeSearch).message)),
                            [CacheLookup(HashOf(req, up)), PlaceSearchCall])
    // places were found: a classifier that threw is a 500, a parsed answer a fresh 200
    ensures Admitted(req, env) && Accept(up.cache).None? && SearchPlaces(up.placeSearch).Done?
            && SearchPlaces(up.placeSearch).value != [] ==>
              var places := SearchPlaces(up.placeSearch).value;
              var searched := [CacheLookup(HashOf(req, up)), PlaceSearchCall, Classification(places)];
              match up.classifier
              case ReplyThrew(m) => r == Response(500, ErrorBody(ErrorText(m)), searched)
              case Parsed(picks) =>
                var events := Classify(places, picks, req.body.latitude.n, req.body.longitude.n, up.distance);
                r == Response(200, EventsBody(events, false), searched + [CacheSave(RowsFor(HashOf(req, up), events))])
    // a fresh answer is classified from the places found and saved first
    ensures r.body.EventsBody? && !r.body.cached ==>
              && Admitted(req, env) && up.classifier.Parsed?
              && SearchPlaces(up.placeSearch).Done?
              && var places := SearchPlaces(up.placeSearch).value;
              && places != []
              && r.body.events == Classify(places, up.classifier.picks,
                                           req.body.latitude.n, req.body.longitude.n, up.distance)
              && r.calls == [CacheLookup(HashOf(req, up)), PlaceSearchCall, Classification(places),
                             CacheSave(RowsFor(HashOf(req, up), r.body.events))]
  {
    if req.httpMethod == "OPTIONS" then Response(200, NoBody, [])
    else match req.body
      case Unreadable(m) => Response(500, ErrorBody(ErrorText(m)), [])
      case Fields(lat, lng) =>
        if !Truthy(lat) || !Truthy(lng) then Response(400, ErrorBody(MissingCoordinates), [])
        else if !KeySet(env.googlePlacesKey) || !KeySet(env.openAiKey) then
          Response(500, ErrorBody(KeysNotConfigured), [])
        else if !lat.Num? then Response(500, ErrorBody(ToFixedFailure("lat")), [])
        else if !lng.Num? then Response(500, ErrorBody(ToFixedFailure("lng")), [])
        else
          var hash := up.locationHash(lat.n, lng.n);
          match Accept(up.cache)
          case Some(cached) => Response(200, EventsBody(cached, true), [CacheLookup(hash)])
          case None =>
            var searched := [CacheLookup(hash), PlaceSearchCall];
            match SearchPlaces(up.placeSearch)
            case Threw(m) => Response(500, ErrorBody(ErrorText(m)), searched)
            case Done(places) =>
              if |places| == 0 then Response(404, ErrorBody(NoVenues), searched)
              else match up.classifier
                case ReplyThrew(m) =>
                  Response(500, ErrorBody(ErrorText(m)), searched + [Classification(places)])
                case Parsed(picks) =>
                  var events := Classify(places, picks, lat.n, lng.n, up.distance);
                  Response(200, EventsBody(events, false),
                           searched + [Classification(places), CacheSave(RowsFor(hash, events))])
  }
}
