/** The client's top-level state machine (`App.tsx`): landing, loading,
    results and error, moved by a search and by a reset, with exactly one
    view rendered per state. The fetch to the edge function is an input. */
module App {
  import opened Wrappers
  import opened Domain
  import ResultsView

  /** `AppState`. */
  datatype Phase = Landing | Loading | Results | Error

  /** The component's three pieces of state. */
  datatype State = State(phase: Phase, events: seq<Event>, errorMessage: string)

  const Initial: State := State(Landing, [], "")

  /** The one message the error view shows. */
  const FailureMessage: string := "Unable to find comedy events. Please try again."

  /** What `response.json()` gave: it threw or yielded `null` (so reading
      `events` throws), or an object whose `events` may be missing. */
  datatype Payload = Unparseable | Json(events: Option<seq<Event>>)

  /** The outcome of the fetch: it threw, or a response with its `ok` flag
      (status 200-299) and its payload. */
  datatype FetchResult = NetworkFailure | Reply(ok: bool, payload: Payload)

  /** The synchronous start of `handleFindComedy`: loading, error cleared,
      events left as they were. */
  function StartSearch(s: State): (r: State)
    ensures r.phase == Loading && r.errorMessage == "" && r.events == s.events
  {
    State(Loading, s.events, "")
  }

  /** The rest of `handleFindComedy`, once the fetch settled: an ok reply
      with a readable payload shows its events (`data.events || []`);
      anything else shows the fixed error message and keeps the old events. */
  function FinishSearch(s: State, f: FetchResult): State {
    match f
    case Reply(true, Json(events)) => State(Results, events.GetOr([]), s.errorMessage)
    case _ => State(Error, s.events, FailureMessage)
  }

  /** A whole search, from any state. */
  function FindComedy(s: State, f: FetchResult): (r: State)
    ensures r.phase == Results || r.phase == Error
    ensures r.phase == Results <==> f.Reply? && f.ok && f.payload.Json?
    ensures r.phase == Results ==> r.events == f.payload.events.GetOr([]) && r.errorMessage == ""
    ensures r.phase == Error ==> r.errorMessage == FailureMessage && r.events == s.events
  {
    FinishSearch(StartSearch(s), f)
  }

  /** `handleReset`: back to landing with nothing kept, from any state. */
  function Reset(s: State): (r: State)
    ensures r == Initial
  {
    State(Landing, [], "")
  }

  /** The four screens of the page. */
  datatype View = LandingView | Spinner | ResultsPage(cards: seq<ResultsView.Card>) | ErrorPage(message: string)

  /** `{state === 'x' && <…/>}` for each of the four states: the list of
      views the page renders. */
  function Rendered(s: State): (views: seq<View>)
    ensures |views| == 1
    ensures views[0].LandingView? <==> s.phase == Landing
    ensures views[0].Spinner? <==> s.phase == Loading
    ensures views[0].ResultsPage? <==> s.phase == Results
    ensures views[0].ErrorPage? <==> s.phase == Error
    ensures views[0].ResultsPage? ==> views[0].cards == ResultsView.Cards(s.events, ResultsView.AsWritten)
    ensures views[0].ErrorPage? ==> views[0].message == s.errorMessage
  {
    (if s.phase == Landing then [LandingView] else [])
    + (if s.phase == Loading then [Spinner] else [])
    + (if s.phase == Results then [ResultsPage(ResultsView.Cards(s.events, ResultsView.AsWritten))] else [])
    + (if s.phase == Error then [ErrorPage(s.errorMessage)] else [])
  }

  // ---------------------------------------------------------------- lemmas

  /** While a search is awaiting the fetch, the spinner is the only view
      rendered, whatever state the search started from. */
  lemma SpinnerWhileSearching(s: State)
    ensures Rendered(StartSearch(s)) == [Spinner]
  {
  }

  /** A search never ends in the loading state, and the error view always
      carries the fixed message while the results view never carries one. */
  lemma SearchSettles(s: State, f: FetchResult)
    ensures FindComedy(s, f).phase != Loading
    ensures (FindComedy(s, f).errorMessage == "") <==> FindComedy(s, f).phase == Results
  {
  }

  /** Resetting twice is resetting once, and after a reset the landing view
      is the only one rendered. */
  lemma ResetSettles(s: State)
    ensures Reset(Reset(s)) == Reset(s)
    ensures Rendered(Reset(s)) == [LandingView]
  {
  }

  /** A search after a reset that fails shows no stale events. */
  lemma FailedSearchAfterResetIsEmpty(s: State, f: FetchResult)
    requires !(f.Reply? && f.ok && f.payload.Json?)
    ensures FindComedy(Reset(s), f) == State(Error, [], FailureMessage)
  {
  }
}
