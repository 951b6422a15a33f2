# Comedy finder: a Dafny model of its decision rules

The system finds stand-up comedy venues near a coordinate. A serverless edge
function (`find-comedy`) runs four keyword searches against a places API and
merges the results. It asks a language model to pick one venue for each of
four fixed categories, caches the picks per quantised location, and answers
with the events. A React client moves between a landing screen, a spinner,
a results page and an error screen. The results page shows one card per
category.

This project models the deterministic rules inside that integration code as
pure Dafny functions over sequences and maps. Every external step becomes an
input: the HTTP fetches, the cache store, the language model and the
floating-point helpers.

| module | file | models |
|---|---|---|
| `Wrappers` | wrappers.dfy | `Option`, and `Attempt` for an awaited step that may throw |
| `Domain` | domain.dfy | categories, places, events, JavaScript truthiness, `events.find` by category |
| `PlaceSearch` | place_search.dfy | `queryGooglePlaces`: the merge loop and its first-occurrence specification |
| `Classifier` | classifier.dfy | `classifyWithAI` after the reply is decoded |
| `Cache` | cache.dfy | `saveToCache` row shaping, `checkCache` read-back and acceptance |
| `Handler` | handler.dfy | the `Deno.serve` callback as a decision function |
| `ResultsView` | results_view.dfy | `Results.tsx`: cards, per-category lookup, maps link |
| `App` | app.dfy | `App.tsx`: the four-state machine, search and reset |
| `Pipeline` | pipeline.dfy | properties that cross from the edge function into the client |

Some behaviour of the code is easy to mistake for something gentler:

- The code skips no failed keyword request: a thrown fetch aborts the
  request with a 500. Only a response body without `results` adds nothing.
- A cache hit needs exactly four fresh rows. The categories of those rows
  are never checked. Two saves of the same two events therefore form a
  "hit" that repeats two categories and lacks the other two
  (`Cache.RowCountIgnoresCategories`).
- A coordinate of `0` counts as missing (400), because the check is
  JavaScript truthiness.
- When the model names no usable place, the answer is 200 with an empty
  list. Zero rows are saved. It is not an error.
- The code has no rating-minus-distance venue selector, no website scraping
  and no cache expiry of its own: the language model picks the venues, and
  expiry is a filter on the store's `expires_at` column.

The results page is modelled twice over one definition, `ResultsView.Cards`.
Given `AsWritten`, it is the page as `Results.tsx` renders it, stray zeros
included (see Findings), and that is the page the app renders. Given
`Corrected`, it uses the intended rating block. Properties about the cache
round trip are stated exactly for the corrected page, and up to stray zeros
for the page as written.

## Model

| member | source | states |
|---|---|---|
| `Domain.Rank` | src/types.ts:1-5 | every category sits at one fixed position of the four-entry display and classification order |
| `Domain.LabelInjective` | src/types.ts:1-5 | distinct categories have distinct labels, so comparing label strings compares categories |
| `Domain.FirstOfCategory` | src/components/Results.tsx:17-19 | the result is absent exactly when no event has the category; otherwise it is an event of that category with no earlier event of the same category |
| `PlaceSearch.FirstThrowSpec` | supabase/functions/find-comedy/index.ts:97-101 | absent exactly when no keyword request threw; otherwise the message of the earliest one that did |
| `PlaceSearch.SearchPlaces` | supabase/functions/find-comedy/index.ts:92-114 | the search fails exactly when some keyword request threw, and then with the earliest thrown message. On success the places are exactly the first occurrence of each id, in query-then-result order, so no id occurs twice and every id found is kept |
| `PlaceSearch.QueryPlaces` | supabase/functions/find-comedy/index.ts:97-113 | the loop with its `seen` set computes exactly the outcome `SearchPlaces` specifies, stopping at the first thrown request |
| `PlaceSearch.MergeResults` | supabase/functions/find-comedy/index.ts:103-110 | scanning one keyword's results extends the kept list to the dedup of everything scanned so far, and `seen` stays equal to the kept ids |
| `PlaceSearch.DedupIds` | supabase/functions/find-comedy/index.ts:104-108 | every id seen in any result is kept, and no other |
| `PlaceSearch.DedupDistinct` | supabase/functions/find-comedy/index.ts:104-108 | the merged list never holds two places with the same id |
| `PlaceSearch.DedupIsFirstOccurrences` | supabase/functions/find-comedy/index.ts:104-108 | the merged list equals the position filter that keeps each id's first occurrence, so the first occurrence wins and discovery order is kept |
| `PlaceSearch.FirstOccurrenceKept` | supabase/functions/find-comedy/index.ts:104-108 | the first occurrence of every id is in the merged list |
| `PlaceSearch.NoResultsContributesNothing` | supabase/functions/find-comedy/index.ts:103 | inserting a response without `results` anywhere in the sequence changes neither the outcome nor the places |
| `PlaceSearch.NoVenuesIffNothingFound` | supabase/functions/find-comedy/index.ts:254-264 | the search yields no places exactly when no request threw and every keyword contributed nothing, which is the 404 case |
| `Classifier.PlaceIndex` | supabase/functions/find-comedy/index.ts:177 | the index's keys are exactly the place ids, and each key maps to an input place carrying that id |
| `Classifier.PlaceIndexLast` | supabase/functions/find-comedy/index.ts:177 | for a repeated id the index holds the last place with it |
| `Classifier.PlaceIndexOfDistinct` | supabase/functions/find-comedy/index.ts:177 | for de-duplicated places the index returns the unique place with the id |
| `Classifier.ClassifyFromSpec` | supabase/functions/find-comedy/index.ts:179-199 | at most one event per listed category. A category gets an event exactly when its answer is usable. Each event matches its category's answer and the place it names. Ascending input categories give ascending events |
| `Classifier.Classify` | supabase/functions/find-comedy/index.ts:176-201 | at most four events in category order. Each names an input place and copies its name, address, rating, total and coordinates, with an empty title and the answer's reasoning. A category has an event exactly when its answer is usable |
| `Classifier.OneEventPerCategory` | supabase/functions/find-comedy/index.ts:179-199 | no two events of a classification share a category |
| `Classifier.UnusableAnswerSkipped` | supabase/functions/find-comedy/index.ts:180-183 | a missing key, a null entry, an empty `place_id` or an unknown id yields no event for that category |
| `Cache.RowsFor` | supabase/functions/find-comedy/index.ts:72-87 | one row per event, in order, all under the given hash. Category, venue, title, distance, reasoning and coordinates are copied, and the description is empty. A present rating, total, address or id is copied; a missing rating or total becomes 0, and a missing address or id becomes "" |
| `Cache.Accept` | supabase/functions/find-comedy/index.ts:46-70 | a hit exactly when the query succeeded with exactly four rows; a hit rebuilds one event per row, in order |
| `Cache.RowRoundTrip` | supabase/functions/find-comedy/index.ts:57-87 | saving and reading back keeps category, venue, title, distance and reasoning. The id, address and ratings total always return as present values: an absent id or address as "", an absent total as 0. A zero or absent rating returns as absent. Coordinates are lost |
| `Cache.RoundTripSettles` | supabase/functions/find-comedy/index.ts:57-87 | a second save and read-back changes nothing further |
| `Cache.SavedEventsAccepted` | supabase/functions/find-comedy/index.ts:53-87 | saved events are honoured by the next lookup exactly when there were four of them, and then come back row by row |
| `Cache.RowCountIgnoresCategories` | supabase/functions/find-comedy/index.ts:69 | two saves of the same two events form a hit that repeats a category and leaves some category without an event |
| `Handler.ErrorText` | supabase/functions/find-comedy/index.ts:279 | a caught error's message is used when non-empty, and an empty one gives exactly "Internal server error" |
| `Handler.Handle` | supabase/functions/find-comedy/index.ts:204-286 | OPTIONS gives 200 before the body is read. An unreadable body gives 500 with its message. A falsy coordinate, including 0, gives 400. Missing keys give 500. A truthy non-number coordinate gives the 500 of the throwing `toFixed`. No upstream call is made unless all checks pass, and the cache lookup comes first. A cache hit gives 200 cached with no search. A thrown search gives 500 with its message. No places gives 404. A thrown classification gives 500 with its message. Otherwise the answer is 200, not cached, with the classification of the places found, after saving it as rows under the hash. A 200 never carries an error body |
| `ResultsView.MapsUrl` | src/components/Results.tsx:21-24 | no link for an absent or empty id; otherwise the maps prefix followed by exactly the id |
| `ResultsView.MapsUrlRoundTrip` | src/components/Results.tsx:21-24 | reading the id back out of a built link gives the id |
| `ResultsView.UrlOfPlaceIdRoundTrip` | src/components/Results.tsx:21-24 | every link of the maps form is the link built from the id it carries |
| `ResultsView.Rating` | src/components/Results.tsx:74-84 | (corrected) stars appear exactly for a rating above zero, showing that rating. The count appears exactly when the total is non-zero, and it is that total. A bare "0" is never shown |
| `ResultsView.RatingDiffersOnlyByStrayZeros` | src/components/Results.tsx:74-84 | the block as written and the corrected block differ only by the stray zeros |
| `ResultsView.ZeroRatingPrintsZero` | src/components/Results.tsx:74 | as written, a rating of exactly 0 prints a bare "0" where the corrected block prints nothing |
| `ResultsView.RatingAsWritten` | src/components/Results.tsx:74-84 | (as written) a bare "0" exactly for a rating of 0. Stars exactly for a rating above zero. Inside them, nothing for an absent total, a bare "0" exactly for a total of 0, and otherwise the total |
| `ResultsView.CleanedPageIsCorrected` | src/components/Results.tsx:44-110 | removing the stray zeros from every card of the page as written gives exactly the corrected page |
| `ResultsView.ViewOf` | src/components/Results.tsx:58-102 | a card shows name, distance and reasoning. The title shows exactly when non-empty. The maps link shows exactly when the id is non-empty, and it is never the `'#'` fallback and always carries the event's id. The rating block is the one as written or the corrected one, and the two agree once stray zeros are removed |
| `ResultsView.Cards` | src/components/Results.tsx:17-110 | exactly four cards, headed by the categories in fixed order. A card shows "No event found" exactly when no event has its category; otherwise it shows the first such event |
| `App.FindComedy` | src/App.tsx:13-42 | a search ends on results or error. It reaches results exactly for an ok reply with a readable payload, showing `events` or [] with no message. Otherwise it shows the fixed message and keeps the old events |
| `App.StartSearch` | src/App.tsx:13-15 | starting a search enters loading and clears the error message, keeping the events |
| `App.SpinnerWhileSearching` | src/App.tsx:13-63 | while a search awaits the fetch, the spinner is the only view rendered |
| `App.Reset` | src/App.tsx:44-48 | from any state, reset returns to landing with no events and no message |
| `App.Rendered` | src/App.tsx:50-84 | exactly one view per state: the results view shows the cards of the state's events, with the rating block as written, and the error view shows its message |
| `App.SearchSettles` | src/App.tsx:13-42 | a finished search is never left loading, and the message is empty exactly on the results page |
| `App.ResetSettles` | src/App.tsx:44-54 | reset is idempotent and leaves only the landing view rendered |
| `App.FailedSearchAfterResetIsEmpty` | src/App.tsx:37-48 | a failed search after a reset shows the error message with no events kept |
| `Pipeline.SearchOutcome` | src/App.tsx:30-41 | a client search through the handler ends on results exactly when the handler answered with events, showing those events. Every non-200 answer ends on the error page with the fixed message |
| `Pipeline.CachedViewMatchesFresh` | supabase/functions/find-comedy/index.ts:57-87 | with the corrected rating block, an event read back from the cache renders exactly like the event that was saved. As written, the two views differ at most by stray zeros |
| `Pipeline.CachedPageMatchesFresh` | src/components/Results.tsx:44-110 | with the corrected rating block, the results page for cached events is the page shown for them fresh. As written, the two pages agree once their stray zeros are removed |
| `Pipeline.StrayZeroAfterCacheRoundTrip` | src/components/Results.tsx:74-82 | as written, a rated event without a ratings total shows no count when fresh but a stray "0" when served from the cache, so the two card views differ. The corrected block shows the same for both |
| `Pipeline.SecondRequestServedFromCache` | supabase/functions/find-comedy/index.ts:243-252 | after a fresh answer of four events, the same request with the saved rows is served from the cache with one call. With the corrected rating block it renders the same page. As written, the pages agree up to stray zeros |
| `Pipeline.CardShownIffUsableAnswer` | supabase/functions/find-comedy/index.ts:179-199 | on a fresh answer, a category's card shows a venue exactly when the model named a found place for it |
| `Pipeline.EventsPresentFoundPlaces` | supabase/functions/find-comedy/index.ts:177-196 | on a fresh answer, every event presents the one found place with its id, with the reasoning given for its category |

## Findings

| source | as written | input that shows it | evidently intended | confidence | as-written member | corrected member |
|---|---|---|---|---|---|---|
| src/components/Results.tsx:74-82 | `{event.rating && event.rating > 0 && (…)}` and `{event.userRatingsTotal && (…)}` evaluate to the number 0 for a zero value, and React prints it as the text "0" | an event with rating 4.5 and no ratings total, served from the cache: `saveToCache` stored the total as 0 and `checkCache` reads it back as 0. A rating of exactly 0 shows the same thing | a zero rating or zero total shows nothing | medium, not executed | `Pipeline.StrayZeroAfterCacheRoundTrip` | `ResultsView.Rating` |

## Left out

- `calculateDistance` (haversine) and `createLocationHash` (`toFixed` rounding) are floating-point numerics. They are opaque function inputs: `DistanceFn` and `Upstream.locationHash`.
- `fetch`, the Supabase client, the completion request, the prompt text and `JSON.parse` are foreign I/O. Their outcomes are inputs: `KeywordResponse`, `CacheQuery`, `ClassifierReply`, `RequestBody`, `App.FetchResult`.
- The store's expiry filter and row order belong to the store. `CacheQuery` holds the fresh rows for the hash as the store returns them.
- The result of the cache insert is ignored by the source, and the model does not represent it either.
- Client creation from `SUPABASE_URL`/`SUPABASE_SERVICE_ROLE_KEY` is assumed to succeed; its failure mode lives in the client library.
- A place without `geometry.location` is not represented: places always carry coordinates.
- `NaN` values, and JSON values of the wrong type in `place_id`, `reasoning` or a cache column, are not represented. An unusable `place_id` is represented by "".
- Cache rows whose category column holds a string other than the four labels are not represented. The rows the source writes always hold one of the labels.
- CORS header contents, `console.error` logging and environment access are left out. Only key presence is kept.
- Display formatting (`toFixed(1)`), icons and styling are left out.
- The nearby-search request URL is left out: its keywords, its 16093-metre radius and the API key parameter. Each keyword's outcome is an input.
- src/components/Landing.tsx (browser geolocation and input plumbing) is not part of this model.
- Concurrent searches in the client are left out. The results page and the error page each offer reset, but no search can start while one is loading.
