# RoadToReact search app: the App component's state machine

This project models the `App` component of `src/index.jsx`, a React page that
searches Hacker News stories through the Algolia search API. The component
holds six pieces of state (`searchTerm`, `query`, `newList`, `isLoading`,
`isError`, `page`). Its handlers change them: typing sets `query`,
submitting copies `query` into `searchTerm`, "More" bumps `page`, and
"Dismiss" filters one `objectID` out of the list. A fetch effect either
falls back to a built-in two-item seed list, when the term is empty, or raises
the loading flag and requests
`https://hn.algolia.com/api/v1/search?query=<term>&page=<page>`. A successful
answer overwrites the list with its hits. A failed one sets the error flag.

Files:

- `stories.dfy` (module `Stories`): the item record, the seed list, the dismiss
  filter and its properties. These are order preservation, removal of exactly
  the matching items, idempotence, commutation and a uniqueness
  characterisation.
- `endpoint.dfy` (module `Endpoint`): the request URL and the decimal
  rendering of the page. A parser recovers the term and the page from a URL.
  It is proved to invert the builder, and the builder is proved injective.
- `session.dfy` (module `SessionModel`): the six fields as a value, one event
  per transition, `Step` and `Run` over event sequences. Lemmas cover what
  holds across any sequence of events.
- `app.dfy` (module `AppComponent`): class `App` with the six fields and one
  method per transition. Each method states its full effect on the fields and
  is proved to agree with `Step`.
- `options.dfy`: an `Option` datatype.

The fetch's outcome is a parameter: `RunEffect` returns the request it would
issue. The caller then reports the answer through `OnFetchSuccess(hits)` or
`OnFetchFailure()`. The caller also runs the effect where React would, after
`searchTerm` or `page` changed. Neither completion requires a pending request,
because in the component a late response can still arrive after another one
already cleared the loading flag.

The component has no result cache keyed by term, no page merging or
de-duplication, no sorting and no discarding of stale responses. A success
does not clear the error flag. The empty-term test
is `searchTerm.length`, so a whitespace-only term still issues a request.
`LateResponseOverwritesSeed` states the missing correlation outright: a
response to an abandoned request still replaces the list.

## Model

| member | source | states |
|---|---|---|
| `Stories.SeedList` | src/index.jsx:6-23 | the fallback list has two items with distinct ids |
| `Stories.Dismiss` | src/index.jsx:84-87 | an item survives dismissing `id` exactly when it was in the list and its `objectID` differs from `id`; the list never grows |
| `Stories.DismissIsSubsequence` | src/index.jsx:85-86 | the surviving items keep their original relative order |
| `Stories.DismissLength` | src/index.jsx:85-86 | dismissing removes exactly as many items as carry `id` |
| `Stories.DismissAbsent` | src/index.jsx:85-86 | dismissing an id no item carries leaves the list unchanged |
| `Stories.DismissIdempotent` | src/index.jsx:85-86 | dismissing the same id twice equals dismissing it once |
| `Stories.DismissAppend` | src/index.jsx:85-86 | the filter distributes over concatenation, so no item moves past another |
| `Stories.DismissCommutes` | src/index.jsx:84-87 | two dismissals give the same list in either order |
| `Stories.DismissPresentUnique` | src/index.jsx:85-86 | with unique ids, dismissing a present id removes exactly one item |
| `Stories.DismissCharacterised` | src/index.jsx:85-86 | any order-preserving selection that drops exactly the items carrying `id` is the filter's result |
| `Endpoint.Decimal` | src/index.jsx:48 | the page renders as a non-empty string of digits with no leading zero |
| `Endpoint.ParseDecimal` | src/index.jsx:48 | reading the rendered digits back gives the page number |
| `Endpoint.SearchUrl` | src/index.jsx:26-29 | the URL starts with the fixed base, path and `query=` parameter, followed by the raw term |
| `Endpoint.ParseSearchUrlRoundTrip` | src/index.jsx:48 | parsing a built URL gives back exactly its term and page, whatever characters the term holds |
| `Endpoint.ParseSearchUrlSound` | src/index.jsx:48 | every URL the parser accepts is the URL built from what it returns |
| `Endpoint.SearchUrlInjective` | src/index.jsx:48 | distinct (term, page) pairs give distinct URL strings handed to `fetch` |
| `SessionModel.Initial` | src/index.jsx:34-39 | mount state: both terms "react", the seed list, neither flag, page 0 |
| `SessionModel.Request` | src/index.jsx:44-49 | the effect issues no request exactly when the term is empty; otherwise a URL that parses back to the term and the page |
| `SessionModel.SubmitAfterTyping` | src/index.jsx:67-76 | typing then submitting makes the term the typed text |
| `SessionModel.ErrorIsSticky` | src/index.jsx:38-59 | once the error flag is set, no sequence of events clears it |
| `SessionModel.ErrorNeedsFailure` | src/index.jsx:55-59 | the error flag is only raised by a failed fetch |
| `SessionModel.LoadingNeedsEffect` | src/index.jsx:44-45 | the loading flag is only raised by the fetch effect |
| `SessionModel.PageCountsMore` | src/index.jsx:105 | the page equals its start value plus the number of "More" clicks |
| `SessionModel.TermComesFromQuery` | src/index.jsx:67-76 | the term only ever holds its own earlier value, the earlier query, or a text typed since; the query only its earlier value or a typed text |
| `SessionModel.TermNeedsSubmit` | src/index.jsx:73-76 | without a submission the term never changes |
| `SessionModel.ItemsHaveASource` | src/index.jsx:51-63 | every listed item was listed before, is a seed item, or came with a successful fetch |
| `SessionModel.ListChangesOnlyBy` | src/index.jsx:52-87 | with no dismissal, effect run or successful fetch, the list is unchanged; a failed fetch never changes it |
| `SessionModel.FetchThenSuccess` | src/index.jsx:45-54 | request then success: the hits replace the list, loading ends, the error flag is as it was |
| `SessionModel.FetchThenFailure` | src/index.jsx:45-59 | request then failure: the list is kept, loading ends, the error flag is set |
| `SessionModel.LateResponseOverwritesSeed` | src/index.jsx:41-64 | a response to a request issued before the term was cleared replaces the restored seed list |
| `SessionModel.FirstRequest` | src/index.jsx:34-48 | on mount the effect asks for page 0 of "react" at the Algolia search endpoint |
| `AppComponent.App.constructor` | src/index.jsx:34-39 | the fields start as `Initial()` |
| `AppComponent.App.OnChange` | src/index.jsx:67-70 | sets `query` to the text and leaves the other five fields |
| `AppComponent.App.OnStartSearch` | src/index.jsx:73-76 | sets `searchTerm` to `query` and leaves the other five fields |
| `AppComponent.App.OnMore` | src/index.jsx:105 | sets `page` to `page + 1` and leaves the other five fields |
| `AppComponent.App.OnDismiss` | src/index.jsx:84-87 | the list becomes the filtered list: same order, exactly the items with another id; nothing else changes |
| `AppComponent.App.RunEffect` | src/index.jsx:41-64 | returns the request for the term and page and raises loading, or restores the seed list when the term is empty; no other field changes |
| `AppComponent.App.OnFetchSuccess` | src/index.jsx:51-54 | the hits replace the list and loading ends; the error flag is not cleared |
| `AppComponent.App.OnFetchFailure` | src/index.jsx:55-59 | loading ends and the error flag is set; the list is unchanged |
| `AppComponent.TypeThenSubmit` | src/index.jsx:67-76 | typing then submitting through the class moves the fields exactly as `Run` over the two events, so the term becomes the typed text |
| `AppComponent.ErrorSurvivesSuccess` | src/index.jsx:38-64 | after a failed and then a successful fetch through the class, the hits are shown and the error flag is still set |

## Left out

- Rendering: the JSX markup, `Search`, `Button`, the style objects and `ReactDOM.render` (src/index.jsx:89-156) are not modelled. One part of it decides when a transition is available, see the next line.
- AppComponent.App.OnDismiss: the model allows a dismissal in every state, including while `isLoading` holds. The component renders the `Table`, whose rows carry the only Dismiss buttons, only when `isLoading` is false (src/index.jsx:98-102, 132). So the model admits event sequences the page cannot produce. Every lemma about event sequences still holds of the sequences the page does produce.
- Network I/O: `fetch`, `response.json()` and the promise chain are replaced by the two completion methods. An HTTP error status whose body still parses as JSON takes the success path in the component. Its `hits` may then be missing; the model's success always carries a sequence of items.
- React scheduling: the dependency array and the batching of setters are not modelled. The caller runs the effect, and each handler updates its fields in sequence.
- Concurrency: overlapping requests are not interleaved inside the model. Their answers are events that may arrive in any order after the requests.
- `console.log(page)`, the unused `url` and `DEFAULT_QUERY` constants, `event.preventDefault()` and the commented-out code are side effects or dead code.
- Every item field, `objectID` included, is taken as given; the model does not decode JSON. Hits without an `objectID` are not modelled: their Dismiss button calls `onDismiss(undefined)` (src/index.jsx:132), which removes every hit that lacks an id, and `ObjectId` has no value for a missing id.
- Endpoint.SearchUrl: the model covers the string handed to `fetch`. The term is not percent-encoded, as in the component, and the model proves that this string determines term and page. What `fetch` does to the string before sending it is not modelled. For example, a `#` starts a fragment that is never sent, so the terms "a#1" and "a#2" send the same request. How the server splits a term holding `&` is not modelled either.
- `page` is an unbounded natural; JavaScript numbers lose precision above 2^53, which "More" never reaches in practice.
