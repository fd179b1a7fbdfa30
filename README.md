# Hacker News search client: the per-term result cache

A Dafny model of the one piece of logic in the `App` component of a small
React client for the Hacker News search API: the cache of results kept per
search term. The component's state has three parts:

- `results`: null at first, then a table from search term to an entry
  holding the hits accumulated for that term and the last page received;
- `query`: the text in the search box;
- `searchKey`: the term whose results are on screen.

`app.dfy` holds one module, `HackerNewsApp`. The state is the class `App`,
whose fields are those three parts. Its methods are the component's event
handlers, and they update the fields as `setState` does. The pure parts are
module-level functions over the state's values, and the class's methods call
them:

- the cache test (`ShouldSearchTopStories`);
- the old-hits-plus-new-hits concatenation (`UpdatedHits`);
- the merge of a response into the table (`Merge`);
- the page and the list that `render` derives (`RenderedPage`, `RenderedList`).

Fetching is I/O and is not modelled. A handler that would start a fetch
returns the `Request` (term, page) it would send. A response reaches
`App.SetSearchTopStories` as a `Response` value (hits, page). The TypeErrors the
JavaScript throws are the `Fault` values `ReadOfNull` and `ReadOfUndefined`. A
handler that throws returns `Threw(fault)`. `App.SetSearchTopStories` throws
before any `setState`, so it leaves the state as it was. `App.OnSearchSubmit`
throws after `setState({searchKey: query})`, so a submit that throws has
already set `searchKey` to the query.

The class invariant `App.Valid` states that the table has only complete runs.
Each stored entry equals what merging its key's responses produces, counting
from the key's latest page-0 response. Its hits are those responses' hits in
arrival order, and its page is the last response's page. The ghost field
`received` records those responses.

Behaviours of the code that the model keeps on purpose:

- A response is merged under `searchKey` as it is when the response
  arrives, not under the term it was fetched for (`ResponseFollowsSearchKey`).
- A page other than 0 with no stored entry throws: `.hits` is read of an
  undefined entry, or of a null `results` (`MoreWithoutEntryFaults`).
- Submitting before the first response has arrived throws. This is because
  `shouldSearchTopStories` reads a `results` that is still null
  (`SubmitBeforeFirstResponse`).
- Page 0 merged into a null `results` works, because `{...null}` spreads to
  the empty object (`Own(Null) == map[]`).
- A submit never requests page 0 of a term that is already cached. The More button still requests the next page of the cached term on screen.

## Model

| member | source | states |
|---|---|---|
| `HackerNewsApp.ShouldSearchTopStories` | src/App.js:32-34 | throws exactly when `results` is null; otherwise true exactly when the term has no entry |
| `HackerNewsApp.UpdatedHits` | src/App.js:40-41 | page 0 gives exactly the response's hits; any other page succeeds exactly when the key has an entry (ReadOfNull on null results, ReadOfUndefined on a missing entry), and then yields the old hits unchanged as a prefix followed by the new hits in order |
| `HackerNewsApp.Merge` | src/App.js:36-51 | succeeds exactly when the page is 0 or the key has an entry; the key's entry gets the updated hits and the response's page; the key set becomes the old one plus the key; every other entry is unchanged |
| `HackerNewsApp.RenderedPage` | src/App.js:83 | the entry's page when the key has an entry (including a stored 0, through `||`), else 0 |
| `HackerNewsApp.RenderedList` | src/App.js:84 | the entry's hits when the key has an entry, else the empty list |
| `HackerNewsApp.FlattenAppend` | src/App.js:40-41 | appending one more response to a run appends its hits, in order, to the accumulated hits |
| `HackerNewsApp.MergeCachesKey` | src/App.js:32-51 | after any successful merge under a key, that key is no longer searched for |
| `HackerNewsApp.FirstTwoPagesAccumulate` | src/App.js:40-50 | page 0 with hits I and then page 1 with hits J for one key store I followed by J with page 1, and nothing else changes |
| `HackerNewsApp.MergeThenMore` | src/App.js:83-94 | after a merge, render shows the merged hits and its page is exactly the received page, to which More's request (`App.OnMoreClick`) adds one |
| `HackerNewsApp.MoreWithoutEntryFaults` | src/App.js:83-94 | with no entry for the key, More asks for page 1, and merging that page throws (ReadOfNull or ReadOfUndefined, line 40) |
| `HackerNewsApp.App.constructor` | src/App.js:16-23 | `results` null, `query` "redux", `searchKey` empty, and the invariant holds |
| `HackerNewsApp.App.ComponentDidMount` | src/App.js:74-79 | `searchKey` becomes `query`, and page 0 of `query` is requested unconditionally |
| `HackerNewsApp.App.OnSearchChange` | src/App.js:61-63 | only `query` changes, to the typed value |
| `HackerNewsApp.App.OnSearchSubmit` | src/App.js:65-72 | `searchKey` becomes `query`; page 0 is requested exactly when the term is uncached; a cached term requests nothing; null `results` throws |
| `HackerNewsApp.App.SetSearchTopStories` | src/App.js:36-52 | the merge is keyed by the current `searchKey`; on success `results` becomes the merged table, and on a throw the state, the ghost record of received responses included, is unchanged; the invariant is preserved |
| `HackerNewsApp.App.OnMoreClick` | src/App.js:94 | requests the on-screen term at the stored page plus one, or page 1 when nothing is stored |
| `HackerNewsApp.LoadMoreScenario` | src/App.js:74-94 | mount, page 0, More, page 1: the list shown is the first page's hits followed by the second page's |
| `HackerNewsApp.SubmitBeforeFirstResponse` | src/App.js:65-79 | a submit after mount but before any response throws ReadOfNull |
| `HackerNewsApp.ResponseFollowsSearchKey` | src/App.js:36-72 | a page-0 response for "vue" that arrives after switching back to a cached "redux" replaces redux's hits, and "vue" stays uncached |

## Left out

- The `fetch` call, the URL it builds and `response.json()` (src/App.js:54-59) are network I/O and JSON parsing. Requests are returned as values and responses are passed in as values. Malformed responses, such as `hits` that are not an array, are not modelled.
- React's asynchronous, batched `setState` and the interleaving of overlapping fetches are event-loop concurrency. Each `setState` is an immediate assignment, and each response is one atomic merge.
- `event.preventDefault()` in `onSearchSubmit` is a browser effect and is not modelled. When `results` is null, the cache test throws before `preventDefault` runs, so the browser's default form submission (a page reload that discards all component state) is not prevented. The model's `Threw` outcome of `App.OnSearchSubmit` stands in for that reload. The model keeps the state afterwards, with `searchKey` set to the query, and does not model the reload itself.
- Lookups that JavaScript resolves through `Object.prototype` are not modelled. A term such as "constructor" finds an inherited property rather than an entry. Table keys are own properties only.
- The `Search`, `Table` and `Button` components (src/App.js:103-131) are presentational UI rendering, and `Table` has one row per listed item.
- The snapshot and DOM tests in src/App.test.js are not modelled.
- The hits-per-page constant is used only in the URL.
- No sorting or reverse-sorting code exists in src/App.js, so no sort behaviour is modelled.
