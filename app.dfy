/**
 * The per-search-term result cache of the Hacker News search client's `App`
 * component (src/App.js).
 *
 * The component keeps three pieces of state: `results`, a table from search
 * term to the hits accumulated for it and the last page received (null until
 * the first response arrives); `query`, the text in the search box; and
 * `searchKey`, the term whose results are on screen.  Fetching is I/O: a
 * method that would start a fetch returns the `Request` it would send, and a
 * response is handed to `SetSearchTopStories` as a `Response` value.
 */
module HackerNewsApp {

  /** The term searched for when the component mounts. */
  const DefaultQuery: string := "redux"
  /** The page requested for a new term. */
  const DefaultPage: int := 0

  /** One search hit, with the fields the result table shows. */
  datatype Item = Item(objectID: string, title: string, url: string,
                       author: string, numComments: int, points: int)

  /** What the table holds for one term: every hit accumulated so far and the last page received. */
  datatype Entry = Entry(hits: seq<Item>, page: int)

  /** One page of the search API's answer: its hits and its page number. */
  datatype Response = Response(hits: seq<Item>, page: int)

  /** A fetch the component asks for: a term and a page number. */
  datatype Request = Request(term: string, page: int)

  type Table = map<string, Entry>

  /** `this.state.results`: null until the first response has been merged. */
  datatype Results = Null | Loaded(table: Table)

  /** The TypeErrors the component raises. */
  datatype Fault =
    | ReadOfNull               // a property of `results` read while it is still null
    | ReadOfUndefined(key: string)  // `.hits` read of the missing entry for `key`

  datatype Result<T> = Ok(value: T) | Err(fault: Fault)

  datatype Option<T> = None | Some(value: T)

  /** What an event handler ends with: nothing more, a fetch, or a thrown error. */
  datatype Outcome = Idle | Fetch(request: Request) | Threw(fault: Fault)

  /** The entries of `results`; spreading null (`{...null}`) gives the empty object. */
  function Own(results: Results): Table {
    match results
    case Null => map[]
    case Loaded(t) => t
  }

  /** `shouldSearchTopStories(q)`: whether `q` must be fetched; reading a null `results` throws. */
  function ShouldSearchTopStories(results: Results, q: string): (r: Result<bool>)
    ensures r.Ok? <==> results.Loaded?
    ensures r.Err? ==> r.fault == ReadOfNull
    ensures r.Ok? ==> (r.value <==> q !in Own(results))
  {
    match results
    case Null => Err(ReadOfNull)
    case Loaded(t) => Ok(q !in t)
  }

  /**
   * The hits stored for `key` once `response` is merged: page 0 starts afresh,
   * any other page is appended to the hits already stored, which must exist.
   */
  function UpdatedHits(results: Results, key: string, response: Response): (r: Result<seq<Item>>)
    ensures response.page == 0 ==> r == Ok(response.hits)
    ensures response.page != 0 ==> (r.Ok? <==> key in Own(results))
    ensures response.page != 0 && results.Null? ==> r == Err(ReadOfNull)
    ensures response.page != 0 && results.Loaded? && key !in Own(results) ==> r == Err(ReadOfUndefined(key))
    ensures response.page != 0 && r.Ok? ==>
              var before := Own(results)[key].hits;
              |r.value| == |before| + |response.hits| &&
              r.value[..|before|] == before &&
              r.value[|before|..] == response.hits
  {
    var oldHits: Result<seq<Item>> :=
      if response.page == 0 then Ok([])
      else match results
        case Null => Err(ReadOfNull)
        case Loaded(t) => if key in t then Ok(t[key].hits) else Err(ReadOfUndefined(key));
    match oldHits
    case Err(f) => Err(f)
    case Ok(before) =>
      assert [] + response.hits == response.hits;
      Ok(before + response.hits)
  }

  /**
   * The table after `response` is merged under `key`: only that key's entry
   * is written, it records the response's page, and every other entry stays.
   */
  function Merge(results: Results, key: string, response: Response): (r: Result<Table>)
    ensures r.Ok? <==> response.page == 0 || key in Own(results)
    ensures r.Err? ==> r.fault == UpdatedHits(results, key, response).fault
    ensures r.Ok? ==> key in r.value && r.value[key].page == response.page
    ensures r.Ok? ==> r.value[key].hits == UpdatedHits(results, key, response).value
    ensures r.Ok? ==> r.value.Keys == Own(results).Keys + {key}
    ensures r.Ok? ==> forall k :: k in Own(results) && k != key ==> r.value[k] == Own(results)[k]
  {
    match UpdatedHits(results, key, response)
    case Err(f) => Err(f)
    case Ok(hits) => Ok(Own(results)[key := Entry(hits, response.page)])
  }

  /** `results && results[key]`: the entry shown for `key`, if any. */
  function Lookup(results: Results, key: string): Option<Entry> {
    match results
    case Null => None
    case Loaded(t) => if key in t then Some(t[key]) else None
  }

  /**
   * The page `render` derives: `(results && results[key] && results[key].page) || 0`.
   * JavaScript's `||` also falls back when the stored page is the falsy 0.
   */
  function RenderedPage(results: Results, key: string): (p: int)
    ensures key in Own(results) ==> p == Own(results)[key].page
    ensures key !in Own(results) ==> p == 0
  {
    match Lookup(results, key)
    case None => 0
    case Some(e) => if e.page != 0 then e.page else 0
  }

  /** The list `render` derives: the entry's hits (an array is always truthy), or `[]`. */
  function RenderedList(results: Results, key: string): (list: seq<Item>)
    ensures key in Own(results) ==> list == Own(results)[key].hits
    ensures key !in Own(results) ==> list == []
  {
    match Lookup(results, key)
    case None => []
    case Some(e) => e.hits
  }

  /** The hits of a run of responses, in arrival order. */
  function Flatten(rs: seq<Response>): seq<Item> {
    if rs == [] then [] else rs[0].hits + Flatten(rs[1..])
  }

  lemma {:induction false} FlattenAppend(rs: seq<Response>, r: Response)
    ensures Flatten(rs + [r]) == Flatten(rs) + r.hits
  {
    if rs == [] {
      assert [] + [r] == [r];
      assert [r][1..] == [];
    } else {
      assert (rs + [r])[1..] == rs[1..] + [r];
      FlattenAppend(rs[1..], r);
    }
  }

  /**
   * `e` is what merging the run `rs` produces: the run starts with a page-0
   * response, no later one is page 0, the hits are all of theirs in arrival
   * order, and the page is the last one's.
   */
  ghost predicate Accumulates(rs: seq<Response>, e: Entry) {
    |rs| > 0 && rs[0].page == 0 &&
    (forall i :: 0 < i < |rs| ==> rs[i].page != 0) &&
    e == Entry(Flatten(rs), rs[|rs| - 1].page)
  }

  /** After any successful merge under `key`, `key` is no longer searched for. */
  lemma MergeCachesKey(results: Results, key: string, response: Response)
    requires Merge(results, key, response).Ok?
    ensures ShouldSearchTopStories(Loaded(Merge(results, key, response).value), key) == Ok(false)
  {
  }

  /** Page 0 then page 1 for the same key shows the first page's hits followed by the second's. */
  lemma FirstTwoPagesAccumulate(results: Results, key: string, first: seq<Item>, second: seq<Item>)
    ensures Merge(results, key, Response(first, 0)).Ok?
    ensures Merge(Loaded(Merge(results, key, Response(first, 0)).value), key, Response(second, 1))
              == Ok(Own(results)[key := Entry(first + second, 1)])
  {
    var t := Merge(results, key, Response(first, 0)).value;
    assert t == Own(results)[key := Entry(first, 0)];
    assert t[key := Entry(first + second, 1)] == Own(results)[key := Entry(first + second, 1)];
  }

  /** After a merge, render shows the merged hits and the page just received, the page More adds one to. */
  lemma MergeThenMore(results: Results, key: string, response: Response)
    requires Merge(results, key, response).Ok?
    ensures RenderedPage(Loaded(Merge(results, key, response).value), key) == response.page
    ensures RenderedList(Loaded(Merge(results, key, response).value), key)
              == UpdatedHits(results, key, response).value
  {
  }

  /**
   * With nothing stored for `key`, the More button asks for page 1, and merging
   * that page throws: `.hits` of the missing entry, or of null `results`.
   */
  lemma MoreWithoutEntryFaults(results: Results, key: string, hits: seq<Item>)
    requires key !in Own(results)
    ensures RenderedPage(results, key) + 1 == 1
    ensures Merge(results, key, Response(hits, RenderedPage(results, key) + 1))
              == Err(if results.Null? then ReadOfNull else ReadOfUndefined(key))
  {
  }

  /** The `App` component's state and its event handlers. */
  class App {
    var results: Results
    var query: string
    var searchKey: string
    /** The responses merged under each key since its latest page-0 response. */
    ghost var received: map<string, seq<Response>>

    /** Every stored entry is the accumulation of the responses merged under its key. */
    ghost predicate Valid()
      reads this
    {
      received.Keys == Own(results).Keys &&
      forall k :: k in received ==> Accumulates(received[k], Own(results)[k])
    }

    constructor ()
      ensures Valid()
      ensures results == Null && query == DefaultQuery && searchKey == ""
    {
      results := Null;
      query := DefaultQuery;
      searchKey := "";
      received := map[];
    }

    /** On mount: show the current query and fetch its first page. */
    method ComponentDidMount() returns (request: Request)
      requires Valid()
      modifies this`searchKey
      ensures Valid()
      ensures searchKey == query
      ensures request == Request(query, DefaultPage)
    {
      searchKey := query;
      request := Request(query, DefaultPage);
    }

    /** Typing in the search box changes the query and nothing else. */
    method OnSearchChange(value: string)
      requires Valid()
      modifies this`query
      ensures Valid()
      ensures query == value
    {
      query := value;
    }

    /**
     * Submitting shows the query's results and fetches its first page only if
     * it is not cached yet; before the first response `results` is null and
     * the cache test throws.
     */
    method OnSearchSubmit() returns (outcome: Outcome)
      requires Valid()
      modifies this`searchKey
      ensures Valid()
      ensures searchKey == query
      ensures results.Null? ==> outcome == Threw(ReadOfNull)
      ensures results.Loaded? && query in results.table ==> outcome == Idle
      ensures results.Loaded? && query !in results.table ==> outcome == Fetch(Request(query, DefaultPage))
    {
      searchKey := query;
      var should := ShouldSearchTopStories(results, query);
      match should
      case Err(f) =>
        outcome := Threw(f);
      case Ok(b) =>
        outcome := if b then Fetch(Request(query, DefaultPage)) else Idle;
    }

    /**
     * A response arrives: it is merged under `searchKey` as it is NOW, whatever
     * term it was fetched for.  On a throw the state is left as it was.
     */
    method SetSearchTopStories(response: Response) returns (outcome: Outcome)
      requires Valid()
      modifies this`results, this`received
      ensures Valid()
      ensures outcome == Idle || outcome.Threw?
      ensures outcome == Idle <==> Merge(old(results), searchKey, response).Ok?
      ensures outcome.Threw? ==>
                outcome.fault == Merge(old(results), searchKey, response).fault && results == old(results)
      ensures outcome.Threw? ==> received == old(received)
      ensures outcome == Idle ==> results == Loaded(Merge(old(results), searchKey, response).value)
      ensures outcome == Idle && response.page == 0 ==> received == old(received)[searchKey := [response]]
      ensures outcome == Idle && response.page != 0 ==>
                received == old(received)[searchKey := old(received)[searchKey] + [response]]
    {
      var merged := Merge(results, searchKey, response);
      match merged
      case Err(f) =>
        outcome := Threw(f);
      case Ok(t) =>
        if response.page == 0 {
          assert Flatten([response]) == response.hits + Flatten([]);
          received := received[searchKey := [response]];
        } else {
          FlattenAppend(received[searchKey], response);
          received := received[searchKey := received[searchKey] + [response]];
        }
        results := Loaded(t);
        outcome := Idle;
    }

    /** The More button: the page after the one on screen, for the term on screen. */
    method OnMoreClick() returns (request: Request)
      ensures request.term == searchKey
      ensures searchKey in Own(results) ==> request.page == Own(results)[searchKey].page + 1
      ensures searchKey !in Own(results) ==> request.page == 1
    {
      request := Request(searchKey, RenderedPage(results, searchKey) + 1);
    }
  }

  /**
   * Mount, receive page 0, press More, receive page 1: the table shows the
   * first page's hits unchanged, followed by the second page's.
   */
  method LoadMoreScenario(first: seq<Item>, second: seq<Item>) returns (shown: seq<Item>)
    ensures shown == first + second
  {
    var app := new App();
    var request := app.ComponentDidMount();
    assert request == Request(DefaultQuery, 0);
    var outcome := app.SetSearchTopStories(Response(first, request.page));
    assert outcome == Idle;
    request := app.OnMoreClick();
    assert request == Request(DefaultQuery, 1);
    outcome := app.SetSearchTopStories(Response(second, request.page));
    assert outcome == Idle;
    shown := RenderedList(app.results, app.searchKey);
  }

  /** Submitting before the first response has arrived throws: `results` is still null. */
  method SubmitBeforeFirstResponse(typed: string) returns (outcome: Outcome)
    ensures outcome == Threw(ReadOfNull)
  {
    var app := new App();
    var request := app.ComponentDidMount();
    app.OnSearchChange(typed);
    outcome := app.OnSearchSubmit();
  }

  /**
   * A response is stored under the term on screen when it arrives: after
   * searching "vue" and going back to the cached "redux" before "vue"'s first
   * page arrives, that page replaces "redux"'s hits and "vue" stays uncached.
   */
  method ResponseFollowsSearchKey(reduxHits: seq<Item>, vueHits: seq<Item>)
    returns (shown: seq<Item>, vueCached: bool)
    ensures shown == vueHits
    ensures !vueCached
  {
    var app := new App();
    var request := app.ComponentDidMount();
    var outcome := app.SetSearchTopStories(Response(reduxHits, request.page));
    app.OnSearchChange("vue");
    outcome := app.OnSearchSubmit();
    assert outcome == Fetch(Request("vue", 0));
    app.OnSearchChange(DefaultQuery);
    outcome := app.OnSearchSubmit();
    assert outcome == Idle;
    outcome := app.SetSearchTopStories(Response(vueHits, 0));
    shown := RenderedList(app.results, app.searchKey);
    vueCached := "vue" in Own(app.results);
  }
}
