/**
 * The series browse/search pager (src/features/series/hooks/useSeriesData.ts).
 *
 * In browse mode `loadMoreSeries` asks the catalogue for the next server
 * page; in search mode (the search term is not blank) it copies the next
 * twenty items out of the result pool the last search returned in full.
 *
 * `Pager` is the hook's state as a value and `LoadMore`, `Search`,
 * `WithTerm`, `Refresh`, `OnFocus` and `Mounted` are its transitions; the
 * properties of the pager are proved about them. The class `SeriesPager`
 * holds the same fields and updates them step by step as the hook does;
 * each of its methods is proved to end in the state its transition gives.
 *
 * Each awaited call is one atomic step: the remote client is a parameter
 * (`fetchPage` for a server page, `searchByName` for a query), and the two
 * in-flight refs are fields that a step raises and releases.
 */
module SeriesData {

  import opened Types
  import opened Text

  /** Items shown per search-mode step. */
  const PageSize: nat := 20

  /** The fallback messages of a failed page request and of a failed search. */
  const LoadFailed: string := "Failed to load series"
  const SearchFailed: string := "Failed to search series"

  datatype Pager = Pager(
    series: seq<Series>,            // what the list shows
    allSearchResults: seq<Series>,  // the full result of the last search
    loading: bool,
    error: Option<APIError>,
    searchTerm: string,             // the raw term of the search box
    page: nat,                      // the next server page to request
    hasMore: bool,
    searchDisplayed: nat,           // how much of the pool is shown
    initialized: bool,
    searchRequest: bool,            // the in-flight ref of a search
    loadRequest: bool)              // the in-flight ref of a load

  /** The `useState`/`useRef` initial values. */
  function Initial(): (p: Pager)
    ensures p.series == [] && p.allSearchResults == [] && p.page == 0 && p.searchDisplayed == 0
    ensures p.hasMore && !p.loading && p.error == None && p.searchTerm == [] && !p.initialized
  {
    Pager([], [], false, None, [], 0, true, 0, false, false, false)
  }

  /** `searchTerm.trim() !== ''`. */
  predicate SearchMode(p: Pager) {
    !IsBlank(p.searchTerm)
  }

  /** No step is half done: nothing is loading and both refs are released. */
  predicate AtRest(p: Pager) {
    !p.loading && !p.searchRequest && !p.loadRequest
  }

  /** The states every transition keeps: at rest, with the pool cursor inside the pool. */
  predicate Valid(p: Pager) {
    AtRest(p) && p.searchDisplayed <= |p.allSearchResults|
  }

  function Min(a: int, b: int): int {
    if a <= b then a else b
  }

  /** `Array.prototype.slice(start, end)` for non-negative bounds. */
  function Slice<T>(s: seq<T>, start: nat, end: nat): (r: seq<T>)
    ensures start < |s| && start <= end ==> r == s[start..Min(end, |s|)]
    ensures start >= |s| || end <= start ==> r == []
    ensures |r| <= |s|
  {
    if start >= |s| || end <= start then [] else s[start..Min(end, |s|)]
  }

  // ------------------------------------------------------------ loadMore

  /** The search-mode step of `loadMoreSeries`: the next batch of the pool. */
  function NextBatch(p: Pager): (r: Pager)
    requires p.searchDisplayed <= |p.allSearchResults| && p.hasMore
    ensures var batch := Slice(p.allSearchResults, p.searchDisplayed, p.searchDisplayed + PageSize);
      && |batch| <= PageSize
      && r == p.(series := p.series + batch, searchDisplayed := p.searchDisplayed + |batch|,
                 hasMore := p.searchDisplayed + |batch| < |p.allSearchResults|)
  {
    var nextBatch := Slice(p.allSearchResults, p.searchDisplayed, p.searchDisplayed + PageSize);
    if |nextBatch| > 0 then
      p.(series := p.series + nextBatch,
         searchDisplayed := p.searchDisplayed + |nextBatch|,
         hasMore := if p.searchDisplayed + |nextBatch| >= |p.allSearchResults| then false else p.hasMore)
    else
      p.(hasMore := false)
  }

  /** The browse-mode step of `loadMoreSeries`, given what the page request produced. */
  function NextPage(p: Pager, fetched: Fetch<seq<Series>>): (r: Pager)
    requires p.hasMore
    ensures fetched.Ok? && fetched.value == [] ==> r == p.(hasMore := false)
    ensures fetched.Ok? && fetched.value != [] ==> r == p.(series := p.series + fetched.value, page := p.page + 1)
    ensures !fetched.Ok? ==> r == p.(error := Some(ToAPIError(fetched, LoadFailed)))
  {
    match fetched
    case Ok(newSeries) =>
      if |newSeries| == 0 then p.(hasMore := false)
      else p.(series := p.series + newSeries, page := p.page + 1)
    case _ => p.(error := Some(ToAPIError(fetched, LoadFailed)))
  }

  /** Whether `loadMoreSeries` returns at once. */
  predicate LoadBlocked(p: Pager) {
    p.loading || !p.hasMore || p.loadRequest
  }

  /**
   * `loadMoreSeries`. A blocked call changes nothing. A call that runs ends
   * with `loading` false and the ref released, only ever appends to the
   * list, keeps the pool and the term, and when it records an error the
   * list, the page and the pool cursor are as before. In search mode it
   * appends exactly the next (at most twenty) pool items and moves the
   * cursor past them, clearing `hasMore` when the pool is used up; in browse
   * mode an empty page clears `hasMore` and a non-empty one is appended
   * whole and moves to the next page.
   */
  function LoadMore(p: Pager, fetchPage: nat -> Fetch<seq<Series>>): (r: Pager)
    requires p.searchDisplayed <= |p.allSearchResults|
    ensures LoadBlocked(p) ==> r == p
    ensures !LoadBlocked(p) ==> !r.loading && !r.loadRequest && r.searchRequest == p.searchRequest
    ensures p.series <= r.series
    ensures r.allSearchResults == p.allSearchResults && r.searchTerm == p.searchTerm
    ensures r.initialized == p.initialized
    ensures r.searchDisplayed <= |r.allSearchResults|
    ensures r.error.Some? && !LoadBlocked(p) ==>
      r.series == p.series && r.page == p.page && r.searchDisplayed == p.searchDisplayed && r.hasMore == p.hasMore
    ensures !LoadBlocked(p) && SearchMode(p) ==>
      var batch := Slice(p.allSearchResults, p.searchDisplayed, p.searchDisplayed + PageSize);
      && |batch| <= PageSize
      && r.series == p.series + batch
      && r.searchDisplayed == p.searchDisplayed + |batch|
      && r.page == p.page && r.error == None
      && (r.hasMore <==> r.searchDisplayed < |p.allSearchResults|)
    ensures !LoadBlocked(p) && !SearchMode(p) ==>
      match fetchPage(p.page)
      case Ok(newSeries) =>
        && r.error == None && r.searchDisplayed == p.searchDisplayed
        && (newSeries == [] ==> r.series == p.series && r.page == p.page && !r.hasMore)
        && (newSeries != [] ==> r.series == p.series + newSeries && r.page == p.page + 1 && r.hasMore)
      case _ =>
        r.error == Some(ToAPIError(fetchPage(p.page), LoadFailed))
  {
    if LoadBlocked(p) then p
    else if SearchMode(p) then
      NextBatch(p.(loadRequest := true, loading := true, error := None)).(loading := false, loadRequest := false)
    else
      NextPage(p.(loadRequest := true, loading := true, error := None), fetchPage(p.page)).(loading := false, loadRequest := false)
  }

  // -------------------------------------------------------------- search

  /** `handleSearch` resets instead of searching: a blank query while a term is shown. */
  predicate ClearsSearch(p: Pager, query: string) {
    IsBlank(query) && !IsBlank(p.searchTerm)
  }

  /** What a sent query leaves, on top of the state it started from. */
  function Searched(p: Pager, fetched: Fetch<seq<Series>>): (r: Pager)
    ensures fetched.Ok? ==>
      var results := fetched.value;
      var shown := Min(|results|, PageSize);
      r == p.(allSearchResults := results, series := results[..shown], searchDisplayed := shown,
              hasMore := |results| > PageSize)
    ensures !fetched.Ok? ==> r == p.(error := Some(ToAPIError(fetched, SearchFailed)))
  {
    match fetched
    case Ok(results) =>
      var firstBatch := Slice(results, 0, PageSize);
      p.(allSearchResults := results, series := firstBatch, searchDisplayed := |firstBatch|,
         hasMore := |results| > |firstBatch|)
    case _ => p.(error := Some(ToAPIError(fetched, SearchFailed)))
  }

  /** The resets `handleSearch` makes instead of searching. */
  function ClearedSearch(p: Pager): Pager {
    p.(series := [], allSearchResults := [], page := 0, hasMore := true, searchDisplayed := 0, error := None,
       searchRequest := false)
  }

  /**
   * `handleSearch` (also `setDebouncedSearchTerm`). Ignored while a search
   * is in flight. A blank query over a non-blank term empties the list and
   * the pool and rewinds to browse page 0 without asking the catalogue.
   * Otherwise the query is sent: its result becomes the pool, the first
   * twenty results are shown and `hasMore` says whether more remain; a
   * failure records the mapped error and keeps the list, the pool, the
   * page and the cursor. The term itself is never changed here.
   */
  function Search(p: Pager, query: string, searchByName: string -> Fetch<seq<Series>>): (r: Pager)
    ensures p.searchRequest ==> r == p
    ensures r.searchTerm == p.searchTerm && r.loadRequest == p.loadRequest && r.initialized == p.initialized
    ensures !p.searchRequest ==> !r.searchRequest
    ensures !p.searchRequest && ClearsSearch(p, query) ==>
      r == p.(series := [], allSearchResults := [], page := 0, hasMore := true, searchDisplayed := 0, error := None)
    ensures !p.searchRequest && !ClearsSearch(p, query) ==>
      !r.loading && r.page == p.page &&
      match searchByName(query)
      case Ok(results) =>
        && r.allSearchResults == results && r.error == None
        && r.searchDisplayed == Min(|results|, PageSize)
        && r.series == results[..r.searchDisplayed]
        && (r.hasMore <==> |results| > PageSize)
      case _ =>
        && r.error == Some(ToAPIError(searchByName(query), SearchFailed))
        && r.series == p.series && r.allSearchResults == p.allSearchResults
        && r.searchDisplayed == p.searchDisplayed && r.hasMore == p.hasMore
  {
    if p.searchRequest then p
    else if ClearsSearch(p, query) then ClearedSearch(p)
    else
      Searched(p.(searchRequest := true, loading := true, error := None), searchByName(query))
        .(loading := false, searchRequest := false)
  }

  /** `setSearchTerm`: only the raw term changes. */
  function WithTerm(p: Pager, term: string): (r: Pager)
    ensures r.searchTerm == term
    ensures r.(searchTerm := p.searchTerm) == p
  {
    p.(searchTerm := term)
  }

  // ------------------------------------------------------------- refresh

  /** What a page-0 request leaves, on top of whatever state it started from. */
  function FirstPage(p: Pager, fetched: Fetch<seq<Series>>): (r: Pager)
    ensures fetched.Ok? && fetched.value == [] ==> r == p.(hasMore := false)
    ensures fetched.Ok? && fetched.value != [] ==> r == p.(series := fetched.value, page := 1, hasMore := true)
    ensures !fetched.Ok? ==> r == p.(error := Some(ToAPIError(fetched, LoadFailed)))
  {
    match fetched
    case Ok(newSeries) =>
      if |newSeries| > 0 then p.(series := newSeries, page := 1, hasMore := true)
      else p.(hasMore := false)
    case _ => p.(error := Some(ToAPIError(fetched, LoadFailed)))
  }

  /** The resets at the start of `refreshSeries`. */
  function Cleared(p: Pager): Pager {
    p.(series := [], allSearchResults := [], page := 0, hasMore := true, searchDisplayed := 0,
       error := None, searchTerm := [])
  }

  /**
   * `refreshSeries`: forgets the list, the pool, the paging state, the
   * error and the search term, then requests page 0. A non-empty page is
   * shown with page 1 next; an empty one clears `hasMore`; a failure keeps
   * the emptied list and records the mapped error.
   */
  function Refresh(p: Pager, fetchPage: nat -> Fetch<seq<Series>>): (r: Pager)
    ensures r.searchTerm == [] && !SearchMode(r)
    ensures r.allSearchResults == [] && r.searchDisplayed == 0 && !r.loading
    ensures r.searchRequest == p.searchRequest && r.loadRequest == p.loadRequest && r.initialized == p.initialized
    ensures match fetchPage(0)
      case Ok(newSeries) =>
        && r.error == None && r.series == newSeries
        && (newSeries != [] ==> r.page == 1 && r.hasMore)
        && (newSeries == [] ==> r.page == 0 && !r.hasMore)
      case _ =>
        && r.series == [] && r.page == 0 && r.hasMore
        && r.error == Some(ToAPIError(fetchPage(0), LoadFailed))
  {
    FirstPage(Cleared(p).(loading := true), fetchPage(0)).(loading := false)
  }

  /** `refreshOnFocus` fetches only on an empty browse list. */
  predicate RefetchesOnFocus(p: Pager) {
    IsBlank(p.searchTerm) && |p.series| == 0
  }

  /**
   * `refreshOnFocus`: with a non-blank term or a non-empty list nothing
   * changes; otherwise page 0 is requested as by `refreshSeries`, but the
   * pool, its cursor and the term are left as they are.
   */
  function OnFocus(p: Pager, fetchPage: nat -> Fetch<seq<Series>>): (r: Pager)
    ensures !RefetchesOnFocus(p) ==> r == p
    ensures RefetchesOnFocus(p) ==>
      && !r.loading && r.searchTerm == p.searchTerm
      && r.allSearchResults == p.allSearchResults && r.searchDisplayed == p.searchDisplayed
      && r.searchRequest == p.searchRequest && r.loadRequest == p.loadRequest && r.initialized == p.initialized
      && match fetchPage(0)
        case Ok(newSeries) =>
          && r.error == None && r.series == newSeries
          && (newSeries != [] ==> r.page == 1 && r.hasMore)
          && (newSeries == [] ==> r.page == p.page && !r.hasMore)
        case _ =>
          && r.series == p.series && r.page == p.page && r.hasMore == p.hasMore
          && r.error == Some(ToAPIError(fetchPage(0), LoadFailed))
  {
    if RefetchesOnFocus(p) then
      FirstPage(p.(loading := true, error := None), fetchPage(0)).(loading := false)
    else p
  }

  /** The mount effect: the first run marks the hook initialised and loads once. */
  function Mounted(p: Pager, fetchPage: nat -> Fetch<seq<Series>>): (r: Pager)
    requires p.searchDisplayed <= |p.allSearchResults|
    ensures r.initialized
    ensures p.initialized ==> r == p
    ensures !p.initialized ==> r == LoadMore(p.(initialized := true), fetchPage)
  {
    if !p.initialized then LoadMore(p.(initialized := true), fetchPage) else p
  }

  // ----------------------------------------------------------- invariants

  /** Every transition started at rest with the cursor inside the pool ends so. */
  lemma {:induction false} TransitionsKeepValid(p: Pager, query: string, term: string,
                             fetchPage: nat -> Fetch<seq<Series>>, searchByName: string -> Fetch<seq<Series>>)
    requires Valid(p)
    ensures Valid(LoadMore(p, fetchPage))
    ensures Valid(Search(p, query, searchByName))
    ensures Valid(WithTerm(p, term))
    ensures Valid(Refresh(p, fetchPage))
    ensures Valid(OnFocus(p, fetchPage))
    ensures Valid(Mounted(p, fetchPage))
  {
  }

  /**
   * The search window: the list is exactly the shown prefix of the pool,
   * and `hasMore` is false only once the whole pool is shown.
   */
  predicate SearchWindow(p: Pager) {
    && p.searchDisplayed <= |p.allSearchResults|
    && p.series == p.allSearchResults[..p.searchDisplayed]
    && (!p.hasMore ==> p.searchDisplayed == |p.allSearchResults|)
  }

  /** A successful search opens a search window. */
  lemma {:induction false} SearchOpensWindow(p: Pager, query: string, searchByName: string -> Fetch<seq<Series>>)
    requires !p.searchRequest && !ClearsSearch(p, query) && searchByName(query).Ok?
    ensures SearchWindow(Search(p, query, searchByName))
  {
  }

  /** A search-mode load keeps the search window. */
  lemma {:induction false} LoadMoreKeepsWindow(p: Pager, fetchPage: nat -> Fetch<seq<Series>>)
    requires SearchMode(p) && SearchWindow(p)
    ensures SearchWindow(LoadMore(p, fetchPage))
  {
    if !LoadBlocked(p) {
      var r := LoadMore(p, fetchPage);
      var pool := p.allSearchResults;
      var c := p.searchDisplayed;
      var batch := Slice(pool, c, c + PageSize);
      assert r.series == pool[..c] + batch && r.searchDisplayed == c + |batch|;
      assert pool[..c] + batch == pool[..c + |batch|] by {
        if c < |pool| {
          assert batch == pool[c..c + |batch|];
        }
      }
    }
  }

  /** `k` successive `loadMoreSeries` calls. */
  function LoadMoreTimes(p: Pager, fetchPage: nat -> Fetch<seq<Series>>, k: nat): (r: Pager)
    requires p.searchDisplayed <= |p.allSearchResults|
    ensures r.searchDisplayed <= |r.allSearchResults|
    ensures r.allSearchResults == p.allSearchResults && r.searchTerm == p.searchTerm
    decreases k
  {
    if k == 0 then p else LoadMoreTimes(LoadMore(p, fetchPage), fetchPage, k - 1)
  }

  /**
   * In search mode, from an open window at rest, `k` loads show exactly
   * the first min(pool size, cursor + 20k) results, and once that covers the
   * pool (and at least one load ran) `hasMore` is false.
   */
  lemma {:induction false} SearchLoadsDrainPool(p: Pager, fetchPage: nat -> Fetch<seq<Series>>, k: nat)
    requires SearchMode(p) && SearchWindow(p) && AtRest(p)
    ensures var r := LoadMoreTimes(p, fetchPage, k);
      && SearchWindow(r) && AtRest(r)
      && r.searchDisplayed == Min(|p.allSearchResults|, p.searchDisplayed + PageSize * k)
      && (k > 0 && p.searchDisplayed + PageSize * k >= |p.allSearchResults| ==> !r.hasMore)
    decreases k
  {
    if k > 0 {
      var q := LoadMore(p, fetchPage);
      LoadMoreKeepsWindow(p, fetchPage);
      assert q.searchDisplayed == Min(|p.allSearchResults|, p.searchDisplayed + PageSize);
      assert q.searchDisplayed == |p.allSearchResults| ==> !q.hasMore;
      SearchLoadsDrainPool(q, fetchPage, k - 1);
    }
  }

  /** Once `hasMore` is false, loads are no-ops: the catalogue is not asked again. */
  lemma {:induction false} ExhaustedLoadsChangeNothing(p: Pager, fetchPage: nat -> Fetch<seq<Series>>, k: nat)
    requires p.searchDisplayed <= |p.allSearchResults| && !p.hasMore
    ensures LoadMoreTimes(p, fetchPage, k) == p
    decreases k
  {
    if k > 0 {
      ExhaustedLoadsChangeNothing(p, fetchPage, k - 1);
    }
  }

  // ------------------------------------------------------------ scenarios

  /**
   * A search returning 25 results shows 20 with more to come; the next load
   * shows the other 5 and there is nothing more.
   */
  lemma {:induction false} SearchOfTwentyFive(p: Pager, query: string, searchByName: string -> Fetch<seq<Series>>,
                           fetchPage: nat -> Fetch<seq<Series>>)
    requires AtRest(p) && !IsBlank(p.searchTerm) && !IsBlank(query)
    requires searchByName(query).Ok? && |searchByName(query).value| == 25
    ensures var s := Search(p, query, searchByName);
      && s.series == searchByName(query).value[..20] && s.hasMore
      && var l := LoadMore(s, fetchPage);
      && l.series == searchByName(query).value && !l.hasMore
  {
    var s := Search(p, query, searchByName);
    var results := searchByName(query).value;
    assert s.series == results[..20];
    var l := LoadMore(s, fetchPage);
    assert l.series == results[..20] + results[20..25];
    assert results[..20] + results[20..25] == results;
  }

  /**
   * Browsing from the first page: a page of two items is shown and page 1
   * becomes next; an empty page 1 then clears `hasMore`; from there on any
   * number of loads changes nothing.
   */
  lemma {:induction false} BrowseToTheEnd(p: Pager, fetchPage: nat -> Fetch<seq<Series>>, a: Series, b: Series, k: nat)
    requires Valid(p) && !SearchMode(p) && p.series == [] && p.page == 0 && p.hasMore
    requires fetchPage(0) == Ok([a, b]) && fetchPage(1) == Ok([])
    ensures var one := LoadMore(p, fetchPage);
      && one.series == [a, b] && one.page == 1 && one.hasMore
      && var two := LoadMore(one, fetchPage);
      && two.series == [a, b] && !two.hasMore
      && LoadMoreTimes(two, fetchPage, k) == two
  {
    var two := LoadMore(LoadMore(p, fetchPage), fetchPage);
    ExhaustedLoadsChangeNothing(two, fetchPage, k);
  }

  /** Clearing a shown search rewinds to an empty first browse page with no request made. */
  lemma {:induction false} ClearingSearchRewinds(p: Pager, query: string, searchByName: string -> Fetch<seq<Series>>)
    requires !p.searchRequest && IsBlank(query) && !IsBlank(p.searchTerm)
    ensures var r := Search(p, query, searchByName);
      r.series == [] && r.allSearchResults == [] && r.page == 0 && r.hasMore && r.error == None
      && r.searchDisplayed == 0
      && r == Search(p, query, (q: string) => OtherFailure)
  {
  }

  // -------------------------------------------------------- the hook state

  /** The state of one `useSeriesData` hook. */
  class SeriesPager {
    var series: seq<Series>
    var allSearchResults: seq<Series>
    var loading: bool
    var error: Option<APIError>
    var searchTerm: string
    var page: nat
    var hasMore: bool
    var searchDisplayed: nat
    var initialized: bool
    var searchRequest: bool
    var loadRequest: bool

    function State(): Pager
      reads this
    {
      Pager(series, allSearchResults, loading, error, searchTerm, page, hasMore, searchDisplayed,
            initialized, searchRequest, loadRequest)
    }

    constructor ()
      ensures State() == Initial()
    {
      series := [];
      allSearchResults := [];
      loading := false;
      error := None;
      searchTerm := [];
      page := 0;
      hasMore := true;
      searchDisplayed := 0;
      initialized := false;
      searchRequest := false;
      loadRequest := false;
    }

    /** The search-mode body of `loadMoreSeries`: append the next pool batch. */
    method ApplyNextBatch()
      requires searchDisplayed <= |allSearchResults| && hasMore
      modifies this
      ensures State() == NextBatch(old(State()))
    {
      var nextBatch := Slice(allSearchResults, searchDisplayed, searchDisplayed + PageSize);
      if |nextBatch| > 0 {
        series := series + nextBatch;
        if searchDisplayed + |nextBatch| >= |allSearchResults| {
          hasMore := false;
        }
        searchDisplayed := searchDisplayed + |nextBatch|;
      } else {
        hasMore := false;
      }
    }

    /** The browse-mode body of `loadMoreSeries`, given what the page request produced. */
    method ApplyNextPage(fetched: Fetch<seq<Series>>)
      requires hasMore
      modifies this
      ensures State() == NextPage(old(State()), fetched)
    {
      match fetched {
        case Ok(newSeries) =>
          if |newSeries| == 0 {
            hasMore := false;
          } else {
            series := series + newSeries;
            page := page + 1;
          }
        case _ =>
          error := Some(ToAPIError(fetched, LoadFailed));
      }
    }

    method LoadMoreSeries(fetchPage: nat -> Fetch<seq<Series>>)
      requires searchDisplayed <= |allSearchResults|
      modifies this
      ensures State() == LoadMore(old(State()), fetchPage)
    {
      if loading || !hasMore || loadRequest {
        return;
      }
      loadRequest := true;
      loading := true;
      error := None;
      assert State() == old(State()).(loadRequest := true, loading := true, error := None);
      if !IsBlank(searchTerm) {
        ApplyNextBatch();
      } else {
        ApplyNextPage(fetchPage(page));
      }
      loading := false;
      loadRequest := false;
    }

    /** What `handleSearch` does with the settled query. */
    method ApplySearchResult(fetched: Fetch<seq<Series>>)
      modifies this
      ensures State() == Searched(old(State()), fetched)
    {
      match fetched {
        case Ok(searchResults) =>
          allSearchResults := searchResults;
          var firstBatch := Slice(searchResults, 0, PageSize);
          series := firstBatch;
          searchDisplayed := |firstBatch|;
          hasMore := |searchResults| > |firstBatch|;
        case _ =>
          error := Some(ToAPIError(fetched, SearchFailed));
      }
    }

    /** The resets of `handleSearch` when the query is cleared. */
    method ClearSearch()
      modifies this
      ensures State() == ClearedSearch(old(State()))
    {
      series := [];
      allSearchResults := [];
      page := 0;
      hasMore := true;
      searchDisplayed := 0;
      error := None;
      searchRequest := false;
    }

    method HandleSearch(searchQuery: string, searchByName: string -> Fetch<seq<Series>>)
      modifies this
      ensures State() == Search(old(State()), searchQuery, searchByName)
    {
      if searchRequest {
        return;
      }
      if IsBlank(searchQuery) && !IsBlank(searchTerm) {
        ClearSearch();
        return;
      }
      searchRequest := true;
      loading := true;
      error := None;
      assert State() == old(State()).(searchRequest := true, loading := true, error := None);
      ApplySearchResult(searchByName(searchQuery));
      loading := false;
      searchRequest := false;
    }

    method SetSearchTerm(term: string)
      modifies this
      ensures State() == WithTerm(old(State()), term)
    {
      searchTerm := term;
    }

    /** What `refreshSeries` and `refreshOnFocus` do with the settled page-0 request. */
    method ApplyFirstPage(fetched: Fetch<seq<Series>>)
      modifies this
      ensures State() == FirstPage(old(State()), fetched)
    {
      match fetched {
        case Ok(newSeries) =>
          if |newSeries| > 0 {
            series := newSeries;
            page := 1;
            hasMore := true;
          } else {
            hasMore := false;
          }
        case _ =>
          error := Some(ToAPIError(fetched, LoadFailed));
      }
    }

    /** The resets at the start of `refreshSeries`. */
    method ClearForRefresh()
      modifies this
      ensures State() == Cleared(old(State()))
    {
      series := [];
      allSearchResults := [];
      page := 0;
      hasMore := true;
      searchDisplayed := 0;
      error := None;
      searchTerm := [];
    }

    method RefreshSeries(fetchPage: nat -> Fetch<seq<Series>>)
      modifies this
      ensures State() == Refresh(old(State()), fetchPage)
    {
      ClearForRefresh();
      loading := true;
      ApplyFirstPage(fetchPage(0));
      loading := false;
    }

    method RefreshOnFocus(fetchPage: nat -> Fetch<seq<Series>>)
      modifies this
      ensures State() == OnFocus(old(State()), fetchPage)
    {
      if IsBlank(searchTerm) && |series| == 0 {
        loading := true;
        error := None;
        assert State() == old(State()).(loading := true, error := None);
        ApplyFirstPage(fetchPage(0));
        loading := false;
      }
    }

    method Mount(fetchPage: nat -> Fetch<seq<Series>>)
      requires searchDisplayed <= |allSearchResults|
      modifies this
      ensures State() == Mounted(old(State()), fetchPage)
    {
      if !initialized {
        initialized := true;
        LoadMoreSeries(fetchPage);
      }
    }
  }
}
