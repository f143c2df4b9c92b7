/**
 * The people search screen's state (src/features/people/hooks/usePeopleSearch.ts).
 *
 * The remote search is a parameter `searchPeople` from the query to what
 * the awaited call produces; the 300 ms debounce that calls
 * `handleSearch` with the typed query is not part of this model.
 */
module PeopleSearch {

  import opened Types
  import opened Text

  /** The state of one `usePeopleSearch` hook. */
  class PeopleSearchState {
    var searchQuery: string
    var people: seq<Person>
    var loading: bool
    var error: Option<APIError>
    var hasSearched: bool

    /**
     * What every handler keeps: nothing is loading, results are only shown
     * after a search, and a recorded error comes with an empty, searched
     * list.
     */
    predicate Valid()
      reads this
    {
      && !loading
      && (!hasSearched ==> people == [])
      && (error.Some? ==> people == [] && hasSearched)
    }

    constructor ()
      ensures searchQuery == [] && people == [] && !loading && error == None && !hasSearched
      ensures Valid()
    {
      searchQuery := [];
      people := [];
      loading := false;
      error := None;
      hasSearched := false;
    }

    /**
     * `handleSearch`: a blank query clears the list and the error and marks
     * nothing searched, with no request; otherwise the results are shown,
     * or on failure the list is emptied and the mapped error recorded, and
     * either way the query counts as searched and `loading` ends false. The
     * blank path leaves `loading` as it was.
     */
    method HandleSearch(query: string, searchPeople: string -> Fetch<seq<Person>>)
      modifies this
      ensures searchQuery == old(searchQuery)
      ensures IsBlank(query) ==> people == [] && error == None && !hasSearched && loading == old(loading)
      ensures !IsBlank(query) ==> !loading
      ensures !IsBlank(query) && searchPeople(query).Ok? ==>
        people == searchPeople(query).value && error == None && hasSearched
      ensures !IsBlank(query) && !searchPeople(query).Ok? ==>
        people == [] && hasSearched
        && error == Some(ToAPIError(searchPeople(query), "Failed to search people"))
      ensures old(Valid()) || !IsBlank(query) ==> Valid()
    {
      if IsBlank(query) {
        people := [];
        error := None;
        hasSearched := false;
        return;
      }
      loading := true;
      error := None;
      var fetched := searchPeople(query);
      match fetched {
        case Ok(results) =>
          people := results;
          hasSearched := true;
        case _ =>
          error := Some(ToAPIError(fetched, "Failed to search people"));
          people := [];
          hasSearched := true;
      }
      loading := false;
    }

    /** `setSearchQuery`: only the query changes. */
    method SetSearchQuery(query: string)
      modifies this
      ensures searchQuery == query
      ensures people == old(people) && loading == old(loading) && error == old(error)
      ensures hasSearched == old(hasSearched)
    {
      searchQuery := query;
    }

    /** `retrySearch`: the search of the current query, run again. */
    method RetrySearch(searchPeople: string -> Fetch<seq<Person>>)
      modifies this
      ensures searchQuery == old(searchQuery)
      ensures IsBlank(searchQuery) ==> people == [] && error == None && !hasSearched && loading == old(loading)
      ensures !IsBlank(searchQuery) ==> !loading
      ensures !IsBlank(searchQuery) && searchPeople(searchQuery).Ok? ==>
        people == searchPeople(searchQuery).value && error == None && hasSearched
      ensures !IsBlank(searchQuery) && !searchPeople(searchQuery).Ok? ==>
        people == [] && hasSearched
        && error == Some(ToAPIError(searchPeople(searchQuery), "Failed to search people"))
      ensures old(Valid()) || !IsBlank(searchQuery) ==> Valid()
    {
      HandleSearch(searchQuery, searchPeople);
    }

    /** `resetSearch`: back to the initial state. */
    method ResetSearch()
      modifies this
      ensures searchQuery == [] && people == [] && !loading && error == None && !hasSearched
      ensures Valid()
    {
      searchQuery := [];
      people := [];
      error := None;
      hasSearched := false;
      loading := false;
    }
  }
}
