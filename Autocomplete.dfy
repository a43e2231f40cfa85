/** The autocomplete controller (src/hooks/useAutocomplete.ts): six state
    cells changed by the input handlers and by the debounced search body.
    `searchFn` runs outside the model: a search that starts returns the query
    it calls `searchFn` with, and its outcome is handed back to a separate
    settle step, so a search still in flight can interleave with later
    input. Nothing ties a result to the query that requested it. */
module Autocomplete {
  import opened Js

  const DefaultDebounceMs: nat := 300
  const SearchFailed := "Failed to fetch suggestions"

  /** How a `searchFn` promise settled. */
  datatype SearchOutcome<T> = Results(items: seq<T>) | Failed(thrown: Thrown)

  /** The query-change effect: a changed query becomes the debounced call's
      pending argument, replacing any earlier one. */
  function Requested(oldQuery: string, newQuery: string, pending: Option<string>): (r: Option<string>)
    ensures newQuery != oldQuery ==> r == Some(newQuery)
    ensures newQuery == oldQuery ==> r == pending
  {
    if newQuery != oldQuery then Some(newQuery) else pending
  }

  class AutocompleteController<T> {
    const display: T -> string
    const debounceMs: nat
    var query: string
    var suggestions: seq<T>
    var loading: bool
    var error: Option<string>
    var selectedItem: Option<T>
    var isOpen: bool
    /** The argument of the debounced call waiting for its timer, if any. */
    var pendingSearch: Option<string>

    /** The state at mount; the mount run of the query effect leaves a
        search for "" pending. */
    constructor (display: T -> string, debounceMs: nat)
      ensures this.display == display && this.debounceMs == debounceMs
      ensures query == "" && suggestions == [] && !loading && error == None
      ensures selectedItem == None && !isOpen && pendingSearch == Some("")
    {
      this.display := display;
      this.debounceMs := debounceMs;
      query := "";
      suggestions := [];
      loading := false;
      error := None;
      selectedItem := None;
      isOpen := false;
      pendingSearch := Some("");
    }

    /** `handleInputChange`: suggestions, loading and error are untouched. */
    method HandleInputChange(value: string)
      modifies this
      ensures query == value && selectedItem == None && isOpen
      ensures suggestions == old(suggestions) && loading == old(loading) && error == old(error)
      ensures pendingSearch == Requested(old(query), value, old(pendingSearch))
    {
      pendingSearch := Requested(query, value, pendingSearch);
      query := value;
      selectedItem := None;
      isOpen := true;
    }

    /** `handleSelect`. */
    method HandleSelect(item: T)
      modifies this
      ensures selectedItem == Some(item) && query == display(item) && !isOpen && suggestions == []
      ensures loading == old(loading) && error == old(error)
      ensures pendingSearch == Requested(old(query), display(item), old(pendingSearch))
    {
      pendingSearch := Requested(query, display(item), pendingSearch);
      selectedItem := Some(item);
      query := display(item);
      isOpen := false;
      suggestions := [];
    }

    /** `syncValue`: the selection survives exactly when its display value
        is the new query. */
    method SyncValue(value: string)
      modifies this
      ensures query == value
      ensures selectedItem == if old(selectedItem).Some? && display(old(selectedItem).value) == value
                              then old(selectedItem) else None
      ensures suggestions == old(suggestions) && loading == old(loading) && error == old(error)
      ensures isOpen == old(isOpen)
      ensures pendingSearch == Requested(old(query), value, old(pendingSearch))
    {
      pendingSearch := Requested(query, value, pendingSearch);
      query := value;
      if selectedItem.Some? && display(selectedItem.value) == value {
        return;
      }
      selectedItem := None;
    }

    /** `clear`: loading and error are left as they are. */
    method Clear()
      modifies this
      ensures query == "" && selectedItem == None && suggestions == [] && !isOpen
      ensures loading == old(loading) && error == old(error)
      ensures pendingSearch == Requested(old(query), "", old(pendingSearch))
    {
      pendingSearch := Requested(query, "", pendingSearch);
      query := "";
      selectedItem := None;
      suggestions := [];
      isOpen := false;
    }

    /** The debounce timer fires: the search body runs up to its `await`.
        A blank query empties the suggestions and stops loading without a
        call; any other query turns loading on, clears the error and
        returns the query `searchFn` is called with. */
    method FireSearch() returns (call: Option<string>)
      modifies this
      ensures pendingSearch == None
      ensures old(pendingSearch).None? ==>
                call == None && suggestions == old(suggestions) && loading == old(loading) && error == old(error)
      ensures old(pendingSearch).Some? && Blank(old(pendingSearch).value) ==>
                call == None && suggestions == [] && !loading && error == old(error)
      ensures old(pendingSearch).Some? && !Blank(old(pendingSearch).value) ==>
                call == old(pendingSearch) && suggestions == old(suggestions) && loading && error == None
      ensures query == old(query) && selectedItem == old(selectedItem) && isOpen == old(isOpen)
    {
      call := None;
      if pendingSearch.Some? {
        var searchQuery := pendingSearch.value;
        pendingSearch := None;
        if Blank(searchQuery) {
          suggestions := [];
          loading := false;
          return;
        }
        loading := true;
        error := None;
        call := Some(searchQuery);
      }
    }

    /** A `searchFn` promise settles: results replace the suggestions, a
        failure records its message and empties them; loading is off either
        way. */
    method SettleSearch(outcome: SearchOutcome<T>)
      modifies this
      ensures outcome.Results? ==> suggestions == outcome.items && error == old(error)
      ensures outcome.Failed? ==> suggestions == [] && error == Some(MessageOf(outcome.thrown, SearchFailed))
      ensures !loading
      ensures query == old(query) && selectedItem == old(selectedItem) && isOpen == old(isOpen)
      ensures pendingSearch == old(pendingSearch)
    {
      if outcome.Results? {
        suggestions := outcome.items;
      } else {
        error := Some(MessageOf(outcome.thrown, SearchFailed));
        suggestions := [];
      }
      loading := false;
    }
  }

  function Identity(s: string): string
  {
    s
  }

  /** Selecting an item and then syncing the field to its display value
      keeps the selection; syncing to anything else drops it. */
  method SelectThenSync(item: string, value: string) returns (kept: Option<string>)
    ensures kept == if value == item then Some(item) else None
  {
    var c := new AutocompleteController<string>(Identity, DefaultDebounceMs);
    c.HandleSelect(item);
    c.SyncValue(value);
    kept := c.selectedItem;
  }

  /** Two searches in flight settle out of order. Once the newer one has
      settled loading is off although the older one is still running, and
      the older query's results, arriving last, replace the newer ones while
      the query stays the newer one. */
  method StaleResultOverwrites(older: seq<string>, newer: seq<string>)
    returns (shown: seq<string>, q: string, stillLoading: bool)
    ensures q == "abc" && shown == older && !stillLoading
  {
    var c := new AutocompleteController<string>(Identity, DefaultDebounceMs);
    c.HandleInputChange("ab");
    assert !Blank("ab") by { assert !IsSpace("ab"[0]); }
    var first := c.FireSearch();
    assert first == Some("ab");
    c.HandleInputChange("abc");
    assert !Blank("abc") by { assert !IsSpace("abc"[0]); }
    var second := c.FireSearch();
    assert second == Some("abc");
    c.SettleSearch(Results(newer));
    stillLoading := c.loading;
    c.SettleSearch(Results(older));
    shown, q := c.suggestions, c.query;
  }
}
