/** The state of the foods page: the food list and where it came from, the
    search term and the sort, updated by fetch completions, live-update
    messages, the refetch timer and the sort buttons. */
module FoodsPage {
  import opened Wrappers
  import opened Entities
  import opened FoodView
  import MockData
  import Api

  /** The page asks for every food: `getTopFoods(1000)`. */
  const FetchLimit := 1000

  class Foods {
    var loading: bool
    var foods: seq<FoodStat>
    var useMockData: bool
    var searchTerm: string
    var sortField: SortField
    var sortOrder: SortOrder

    /** The page as first rendered: loading, no foods, quantity descending. */
    constructor ()
      ensures loading && foods == [] && !useMockData
      ensures searchTerm == "" && sortField == Quantity && sortOrder == Desc
    {
      loading, foods, useMockData := true, [], false;
      searchTerm, sortField, sortOrder := "", Quantity, Desc;
    }

    /** The start of `fetchData`: sets `loading` and sends the request. */
    method StartFetch() returns (request: Api.Request)
      modifies this`loading
      ensures loading
      ensures request == Api.GetTopFoods(Some(FetchLimit))
    {
      loading := true;
      request := Api.GetTopFoods(Some(FetchLimit));
    }

    /** The end of `fetchData`: a non-empty list replaces the foods; an empty
        or missing list, or a failed request, shows the mock foods instead.
        Loading is over in every case. */
    method FinishFetch(outcome: Fetched<seq<FoodStat>>)
      modifies this`foods, this`useMockData, this`loading
      ensures !loading
      ensures HasRows(outcome) ==> foods == outcome.body.value && !useMockData
      ensures !HasRows(outcome) ==> foods == MockData.MockFoods && useMockData
    {
      if HasRows(outcome) {
        foods := outcome.body.value;
        useMockData := false;
      } else {
        foods := MockData.MockFoods;
        useMockData := true;
      }
      loading := false;
    }

    /** The live-update callback: a message with `stats` starts a refetch,
        any other message changes nothing. */
    method OnPush(event: PushEvent) returns (request: Option<Api.Request>)
      modifies this`loading
      ensures event.stats.Some? ==> loading && request == Some(Api.GetTopFoods(Some(FetchLimit)))
      ensures event.stats.None? ==> loading == old(loading) && request == None
    {
      if event.stats.Some? {
        var r := StartFetch();
        request := Some(r);
      } else {
        request := None;
      }
    }

    /** The search box. */
    method SetSearchTerm(term: string)
      modifies this`searchTerm
      ensures searchTerm == term
    {
      searchTerm := term;
    }

    /** `handleSort`: the active field flips the direction; another field
        becomes active, descending. */
    method HandleSort(field: SortField)
      modifies this`sortField, this`sortOrder
      ensures sortField == field
      ensures field == old(sortField) ==> sortOrder == Flip(old(sortOrder))
      ensures field != old(sortField) ==> sortOrder == Desc
    {
      if sortField == field {
        sortOrder := if sortOrder == Asc then Desc else Asc;
      } else {
        sortField := field;
        sortOrder := Desc;
      }
    }

    /** The rows of the table. The method may change no field, so the food
        list is neither reordered nor replaced by filtering and sorting. */
    method FilteredAndSortedFoods() returns (rows: seq<FoodStat>)
      ensures rows == Derived(foods, searchTerm, SortBy(sortField, sortOrder))
    {
      rows := FilteredAndSorted(foods, searchTerm, SortBy(sortField, sortOrder));
    }

    /** The summary line: the number of rows shown and the quantity they sold,
        which are those of the rows matching the search, whatever the sort. */
    method Summary() returns (soldItems: nat, totalSold: int)
      ensures soldItems == |FilterFoods(foods, searchTerm)|
      ensures totalSold == TotalSold(FilterFoods(foods, searchTerm))
    {
      var rows := FilteredAndSortedFoods();
      SummaryOfDerived(foods, searchTerm, SortBy(sortField, sortOrder));
      soldItems := |rows|;
      totalSold := TotalSold(rows);
    }
  }

  /** Pressing the active sort button twice restores the sort. */
  method SortTwiceRestores(page: Foods)
    modifies page
    ensures page.sortField == old(page.sortField) && page.sortOrder == old(page.sortOrder)
    ensures page.foods == old(page.foods) && page.searchTerm == old(page.searchTerm)
  {
    page.HandleSort(page.sortField);
    page.HandleSort(page.sortField);
  }
}
