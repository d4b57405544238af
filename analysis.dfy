/** The state of the analysis page: the filter record edited key by key, the
    category list and the orders fetched with the current filters. */
module Analysis {
  import opened Wrappers
  import opened Entities
  import opened Api

  /** The category list shown when the server gives none. */
  const MockCategories: seq<string> :=
    ["Asosiy ovqat", "Grill", "Fast food", "Suyuq ovqat", "Salat", "Desert", "Ichimlik"]

  /** The filter record as first rendered and after a reset: five keys, all `''`. */
  const InitialFilters: seq<Entry> := [
    Entry("start_date", Text("")),
    Entry("end_date", Text("")),
    Entry("category", Text("")),
    Entry("min_price", Text("")),
    Entry("max_price", Text("")) ]

  const ExportErrorMessage := "Export qilishda xatolik yuz berdi"

  // ---------------------------------------------------------------------
  // The filter record, an object whose keys keep their insertion order
  // ---------------------------------------------------------------------

  function Keys(record: seq<Entry>): (keys: seq<string>)
    ensures |keys| == |record|
    ensures forall i :: 0 <= i < |record| ==> keys[i] == record[i].key
  {
    if record == [] then [] else [record[0].key] + Keys(record[1..])
  }

  /** No key occurs twice, as in a JavaScript object. */
  ghost predicate UniqueKeys(record: seq<Entry>)
  {
    forall i, j :: 0 <= i < j < |record| ==> record[i].key != record[j].key
  }

  /** `record[key]`, absent when the record has no such key. */
  function Lookup(record: seq<Entry>, key: string): Option<Value>
  {
    if record == [] then None
    else if record[0].key == key then Some(record[0].value)
    else Lookup(record[1..], key)
  }

  /** `{ ...record, [key]: value }`: an existing key keeps its place and takes
      the new value; a new key is added at the end. */
  function Assign(record: seq<Entry>, key: string, value: Value): seq<Entry>
  {
    if record == [] then [Entry(key, value)]
    else if record[0].key == key then [Entry(key, value)] + record[1..]
    else [record[0]] + Assign(record[1..], key, value)
  }

  /** After an assignment the key holds the new value and every other key
      holds what it held before. */
  lemma {:induction false} AssignLookup(record: seq<Entry>, key: string, value: Value, other: string)
    ensures Lookup(Assign(record, key, value), key) == Some(value)
    ensures other != key ==> Lookup(Assign(record, key, value), other) == Lookup(record, other)
  {
    if record != [] && record[0].key != key {
      AssignLookup(record[1..], key, value, other);
    }
  }

  /** An assignment to a key the record has keeps the keys and their order. */
  lemma {:induction false} AssignKeepsKeys(record: seq<Entry>, key: string, value: Value)
    requires key in Keys(record)
    ensures Keys(Assign(record, key, value)) == Keys(record)
  {
    if record[0].key != key {
      assert key in Keys(record[1..]);
      AssignKeepsKeys(record[1..], key, value);
    }
  }

  /** Assigning a key twice is assigning the second value. */
  lemma {:induction false} AssignTwice(record: seq<Entry>, key: string, v1: Value, v2: Value)
    ensures Assign(Assign(record, key, v1), key, v2) == Assign(record, key, v2)
  {
    if record != [] && record[0].key != key {
      AssignTwice(record[1..], key, v1, v2);
    }
  }

  /** A key occurs in the record after the assignment only if it occurred
      before or is the key assigned. */
  lemma {:induction false} AssignEntries(record: seq<Entry>, key: string, value: Value)
    ensures forall e :: e in Assign(record, key, value) ==> e in record || e.key == key
  {
    if record != [] && record[0].key != key {
      AssignEntries(record[1..], key, value);
    }
  }

  /** An assignment never duplicates a key, so `Lookup`, which returns the
      first entry with the key, sees the only one, as a JavaScript object does. */
  lemma {:induction false} AssignUnique(record: seq<Entry>, key: string, value: Value)
    requires UniqueKeys(record)
    ensures UniqueKeys(Assign(record, key, value))
  {
    if record != [] {
      var rest := record[1..];
      assert UniqueKeys(rest) by {
        forall i, j | 0 <= i < j < |rest| ensures rest[i].key != rest[j].key {
          assert rest[i] == record[i + 1] && rest[j] == record[j + 1];
        }
      }
      if record[0].key == key {
        var r := [Entry(key, value)] + rest;
        forall i, j | 0 <= i < j < |r| ensures r[i].key != r[j].key {
          assert r[j] == record[j];
          if i > 0 { assert r[i] == record[i]; }
        }
      } else {
        AssignUnique(rest, key, value);
        AssignEntries(rest, key, value);
        var tail := Assign(rest, key, value);
        var r := [record[0]] + tail;
        forall j | 0 <= j < |tail| ensures tail[j].key != record[0].key {
          assert tail[j] in tail;
          if tail[j] in rest {
            var m :| 0 <= m < |rest| && rest[m] == tail[j];
            assert record[m + 1] == rest[m];
          }
        }
        forall i, j | 0 <= i < j < |r| ensures r[i].key != r[j].key {
          assert r[j] == tail[j - 1];
          if i > 0 { assert r[i] == tail[i - 1]; }
        }
      }
    }
  }

  /** The initial record has five distinct keys. */
  lemma InitialFiltersUnique()
    ensures UniqueKeys(InitialFilters)
  {
  }

  /** The initial record, all of whose values are `''`, yields no query parameter. */
  lemma InitialFiltersSendNothing()
    ensures KeepTruthy(InitialFilters) == []
  {
    KeepTruthyNone(InitialFilters);
  }

  /** A row of the orders table: the order and its line total. */
  datatype Row = Row(order: Order, total: int)

  /** The table rows, one per order in order, each with `price * quantity`. */
  function Rows(orders: seq<Order>): (rows: seq<Row>)
    ensures |rows| == |orders|
    ensures forall i :: 0 <= i < |orders| ==>
      rows[i].order == orders[i] && rows[i].total == orders[i].price * orders[i].quantity
  {
    seq(|orders|, i requires 0 <= i < |orders| => Row(orders[i], orders[i].price * orders[i].quantity))
  }

  class AnalysisPage {
    var loading: bool
    var orders: seq<Order>
    var categories: seq<string>
    var filters: seq<Entry>
    /** The orders generated at random when the page module loads. */
    const mockOrders: seq<Order>

    /** The page as first rendered. */
    constructor (mockOrders: seq<Order>)
      ensures !loading && orders == [] && categories == []
      ensures filters == InitialFilters && this.mockOrders == mockOrders
      ensures UniqueKeys(filters)
    {
      InitialFiltersUnique();
      loading, orders, categories := false, [], [];
      filters := InitialFilters;
      this.mockOrders := mockOrders;
    }

    /** `handleFilterChange(key, value)`. */
    method HandleFilterChange(key: string, value: Value)
      modifies this`filters
      ensures filters == Assign(old(filters), key, value)
      ensures Lookup(filters, key) == Some(value)
      ensures forall k :: k != key ==> Lookup(filters, k) == Lookup(old(filters), k)
      ensures UniqueKeys(old(filters)) ==> UniqueKeys(filters)
    {
      if UniqueKeys(filters) {
        AssignUnique(filters, key, value);
      }
      forall k | k != key
        ensures Lookup(Assign(filters, key, value), k) == Lookup(filters, k)
      {
        AssignLookup(filters, key, value, k);
      }
      AssignLookup(filters, key, value, key);
      filters := Assign(filters, key, value);
    }

    /** `handleResetFilters`: every key back to `''`, as first rendered. The
        refetch it schedules 100 ms later is not modelled. */
    method HandleResetFilters()
      modifies this`filters
      ensures filters == InitialFilters && UniqueKeys(filters)
    {
      InitialFiltersUnique();
      filters := InitialFilters;
    }

    /** The end of `fetchCategories`: a non-empty list, otherwise the mock list. */
    method FinishFetchCategories(outcome: Fetched<seq<string>>)
      modifies this`categories
      ensures HasRows(outcome) ==> categories == outcome.body.value
      ensures !HasRows(outcome) ==> categories == MockCategories
    {
      categories := if HasRows(outcome) then outcome.body.value else MockCategories;
    }

    /** The start of `fetchOrders`: sets `loading` and requests the orders
        with the truthy filters. */
    method StartFetchOrders() returns (request: Request)
      modifies this`loading
      ensures loading
      ensures request == Request("/api/orders", KeepTruthy(filters))
    {
      loading := true;
      request := GetOrders(Some(filters));
    }

    /** The end of `fetchOrders`: a non-empty list, otherwise the mock orders;
        loading is over in every case. */
    method FinishFetchOrders(outcome: Fetched<seq<Order>>)
      modifies this`orders, this`loading
      ensures !loading
      ensures HasRows(outcome) ==> orders == outcome.body.value
      ensures !HasRows(outcome) ==> orders == mockOrders
    {
      orders := if HasRows(outcome) then outcome.body.value else mockOrders;
      loading := false;
    }

    /** `handleExport`: exports with the current filters and alerts on failure. */
    method HandleExport(response: Fetched<seq<bv8>>) returns (request: Request, result: ExportResult, alert: Option<string>)
      ensures request == Request("/api/export/excel", KeepTruthy(filters))
      ensures alert.Some? <==> response.Failed?
      ensures alert.Some? ==> alert.value == ExportErrorMessage
      ensures result.Saved? ==> result.download.filename == ExportFilename
    {
      request, result := ExportToExcel(Some(filters), response);
      alert := if result.Rejected? then Some(ExportErrorMessage) else None;
    }

    /** The result count and the table rows. */
    method Results() returns (count: nat, rows: seq<Row>)
      ensures count == |orders| == |rows|
      ensures forall i :: 0 <= i < |rows| ==> rows[i].total == orders[i].price * orders[i].quantity
    {
      rows := Rows(orders);
      count := |orders|;
    }
  }
}
