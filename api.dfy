/** The remote data client: the request each getter sends, the query built
    from a filter object, and the spreadsheet export. Transport (axios), the
    base URL and the percent-encoding of `URLSearchParams` are not modelled:
    a request is its path and its list of query parameters, and a response
    is a `Fetched` value supplied by the caller. */
module Api {
  import opened Wrappers

  /** A JavaScript value held in a filter object. */
  datatype Value = Text(s: string) | Number(n: real) | Flag(b: bool) | Null | Undefined

  /** JavaScript truthiness: `''`, `0`, `false`, `null` and `undefined` are falsy. */
  predicate Truthy(v: Value)
  {
    match v
    case Text(s) => s != ""
    case Number(n) => n != 0.0
    case Flag(b) => b
    case Null => false
    case Undefined => false
  }

  /** One `[key, value]` pair of `Object.entries(filters)`, or one query parameter. */
  datatype Entry = Entry(key: string, value: Value)

  datatype Request = Request(path: string, query: seq<Entry>)

  /** The `period` values the time trend accepts. */
  datatype Period = Daily | Weekly | Monthly | Yearly {
    function Name(): string
    {
      match this
      case Daily => "daily"
      case Weekly => "weekly"
      case Monthly => "monthly"
      case Yearly => "yearly"
    }
  }

  const OverviewRequest := Request("/api/stats/overview", [])
  const CategoryAnalysisRequest := Request("/api/stats/category-analysis", [])
  const HeatmapRequest := Request("/api/stats/heatmap", [])
  const CustomerAnalysisRequest := Request("/api/stats/customer-analysis", [])
  const CategoriesRequest := Request("/api/categories", [])

  /** `getTopFoods(limit = 10)`: an absent limit means 10. */
  function GetTopFoods(limit: Option<int>): (r: Request)
    ensures r.path == "/api/stats/top-foods"
    ensures limit.None? ==> r.query == [Entry("limit", Number(10.0))]
    ensures limit.Some? ==> r.query == [Entry("limit", Number(limit.value as real))]
  {
    Request("/api/stats/top-foods", [Entry("limit", Number(limit.GetOr(10) as real))])
  }

  /** `getTimeTrend(period = 'daily')`: an absent period means daily. */
  function GetTimeTrend(period: Option<Period>): (r: Request)
    ensures r.path == "/api/stats/time-trend"
    ensures period.None? ==> r.query == [Entry("period", Text("daily"))]
    ensures period.Some? ==> r.query == [Entry("period", Text(period.value.Name()))]
  {
    Request("/api/stats/time-trend", [Entry("period", Text(period.GetOr(Daily).Name()))])
  }

  // ---------------------------------------------------------------------
  // Query building
  // ---------------------------------------------------------------------

  /** The query parameters of a filter object: its truthy entries, in entry order. */
  function KeepTruthy(entries: seq<Entry>): seq<Entry>
  {
    if entries == [] then []
    else
      var last := entries[|entries| - 1];
      KeepTruthy(entries[..|entries| - 1]) + (if Truthy(last.value) then [last] else [])
  }

  /** The `forEach` loop that appends each truthy entry to the parameters. */
  method BuildQuery(entries: seq<Entry>) returns (params: seq<Entry>)
    ensures params == KeepTruthy(entries)
  {
    params := [];
    var i := 0;
    while i < |entries|
      invariant 0 <= i <= |entries|
      invariant params == KeepTruthy(entries[..i])
    {
      assert entries[..i + 1][..i] == entries[..i];
      if Truthy(entries[i].value) {
        params := params + [entries[i]];
      }
      i := i + 1;
    }
    assert entries[..i] == entries;
  }

  /** Building the query of two runs of entries is building each in turn:
      the kept entries stay in entry order. */
  lemma {:induction false} KeepTruthyAppend(a: seq<Entry>, b: seq<Entry>)
    ensures KeepTruthy(a + b) == KeepTruthy(a) + KeepTruthy(b)
  {
    if b == [] {
      assert a + b == a;
    } else {
      KeepTruthyAppend(a, b[..|b| - 1]);
      assert (a + b)[..|a + b| - 1] == a + b[..|b| - 1];
    }
  }

  /** The query holds exactly the truthy entries, each as often as the
      filter object has it; so no falsy value is ever sent. */
  lemma {:induction false} KeepTruthyExactly(entries: seq<Entry>)
    ensures forall e :: multiset(KeepTruthy(entries))[e] == if Truthy(e.value) then multiset(entries)[e] else 0
    ensures forall e :: e in KeepTruthy(entries) ==> Truthy(e.value)
  {
    if entries != [] {
      var init := entries[..|entries| - 1];
      KeepTruthyExactly(init);
      assert entries == init + [entries[|entries| - 1]];
    }
  }

  /** A filter object with no truthy value yields an empty query. */
  lemma {:induction false} KeepTruthyNone(entries: seq<Entry>)
    requires forall i :: 0 <= i < |entries| ==> !Truthy(entries[i].value)
    ensures KeepTruthy(entries) == []
  {
    if entries != [] {
      KeepTruthyNone(entries[..|entries| - 1]);
    }
  }

  /** Building a query from an already built query changes nothing. */
  lemma {:induction false} KeepTruthyIdempotent(entries: seq<Entry>)
    ensures KeepTruthy(KeepTruthy(entries)) == KeepTruthy(entries)
  {
    if entries != [] {
      var init, last := entries[..|entries| - 1], entries[|entries| - 1];
      KeepTruthyIdempotent(init);
      KeepTruthyAppend(KeepTruthy(init), if Truthy(last.value) then [last] else []);
      if Truthy(last.value) {
        assert [last][..0] == [];
      }
    }
  }

  /** `getOrders(filters = {})`: the orders request carries the built query. */
  method GetOrders(filters: Option<seq<Entry>>) returns (r: Request)
    ensures r == Request("/api/orders", KeepTruthy(filters.GetOr([])))
  {
    var params := BuildQuery(filters.GetOr([]));
    r := Request("/api/orders", params);
  }

  // ---------------------------------------------------------------------
  // Spreadsheet export
  // ---------------------------------------------------------------------

  const ExportFilename := "orders.xlsx"

  datatype Download = Download(filename: string, content: Option<seq<bv8>>)

  /** The export either saves a download or rejects with the request's error. */
  datatype ExportResult = Saved(download: Download) | Rejected

  /** `exportToExcel(filters = {})`: requests the spreadsheet with the built
      query and saves the response body under a fixed file name. */
  method ExportToExcel(filters: Option<seq<Entry>>, response: Fetched<seq<bv8>>)
    returns (request: Request, result: ExportResult)
    ensures request == Request("/api/export/excel", KeepTruthy(filters.GetOr([])))
    ensures result.Rejected? <==> response.Failed?
    ensures result.Saved? ==> result.download == Download(ExportFilename, response.body)
  {
    var params := BuildQuery(filters.GetOr([]));
    request := Request("/api/export/excel", params);
    if response.Failed? {
      result := Rejected;
    } else {
      result := Saved(Download(ExportFilename, response.body));
    }
  }
}
