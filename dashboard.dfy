/** The state of the dashboard page: seven slots filled by one batch of
    requests, the overview replaced by live-update messages, and the time
    trend refetched when the period changes. */
module Dashboard {
  import opened Wrappers
  import opened Entities
  import MockData
  import Api
  import StatCard

  /** The top foods fallback: the first ten mock foods. */
  const TopFoodsFallback := MockData.MockFoods[..10]

  /** The customer analysis fallback. */
  const DefaultCustomerStats := CustomerStats([], 0.0, 0.0)

  /** `value || 0` for a number the overview may lack. */
  function OrZero(x: Option<real>): (r: real)
    ensures x.None? ==> r == 0.0
    ensures x.Some? ==> r == x.value
  {
    x.GetOr(0.0)
  }

  /** The six requests of one `fetchData` batch. */
  function BatchRequests(period: Api.Period): (r: seq<Api.Request>)
    ensures |r| == 6
    ensures r[1] == Api.GetTopFoods(Some(10)) && r[3] == Api.GetTimeTrend(Some(period))
  {
    [Api.OverviewRequest, Api.GetTopFoods(Some(10)), Api.CategoryAnalysisRequest,
     Api.GetTimeTrend(Some(period)), Api.HeatmapRequest, Api.CustomerAnalysisRequest]
  }

  class DashboardPage {
    var loading: bool
    var overview: Overview
    var topFoods: seq<FoodStat>
    var categories: seq<CategoryStat>
    /** The trend may hold `null`: the period refetch stores what it receives. */
    var timeTrend: Option<seq<TrendPoint>>
    var heatmap: Option<Heatmap>
    /** `None` stands for the initial empty object `{}`. */
    var customerStats: Option<CustomerStats>
    var period: Api.Period

    /** The page as first rendered. */
    constructor ()
      ensures loading && period == Api.Daily
      ensures overview == EmptyOverview && topFoods == [] && categories == []
      ensures timeTrend == Some([]) && heatmap == None && customerStats == None
    {
      loading, period := true, Api.Daily;
      overview, topFoods, categories := EmptyOverview, [], [];
      timeTrend, heatmap, customerStats := Some([]), None, None;
    }

    /** The start of `fetchData`: sets `loading` and sends the six requests. */
    method StartFetch() returns (requests: seq<Api.Request>)
      modifies this`loading
      ensures loading
      ensures requests == BatchRequests(period)
    {
      loading := true;
      requests := BatchRequests(period);
    }

    /** The end of `fetchData`: each slot takes its own response, or its own
        fallback when that request failed or gave nothing; the heatmap is
        stored as received, `null` included. One slot's outcome never affects
        another slot. */
    method FinishFetch(
      overviewOutcome: Fetched<Overview>,
      topFoodsOutcome: Fetched<seq<FoodStat>>,
      categoriesOutcome: Fetched<seq<CategoryStat>>,
      trendOutcome: Fetched<seq<TrendPoint>>,
      heatmapOutcome: Fetched<Heatmap>,
      customersOutcome: Fetched<CustomerStats>)
      modifies this`loading, this`overview, this`topFoods, this`categories,
               this`timeTrend, this`heatmap, this`customerStats
      ensures !loading
      ensures overview == overviewOutcome.OrElse(MockData.MockOverviewStats)
      ensures topFoods == topFoodsOutcome.OrElse(TopFoodsFallback)
      ensures categories == categoriesOutcome.OrElse(MockData.MockCategoryAnalysis)
      ensures timeTrend == Some(trendOutcome.OrElse([]))
      ensures heatmap == (if heatmapOutcome.Returned? then heatmapOutcome.body else None)
      ensures customerStats == Some(customersOutcome.OrElse(DefaultCustomerStats))
      ensures topFoodsOutcome.Failed? || topFoodsOutcome.body.None? ==> |topFoods| == 10
    {
      overview := overviewOutcome.OrElse(MockData.MockOverviewStats);
      topFoods := topFoodsOutcome.OrElse(TopFoodsFallback);
      categories := categoriesOutcome.OrElse(MockData.MockCategoryAnalysis);
      timeTrend := Some(trendOutcome.OrElse([]));
      heatmap := if heatmapOutcome.Returned? then heatmapOutcome.body else None;
      customerStats := Some(customersOutcome.OrElse(DefaultCustomerStats));
      loading := false;
    }

    /** The live-update callback: a message with `stats` replaces the overview
        with exactly those stats; any other message changes nothing. */
    method OnPush(event: PushEvent)
      modifies this`overview
      ensures event.stats.Some? ==> overview == event.stats.value
      ensures event.stats.None? ==> overview == old(overview)
    {
      if event.stats.Some? {
        overview := event.stats.value;
      }
    }

    /** A period button: selects the period. The trend effect depends on the
        period only, so a request is sent when the period changes and none
        when the active button is pressed again. */
    method SetPeriod(p: Api.Period) returns (request: Option<Api.Request>)
      modifies this`period
      ensures period == p
      ensures p == old(period) ==> request == None
      ensures p != old(period) ==> request == Some(Api.GetTimeTrend(Some(p)))
    {
      request := if p == period then None else Some(Api.GetTimeTrend(Some(p)));
      period := p;
    }

    /** The end of the period refetch: the trend takes the response as
        received; a failed request leaves it as it was. */
    method FinishTrend(outcome: Fetched<seq<TrendPoint>>)
      modifies this`timeTrend
      ensures outcome.Returned? ==> timeTrend == outcome.body
      ensures outcome.Failed? ==> timeTrend == old(timeTrend)
    {
      if outcome.Returned? {
        timeTrend := outcome.body;
      }
    }

    /** The values of the four cards, a missing number showing as 0; the two
        money cards get a currency string. */
    function Cards(): (cards: seq<StatCard.CardValue>)
      reads this
      ensures |cards| == 4
      ensures cards[0].Number? && cards[3].Number? && cards[1].Currency? && cards[2].Currency?
      ensures overview.totalOrders.None? ==> cards[0].n == 0.0
      ensures overview.totalOrders.Some? ==> cards[0].n == overview.totalOrders.value
      ensures overview.totalRevenue.None? ==> cards[1].amount == 0.0
      ensures overview.totalRevenue.Some? ==> cards[1].amount == overview.totalRevenue.value
      ensures overview.averageCheck.None? ==> cards[2].amount == 0.0
      ensures overview.averageCheck.Some? ==> cards[2].amount == overview.averageCheck.value
      ensures overview.totalCustomers.None? ==> cards[3].n == 0.0
      ensures overview.totalCustomers.Some? ==> cards[3].n == overview.totalCustomers.value
    {
      [StatCard.Number(OrZero(overview.totalOrders)),
       StatCard.Currency(OrZero(overview.totalRevenue)),
       StatCard.Currency(OrZero(overview.averageCheck)),
       StatCard.Number(OrZero(overview.totalCustomers))]
    }
  }

  /** A failed top-foods request next to a successful category request: the
      categories come from the server and the top foods from the fallback. */
  method IndependentFallback(categories: seq<CategoryStat>) returns (page: DashboardPage)
    ensures page.categories == categories
    ensures page.topFoods == TopFoodsFallback
    ensures !page.loading
  {
    page := new DashboardPage();
    var _ := page.StartFetch();
    page.FinishFetch(Failed, Failed, Returned(Some(categories)), Failed, Failed, Failed);
  }
}
