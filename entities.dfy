/** The records the dashboard receives from the statistics server. A field
    the server may leave out is an `Option`; counts and money in the foods
    and orders tables are integers, the other JavaScript numbers are `real`. */
module Entities {
  import opened Wrappers

  /** One row of the foods table (`food_name`, `category`, `quantity`, `revenue`). */
  datatype FoodStat = FoodStat(
    foodName: string,
    category: Option<string>,
    quantity: Option<int>,
    revenue: Option<int>)

  /** The overview statistics object. The initial `{}` has every field absent. */
  datatype Overview = Overview(
    totalOrders: Option<real>,
    totalRevenue: Option<real>,
    averageCheck: Option<real>,
    totalCustomers: Option<real>,
    mostPopularFood: Option<string>,
    totalItems: Option<real>)

  const EmptyOverview := Overview(None, None, None, None, None, None)

  /** One row of the category analysis. */
  datatype CategoryStat = CategoryStat(
    category: string,
    quantity: int,
    orders: int,
    revenue: int,
    percentage: real)

  /** One point of the time trend, in server order. */
  datatype TrendPoint = TrendPoint(period: string, revenue: real)

  /** The heatmap: a grid of values indexed by day (rows) and hour (columns). */
  datatype Heatmap = Heatmap(data: seq<seq<real>>, hours: seq<int>, days: seq<string>)

  datatype CustomerRow = CustomerRow(customerId: int, orders: int, revenue: real)

  /** The customer analysis object. */
  datatype CustomerStats = CustomerStats(
    topCustomers: seq<CustomerRow>,
    avgOrderValue: real,
    repeatRate: real)

  /** One order of the analysis table. */
  datatype Order = Order(
    orderId: int,
    customerId: int,
    foodName: string,
    category: string,
    price: int,
    quantity: int,
    date: string,
    time: string)

  /** A message of the live update stream, once decoded: only `stats` is read. */
  datatype PushEvent = PushEvent(stats: Option<Overview>)
}
