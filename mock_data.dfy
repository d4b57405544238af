/** The fallback data the pages show when the server gives nothing usable. */
module MockData {
  import opened Wrappers
  import opened Entities

  function Food(name: string, category: string, quantity: int, revenue: int): FoodStat
  {
    FoodStat(name, Some(category), Some(quantity), Some(revenue))
  }

  /** `mockFoods`: thirty foods with every field present. */
  const MockFoods: seq<FoodStat> := [
      Food("osh", "Asosiy ovqat", 245, 8575000),
      Food("lag'mon", "Asosiy ovqat", 189, 5670000),
      Food("shashlik", "Grill", 312, 7800000),
      Food("manti", "Asosiy ovqat", 156, 3120000),
      Food("somsa", "Fast food", 423, 3384000),
      Food("chuchvara", "Asosiy ovqat", 198, 4356000),
      Food("salyanka", "Suyuq ovqat", 167, 4175000),
      Food("borshch", "Suyuq ovqat", 134, 2680000),
      Food("sho'rva", "Suyuq ovqat", 178, 4450000),
      Food("tandir kabob", "Grill", 145, 6525000),
      Food("qovurma", "Asosiy ovqat", 123, 3690000),
      Food("pizza", "Fast food", 89, 4450000),
      Food("gamburger", "Fast food", 267, 6675000),
      Food("lavash", "Fast food", 334, 7515000),
      Food("donar", "Fast food", 289, 5780000),
      Food("salat", "Salat", 156, 3120000),
      Food("desert", "Desert", 98, 1470000),
      Food("tort", "Desert", 45, 2025000),
      Food("choy", "Ichimlik", 512, 2560000),
      Food("kofe", "Ichimlik", 387, 4644000),
      Food("sok", "Ichimlik", 456, 4560000),
      Food("pepsi", "Ichimlik", 423, 2961000),
      Food("cola", "Ichimlik", 389, 2723000),
      Food("борщ", "Suyuq ovqat", 123, 2460000),
      Food("пельмени", "Asosiy ovqat", 167, 4175000),
      Food("шашлык", "Grill", 198, 5940000),
      Food("салат оливье", "Salat", 145, 2900000),
      Food("стейк", "Grill", 78, 4290000),
      Food("рыба", "Asosiy ovqat", 89, 4005000),
      Food("курица", "Asosiy ovqat", 112, 3920000)
    ]

  /** `mockOverviewStats`. */
  const MockOverviewStats := Overview(
    Some(600.0), Some(99884101.0), Some(166473.5), Some(100.0), Some("choy"), Some(4856.0))

  /** `mockCategoryAnalysis`. */
  const MockCategoryAnalysis: seq<CategoryStat> := [
      CategoryStat("Asosiy ovqat", 1523, 245, 45678900, 45.7),
      CategoryStat("Grill", 733, 123, 24456700, 24.5),
      CategoryStat("Fast food", 1102, 189, 23145600, 23.2),
      CategoryStat("Ichimlik", 2167, 367, 17445600, 17.5),
      CategoryStat("Suyuq ovqat", 602, 98, 13783200, 13.8),
      CategoryStat("Salat", 301, 52, 6020000, 6.0),
      CategoryStat("Desert", 143, 24, 3495000, 3.5)
    ]
}
