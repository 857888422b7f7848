/**
 * The food item document shared by the scraper (which inserts it), the
 * backend (which serves and updates it) and the frontend (which displays it).
 */
module FoodRecord {
  import opened Wrappers

  /**
   * One menu item. `ratingCount` is `None` when the field is missing or null,
   * `labels` is the already-parsed label list or `None` when the key is absent,
   * and `averageRating` is only present once the backend has stored one.
   */
  datatype FoodItem = FoodItem(
    title: string,
    diningHall: string,
    mealPeriod: string,
    portionSize: string,
    nutritionalInfo: map<string, string>,
    tableCaption: string,
    rating: int,
    ratingCount: Option<int>,
    labels: Option<seq<string>>,
    averageRating: Option<real>)

  /** No two documents share a title. */
  predicate UniqueTitles(items: seq<FoodItem>)
  {
    forall i, j :: 0 <= i < j < |items| ==> items[i].title != items[j].title
  }

  /** Some document carries `title`. */
  predicate HasTitle(items: seq<FoodItem>, title: string)
  {
    exists i :: 0 <= i < |items| && items[i].title == title
  }

  /**
   * The stored totals could have come from star submissions of 1 to 5 each:
   * the count is present and non-negative and the sum lies between one and
   * five times the count.
   */
  predicate ValidTotals(item: FoodItem)
  {
    && item.ratingCount.Some?
    && 0 <= item.ratingCount.value
    && item.ratingCount.value <= item.rating <= 5 * item.ratingCount.value
  }
}
