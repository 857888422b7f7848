/**
 * How the pieces fit together: what the card makes of the records the scraper
 * stores and the backend serves, and what a click on a star sends.
 */
module Consistency {
  import opened Wrappers
  import opened FoodRecord
  import Scraper
  import Backend
  import FoodCard
  import FoodList
  import Star

  /**
   * The scraper stores "vegan" for the vegetarian icon while the card looks
   * for "vegetarian", so no scraped label list ever shows the vegetarian badge.
   */
  lemma ScrapedLabelsNeverVegetarian(carried: seq<string>, srcs: seq<string>)
    requires forall l :: l in carried ==> l == "vegan" || l == "gluten" || l == "protein"
    ensures !FoodCard.Classify(carried + Scraper.LabelsOf(srcs)).isVegetarian
    ensures FoodCard.Classify(carried + Scraper.LabelsOf(srcs)).hasGluten <==>
              "gluten" in carried + Scraper.LabelsOf(srcs)
  {
  }

  /**
   * The catalog endpoint drops `labels`, so every card built from a served
   * record fails to parse its labels.
   */
  lemma CatalogCardsHaveNoLabels(collection: seq<FoodItem>, todaysTitles: seq<string>, k: nat)
    requires k < |Backend.CurrentFoodItems(collection, todaysTitles)|
    ensures FoodCard.CardFlags(Backend.CurrentFoodItems(collection, todaysTitles)[k]).None?
  {
    Backend.CurrentFoodItemsSound(collection, todaysTitles);
  }

  /**
   * After a star submission on a record with valid totals, the average the
   * backend stores equals the one the card computes, and lies in [1, 5].
   */
  lemma RatedAverageAgrees(doc: FoodItem, newRating: int)
    requires ValidTotals(doc) && 1 <= newRating <= 5
    ensures Backend.Rated(doc, newRating).Success?
    ensures var d := Backend.Rated(doc, newRating).value;
            && d.averageRating == Some(FoodCard.AverageRating(d))
            && 1.0 <= FoodCard.AverageRating(d) <= 5.0
  {
    Backend.RatedKeepsValidTotals(doc, newRating);
    var d := Backend.Rated(doc, newRating).value;
    FoodCard.AverageWithinStars(d);
  }

  /**
   * A click on star `k` of a card, followed through `onRate`, `handleRating`
   * and `updateRating`: the value handed on as the rating is the click event,
   * so building the request body throws, no request is sent and the list
   * stays as it was.
   */
  method RateFromStar(list: FoodList.FoodListState, card: FoodCard.Card, stars: Star.StarRating,
                      event: Star.ClickEvent, k: int, response: FoodList.Response<FoodItem>)
    returns (body: Option<FoodList.RateRequest>)
    requires 1 <= k <= 5
    modifies list
    ensures body.None?
    ensures list.foodList == old(list.foodList)
  {
    var onRate := stars.Click(event, k);
    var forwarded := card.OnRate(onRate);
    body := list.UpdateRating(forwarded.title, FoodList.Event(forwarded.newRating), response);
  }
}
