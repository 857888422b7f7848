/**
 * One food card: the average rating shown, the three label badges, the
 * expansion toggle and the forwarding of a rating to the list.
 */
module FoodCard {
  import opened Wrappers
  import opened FoodRecord
  import Star

  /** Which badges a card shows. */
  datatype LabelFlags = LabelFlags(isVegetarian: bool, hasGluten: bool, highProtein: bool)

  /** The call `updateRating(title, newRating)` made into the list. */
  datatype UpdateRatingCall<R> = UpdateRatingCall(title: string, newRating: R)

  /** `rating_count || 1`: a missing, null or zero count falls back to 1. */
  function Divisor(ratingCount: Option<int>): (d: int)
    ensures d != 0
    ensures ratingCount.Some? && ratingCount.value != 0 ==> d == ratingCount.value
    ensures ratingCount == None || ratingCount == Some(0) ==> d == 1
  {
    match ratingCount
    case Some(c) => if c != 0 then c else 1
    case None => 1
  }

  /** `rating / (rating_count || 1)`, before the one-decimal formatting. */
  function AverageRating(item: FoodItem): (avg: real)
    ensures item.ratingCount.Some? && item.ratingCount.value != 0 ==>
              avg * item.ratingCount.value as real == item.rating as real
    ensures item.ratingCount == None || item.ratingCount == Some(0) ==> avg == item.rating as real
  {
    item.rating as real / Divisor(item.ratingCount) as real
  }

  /**
   * With totals that star submissions could have produced, the average lies
   * between 0 and 5, and between 1 and 5 once there is a rating.
   */
  lemma AverageWithinStars(item: FoodItem)
    requires ValidTotals(item)
    ensures 0.0 <= AverageRating(item) <= 5.0
    ensures item.ratingCount.value > 0 ==> 1.0 <= AverageRating(item)
  {
    var c := item.ratingCount.value;
    if c > 0 {
      var avg, r, n := AverageRating(item), item.rating as real, c as real;
      assert avg * n == r;
      ScaledBound(avg, n, r, 5.0);
      ScaledFloor(avg, n, r, 1.0);
    }
  }

  /** From `x * n == r <= b * n` with `n` positive, `x <= b`. */
  lemma ScaledBound(x: real, n: real, r: real, b: real)
    requires n > 0.0 && x * n == r && r <= b * n
    ensures x <= b
  {
  }

  /** From `x * n == r >= b * n` with `n` positive, `x >= b`. */
  lemma ScaledFloor(x: real, n: real, r: real, b: real)
    requires n > 0.0 && x * n == r && r >= b * n
    ensures x >= b
  {
  }

  /** `labelsArray.includes(...)` for each of the three badge strings. */
  function Classify(labels: seq<string>): (flags: LabelFlags)
    ensures !(flags.isVegetarian || flags.hasGluten || flags.highProtein) <==>
              forall l :: l in labels ==> l != "vegetarian" && l != "gluten" && l != "protein"
  {
    LabelFlags("vegetarian" in labels, "gluten" in labels, "protein" in labels)
  }

  /** The string the scraper stores for a vegetarian icon is not the one the card looks for. */
  lemma VeganIsNotVegetarian()
    ensures Classify(["vegan"]) == LabelFlags(false, false, false)
    ensures Classify(["vegan", "gluten"]) == LabelFlags(false, true, false)
  {
    assert "vegan" != "vegetarian";
    assert "gluten" != "vegetarian";
  }

  /** Each flag holds exactly when its own string is a member of the labels. */
  lemma ClassifyMembership(labels: seq<string>)
    ensures Classify(labels).isVegetarian <==> exists i :: 0 <= i < |labels| && labels[i] == "vegetarian"
    ensures Classify(labels).hasGluten <==> exists i :: 0 <= i < |labels| && labels[i] == "gluten"
    ensures Classify(labels).highProtein <==> exists i :: 0 <= i < |labels| && labels[i] == "protein"
  {
  }

  /** Adding a label other than the three badge strings changes no flag. */
  lemma ClassifyIgnoresUnrelated(labels: seq<string>, extra: string, at: nat)
    requires extra != "vegetarian" && extra != "gluten" && extra != "protein"
    requires at <= |labels|
    ensures Classify(labels[..at] + [extra] + labels[at..]) == Classify(labels)
  {
    var grown := labels[..at] + [extra] + labels[at..];
    assert labels == labels[..at] + labels[at..];
    forall s | s in ["vegetarian", "gluten", "protein"]
      ensures s in grown <==> s in labels
    {
      if s in labels {
        var i :| 0 <= i < |labels| && labels[i] == s;
        if i < at { assert grown[i] == s; } else { assert grown[i + 1] == s; }
      }
    }
  }

  /**
   * The badges of a card: `JSON.parse(foodItem.labels)` throws when the field
   * is absent, so the card renders no badges (the render fails) then.
   */
  function CardFlags(item: FoodItem): (r: Option<LabelFlags>)
    ensures r.Some? <==> item.labels.Some?
    ensures r.Some? ==> (r.value.isVegetarian <==> "vegetarian" in item.labels.value)
  {
    match item.labels
    case Some(labels) => Some(Classify(labels))
    case None => None
  }

  /** The FoodCard component: its item and its `isExpanded` state. */
  class Card {
    const foodItem: FoodItem
    var isExpanded: bool

    /** `useState(false)` for `isExpanded`. */
    constructor (foodItem: FoodItem)
      ensures this.foodItem == foodItem && !isExpanded
    {
      this.foodItem := foodItem;
      isExpanded := false;
    }

    /** The card's `onClick`: flips `isExpanded`. */
    method Click()
      modifies this
      ensures isExpanded == !old(isExpanded)
    {
      isExpanded := !isExpanded;
    }

    /** `handleRating(newRating)`: forwards the card's own title and its one argument. */
    method HandleRating<R>(newRating: R) returns (call: UpdateRatingCall<R>)
      ensures call.title == foodItem.title && call.newRating == newRating
    {
      call := UpdateRatingCall(foodItem.title, newRating);
    }

    /**
     * `handleRating` passed as the star's `onRate`: JavaScript binds the first
     * argument, the click event, to `newRating`; the star number is dropped.
     */
    method OnRate(call: Star.OnRateCall) returns (forwarded: UpdateRatingCall<Star.ClickEvent>)
      ensures forwarded.title == foodItem.title && forwarded.newRating == call.event
    {
      forwarded := HandleRating(call.event);
    }
  }
}
