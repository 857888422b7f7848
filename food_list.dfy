/**
 * The list of today's food items held by the FoodList component: replaced
 * wholesale by a catalog fetch and patched by title when a rating returns.
 */
module FoodList {
  import opened Wrappers
  import opened FoodRecord
  import Star

  /** The JSON body POSTed to the rating endpoint: a title and a rating, no uid. */
  datatype RateRequest = RateRequest(title: string, rating: int)

  /**
   * The value `updateRating` receives as `newRating`: a number, or the React
   * click event the star widget hands on. `JSON.stringify` throws on an event,
   * whose DOM target and window hold cyclic references.
   */
  datatype RatingArg = Number(value: int) | Event(event: Star.ClickEvent)

  /**
   * How a fetch chain ends: with the parsed response, or rejected (network
   * error or unparsable body), in which case the catch handler only logs.
   */
  datatype Response<T> = Resolved(value: T) | Rejected

  /** `items.map(item => item.title === updated.title ? updated : item)` */
  function Patch(items: seq<FoodItem>, updated: FoodItem): (patched: seq<FoodItem>)
    ensures |patched| == |items|
    ensures forall i :: 0 <= i < |items| ==> patched[i].title == items[i].title
  {
    if items == [] then []
    else [if items[0].title == updated.title then updated else items[0]] + Patch(items[1..], updated)
  }

  /** The patch replaces exactly the items whose title matches. */
  lemma {:induction false} PatchAt(items: seq<FoodItem>, updated: FoodItem, i: nat)
    requires i < |items|
    ensures Patch(items, updated)[i] == if items[i].title == updated.title then updated else items[i]
  {
    if i > 0 {
      PatchAt(items[1..], updated, i - 1);
    }
  }

  /** A returned item whose title matches nothing leaves the list as it was. */
  lemma {:induction false} PatchNoMatch(items: seq<FoodItem>, updated: FoodItem)
    requires !HasTitle(items, updated.title)
    ensures Patch(items, updated) == items
  {
    if items != [] {
      assert !HasTitle(items[1..], updated.title) by {
        forall i | 0 <= i < |items[1..]| ensures items[1..][i].title != updated.title {
          assert items[1..][i] == items[i + 1];
        }
      }
      PatchNoMatch(items[1..], updated);
    }
  }

  /** Applying the same server response twice equals applying it once. */
  lemma {:induction false} PatchIdempotent(items: seq<FoodItem>, updated: FoodItem)
    ensures Patch(Patch(items, updated), updated) == Patch(items, updated)
  {
    if items != [] {
      PatchIdempotent(items[1..], updated);
    }
  }

  /**
   * On a list with unique titles, after patching with an item whose title is
   * present, exactly one item has that title and it is the returned item.
   */
  lemma PatchSingleMatch(items: seq<FoodItem>, updated: FoodItem, k: nat)
    requires UniqueTitles(items)
    requires k < |items| && items[k].title == updated.title
    ensures |Patch(items, updated)| == |items|
    ensures Patch(items, updated)[k] == updated
    ensures forall i :: 0 <= i < |items| && i != k ==> Patch(items, updated)[i] == items[i]
    ensures UniqueTitles(Patch(items, updated))
  {
    forall i | 0 <= i < |items| ensures Patch(items, updated)[i] == if i == k then updated else items[i] {
      PatchAt(items, updated, i);
    }
  }

  /** The `foodList` state of one FoodList component. */
  class FoodListState {
    var foodList: seq<FoodItem>

    /** `useState([])` */
    constructor ()
      ensures foodList == []
    {
      foodList := [];
    }

    /** `fetchUpdatedFoodItems`: a successful fetch replaces the list wholesale. */
    method FetchUpdatedFoodItems(response: Response<seq<FoodItem>>)
      modifies this
      ensures response.Resolved? ==> foodList == response.value
      ensures response.Rejected? ==> foodList == old(foodList)
    {
      match response
      case Resolved(data) => foodList := data;
      case Rejected =>
    }

    /**
     * `updateRating`: builds the `{title, rating}` body, sends it, and patches
     * the list by title with the returned item. A rejected call leaves the list
     * unchanged. An event as `newRating` makes `JSON.stringify` throw while the
     * fetch arguments are built: no request is sent and nothing changes.
     */
    method UpdateRating(title: string, newRating: RatingArg, response: Response<FoodItem>)
      returns (body: Option<RateRequest>)
      modifies this
      ensures newRating.Event? ==> body == None && foodList == old(foodList)
      ensures newRating.Number? ==> body == Some(RateRequest(title, newRating.value))
      ensures newRating.Number? && response.Resolved? ==> foodList == Patch(old(foodList), response.value)
      ensures newRating.Number? && response.Rejected? ==> foodList == old(foodList)
    {
      match newRating {
        case Event(_) =>
          return None;
        case Number(n) =>
          body := Some(RateRequest(title, n));
      }
      match response
      case Resolved(updatedItem) => foodList := Patch(foodList, updatedItem);
      case Rejected =>
    }
  }
}
