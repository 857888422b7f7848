/**
 * The Flask backend: the catalog of today's items, projected to the fields the
 * frontend gets, and the rating endpoint's read-modify-write of one document.
 */
module Backend {
  import opened Wrappers
  import opened FoodRecord

  /** Why the rating endpoint fails (each is an uncaught Python exception). */
  datatype RateError =
    | TitleNotFound        // `find_one` returned None and None was subscripted
    | MissingRatingCount   // the stored `rating_count` is absent or null
    | ZeroDivision         // the new count is 0, so `totalRating/ratingCount` raises
    | UnserialisableResponse  // `jsonify` raises on the re-read document's ObjectId `_id`

  /** `find_one({"title": title})`: the first document with that title. */
  function FindFirst(docs: seq<FoodItem>, title: string): (r: Option<nat>)
    ensures r.Some? ==> r.value < |docs| && docs[r.value].title == title
    ensures r.Some? ==> forall j :: 0 <= j < r.value ==> docs[j].title != title
    ensures r.None? <==> !HasTitle(docs, title)
  {
    if docs == [] then None
    else if docs[0].title == title then Some(0)
    else match FindFirst(docs[1..], title)
      case None => None
      case Some(i) => Some(i + 1)
  }

  /** `find_one` gives the same answer on any collection with the same titles in the same order. */
  lemma {:induction false} FindFirstKeepsTitles(docs: seq<FoodItem>, docs': seq<FoodItem>, title: string)
    requires |docs'| == |docs|
    requires forall j :: 0 <= j < |docs| ==> docs'[j].title == docs[j].title
    ensures FindFirst(docs', title) == FindFirst(docs, title)
  {
    if docs != [] {
      FindFirstKeepsTitles(docs[1..], docs'[1..], title);
    }
  }

  /**
   * The rating arithmetic of `updateRating`: the submitted value is added to
   * the stored sum, the count grows by one, and the average of the two is set.
   */
  function Rated(doc: FoodItem, newRating: int): (r: Result<FoodItem, RateError>)
    ensures doc.ratingCount.None? ==> r == Failure(MissingRatingCount)
    ensures doc.ratingCount.Some? && doc.ratingCount.value >= 0 ==> r.Success?
    ensures r.Success? ==>
              && r.value.rating == doc.rating + newRating
              && r.value.ratingCount == Some(doc.ratingCount.value + 1)
              && r.value.averageRating.Some?
              && r.value.averageRating.value * (doc.ratingCount.value + 1) as real == r.value.rating as real
    ensures r.Success? ==>
              && r.value.title == doc.title
              && r.value.diningHall == doc.diningHall
              && r.value.mealPeriod == doc.mealPeriod
              && r.value.portionSize == doc.portionSize
              && r.value.nutritionalInfo == doc.nutritionalInfo
              && r.value.tableCaption == doc.tableCaption
              && r.value.labels == doc.labels
  {
    match doc.ratingCount
    case None => Failure(MissingRatingCount)
    case Some(count) =>
      var totalRating := doc.rating + newRating;
      var ratingCount := count + 1;
      if ratingCount == 0 then Failure(ZeroDivision)
      else
        Success(doc.(rating := totalRating, ratingCount := Some(ratingCount),
                     averageRating := Some(totalRating as real / ratingCount as real)))
  }

  /** A star submission of 1 to 5 keeps totals that star submissions could have produced. */
  lemma RatedKeepsValidTotals(doc: FoodItem, newRating: int)
    requires ValidTotals(doc) && 1 <= newRating <= 5
    ensures Rated(doc, newRating).Success?
    ensures ValidTotals(Rated(doc, newRating).value)
  {
  }

  /** The record served for each catalog item: eight fields, so `labels` is dropped. */
  function Project(item: FoodItem): (served: FoodItem)
    ensures served == item.(labels := None, averageRating := None)
  {
    FoodItem(item.title, item.diningHall, item.mealPeriod, item.portionSize,
             item.nutritionalInfo, item.tableCaption, item.rating, item.ratingCount,
             None, None)
  }

  /**
   * `getCurrentFoodItems`: the collection's documents whose title is in today's
   * title list, in collection order, each projected.
   */
  function CurrentFoodItems(collection: seq<FoodItem>, todaysTitles: seq<string>): (served: seq<FoodItem>)
    ensures |served| <= |collection|
    ensures forall k :: 0 <= k < |served| ==> served[k].title in todaysTitles && served[k].labels.None?
  {
    if collection == [] then []
    else if collection[0].title in todaysTitles then [Project(collection[0])] + CurrentFoodItems(collection[1..], todaysTitles)
    else CurrentFoodItems(collection[1..], todaysTitles)
  }

  /**
   * Every served record is the projection of a collection document whose
   * title is listed today; it carries no labels and no stored average.
   */
  lemma {:induction false} CurrentFoodItemsSound(collection: seq<FoodItem>, todaysTitles: seq<string>)
    ensures |CurrentFoodItems(collection, todaysTitles)| <= |collection|
    ensures forall k :: 0 <= k < |CurrentFoodItems(collection, todaysTitles)| ==>
              && CurrentFoodItems(collection, todaysTitles)[k].title in todaysTitles
              && CurrentFoodItems(collection, todaysTitles)[k].labels.None?
              && CurrentFoodItems(collection, todaysTitles)[k].averageRating.None?
              && exists j :: 0 <= j < |collection| && CurrentFoodItems(collection, todaysTitles)[k] == Project(collection[j])
  {
    if collection != [] {
      var rest := CurrentFoodItems(collection[1..], todaysTitles);
      CurrentFoodItemsSound(collection[1..], todaysTitles);
      forall k | 0 <= k < |rest|
        ensures exists j :: 0 <= j < |collection| && rest[k] == Project(collection[j])
      {
        var j :| 0 <= j < |collection[1..]| && rest[k] == Project(collection[1..][j]);
        assert collection[1..][j] == collection[j + 1];
      }
    }
  }

  /** Every collection document whose title is listed today is served. */
  lemma {:induction false} CurrentFoodItemsComplete(collection: seq<FoodItem>, todaysTitles: seq<string>, j: nat)
    requires j < |collection| && collection[j].title in todaysTitles
    ensures Project(collection[j]) in CurrentFoodItems(collection, todaysTitles)
  {
    if j > 0 {
      assert collection[1..][j - 1] == collection[j];
      CurrentFoodItemsComplete(collection[1..], todaysTitles, j - 1);
    }
  }

  /**
   * The catalog depends only on which titles are listed today, not on their
   * order or how often each is listed.
   */
  lemma {:induction false} CurrentFoodItemsTitleSet(collection: seq<FoodItem>, today1: seq<string>, today2: seq<string>)
    requires forall t :: t in today1 <==> t in today2
    ensures CurrentFoodItems(collection, today1) == CurrentFoodItems(collection, today2)
  {
    if collection != [] {
      CurrentFoodItemsTitleSet(collection[1..], today1, today2);
    }
  }

  /** With unique titles in the collection, the served catalog has unique titles too. */
  lemma {:induction false} CurrentFoodItemsUnique(collection: seq<FoodItem>, todaysTitles: seq<string>)
    requires UniqueTitles(collection)
    ensures UniqueTitles(CurrentFoodItems(collection, todaysTitles))
  {
    if collection != [] {
      var rest := CurrentFoodItems(collection[1..], todaysTitles);
      assert UniqueTitles(collection[1..]);
      CurrentFoodItemsUnique(collection[1..], todaysTitles);
      CurrentFoodItemsSound(collection[1..], todaysTitles);
      forall k | 0 <= k < |rest| ensures rest[k].title != collection[0].title {
        var j :| 0 <= j < |collection[1..]| && rest[k] == Project(collection[1..][j]);
        assert collection[1..][j] == collection[j + 1];
      }
    }
  }

  /**
   * The collection after `updateRating`'s write: the first document with the
   * title replaced by its rated version. Titles, the length and every other
   * document are kept.
   */
  function Stored(docs: seq<FoodItem>, title: string, newRating: int): (r: Result<seq<FoodItem>, RateError>)
    ensures FindFirst(docs, title).None? ==> r == Failure(TitleNotFound)
    ensures FindFirst(docs, title).Some? && Rated(docs[FindFirst(docs, title).value], newRating).Failure? ==>
              r == Failure(Rated(docs[FindFirst(docs, title).value], newRating).error)
    ensures r.Success? ==>
              && FindFirst(docs, title).Some?
              && |r.value| == |docs|
              && Rated(docs[FindFirst(docs, title).value], newRating) == Success(r.value[FindFirst(docs, title).value])
              && (forall j :: 0 <= j < |docs| && j != FindFirst(docs, title).value ==> r.value[j] == docs[j])
    ensures r.Success? ==> forall j :: 0 <= j < |docs| ==> r.value[j].title == docs[j].title
    ensures r.Success? && UniqueTitles(docs) ==> UniqueTitles(r.value)
  {
    match FindFirst(docs, title)
    case None => Failure(TitleNotFound)
    case Some(i) =>
      match Rated(docs[i], newRating)
      case Failure(e) => Failure(e)
      case Success(d) => Success(docs[i := d])
  }

  /** The backend's two collections. */
  class Database {
    var collection: seq<FoodItem>
    var todaysTitles: seq<string>

    constructor (collection: seq<FoodItem>, todaysTitles: seq<string>)
      ensures this.collection == collection && this.todaysTitles == todaysTitles
    {
      this.collection := collection;
      this.todaysTitles := todaysTitles;
    }

    /** `GET /api/getCurrentFoodItems` */
    function GetCurrentFoodItems(): (items: seq<FoodItem>)
      reads this
      ensures |items| <= |collection|
      ensures forall k :: 0 <= k < |items| ==> items[k].title in todaysTitles && items[k].labels.None?
    {
      CurrentFoodItems(collection, todaysTitles)
    }

    /**
     * `POST /api/rate`: read the first document with the title, store the new
     * sum, count and average on the first document with that title, and re-read
     * it. Failures before the write change nothing. After a successful write the
     * answer is still an error: `jsonify` cannot serialise the document's
     * ObjectId `_id`, so the client gets a server error while the rating stays stored.
     */
    method UpdateRating(foodTitle: string, newRating: int) returns (r: Result<FoodItem, RateError>)
      modifies this`collection
      ensures Stored(old(collection), foodTitle, newRating).Failure? ==>
                r == Failure(Stored(old(collection), foodTitle, newRating).error) && collection == old(collection)
      ensures Stored(old(collection), foodTitle, newRating).Success? ==>
                r == Failure(UnserialisableResponse) && collection == Stored(old(collection), foodTitle, newRating).value
    {
      var found := FindFirst(collection, foodTitle);
      if found.None? {
        return Failure(TitleNotFound);
      }
      var foodItem := collection[found.value];
      if foodItem.ratingCount.None? {
        return Failure(MissingRatingCount);
      }
      var totalRating := foodItem.rating + newRating;
      var ratingCount := foodItem.ratingCount.value + 1;
      if ratingCount == 0 {
        return Failure(ZeroDivision);
      }
      var averageRating := totalRating as real / ratingCount as real;

      // update_one: `$set` on the first document matching the title
      var target := FindFirst(collection, foodTitle);
      var i := target.value;
      collection := collection[i := collection[i].(rating := totalRating,
                                                   ratingCount := Some(ratingCount),
                                                   averageRating := Some(averageRating))];

      // find_one again for the response: the re-read document keeps its
      // ObjectId `_id`, which `jsonify` cannot serialise
      FindFirstKeepsTitles(old(collection), collection, foodTitle);
      var reread := FindFirst(collection, foodTitle);
      assert reread == Some(i);
      r := Failure(UnserialisableResponse);
    }
  }

  /**
   * Ratings of two different titles commute: whichever request is handled
   * first, the collection ends the same.
   */
  lemma RatingsCommute(docs: seq<FoodItem>, title1: string, rating1: int, title2: string, rating2: int)
    requires title1 != title2
    requires Stored(docs, title1, rating1).Success? && Stored(docs, title2, rating2).Success?
    ensures Stored(Stored(docs, title1, rating1).value, title2, rating2).Success?
    ensures Stored(Stored(docs, title1, rating1).value, title2, rating2) ==
            Stored(Stored(docs, title2, rating2).value, title1, rating1)
  {
    var i1, i2 := FindFirst(docs, title1).value, FindFirst(docs, title2).value;
    var d1, d2 := Rated(docs[i1], rating1).value, Rated(docs[i2], rating2).value;
    var after1, after2 := docs[i1 := d1], docs[i2 := d2];
    FindFirstKeepsTitles(docs, after1, title2);
    FindFirstKeepsTitles(docs, after2, title1);
    assert after1[i2] == docs[i2];
    assert after2[i1] == docs[i1];
    assert after1[i2 := d2] == after2[i1 := d1];
  }

  /**
   * Two ratings of the same title commute as well: the sum grows by both,
   * the count by two, and the average is recomputed from those, in either
   * order. A count of -2 meets the same zero division in either order.
   */
  lemma SameTitleRatingsCommute(docs: seq<FoodItem>, title: string, rating1: int, rating2: int)
    requires Stored(docs, title, rating1).Success?
    ensures Stored(Stored(docs, title, rating1).value, title, rating2) ==
            Stored(Stored(docs, title, rating2).value, title, rating1)
    ensures Stored(Stored(docs, title, rating1).value, title, rating2).Success? ==>
              var i := FindFirst(docs, title).value;
              Stored(Stored(docs, title, rating1).value, title, rating2).value[i].rating ==
              docs[i].rating + rating1 + rating2
  {
    var i := FindFirst(docs, title).value;
    var d1, d2 := Rated(docs[i], rating1).value, Rated(docs[i], rating2).value;
    assert Stored(docs, title, rating1) == Success(docs[i := d1]);
    assert Stored(docs, title, rating2) == Success(docs[i := d2]);
    FindFirstKeepsTitles(docs, docs[i := d1], title);
    FindFirstKeepsTitles(docs, docs[i := d2], title);
    RatedTwice(docs[i], rating1, rating2);
    if Rated(d1, rating2).Success? {
      var both := Rated(d1, rating2).value;
      assert docs[i := d1][i := both] == docs[i := d2][i := both];
    }
  }

  /** Rating one document twice gives the same result in either order. */
  lemma RatedTwice(doc: FoodItem, rating1: int, rating2: int)
    requires Rated(doc, rating1).Success?
    ensures Rated(doc, rating2).Success?
    ensures Rated(Rated(doc, rating1).value, rating2) == Rated(Rated(doc, rating2).value, rating1)
    ensures Rated(Rated(doc, rating1).value, rating2).Success? ==>
              Rated(Rated(doc, rating1).value, rating2).value.rating == doc.rating + rating1 + rating2
  {
    var count := doc.ratingCount.value;
    if count + 2 != 0 {
      var total := doc.rating + rating1 + rating2;
      var both := doc.(rating := total, ratingCount := Some(count + 2),
                       averageRating := Some(total as real / (count + 2) as real));
      assert Rated(Rated(doc, rating1).value, rating2) == Success(both);
      assert Rated(Rated(doc, rating2).value, rating1) == Success(both);
    }
  }
}
