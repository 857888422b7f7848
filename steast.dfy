/**
 * The Stetson East page: the active dietary filters, the selected meal period,
 * and the stations whose lists are shown for that period.
 */
module Steast {

  /** `prevFilters.filter((f) => f !== filter)` */
  function RemoveAll(filters: seq<string>, filter: string): (kept: seq<string>)
    ensures filter !in kept
    ensures |kept| <= |filters|
    ensures forall f :: f in kept ==> f in filters
  {
    if filters == [] then []
    else if filters[0] == filter then RemoveAll(filters[1..], filter)
    else [filters[0]] + RemoveAll(filters[1..], filter)
  }

  /** `toggleFilter`'s new list: remove every occurrence if present, else append. */
  function Toggle(filters: seq<string>, filter: string): (toggled: seq<string>)
    ensures filter in toggled <==> filter !in filters
    ensures forall f :: f in toggled ==> f in filters || f == filter
  {
    if filter in filters then RemoveAll(filters, filter) else filters + [filter]
  }

  /** `sub` is `full` with some elements left out and the rest in their order. */
  predicate IsSubsequence(sub: seq<string>, full: seq<string>)
  {
    if sub == [] then true
    else if full == [] then false
    else if sub[0] == full[0] then IsSubsequence(sub[1..], full[1..])
    else IsSubsequence(sub, full[1..])
  }

  predicate NoDuplicates(s: seq<string>)
  {
    forall i, j :: 0 <= i < j < |s| ==> s[i] != s[j]
  }

  /**
   * Removing a filter drops every occurrence of it, keeps every other element
   * as often as it occurred, and keeps their relative order.
   */
  lemma {:induction false} RemoveAllSpec(filters: seq<string>, filter: string)
    ensures filter !in RemoveAll(filters, filter)
    ensures multiset(RemoveAll(filters, filter)) == multiset(filters)[filter := 0]
    ensures IsSubsequence(RemoveAll(filters, filter), filters)
  {
    if filters != [] {
      var rest := RemoveAll(filters[1..], filter);
      RemoveAllSpec(filters[1..], filter);
      assert filters == [filters[0]] + filters[1..];
      if filters[0] != filter {
        assert ([filters[0]] + rest)[1..] == rest;
      } else {
        SubsequenceOfTail(rest, filters);
      }
    }
  }

  /** A subsequence of the tail is a subsequence of the whole. */
  lemma {:induction false} SubsequenceOfTail(sub: seq<string>, full: seq<string>)
    requires full != [] && IsSubsequence(sub, full[1..])
    ensures IsSubsequence(sub, full)
    decreases |full|, 0
  {
    if sub != [] && sub[0] == full[0] {
      DropHead(sub, full[1..]);
    }
  }

  /** Leaving out the first element of a subsequence keeps it a subsequence. */
  lemma {:induction false} DropHead(sub: seq<string>, full: seq<string>)
    requires sub != [] && IsSubsequence(sub, full)
    ensures IsSubsequence(sub[1..], full)
    decreases |full|, 1
  {
    if sub[0] != full[0] {
      DropHead(sub, full[1..]);
    }
    SubsequenceOfTail(sub[1..], full);
  }

  /** Removing a filter that is not there changes nothing. */
  lemma {:induction false} RemoveAllAbsent(filters: seq<string>, filter: string)
    requires filter !in filters
    ensures RemoveAll(filters, filter) == filters
  {
    if filters != [] {
      assert filter !in filters[1..];
      RemoveAllAbsent(filters[1..], filter);
    }
  }

  /** Toggling flips the toggled filter's membership and keeps every other filter's. */
  lemma ToggleMembership(filters: seq<string>, filter: string, other: string)
    ensures filter in Toggle(filters, filter) <==> filter !in filters
    ensures other != filter ==> (other in Toggle(filters, filter) <==> other in filters)
  {
    RemoveAllSpec(filters, filter);
    var r := RemoveAll(filters, filter);
    if filter in filters && other != filter {
      assert other in multiset(r) <==> other in multiset(filters);
    }
  }

  /** Toggling an absent filter appends it after the existing ones. */
  lemma ToggleAbsentAppends(filters: seq<string>, filter: string)
    requires filter !in filters
    ensures |Toggle(filters, filter)| == |filters| + 1
    ensures Toggle(filters, filter)[..|filters|] == filters
    ensures Toggle(filters, filter)[|filters|] == filter
  {
  }

  /** Toggling keeps a list free of duplicates. */
  lemma TogglePreservesNoDuplicates(filters: seq<string>, filter: string)
    requires NoDuplicates(filters)
    ensures NoDuplicates(Toggle(filters, filter))
  {
    if filter in filters {
      RemoveAllNoDuplicates(filters, filter);
    }
  }

  lemma {:induction false} RemoveAllNoDuplicates(filters: seq<string>, filter: string)
    requires NoDuplicates(filters)
    ensures NoDuplicates(RemoveAll(filters, filter))
  {
    if filters != [] {
      assert NoDuplicates(filters[1..]);
      RemoveAllNoDuplicates(filters[1..], filter);
      var rest := RemoveAll(filters[1..], filter);
      RemoveAllSpec(filters[1..], filter);
      assert filters[0] !in filters[1..];
      assert filters[0] !in rest by {
        assert multiset(rest)[filters[0]] <= multiset(filters[1..])[filters[0]];
      }
    }
  }

  /** Starting from a list without the filter, toggling it twice restores the list. */
  lemma ToggleTwice(filters: seq<string>, filter: string)
    requires filter !in filters
    ensures Toggle(Toggle(filters, filter), filter) == filters
  {
    var once := filters + [filter];
    assert once[..|filters|] == filters;
    RemoveAllAppend(filters, filter);
    RemoveAllAbsent(filters, filter);
  }

  /** Removing a filter from a list that ends with it. */
  lemma {:induction false} RemoveAllAppend(filters: seq<string>, filter: string)
    ensures RemoveAll(filters + [filter], filter) == RemoveAll(filters, filter)
  {
    if filters == [] {
      assert [filter][1..] == [];
    } else {
      assert (filters + [filter])[1..] == filters[1..] + [filter];
      RemoveAllAppend(filters[1..], filter);
    }
  }

  /** The stations whose FoodList is rendered for a meal period. */
  function Stations(mealPeriod: string): (stations: seq<string>)
    ensures mealPeriod == "Everyday" ==> stations == ["EVERYDAY"]
    ensures mealPeriod != "Everyday" ==>
              stations == ["CUCINA", "RICE STATION", "HOMESTYLE", "MENUTAINMENT", "SOUP", "FRESH 52 B", "SWEET SHOPPE"]
    ensures NoDuplicates(stations)
    ensures "EVERYDAY" in stations <==> mealPeriod == "Everyday"
  {
    if mealPeriod == "Everyday" then ["EVERYDAY"]
    else ["CUCINA", "RICE STATION", "HOMESTYLE", "MENUTAINMENT", "SOUP", "FRESH 52 B", "SWEET SHOPPE"]
  }

  /** The Steast component's state. */
  class SteastState {
    var mealPeriod: string
    var activeFilters: seq<string>

    /** `useState("Breakfast")` and `useState([])`. */
    constructor ()
      ensures mealPeriod == "Breakfast" && activeFilters == []
    {
      mealPeriod := "Breakfast";
      activeFilters := [];
    }

    /** `toggleFilter(filter)`; the meal period is untouched. */
    method ToggleFilter(filter: string)
      modifies this
      ensures activeFilters == Toggle(old(activeFilters), filter)
      ensures mealPeriod == old(mealPeriod)
    {
      activeFilters := Toggle(activeFilters, filter);
    }

    /** `handleNavClick(period)`; the filters are untouched. */
    method HandleNavClick(period: string)
      modifies this
      ensures mealPeriod == period
      ensures activeFilters == old(activeFilters)
    {
      mealPeriod := period;
    }

    /** The stations rendered in the current state. */
    function ShownStations(): (stations: seq<string>)
      reads this
      ensures |stations| == if mealPeriod == "Everyday" then 1 else 7
    {
      Stations(mealPeriod)
    }
  }
}
