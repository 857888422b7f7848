/**
 * The per-row logic of the menu scraper: icon images become labels, nutrition
 * lines become a name-to-amount map, every title is recorded for today, and a
 * title is inserted into the main collection only if it is not there yet.
 * Browser driving is abstracted into `Row` values.
 */
module Scraper {
  import opened Wrappers
  import opened FoodRecord

  const VeganSrc := "https://www.nudining.com/img/icon_vegetarian.png"
  const GlutenSrc := "https://nudining.com/img/icon_avoiding_gluten.png"
  const ProteinSrc := "https://nudining.com/img/icon_protein.png"

  /** The label one icon adds, by exact equality of its `src`; other icons add nothing. */
  function IconLabel(src: string): (labels: seq<string>)
    ensures |labels| <= 1
    ensures labels == [] <==> src != VeganSrc && src != GlutenSrc && src != ProteinSrc
  {
    if src == VeganSrc then ["vegan"]
    else if src == GlutenSrc then ["gluten"]
    else if src == ProteinSrc then ["protein"]
    else []
  }

  /** The labels a row's images append, in image order, repeats kept. */
  function LabelsOf(srcs: seq<string>): (labels: seq<string>)
    ensures |labels| <= |srcs|
    ensures forall l :: l in labels ==> l == "vegan" || l == "gluten" || l == "protein"
  {
    if srcs == [] then [] else LabelsOf(srcs[..|srcs| - 1]) + IconLabel(srcs[|srcs| - 1])
  }

  /** The labels of consecutive image runs are concatenated in order. */
  lemma {:induction false} LabelsOfAppend(a: seq<string>, b: seq<string>)
    ensures LabelsOf(a + b) == LabelsOf(a) + LabelsOf(b)
  {
    if b != [] {
      var b' := b[..|b| - 1];
      assert (a + b)[..|a + b| - 1] == a + b';
      LabelsOfAppend(a, b');
    } else {
      assert a + b == a;
    }
  }

  /** The three icons map to their labels and repeats are kept. */
  lemma IconLabels()
    ensures LabelsOf([VeganSrc, GlutenSrc, ProteinSrc]) == ["vegan", "gluten", "protein"]
    ensures LabelsOf([VeganSrc, VeganSrc]) == ["vegan", "vegan"]
    ensures LabelsOf(["https://nudining.com/img/icon_vegetarian.png"]) == []
  {
    assert IconLabel(VeganSrc) == ["vegan"];
    assert IconLabel(GlutenSrc) == ["gluten"] by { assert GlutenSrc[8] != VeganSrc[8]; }
    assert IconLabel(ProteinSrc) == ["protein"] by {
      assert ProteinSrc[8] != VeganSrc[8];
      assert ProteinSrc[30] != GlutenSrc[30];
    }
    assert LabelsOf([VeganSrc]) == ["vegan"] by { assert [VeganSrc][..0] == []; }
    assert [VeganSrc, GlutenSrc][..1] == [VeganSrc];
    assert LabelsOf([VeganSrc, GlutenSrc]) == ["vegan", "gluten"];
    assert [VeganSrc, GlutenSrc, ProteinSrc][..2] == [VeganSrc, GlutenSrc];
    assert [VeganSrc, VeganSrc][..1] == [VeganSrc];
    var other: string := "https://nudining.com/img/icon_vegetarian.png";
    assert other[8] != VeganSrc[8] && other[30] != GlutenSrc[30] && other[30] != ProteinSrc[30];
    assert |[other][..0]| == 0;
  }

  /** The first position of `c` in `s`. */
  function IndexOf(s: string, c: char): (r: Option<nat>)
    ensures r.Some? ==> r.value < |s| && s[r.value] == c && c !in s[..r.value]
    ensures r.None? <==> c !in s
  {
    if s == [] then None
    else if s[0] == c then Some(0)
    else match IndexOf(s[1..], c)
      case None => None
      case Some(i) => (assert s[..i + 1] == [s[0]] + s[1..][..i]; Some(i + 1))
  }

  /** `IndexOf` finds the first occurrence after a prefix without it. */
  lemma IndexOfAfter(prefix: string, c: char, suffix: string)
    requires c !in prefix
    ensures IndexOf(prefix + [c] + suffix, c) == Some(|prefix|)
  {
    var s := prefix + [c] + suffix;
    assert s[|prefix|] == c;
  }

  /**
   * One nutrition line, `text.split(":")`: the name is `macro[0]`, the text
   * before the first ':', and the amount is `macro[1]`, the text between the
   * first and second ':'; without a ':' `macro[1]` raises and the line is skipped.
   */
  function ParseLine(text: string): (parsed: Option<(string, string)>)
    ensures parsed.Some? ==> ':' !in parsed.value.0 && ':' !in parsed.value.1
  {
    match IndexOf(text, ':')
    case None => None
    case Some(i) =>
      var rest := text[i + 1..];
      match IndexOf(rest, ':')
      case None => Some((text[..i], rest))
      case Some(j) => Some((text[..i], rest[..j]))
  }

  /**
   * A line parses iff it has a ':'; then the name and amount hold no ':', the
   * line starts with `name:amount`, and what follows is nothing or another ':'.
   */
  lemma ParseLineSpec(text: string)
    ensures ParseLine(text).None? <==> ':' !in text
    ensures ParseLine(text).Some? ==> WellSplit(text, ParseLine(text).value.0, ParseLine(text).value.1)
  {
    match IndexOf(text, ':')
    case None =>
    case Some(i) =>
      var name, rest := text[..i], text[i + 1..];
      assert text == name + ":" + rest;
      match IndexOf(rest, ':')
      case None =>
        assert text[..|name| + 1 + |rest|] == text;
      case Some(j) =>
        var amount := rest[..j];
        assert text == name + ":" + amount + rest[j..];
        assert text[..|name| + 1 + |amount|] == name + ":" + amount;
  }

  /** `text` starts with `name:amount`, neither part holds a ':', and nothing or a ':' follows. */
  predicate WellSplit(text: string, name: string, amount: string)
  {
    && ':' !in name && ':' !in amount
    && |name| + 1 + |amount| <= |text|
    && text[..|name| + 1 + |amount|] == name + ":" + amount
    && (|text| == |name| + 1 + |amount| || text[|name| + 1 + |amount|] == ':')
  }

  /** Splitting `name:amount` or `name:amount:rest` gives back the name and the amount. */
  lemma ParseLineRoundTrip(name: string, amount: string, rest: string)
    requires ':' !in name && ':' !in amount
    ensures ParseLine(name + ":" + amount) == Some((name, amount))
    ensures ParseLine(name + ":" + amount + ":" + rest) == Some((name, amount))
  {
    IndexOfAfter(name, ':', amount);
    assert (name + ":" + amount)[|name| + 1..] == amount;
    assert (name + ":" + amount)[..|name|] == name;
    var long := name + ":" + amount + ":" + rest;
    IndexOfAfter(name, ':', amount + ":" + rest);
    assert long == name + [':'] + (amount + ":" + rest);
    assert long[|name| + 1..] == amount + [':'] + rest;
    assert long[..|name|] == name;
    IndexOfAfter(amount, ':', rest);
    assert (amount + [':'] + rest)[..|amount|] == amount;
  }

  /** The `nutritional_info` dict after the lines, later lines overwriting earlier ones. */
  function Nutrition(lines: seq<string>): (info: map<string, string>)
    ensures forall name :: name in info ==> ':' !in name
  {
    if lines == [] then map[]
    else
      var info := Nutrition(lines[..|lines| - 1]);
      match ParseLine(lines[|lines| - 1])
      case None => info
      case Some((name, amount)) => info[name := amount]
  }

  /** A line without ':' leaves the dict as it was. */
  lemma NutritionSkipsMalformed(lines: seq<string>, text: string)
    requires ':' !in text
    ensures Nutrition(lines + [text]) == Nutrition(lines)
  {
    ParseLineSpec(text);
    assert (lines + [text])[..|lines|] == lines;
  }

  /** The amount kept for a name is the one on the last line with that name. */
  lemma {:induction false} NutritionLastWins(lines: seq<string>, i: nat)
    requires i < |lines| && ParseLine(lines[i]).Some?
    requires forall j :: i < j < |lines| && ParseLine(lines[j]).Some? ==>
               ParseLine(lines[j]).value.0 != ParseLine(lines[i]).value.0
    ensures ParseLine(lines[i]).value.0 in Nutrition(lines)
    ensures Nutrition(lines)[ParseLine(lines[i]).value.0] == ParseLine(lines[i]).value.1
  {
    var init := lines[..|lines| - 1];
    if i < |lines| - 1 {
      assert init[i] == lines[i];
      forall j | i < j < |init| && ParseLine(init[j]).Some?
        ensures ParseLine(init[j]).value.0 != ParseLine(init[i]).value.0
      {
        assert init[j] == lines[j];
      }
      NutritionLastWins(init, i);
    }
  }

  /** Every name in the dict comes from some line that parsed. */
  lemma {:induction false} NutritionKeys(lines: seq<string>, name: string)
    requires name in Nutrition(lines)
    ensures exists i :: 0 <= i < |lines| && ParseLine(lines[i]).Some? && ParseLine(lines[i]).value.0 == name
  {
    var init := lines[..|lines| - 1];
    var last := ParseLine(lines[|lines| - 1]);
    if !(last.Some? && last.value.0 == name) {
      NutritionKeys(init, name);
      var i :| 0 <= i < |init| && ParseLine(init[i]).Some? && ParseLine(init[i]).value.0 == name;
      assert init[i] == lines[i];
    }
  }

  /** The loop over the modal's `li` elements filling `nutritional_info`. */
  method ParseNutrition(lines: seq<string>) returns (info: map<string, string>)
    ensures info == Nutrition(lines)
  {
    info := map[];
    var k := 0;
    while k < |lines|
      invariant 0 <= k <= |lines|
      invariant info == Nutrition(lines[..k])
    {
      assert lines[..k + 1][..k] == lines[..k];
      var text := lines[k];
      match ParseLine(text) {
        case None =>
        case Some((macroName, macroAmount)) =>
          info := info[macroName := macroAmount];
      }
      k := k + 1;
    }
    assert lines[..k] == lines;
  }

  /**
   * One table row as the browser yields it. `title` is `None` when the menu
   * item cell, the portion cell or the `<strong>` title is missing; `portion`
   * is `None` when the nutrition button or the portion `<div>` is missing;
   * `nutritionLines` is `None` when the modal, its list or its close button
   * cannot be used.
   */
  datatype Row = Row(
    title: Option<string>,
    portion: Option<string>,
    imageSrcs: seq<string>,
    nutritionLines: Option<seq<string>>)

  /** The `item_data` inserted for a new title: no rating yet. */
  function NewRecord(hall: string, period: string, caption: string, title: string,
                     portion: string, info: map<string, string>, labels: seq<string>): (item: FoodItem)
    ensures item.rating == 0 && item.ratingCount == Some(0)
    ensures ValidTotals(item)
  {
    FoodItem(title, hall, period, portion, info, caption, 0, Some(0), Some(labels), None)
  }

  /** The titles recorded for today when the rows are processed. */
  function RowTitles(rows: seq<Row>): (titles: seq<string>)
    ensures |titles| <= |rows|
  {
    if rows == [] then []
    else
      var last := rows[|rows| - 1];
      RowTitles(rows[..|rows| - 1]) + (if last.title.Some? then [last.title.value] else [])
  }

  /** The scraper's state as a value: the two collections and the `labels` accumulator. */
  datatype Snapshot = Snapshot(collection: seq<FoodItem>, todaysTitles: seq<string>, labels: seq<string>)

  /**
   * The effect of one row: a titled row is recorded for today; a new title
   * with a portion adds its image labels; a complete new row is appended to
   * the collection, which then holds it as its only addition, and the labels
   * are cleared.
   */
  function Step(hall: string, period: string, caption: string, s: Snapshot, row: Row): (t: Snapshot)
    ensures row.title.None? ==> t == s
    ensures row.title.Some? ==> t.todaysTitles == s.todaysTitles + [row.title.value]
    ensures |s.collection| <= |t.collection| <= |s.collection| + 1
    ensures t.collection[..|s.collection|] == s.collection
    ensures |t.collection| > |s.collection| ==>
              && row.title.Some? && !HasTitle(s.collection, row.title.value)
              && t.collection[|s.collection|].title == row.title.value
              && t.labels == []
    ensures UniqueTitles(s.collection) ==> UniqueTitles(t.collection)
  {
    match row.title
    case None => s
    case Some(title) =>
      var recorded := s.(todaysTitles := s.todaysTitles + [title]);
      if HasTitle(s.collection, title) || row.portion.None? then recorded
      else
        var labels := s.labels + LabelsOf(row.imageSrcs);
        match row.nutritionLines
        case None => recorded.(labels := labels)
        case Some(lines) =>
          var item := NewRecord(hall, period, caption, title, row.portion.value, Nutrition(lines), labels);
          recorded.(collection := s.collection + [item], labels := [])
  }

  /**
   * The effect of a table's rows in order: every title is recorded for today,
   * the collection only grows at its end, and its titles stay unique.
   */
  function Steps(hall: string, period: string, caption: string, s: Snapshot, rows: seq<Row>): (t: Snapshot)
    ensures t.todaysTitles == s.todaysTitles + RowTitles(rows)
    ensures |s.collection| <= |t.collection| <= |s.collection| + |rows|
    ensures t.collection[..|s.collection|] == s.collection
    ensures UniqueTitles(s.collection) ==> UniqueTitles(t.collection)
  {
    if rows == [] then s
    else
      var before := Steps(hall, period, caption, s, rows[..|rows| - 1]);
      var after := Step(hall, period, caption, before, rows[|rows| - 1]);
      assert after.collection[..|s.collection|] == before.collection[..|before.collection|][..|s.collection|];
      after
  }

  /** The scraper's collections and its `labels` accumulator. */
  class ScraperState {
    var collection: seq<FoodItem>
    var todaysTitles: seq<string>
    var labels: seq<string>

    /** The main collection never holds a title twice. */
    ghost predicate Valid()
      reads this
    {
      UniqueTitles(collection)
    }

    /** The state as a value. */
    function State(): Snapshot
      reads this
    {
      Snapshot(collection, todaysTitles, labels)
    }

    /** Start of a run: today's collection is emptied (`delete_many({})`), no labels yet. */
    constructor (collection: seq<FoodItem>)
      requires UniqueTitles(collection)
      ensures Valid()
      ensures this.collection == collection && todaysTitles == [] && labels == []
    {
      this.collection := collection;
      todaysTitles := [];
      labels := [];
    }

    /** The body of the row loop, for a row of the table captioned `caption`. */
    method ProcessRow(hall: string, period: string, caption: string, row: Row)
      requires Valid()
      modifies this
      ensures Valid()
      ensures State() == Step(hall, period, caption, old(State()), row)
      ensures row.title.None? ==>
                collection == old(collection) && todaysTitles == old(todaysTitles) && labels == old(labels)
      ensures row.title.Some? ==> todaysTitles == old(todaysTitles) + [row.title.value]
      ensures row.title.Some? && HasTitle(old(collection), row.title.value) ==>
                collection == old(collection) && labels == old(labels)
      ensures row.title.Some? && !HasTitle(old(collection), row.title.value) && row.portion.None? ==>
                collection == old(collection) && labels == old(labels)
      ensures row.title.Some? && !HasTitle(old(collection), row.title.value) && row.portion.Some? &&
              row.nutritionLines.None? ==>
                collection == old(collection) && labels == old(labels) + LabelsOf(row.imageSrcs)
      ensures row.title.Some? && !HasTitle(old(collection), row.title.value) && row.portion.Some? &&
              row.nutritionLines.Some? ==>
                && collection == old(collection) + [NewRecord(hall, period, caption, row.title.value,
                                                              row.portion.value, Nutrition(row.nutritionLines.value),
                                                              old(labels) + LabelsOf(row.imageSrcs))]
                && labels == []
    {
      if row.title.None? {
        return;
      }
      var title := row.title.value;
      var existingItem := HasTitle(collection, title);
      todaysTitles := todaysTitles + [title];
      if existingItem {
        return;
      }
      if row.portion.None? {
        return;
      }
      var portionSize := row.portion.value;

      AppendImageLabels(row.imageSrcs);
      if row.nutritionLines.None? {
        return;
      }
      var nutritionalInfo := ParseNutrition(row.nutritionLines.value);
      var itemData := NewRecord(hall, period, caption, title, portionSize, nutritionalInfo, labels);
      collection := collection + [itemData];
      labels := [];
    }

    /** The loop over a row's images, appending to the `labels` accumulator. */
    method AppendImageLabels(images: seq<string>)
      modifies this`labels
      ensures labels == old(labels) + LabelsOf(images)
    {
      var k := 0;
      while k < |images|
        invariant 0 <= k <= |images|
        invariant labels == old(labels) + LabelsOf(images[..k])
      {
        assert images[..k + 1][..k] == images[..k];
        var src := images[k];
        if src == VeganSrc {
          labels := labels + ["vegan"];
        } else if src == GlutenSrc {
          labels := labels + ["gluten"];
        } else if src == ProteinSrc {
          labels := labels + ["protein"];
        }
        k := k + 1;
      }
      assert images[..k] == images;
    }

    /** The row loop of one table: every row is processed in order. */
    method ProcessTable(hall: string, period: string, caption: string, rows: seq<Row>)
      requires Valid()
      modifies this
      ensures Valid()
      ensures State() == Steps(hall, period, caption, old(State()), rows)
      ensures todaysTitles == old(todaysTitles) + RowTitles(rows)
      ensures |old(collection)| <= |collection| && collection[..|old(collection)|] == old(collection)
    {
      var k := 0;
      while k < |rows|
        invariant 0 <= k <= |rows|
        invariant Valid()
        invariant State() == Steps(hall, period, caption, old(State()), rows[..k])
      {
        assert rows[..k + 1][..k] == rows[..k];
        ProcessRow(hall, period, caption, rows[k]);
        k := k + 1;
      }
      assert rows[..k] == rows;
    }
  }
}
