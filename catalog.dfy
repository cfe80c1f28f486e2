/** What the shop and booking pages share: the category filter
    (`selectedCategory === "All" ? items : items.filter(...)`), the category
    list offered by the filter control
    (`["All", ...Array.from(new Set(items.map(i => i.category)))]`), and the
    calendar day a booking dialog holds. */
module Catalog {
  import opened Lists

  /** A calendar day picked in a booking dialog; the pages only test whether one is picked. */
  type Date = int

  /** The selection that turns the filter off. */
  const AllCategories := "All"

  /** The items a category selection shows. */
  function ByCategory<T(!new)>(items: seq<T>, category: T -> string, selected: string): (r: seq<T>)
    ensures selected == AllCategories ==> r == items
    ensures selected != AllCategories ==> forall x :: x in r <==> x in items && category(x) == selected
  {
    if selected == AllCategories then items else Filter(items, (x: T) => category(x) == selected)
  }

  /** The filter keeps catalog order and drops nothing it should keep: the
      result is an in-order subsequence of the catalog, and every item occurs
      in it exactly as often as in the catalog when it matches, never otherwise. */
  lemma ByCategoryExact<T(!new)>(items: seq<T>, category: T -> string, selected: string)
    ensures SubsequenceOf(ByCategory(items, category, selected), items)
    ensures forall x :: multiset(ByCategory(items, category, selected))[x] ==
              if selected == AllCategories || category(x) == selected then multiset(items)[x] else 0
  {
    var p := (x: T) => category(x) == selected;
    if selected == AllCategories {
      SubsequenceReflexive(items);
    } else {
      FilterIsSubsequence(items, p);
      FilterCounts(items, p);
    }
  }

  /** Every sequence is a subsequence of itself. */
  lemma {:induction false} SubsequenceReflexive<T>(xs: seq<T>)
    ensures SubsequenceOf(xs, xs)
  {
    if xs != [] {
      SubsequenceReflexive(xs[1..]);
    }
  }

  /** `items.map(i => i.category)`. */
  function Categories<T>(items: seq<T>, category: T -> string): seq<string>
  {
    seq(|items|, i requires 0 <= i < |items| => category(items[i]))
  }

  /** The filter choices: "All", then each category of the catalog once. */
  function UniqueCategories<T>(items: seq<T>, category: T -> string): (r: seq<string>)
    ensures |r| >= 1 && r[0] == AllCategories
    ensures NoDup(r[1..])
    ensures forall c :: c in r[1..] <==> exists i :: 0 <= i < |items| && category(items[i]) == c
  {
    var cs := Categories(items, category);
    assert |cs| == |items| && forall i :: 0 <= i < |items| ==> cs[i] == category(items[i]);
    var d := Distinct(cs);
    assert ([AllCategories] + d)[1..] == d;
    [AllCategories] + d
  }

  /** The categories after "All" appear in the order of their first occurrence in the catalog. */
  lemma UniqueCategoriesOrder<T>(items: seq<T>, category: T -> string)
    ensures var r := UniqueCategories(items, category); var cs := Categories(items, category);
      forall i, j :: 1 <= i < j < |r| ==> r[i] in cs && r[j] in cs && IndexOf(cs, r[i]) < IndexOf(cs, r[j])
  {
    var cs := Categories(items, category);
    var d := Distinct(cs);
    DistinctFirstOccurrenceOrder(cs);
    var r := UniqueCategories(items, category);
    assert r == [AllCategories] + d;
    forall i, j | 1 <= i < j < |r|
      ensures r[i] in cs && r[j] in cs && IndexOf(cs, r[i]) < IndexOf(cs, r[j])
    {
      assert r[i] == d[i - 1] && r[j] == d[j - 1];
    }
  }
}
