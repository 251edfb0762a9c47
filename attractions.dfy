/**
 * The category filter of the nearby-attractions page
 * (frontend/src/pages/NearbyAttractionsPage.js): a constant list of
 * attractions, the list of filter buttons, and the attractions shown for
 * the selected button.
 */
module Attractions {

  datatype Attraction = Attraction(
    name: string,
    description: string,
    category: string,
    distance: string,
    image: string)

  const AllAttractions: seq<Attraction> := [
    Attraction("New Buffalo Beach",
      "Beautiful sandy beaches on Lake Michigan, perfect for swimming, sunbathing, and sunset walks. Just minutes from the resort.",
      "Beach", "5 min drive", "https://images.unsplash.com/photo-1713108854702-458a21d3737e"),
    Attraction("Indiana Dunes National Park",
      "15 miles of pristine Lake Michigan shoreline with towering sand dunes, hiking trails, and diverse ecosystems.",
      "Nature", "25 min drive", "https://images.unsplash.com/photo-1657653038900-ec2fda7affcd"),
    Attraction("Warren Dunes State Park",
      "Michigan's premier dune park featuring 260-foot sand dunes, hiking trails, and beautiful beaches.",
      "Nature", "15 min drive", "https://images.pexels.com/photos/2775230/pexels-photo-2775230.jpeg"),
    Attraction("Four Winds Casino",
      "Luxury gaming resort with slots, table games, entertainment, and fine dining options.",
      "Entertainment", "10 min drive", "https://images.unsplash.com/photo-1616499062101-3a7e34488ae3"),
    Attraction("Galien River County Park",
      "Scenic park featuring boardwalks, treetop walks, and beautiful views of the Galien River and surrounding wetlands.",
      "Nature", "12 min drive", "https://images.unsplash.com/photo-1707016522022-a93dfc5a411b"),
    Attraction("Local Wineries",
      "Explore Southwest Michigan's wine country with over a dozen wineries offering tastings and tours.",
      "Wine & Dining", "15-30 min drive", "https://images.unsplash.com/photo-1707016522558-498a3dc5057e")
  ]

  /** The button that shows every attraction. */
  const ShowAll := "All"

  /** The filter buttons, in display order. */
  const Categories: seq<string> := [ShowAll, "Beach", "Nature", "Entertainment", "Wine & Dining"]

  /** `r` can be obtained from `s` by deleting elements, keeping the order of the rest. */
  predicate IsSubsequence<T(==)>(r: seq<T>, s: seq<T>)
    decreases |s|
  {
    if s == [] then r == []
    else (r != [] && r[0] == s[0] && IsSubsequence(r[1..], s[1..])) || IsSubsequence(r, s[1..])
  }

  /** The attractions of one category, in list order (`Array.filter`). */
  function OfCategory(list: seq<Attraction>, category: string): (r: seq<Attraction>)
    ensures |r| <= |list|
    ensures forall k :: 0 <= k < |r| ==> r[k].category == category
    ensures forall a: Attraction :: a.category == category ==> multiset(r)[a] == multiset(list)[a]
    ensures forall a: Attraction :: a.category != category ==> multiset(r)[a] == 0
    ensures IsSubsequence(r, list)
  {
    if list == [] then []
    else
      var rest := OfCategory(list[1..], category);
      assert list == [list[0]] + list[1..];
      if list[0].category == category then [list[0]] + rest else rest
  }

  /** What the page lists for the selected button. */
  function Filtered(list: seq<Attraction>, selected: string): (r: seq<Attraction>)
    ensures selected == ShowAll ==> r == list
    ensures selected != ShowAll ==> forall k :: 0 <= k < |r| ==> r[k].category == selected
    ensures selected != ShowAll ==> forall a: Attraction :: a.category == selected ==> multiset(r)[a] == multiset(list)[a]
    ensures IsSubsequence(r, list) && |r| <= |list|
  {
    if selected == ShowAll then
      SubsequenceOfItself(list);
      list
    else OfCategory(list, selected)
  }

  lemma {:induction false} SubsequenceOfItself<T>(s: seq<T>)
    ensures IsSubsequence(s, s)
    decreases |s|
  {
    if s != [] {
      SubsequenceOfItself(s[1..]);
    }
  }

  /** Every attraction carries one of the buttons' categories, and none is labelled with the show-all button. */
  lemma CategoriesCoverAttractions()
    ensures forall k :: 0 <= k < |AllAttractions| ==>
      AllAttractions[k].category in Categories && AllAttractions[k].category != ShowAll
  {
  }

  /**
   * Each attraction is listed under exactly one category button: the one
   * of its own category.
   */
  lemma ListedUnderItsOwnButton(a: Attraction, c: string)
    requires a in AllAttractions && c in Categories && c != ShowAll
    ensures a in Filtered(AllAttractions, c) <==> a.category == c
  {
    var r := Filtered(AllAttractions, c);
    if a.category == c {
      assert multiset(r)[a] == multiset(AllAttractions)[a] > 0;
    } else {
      assert multiset(r)[a] == 0 by { assert forall k :: 0 <= k < |r| ==> r[k].category == c; }
    }
  }

  /** No category button shows an empty list. */
  lemma NoEmptyCategory(c: string)
    requires c in Categories && c != ShowAll
    ensures |Filtered(AllAttractions, c)| > 0
  {
    var k := if c == "Beach" then 0 else if c == "Nature" then 1 else if c == "Entertainment" then 3 else 5;
    assert AllAttractions[k].category == c;
    ListedUnderItsOwnButton(AllAttractions[k], c);
  }
}
