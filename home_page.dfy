/**
 * The home page's featured dishes: the menu items with ids 1, 3, 4 and 8, the highlight of
 * the day, and when the featured cards appear.
 */
module HomePage {
  import opened Wrappers
  import opened MenuItems
  import Seqs

  const FeaturedIds: seq<string> := ["1", "3", "4", "8"]

  /** `featuredItems`: the menu items whose id is one of the featured ids, in menu order. */
  function FeaturedItems(items: seq<MenuItem>): (r: seq<MenuItem>)
    ensures Seqs.SubsequenceOf(r, items)
    ensures forall i :: 0 <= i < |r| ==> r[i].id in FeaturedIds
    ensures forall i :: 0 <= i < |items| && items[i].id in FeaturedIds ==> items[i] in r
  {
    Seqs.FilterIsSubsequence(items, (m: MenuItem) => m.id in FeaturedIds);
    Seqs.Filter(items, (m: MenuItem) => m.id in FeaturedIds)
  }

  /** `featuredItems[0] ?? menuItems[0]`: the first featured item, else the first item, else none. */
  function TodaysHighlight(items: seq<MenuItem>): (r: Option<MenuItem>)
    ensures r.None? <==> |items| == 0
    ensures |FeaturedItems(items)| > 0 ==> r == Some(FeaturedItems(items)[0])
    ensures |FeaturedItems(items)| == 0 && |items| > 0 ==> r == Some(items[0])
  {
    var featured := FeaturedItems(items);
    if |featured| > 0 then
      assert featured[0] in items;
      Some(featured[0])
    else if |items| > 0 then Some(items[0])
    else None
  }

  /** The featured cards render once the menu has loaded without an error. */
  predicate ShowFeaturedCards(loadingMenu: bool, menuError: Option<string>) {
    !loadingMenu && (menuError.None? || menuError == Some(""))
  }

  /** The highlight, when there is one, is an item of the menu, and a featured one if any exists. */
  lemma HighlightFromMenu(items: seq<MenuItem>)
    ensures TodaysHighlight(items).Some? ==> TodaysHighlight(items).value in items
    ensures (exists i :: 0 <= i < |items| && items[i].id in FeaturedIds) ==>
      TodaysHighlight(items).Some? && TodaysHighlight(items).value.id in FeaturedIds
  {
    var featured := FeaturedItems(items);
    if exists i :: 0 <= i < |items| && items[i].id in FeaturedIds {
      var i :| 0 <= i < |items| && items[i].id in FeaturedIds;
      assert items[i] in featured;
    }
    if |featured| > 0 {
      assert featured[0] in items;
    }
  }

  /** The featured cards are hidden while loading and after a failed load. */
  lemma FeaturedCardsHidden(loadingMenu: bool, message: string)
    requires message != ""
    ensures !ShowFeaturedCards(true, None)
    ensures !ShowFeaturedCards(loadingMenu, Some(message))
    ensures ShowFeaturedCards(false, None)
  {
  }
}
