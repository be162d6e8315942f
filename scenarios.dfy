/**
 * The shop's unit tests restated: one lemma per test vector (the item it starts
 * with, how many days pass, the sell-in and quality it must end with), a method
 * for the tests' loops that call the update once per day, and three of the
 * tests replayed on objects, as the tests themselves run them.
 */
module Scenarios {
  import opened Rules
  import opened Aging
  import opened Inventory

  /** The name the tests use for an item of no special category. */
  const RegularItemName: string := "Regular Item"

  lemma RegularItemNameIsRegular()
    ensures CategoryOf(RegularItemName) == Regular
  {
  }

  lemma RegularItemQualityDecrease()
    ensures Age(1, CategoryOf(RegularItemName), Stock(10, 20)) == Stock(9, 19)
  {
  }

  lemma QualityNotNegative()
    ensures Age(1, CategoryOf(RegularItemName), Stock(10, 0)) == Stock(9, 0)
  {
  }

  lemma AgedBrieQualityIncrease()
    ensures Age(1, CategoryOf(AgedBrieName), Stock(10, 10)) == Stock(9, 11)
  {
  }

  lemma AgedBrieQualityCapAt50()
    ensures Age(1, CategoryOf(AgedBrieName), Stock(10, 50)) == Stock(9, 50)
  {
  }

  lemma SulfurasQualityUnchanged()
    ensures Age(1, CategoryOf(SulfurasName), Stock(0, 80)) == Stock(0, 80)
  {
  }

  lemma SulfurasSellInUnchanged()
    ensures Age(1, CategoryOf(SulfurasName), Stock(5, 80)) == Stock(5, 80)
  {
  }

  lemma BackstagePassesQualityIncrease()
    ensures Age(1, CategoryOf(BackstagePassName), Stock(15, 20)) == Stock(14, 21)
  {
  }

  lemma BackstagePassesQualityIncrease10DaysOrLess()
    ensures Age(1, CategoryOf(BackstagePassName), Stock(10, 20)) == Stock(9, 22)
  {
  }

  lemma BackstagePassesQualityIncrease5DaysOrLess()
    ensures Age(1, CategoryOf(BackstagePassName), Stock(5, 20)) == Stock(4, 23)
  {
  }

  lemma BackstagePassesQualityDropToZero()
    ensures Age(1, CategoryOf(BackstagePassName), Stock(0, 20)) == Stock(-1, 0)
  {
  }

  lemma QualityDegradesTwiceAsFastAfterSellIn()
    ensures Age(1, CategoryOf(RegularItemName), Stock(0, 10)) == Stock(-1, 8)
  {
  }

  lemma AgedBrieQualityIncreaseAfterSellIn()
    ensures Age(1, CategoryOf(AgedBrieName), Stock(0, 10)) == Stock(-1, 12)
  {
  }

  lemma BackstagePassesQualityCappedAt50()
    ensures Age(1, CategoryOf(BackstagePassName), Stock(5, 49)) == Stock(4, 50)
  {
  }

  lemma NegativeSellInRegularItem()
    ensures Age(1, CategoryOf(RegularItemName), Stock(-1, 10)) == Stock(-2, 8)
  {
  }

  lemma QualityNeverExceeds50AgedBrie()
    ensures Age(1, CategoryOf(AgedBrieName), Stock(0, 49)) == Stock(-1, 50)
  {
  }

  lemma BackstagePassesQualityDoesNotExceed50()
    ensures Age(1, CategoryOf(BackstagePassName), Stock(3, 49)) == Stock(2, 50)
  {
  }

  lemma RegularItemQualityDecreaseToZero()
    ensures Age(1, CategoryOf(RegularItemName), Stock(1, 1)) == Stock(0, 0)
  {
  }

  lemma NoChangeForSulfuras()
    ensures Age(1, CategoryOf(SulfurasName), Stock(-1, 80)) == Stock(-1, 80)
  {
  }

  lemma AgedBrieIncreaseAfterExpiration()
    ensures Age(1, CategoryOf(AgedBrieName), Stock(-1, 20)) == Stock(-2, 22)
  {
  }

  lemma BackstagePassesZeroQualityAfterConcert()
    ensures Age(1, CategoryOf(BackstagePassName), Stock(-1, 20)) == Stock(-2, 0)
  {
  }

  lemma QualityNotNegativeAfterMultipleUpdates()
    ensures Age(3, CategoryOf(RegularItemName), Stock(5, 1)) == Stock(2, 0)
  {
  }

  lemma SulfurasNoChangeAfterMultipleUpdates()
    ensures Age(5, CategoryOf(SulfurasName), Stock(5, 80)) == Stock(5, 80)
  {
  }

  lemma AgedBrieMaxQualityAfterMultipleUpdates()
    ensures Age(10, CategoryOf(AgedBrieName), Stock(2, 45)) == Stock(-8, 50)
  {
  }

  lemma BackstagePassesMaxAndDropToZero()
    ensures Age(2, CategoryOf(BackstagePassName), Stock(1, 48)) == Stock(-1, 0)
  {
  }

  lemma RegularItemDegradesTwiceAfterSellInMultipleUpdates()
    ensures Age(2, CategoryOf(RegularItemName), Stock(0, 10)) == Stock(-2, 6)
  {
  }

  lemma BackstagePassesIncreaseBelow5Days()
    ensures Age(2, CategoryOf(BackstagePassName), Stock(4, 45)) == Stock(2, 50)
  {
  }

  lemma SulfurasMaxQualityNoChange()
    ensures Age(1, CategoryOf(SulfurasName), Stock(-1, 80)) == Stock(-1, 80)
  {
  }

  lemma AgedBrieIncreaseNegativeSellIn()
    ensures Age(1, CategoryOf(AgedBrieName), Stock(-2, 10)) == Stock(-3, 12)
  {
  }

  lemma BackstagePassesIncreaseAt10Days()
    ensures Age(1, CategoryOf(BackstagePassName), Stock(10, 20)) == Stock(9, 22)
  {
  }

  lemma BackstagePassesIncreaseAt5Days()
    ensures Age(1, CategoryOf(BackstagePassName), Stock(5, 20)) == Stock(4, 23)
  {
  }

  lemma NegativeSellInSulfuras()
    ensures Age(1, CategoryOf(SulfurasName), Stock(-10, 80)) == Stock(-10, 80)
  {
  }

  lemma TwiceDegradationAfterSellInExpires()
    ensures Age(1, CategoryOf(RegularItemName), Stock(-1, 10)) == Stock(-2, 8)
  {
  }

  lemma AgedBrieReachingQualityCap()
    ensures Age(3, CategoryOf(AgedBrieName), Stock(5, 48)) == Stock(2, 50)
  {
  }

  lemma BackstagePassesDropAfterConcert()
    ensures Age(1, CategoryOf(BackstagePassName), Stock(0, 50)) == Stock(-1, 0)
  {
  }

  lemma SulfurasNoEffectOnMultipleUpdates()
    ensures Age(10, CategoryOf(SulfurasName), Stock(1, 80)) == Stock(1, 80)
  {
  }

  lemma AgedBrieIncreasesWithNegativeSellIn()
    ensures Age(1, CategoryOf(AgedBrieName), Stock(-1, 30)) == Stock(-2, 32)
  {
  }

  lemma NoItemQualityNegative()
    ensures Age(5, CategoryOf(RegularItemName), Stock(0, 1)) == Stock(-5, 0)
  {
  }

  lemma RegularItemDropToZero()
    ensures Age(2, CategoryOf(RegularItemName), Stock(1, 2)) == Stock(-1, 0)
  {
  }

  lemma AgedBrieIncreaseAtSellInZero()
    ensures Age(1, CategoryOf(AgedBrieName), Stock(0, 20)) == Stock(-1, 22)
  {
  }

  lemma BackstagePassesCapBeforeZero()
    ensures Age(2, CategoryOf(BackstagePassName), Stock(1, 49)) == Stock(-1, 0)
  {
  }

  /**
   * The tests' loop that calls the update once per simulated day. An object that
   * occurs `c` times in the shop's array is aged `c` days per call; when no object
   * occurs twice, each item has aged exactly `days` days.
   */
  method UpdateForDays(app: GildedRose, days: nat)
    modifies app.items[..]
    ensures app.items[..] == old(app.items[..])
    ensures forall o :: o in app.items[..] ==> o.name == old(o.name)
    ensures forall o {:trigger o.State()} :: o in app.items[..] ==>
      o.State() == Rounds(days, multiset(app.items[..])[o], o.Kind(), old(o.State()))
    ensures Distinct(app.items[..]) ==> forall o {:trigger o.State()} :: o in app.items[..] ==>
      o.State() == Age(days, o.Kind(), old(o.State()))
  {
    ghost var elems := app.items[..];
    ghost var occurs := multiset(elems);
    var d := 0;
    while d < days
      invariant 0 <= d <= days && app.items[..] == elems
      invariant forall o :: o in elems ==> o.name == old(o.name)
      invariant forall o {:trigger o.State()} :: o in elems ==>
        o.State() == Rounds(d, occurs[o], o.Kind(), old(o.State()))
    {
      label Before:
      app.UpdateQuality();
      forall o | o in elems
        ensures o.State() == Rounds(d + 1, occurs[o], o.Kind(), old(o.State()))
      {
        assert old@Before(o.State()) == Rounds(d, occurs[o], o.Kind(), old(o.State()));
      }
      d := d + 1;
    }
    if Distinct(elems) {
      forall o | o in elems
        ensures o.State() == Age(days, o.Kind(), old(o.State()))
      {
        var i :| 0 <= i < |elems| && elems[i] == o;
        DistinctOccursOnce(elems, i);
        RoundsAreDays(days, 1, o.Kind(), old(o.State()));
      }
    }
  }

  /** A shop holding the single item the tests start from. */
  method SingleItemShop(name: string, sellIn: int, quality: int) returns (app: GildedRose, item: Item)
    ensures fresh(app) && fresh(app.items) && fresh(item)
    ensures app.items[..] == [item] && Distinct(app.items[..])
    ensures item.name == name && item.State() == Stock(sellIn, quality)
  {
    item := new Item(name, sellIn, quality);
    var items := new Item[] [item];
    app := new GildedRose(items);
  }

  /** One call on a regular item (10, 20), observed through the item's fields. */
  method RegularItemQualityDecreaseInShop() returns (sellIn: int, quality: int)
    ensures sellIn == 9 && quality == 19
  {
    var app, item := SingleItemShop(RegularItemName, 10, 20);
    assert item in app.items[..] && item.Kind() == Regular;
    app.UpdateQuality();
    assert item.State() == Stock(9, 19);
    sellIn, quality := app.items[0].sellIn, app.items[0].quality;
  }

  /** Two successive calls on a backstage pass (1, 48): it reaches the cap, then the concert is over. */
  method BackstagePassesMaxAndDropToZeroInShop() returns (sellIn: int, quality: int)
    ensures sellIn == -1 && quality == 0
  {
    var app, item := SingleItemShop(BackstagePassName, 1, 48);
    assert item in app.items[..] && item.Kind() == BackstagePass;
    app.UpdateQuality();
    assert item.State() == Stock(0, 50);
    app.UpdateQuality();
    assert item.State() == Stock(-1, 0);
    sellIn, quality := app.items[0].sellIn, app.items[0].quality;
  }

  /** Ten calls in a loop on Aged Brie (2, 45): it ends at the cap, eight days past its sell date. */
  method AgedBrieMaxQualityAfterMultipleUpdatesInShop() returns (sellIn: int, quality: int)
    ensures sellIn == -8 && quality == 50
  {
    var app, item := SingleItemShop(AgedBrieName, 2, 45);
    assert item in app.items[..] && item.Kind() == AgedBrie;
    UpdateForDays(app, 10);
    AgedBrieAging(10, Stock(2, 45));
    assert item.State() == Stock(-8, 50);
    sellIn, quality := app.items[0].sellIn, app.items[0].quality;
  }
}
