/**
 * The inventory as objects: items whose sell-in and quality are updated in
 * place, and the shop that holds an array of them and ages every item by one
 * day per call of `UpdateQuality`.
 */
module Inventory {
  import opened Rules
  import opened Aging

  /** An item record with public, mutable fields. */
  class Item {
    var name: string
    var sellIn: int
    var quality: int

    constructor (name: string, sellIn: int, quality: int)
      ensures this.name == name && this.sellIn == sellIn && this.quality == quality
    {
      this.name := name;
      this.sellIn := sellIn;
      this.quality := quality;
    }

    /** The item's sell-in and quality as a value. */
    function State(): Stock
      reads this
    {
      Stock(sellIn, quality)
    }

    /** The category the item's current name selects. */
    function Kind(): Category
      reads this
    {
      CategoryOf(name)
    }
  }

  /** No object occurs twice in `s`. */
  predicate Distinct<T(==)>(s: seq<T>) {
    forall i, j :: 0 <= i < j < |s| ==> s[i] != s[j]
  }

  /** In a sequence without repetitions every element occurs exactly once. */
  lemma {:induction false} DistinctOccursOnce<T>(s: seq<T>, i: int)
    requires Distinct(s) && 0 <= i < |s|
    ensures multiset(s)[s[i]] == 1
    decreases |s|
  {
    var last := |s| - 1;
    assert s == s[..last] + [s[last]];
    assert Distinct(s[..last]);
    if i == last {
      assert s[last] !in s[..last];
    } else {
      DistinctOccursOnce(s[..last], i);
      assert s[i] != s[last];
    }
  }

  /** Extending a prefix by one element adds one occurrence of that element and no other. */
  lemma OccurrencesInPrefix<T>(s: seq<T>, k: int, x: T)
    requires 0 <= k < |s|
    ensures multiset(s[..k + 1])[x] == multiset(s[..k])[x] + if x == s[k] then 1 else 0
  {
    assert s[..k + 1] == s[..k] + [s[k]];
  }

  /**
   * One day for one item, in place, in the shape of the shop's code: legendary
   * items are skipped; the first quality change is decided on the sell-in before
   * it is decremented, each single point raised only while below the cap and
   * lowered only while above 0; then sell-in drops by one; and if it is now
   * below 0 a second change follows (regular items lose another point, Aged Brie
   * gains another point, a backstage pass drops to 0).
   */
  method UpdateItemQuality(item: Item)
    modifies item
    ensures item.name == old(item.name)
    ensures item.State() == Step(item.Kind(), old(item.State()))
  {
    var cat := CategoryOf(item.name);
    if cat == Legendary {
      return;
    }
    if cat == Regular {
      if item.quality > 0 {
        item.quality := item.quality - 1;
      }
    } else if item.quality < MaxQuality {
      item.quality := item.quality + 1;
      if cat == BackstagePass {
        if item.sellIn < 11 && item.quality < MaxQuality {
          item.quality := item.quality + 1;
        }
        if item.sellIn < 6 && item.quality < MaxQuality {
          item.quality := item.quality + 1;
        }
      }
    }
    item.sellIn := item.sellIn - 1;
    if item.sellIn < 0 {
      match cat
      case Regular =>
        if item.quality > 0 {
          item.quality := item.quality - 1;
        }
      case AgedBrie =>
        if item.quality < MaxQuality {
          item.quality := item.quality + 1;
        }
      case BackstagePass =>
        item.quality := item.quality - item.quality;
    }
  }

  /** The shop: it keeps the caller's array of items and ages them in place. */
  class GildedRose {
    var items: array<Item>

    constructor (items: array<Item>)
      ensures this.items == items
    {
      this.items := items;
    }

    /**
     * One simulated day: every entry of the array is aged by one day, in order.
     * An object that occurs in the array `c` times is aged `c` days; when no
     * object occurs twice, each item has taken exactly one `Step`. Names, the
     * array and its entries are left as they were.
     */
    method UpdateQuality()
      modifies items[..]
      ensures items == old(items) && items[..] == old(items[..])
      ensures forall o :: o in items[..] ==> o.name == old(o.name)
      ensures forall o {:trigger o.State()} :: o in items[..] ==>
        o.State() == Age(multiset(items[..])[o], o.Kind(), old(o.State()))
      ensures Distinct(items[..]) ==> forall o {:trigger o.State()} :: o in items[..] ==>
        o.State() == Step(o.Kind(), old(o.State()))
    {
      ghost var elems := items[..];
      var k := 0;
      while k < items.Length
        invariant 0 <= k <= items.Length && items[..] == elems
        invariant forall o :: o in elems ==> o.name == old(o.name)
        invariant forall o {:trigger o.State()} :: o in elems ==>
          o.State() == Age(multiset(elems[..k])[o], o.Kind(), old(o.State()))
      {
        var item := items[k];
        label Before:
        UpdateItemQuality(item);
        forall o | o in elems
          ensures o.State() == Age(multiset(elems[..k + 1])[o], o.Kind(), old(o.State()))
        {
          OccurrencesInPrefix(elems, k, o);
          assert old@Before(o.State()) == Age(multiset(elems[..k])[o], o.Kind(), old(o.State()));
          if o != item {
            assert o.State() == old@Before(o.State());
          }
        }
        k := k + 1;
      }
      assert elems[..k] == elems;
      if Distinct(elems) {
        forall o | o in elems
          ensures multiset(elems)[o] == 1
        {
          var i :| 0 <= i < |elems| && elems[i] == o;
          DistinctOccursOnce(elems, i);
        }
      }
    }
  }
}
