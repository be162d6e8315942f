/**
 * The daily update rule of the Gilded Rose inventory for a single item:
 * how one simulated day changes an item's sell-in and quality, depending on
 * the category its name puts it in.
 */
module Rules {

  /** The item names that select a special category; every other name is a regular item. */
  const AgedBrieName: string := "Aged Brie"
  const BackstagePassName: string := "Backstage passes to a TAFKAL80ETC concert"
  const SulfurasName: string := "Sulfuras, Hand of Ragnaros"

  /** The cap on the quality of items whose quality rises. */
  const MaxQuality: int := 50

  datatype Category = Regular | AgedBrie | BackstagePass | Legendary

  /** The sell-in and quality of one item, the part of it a day changes. */
  datatype Stock = Stock(sellIn: int, quality: int)

  /** The category is decided by an exact match on the whole name. */
  function CategoryOf(name: string): (c: Category)
    ensures c == AgedBrie <==> name == AgedBrieName
    ensures c == BackstagePass <==> name == BackstagePassName
    ensures c == Legendary <==> name == SulfurasName
    ensures c == Regular <==> name != AgedBrieName && name != BackstagePassName && name != SulfurasName
  {
    if name == AgedBrieName then AgedBrie
    else if name == BackstagePassName then BackstagePass
    else if name == SulfurasName then Legendary
    else Regular
  }

  /** The quality range that the daily rule keeps for every item that is not legendary. */
  predicate InRange(quality: int) {
    0 <= quality <= MaxQuality
  }

  /** How fast regular items lose and Aged Brie gains quality: twice as fast from the
      sell date on, that is, on a day that starts with sell-in at most 0. */
  function Rate(sellIn: int): nat {
    if sellIn <= 0 then 2 else 1
  }

  /** How much a backstage pass gains on a day that starts with the given sell-in
      (before the concert): 3 within 5 days, 2 within 10 days, 1 otherwise. */
  function PassTier(sellIn: int): nat {
    if sellIn < 6 then 3 else if sellIn < 11 then 2 else 1
  }

  /** Quality lowered by `k`, not below 0; a quality already at or below 0 is left alone. */
  function Degrade(quality: int, k: nat): int {
    if quality <= 0 then quality
    else if quality - k < 0 then 0
    else quality - k
  }

  /** Quality raised by `k`, not above the cap; a quality already at or above the cap is left alone. */
  function Enhance(quality: int, k: nat): int {
    if quality >= MaxQuality then quality
    else if quality + k > MaxQuality then MaxQuality
    else quality + k
  }

  /**
   * One day for one item, stated category by category: legendary items never
   * change; every other item's sell-in drops by one; regular items degrade and
   * Aged Brie improves at `Rate`; a backstage pass improves by `PassTier` until
   * the concert and is worth 0 from the day that takes its sell-in below 0.
   */
  function Step(cat: Category, st: Stock): (r: Stock)
    ensures cat == Legendary ==> r == st
    ensures cat != Legendary ==> r.sellIn == st.sellIn - 1
    ensures cat != Legendary && InRange(st.quality) ==> InRange(r.quality)
  {
    match cat
    case Legendary => st
    case Regular => Stock(st.sellIn - 1, Degrade(st.quality, Rate(st.sellIn)))
    case AgedBrie => Stock(st.sellIn - 1, Enhance(st.quality, Rate(st.sellIn)))
    case BackstagePass =>
      Stock(st.sellIn - 1, if st.sellIn <= 0 then 0 else Enhance(st.quality, PassTier(st.sellIn)))
  }

  /** Before the sell date a regular item loses exactly one point of quality. */
  lemma RegularBeforeSellDate(st: Stock)
    requires st.sellIn > 0 && st.quality > 0
    ensures Step(Regular, st) == Stock(st.sellIn - 1, st.quality - 1)
  {
  }

  /** A regular item's quality never becomes negative, and stays at 0 once there. */
  lemma RegularQualityFloor(st: Stock)
    requires st.quality >= 0
    ensures 0 <= Step(Regular, st).quality <= st.quality
    ensures st.quality == 0 ==> Step(Regular, st).quality == 0
  {
  }

  /** Away from the floor, a regular item loses 2 exactly when the day starts on or after the sell date. */
  lemma RegularDegradesTwiceAsFast(st: Stock)
    requires st.quality >= 2
    ensures st.quality - Step(Regular, st).quality == 2 <==> st.sellIn <= 0
    ensures st.quality - Step(Regular, st).quality == 1 <==> st.sellIn > 0
  {
  }

  /** Away from the cap, Aged Brie gains 2 exactly when the day starts on or after the sell date. */
  lemma AgedBrieImprovesTwiceAsFast(st: Stock)
    requires st.quality <= MaxQuality - 2
    ensures Step(AgedBrie, st).quality - st.quality == 2 <==> st.sellIn <= 0
    ensures Step(AgedBrie, st).quality - st.quality == 1 <==> st.sellIn > 0
  {
  }

  /** Aged Brie and backstage passes never rise above 50; Aged Brie below the cap always rises. */
  lemma QualityCap(st: Stock)
    requires st.quality <= MaxQuality
    ensures Step(AgedBrie, st).quality <= MaxQuality
    ensures Step(BackstagePass, st).quality <= MaxQuality
    ensures st.quality < MaxQuality ==> Step(AgedBrie, st).quality > st.quality
  {
  }

  /** Before the concert a backstage pass away from the cap gains 1, 2 or 3 by the pre-update sell-in. */
  lemma BackstageTiers(st: Stock)
    requires st.sellIn > 0 && st.quality <= MaxQuality - 3
    ensures st.sellIn > 10 ==> Step(BackstagePass, st).quality == st.quality + 1
    ensures 6 <= st.sellIn <= 10 ==> Step(BackstagePass, st).quality == st.quality + 2
    ensures st.sellIn <= 5 ==> Step(BackstagePass, st).quality == st.quality + 3
  {
  }

  /** Before the concert a backstage pass below the cap rises, and it never exceeds the cap. */
  lemma BackstageRises(st: Stock)
    requires st.sellIn > 0 && st.quality < MaxQuality
    ensures st.quality < Step(BackstagePass, st).quality <= MaxQuality
  {
  }

  /** For a non-negative quality, a backstage pass is worth 0 after a day exactly when that day
      takes its sell-in below 0, whatever its quality was. */
  lemma BackstageCollapse(st: Stock)
    requires st.quality >= 0
    ensures Step(BackstagePass, st).quality == 0 <==> Step(BackstagePass, st).sellIn < 0
  {
  }
}
