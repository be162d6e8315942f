# Gilded Rose inventory update, modelled in Dafny

The Gilded Rose shop keeps a list of items. Each item has a name, a sell-in
(days left before its sell date) and a quality. One call of `updateQuality()`
is one day: it changes the sell-in and quality of every item in place. The
change depends on a category, chosen by an exact match on the whole name:

- `"Aged Brie"` gains quality as it ages, twice as fast from its sell date on;
- `"Backstage passes to a TAFKAL80ETC concert"` gain 1, 2 or 3 points a day as
  the concert gets near, and drop to 0 once it is over;
- `"Sulfuras, Hand of Ragnaros"` is legendary: it never changes;
- every other name is a regular item: it loses quality, twice as fast from its
  sell date on.

Quality never drops below 0 and never rises above 50 by these changes.
Sell-in falls by one a day with no lower bound, except for Sulfuras.

The rule is reconstructed from the repository's JUnit test suite,
`src/main/test/org/example/GlidedRoseTest.java`. The shop class and the item
class (`GlidedRose`, `Item`) are modelled from the behaviour those tests fix:
the item record with its three public fields, the shop keeping the caller's
array, and the classic daily rule the 40 tests pin down.

The project has four modules:

- `rules.dfy`, module `Rules`: the categories, `CategoryOf`, and `Step`, one
  day for one item's `Stock` (sell-in and quality). `Step` is stated category
  by category, with a rate, a tier, a floor and a cap. Lemmas beside it state
  the single-day properties.
- `aging.dfy`, module `Aging`: `Age`, the rule applied for `n` days, with the
  multi-day properties. These include closed forms for regular items and Aged
  Brie, and the backstage pass before and after the concert.
- `inventory.dfy`, module `Inventory`: the `Item` and `GildedRose` classes.
  `UpdateItemQuality` changes one item's fields in place, in the shape of the
  classic kata code: guarded steps of one point, the first change decided on the old
  sell-in, then the decrement, then a second change once sell-in is below 0.
  It is proved equal to `Step`. `GildedRose.UpdateQuality` loops over the
  array and is proved against `Age`. When no object occurs twice in the array,
  each item takes exactly one `Step`. When the same object occurs `c` times,
  it is updated `c` times, as a loop over the array's entries does.
- `scenarios.dfy`, module `Scenarios`: every test, one lemma each, named after
  the test method. There is also `UpdateForDays`, the tests' loop of calls,
  and three tests replayed on real objects.

A backstage pass drops to 0 on the day its updated sell-in goes below 0, so
(0, 20) ends at quality 0 (the test at lines 95-101). It therefore does not
rise on a day that starts at sell-in 0 (`Rules.BackstageRises` requires
sell-in > 0).

## Model

| member | source | states |
|---|---|---|
| Rules.CategoryOf | src/main/test/org/example/GlidedRoseTest.java:8-11 | An item is Aged Brie, a backstage pass or Sulfuras exactly when its whole name equals that constant, and regular exactly when it equals none of them. |
| Rules.Step | src/main/test/org/example/GlidedRoseTest.java:13-191 | One day: a legendary item is unchanged; every other item loses exactly one day of sell-in; for a non-legendary item a quality in [0, 50] stays in [0, 50]. |
| Rules.RegularBeforeSellDate | src/main/test/org/example/GlidedRoseTest.java:14-20 | Before the sell date (sell-in > 0) a regular item with positive quality loses exactly 1 quality and 1 sell-in. |
| Rules.RegularQualityFloor | src/main/test/org/example/GlidedRoseTest.java:23-29 | A regular item's quality never becomes negative and never rises; at 0 it stays 0. |
| Rules.RegularDegradesTwiceAsFast | src/main/test/org/example/GlidedRoseTest.java:104-110 | Away from the floor a regular item loses 2 exactly when the day starts at sell-in <= 0, and 1 exactly when it starts at sell-in > 0. |
| Rules.AgedBrieImprovesTwiceAsFast | src/main/test/org/example/GlidedRoseTest.java:113-119 | Away from the cap Aged Brie gains 2 exactly when the day starts at sell-in <= 0, and 1 exactly when it starts at sell-in > 0. |
| Rules.QualityCap | src/main/test/org/example/GlidedRoseTest.java:140-155 | Aged Brie and backstage passes never rise above 50; Aged Brie below 50 always rises. |
| Rules.BackstageTiers | src/main/test/org/example/GlidedRoseTest.java:68-92 | Before the concert, away from the cap, a backstage pass gains 1 when sell-in > 10, 2 when 6 <= sell-in <= 10, 3 when sell-in <= 5, keyed on the sell-in before the update. |
| Rules.BackstageRises | src/main/test/org/example/GlidedRoseTest.java:68-74 | Before the concert a backstage pass below 50 strictly rises and stays at most 50. |
| Rules.BackstageCollapse | src/main/test/org/example/GlidedRoseTest.java:95-101 | For non-negative quality, a backstage pass ends the day at 0 if and only if the day takes its sell-in below 0, whatever the prior quality (50 included). |
| Aging.Age | src/main/test/org/example/GlidedRoseTest.java:194-213 | After n days a legendary item is unchanged, every other item's sell-in is exactly n lower (no lower bound), and a quality in [0, 50] stays in [0, 50]. |
| Aging.AgeAdd | src/main/test/org/example/GlidedRoseTest.java:227-234 | Running a days and then b more days is the same as running a + b days, so successive calls compose. |
| Aging.RoundsAreDays | src/main/test/org/example/GlidedRoseTest.java:197-199 | r rounds of p days each are r * p days. |
| Aging.RegularAging | src/main/test/org/example/GlidedRoseTest.java:352-360 | Over n days a regular item with quality >= 0 loses one point per day plus one per day started on or after the sell date, floored at 0. |
| Aging.AgedBrieAging | src/main/test/org/example/GlidedRoseTest.java:216-224 | Over n days Aged Brie with quality <= 50 gains one point per day plus one per day started on or after the sell date, capped at 50. |
| Aging.BackstageBeforeConcert | src/main/test/org/example/GlidedRoseTest.java:247-255 | While every day of the run is before the concert, a backstage pass gains at least one point per day up to 50 and never exceeds 50. |
| Aging.BackstageAfterConcert | src/main/test/org/example/GlidedRoseTest.java:382-389 | Once a run of at least one day has taken a backstage pass's sell-in below 0, its quality is 0. |
| Inventory.Item.constructor | src/main/test/org/example/GlidedRoseTest.java:15-15 | A new item holds exactly the name, sell-in and quality it was built with. |
| Inventory.UpdateItemQuality | src/main/test/org/example/GlidedRoseTest.java:13-191 | The in-place update of one item, written as the shop code's sequence of guarded field changes, leaves the name alone and yields exactly Step of the item's category and old state. |
| Inventory.GildedRose.constructor | src/main/test/org/example/GlidedRoseTest.java:16-16 | The shop keeps the caller's array itself, not a copy. |
| Inventory.GildedRose.UpdateQuality | src/main/test/org/example/GlidedRoseTest.java:15-19 | One call keeps the array, its entries and every name; an object occurring c times in the array is aged c days; with no repeated object every item has taken exactly one Step. |
| Scenarios.RegularItemNameIsRegular | src/main/test/org/example/GlidedRoseTest.java:9-9 | The name the tests use for a plain item falls into the regular category. |
| Scenarios.RegularItemQualityDecrease | src/main/test/org/example/GlidedRoseTest.java:14-20 | A regular item (10, 20) after 1 update is (9, 19). |
| Scenarios.QualityNotNegative | src/main/test/org/example/GlidedRoseTest.java:23-29 | A regular item (10, 0) after 1 update is (9, 0). |
| Scenarios.AgedBrieQualityIncrease | src/main/test/org/example/GlidedRoseTest.java:32-38 | Aged Brie (10, 10) after 1 update is (9, 11). |
| Scenarios.AgedBrieQualityCapAt50 | src/main/test/org/example/GlidedRoseTest.java:41-47 | Aged Brie (10, 50) after 1 update is (9, 50). |
| Scenarios.SulfurasQualityUnchanged | src/main/test/org/example/GlidedRoseTest.java:50-56 | Sulfuras (0, 80) after 1 update is (0, 80). |
| Scenarios.SulfurasSellInUnchanged | src/main/test/org/example/GlidedRoseTest.java:59-65 | Sulfuras (5, 80) after 1 update is (5, 80). |
| Scenarios.BackstagePassesQualityIncrease | src/main/test/org/example/GlidedRoseTest.java:68-74 | A backstage pass (15, 20) after 1 update is (14, 21). |
| Scenarios.BackstagePassesQualityIncrease10DaysOrLess | src/main/test/org/example/GlidedRoseTest.java:77-83 | A backstage pass (10, 20) after 1 update is (9, 22). |
| Scenarios.BackstagePassesQualityIncrease5DaysOrLess | src/main/test/org/example/GlidedRoseTest.java:86-92 | A backstage pass (5, 20) after 1 update is (4, 23). |
| Scenarios.BackstagePassesQualityDropToZero | src/main/test/org/example/GlidedRoseTest.java:95-101 | A backstage pass (0, 20) after 1 update is (-1, 0). |
| Scenarios.QualityDegradesTwiceAsFastAfterSellIn | src/main/test/org/example/GlidedRoseTest.java:104-110 | A regular item (0, 10) after 1 update is (-1, 8). |
| Scenarios.AgedBrieQualityIncreaseAfterSellIn | src/main/test/org/example/GlidedRoseTest.java:113-119 | Aged Brie (0, 10) after 1 update is (-1, 12). |
| Scenarios.BackstagePassesQualityCappedAt50 | src/main/test/org/example/GlidedRoseTest.java:122-128 | A backstage pass (5, 49) after 1 update is (4, 50). |
| Scenarios.NegativeSellInRegularItem | src/main/test/org/example/GlidedRoseTest.java:131-137 | A regular item (-1, 10) after 1 update is (-2, 8). |
| Scenarios.QualityNeverExceeds50AgedBrie | src/main/test/org/example/GlidedRoseTest.java:140-146 | Aged Brie (0, 49) after 1 update is (-1, 50). |
| Scenarios.BackstagePassesQualityDoesNotExceed50 | src/main/test/org/example/GlidedRoseTest.java:149-155 | A backstage pass (3, 49) after 1 update is (2, 50). |
| Scenarios.RegularItemQualityDecreaseToZero | src/main/test/org/example/GlidedRoseTest.java:158-164 | A regular item (1, 1) after 1 update is (0, 0). |
| Scenarios.NoChangeForSulfuras | src/main/test/org/example/GlidedRoseTest.java:167-173 | Sulfuras (-1, 80) after 1 update is (-1, 80). |
| Scenarios.AgedBrieIncreaseAfterExpiration | src/main/test/org/example/GlidedRoseTest.java:176-182 | Aged Brie (-1, 20) after 1 update is (-2, 22). |
| Scenarios.BackstagePassesZeroQualityAfterConcert | src/main/test/org/example/GlidedRoseTest.java:185-191 | A backstage pass (-1, 20) after 1 update is (-2, 0). |
| Scenarios.QualityNotNegativeAfterMultipleUpdates | src/main/test/org/example/GlidedRoseTest.java:194-202 | A regular item (5, 1) after 3 updates is (2, 0). |
| Scenarios.SulfurasNoChangeAfterMultipleUpdates | src/main/test/org/example/GlidedRoseTest.java:205-213 | Sulfuras (5, 80) after 5 updates is (5, 80). |
| Scenarios.AgedBrieMaxQualityAfterMultipleUpdates | src/main/test/org/example/GlidedRoseTest.java:216-224 | Aged Brie (2, 45) after 10 updates is (-8, 50). |
| Scenarios.BackstagePassesMaxAndDropToZero | src/main/test/org/example/GlidedRoseTest.java:227-234 | A backstage pass (1, 48) after 2 updates is (-1, 0). |
| Scenarios.RegularItemDegradesTwiceAfterSellInMultipleUpdates | src/main/test/org/example/GlidedRoseTest.java:237-244 | A regular item (0, 10) after 2 updates is (-2, 6). |
| Scenarios.BackstagePassesIncreaseBelow5Days | src/main/test/org/example/GlidedRoseTest.java:247-255 | A backstage pass (4, 45) after 2 updates is (2, 50). |
| Scenarios.SulfurasMaxQualityNoChange | src/main/test/org/example/GlidedRoseTest.java:258-264 | Sulfuras (-1, 80) after 1 update is (-1, 80). |
| Scenarios.AgedBrieIncreaseNegativeSellIn | src/main/test/org/example/GlidedRoseTest.java:267-273 | Aged Brie (-2, 10) after 1 update is (-3, 12). |
| Scenarios.BackstagePassesIncreaseAt10Days | src/main/test/org/example/GlidedRoseTest.java:276-282 | A backstage pass (10, 20) after 1 update is (9, 22). |
| Scenarios.BackstagePassesIncreaseAt5Days | src/main/test/org/example/GlidedRoseTest.java:285-291 | A backstage pass (5, 20) after 1 update is (4, 23). |
| Scenarios.NegativeSellInSulfuras | src/main/test/org/example/GlidedRoseTest.java:294-300 | Sulfuras (-10, 80) after 1 update is (-10, 80). |
| Scenarios.TwiceDegradationAfterSellInExpires | src/main/test/org/example/GlidedRoseTest.java:303-309 | A regular item (-1, 10) after 1 update is (-2, 8). |
| Scenarios.AgedBrieReachingQualityCap | src/main/test/org/example/GlidedRoseTest.java:312-320 | Aged Brie (5, 48) after 3 updates is (2, 50). |
| Scenarios.BackstagePassesDropAfterConcert | src/main/test/org/example/GlidedRoseTest.java:323-329 | A backstage pass (0, 50) after 1 update is (-1, 0). |
| Scenarios.SulfurasNoEffectOnMultipleUpdates | src/main/test/org/example/GlidedRoseTest.java:332-340 | Sulfuras (1, 80) after 10 updates is (1, 80). |
| Scenarios.AgedBrieIncreasesWithNegativeSellIn | src/main/test/org/example/GlidedRoseTest.java:343-349 | Aged Brie (-1, 30) after 1 update is (-2, 32). |
| Scenarios.NoItemQualityNegative | src/main/test/org/example/GlidedRoseTest.java:352-360 | A regular item (0, 1) after 5 updates is (-5, 0). |
| Scenarios.RegularItemDropToZero | src/main/test/org/example/GlidedRoseTest.java:363-370 | A regular item (1, 2) after 2 updates is (-1, 0). |
| Scenarios.AgedBrieIncreaseAtSellInZero | src/main/test/org/example/GlidedRoseTest.java:373-379 | Aged Brie (0, 20) after 1 update is (-1, 22). |
| Scenarios.BackstagePassesCapBeforeZero | src/main/test/org/example/GlidedRoseTest.java:382-389 | A backstage pass (1, 49) after 2 updates is (-1, 0). |
| Scenarios.UpdateForDays | src/main/test/org/example/GlidedRoseTest.java:197-199 | The tests' loop of d calls keeps the array and names; an object occurring c times is aged d rounds of c days; with no repeated object every item is aged exactly d days. |
| Scenarios.SingleItemShop | src/main/test/org/example/GlidedRoseTest.java:15-16 | Builds a fresh one-item array and shop holding exactly the given item. |
| Scenarios.RegularItemQualityDecreaseInShop | src/main/test/org/example/GlidedRoseTest.java:14-20 | On objects: after one call the regular item (10, 20) reads sell-in 9 and quality 19. |
| Scenarios.BackstagePassesMaxAndDropToZeroInShop | src/main/test/org/example/GlidedRoseTest.java:227-234 | On objects: after two calls the backstage pass (1, 48) reads sell-in -1 and quality 0. |
| Scenarios.AgedBrieMaxQualityAfterMultipleUpdatesInShop | src/main/test/org/example/GlidedRoseTest.java:216-224 | On objects: after ten calls in a loop Aged Brie (2, 45) reads sell-in -8 and quality 50. |

## Left out

- The shop and item classes are modelled from the behaviour the tests fix, not from their Java code. The rule is the one the tests fix. For an input no test covers, the model gives what that rule gives and promises nothing else.
- Java `int` overflow: sell-in and quality are unbounded integers. A sell-in that would wrap after about 2^31 days is not modelled.
- `null` items or a `null` array: the model's arrays hold non-null items only, where Java would throw.
- Starting quality outside [0, 50] for non-legendary items, and Sulfuras with a quality other than 80: no test states these. The model handles them as the rule's guards do (a quality at or above 50 does not rise; one at or below 0 does not fall), and its range lemmas assume a start in [0, 50].
- `Item.toString`, any `main` program, and extra categories such as "Conjured": nothing in the test suite covers them.
- The JUnit harness itself (`@Test`, `assertEquals`): each test appears only as a lemma, or as a method whose postcondition is its assertions.
