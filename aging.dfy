/**
 * Several simulated days in a row: the daily rule of `Rules` applied `n` times,
 * with closed forms for what a run of days does to each category.
 */
module Aging {
  import opened Rules

  /** The item after `n` days. */
  function Age(n: nat, cat: Category, st: Stock): (r: Stock)
    ensures cat == Legendary ==> r == st
    ensures cat != Legendary ==> r.sellIn == st.sellIn - n
    ensures cat != Legendary && InRange(st.quality) ==> InRange(r.quality)
    decreases n
  {
    if n == 0 then st else Step(cat, Age(n - 1, cat, st))
  }

  /** Running `a` days and then `b` more days is running `a + b` days. */
  lemma {:induction false} AgeAdd(a: nat, b: nat, cat: Category, st: Stock)
    ensures Age(a + b, cat, st) == Age(b, cat, Age(a, cat, st))
    decreases b
  {
    if b > 0 {
      AgeAdd(a, b - 1, cat, st);
    }
  }

  /** `rounds` rounds of `perRound` days each. */
  function Rounds(rounds: nat, perRound: nat, cat: Category, st: Stock): Stock
    decreases rounds
  {
    if rounds == 0 then st else Age(perRound, cat, Rounds(rounds - 1, perRound, cat, st))
  }

  /** `rounds` rounds of `perRound` days are `rounds * perRound` days. */
  lemma {:induction false} RoundsAreDays(rounds: nat, perRound: nat, cat: Category, st: Stock)
    ensures Rounds(rounds, perRound, cat, st) == Age(rounds * perRound, cat, st)
    decreases rounds
  {
    if rounds > 0 {
      var before := (rounds - 1) * perRound;
      LastRound(rounds, perRound);
      RoundsAreDays(rounds - 1, perRound, cat, st);
      AgeAdd(before, perRound, cat, st);
    }
  }

  /** An arithmetic step for `RoundsAreDays`: the last round adds `perRound` days. */
  lemma LastRound(rounds: nat, perRound: nat)
    requires rounds > 0
    ensures 0 <= (rounds - 1) * perRound && rounds * perRound == (rounds - 1) * perRound + perRound
  {
  }

  /** How many of `n` consecutive days, the first starting at sell-in `sellIn`,
      start on or after the sell date. */
  function OverdueDays(n: nat, sellIn: int): (k: nat)
    ensures k <= n
  {
    if n <= sellIn then 0 else if sellIn <= 0 then n else n - sellIn
  }

  /** Each day that starts on or after the sell date adds one overdue day. */
  lemma OverdueDaysStep(n: nat, sellIn: int)
    requires n > 0
    ensures OverdueDays(n, sellIn) == OverdueDays(n - 1, sellIn) + (if sellIn - (n - 1) <= 0 then 1 else 0)
  {
  }

  /** Over `n` days a regular item loses one point a day and one more on each overdue day,
      never going below 0. */
  lemma {:induction false} RegularAging(n: nat, st: Stock)
    requires st.quality >= 0
    ensures Age(n, Regular, st).quality
            == if n + OverdueDays(n, st.sellIn) >= st.quality then 0
               else st.quality - n - OverdueDays(n, st.sellIn)
    decreases n
  {
    if n > 0 {
      RegularAging(n - 1, st);
      OverdueDaysStep(n, st.sellIn);
    }
  }

  /** Over `n` days Aged Brie gains one point a day and one more on each overdue day,
      never going above the cap. */
  lemma {:induction false} AgedBrieAging(n: nat, st: Stock)
    requires st.quality <= MaxQuality
    ensures Age(n, AgedBrie, st).quality
            == if st.quality + n + OverdueDays(n, st.sellIn) >= MaxQuality then MaxQuality
               else st.quality + n + OverdueDays(n, st.sellIn)
    decreases n
  {
    if n > 0 {
      AgedBrieAging(n - 1, st);
      OverdueDaysStep(n, st.sellIn);
    }
  }

  /** While every day of the run is before the concert, a backstage pass gains at least
      one point a day, up to the cap, and never passes the cap. */
  lemma {:induction false} BackstageBeforeConcert(n: nat, st: Stock)
    requires n <= st.sellIn && st.quality <= MaxQuality
    ensures Age(n, BackstagePass, st).quality <= MaxQuality
    ensures Age(n, BackstagePass, st).quality
            >= if st.quality + n >= MaxQuality then MaxQuality else st.quality + n
    decreases n
  {
    if n > 0 {
      BackstageBeforeConcert(n - 1, st);
    }
  }

  /** Once a run of days has taken a backstage pass's sell-in below 0 it is worth 0. */
  lemma BackstageAfterConcert(n: nat, st: Stock)
    requires 0 < n && st.sellIn - n < 0
    ensures Age(n, BackstagePass, st).quality == 0
  {
  }
}
