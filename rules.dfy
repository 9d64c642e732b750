/**
  The day-advance rule of the Gilded Rose inventory, one item at a time.

  An item has a name, a number of days left to sell it (`sellIn`, may go
  negative) and a quality. Each day an "Aged Brie" gains quality and every
  other item loses it; the change is 2 on the day `sellIn` is exactly 0 and 1
  on every other day. Quality is then clamped: capped at 50 for Aged Brie,
  floored at 0 for everything else. Finally `sellIn` drops by one.
 */
module Rules {

  /** Floor applied to the quality of every item that is not Aged Brie. */
  const MIN_ITEM_QUALITY: int := 0
  /** Cap applied to the quality of Aged Brie. */
  const MAX_ITEM_QUALITY: int := 50

  /** The one name the rules single out (compared for exact equality). */
  const AGED_BRIE: string := "Aged Brie"

  /** Range of the source's 32-bit signed fields. */
  const I32_MIN: int := -0x8000_0000
  const I32_MAX: int := 0x7fff_ffff

  /** An inventory item; the datatype constructor plays the part of `Item::new`. */
  datatype Item = Item(name: string, sellIn: int, quality: int)

  predicate IsAged(it: Item) {
    it.name == AGED_BRIE
  }

  /** The quality interval that the rules are meant to keep. */
  predicate InBounds(it: Item) {
    MIN_ITEM_QUALITY <= it.quality <= MAX_ITEM_QUALITY
  }

  /** `i32::min` */
  function Min(a: int, b: int): (r: int)
    ensures r <= a && r <= b
    ensures r == a || r == b
  {
    if a <= b then a else b
  }

  /** `i32::max` */
  function Max(a: int, b: int): (r: int)
    ensures r >= a && r >= b
    ensures r == a || r == b
  {
    if a >= b then a else b
  }

  /** Size of one day's quality change, judged on the sell-in before it is decremented. */
  function Rate(sellIn: int): (d: int)
    ensures d == 1 || d == 2
    ensures d == 2 <==> sellIn == 0
  {
    if sellIn == 0 then 2 else 1
  }

  /** One day for one item. */
  function Step(it: Item): (r: Item)
    ensures r.name == it.name
    ensures r.sellIn == it.sellIn - 1
    ensures IsAged(it) ==>
      && r.quality <= MAX_ITEM_QUALITY
      && r.quality <= it.quality + Rate(it.sellIn)
      && (r.quality == it.quality + Rate(it.sellIn) || r.quality == MAX_ITEM_QUALITY)
    ensures !IsAged(it) ==>
      && r.quality >= MIN_ITEM_QUALITY
      && r.quality >= it.quality - Rate(it.sellIn)
      && (r.quality == it.quality - Rate(it.sellIn) || r.quality == MIN_ITEM_QUALITY)
  {
    if IsAged(it) then
      Item(it.name, it.sellIn - 1, Min(it.quality + Rate(it.sellIn), MAX_ITEM_QUALITY))
    else
      Item(it.name, it.sellIn - 1, Max(it.quality - Rate(it.sellIn), MIN_ITEM_QUALITY))
  }

  /** Whenever the clamp does not bite, the change is exactly +Rate for Aged Brie and -Rate otherwise. */
  lemma StepExactDelta(it: Item)
    ensures IsAged(it) && it.quality + Rate(it.sellIn) <= MAX_ITEM_QUALITY ==>
      Step(it).quality - it.quality == (if it.sellIn == 0 then 2 else 1)
    ensures !IsAged(it) && it.quality - Rate(it.sellIn) >= MIN_ITEM_QUALITY ==>
      it.quality - Step(it).quality == (if it.sellIn == 0 then 2 else 1)
  {
  }

  /** Aged Brie never loses quality and no other item gains any, as long as it starts on the right side of its bound. */
  lemma StepDirection(it: Item)
    ensures IsAged(it) && it.quality <= MAX_ITEM_QUALITY ==>
      (it.quality < Step(it).quality || Step(it).quality == MAX_ITEM_QUALITY)
    ensures !IsAged(it) && it.quality >= MIN_ITEM_QUALITY ==>
      (Step(it).quality < it.quality || Step(it).quality == MIN_ITEM_QUALITY)
  {
  }

  /**
    A starting quality past the bound that applies (at or above 50 for Aged
    Brie, at or below 0 for other items) is not rejected: the clamp pulls it to
    that bound in one day. On the other side no clamp applies; quality moves
    toward [0, 50] by the day's rate and reaches it over several days (see
    `RegularReachesFloor` and `AgedReachesCap`).
   */
  lemma StepPullsIntoRange(it: Item)
    ensures IsAged(it) && it.quality >= MAX_ITEM_QUALITY ==> Step(it).quality == MAX_ITEM_QUALITY
    ensures !IsAged(it) && it.quality <= MIN_ITEM_QUALITY ==> Step(it).quality == MIN_ITEM_QUALITY
  {
  }

  /** One day keeps quality inside [0, 50], for both kinds of item. */
  lemma StepPreservesBounds(it: Item)
    requires InBounds(it)
    ensures InBounds(Step(it))
  {
  }

  /** `n` days for one item. */
  function StepN(it: Item, n: nat): (r: Item)
    ensures r.name == it.name
    ensures r.sellIn == it.sellIn - n
    decreases n
  {
    if n == 0 then it else StepN(Step(it), n - 1)
  }

  /** Any number of days keeps quality inside [0, 50]. */
  lemma {:induction false} StepNPreservesBounds(it: Item, n: nat)
    requires InBounds(it)
    ensures InBounds(StepN(it, n))
    decreases n
  {
    if n > 0 {
      StepPreservesBounds(it);
      StepNPreservesBounds(Step(it), n - 1);
    }
  }

  /**
    Closed form of the quality after `n >= 1` days: one unit per day, one unit
    more if the day on which `sellIn` is 0 falls inside the `n` days, clamped
    once at the end.
   */
  function QualityAfterDays(it: Item, n: nat): int {
    var expired := if 0 <= it.sellIn < n then 1 else 0;
    if IsAged(it) then Min(it.quality + n + expired, MAX_ITEM_QUALITY)
    else Max(it.quality - n - expired, MIN_ITEM_QUALITY)
  }

  /** Iterating the one-day rule agrees with the closed form. */
  lemma {:induction false} StepNQuality(it: Item, n: nat)
    requires n >= 1
    ensures StepN(it, n).quality == QualityAfterDays(it, n)
    decreases n
  {
    if n > 1 {
      StepNQuality(Step(it), n - 1);
    }
  }

  /** A regular item reaches quality 0 after at most `quality` days, and stays there. */
  lemma RegularReachesFloor(it: Item, n: nat)
    requires !IsAged(it)
    requires n >= 1 && n >= it.quality
    ensures StepN(it, n).quality == MIN_ITEM_QUALITY
  {
    StepNQuality(it, n);
  }

  /** Aged Brie reaches quality 50 after at most `50 - quality` days, and stays there. */
  lemma AgedReachesCap(it: Item, n: nat)
    requires IsAged(it)
    requires n >= 1 && n >= MAX_ITEM_QUALITY - it.quality
    ensures StepN(it, n).quality == MAX_ITEM_QUALITY
  {
    StepNQuality(it, n);
  }

  predicate InI32(x: int) {
    I32_MIN <= x <= I32_MAX
  }

  predicate ItemInI32(it: Item) {
    InI32(it.sellIn) && InI32(it.quality)
  }

  /** The source's arithmetic for one day does not leave the 32-bit range. */
  predicate NoOverflow(it: Item) {
    && InI32(it.sellIn - 1)
    && (IsAged(it) ==> InI32(it.quality + Rate(it.sellIn)))
    && (!IsAged(it) ==> InI32(it.quality - Rate(it.sellIn)))
  }

  /** Without overflow, a 32-bit item stays a 32-bit item. */
  lemma StepStaysInI32(it: Item)
    requires ItemInI32(it) && NoOverflow(it)
    ensures ItemInI32(Step(it))
  {
  }

  /** An item with quality in [0, 50] overflows only through `sellIn` at its minimum. */
  lemma InBoundsNoOverflow(it: Item)
    requires ItemInI32(it) && InBounds(it)
    ensures NoOverflow(it) <==> it.sellIn != I32_MIN
  {
  }
}
