/**
  The shop's inventory: an ordered list of items that `UpdateQuality`
  advances by one day, rewriting each item in place.
 */
module Inventory {
  import opened Rules

  /** One day for a whole list: each item is stepped on its own. */
  function UpdateAll(items: seq<Item>): (r: seq<Item>)
    ensures |r| == |items|
    ensures forall k :: 0 <= k < |items| ==> r[k] == Step(items[k])
  {
    if items == [] then [] else [Step(items[0])] + UpdateAll(items[1..])
  }

  /** `n` days for a whole list. */
  function Days(items: seq<Item>, n: nat): (r: seq<Item>)
    ensures |r| == |items|
    ensures forall k :: 0 <= k < |items| ==> r[k] == StepN(items[k], n)
    decreases n
  {
    if n == 0 then items else Days(UpdateAll(items), n - 1)
  }

  predicate AllInBounds(items: seq<Item>) {
    forall k :: 0 <= k < |items| ==> InBounds(items[k])
  }

  /**
    The list can be cut anywhere and the halves updated separately: no item's
    new state depends on its neighbours or on the order of processing.
   */
  lemma UpdateAllSplits(a: seq<Item>, b: seq<Item>)
    ensures UpdateAll(a + b) == UpdateAll(a) + UpdateAll(b)
  {
  }

  /**
    Two lists that agree on one position agree there after an update, whatever
    else they hold. A corollary of `UpdateAll`'s pointwise contract, stated for
    the locality it expresses.
   */
  lemma UpdateAllLocal(a: seq<Item>, b: seq<Item>, k: nat)
    requires k < |a| && k < |b| && a[k] == b[k]
    ensures UpdateAll(a)[k] == UpdateAll(b)[k]
  {
  }

  /** Any number of days keeps every item's quality inside [0, 50]. */
  lemma DaysPreserveBounds(items: seq<Item>, n: nat)
    requires AllInBounds(items)
    ensures AllInBounds(Days(items, n))
  {
    forall k | 0 <= k < |items|
      ensures InBounds(Days(items, n)[k])
    {
      StepNPreservesBounds(items[k], n);
    }
  }

  /** The shop: owns the item list and advances it one day per call. */
  class GildedRose {
    var items: seq<Item>

    constructor (items: seq<Item>)
      ensures this.items == items
    {
      this.items := items;
    }

    /**
      Walks the list once; each item's quality moves by the day's rate
      (up for Aged Brie, down otherwise) and is clamped, then its sell-in
      drops by one.
     */
    method UpdateQuality()
      modifies this
      ensures items == UpdateAll(old(items))
      ensures |items| == |old(items)|
      ensures forall k :: 0 <= k < |items| ==>
        items[k].name == old(items)[k].name && items[k].sellIn == old(items)[k].sellIn - 1
      ensures AllInBounds(old(items)) ==> AllInBounds(items)
    {
      var i := 0;
      while i < |items|
        invariant 0 <= i <= |items| == |old(items)|
        invariant forall k :: 0 <= k < i ==> items[k] == Step(old(items)[k])
        invariant forall k :: i <= k < |items| ==> items[k] == old(items)[k]
      {
        var item := items[i];
        if item.name == AGED_BRIE {
          var newQuality := item.quality + if item.sellIn == 0 then 2 else 1;
          item := item.(quality := Min(newQuality, MAX_ITEM_QUALITY));
          item := item.(sellIn := item.sellIn - 1);
        } else {
          var newQuality := item.quality - if item.sellIn == 0 then 2 else 1;
          item := item.(quality := Max(newQuality, MIN_ITEM_QUALITY));
          item := item.(sellIn := item.sellIn - 1);
        }
        items := items[i := item];
        i := i + 1;
      }
      forall k | 0 <= k < |items|
        ensures AllInBounds(old(items)) ==> InBounds(items[k])
      {
        if AllInBounds(old(items)) {
          StepPreservesBounds(old(items)[k]);
        }
      }
    }
  }
}
