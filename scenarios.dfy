/**
  The repository's unit tests, replayed as clients of `GildedRose`.
  The first two hold of the code; the last two record what the code
  actually produces where its tests expect rules it does not implement.
 */
module Scenarios {
  import opened Rules
  import opened Inventory

  /** "foo" with sell-in 1 and quality 3: (0, 2) after one day, quality 0 after two, still >= 0 after three. */
  method RegularItem() returns (after1: Item, after2: Item, after3: Item)
    ensures after1 == Item("foo", 0, 2)
    ensures after2.quality == 3 - 3
    ensures after3.quality >= MIN_ITEM_QUALITY
  {
    var rose := new GildedRose([Item("foo", 1, 3)]);
    rose.UpdateQuality();
    after1 := rose.items[0];
    rose.UpdateQuality();
    after2 := rose.items[0];
    rose.UpdateQuality();
    after3 := rose.items[0];
  }

  /** "Aged Brie" with sell-in 1 and quality 47: 48 after one day, 50 (the cap) after two. */
  method AgedItem() returns (after1: Item, after2: Item)
    ensures after1.quality == 47 + 1
    ensures after2.quality == 47 + 3 && after2.quality <= MAX_ITEM_QUALITY
  {
    var rose := new GildedRose([Item(AGED_BRIE, 1, 47)]);
    rose.UpdateQuality();
    after1 := rose.items[0];
    rose.UpdateQuality();
    after2 := rose.items[0];
  }

  /**
    "Sulfuras, Hand of Ragnaros" with sell-in 5 and quality 80 is a regular
    item to the code: one day gives (4, 79), not the unchanged (5, 80) its
    test expects.
   */
  method LegendaryItem() returns (after: Item)
    ensures after == Item("Sulfuras, Hand of Ragnaros", 4, 79)
  {
    var rose := new GildedRose([Item("Sulfuras, Hand of Ragnaros", 5, 80)]);
    rose.UpdateQuality();
    after := rose.items[0];
  }

  /**
    Backstage passes with sell-in 10, 5 and 0 and quality 10 are regular
    items to the code: one day gives qualities 9, 9 and 8, not the 12, 13
    and 0 their test expects.
   */
  method PassItem() returns (q10: int, q5: int, q0: int)
    ensures q10 == 9 && q5 == 9 && q0 == 8
  {
    var name := "Backstage passes to a TAFKAL80ETC concert";
    var rose := new GildedRose([Item(name, 10, 10), Item(name, 5, 10), Item(name, 0, 10)]);
    rose.UpdateQuality();
    q10, q5, q0 := rose.items[0].quality, rose.items[1].quality, rose.items[2].quality;
  }
}
