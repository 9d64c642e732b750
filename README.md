# Gilded Rose day-advance rule, in Dafny

This project models the inventory update of the Gilded Rose shop
(`src/gildedrose.rs`). An item has a `name`, a `sell_in` (days left to sell it)
and a `quality`. The shop owns an ordered list of items, and
`update_quality` advances every item by one day. It rewrites each item in place:

- **"Aged Brie"** (exact name match) gains 2 quality on the day `sell_in` is
  exactly 0 and 1 on any other day. The result is capped at
  `MAX_ITEM_QUALITY = 50`.
- **Every other item** loses 2 quality on the day `sell_in` is exactly 0 and 1
  on any other day. The result is floored at `MIN_ITEM_QUALITY = 0`.
- In both cases `sell_in` then drops by 1.

Files:

- `rules.dfy` (module `Rules`): the constants, the `Item` datatype, the
  one-item rule `Step`, and its n-day iterate `StepN` with a closed form.
  The datatype constructor `Item(name, sellIn, quality)` stands for
  `Item::new`. `Min` and `Max` stand for `i32::min` and `i32::max`.
- `inventory.dfy` (module `Inventory`): the class `GildedRose`, whose `items`
  field is a `seq<Item>` (the Rust `Vec<Item>`). `UpdateQuality` walks the list
  with a loop, following the branches of the source and writing each item back
  in place. It is proved against the list function `UpdateAll`.
- `scenarios.dfy` (module `Scenarios`): the repository's four unit tests
  replayed against the class.

The tests at src/gildedrose.rs:147-178 and the commented-out rule set at
src/gildedrose.rs:52-101 expect a legendary item ("Sulfuras, Hand of
Ragnaros") and backstage passes with their own rules. The live code has
neither, so those names go down the regular branch. This model follows the
code. `Scenarios.LegendaryItem` and `Scenarios.PassItem` show what the code
produces for the inputs of the `legendary_item` and `pass_item` tests. Neither
result is what those tests expect.

## Model

| member | source | states |
|---|---|---|
| `Rules.Min` | src/gildedrose.rs:42 | `i32::min`: the result is at most both arguments and equal to one of them |
| `Rules.Max` | src/gildedrose.rs:48 | `i32::max`: the result is at least both arguments and equal to one of them |
| `Rules.Rate` | src/gildedrose.rs:41 | the day's change is 2 exactly when the pre-update `sell_in` is 0, otherwise 1; negative `sell_in` also gives 1 |
| `Rules.Step` | src/gildedrose.rs:38-49 | one day for one item: name kept, `sell_in` one less; Aged Brie ends at most 50, at most old quality + rate, and equal to one of the two; other items end at least 0, at least old quality - rate, and equal to one of the two |
| `Rules.StepExactDelta` | src/gildedrose.rs:41-47 | when the clamp does not bite, the quality change is exactly +2/+1 (Aged Brie) or -2/-1 (other items), keyed on `sell_in == 0` |
| `Rules.StepDirection` | src/gildedrose.rs:41-48 | Aged Brie at or below 50 strictly gains quality or sits at 50; other items at or above 0 strictly lose quality or sit at 0 |
| `Rules.StepPullsIntoRange` | src/gildedrose.rs:41-48 | a starting quality past the bound its branch applies is accepted and clamped in one day: Aged Brie at or above 50 becomes 50, other items at or below 0 become 0. On the other side (Aged Brie below 0, other items above 50) there is no clamp: quality moves by the day's rate and reaches the range over several days |
| `Rules.StepPreservesBounds` | src/gildedrose.rs:41-48 | one day keeps quality in [0, 50] for both kinds of item |
| `Rules.StepN` | src/gildedrose.rs:37-50 | after n days an item keeps its name and its `sell_in` is the initial one minus n |
| `Rules.StepNPreservesBounds` | src/gildedrose.rs:41-48 | any number of days keeps quality in [0, 50] |
| `Rules.StepNQuality` | src/gildedrose.rs:41-49 | after n >= 1 days, quality equals the closed form: initial quality moved by n, plus 1 more if the day with `sell_in == 0` falls within those days, clamped once |
| `Rules.RegularReachesFloor` | src/gildedrose.rs:47-48 | a non-Aged-Brie item reaches quality 0 within `quality` days and stays there |
| `Rules.AgedReachesCap` | src/gildedrose.rs:41-42 | Aged Brie reaches quality 50 within `50 - quality` days and stays there |
| `Rules.StepStaysInI32` | src/gildedrose.rs:41-49 | if the day's arithmetic stays in the i32 range, the new item has i32 fields |
| `Rules.InBoundsNoOverflow` | src/gildedrose.rs:41-49 | for an item with quality in [0, 50], the day's arithmetic overflows i32 exactly when `sell_in` is `i32::MIN` |
| `Inventory.UpdateAll` | src/gildedrose.rs:37-50 | one day for a list: same length, and position k holds `Step` of the old item at k |
| `Inventory.Days` | src/gildedrose.rs:37-50 | n days for a list: same length, and position k holds `StepN` of the old item at k |
| `Inventory.UpdateAllSplits` | src/gildedrose.rs:38 | updating a concatenation equals concatenating the updates, so no item depends on its neighbours or on processing order |
| `Inventory.UpdateAllLocal` | src/gildedrose.rs:38-50 | two lists that agree at position k also agree at k after an update |
| `Inventory.DaysPreserveBounds` | src/gildedrose.rs:41-48 | if every item starts with quality in [0, 50], every item stays there after any number of days |
| `Inventory.GildedRose.constructor` | src/gildedrose.rs:33-35 | the shop holds exactly the given list |
| `Inventory.GildedRose.UpdateQuality` | src/gildedrose.rs:37-50 | the in-place loop leaves the list equal to `UpdateAll` of the old list. Length, order and names are kept, and every `sell_in` is one less. Quality bounds in [0, 50] are preserved |
| `Scenarios.RegularItem` | src/gildedrose.rs:112-128 | ("foo", 1, 3) becomes ("foo", 0, 2) after one day; its quality is 0 after two days and still >= 0 after three |
| `Scenarios.AgedItem` | src/gildedrose.rs:132-145 | ("Aged Brie", 1, 47) has quality 48 after one day and 50 (<= 50) after two |
| `Scenarios.LegendaryItem` | src/gildedrose.rs:148-158 | the code turns ("Sulfuras, Hand of Ragnaros", 5, 80) into (4, 79), where the test expects it unchanged |
| `Scenarios.PassItem` | src/gildedrose.rs:161-178 | the code turns backstage passes with `sell_in` 10, 5, 0 and quality 10 into qualities 9, 9, 8, where the test expects 12, 13, 0 |

## Left out

- i32 overflow: fields are unbounded `int`. `quality + 2` near `i32::MAX` (Aged Brie), `quality - 2` near `i32::MIN` (other items) and `sell_in - 1` at `i32::MIN` would panic (debug build) or wrap (release build) in the source; the model computes the exact value instead. `Rules.NoOverflow` names the inputs for which the two agree.
- `Display for Item` (src/gildedrose.rs:22-26): text formatting only, with no logic.
- The commented-out earlier rule set (src/gildedrose.rs:52-101): dead code.
- Legendary and backstage-pass rules (expected by the tests at src/gildedrose.rs:147-178): the code has no such branches. Those tests are replayed as `Scenarios.LegendaryItem` and `Scenarios.PassItem`, which show the code's actual results; their assertions do not hold of the code.
- Aliasing: `Vec<Item>` is owned by value, so the list is a `seq<Item>` field that is reassigned position by position. No two positions can share an item, so nothing is lost.
