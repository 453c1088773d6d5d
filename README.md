# Tier-list controller, modelled in Dafny

This project models the state core of a small tier-list application. A tier
list is an ordered sequence of tiers (labelled, coloured buckets of items,
ranked top to bottom) plus an unranked staging pool of items. The controller
owns that aggregate. It appends, edits, reorders and deletes tiers. It adds,
removes and moves items between tiers and staging. After most operations it
hands the changed fields to a single-record store.

Modules:

- `Types` (`types.dfy`): `Item`, `Tier` and the stored aggregate `TierListRecord`
  (staging plus tiers, without the storage key). The source's `label` property is
  called `name`, because `label` is a Dafny keyword.
- `JsArray` (`jsarray.dfy`): what `Array.prototype.splice(start, 1)` leaves in an
  array, for negative and past-the-end starts too, plus `RemoveAt`/`InsertAt`.
- `Constants` (`constants.dfy`): the two palettes, the reserved staging id and the
  default list seeded from `basicPalette2`.
- `TierList` (`tierlist.dfy`): the current controller. Each operation is a function
  from the old aggregate to the new one, with lemmas about it. The class
  `TierList.Controller` keeps `staging` and `tiers` as fields that its methods
  update in place. Each method's `ensures` ties the new state to that function.
  Two ghost fields model `#save`: `saves` logs every call's argument, and `stored`
  is the record the store holds once those writes are applied in order.
  `InSync()` says the store holds exactly the in-memory aggregate. Every method
  keeps `InSync()` except `AddStagingItem`, which never saves, so the stored
  staging falls behind.
- `LegacyTierList` (`legacy.dfy`): the earlier controller, which
  src/lib/context.ts still imports. It starts from a fixed initial list and does
  index-based adds and removes.

`Array.prototype.find`/`findIndex` become `TierList.FindTier`, and `filter` by
id becomes `TierList.WithoutId`. Both are pure recursive functions. The ids
that `nanoid()` would generate are parameters: `id` of `AddEntry`,
`generatedId` of the item operations, and `seedIds` of the default list.

Modelling choices:

- Staging is an item list (`Item[]`), as src/lib/data/types.ts:5 and the controller use it; Findings covers the seed in constants.ts.
- `addItem` only looks tiers up by id. `addStagingItem` adds to staging and never saves.
- `Controller.MoveEntry` bounds both indices by the number of tiers; `MoveTierAsWritten` keeps the literal bound (see Findings).
- Tier ids and item ids are meant to be unique. `UniqueIds` states this, and a lemma per operation shows it is kept, under the freshness or membership condition that operation needs.

## Model

| member | source | states |
|---|---|---|
| `TierList.FindTier` | src/lib/data/tier-list.svelte.ts:122-125 | `None` exactly when no tier has the id; otherwise the position of the first tier carrying it |
| `TierList.FindTierSeesOnlyIds` | src/lib/data/tier-list.svelte.ts:136-137 | lookup depends only on the sequence of tier ids, so edits to items never change which tier an id resolves to |
| `TierList.WithoutId` | src/lib/data/tier-list.svelte.ts:143 | the filter keeps exactly the items whose id differs, never grows, and takes nothing that was not there |
| `TierList.WithoutIdAppend` | src/lib/data/tier-list.svelte.ts:143 | the filter preserves relative order (it distributes over concatenation) |
| `TierList.WithoutIdRemovesOnce` | src/lib/data/tier-list.svelte.ts:143 | when the item is the only one with its id, filtering removes exactly that one item |
| `TierList.AppendTier` | src/lib/data/tier-list.svelte.ts:62-71 | exactly one tier is appended (`New Tier`, `bg-gray-700`, `#ffffff`, no items); earlier tiers and staging are unchanged and in order |
| `TierList.AppendTierKeepsUniqueIds` | src/lib/data/tier-list.svelte.ts:62-71 | with unique ids before, and a new tier id that no tier has and that is not `staging`, tier and item ids stay unique |
| `TierList.EditTier` | src/lib/data/tier-list.svelte.ts:75-76 | id and items are kept even when the patch carries them; each colour or label is overwritten only when supplied |
| `TierList.EditTierAt` | src/lib/data/tier-list.svelte.ts:73-78 | only the tier at the index changes; every other tier and staging are untouched |
| `TierList.EditTierAtKeepsUniqueIds` | src/lib/data/tier-list.svelte.ts:73-78 | editing a tier keeps tier and item ids unique, since it changes neither the ids nor the items |
| `TierList.Reorder` | src/lib/data/tier-list.svelte.ts:91-106 | both slice branches equal "remove at `from`, then insert at `to`", and give a permutation of the input |
| `TierList.ReorderUndo` | src/lib/data/tier-list.svelte.ts:91-106 | reordering `(to, from)` after `(from, to)` restores the original sequence |
| `TierList.MoveTierWithin` | src/lib/data/tier-list.svelte.ts:80-106 | for any bound, the guarded move keeps staging and permutes the tiers |
| `TierList.MoveTierAsWritten` | src/lib/data/tier-list.svelte.ts:80-89 | the move as written, bounded by `entries.length` (0), never touches staging |
| `TierList.MoveTierAsWrittenIsNoOp` | src/lib/data/tier-list.svelte.ts:85-88 | as written, every call returns at the guard and leaves the list unchanged |
| `TierList.MoveTierAsWrittenDropsMove` | src/lib/data/tier-list.svelte.ts:80-106 | an in-range move that the intended bound performs is dropped by the bound as written |
| `TierList.MoveTier` | src/lib/data/tier-list.svelte.ts:80-108 | bounded by the tier count, a move keeps the length and the multiset of tiers, and an in-range move puts the old `tiers[from]` at `to` |
| `TierList.MoveTierKeepsItems` | src/lib/data/tier-list.svelte.ts:80-108 | for any pair of indices, the items of the aggregate are the same multiset after the move |
| `TierList.MoveTierKeepsUniqueIds` | src/lib/data/tier-list.svelte.ts:80-108 | for any pair of indices, reordering keeps tier and item ids unique |
| `TierList.MoveTierNoOp` | src/lib/data/tier-list.svelte.ts:80-89 | equal indices, a negative index or an index at or past the tier count leave the list unchanged |
| `TierList.MoveTierIsRemoveThenInsert` | src/lib/data/tier-list.svelte.ts:91-106 | an in-range move equals removing the tier at `from` and inserting it at `to` |
| `TierList.MoveTierUndo` | src/lib/data/tier-list.svelte.ts:91-106 | moving a tier and moving it back restores the exact original order |
| `TierList.MoveTierExample` | src/lib/data/tier-list.svelte.ts:91-106 | `[S, A, B, C, D]` moved from 0 to 2 gives `[A, B, S, C, D]` |
| `TierList.DeleteTier` | src/lib/data/tier-list.svelte.ts:111-115 | the tier's items are appended to staging in their order, and only that tier is removed |
| `TierList.DeleteTierKeepsUniqueIds` | src/lib/data/tier-list.svelte.ts:111-115 | deleting a tier keeps tier and item ids unique, its items now in staging |
| `TierList.DeleteTierKeepsItems` | src/lib/data/tier-list.svelte.ts:111-115 | deleting a tier loses no item: the multiset and the number of items over staging and all tiers are unchanged |
| `TierList.ItemFrom` | src/lib/data/tier-list.svelte.ts:121 | absent id takes the generated id, absent label takes `New item`, and the image is passed through |
| `TierList.AddToStaging` | src/lib/data/tier-list.svelte.ts:117-119 | the new item is appended at the end of staging; the tiers are untouched |
| `TierList.AddToStagingAddsOne` | src/lib/data/tier-list.svelte.ts:117-119 | the aggregate's items gain exactly the built item |
| `TierList.AddToStagingKeepsUniqueIds` | src/lib/data/tier-list.svelte.ts:117-119 | when the built item's id is carried by no item, ids stay unique |
| `TierList.AddToTier` | src/lib/data/tier-list.svelte.ts:121-128 | no tier with the id: nothing changes; otherwise the item goes to the end of the first such tier only |
| `TierList.AddToTierKeepsUniqueIds` | src/lib/data/tier-list.svelte.ts:121-128 | when the built item's id is carried by no item, ids stay unique, whether or not the tier is found |
| `TierList.AddToTierAddsOne` | src/lib/data/tier-list.svelte.ts:121-128 | adding to a found tier adds exactly the new item to the aggregate's items |
| `TierList.RemoveItemAt` | src/lib/data/tier-list.svelte.ts:130-133 | only that tier's items change, by `splice(itemIndex, 1)`; other tiers and staging are unchanged |
| `TierList.RemoveItemAtTakesOnly` | src/lib/data/tier-list.svelte.ts:130-133 | for every integer item index, the aggregate's items after removal are a sub-multiset of those before |
| `TierList.RemoveItemAtKeepsUniqueIds` | src/lib/data/tier-list.svelte.ts:130-133 | for every integer item index, removal keeps tier and item ids unique |
| `TierList.RemoveItemAtRemovesOne` | src/lib/data/tier-list.svelte.ts:130-133 | at an in-range position exactly the item at that position leaves the aggregate |
| `JsArray.SpliceOne` | src/lib/data/tier-list.svelte.ts:131 | an in-range index removes that element and shifts later ones left; a start past the end removes nothing; a negative start counts from the end |
| `TierList.MovedBetween` | src/lib/data/tier-list.svelte.ts:143-144 | with both tier positions known: the source loses every item with the id, the destination gains the item at its tail (after the filter when it is the same tier), every other tier is unchanged |
| `TierList.MovedBetweenKeepsItems` | src/lib/data/tier-list.svelte.ts:143-144 | when the source holds the item as its only item with that id, the items of all tiers together are unchanged |
| `TierList.MoveBetweenTiers` | src/lib/data/tier-list.svelte.ts:135-146 | either tier missing: no change; otherwise all items with the id leave the source and the item goes to the destination's tail, the same tier when the ids coincide; tier ids and other tiers are kept |
| `TierList.MoveBetweenTiersKeepsUniqueIds` | src/lib/data/tier-list.svelte.ts:135-146 | when the source tier (if found) holds the item, moving it between tiers keeps ids unique |
| `TierList.MoveBetweenTiersKeepsItems` | src/lib/data/tier-list.svelte.ts:135-146 | when the source holds the item as its only item with that id, the aggregate's items are unchanged |
| `TierList.MoveBetweenTiersRoundTrip` | src/lib/data/tier-list.svelte.ts:135-146 | moving A to B and back leaves the item at the tail of A and no item with its id in B |
| `TierList.MoveOutOfStaging` | src/lib/data/tier-list.svelte.ts:148-158 | destination missing: no change; otherwise staging loses every item with the id and the destination gains the item at its tail |
| `TierList.MoveOutOfStagingKeepsUniqueIds` | src/lib/data/tier-list.svelte.ts:148-158 | when staging holds the item, moving it into a tier keeps ids unique |
| `TierList.MoveOutOfStagingKeepsItems` | src/lib/data/tier-list.svelte.ts:148-158 | when staging holds the item as its only item with that id, the aggregate's items are unchanged |
| `TierList.MoveIntoStaging` | src/lib/data/tier-list.svelte.ts:160-170 | source missing: no change; otherwise the tier loses every item with the id and staging gains the item at its tail |
| `TierList.MoveIntoStagingKeepsUniqueIds` | src/lib/data/tier-list.svelte.ts:160-170 | when the source tier (if found) holds the item, moving it to staging keeps ids unique |
| `TierList.MoveIntoStagingKeepsItems` | src/lib/data/tier-list.svelte.ts:160-170 | when the source holds the item as its only item with that id, the aggregate's items are unchanged |
| `TierList.SavedFields` | src/lib/data/tier-list.svelte.ts:41-48 | `all` selects staging and tiers, `staging` only staging, `tiers` only tiers |
| `TierList.Persist` | src/lib/data/tier-list.svelte.ts:41-52 | the stored record takes the selected fields from memory and keeps the others |
| `TierList.Controller.constructor` | src/lib/data/tier-list.svelte.ts:19-39 | a stored record is loaded as it is; otherwise the default list is seeded and stored; memory and store agree |
| `TierList.Controller.Save` | src/lib/data/tier-list.svelte.ts:41-52 | logs the argument and applies the selected fields to the stored record; memory is unchanged |
| `TierList.Controller.AddEntry` | src/lib/data/tier-list.svelte.ts:62-71 | new state is `AppendTier` of the old; saves `tiers`; store stays in sync |
| `TierList.Controller.EditEntry` | src/lib/data/tier-list.svelte.ts:73-78 | new state is `EditTierAt` of the old; saves `tiers`; store stays in sync |
| `TierList.Controller.MoveEntry` | src/lib/data/tier-list.svelte.ts:80-109 | new state is `MoveTier` of the old; saves `tiers` only when a move happens; store stays in sync |
| `TierList.Controller.DeleteEntry` | src/lib/data/tier-list.svelte.ts:111-115 | new state is `DeleteTier` of the old; saves `all`, after which the store holds the aggregate |
| `TierList.Controller.AddStagingItem` | src/lib/data/tier-list.svelte.ts:117-119 | new state is `AddToStaging` of the old; no save happens, so a store in sync before is out of sync after |
| `TierList.Controller.AddItem` | src/lib/data/tier-list.svelte.ts:121-128 | new state is `AddToTier` of the old; saves `tiers` only when the tier is found; store stays in sync |
| `TierList.Controller.RemoveItem` | src/lib/data/tier-list.svelte.ts:130-133 | new state is `RemoveItemAt` of the old; saves `tiers`; store stays in sync |
| `TierList.Controller.MoveItem` | src/lib/data/tier-list.svelte.ts:135-146 | new state is `MoveBetweenTiers` of the old; saves `tiers` only when both tiers are found; store stays in sync |
| `TierList.Controller.MoveFromStaging` | src/lib/data/tier-list.svelte.ts:148-158 | new state is `MoveOutOfStaging` of the old; saves `all` when the tier is found, after which the store holds the aggregate |
| `TierList.Controller.MoveToStaging` | src/lib/data/tier-list.svelte.ts:160-170 | new state is `MoveIntoStaging` of the old; saves `all` when the tier is found, after which the store holds the aggregate |
| `Constants.PalettesHaveSevenPairs` | src/lib/data/constants.ts:5-23 | both palettes hold exactly seven colour pairs |
| `Constants.SeedStagingTierIsEmpty` | src/lib/data/constants.ts:30-35 | the seed staging object carries the id `staging` and no items |
| `Constants.DefaultLabel` | src/lib/data/constants.ts:41 | index 0 is labelled `S`, index i > 0 the single character `'A' + (i - 1)` |
| `Constants.DefaultTiers` | src/lib/data/constants.ts:39-45 | one tier per `basicPalette2` entry, in palette order, with that entry's colours, the generated id and no items |
| `Constants.DefaultTierLabels` | src/lib/data/constants.ts:39-45 | the default tiers are labelled `S, A, B, C, D, E, F` |
| `Constants.DefaultTierList` | src/lib/data/constants.ts:37-46 | the default list has empty staging and the default tiers |
| `TierList.DefaultTierListHasUniqueIds` | src/lib/data/constants.ts:37-46 | with distinct seed ids, none of them `staging`, the default list has unique tier and item ids |
| `Constants.PushAll` | src/lib/data/tier-list.svelte.ts:118 | pushing onto an item array appends the items; pushing onto the frozen staging object throws |
| `Constants.DefaultTierListAsWritten` | src/lib/data/constants.ts:37-46 | as written, staging is the frozen `{id, items}` object and the tiers are the default tiers |
| `Constants.SeededStagingRejectsPush` | src/lib/data/constants.ts:32-38 | with the seed as written, the first push onto staging throws |
| `Constants.DefaultStagingAcceptsPush` | src/lib/data/types.ts:5 | with staging as an item list, a push yields exactly the pushed items |
| `LegacyTierList.InitialTierListShape` | src/lib/state/tier-list.svelte.ts:23-72 | five entries labelled `S, A, B, C, D` holding 1, 2, 0, 0, 0 items |
| `LegacyTierList.LegacyController.constructor` | src/lib/state/tier-list.svelte.ts:75 | a new controller holds the initial list |
| `LegacyTierList.LegacyController.AddEntry` | src/lib/state/tier-list.svelte.ts:77-84 | one entry `New Tier` / `bg-gray-700` / `text-white` with no items is appended; earlier entries are unchanged |
| `LegacyTierList.LegacyController.RemoveEntry` | src/lib/state/tier-list.svelte.ts:86-88 | `splice(index, 1)`; in range, exactly entry `index` is removed and the rest keep their order |
| `LegacyTierList.LegacyController.AddItem` | src/lib/state/tier-list.svelte.ts:90-95 | the item `{id: "23", label: "New Item"}` is appended to that entry only |
| `LegacyTierList.LegacyController.RemoveItem` | src/lib/state/tier-list.svelte.ts:97-99 | `splice(itemIndex, 1)` on that entry's items; other entries are unchanged |
| `LegacyTierList.AddItemTwiceDuplicatesId` | src/lib/state/tier-list.svelte.ts:90-95 | two `addItem` calls on one entry leave two items with the same id `23` at its end |

## Left out

- Asynchronous construction (the store's `first()`/`add()` promises) and the storage key `#id`: the constructor receives the loaded record, if any, directly.
- The store itself (src/lib/data/db.ts, including its `populate` hook): `stored` assumes that the fire-and-forget updates succeed and apply in call order.
- Svelte reactivity (`$state`, `$state.snapshot`) and `console.debug` logging. The aggregate has value semantics. The module-level default tiers and the earlier controller's shallow copy of `initialTierList` share arrays with the live state in the source; that aliasing is not modelled.
- `nanoid()`: ids are parameters. No operation in the source checks uniqueness, so the operations have no freshness precondition. Only the lemmas that keep `UniqueIds` assume that a new id is fresh, which is what `nanoid()` is relied on for.
- Tier indices out of range. `EditEntry`, `DeleteEntry`, `RemoveItem` and the earlier controller's `AddItem`/`RemoveItem` require an in-range tier index. Out of range, the source behaves differently per operation. `editEntry` with `index` equal to the number of tiers appends an object carrying only the patch's properties (no `id`, no `items`) and saves it. A larger index leaves holes in the array. A negative index sets a property that is not an array element. The other operations throw on `undefined.items`.
- Indices are integers: `moveEntry(NaN, NaN)` would pass every comparison of the guard as written, and this is not modelled.
- EditTier: a patch property present with the value `undefined` overwrites the tier's property in the source; the model treats it as absent.
- src/lib/context.ts (Svelte context wiring), src/lib/utils.ts and src/lib/utils/files.ts (class-name merging, a URL regex, file and image loading) are not part of this model.
- `Palette`, `TierListEntryPosition` and the `emptyItem` constants only declare types and values. `emptyItem` is `Constants.EmptyItem`; no operation uses it.

## Findings

| source | as written | input that shows it | evidently intended | confidence | as-written member | corrected member |
|---|---|---|---|---|---|---|
| src/lib/data/tier-list.svelte.ts:85-86 | the upper bound of both indices is `this.#tiers.entries.length`, the arity of `Array.prototype.entries`, which is 0, so the guard returns for every non-negative index and the reorder at lines 91-106 never runs | two distinct tiers, `moveEntry(0, 1)`: the list is unchanged and nothing is saved | bound by `this.#tiers.length`; `TierList.Controller.MoveEntry` uses that bound | high; not executed | `TierList.MoveTierAsWrittenDropsMove` | `TierList.MoveTierUndo` |
| src/lib/data/constants.ts:32-38 | the default list seeds `staging` with the frozen object `{id: 'staging', items: []}`, but src/lib/data/types.ts:5 and the controller treat staging as `Item[]` | a fresh store seeded with the default list, then `addStagingItem({})` or `deleteEntry(0)`: `this.#staging.push` is not a function, so the call throws. The store's populate hook (src/lib/data/db.ts:17-19) stores this seed on first open, so every fresh install loads it. There `moveToStaging` filters the item out of its tier (src/lib/data/tier-list.svelte.ts:167) before the push throws (:168). The item is lost from memory, and nothing is saved | seed staging as an empty item list; `TierList.Controller.constructor` seeds from `Constants.DefaultTierList` | high; not executed | `Constants.SeededStagingRejectsPush` | `Constants.DefaultStagingAcceptsPush` |
