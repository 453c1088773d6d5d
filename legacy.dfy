/** The earlier tier-list controller of src/lib/state/tier-list.svelte.ts, the one
    the application context still hands out: a fixed initial list of entries
    (tiers without ids) edited by index. */
module LegacyTierList {
  import opened Types
  import opened JsArray

  /** A tier of the earlier model: label (`name`), colours and items, but no id. */
  datatype Entry = Entry(name: string, bgColor: string, textColor: string, items: seq<Item>)

  /** The list every controller starts from. */
  const InitialTierList: seq<Entry> := [
    Entry("S", "bg-red-700", "text-white", [Item("0", "Test", None)]),
    Entry("A", "bg-yellow-700", "text-white", [
      Item("1", "Test image", Some("https://picsum.photos/200/300")),
      Item("2", "Test image 2", Some("https://picsum.photos/500/400"))
    ]),
    Entry("B", "bg-green-700", "text-white", []),
    Entry("C", "bg-blue-700", "text-white", []),
    Entry("D", "bg-purple-700", "text-white", [])
  ]

  function EntryLabels(entries: seq<Entry>): (r: seq<string>)
    ensures |r| == |entries|
    ensures forall i | 0 <= i < |entries| :: r[i] == entries[i].name
  {
    seq(|entries|, i requires 0 <= i < |entries| => entries[i].name)
  }

  function ItemCounts(entries: seq<Entry>): (r: seq<nat>)
    ensures |r| == |entries|
    ensures forall i | 0 <= i < |entries| :: r[i] == |entries[i].items|
  {
    seq(|entries|, i requires 0 <= i < |entries| => |entries[i].items|)
  }

  /** The initial list has five entries S, A, B, C, D holding 1, 2, 0, 0 and 0 items. */
  lemma InitialTierListShape()
    ensures EntryLabels(InitialTierList) == ["S", "A", "B", "C", "D"]
    ensures ItemCounts(InitialTierList) == [1, 2, 0, 0, 0]
  {
  }

  /** The item `addItem` appends: its id is the fixed string "23". */
  const NewItem: Item := Item("23", "New Item", None)

  /** `TierListController` of the earlier model; `entries` is `current.entries`. */
  class LegacyController {
    var entries: seq<Entry>

    constructor ()
      ensures entries == InitialTierList
    {
      entries := InitialTierList;
    }

    method AddEntry()
      modifies this
      ensures |entries| == |old(entries)| + 1 && entries[..|old(entries)|] == old(entries)
      ensures entries[|old(entries)|] == Entry("New Tier", "bg-gray-700", "text-white", [])
    {
      entries := entries + [Entry("New Tier", "bg-gray-700", "text-white", [])];
    }

    /** `splice(index, 1)` on the entries: an in-range index removes exactly that entry. */
    method RemoveEntry(index: int)
      modifies this
      ensures entries == SpliceOne(old(entries), index)
      ensures 0 <= index < |old(entries)| ==> entries == RemoveAt(old(entries), index)
    {
      entries := SpliceOne(entries, index);
    }

    method AddItem(entryIndex: nat)
      requires entryIndex < |entries|
      modifies this
      ensures |entries| == |old(entries)|
      ensures entries[entryIndex] == old(entries[entryIndex]).(items := old(entries[entryIndex].items) + [NewItem])
      ensures forall j | 0 <= j < |entries| && j != entryIndex :: entries[j] == old(entries[j])
    {
      entries := entries[entryIndex := entries[entryIndex].(items := entries[entryIndex].items + [NewItem])];
    }

    /** `splice(itemIndex, 1)` on the items of entry `entryIndex`; the other entries are untouched. */
    method RemoveItem(entryIndex: nat, itemIndex: int)
      requires entryIndex < |entries|
      modifies this
      ensures |entries| == |old(entries)|
      ensures entries[entryIndex] == old(entries[entryIndex]).(items := SpliceOne(old(entries[entryIndex].items), itemIndex))
      ensures forall j | 0 <= j < |entries| && j != entryIndex :: entries[j] == old(entries[j])
    {
      entries := entries[entryIndex := entries[entryIndex].(items := SpliceOne(entries[entryIndex].items, itemIndex))];
    }
  }

  /** Two `addItem` calls on one entry leave two items with the same id at its end. */
  method AddItemTwiceDuplicatesId(c: LegacyController, entryIndex: nat)
    requires entryIndex < |c.entries|
    modifies c
    ensures |c.entries| == |old(c.entries)|
    ensures var its := c.entries[entryIndex].items;
      |its| >= 2 && its[|its| - 1] == its[|its| - 2] && its[|its| - 1].id == "23"
  {
    c.AddItem(entryIndex);
    c.AddItem(entryIndex);
  }
}
