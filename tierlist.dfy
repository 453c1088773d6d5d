/** The tier-list controller of src/lib/data/tier-list.svelte.ts.

    The aggregate is a `TierListRecord`: a staging item list and an ordered
    sequence of tiers. Each operation of the controller is specified by a
    function from the old aggregate to the new one; the class `Controller`
    holds the aggregate in fields it updates in place, and records, as ghost
    state, which fields every operation hands to the store. */
module TierList {
  import opened Types
  import opened JsArray
  import Constants

  // ---------------------------------------------------------------------------
  // Lookup and filtering (Array.prototype.findIndex / find / filter)
  // ---------------------------------------------------------------------------

  /** `tiers.findIndex(t => t.id === id)`, `None` standing for -1; `tiers.find`
      returns the tier at the same position. */
  function FindTier(tiers: seq<Tier>, id: string): (r: Option<nat>)
    ensures r.None? <==> forall i | 0 <= i < |tiers| :: tiers[i].id != id
    ensures r.Some? ==> r.value < |tiers| && tiers[r.value].id == id
    ensures r.Some? ==> forall j | 0 <= j < r.value :: tiers[j].id != id
  {
    if tiers == [] then None
    else if tiers[0].id == id then Some(0)
    else match FindTier(tiers[1..], id)
      case None => None
      case Some(k) => Some(k + 1)
  }

  /** Two tier sequences with the same ids in the same order resolve every id to the same position. */
  lemma FindTierSeesOnlyIds(a: seq<Tier>, b: seq<Tier>, id: string)
    requires |a| == |b|
    requires forall i | 0 <= i < |a| :: a[i].id == b[i].id
    ensures FindTier(a, id) == FindTier(b, id)
  {
  }

  /** `items.filter(i => i.id !== id)`. */
  function WithoutId(items: seq<Item>, id: string): (r: seq<Item>)
    ensures |r| <= |items|
    ensures forall x :: x in r <==> x in items && x.id != id
    ensures multiset(r) <= multiset(items)
  {
    if items == [] then []
    else
      assert items == [items[0]] + items[1..];
      (if items[0].id == id then [] else [items[0]]) + WithoutId(items[1..], id)
  }

  /** Filtering keeps the relative order: it distributes over concatenation. */
  lemma {:induction false} WithoutIdAppend(a: seq<Item>, b: seq<Item>, id: string)
    ensures WithoutId(a + b, id) == WithoutId(a, id) + WithoutId(b, id)
  {
    if a == [] {
      assert a + b == b;
    } else {
      assert (a + b)[1..] == a[1..] + b;
      WithoutIdAppend(a[1..], b, id);
    }
  }

  /** Number of items carrying id `id`. */
  function CountId(items: seq<Item>, id: string): nat
  {
    if items == [] then 0 else (if items[0].id == id then 1 else 0) + CountId(items[1..], id)
  }

  /** When `item` is the only element with its id, filtering by that id removes exactly that one element. */
  lemma {:induction false} WithoutIdRemovesOnce(items: seq<Item>, item: Item)
    requires item in items && CountId(items, item.id) == 1
    ensures multiset(WithoutId(items, item.id)) + multiset{item} == multiset(items)
  {
    var id, rest := item.id, items[1..];
    assert items == [items[0]] + rest;
    assert WithoutId(items, id) == (if items[0].id == id then [] else [items[0]]) + WithoutId(rest, id);
    if items[0].id == id {
      WithoutIdOfAbsent(rest, id);
      assert item !in rest;
    } else {
      assert item in rest;
      WithoutIdRemovesOnce(rest, item);
    }
  }

  lemma {:induction false} WithoutIdOfAbsent(items: seq<Item>, id: string)
    requires CountId(items, id) == 0
    ensures WithoutId(items, id) == items
    ensures forall x | x in items :: x.id != id
  {
    if items != [] {
      WithoutIdOfAbsent(items[1..], id);
      assert items == [items[0]] + items[1..];
    }
  }

  // ---------------------------------------------------------------------------
  // Counting items over the aggregate
  // ---------------------------------------------------------------------------

  /** The items of all tiers, tier by tier. */
  function Flatten(tiers: seq<Tier>): seq<Item>
  {
    if tiers == [] then [] else tiers[0].items + Flatten(tiers[1..])
  }

  /** Every item of the aggregate: staging first, then the tiers in order. */
  function AllItems(r: TierListRecord): seq<Item>
  {
    r.staging + Flatten(r.tiers)
  }

  lemma {:induction false} FlattenAppend(a: seq<Tier>, b: seq<Tier>)
    ensures Flatten(a + b) == Flatten(a) + Flatten(b)
  {
    if a == [] {
      assert a + b == b;
    } else {
      assert (a + b)[1..] == a[1..] + b;
      FlattenAppend(a[1..], b);
    }
  }

  lemma FlattenSplit(tiers: seq<Tier>, i: nat)
    requires i < |tiers|
    ensures Flatten(tiers) == Flatten(tiers[..i]) + tiers[i].items + Flatten(tiers[i + 1..])
  {
    var rest := tiers[i..];
    assert tiers == tiers[..i] + rest;
    FlattenAppend(tiers[..i], rest);
    assert rest[0] == tiers[i] && rest[1..] == tiers[i + 1..];
  }

  /** The items of every tier but tier `i`. */
  function ItemsAround(tiers: seq<Tier>, i: nat): multiset<Item>
    requires i < |tiers|
  {
    multiset(Flatten(tiers[..i])) + multiset(Flatten(tiers[i + 1..]))
  }

  /** Replacing tier `i` changes the items of the aggregate by exactly that tier's items. */
  lemma FlattenUpdate(tiers: seq<Tier>, i: nat, t: Tier)
    requires i < |tiers|
    ensures multiset(Flatten(tiers)) == ItemsAround(tiers, i) + multiset(tiers[i].items)
    ensures multiset(Flatten(tiers[i := t])) == ItemsAround(tiers, i) + multiset(t.items)
  {
    var u := tiers[i := t];
    FlattenSplit(tiers, i);
    FlattenSplit(u, i);
    assert u[..i] == tiers[..i];
    assert u[i + 1..] == tiers[i + 1..];
  }

  /** Replacing the items of tier `i` changes the items of all tiers by the same
      difference: what the new items gain (`added`) and lose (`gone`). */
  lemma ReplaceItemsMultiset(tiers: seq<Tier>, i: nat, items': seq<Item>, gone: multiset<Item>, added: multiset<Item>)
    requires i < |tiers|
    requires multiset(items') + gone == multiset(tiers[i].items) + added
    ensures multiset(Flatten(tiers[i := tiers[i].(items := items')])) + gone == multiset(Flatten(tiers)) + added
  {
    FlattenUpdate(tiers, i, tiers[i].(items := items'));
    var around := ItemsAround(tiers, i);
    calc {
      multiset(Flatten(tiers[i := tiers[i].(items := items')])) + gone;
      around + multiset(items') + gone;
      around + (multiset(items') + gone);
      around + (multiset(tiers[i].items) + added);
      around + multiset(tiers[i].items) + added;
      multiset(Flatten(tiers)) + added;
    }
  }

  // ---------------------------------------------------------------------------
  // Tier operations
  // ---------------------------------------------------------------------------

  /** `addEntry`: one new tier with default label and colours and no items, at the end. */
  function AppendTier(r: TierListRecord, id: string): (r': TierListRecord)
    ensures r'.staging == r.staging
    ensures |r'.tiers| == |r.tiers| + 1 && r'.tiers[..|r.tiers|] == r.tiers
    ensures r'.tiers[|r.tiers|] == Tier(id, "New Tier", "bg-gray-700", "#ffffff", [])
  {
    TierListRecord(r.staging, r.tiers + [Tier(id, "New Tier", "bg-gray-700", "#ffffff", [])])
  }

  /** The argument of `editEntry`: any subset of a tier's properties. `id` and
      `items` may be present at run time; `editEntry` strips them. */
  datatype EntryPatch = EntryPatch(
    id: Option<string>, name: Option<string>, bgColor: Option<string>,
    textColor: Option<string>, items: Option<seq<Item>>)

  /** `{ ...tier, ..._entry }` with `id` and `items` removed from the patch. */
  function EditTier(t: Tier, p: EntryPatch): (r: Tier)
    ensures r.id == t.id && r.items == t.items
    ensures r.name == (if p.name.Some? then p.name.value else t.name)
    ensures r.bgColor == (if p.bgColor.Some? then p.bgColor.value else t.bgColor)
    ensures r.textColor == (if p.textColor.Some? then p.textColor.value else t.textColor)
  {
    Tier(t.id, p.name.GetOr(t.name), p.bgColor.GetOr(t.bgColor), p.textColor.GetOr(t.textColor), t.items)
  }

  /** `editEntry`: only tier `index` changes, and only in the properties the patch supplies. */
  function EditTierAt(r: TierListRecord, index: nat, p: EntryPatch): (r': TierListRecord)
    requires index < |r.tiers|
    ensures r'.staging == r.staging && |r'.tiers| == |r.tiers|
    ensures r'.tiers[index] == EditTier(r.tiers[index], p)
    ensures forall j | 0 <= j < |r.tiers| && j != index :: r'.tiers[j] == r.tiers[j]
  {
    TierListRecord(r.staging, r.tiers[index := EditTier(r.tiers[index], p)])
  }

  /** The slice expression of `moveEntry`: the element at `from` is taken out and
      lands at `to`; the elements between shift by one place. */
  function Reorder<T>(s: seq<T>, from: nat, to: nat): (r: seq<T>)
    requires from < |s| && to < |s|
    ensures r == InsertAt(RemoveAt(s, from), to, s[from])
    ensures multiset(r) == multiset(s)
  {
    RemoveInsertPermutes(s, from, to);
    var r :=
      if from < to then s[..from] + s[from + 1..to + 1] + [s[from]] + s[to + 1..]
      else s[..to] + [s[from]] + s[to..from] + s[from + 1..];
    assert |r| == |s|;
    assert forall j | 0 <= j < |s| :: r[j] == InsertAt(RemoveAt(s, from), to, s[from])[j];
    r
  }

  /** Moving an element back undoes the move. */
  lemma ReorderUndo<T>(s: seq<T>, from: nat, to: nat)
    requires from < |s| && to < |s|
    ensures Reorder(Reorder(s, from, to), to, from) == s
  {
    var u := RemoveAt(s, from);
    var r := Reorder(s, from, to);
    assert r == InsertAt(u, to, s[from]);
    RemoveInsert(u, to, s[from]);
    InsertRemove(s, from);
  }

  /** `this.#tiers.entries.length` is the arity of `Array.prototype.entries`, which is 0. */
  const EntriesArity: nat := 0

  /** `moveEntry` with `bound` as the upper limit of both indices: a no-op unless
      the indices differ and both lie in `[0, bound)`. */
  function MoveTierWithin(r: TierListRecord, from: int, to: int, bound: nat): (r': TierListRecord)
    requires bound <= |r.tiers|
    ensures r'.staging == r.staging
    ensures multiset(r'.tiers) == multiset(r.tiers)
  {
    if from == to || from < 0 || to < 0 || from >= bound || to >= bound then r
    else TierListRecord(r.staging, Reorder(r.tiers, from, to))
  }

  /** `moveEntry` as src/lib/data/tier-list.svelte.ts writes it, bounded by `entries.length`. */
  function MoveTierAsWritten(r: TierListRecord, from: int, to: int): (r': TierListRecord)
    ensures r'.staging == r.staging
  {
    MoveTierWithin(r, from, to, EntriesArity)
  }

  /** As written, `moveEntry` never changes anything, whatever the indices. */
  lemma MoveTierAsWrittenIsNoOp(r: TierListRecord, from: int, to: int)
    ensures MoveTierAsWritten(r, from, to) == r
  {
  }

  /** ... so even an in-range move the reorder would perform is dropped. */
  lemma MoveTierAsWrittenDropsMove(r: TierListRecord)
    requires |r.tiers| == 2 && r.tiers[0] != r.tiers[1]
    ensures MoveTier(r, 0, 1) != r
    ensures MoveTierAsWritten(r, 0, 1) == r
  {
    assert MoveTier(r, 0, 1).tiers[1] == r.tiers[0];
  }

  /** `moveEntry` bounded by the number of tiers, as intended. */
  function MoveTier(r: TierListRecord, from: int, to: int): (r': TierListRecord)
    ensures r'.staging == r.staging && |r'.tiers| == |r.tiers|
    ensures multiset(r'.tiers) == multiset(r.tiers)
    ensures 0 <= from < |r.tiers| && 0 <= to < |r.tiers| ==> r'.tiers[to] == r.tiers[from]
  {
    MoveTierWithin(r, from, to, |r.tiers|)
  }

  /** A move whose indices are equal or out of `[0, |tiers|)` changes nothing. */
  lemma MoveTierNoOp(r: TierListRecord, from: int, to: int)
    requires from == to || from < 0 || to < 0 || from >= |r.tiers| || to >= |r.tiers|
    ensures MoveTier(r, from, to) == r
  {
  }

  /** An in-range move is "remove at `from`, then insert at `to`". */
  lemma MoveTierIsRemoveThenInsert(r: TierListRecord, from: nat, to: nat)
    requires from < |r.tiers| && to < |r.tiers|
    ensures MoveTier(r, from, to).tiers == InsertAt(RemoveAt(r.tiers, from), to, r.tiers[from])
  {
    if from == to {
      InsertRemove(r.tiers, from);
    }
  }

  /** Moving a tier and moving it back restores the original order exactly. */
  lemma MoveTierUndo(r: TierListRecord, from: nat, to: nat)
    requires from < |r.tiers| && to < |r.tiers|
    ensures MoveTier(MoveTier(r, from, to), to, from) == r
  {
    if from != to {
      ReorderUndo(r.tiers, from, to);
    }
  }

  /** With tiers `[S, A, B, C, D]`, moving 0 to 2 gives `[A, B, S, C, D]`. */
  lemma MoveTierExample(staging: seq<Item>, s: Tier, a: Tier, b: Tier, c: Tier, d: Tier)
    ensures MoveTier(TierListRecord(staging, [s, a, b, c, d]), 0, 2).tiers == [a, b, s, c, d]
  {
    var t := [s, a, b, c, d];
    assert t[..0] + t[1..3] + [t[0]] + t[3..] == [a, b, s, c, d];
  }

  /** `deleteEntry`: the tier's items go, in order, to the end of staging, and the tier is removed. */
  function DeleteTier(r: TierListRecord, index: nat): (r': TierListRecord)
    requires index < |r.tiers|
    ensures r'.staging == r.staging + r.tiers[index].items
    ensures r'.tiers == RemoveAt(r.tiers, index)
  {
    TierListRecord(r.staging + r.tiers[index].items, r.tiers[..index] + r.tiers[index + 1..])
  }

  /** Deleting a tier loses no item: the items of the aggregate are the same, and so is their number. */
  lemma DeleteTierKeepsItems(r: TierListRecord, index: nat)
    requires index < |r.tiers|
    ensures multiset(AllItems(DeleteTier(r, index))) == multiset(AllItems(r))
    ensures |AllItems(DeleteTier(r, index))| == |AllItems(r)|
  {
    var ts := r.tiers;
    FlattenSplit(ts, index);
    FlattenAppend(ts[..index], ts[index + 1..]);
    assert RemoveAt(ts, index) == ts[..index] + ts[index + 1..];
  }

  // ---------------------------------------------------------------------------
  // Item operations
  // ---------------------------------------------------------------------------

  /** The `{ id = nanoid(), label = 'New item', image }` parameter of `addItem`
      and `addStagingItem`: any subset of an item's properties. */
  datatype PartialItem = PartialItem(id: Option<string>, name: Option<string>, image: Option<string>)

  /** The item built from a partial item; `generatedId` stands for the `nanoid()` default. */
  function ItemFrom(p: PartialItem, generatedId: string): (it: Item)
    ensures p.id.Some? ==> it.id == p.id.value
    ensures p.id.None? ==> it.id == generatedId
    ensures p.name.Some? ==> it.name == p.name.value
    ensures p.name.None? ==> it.name == "New item"
    ensures it.image == p.image
  {
    Item(p.id.GetOr(generatedId), p.name.GetOr("New item"), p.image)
  }

  /** `addStagingItem`: the new item at the end of staging; the tiers are untouched. */
  function AddToStaging(r: TierListRecord, p: PartialItem, generatedId: string): (r': TierListRecord)
    ensures r'.tiers == r.tiers
    ensures r'.staging == r.staging + [ItemFrom(p, generatedId)]
  {
    TierListRecord(r.staging + [ItemFrom(p, generatedId)], r.tiers)
  }

  /** `addItem`: the new item at the end of the first tier with id `tierId`;
      nothing changes when there is no such tier. */
  function AddToTier(r: TierListRecord, tierId: string, p: PartialItem, generatedId: string): (r': TierListRecord)
    ensures r'.staging == r.staging && |r'.tiers| == |r.tiers|
    ensures FindTier(r.tiers, tierId).None? ==> r' == r
    ensures FindTier(r.tiers, tierId).Some? ==>
      var k := FindTier(r.tiers, tierId).value;
      && r'.tiers[k] == r.tiers[k].(items := r.tiers[k].items + [ItemFrom(p, generatedId)])
      && forall j | 0 <= j < |r.tiers| && j != k :: r'.tiers[j] == r.tiers[j]
  {
    match FindTier(r.tiers, tierId)
    case None => r
    case Some(k) =>
      var t := r.tiers[k];
      TierListRecord(r.staging, r.tiers[k := t.(items := t.items + [ItemFrom(p, generatedId)])])
  }

  /** Adding an item to a tier adds exactly that item to the aggregate. */
  lemma AddToTierAddsOne(r: TierListRecord, tierId: string, p: PartialItem, generatedId: string)
    requires FindTier(r.tiers, tierId).Some?
    ensures multiset(AllItems(AddToTier(r, tierId, p, generatedId))) == multiset(AllItems(r)) + multiset{ItemFrom(p, generatedId)}
  {
    var k := FindTier(r.tiers, tierId).value;
    var t := r.tiers[k];
    var x := ItemFrom(p, generatedId);
    var t' := t.(items := t.items + [x]);
    var r' := AddToTier(r, tierId, p, generatedId);
    assert r'.tiers == r.tiers[k := t'];
    FlattenUpdate(r.tiers, k, t');
    assert multiset(t'.items) == multiset(t.items) + multiset{x};
  }

  /** `removeItem`: `splice(itemIndex, 1)` on the items of tier `entryIndex`; staging and the other tiers are untouched. */
  function RemoveItemAt(r: TierListRecord, entryIndex: nat, itemIndex: int): (r': TierListRecord)
    requires entryIndex < |r.tiers|
    ensures r'.staging == r.staging && |r'.tiers| == |r.tiers|
    ensures r'.tiers[entryIndex] == r.tiers[entryIndex].(items := SpliceOne(r.tiers[entryIndex].items, itemIndex))
    ensures forall j | 0 <= j < |r.tiers| && j != entryIndex :: r'.tiers[j] == r.tiers[j]
  {
    var t := r.tiers[entryIndex];
    TierListRecord(r.staging, r.tiers[entryIndex := t.(items := SpliceOne(t.items, itemIndex))])
  }

  /** Removing the item at an in-range position takes exactly that item out of the aggregate. */
  lemma RemoveItemAtRemovesOne(r: TierListRecord, entryIndex: nat, itemIndex: nat)
    requires entryIndex < |r.tiers| && itemIndex < |r.tiers[entryIndex].items|
    ensures var removed := r.tiers[entryIndex].items[itemIndex];
      multiset(AllItems(RemoveItemAt(r, entryIndex, itemIndex))) + multiset{removed} == multiset(AllItems(r))
  {
    var t := r.tiers[entryIndex];
    var its := t.items;
    var x := its[itemIndex];
    var t' := t.(items := SpliceOne(its, itemIndex));
    var r' := RemoveItemAt(r, entryIndex, itemIndex);
    assert r'.tiers == r.tiers[entryIndex := t'];
    FlattenUpdate(r.tiers, entryIndex, t');
    SpliceOneIsRemoveAt(its, itemIndex);
    RemoveAtMultiset(its, itemIndex);
  }

  /** The two steps of `moveItem` on tiers at known positions `f` and `t`: the
      source drops every item with `item.id`, then the destination (the same
      tier when `f == t`) gets `item` at its tail. */
  function MovedBetween(tiers: seq<Tier>, item: Item, f: nat, t: nat): (ts: seq<Tier>)
    requires f < |tiers| && t < |tiers|
    ensures |ts| == |tiers|
    ensures f != t ==> ts[f] == tiers[f].(items := WithoutId(tiers[f].items, item.id))
    ensures ts[t] == tiers[t].(items := (if f == t then WithoutId(tiers[t].items, item.id) else tiers[t].items) + [item])
    ensures forall j | 0 <= j < |tiers| && j != f && j != t :: ts[j] == tiers[j]
  {
    var ts := tiers[f := tiers[f].(items := WithoutId(tiers[f].items, item.id))];
    ts[t := ts[t].(items := ts[t].items + [item])]
  }

  /** When tier `f` holds `item` as its only item with that id, the two steps keep the items of all tiers. */
  lemma MovedBetweenKeepsItems(tiers: seq<Tier>, item: Item, f: nat, t: nat)
    requires f < |tiers| && t < |tiers|
    requires item in tiers[f].items && CountId(tiers[f].items, item.id) == 1
    ensures multiset(Flatten(MovedBetween(tiers, item, f, t))) == multiset(Flatten(tiers))
  {
    var w := WithoutId(tiers[f].items, item.id);
    var ts := tiers[f := tiers[f].(items := w)];
    var dst := ts[t].items + [item];
    assert multiset(Flatten(ts)) + multiset{item} == multiset(Flatten(tiers)) by {
      WithoutIdRemovesOnce(tiers[f].items, item);
      ReplaceItemsMultiset(tiers, f, w, multiset{item}, multiset{});
    }
    assert multiset(Flatten(ts[t := ts[t].(items := dst)])) == multiset(Flatten(ts)) + multiset{item} by {
      assert multiset(dst) == multiset(ts[t].items) + multiset{item};
      ReplaceItemsMultiset(ts, t, dst, multiset{}, multiset{item});
    }
    assert MovedBetween(tiers, item, f, t) == ts[t := ts[t].(items := dst)];
  }

  /** `moveItem`: with both tiers found, every item with `item.id` leaves the
      source tier and `item` is appended to the destination (the same tier when
      the ids are equal); nothing changes when either tier is missing. */
  function MoveBetweenTiers(r: TierListRecord, item: Item, fromTierId: string, toTierId: string): (r': TierListRecord)
    ensures r'.staging == r.staging && |r'.tiers| == |r.tiers|
    ensures FindTier(r.tiers, fromTierId).None? || FindTier(r.tiers, toTierId).None? ==> r' == r
    ensures FindTier(r.tiers, fromTierId).Some? && FindTier(r.tiers, toTierId).Some? ==>
      r'.tiers == MovedBetween(r.tiers, item, FindTier(r.tiers, fromTierId).value, FindTier(r.tiers, toTierId).value)
    ensures forall j | 0 <= j < |r.tiers| :: r'.tiers[j].id == r.tiers[j].id
  {
    match (FindTier(r.tiers, fromTierId), FindTier(r.tiers, toTierId))
    case (Some(f), Some(t)) => TierListRecord(r.staging, MovedBetween(r.tiers, item, f, t))
    case _ => r
  }

  /** When the source tier holds `item` as its only item with that id, moving it
      between tiers keeps the items of the aggregate. */
  lemma MoveBetweenTiersKeepsItems(r: TierListRecord, item: Item, fromTierId: string, toTierId: string)
    requires FindTier(r.tiers, fromTierId).Some? && FindTier(r.tiers, toTierId).Some?
    requires var f := FindTier(r.tiers, fromTierId).value;
      item in r.tiers[f].items && CountId(r.tiers[f].items, item.id) == 1
    ensures multiset(AllItems(MoveBetweenTiers(r, item, fromTierId, toTierId))) == multiset(AllItems(r))
  {
    MovedBetweenKeepsItems(r.tiers, item, FindTier(r.tiers, fromTierId).value, FindTier(r.tiers, toTierId).value);
  }

  /** Moving an item from tier A to tier B and back leaves it at the tail of A,
      and no item with its id in B (its original position in A is not restored). */
  lemma MoveBetweenTiersRoundTrip(r: TierListRecord, item: Item, a: string, b: string)
    requires FindTier(r.tiers, a).Some? && FindTier(r.tiers, b).Some? && a != b
    ensures var back := MoveBetweenTiers(MoveBetweenTiers(r, item, a, b), item, b, a);
      var ia, ib := FindTier(r.tiers, a).value, FindTier(r.tiers, b).value;
      && |back.tiers| == |r.tiers|
      && back.tiers[ia].items != [] && back.tiers[ia].items[|back.tiers[ia].items| - 1] == item
      && forall x | x in back.tiers[ib].items :: x.id != item.id
  {
    var there := MoveBetweenTiers(r, item, a, b);
    FindTierSeesOnlyIds(r.tiers, there.tiers, a);
    FindTierSeesOnlyIds(r.tiers, there.tiers, b);
  }

  /** `moveFromStaging`: with the destination found, every item with `item.id`
      leaves staging and `item` is appended to the destination tier. */
  function MoveOutOfStaging(r: TierListRecord, item: Item, toTierId: string): (r': TierListRecord)
    ensures |r'.tiers| == |r.tiers|
    ensures FindTier(r.tiers, toTierId).None? ==> r' == r
    ensures FindTier(r.tiers, toTierId).Some? ==>
      var t := FindTier(r.tiers, toTierId).value;
      && r'.staging == WithoutId(r.staging, item.id)
      && r'.tiers[t] == r.tiers[t].(items := r.tiers[t].items + [item])
      && forall j | 0 <= j < |r.tiers| && j != t :: r'.tiers[j] == r.tiers[j]
  {
    match FindTier(r.tiers, toTierId)
    case None => r
    case Some(t) =>
      TierListRecord(WithoutId(r.staging, item.id), r.tiers[t := r.tiers[t].(items := r.tiers[t].items + [item])])
  }

  /** When staging holds `item` as its only item with that id, moving it into a tier keeps the items of the aggregate. */
  lemma MoveOutOfStagingKeepsItems(r: TierListRecord, item: Item, toTierId: string)
    requires FindTier(r.tiers, toTierId).Some?
    requires item in r.staging && CountId(r.staging, item.id) == 1
    ensures multiset(AllItems(MoveOutOfStaging(r, item, toTierId))) == multiset(AllItems(r))
  {
    var t := FindTier(r.tiers, toTierId).value;
    var dst := r.tiers[t].items + [item];
    var r' := MoveOutOfStaging(r, item, toTierId);
    assert multiset(r'.staging) + multiset{item} == multiset(r.staging) by {
      WithoutIdRemovesOnce(r.staging, item);
    }
    assert multiset(Flatten(r'.tiers)) == multiset(Flatten(r.tiers)) + multiset{item} by {
      assert r'.tiers == r.tiers[t := r.tiers[t].(items := dst)];
      assert multiset(dst) == multiset(r.tiers[t].items) + multiset{item};
      ReplaceItemsMultiset(r.tiers, t, dst, multiset{}, multiset{item});
    }
  }

  /** `moveToStaging`: with the source found, every item with `item.id` leaves
      that tier and `item` is appended to staging. */
  function MoveIntoStaging(r: TierListRecord, item: Item, fromTierId: string): (r': TierListRecord)
    ensures |r'.tiers| == |r.tiers|
    ensures FindTier(r.tiers, fromTierId).None? ==> r' == r
    ensures FindTier(r.tiers, fromTierId).Some? ==>
      var f := FindTier(r.tiers, fromTierId).value;
      && r'.staging == r.staging + [item]
      && r'.tiers[f] == r.tiers[f].(items := WithoutId(r.tiers[f].items, item.id))
      && forall j | 0 <= j < |r.tiers| && j != f :: r'.tiers[j] == r.tiers[j]
  {
    match FindTier(r.tiers, fromTierId)
    case None => r
    case Some(f) =>
      TierListRecord(r.staging + [item], r.tiers[f := r.tiers[f].(items := WithoutId(r.tiers[f].items, item.id))])
  }

  /** When the source tier holds `item` as its only item with that id, moving it to staging keeps the items of the aggregate. */
  lemma MoveIntoStagingKeepsItems(r: TierListRecord, item: Item, fromTierId: string)
    requires FindTier(r.tiers, fromTierId).Some?
    requires var f := FindTier(r.tiers, fromTierId).value;
      item in r.tiers[f].items && CountId(r.tiers[f].items, item.id) == 1
    ensures multiset(AllItems(MoveIntoStaging(r, item, fromTierId))) == multiset(AllItems(r))
  {
    var f := FindTier(r.tiers, fromTierId).value;
    var src' := WithoutId(r.tiers[f].items, item.id);
    var r' := MoveIntoStaging(r, item, fromTierId);
    assert multiset(Flatten(r'.tiers)) + multiset{item} == multiset(Flatten(r.tiers)) by {
      assert r'.tiers == r.tiers[f := r.tiers[f].(items := src')];
      WithoutIdRemovesOnce(r.tiers[f].items, item);
      ReplaceItemsMultiset(r.tiers, f, src', multiset{item}, multiset{});
    }
    assert multiset(r'.staging) == multiset(r.staging) + multiset{item};
  }

  // ---------------------------------------------------------------------------
  // Id invariants: tier ids and item ids are unique
  // ---------------------------------------------------------------------------

  /** No two tiers share an id, and no tier uses the id reserved for staging. */
  ghost predicate UniqueTierIds(r: TierListRecord)
  {
    && (forall i, j | 0 <= i < j < |r.tiers| :: r.tiers[i].id != r.tiers[j].id)
    && (forall i | 0 <= i < |r.tiers| :: r.tiers[i].id != Constants.StagingTierId)
  }

  /** No two items of the aggregate (staging and all tiers together) share an id. */
  ghost predicate UniqueItemIds(r: TierListRecord)
  {
    forall id :: CountId(AllItems(r), id) <= 1
  }

  ghost predicate UniqueIds(r: TierListRecord)
  {
    UniqueTierIds(r) && UniqueItemIds(r)
  }

  /** `id` is carried by no item of the aggregate. */
  ghost predicate FreshItemId(r: TierListRecord, id: string)
  {
    forall x | x in AllItems(r) :: x.id != id
  }

  lemma {:induction false} CountIdAppend(a: seq<Item>, b: seq<Item>, id: string)
    ensures CountId(a + b, id) == CountId(a, id) + CountId(b, id)
  {
    if a == [] {
      assert a + b == b;
    } else {
      assert (a + b)[1..] == a[1..] + b;
      CountIdAppend(a[1..], b, id);
    }
  }

  /** No item carries `id` exactly when the count is 0. */
  lemma {:induction false} CountIdAbsent(items: seq<Item>, id: string)
    ensures CountId(items, id) == 0 <==> forall x | x in items :: x.id != id
  {
    if items != [] {
      CountIdAbsent(items[1..], id);
      assert items == [items[0]] + items[1..];
    }
  }

  /** The count of an id depends only on the multiset of items, and grows with it. */
  lemma {:induction false} CountIdMonotone(a: seq<Item>, b: seq<Item>, id: string)
    requires multiset(a) <= multiset(b)
    ensures CountId(a, id) <= CountId(b, id)
    decreases |a|
  {
    if a != [] {
      var x := a[0];
      assert x in multiset(b);
      var k :| 0 <= k < |b| && b[k] == x;
      var rest := RemoveAt(b, k);
      assert multiset(a[1..]) <= multiset(rest) by {
        RemoveAtMultiset(b, k);
        assert a == [x] + a[1..];
        assert multiset(a) == multiset(a[1..]) + multiset{x};
        forall y ensures multiset(a[1..])[y] <= multiset(rest)[y] {
          assert multiset(a)[y] <= multiset(b)[y];
        }
      }
      CountIdMonotone(a[1..], rest, id);
      CountIdRemoveAt(b, k, id);
    }
  }

  lemma CountIdRemoveAt(b: seq<Item>, k: nat, id: string)
    requires k < |b|
    ensures CountId(b, id) == CountId(RemoveAt(b, k), id) + (if b[k].id == id then 1 else 0)
  {
    assert b == b[..k] + [b[k]] + b[k + 1..];
    CountIdAppend(b[..k], b[k + 1..], id);
    CountIdAppend(b[..k] + [b[k]], b[k + 1..], id);
    CountIdAppend(b[..k], [b[k]], id);
  }

  /** Unique item ids survive any operation that only takes items away (or permutes them). */
  lemma UniqueItemIdsOfFewer(r: TierListRecord, r': TierListRecord)
    requires UniqueItemIds(r)
    requires multiset(AllItems(r')) <= multiset(AllItems(r))
    ensures UniqueItemIds(r')
  {
    forall id
      ensures CountId(AllItems(r'), id) <= 1
    {
      CountIdMonotone(AllItems(r'), AllItems(r), id);
    }
  }

  /** Unique item ids survive adding one item whose id is fresh. */
  lemma UniqueItemIdsOfFreshAdd(r: TierListRecord, r': TierListRecord, x: Item)
    requires UniqueItemIds(r) && FreshItemId(r, x.id)
    requires multiset(AllItems(r')) == multiset(AllItems(r)) + multiset{x}
    ensures UniqueItemIds(r')
  {
    var grown := AllItems(r) + [x];
    CountIdAbsent(AllItems(r), x.id);
    forall id
      ensures CountId(AllItems(r'), id) <= 1
    {
      CountIdMonotone(AllItems(r'), grown, id);
      CountIdAppend(AllItems(r), [x], id);
      assert CountId([x], id) == (if x.id == id then 1 else 0);
    }
  }

  /** Under unique item ids, an item held by a part of the aggregate is the only one with its id there. */
  lemma CountIdInPart(part: seq<Item>, r: TierListRecord, item: Item)
    requires UniqueItemIds(r)
    requires item in part && multiset(part) <= multiset(AllItems(r))
    ensures CountId(part, item.id) == 1
  {
    CountIdMonotone(part, AllItems(r), item.id);
    CountIdAbsent(part, item.id);
  }

  /** The items of one tier are part of the aggregate. */
  lemma TierItemsInAll(r: TierListRecord, i: nat)
    requires i < |r.tiers|
    ensures multiset(r.tiers[i].items) <= multiset(AllItems(r))
  {
    FlattenUpdate(r.tiers, i, r.tiers[i]);
  }

  /** The items of a sequence of tiers with one more tier inserted. */
  lemma FlattenInsertAt(ts: seq<Tier>, j: nat, t: Tier)
    requires j <= |ts|
    ensures multiset(Flatten(InsertAt(ts, j, t))) == multiset(Flatten(ts)) + multiset(t.items)
  {
    RemoveInsert(ts, j, t);
    FlattenRemoveAt(InsertAt(ts, j, t), j);
  }

  /** The items of a sequence of tiers with tier `i` removed. */
  lemma FlattenRemoveAt(ts: seq<Tier>, i: nat)
    requires i < |ts|
    ensures multiset(Flatten(ts)) == multiset(Flatten(RemoveAt(ts, i))) + multiset(ts[i].items)
  {
    FlattenSplit(ts, i);
    FlattenAppend(ts[..i], ts[i + 1..]);
  }

  /** Reordering the tiers keeps the items of the aggregate. */
  lemma MoveTierKeepsItems(r: TierListRecord, from: int, to: int)
    ensures multiset(AllItems(MoveTier(r, from, to))) == multiset(AllItems(r))
  {
    if 0 <= from < |r.tiers| && 0 <= to < |r.tiers| {
      var u := RemoveAt(r.tiers, from);
      MoveTierIsRemoveThenInsert(r, from, to);
      FlattenRemoveAt(r.tiers, from);
      FlattenInsertAt(u, to, r.tiers[from]);
    } else {
      MoveTierNoOp(r, from, to);
    }
  }

  /** The default list has unique ids when the seed ids are distinct and none is the staging id. */
  lemma DefaultTierListHasUniqueIds(ids: seq<string>)
    requires |ids| == |Constants.BasicPalette2|
    requires forall i, j | 0 <= i < j < |ids| :: ids[i] != ids[j]
    requires forall i | 0 <= i < |ids| :: ids[i] != Constants.StagingTierId
    ensures UniqueIds(Constants.DefaultTierList(ids))
  {
    var r := Constants.DefaultTierList(ids);
    assert Flatten(r.tiers) == [] by {
      FlattenEmptyItems(r.tiers);
    }
    assert AllItems(r) == [];
  }

  lemma {:induction false} FlattenEmptyItems(tiers: seq<Tier>)
    requires forall i | 0 <= i < |tiers| :: tiers[i].items == []
    ensures Flatten(tiers) == []
  {
    if tiers != [] {
      FlattenEmptyItems(tiers[1..]);
    }
  }

  /** `addEntry` keeps the ids unique when the new tier id is fresh and not the staging id. */
  lemma AppendTierKeepsUniqueIds(r: TierListRecord, id: string)
    requires UniqueIds(r)
    requires forall i | 0 <= i < |r.tiers| :: r.tiers[i].id != id
    requires id != Constants.StagingTierId
    ensures UniqueIds(AppendTier(r, id))
  {
    var r' := AppendTier(r, id);
    var t := r'.tiers[|r.tiers|];
    assert r'.tiers == r.tiers + [t];
    FlattenAppend(r.tiers, [t]);
    assert Flatten([t]) == [];
    assert AllItems(r') == AllItems(r);
  }

  /** `editEntry` keeps the ids unique: it changes neither tier ids nor items. */
  lemma EditTierAtKeepsUniqueIds(r: TierListRecord, index: nat, p: EntryPatch)
    requires index < |r.tiers| && UniqueIds(r)
    ensures UniqueIds(EditTierAt(r, index, p))
  {
    var r' := EditTierAt(r, index, p);
    FlattenUpdate(r.tiers, index, r'.tiers[index]);
    assert r'.tiers == r.tiers[index := r'.tiers[index]];
    UniqueItemIdsOfFewer(r, r');
  }

  /** `moveEntry` keeps the ids unique: it only reorders the tiers. */
  lemma MoveTierKeepsUniqueIds(r: TierListRecord, from: int, to: int)
    requires UniqueIds(r)
    ensures UniqueIds(MoveTier(r, from, to))
  {
    MoveTierKeepsItems(r, from, to);
    UniqueItemIdsOfFewer(r, MoveTier(r, from, to));
    if 0 <= from < |r.tiers| && 0 <= to < |r.tiers| {
      RemoveAtKeepsUniqueTierIds(r, from);
      InsertAtKeepsUniqueTierIds(r.(tiers := RemoveAt(r.tiers, from)), to, r.tiers[from]);
      MoveTierIsRemoveThenInsert(r, from, to);
    } else {
      MoveTierNoOp(r, from, to);
    }
  }

  /** Removing a tier keeps tier ids unique, and the removed id is then free. */
  lemma RemoveAtKeepsUniqueTierIds(r: TierListRecord, i: nat)
    requires i < |r.tiers| && UniqueTierIds(r)
    ensures UniqueTierIds(r.(tiers := RemoveAt(r.tiers, i)))
    ensures forall j | 0 <= j < |r.tiers| - 1 :: RemoveAt(r.tiers, i)[j].id != r.tiers[i].id
  {
  }

  /** Inserting a tier whose id is new and not the staging id keeps tier ids unique. */
  lemma InsertAtKeepsUniqueTierIds(r: TierListRecord, j: nat, t: Tier)
    requires j <= |r.tiers| && UniqueTierIds(r)
    requires forall i | 0 <= i < |r.tiers| :: r.tiers[i].id != t.id
    requires t.id != Constants.StagingTierId
    ensures UniqueTierIds(r.(tiers := InsertAt(r.tiers, j, t)))
  {
  }

  /** `deleteEntry` keeps the ids unique: a tier goes and its items move to staging. */
  lemma DeleteTierKeepsUniqueIds(r: TierListRecord, index: nat)
    requires index < |r.tiers| && UniqueIds(r)
    ensures UniqueIds(DeleteTier(r, index))
  {
    DeleteTierKeepsItems(r, index);
    UniqueItemIdsOfFewer(r, DeleteTier(r, index));
  }

  /** `addStagingItem` adds exactly the new item to the aggregate. */
  lemma AddToStagingAddsOne(r: TierListRecord, p: PartialItem, generatedId: string)
    ensures multiset(AllItems(AddToStaging(r, p, generatedId))) == multiset(AllItems(r)) + multiset{ItemFrom(p, generatedId)}
  {
    var x := ItemFrom(p, generatedId);
    assert AllItems(AddToStaging(r, p, generatedId)) == r.staging + [x] + Flatten(r.tiers);
  }

  /** `addStagingItem` keeps the ids unique when the new item's id is fresh. */
  lemma AddToStagingKeepsUniqueIds(r: TierListRecord, p: PartialItem, generatedId: string)
    requires UniqueIds(r) && FreshItemId(r, ItemFrom(p, generatedId).id)
    ensures UniqueIds(AddToStaging(r, p, generatedId))
  {
    AddToStagingAddsOne(r, p, generatedId);
    UniqueItemIdsOfFreshAdd(r, AddToStaging(r, p, generatedId), ItemFrom(p, generatedId));
  }

  /** `addItem` keeps the ids unique when the new item's id is fresh. */
  lemma AddToTierKeepsUniqueIds(r: TierListRecord, tierId: string, p: PartialItem, generatedId: string)
    requires UniqueIds(r) && FreshItemId(r, ItemFrom(p, generatedId).id)
    ensures UniqueIds(AddToTier(r, tierId, p, generatedId))
  {
    if FindTier(r.tiers, tierId).Some? {
      AddToTierAddsOne(r, tierId, p, generatedId);
      UniqueItemIdsOfFreshAdd(r, AddToTier(r, tierId, p, generatedId), ItemFrom(p, generatedId));
    }
  }

  /** `removeItem` keeps the ids unique, whatever the item index. */
  lemma RemoveItemAtKeepsUniqueIds(r: TierListRecord, entryIndex: nat, itemIndex: int)
    requires entryIndex < |r.tiers| && UniqueIds(r)
    ensures UniqueIds(RemoveItemAt(r, entryIndex, itemIndex))
  {
    RemoveItemAtTakesOnly(r, entryIndex, itemIndex);
    UniqueItemIdsOfFewer(r, RemoveItemAt(r, entryIndex, itemIndex));
  }

  /** `removeItem` never adds an item, whatever the item index. */
  lemma RemoveItemAtTakesOnly(r: TierListRecord, entryIndex: nat, itemIndex: int)
    requires entryIndex < |r.tiers|
    ensures multiset(AllItems(RemoveItemAt(r, entryIndex, itemIndex))) <= multiset(AllItems(r))
  {
    var its := r.tiers[entryIndex].items;
    var k := SpliceStart(|its|, itemIndex);
    if k < |its| {
      assert SpliceOne(its, itemIndex) == SpliceOne(its, k);
      RemoveItemAtRemovesOne(r, entryIndex, k);
    } else {
      assert r.tiers[entryIndex := r.tiers[entryIndex]] == r.tiers;
    }
  }

  /** `moveItem` keeps the ids unique when the source tier holds `item`. */
  lemma MoveBetweenTiersKeepsUniqueIds(r: TierListRecord, item: Item, fromTierId: string, toTierId: string)
    requires UniqueIds(r)
    requires FindTier(r.tiers, fromTierId).Some? ==> item in r.tiers[FindTier(r.tiers, fromTierId).value].items
    ensures UniqueIds(MoveBetweenTiers(r, item, fromTierId, toTierId))
  {
    if FindTier(r.tiers, fromTierId).Some? && FindTier(r.tiers, toTierId).Some? {
      var f := FindTier(r.tiers, fromTierId).value;
      TierItemsInAll(r, f);
      CountIdInPart(r.tiers[f].items, r, item);
      MoveBetweenTiersKeepsItems(r, item, fromTierId, toTierId);
      UniqueItemIdsOfFewer(r, MoveBetweenTiers(r, item, fromTierId, toTierId));
    }
  }

  /** `moveFromStaging` keeps the ids unique when staging holds `item`. */
  lemma MoveOutOfStagingKeepsUniqueIds(r: TierListRecord, item: Item, toTierId: string)
    requires UniqueIds(r) && item in r.staging
    ensures UniqueIds(MoveOutOfStaging(r, item, toTierId))
  {
    if FindTier(r.tiers, toTierId).Some? {
      CountIdInPart(r.staging, r, item);
      MoveOutOfStagingKeepsItems(r, item, toTierId);
      UniqueItemIdsOfFewer(r, MoveOutOfStaging(r, item, toTierId));
    }
  }

  /** `moveToStaging` keeps the ids unique when the source tier holds `item`. */
  lemma MoveIntoStagingKeepsUniqueIds(r: TierListRecord, item: Item, fromTierId: string)
    requires UniqueIds(r)
    requires FindTier(r.tiers, fromTierId).Some? ==> item in r.tiers[FindTier(r.tiers, fromTierId).value].items
    ensures UniqueIds(MoveIntoStaging(r, item, fromTierId))
  {
    if FindTier(r.tiers, fromTierId).Some? {
      var f := FindTier(r.tiers, fromTierId).value;
      TierItemsInAll(r, f);
      CountIdInPart(r.tiers[f].items, r, item);
      MoveIntoStagingKeepsItems(r, item, fromTierId);
      UniqueItemIdsOfFewer(r, MoveIntoStaging(r, item, fromTierId));
    }
  }

  // ---------------------------------------------------------------------------
  // Persistence: which fields `#save` hands to the store
  // ---------------------------------------------------------------------------

  /** The argument of `#save`. */
  datatype SaveWhat = All | StagingOnly | TiersOnly

  datatype Field = StagingField | TiersField

  /** The fields `#save(what)` puts into the update. */
  function SavedFields(what: SaveWhat): (fs: set<Field>)
    ensures StagingField in fs <==> what != TiersOnly
    ensures TiersField in fs <==> what != StagingOnly
  {
    match what
    case All => {StagingField, TiersField}
    case StagingOnly => {StagingField}
    case TiersOnly => {TiersField}
  }

  /** The stored record after `update(id, changes)` with the fields `what` selects from `current`. */
  function Persist(stored: TierListRecord, current: TierListRecord, what: SaveWhat): (r: TierListRecord)
    ensures r.staging == (if StagingField in SavedFields(what) then current.staging else stored.staging)
    ensures r.tiers == (if TiersField in SavedFields(what) then current.tiers else stored.tiers)
  {
    TierListRecord(
      if what != TiersOnly then current.staging else stored.staging,
      if what != StagingOnly then current.tiers else stored.tiers)
  }

  // ---------------------------------------------------------------------------
  // The controller
  // ---------------------------------------------------------------------------

  /** `TierListController`: the staging list and the tiers, updated in place.
      `saves` logs every `#save` call and `stored` is the record the store holds
      once those writes have been applied in order. */
  class Controller {
    var staging: seq<Item>
    var tiers: seq<Tier>
    ghost var saves: seq<SaveWhat>
    ghost var stored: TierListRecord

    /** The aggregate the controller currently holds. */
    ghost function Value(): TierListRecord
      reads this
    {
      TierListRecord(staging, tiers)
    }

    /** The store holds exactly the in-memory aggregate. */
    ghost predicate InSync()
      reads this
    {
      stored == Value()
    }

    /** Starts from the stored record if there is one; otherwise seeds the
        default list, which is also what gets stored. `seedIds` stand for the
        ids `nanoid()` gives the default tiers. */
    constructor (loaded: Option<TierListRecord>, seedIds: seq<string>)
      requires loaded.None? ==> |seedIds| == |Constants.BasicPalette2|
      ensures loaded.Some? ==> Value() == loaded.value
      ensures loaded.None? ==> Value() == Constants.DefaultTierList(seedIds)
      ensures saves == [] && InSync()
    {
      var start := if loaded.Some? then loaded.value else Constants.DefaultTierList(seedIds);
      staging := start.staging;
      tiers := start.tiers;
      saves := [];
      stored := start;
    }

    /** `#save(what)`: hands the selected fields to the store. */
    method Save(what: SaveWhat)
      modifies this
      ensures staging == old(staging) && tiers == old(tiers)
      ensures saves == old(saves) + [what]
      ensures stored == Persist(old(stored), Value(), what)
    {
      saves := saves + [what];
      var changes := stored;
      if what == All || what == StagingOnly {
        changes := changes.(staging := staging);
      }
      if what == All || what == TiersOnly {
        changes := changes.(tiers := tiers);
      }
      stored := changes;
    }

    method AddEntry(id: string)
      modifies this
      ensures Value() == AppendTier(old(Value()), id)
      ensures saves == old(saves) + [TiersOnly]
      ensures stored == Persist(old(stored), Value(), TiersOnly)
      ensures old(InSync()) ==> InSync()
    {
      tiers := tiers + [Tier(id, "New Tier", "bg-gray-700", "#ffffff", [])];
      Save(TiersOnly);
    }

    method EditEntry(index: nat, entry: EntryPatch)
      requires index < |tiers|
      modifies this
      ensures Value() == EditTierAt(old(Value()), index, entry)
      ensures saves == old(saves) + [TiersOnly]
      ensures stored == Persist(old(stored), Value(), TiersOnly)
      ensures old(InSync()) ==> InSync()
    {
      tiers := tiers[index := EditTier(tiers[index], entry)];
      Save(TiersOnly);
    }

    /** `moveEntry`, with the upper bound taken as the number of tiers (see `MoveTierAsWritten` for the bound as written). */
    method MoveEntry(from: int, to: int)
      modifies this
      ensures Value() == MoveTier(old(Value()), from, to)
      ensures (from == to || from < 0 || to < 0 || from >= |old(tiers)| || to >= |old(tiers)|) ==>
        saves == old(saves) && stored == old(stored)
      ensures !(from == to || from < 0 || to < 0 || from >= |old(tiers)| || to >= |old(tiers)|) ==>
        saves == old(saves) + [TiersOnly] && stored == Persist(old(stored), Value(), TiersOnly)
      ensures old(InSync()) ==> InSync()
    {
      if from == to || from < 0 || to < 0 || from >= |tiers| || to >= |tiers| {
        return;
      }
      var entry := tiers[from];
      if from < to {
        tiers := tiers[..from] + tiers[from + 1..to + 1] + [entry] + tiers[to + 1..];
      } else {
        tiers := tiers[..to] + [entry] + tiers[to..from] + tiers[from + 1..];
      }
      Save(TiersOnly);
    }

    method DeleteEntry(index: nat)
      requires index < |tiers|
      modifies this
      ensures Value() == DeleteTier(old(Value()), index)
      ensures saves == old(saves) + [All]
      ensures InSync()
    {
      staging := staging + tiers[index].items;
      tiers := SpliceOne(tiers, index);
      Save(All);
    }

    /** `addStagingItem`: never saves, so the stored staging falls behind. */
    method AddStagingItem(p: PartialItem, generatedId: string)
      modifies this
      ensures Value() == AddToStaging(old(Value()), p, generatedId)
      ensures saves == old(saves) && stored == old(stored)
      ensures old(InSync()) ==> !InSync()
    {
      staging := staging + [ItemFrom(p, generatedId)];
    }

    method AddItem(tierId: string, p: PartialItem, generatedId: string)
      modifies this
      ensures Value() == AddToTier(old(Value()), tierId, p, generatedId)
      ensures FindTier(old(tiers), tierId).None? ==> saves == old(saves) && stored == old(stored)
      ensures FindTier(old(tiers), tierId).Some? ==>
        saves == old(saves) + [TiersOnly] && stored == Persist(old(stored), Value(), TiersOnly)
      ensures old(InSync()) ==> InSync()
    {
      var entryIndex := FindTier(tiers, tierId);
      if entryIndex.None? {
        return;
      }
      var k := entryIndex.value;
      tiers := tiers[k := tiers[k].(items := tiers[k].items + [ItemFrom(p, generatedId)])];
      Save(TiersOnly);
    }

    method RemoveItem(entryIndex: nat, itemIndex: int)
      requires entryIndex < |tiers|
      modifies this
      ensures Value() == RemoveItemAt(old(Value()), entryIndex, itemIndex)
      ensures saves == old(saves) + [TiersOnly]
      ensures stored == Persist(old(stored), Value(), TiersOnly)
      ensures old(InSync()) ==> InSync()
    {
      tiers := tiers[entryIndex := tiers[entryIndex].(items := SpliceOne(tiers[entryIndex].items, itemIndex))];
      Save(TiersOnly);
    }

    method MoveItem(item: Item, fromTierId: string, toTierId: string)
      modifies this
      ensures Value() == MoveBetweenTiers(old(Value()), item, fromTierId, toTierId)
      ensures FindTier(old(tiers), fromTierId).None? || FindTier(old(tiers), toTierId).None? ==>
        saves == old(saves) && stored == old(stored)
      ensures FindTier(old(tiers), fromTierId).Some? && FindTier(old(tiers), toTierId).Some? ==>
        saves == old(saves) + [TiersOnly] && stored == Persist(old(stored), Value(), TiersOnly)
      ensures old(InSync()) ==> InSync()
    {
      var fromTier := FindTier(tiers, fromTierId);
      var toTier := FindTier(tiers, toTierId);
      if fromTier.None? || toTier.None? {
        return;
      }
      var f, t := fromTier.value, toTier.value;
      tiers := tiers[f := tiers[f].(items := WithoutId(tiers[f].items, item.id))];
      tiers := tiers[t := tiers[t].(items := tiers[t].items + [item])];
      Save(TiersOnly);
    }

    method MoveFromStaging(item: Item, toTierId: string)
      modifies this
      ensures Value() == MoveOutOfStaging(old(Value()), item, toTierId)
      ensures FindTier(old(tiers), toTierId).None? ==> saves == old(saves) && stored == old(stored)
      ensures FindTier(old(tiers), toTierId).Some? ==> saves == old(saves) + [All]
      ensures FindTier(old(tiers), toTierId).Some? || old(InSync()) ==> InSync()
    {
      var toEntry := FindTier(tiers, toTierId);
      if toEntry.None? {
        return;
      }
      var t := toEntry.value;
      staging := WithoutId(staging, item.id);
      tiers := tiers[t := tiers[t].(items := tiers[t].items + [item])];
      Save(All);
    }

    method MoveToStaging(item: Item, fromTierId: string)
      modifies this
      ensures Value() == MoveIntoStaging(old(Value()), item, fromTierId)
      ensures FindTier(old(tiers), fromTierId).None? ==> saves == old(saves) && stored == old(stored)
      ensures FindTier(old(tiers), fromTierId).Some? ==> saves == old(saves) + [All]
      ensures FindTier(old(tiers), fromTierId).Some? || old(InSync()) ==> InSync()
    {
      var fromEntry := FindTier(tiers, fromTierId);
      if fromEntry.None? {
        return;
      }
      var f := fromEntry.value;
      tiers := tiers[f := tiers[f].(items := WithoutId(tiers[f].items, item.id))];
      staging := staging + [item];
      Save(All);
    }
  }
}
