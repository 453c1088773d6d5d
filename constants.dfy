/** The seeding constants of the tier list (src/lib/data/constants.ts): two colour
    palettes, the reserved staging id and the default list built from a palette. */
module Constants {
  import opened Types

  /** A palette is a list of `[background, text]` colour pairs. */
  type Palette = seq<(string, string)>

  const BasicPalette1: Palette := [
    ("#F24722", "#FFFFFF"),
    ("#FEA629", "#000000"),
    ("#FFCD2A", "#000000"),
    ("#13AE5C", "#FFFFFF"),
    ("#0B99FF", "#FFFFFF"),
    ("#9847FF", "#FFFFFF"),
    ("#FB47FF", "#FFFFFF")
  ]

  const BasicPalette2: Palette := [
    ("#FF7F7F", "#000000"),
    ("#FFBF7F", "#000000"),
    ("#FFDF80", "#000000"),
    ("#FFFF7F", "#000000"),
    ("#BFFF7F", "#000000"),
    ("#7FFF7F", "#000000"),
    ("#7FD6FF", "#000000")
  ]

  /** The blank item with empty id and label. */
  const EmptyItem: Item := Item("", "", None)

  /** The id reserved for the staging pool. */
  const StagingTierId: string := "staging"

  /** The `{id, items}` shape the seed gives to staging. */
  datatype StagingTier = StagingTier(id: string, items: seq<Item>)

  const SeedStagingTier: StagingTier := StagingTier(StagingTierId, [])

  lemma PalettesHaveSevenPairs()
    ensures |BasicPalette1| == 7 && |BasicPalette2| == 7
  {
  }

  lemma SeedStagingTierIsEmpty()
    ensures SeedStagingTier.id == "staging" && SeedStagingTier.items == []
  {
  }

  /** The label of default tier `index`: `S` first, then `A`, `B`, ... from character code 65 on. */
  function DefaultLabel(index: nat): (r: string)
    requires index < |BasicPalette2|
    ensures |r| == 1
    ensures index == 0 ==> r == "S"
    ensures index > 0 ==> r[0] as int == 'A' as int + index - 1
  {
    if index == 0 then "S" else [(65 + index - 1) as char]
  }

  /** The default tiers: one per entry of `BasicPalette2`, with fresh ids supplied by the caller. */
  function DefaultTiers(ids: seq<string>): (r: seq<Tier>)
    requires |ids| == |BasicPalette2|
    ensures |r| == |BasicPalette2|
    ensures forall i | 0 <= i < |r| :: r[i].id == ids[i] && r[i].name == DefaultLabel(i)
    ensures forall i | 0 <= i < |r| :: r[i].bgColor == BasicPalette2[i].0 && r[i].textColor == BasicPalette2[i].1
    ensures forall i | 0 <= i < |r| :: r[i].items == []
  {
    seq(|BasicPalette2|, i requires 0 <= i < |BasicPalette2| =>
      Tier(ids[i], DefaultLabel(i), BasicPalette2[i].0, BasicPalette2[i].1, []))
  }

  function Labels(tiers: seq<Tier>): (r: seq<string>)
    ensures |r| == |tiers|
    ensures forall i | 0 <= i < |tiers| :: r[i] == tiers[i].name
  {
    if tiers == [] then [] else [tiers[0].name] + Labels(tiers[1..])
  }

  /** The seven default tiers are labelled S, A, B, C, D, E, F, in palette order. */
  lemma DefaultTierLabels(ids: seq<string>)
    requires |ids| == |BasicPalette2|
    ensures Labels(DefaultTiers(ids)) == ["S", "A", "B", "C", "D", "E", "F"]
  {
  }

  /** The default list the controller starts from when nothing is stored: the
      default tiers and an empty staging item list. */
  function DefaultTierList(ids: seq<string>): (r: TierListRecord)
    requires |ids| == |BasicPalette2|
    ensures r.staging == []
    ensures r.tiers == DefaultTiers(ids)
  {
    TierListRecord([], DefaultTiers(ids))
  }

  /** A staging value as it exists at run time: the item array the controller
      works on, or the frozen `{id, items}` object of the seed. */
  datatype StagingValue = ItemArray(items: seq<Item>) | FrozenObject(tier: StagingTier)

  /** `staging.push(...xs)`: an array grows by `xs`; the frozen object has no
      `push` method, so the call throws (`None`). */
  function PushAll(v: StagingValue, xs: seq<Item>): (r: Option<seq<Item>>)
    ensures r.Some? <==> v.ItemArray?
    ensures r.Some? ==> |r.value| == |v.items| + |xs| && r.value[..|v.items|] == v.items && r.value[|v.items|..] == xs
  {
    match v
    case ItemArray(items) => Some(items + xs)
    case FrozenObject(_) => None
  }

  /** The default list as constants.ts writes it: staging is the frozen `{id, items}` object. */
  function DefaultTierListAsWritten(ids: seq<string>): (r: (StagingValue, seq<Tier>))
    requires |ids| == |BasicPalette2|
    ensures r.0 == FrozenObject(SeedStagingTier)
    ensures r.1 == DefaultTiers(ids)
  {
    (FrozenObject(SeedStagingTier), DefaultTiers(ids))
  }

  /** With the seed as written, the first push onto staging throws, whatever is pushed. */
  lemma SeededStagingRejectsPush(ids: seq<string>, xs: seq<Item>)
    requires |ids| == |BasicPalette2|
    ensures PushAll(DefaultTierListAsWritten(ids).0, xs) == None
  {
  }

  /** With the seed the controller expects, pushing onto staging yields exactly the pushed items. */
  lemma DefaultStagingAcceptsPush(ids: seq<string>, xs: seq<Item>)
    requires |ids| == |BasicPalette2|
    ensures PushAll(ItemArray(DefaultTierList(ids).staging), xs) == Some(xs)
  {
  }
}
