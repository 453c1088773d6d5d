/** Value types shared by the tier-list controllers (src/lib/data/types.ts). */
module Types {

  /** An optional value: `None` stands for an absent (or `undefined`) property. */
  datatype Option<T> = None | Some(value: T)
  {
    function GetOr(default: T): T
    {
      match this
      case Some(v) => v
      case None => default
    }
  }

  /** A rankable item; `image` is an optional URL or data URL. The source's `label`
      property is called `name` here, because `label` is a Dafny keyword. */
  datatype Item = Item(id: string, name: string, image: Option<string>)

  /** One rank of the list: a labelled, coloured, ordered bucket of items (`name` is the source's `label`). */
  datatype Tier = Tier(id: string, name: string, bgColor: string, textColor: string, items: seq<Item>)

  /** The persisted aggregate without its storage key: the staging pool and the ranked tiers. */
  datatype TierListRecord = TierListRecord(staging: seq<Item>, tiers: seq<Tier>)
}
