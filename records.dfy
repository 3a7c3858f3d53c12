/** The records the app keeps in storage: the shop owner's profile, stock items and
    bills. JSON serialisation is the identity here: what is saved is what is read back. */
module Records {
  import opened Base

  /** A stock item. `category` and `price` may be missing (`None`), as in items saved by
      older versions of the app or with an empty price field; prices are whole rupees. */
  datatype Item = Item(id: string, name: string, stock: int, unit: string,
                       category: Option<string>, price: Option<int>)

  /** What a caller hands to `addItem`: an item whose `id` may be absent. */
  datatype ItemDraft = ItemDraft(id: Option<string>, name: string, stock: int, unit: string,
                                 category: Option<string>, price: Option<int>)

  /** What a caller hands to `updateItem`: the id to look for and the fields to overwrite. */
  datatype ItemPatch = ItemPatch(id: string, name: Field<string>, stock: Field<int>, unit: Field<string>,
                                 category: Field<Option<string>>, price: Field<Option<int>>)

  /** The shop owner's profile. */
  datatype User = User(name: string, shop: string, address: string, phone: string)

  /** The profile fields an edit overwrites. */
  datatype UserPatch = UserPatch(name: Field<string>, shop: Field<string>, address: Field<string>, phone: Field<string>)

  /** One line of a bill; `unitPrice` is the item's price as it was, possibly missing. */
  datatype BillLine = BillLine(name: string, quantity: int, unitPrice: Option<int>, total: int)

  datatype Bill = Bill(id: string, timestamp: string, items: seq<BillLine>, total: int)

  /** The sum of the line totals of a bill's lines. */
  function BillLinesTotal(lines: seq<BillLine>): int {
    if lines == [] then 0 else BillLinesTotal(lines[..|lines| - 1]) + lines[|lines| - 1].total
  }

  /** The price a missing price stands for in arithmetic (`null` multiplies as 0). */
  function PriceValue(price: Option<int>): int {
    price.GetOr(0)
  }

  /** No two items in the list share an id. */
  predicate UniqueIds(items: seq<Item>) {
    forall i, j :: 0 <= i < j < |items| ==> items[i].id != items[j].id
  }

  /** `item.stock < minQty`, where `minQty` is what `getMinQuantity` returned; a NaN
      minimum (`None`) compares false. */
  predicate IsLowStock(item: Item, minQty: Option<int>) {
    minQty.Some? && item.stock < minQty.value
  }

  predicate HasId(items: seq<Item>, id: string) {
    exists i :: 0 <= i < |items| && items[i].id == id
  }
}
