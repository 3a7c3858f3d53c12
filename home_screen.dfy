/** The home screen: which list it hands to the inventory view, and the letter in the
    profile avatar. */
module HomeScreen {
  import opened Base
  import opened Text
  import opened Seqs
  import opened Records

  function LowStockTest(minQty: Option<int>): Item -> bool {
    item => IsLowStock(item, minQty)
  }

  /** `data.filter(item => item.stock < minQty)`: the Low Stock tab. */
  function LowStockView(data: seq<Item>, minQty: Option<int>): (r: seq<Item>)
    ensures forall x :: x in r ==> x in data && minQty.Some? && x.stock < minQty.value
  {
    Filter(data, LowStockTest(minQty))
  }

  /** Every item below the minimum is listed, as often as it occurs in the catalog, and no
      other item is. */
  lemma LowStockViewContents(data: seq<Item>, minQty: Option<int>)
    ensures forall x :: x in LowStockView(data, minQty) <==> x in data && IsLowStock(x, minQty)
    ensures forall x :: multiset(LowStockView(data, minQty))[x] ==
              if IsLowStock(x, minQty) then multiset(data)[x] else 0
  {
    FilterMembership(data, LowStockTest(minQty));
    FilterMultiset(data, LowStockTest(minQty));
  }

  /** The Low Stock tab lists the catalog's low items in catalog order: its `k`-th row is
      the catalog's `k`-th low item, and every low position of the catalog is one of them. */
  lemma LowStockViewInCatalogOrder(data: seq<Item>, minQty: Option<int>)
    ensures |LowStockView(data, minQty)| == |Positions(data, LowStockTest(minQty))|
    ensures forall k :: 0 <= k < |LowStockView(data, minQty)| ==>
              LowStockView(data, minQty)[k] == data[Positions(data, LowStockTest(minQty))[k]]
    ensures forall k, l :: 0 <= k < l < |Positions(data, LowStockTest(minQty))| ==>
              Positions(data, LowStockTest(minQty))[k] < Positions(data, LowStockTest(minQty))[l]
    ensures forall i :: 0 <= i < |data| && IsLowStock(data[i], minQty) ==> i in Positions(data, LowStockTest(minQty))
  {
    FilterAtPositions(data, LowStockTest(minQty));
    PositionsIncreasing(data, LowStockTest(minQty));
    PositionsComplete(data, LowStockTest(minQty));
  }

  /** Filtering the Low Stock list again changes nothing. */
  lemma LowStockViewIdempotent(data: seq<Item>, minQty: Option<int>)
    ensures LowStockView(LowStockView(data, minQty), minQty) == LowStockView(data, minQty)
  {
    FilterIdempotent(data, LowStockTest(minQty));
  }

  /** A minimum that is not a number (`NaN`) makes the Low Stock tab empty. */
  lemma LowStockViewOfNaN(data: seq<Item>)
    ensures LowStockView(data, None) == []
  {
    LowStockViewContents(data, None);
    assert multiset(LowStockView(data, None)) == multiset{};
  }

  /** The inventory list each tab shows: the whole catalog, the low items, or none for the
      item form (`view === 2`) and any other value. */
  function TabItems(view: int, data: seq<Item>, minQty: Option<int>): (shown: Option<seq<Item>>)
    ensures view == 0 ==> shown == Some(data)
    ensures view == 1 ==> shown == Some(LowStockView(data, minQty))
    ensures view == 1 ==> forall x :: x in shown.value <==> x in data && IsLowStock(x, minQty)
    ensures view != 0 && view != 1 ==> shown.None?
  {
    LowStockViewContents(data, minQty);
    if view == 0 then Some(data)
    else if view == 1 then Some(LowStockView(data, minQty))
    else None
  }

  /** `user?.name?.charAt(0)?.toUpperCase() || '?'`: the first letter of the name in upper
      case, or `?` with no user or an empty name. */
  function AvatarLetter(user: Option<User>): (letter: string)
    ensures |letter| == 1
    ensures user.None? || user.value.name == [] ==> letter == "?"
    ensures user.Some? && user.value.name != [] && 'a' <= user.value.name[0] <= 'z' ==>
              letter == [(user.value.name[0] as int - 32) as char]
    ensures user.Some? && user.value.name != [] && !('a' <= user.value.name[0] <= 'z') ==>
              letter == [user.value.name[0]]
  {
    if user.Some? && user.value.name != [] then [UpperChar(user.value.name[0])] else "?"
  }

  /** A name that starts with a lower-case letter gets the matching capital, and one that
      starts with a capital keeps it. */
  lemma AvatarLetterOfLetter(user: User)
    requires user.name != [] && ('a' <= user.name[0] <= 'z' || 'A' <= user.name[0] <= 'Z')
    ensures 'A' <= AvatarLetter(Some(user))[0] <= 'Z'
    ensures LowerChar(AvatarLetter(Some(user))[0]) == LowerChar(user.name[0])
  {
  }

  /** A name that starts with anything but a lower-case ASCII letter, such as a digit or
      "आशा", shows its first character as it is. */
  lemma AvatarLetterOfOtherStart(user: User)
    requires user.name != [] && !('a' <= user.name[0] <= 'z')
    ensures AvatarLetter(Some(user)) == [user.name[0]]
  {
  }

  /** The Devanagari name "आशा" shows its first letter, "आ". */
  lemma AvatarLetterOfDevanagari(shop: string, address: string, phone: string)
    ensures AvatarLetter(Some(User("\U{0906}\U{0936}\U{093E}", shop, address, phone))) == "\U{0906}"
  {
    AvatarLetterOfOtherStart(User("\U{0906}\U{0936}\U{093E}", shop, address, phone));
  }
}
