/** The persistence layer (`src/lib/storage.js`): the profile, the three display
    settings and the item list, stored under fixed keys of the key-value store. */
module Storage {
  import opened Base
  import opened Numbers
  import opened Seqs
  import opened Records
  import opened KeyValue
  import Bills

  /** Theme 0 follows the system colour scheme. */
  const DefaultTheme := 0
  /** Font size 1 is medium. */
  const DefaultFontSize := 1
  const DefaultMinQuantity := 1

  // ---------------------------------------------------------------- settings

  /** A setting as the getters read it: `parseInt` of the stored text, or the default
      when the key is missing; `None` when the stored text is not a number (NaN). */
  function ReadSetting(stored: Option<string>, default: int): Option<int> {
    if stored.None? then Some(default) else ParseInt(stored.value)
  }

  /** A saved setting reads back as the value saved, whatever the default. */
  lemma ReadSettingOfSaved(value: int, default: int)
    ensures ReadSetting(Some(IntToString(value)), default) == Some(value)
  {
    ParseIntOfIntToString(value);
  }

  /** A setting never saved reads as its default, and only a stored text can read as NaN. */
  lemma ReadSettingOfMissing(stored: Option<string>, default: int)
    ensures stored.None? ==> ReadSetting(stored, default) == Some(default)
    ensures ReadSetting(stored, default).None? ==> stored.Some? && ParseInt(stored.value).None?
  {
  }

  function GetTheme(store: KeyValueStore): Option<int>
    reads store
  {
    ReadSetting(store.theme, DefaultTheme)
  }

  function GetFontSize(store: KeyValueStore): Option<int>
    reads store
  {
    ReadSetting(store.fontSize, DefaultFontSize)
  }

  function GetMinQuantity(store: KeyValueStore): Option<int>
    reads store
  {
    ReadSetting(store.minQuantity, DefaultMinQuantity)
  }

  /** On a fresh install every getter returns its default: theme 0, font size 1, minimum
      quantity 1, no profile, no items and no bills. */
  lemma GettersOfEmptyStore(store: KeyValueStore)
    requires store.Empty()
    ensures GetTheme(store) == Some(DefaultTheme) && GetFontSize(store) == Some(DefaultFontSize)
    ensures GetMinQuantity(store) == Some(DefaultMinQuantity)
    ensures GetItems(store) == [] && GetUserFromStorage(store).None? && Bills.GetBills(store) == []
  {
  }

  /** `saveTheme`: the value's text is stored, and `getTheme` then returns the value. */
  method SaveTheme(store: KeyValueStore, value: int)
    modifies store`theme
    ensures store.theme == Some(IntToString(value))
    ensures GetTheme(store) == Some(value)
  {
    store.theme := Some(IntToString(value));
    ReadSettingOfSaved(value, DefaultTheme);
  }

  method SaveFontSize(store: KeyValueStore, value: int)
    modifies store`fontSize
    ensures store.fontSize == Some(IntToString(value))
    ensures GetFontSize(store) == Some(value)
  {
    store.fontSize := Some(IntToString(value));
    ReadSettingOfSaved(value, DefaultFontSize);
  }

  method SaveMinQuantity(store: KeyValueStore, value: int)
    modifies store`minQuantity
    ensures store.minQuantity == Some(IntToString(value))
    ensures GetMinQuantity(store) == Some(value)
  {
    store.minQuantity := Some(IntToString(value));
    ReadSettingOfSaved(value, DefaultMinQuantity);
  }

  // ---------------------------------------------------------------- profile

  method SaveUserToStorage(store: KeyValueStore, user: User)
    modifies store`user
    ensures store.user == Some(user)
  {
    store.user := Some(user);
  }

  /** `getUserFromStorage`: the stored profile, or `None` (`null`) when there is none. */
  function GetUserFromStorage(store: KeyValueStore): Option<User>
    reads store
  {
    store.user
  }

  /** `{ ...existing, ...updates }` on a profile. */
  function MergeUser(existing: User, updates: UserPatch): User {
    User(updates.name.Over(existing.name), updates.shop.Over(existing.shop),
         updates.address.Over(existing.address), updates.phone.Over(existing.phone))
  }

  /** A field the edit leaves out keeps its stored value; a field it carries is replaced. */
  lemma MergeUserFields(existing: User, updates: UserPatch)
    ensures updates.name.Keep? ==> MergeUser(existing, updates).name == existing.name
    ensures updates.name.Put? ==> MergeUser(existing, updates).name == updates.name.value
    ensures updates.shop.Keep? ==> MergeUser(existing, updates).shop == existing.shop
    ensures updates.shop.Put? ==> MergeUser(existing, updates).shop == updates.shop.value
    ensures updates.address.Keep? ==> MergeUser(existing, updates).address == existing.address
    ensures updates.address.Put? ==> MergeUser(existing, updates).address == updates.address.value
    ensures updates.phone.Keep? ==> MergeUser(existing, updates).phone == existing.phone
    ensures updates.phone.Put? ==> MergeUser(existing, updates).phone == updates.phone.value
  {
  }

  /** Applying the same edit twice is the same as applying it once. */
  lemma MergeUserIdempotent(existing: User, updates: UserPatch)
    ensures MergeUser(MergeUser(existing, updates), updates) == MergeUser(existing, updates)
  {
  }

  /** `editUserInStorage`: without a stored profile nothing is written and the result is
      `None` (the source's `false`); otherwise the merged profile is stored and returned. */
  method EditUserInStorage(store: KeyValueStore, updates: UserPatch) returns (r: Option<User>)
    modifies store`user
    ensures old(store.user).None? ==> r.None? && store.user.None?
    ensures old(store.user).Some? ==> r == Some(MergeUser(old(store.user).value, updates)) && store.user == r
  {
    if store.user.None? {
      return None;
    }
    var updated := MergeUser(store.user.value, updates);
    store.user := Some(updated);
    r := Some(updated);
  }

  /** `deleteUserFromStorage`: the profile, the settings, the items and the bills are
      all removed, leaving the store as a fresh install has it. */
  method DeleteUserFromStorage(store: KeyValueStore)
    modifies store
    ensures store.Empty()
    ensures GetUserFromStorage(store).None? && GetItems(store) == [] && Bills.GetBills(store) == []
    ensures GetTheme(store) == Some(DefaultTheme) && GetFontSize(store) == Some(DefaultFontSize)
    ensures GetMinQuantity(store) == Some(DefaultMinQuantity)
  {
    store.user, store.theme, store.fontSize, store.minQuantity, store.items := None, None, None, None, None;
    Bills.ClearAllBills(store);
  }

  // ---------------------------------------------------------------- items

  /** `getItems`: the stored list, or the empty list when nothing is stored. */
  function GetItems(store: KeyValueStore): seq<Item>
    reads store
  {
    store.items.GetOr([])
  }

  method SaveItems(store: KeyValueStore, items: seq<Item>)
    modifies store`items
    ensures store.items == Some(items)
    ensures GetItems(store) == items
  {
    store.items := Some(items);
  }

  /** `{ id: freshId, ...draft }`: the caller's own id, when it has one, wins over the
      generated one. */
  function NewItem(draft: ItemDraft, freshId: string): (r: Item)
    ensures draft.id.Some? ==> r.id == draft.id.value
    ensures draft.id.None? ==> r.id == freshId
    ensures r.name == draft.name && r.stock == draft.stock && r.unit == draft.unit
    ensures r.category == draft.category && r.price == draft.price
  {
    Item(draft.id.GetOr(freshId), draft.name, draft.stock, draft.unit, draft.category, draft.price)
  }

  /** `addItem`: the new item is appended after the stored ones and returned. The random
      id is a parameter. */
  method AddItem(store: KeyValueStore, draft: ItemDraft, freshId: string) returns (r: Item)
    modifies store`items
    ensures r == NewItem(draft, freshId)
    ensures store.items == Some(old(GetItems(store)) + [r])
  {
    var items := GetItems(store);
    r := NewItem(draft, freshId);
    SaveItems(store, items + [r]);
  }

  /** `{ ...item, ...patch }` on an item. */
  function Merge(item: Item, patch: ItemPatch): Item {
    Item(patch.id, patch.name.Over(item.name), patch.stock.Over(item.stock), patch.unit.Over(item.unit),
         patch.category.Over(item.category), patch.price.Over(item.price))
  }

  /** The list `updateItem` saves: every item with the patch's id is merged with the
      patch, every other item is left as it is. */
  function UpdateItems(items: seq<Item>, patch: ItemPatch): seq<Item> {
    seq(|items|, i requires 0 <= i < |items| => if items[i].id == patch.id then Merge(items[i], patch) else items[i])
  }

  /** The update keeps the list's length, every id in its place, and every other item. */
  lemma UpdateItemsShape(items: seq<Item>, patch: ItemPatch)
    ensures |UpdateItems(items, patch)| == |items|
    ensures forall i :: 0 <= i < |items| ==> UpdateItems(items, patch)[i].id == items[i].id
    ensures forall i :: 0 <= i < |items| && items[i].id != patch.id ==> UpdateItems(items, patch)[i] == items[i]
    ensures forall i :: 0 <= i < |items| && items[i].id == patch.id ==> UpdateItems(items, patch)[i] == Merge(items[i], patch)
  {
  }

  /** Updating an id that is not in the list saves the list unchanged. */
  lemma UpdateItemsOfAbsent(items: seq<Item>, patch: ItemPatch)
    requires !HasId(items, patch.id)
    ensures UpdateItems(items, patch) == items
  {
  }

  /** Saving the same update twice is the same as saving it once. */
  lemma UpdateItemsIdempotent(items: seq<Item>, patch: ItemPatch)
    ensures UpdateItems(UpdateItems(items, patch), patch) == UpdateItems(items, patch)
  {
    var once := UpdateItems(items, patch);
    assert forall i :: 0 <= i < |items| ==> once[i].id == items[i].id;
  }

  /** Updates keep ids unique. */
  lemma UpdateItemsKeepsUniqueIds(items: seq<Item>, patch: ItemPatch)
    requires UniqueIds(items)
    ensures UniqueIds(UpdateItems(items, patch))
  {
    UpdateItemsShape(items, patch);
  }

  method UpdateItem(store: KeyValueStore, patch: ItemPatch)
    modifies store`items
    ensures store.items == Some(UpdateItems(old(GetItems(store)), patch))
  {
    var items := GetItems(store);
    SaveItems(store, UpdateItems(items, patch));
  }

  /** The list `deleteItem` saves: `items.filter(item => item.id !== id)`. */
  function RemoveById(items: seq<Item>, id: string): seq<Item> {
    Filter(items, (item: Item) => item.id != id)
  }

  /** Deleting drops exactly the items with that id and keeps every other one, as often
      as it occurred. */
  lemma RemoveByIdContents(items: seq<Item>, id: string)
    ensures !HasId(RemoveById(items, id), id)
    ensures forall x :: multiset(RemoveById(items, id))[x] == if x.id == id then 0 else multiset(items)[x]
  {
    var p := (item: Item) => item.id != id;
    FilterMultiset(items, p);
    var r := RemoveById(items, id);
    forall i | 0 <= i < |r| ensures r[i].id != id {
      assert r[i] in r;
    }
  }

  /** Deleting an id that no item has saves the list unchanged. */
  lemma RemoveByIdOfAbsent(items: seq<Item>, id: string)
    requires !HasId(items, id)
    ensures RemoveById(items, id) == items
  {
    var p := (item: Item) => item.id != id;
    forall x | x in items ensures p(x) {
      var i :| 0 <= i < |items| && items[i] == x;
    }
    FilterKeepsAll(items, p);
  }

  /** Deleting twice is deleting once. */
  lemma RemoveByIdIdempotent(items: seq<Item>, id: string)
    ensures RemoveById(RemoveById(items, id), id) == RemoveById(items, id)
  {
    FilterIdempotent(items, (item: Item) => item.id != id);
  }

  /** Deletes keep ids unique: the result is a selection of the list, in order. */
  lemma RemoveByIdKeepsUniqueIds(items: seq<Item>, id: string)
    requires UniqueIds(items)
    ensures UniqueIds(RemoveById(items, id))
  {
    var p := (item: Item) => item.id != id;
    FilterAtPositions(items, p);
    PositionsIncreasing(items, p);
  }

  /** Deleting the item just added, under an id no stored item has, restores the list. */
  lemma DeleteAfterAdd(items: seq<Item>, draft: ItemDraft, freshId: string)
    requires !HasId(items, NewItem(draft, freshId).id)
    ensures RemoveById(items + [NewItem(draft, freshId)], NewItem(draft, freshId).id) == items
  {
    var added := NewItem(draft, freshId);
    var p := (item: Item) => item.id != added.id;
    FilterAppend(items, [added], p);
    assert forall x :: x in items ==> p(x);
    FilterKeepsAll(items, p);
    assert [added][..0] == [];
  }

  /** Adding under an id no stored item has keeps ids unique. */
  lemma AddKeepsUniqueIds(items: seq<Item>, added: Item)
    requires UniqueIds(items) && !HasId(items, added.id)
    ensures UniqueIds(items + [added])
  {
  }

  method DeleteItem(store: KeyValueStore, id: string)
    modifies store`items
    ensures store.items == Some(RemoveById(old(GetItems(store)), id))
  {
    var items := GetItems(store);
    SaveItems(store, RemoveById(items, id));
  }
}
