/** The item form and stock list (`src/screens/CreateScreen.jsx`): validating the form,
    adding an item, editing one and saving the edit, deleting one after confirmation,
    and the low-stock highlight. */
module CreateScreen {
  import opened Base
  import opened Text
  import opened Numbers
  import opened Seqs
  import opened Records
  import opened KeyValue
  import Storage
  import HomeScreen

  const NameTooShort := "* Item name must be at least 2 characters long"
  const QuantityRequired := "* Quantity is required"
  const QuantityNotNumber := "* Quantity must be a number"
  const QuantityNotWhole := "* Quantity must be a whole number"
  const QuantityNotPositive := "* Quantity must be greater than 0"
  const UnitRequired := "* Unit is required"

  /** The category the dropdown starts on, and the one an item without a category edits as. */
  const DefaultCategory := "Grains"

  /** The text fields of the form and the dropdown's value. */
  datatype ItemForm = ItemForm(name: string, quantity: string, unit: string, price: string, category: string)

  const EmptyForm := ItemForm("", "", "", "", DefaultCategory)

  /** The quantity checks in their order: present, a number, whole, positive; only the
      first that fails gives the message. */
  function QuantityError(quantity: string): (r: Option<string>)
    ensures r.None? <==> quantity != [] && ToNumber(quantity).Some? && IsWhole(ToNumber(quantity).value)
                         && WholeValue(ToNumber(quantity).value) > 0
  {
    if quantity == [] then Some(QuantityRequired)
    else if ToNumber(quantity).None? then Some(QuantityNotNumber)
    else if !IsWhole(ToNumber(quantity).value) then Some(QuantityNotWhole)
    else if WholeValue(ToNumber(quantity).value) <= 0 then Some(QuantityNotPositive)
    else None
  }

  /** Only the empty field is "required". */
  lemma QuantityRequiredOnlyWhenEmpty(quantity: string)
    ensures QuantityError(quantity) == Some(QuantityRequired) <==> quantity == []
  {
  }

  /** A negative whole number passes the number and whole checks and fails the last one. */
  lemma NegativeQuantity(d: string)
    requires IsDigits(d) && d != []
    ensures QuantityError("-" + d) == Some(QuantityNotPositive)
  {
    ToNumberOfDigits(true, d);
    var n := ToNumber("-" + d);
    assert n == Some(Decimal(true, DigitsValue(d), []));
    assert IsWhole(n.value) && WholeValue(n.value) <= 0;
    assert "-" + d != [];
  }

  /** Blank text is the number 0 to `Number`, so it is reported as not positive, not as missing. */
  lemma BlankQuantity(quantity: string)
    requires quantity != [] && AllSpaces(quantity)
    ensures QuantityError(quantity) == Some(QuantityNotPositive)
  {
    TrimStartSkipsSpaces(quantity, []);
    assert quantity + [] == quantity;
  }

  /** The stock an item is shown with in the form is accepted exactly when it is positive. */
  lemma QuantityOfStockText(stock: int)
    ensures QuantityError(IntToString(stock)).None? <==> stock > 0
  {
    ToNumberOfIntToString(stock);
  }

  /** The form passes validation; lengths are counted in UTF-16 code units after trimming. */
  predicate Accepted(form: ItemForm) {
    Utf16Length(Trim(form.name)) >= 2 && QuantityError(form.quantity).None? && Utf16Length(Trim(form.unit)) > 0
  }

  /** The error dictionary `validateForm` leaves on the screen. A field has an entry
      exactly when its check fails; the price is never checked. */
  function FormErrors(form: ItemForm): (errors: map<string, string>)
    ensures "name" in errors <==> Utf16Length(Trim(form.name)) < 2
    ensures "name" in errors ==> errors["name"] == NameTooShort
    ensures "quantity" in errors <==> QuantityError(form.quantity).Some?
    ensures "quantity" in errors ==> errors["quantity"] == QuantityError(form.quantity).value
    ensures "unit" in errors <==> Trim(form.unit) == []
    ensures "unit" in errors ==> errors["unit"] == UnitRequired
    ensures errors.Keys <= {"name", "quantity", "unit"}
    ensures "price" !in errors
    ensures errors == map[] <==> Accepted(form)
  {
    var named := if Utf16Length(Trim(form.name)) < 2 then map["name" := NameTooShort] else map[];
    var counted := if QuantityError(form.quantity).Some? then named["quantity" := QuantityError(form.quantity).value] else named;
    var errors := if Utf16Length(Trim(form.unit)) == 0 then counted["unit" := UnitRequired] else counted;
    assert !Accepted(form) ==> "name" in errors || "quantity" in errors || "unit" in errors;
    errors
  }

  /** `validateForm`'s error dictionary, filled field by field. */
  method ValidateItemForm(form: ItemForm) returns (errors: map<string, string>)
    ensures errors == FormErrors(form)
    ensures errors == map[] <==> Accepted(form)
  {
    errors := map[];
    if form.name == [] || Utf16Length(Trim(form.name)) < 2 {
      errors := errors["name" := NameTooShort];
    }
    var quantityError := QuantityError(form.quantity);
    if quantityError.Some? {
      errors := errors["quantity" := quantityError.value];
    }
    if form.unit == [] || Utf16Length(Trim(form.unit)) == 0 {
      errors := errors["unit" := UnitRequired];
    }
  }

  /** `Price ? Number(Price) : null`, in whole rupees: an empty field is no price. */
  function PriceOf(text: string): Option<int> {
    if text == [] then None
    else if ToNumber(text).Some? && IsWhole(ToNumber(text).value) then Some(WholeValue(ToNumber(text).value))
    else None
  }

  /** The item the form describes, under the given id: the name untrimmed, the stock the
      quantity's value. */
  function FormItem(form: ItemForm, id: string): (r: Item)
    requires Accepted(form)
    ensures r.id == id && r.name == form.name && r.unit == form.unit
    ensures r.stock > 0 && ToNumber(form.quantity) == Some(ToNumber(form.quantity).value)
            && r.stock == WholeValue(ToNumber(form.quantity).value)
    ensures r.category == Some(form.category) && r.price == PriceOf(form.price)
  {
    Item(id, form.name, WholeValue(ToNumber(form.quantity).value), form.unit, Some(form.category), PriceOf(form.price))
  }

  /** `handleEditItem`: the form loaded with an item; a missing or empty category edits as
      the default, and a missing or zero price as an empty field. */
  function EditForm(item: Item): ItemForm {
    var category := if item.category.Some? && item.category.value != [] then item.category.value else DefaultCategory;
    var price := if item.price.Some? && item.price.value != 0 then IntToString(item.price.value) else "";
    ItemForm(item.name, IntToString(item.stock), item.unit, price, category)
  }

  /** Saving an edit without changing the form gives back the item, with its id, name,
      stock and unit, except that a missing category becomes the default and a price of 0
      becomes no price. */
  lemma EditUpdateRoundTrip(item: Item)
    requires Accepted(EditForm(item))
    ensures FormItem(EditForm(item), item.id)
            == item.(category := Some(EditForm(item).category),
                     price := if item.price == Some(0) then None else item.price)
    ensures item.category.Some? && item.category.value != [] ==> FormItem(EditForm(item), item.id).category == item.category
    ensures item.category.None? ==> FormItem(EditForm(item), item.id).category == Some(DefaultCategory)
  {
    ToNumberOfIntToString(item.stock);
    if item.price.Some? && item.price.value != 0 {
      ToNumberOfIntToString(item.price.value);
    }
  }

  /** An item can be saved back unchanged exactly when its stock is positive, its trimmed
      name has two characters and its trimmed unit one. */
  lemma EditFormAccepted(item: Item)
    ensures Accepted(EditForm(item)) <==> item.stock > 0 && Utf16Length(Trim(item.name)) >= 2 && Trim(item.unit) != []
  {
    QuantityOfStockText(item.stock);
  }

  /** `data.map(item => item.id === id ? updated : item)`. */
  function ReplaceById(data: seq<Item>, id: string, updated: Item): seq<Item> {
    seq(|data|, i requires 0 <= i < |data| => if data[i].id == id then updated else data[i])
  }

  /** The patch `updateItem` receives: every field of the item. */
  function FullPatch(item: Item): ItemPatch {
    ItemPatch(item.id, Put(item.name), Put(item.stock), Put(item.unit), Put(item.category), Put(item.price))
  }

  /** The stored list after the update and the list the screen shows agree: merging a
      complete item replaces it; the order and every other item stay. */
  lemma StoredUpdateMatchesShown(data: seq<Item>, updated: Item)
    ensures Storage.UpdateItems(data, FullPatch(updated)) == ReplaceById(data, updated.id, updated)
    ensures |ReplaceById(data, updated.id, updated)| == |data|
    ensures forall i :: 0 <= i < |data| ==> ReplaceById(data, updated.id, updated)[i].id == data[i].id
    ensures forall i :: 0 <= i < |data| && data[i].id != updated.id ==> ReplaceById(data, updated.id, updated)[i] == data[i]
  {
  }

  /** `item.stock < minQty ? '#ffcccc' : ...`: the rows drawn as low on stock. */
  function Highlighted(data: seq<Item>, minQty: Option<int>): (r: seq<bool>)
    ensures |r| == |data|
    ensures forall i :: 0 <= i < |data| ==> (r[i] <==> minQty.Some? && data[i].stock < minQty.value)
    ensures forall i :: 0 <= i < |data| ==> (r[i] <==> data[i] in HomeScreen.LowStockView(data, minQty))
  {
    HomeScreen.LowStockViewContents(data, minQty);
    seq(|data|, i requires 0 <= i < |data| => IsLowStock(data[i], minQty))
  }

  class ItemEditor {
    var form: ItemForm
    var isEdit: bool
    var editItemId: Option<string>
    var errors: map<string, string>
    var data: seq<Item>
    var confirmVisible: bool
    var itemToDelete: Option<string>

    /** In edit mode there is an item being edited; the confirmation is up only for an item. */
    predicate Valid()
      reads this
    {
      (isEdit ==> editItemId.Some?) && (confirmVisible ==> itemToDelete.Some?)
    }

    constructor(items: seq<Item>)
      ensures Valid()
      ensures form == EmptyForm && !isEdit && editItemId.None? && errors == map[]
      ensures data == items && !confirmVisible && itemToDelete.None?
    {
      form, isEdit, editItemId, errors := EmptyForm, false, None, map[];
      data, confirmVisible, itemToDelete := items, false, None;
    }

    /** `validateForm`: the field errors go on the screen. */
    method Validate() returns (ok: bool)
      modifies this`errors
      ensures errors == FormErrors(form)
      ensures ok <==> Accepted(form)
      ensures ok <==> errors == map[]
    {
      errors := ValidateItemForm(form);
      ok := errors == map[];
    }

    /** `handleAddItem`, with the ids as parameters: `freshId` is the form's own, which
        wins over `storageId`, the one `addItem` generates. */
    method HandleAddItem(store: KeyValueStore, freshId: string, storageId: string)
      requires Valid()
      modifies this, store`items
      ensures Valid()
      ensures !Accepted(old(form)) ==> data == old(data) && form == old(form) && isEdit == old(isEdit)
                                       && store.items == old(store.items)
      ensures Accepted(old(form)) ==>
                && data == old(data) + [FormItem(old(form), freshId)]
                && store.items == Some(old(Storage.GetItems(store)) + [FormItem(old(form), freshId)])
                && form == old(form).(name := "", quantity := "", unit := "", price := "") && !isEdit
      ensures errors == FormErrors(old(form))
      ensures editItemId == old(editItemId) && confirmVisible == old(confirmVisible) && itemToDelete == old(itemToDelete)
    {
      var ok := Validate();
      if !ok {
        return;
      }
      var item := FormItem(form, freshId);
      StoreNewItem(store, item, storageId);
      Added(item);
    }

    /** `addItem(newItem)`: the item keeps its own id, so the stored copy is the shown one. */
    static method StoreNewItem(store: KeyValueStore, item: Item, storageId: string)
      modifies store`items
      ensures store.items == Some(old(Storage.GetItems(store)) + [item])
    {
      var draft := ItemDraft(Some(item.id), item.name, item.stock, item.unit, item.category, item.price);
      var stored := Storage.AddItem(store, draft, storageId);
      assert stored == item;
    }

    /** Local state after a successful add or update: the list given, the text fields
        cleared, edit mode left. */
    method Added(item: Item)
      requires Valid()
      modifies this`data, this`form, this`isEdit
      ensures Valid()
      ensures data == old(data) + [item]
      ensures form == old(form).(name := "", quantity := "", unit := "", price := "") && !isEdit
    {
      data := data + [item];
      form := form.(name := "", quantity := "", unit := "", price := "");
      isEdit := false;
    }

    /** Focusing a field or tapping outside the form clears the field errors. */
    method ClearErrors()
      modifies this`errors
      ensures errors == map[]
    {
      errors := map[];
    }

    /** `handleEditItem`: the form is loaded with the item and edit mode starts. */
    method HandleEditItem(item: Item)
      requires Valid()
      modifies this`form, this`isEdit, this`editItemId
      ensures Valid()
      ensures form == EditForm(item) && isEdit && editItemId == Some(item.id)
    {
      isEdit := true;
      form := EditForm(item);
      editItemId := Some(item.id);
    }

    /** `handleUpdateItem`, reached from the submit button in edit mode. */
    method HandleUpdateItem(store: KeyValueStore)
      requires Valid() && isEdit
      modifies this, store`items
      ensures Valid()
      ensures !Accepted(old(form)) ==> data == old(data) && form == old(form) && isEdit
                                       && store.items == old(store.items)
      ensures Accepted(old(form)) ==>
                && data == ReplaceById(old(data), old(editItemId).value, FormItem(old(form), old(editItemId).value))
                && store.items == Some(ReplaceById(old(Storage.GetItems(store)), old(editItemId).value,
                                                   FormItem(old(form), old(editItemId).value)))
                && form == old(form).(name := "", quantity := "", unit := "", price := "") && !isEdit
      ensures errors == FormErrors(old(form))
      ensures editItemId == old(editItemId) && confirmVisible == old(confirmVisible) && itemToDelete == old(itemToDelete)
    {
      var ok := Validate();
      if !ok {
        return;
      }
      var id := editItemId.value;
      var updated := FormItem(form, id);
      StoreUpdate(store, updated);
      Updated(id, updated);
    }

    /** `updateItem(updatedItem)` with every field of the item. */
    static method StoreUpdate(store: KeyValueStore, updated: Item)
      modifies store`items
      ensures store.items == Some(ReplaceById(old(Storage.GetItems(store)), updated.id, updated))
    {
      StoredUpdateMatchesShown(Storage.GetItems(store), updated);
      Storage.UpdateItem(store, FullPatch(updated));
    }

    method Updated(id: string, updated: Item)
      requires Valid()
      modifies this`data, this`form, this`isEdit
      ensures Valid()
      ensures data == ReplaceById(old(data), id, updated)
      ensures form == old(form).(name := "", quantity := "", unit := "", price := "") && !isEdit
    {
      data := ReplaceById(data, id, updated);
      form := form.(name := "", quantity := "", unit := "", price := "");
      isEdit := false;
    }

    /** The submit button: update in edit mode, add otherwise. */
    method Submit(store: KeyValueStore, freshId: string, storageId: string)
      requires Valid()
      modifies this, store`items
      ensures Valid()
    {
      if isEdit {
        HandleUpdateItem(store);
      } else {
        HandleAddItem(store, freshId, storageId);
      }
    }

    /** `handleDeleteItem`: asks for confirmation. */
    method HandleDeleteItem(id: string)
      requires Valid()
      modifies this`itemToDelete, this`confirmVisible
      ensures Valid()
      ensures itemToDelete == Some(id) && confirmVisible
    {
      itemToDelete, confirmVisible := Some(id), true;
    }

    /** The confirmation's Cancel button: it closes and forgets the item. */
    method CancelDelete()
      requires Valid()
      modifies this`confirmVisible, this`itemToDelete
      ensures Valid()
      ensures !confirmVisible && itemToDelete.None?
    {
      confirmVisible, itemToDelete := false, None;
    }

    /** The confirmation's delete button: the item goes from the store and from the list. */
    method ConfirmDelete(store: KeyValueStore)
      requires Valid() && confirmVisible
      modifies this`data, this`confirmVisible, this`itemToDelete, store`items
      ensures Valid()
      ensures store.items == Some(Storage.RemoveById(old(Storage.GetItems(store)), old(itemToDelete).value))
      ensures data == Storage.RemoveById(old(data), old(itemToDelete).value)
      ensures !confirmVisible && itemToDelete.None?
    {
      var id := itemToDelete.value;
      Storage.DeleteItem(store, id);
      data := Storage.RemoveById(data, id);
      confirmVisible, itemToDelete := false, None;
    }
  }
}
