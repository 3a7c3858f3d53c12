/** The account screen: the minimum-quantity field, the theme and font-size pickers, the
    profile edit and the Delete Account confirmation. */
module AccountScreen {
  import opened Base
  import opened Numbers
  import opened Records
  import opened KeyValue
  import opened Theme
  import Storage
  import Bills

  /** `parseInt(value) || 1`: NaN and 0 are falsy, so both become 1; any other parsed
      value, negative ones included, is kept. */
  function MinQuantityFromInput(value: string): (n: int)
    ensures n != 0
    ensures ParseInt(value).Some? && ParseInt(value).value != 0 ==> n == ParseInt(value).value
    ensures ParseInt(value).None? || ParseInt(value) == Some(0) ==> n == 1
  {
    var parsed := ParseInt(value);
    if parsed.None? || parsed.value == 0 then 1 else parsed.value
  }

  /** Leading digits are read and whatever follows them is ignored. */
  lemma MinQuantityOfDigits(d: string, junk: string)
    requires IsDigits(d) && d != [] && DigitsValue(d) > 0
    requires junk == [] || !IsDigit(junk[0])
    ensures MinQuantityFromInput(d + junk) == DigitsValue(d)
  {
    ParseIntOfDigits(d, junk);
  }

  /** The field's own text for a saved minimum reads back as that minimum. */
  lemma MinQuantityOfShownValue(n: int)
    requires n != 0
    ensures MinQuantityFromInput(IntToString(n)) == n
  {
    ParseIntOfIntToString(n);
  }

  /** Trailing junk is ignored: "12ab" gives 12. */
  lemma MinQuantityOfJunkSuffix()
    ensures MinQuantityFromInput("12ab") == 12
  {
    assert "12ab" == "12" + "ab";
    assert "12"[..1] == "1";
    ParseIntOfDigits("12", "ab");
  }

  /** A leading minus sign is kept: "-3" gives -3. */
  lemma MinQuantityOfNegative()
    ensures MinQuantityFromInput("-3") == -3
  {
    assert "-3" == "-" + "3" + "";
    ParseIntOfNegativeDigits("3", "");
  }

  /** Empty and non-numeric input give 1, and so does "0". */
  lemma MinQuantityDefaults()
    ensures MinQuantityFromInput("") == 1
    ensures MinQuantityFromInput("abc") == 1
    ensures MinQuantityFromInput("0") == 1
  {
    ParseIntOfNonNumeric("");
    ParseIntOfNonNumeric("abc");
    ParseIntOfDigitString("0");
  }

  /** The options of the two pickers, in the order of their indices. */
  const ThemeLabels: seq<string> := ["System", "Light", "Dark"]
  const FontSizeLabels: seq<string> := ["Small", "Medium", "Large"]

  /** `labels[index]`; `None` (`undefined`) for a missing index or one with no label. */
  function PickerLabel(labels: seq<string>, index: Option<int>): (name: Option<string>)
    ensures name.Some? <==> index.Some? && 0 <= index.value < |labels|
    ensures name.Some? ==> name.value in labels
  {
    if index.Some? && 0 <= index.value < |labels| then Some(labels[index.value]) else None
  }

  /** `['System', 'Light', 'Dark'][themeMode]`: each label belongs to exactly one mode. */
  function ThemeLabel(mode: Option<int>): (name: Option<string>)
    ensures name == Some("System") <==> mode == Some(0)
    ensures name == Some("Light") <==> mode == Some(1)
    ensures name == Some("Dark") <==> mode == Some(2)
    ensures name.Some? <==> mode == Some(0) || mode == Some(1) || mode == Some(2)
  {
    PickerLabel(ThemeLabels, mode)
  }

  /** `['Small', 'Medium', 'Large'][fontSize]`: each label belongs to exactly one size. */
  function FontSizeLabel(size: Option<int>): (name: Option<string>)
    ensures name == Some("Small") <==> size == Some(0)
    ensures name == Some("Medium") <==> size == Some(1)
    ensures name == Some("Large") <==> size == Some(2)
    ensures name.Some? <==> size == Some(0) || size == Some(1) || size == Some(2)
  {
    PickerLabel(FontSizeLabels, size)
  }

  /** The option pressed in a picker, `handleSelect…(index)`, is the label the row then shows. */
  lemma PickedOptionShown(index: int)
    requires 0 <= index < 3
    ensures ThemeLabel(Some(index)) == Some(ThemeLabels[index])
    ensures FontSizeLabel(Some(index)) == Some(FontSizeLabels[index])
  {
  }

  /** With nothing stored the rows read "System" and "Medium". */
  lemma DefaultLabels(store: KeyValueStore)
    requires store.Empty()
    ensures ThemeLabel(Storage.GetTheme(store)) == Some("System")
    ensures FontSizeLabel(Storage.GetFontSize(store)) == Some("Medium")
  {
    Storage.GettersOfEmptyStore(store);
  }

  /** On this screen each theme label names the scheme the screen then uses. */
  lemma ThemeLabelNamesScheme(mode: Option<int>, system: Option<Scheme>)
    ensures ThemeLabel(mode) == Some("System") ==> DarkFirst(mode, system) == system
    ensures ThemeLabel(mode) == Some("Light") ==> DarkFirst(mode, system) == Some(Light)
    ensures ThemeLabel(mode) == Some("Dark") ==> DarkFirst(mode, system) == Some(Dark)
  {
  }

  /** What the Update button hands to `editUserInStorage`: the four edited fields. */
  function ProfilePatch(name: string, shop: string, address: string, phone: string): UserPatch {
    UserPatch(Put(name), Put(shop), Put(address), Put(phone))
  }

  /** The four edited fields replace the whole stored profile. */
  lemma ProfileEditReplacesProfile(existing: User, name: string, shop: string, address: string, phone: string)
    ensures Storage.MergeUser(existing, ProfilePatch(name, shop, address, phone)) == User(name, shop, address, phone)
  {
    Storage.MergeUserFields(existing, ProfilePatch(name, shop, address, phone));
  }

  class AccountView {
    var themeMode: Option<int>
    var fontSize: Option<int>
    var minQty: Option<int>
    var user: Option<User>
    var confirmDeleteVisible: bool

    /** The screen's initial state, before the stored values are loaded. */
    constructor()
      ensures themeMode == Some(0) && fontSize == Some(1) && minQty == Some(1)
      ensures user.None? && !confirmDeleteVisible
    {
      themeMode, fontSize, minQty := Some(0), Some(1), Some(1);
      user, confirmDeleteVisible := None, false;
    }

    /** The load effect: the profile and the three settings as stored. */
    method Load(store: KeyValueStore)
      modifies this`user, this`minQty, this`fontSize, this`themeMode
      ensures user == Storage.GetUserFromStorage(store)
      ensures minQty == Storage.GetMinQuantity(store)
      ensures fontSize == Storage.GetFontSize(store)
      ensures themeMode == Storage.GetTheme(store)
    {
      user := Storage.GetUserFromStorage(store);
      minQty := Storage.GetMinQuantity(store);
      fontSize := Storage.GetFontSize(store);
      themeMode := Storage.GetTheme(store);
    }

    /** `handleSelectFontSize`: the screen and the store hold the picked size. */
    method HandleSelectFontSize(store: KeyValueStore, value: int)
      modifies this`fontSize, store`fontSize
      ensures fontSize == Some(value) && Storage.GetFontSize(store) == fontSize
    {
      fontSize := Some(value);
      Storage.SaveFontSize(store, value);
    }

    /** `handleSelectTheme`: the screen and the store hold the picked theme. */
    method HandleSelectTheme(store: KeyValueStore, value: int)
      modifies this`themeMode, store`theme
      ensures themeMode == Some(value) && Storage.GetTheme(store) == themeMode
    {
      themeMode := Some(value);
      Storage.SaveTheme(store, value);
    }

    /** `handleQtyChange`: the same value, never 0, goes into the screen and the store. */
    method HandleQtyChange(store: KeyValueStore, value: string)
      modifies this`minQty, store`minQuantity
      ensures minQty == Some(MinQuantityFromInput(value))
      ensures Storage.GetMinQuantity(store) == minQty && minQty != Some(0)
    {
      var intValue := MinQuantityFromInput(value);
      minQty := Some(intValue);
      Storage.SaveMinQuantity(store, intValue);
    }

    /** The Update button: the edited profile is stored and shown; with no stored profile
      nothing is written and the screen is left without one. */
    method HandleProfileUpdate(store: KeyValueStore, name: string, shop: string, address: string, phone: string)
      modifies this`user, store`user
      ensures old(store.user).None? ==> user.None? && store.user.None?
      ensures old(store.user).Some? ==> user == Some(User(name, shop, address, phone)) && store.user == user
    {
      var updated := Storage.EditUserInStorage(store, ProfilePatch(name, shop, address, phone));
      if old(store.user).Some? {
        ProfileEditReplacesProfile(old(store.user).value, name, shop, address, phone);
      }
      user := updated;
    }

    /** The Delete Account button opens the confirmation. */
    method RequestDelete()
      modifies this`confirmDeleteVisible
      ensures confirmDeleteVisible
    {
      confirmDeleteVisible := true;
    }

    method CancelDelete()
      modifies this`confirmDeleteVisible
      ensures !confirmDeleteVisible
    {
      confirmDeleteVisible := false;
    }

    /** `handleLogout`: only the profile key is removed. */
    static method HandleLogout(store: KeyValueStore)
      modifies store`user
      ensures store.user.None?
    {
      store.user := None;
    }

    /** "Yes, Delete" as written: it closes the confirmation and logs out, so the items,
        the bills and the settings all stay in the store. */
    method ConfirmDeleteAsWritten(store: KeyValueStore)
      modifies this`confirmDeleteVisible, store`user
      ensures !confirmDeleteVisible && store.user.None?
      ensures store.items == old(store.items) && store.bills == old(store.bills)
      ensures store.theme == old(store.theme) && store.fontSize == old(store.fontSize)
      ensures store.minQuantity == old(store.minQuantity)
    {
      confirmDeleteVisible := false;
      HandleLogout(store);
    }

    /** "Yes, Delete" as the confirmation promises: every key is erased, as
        `deleteUserFromStorage` does. */
    method ConfirmDelete(store: KeyValueStore)
      modifies this`confirmDeleteVisible, store
      ensures !confirmDeleteVisible && store.Empty()
      ensures Storage.GetItems(store) == [] && Bills.GetBills(store) == []
      ensures Storage.GetMinQuantity(store) == Some(Storage.DefaultMinQuantity)
    {
      confirmDeleteVisible := false;
      Storage.DeleteUserFromStorage(store);
    }
  }

  /** A profile, one item and one bill on the device, then "Yes, Delete" as written: the
      item and the bill are still there afterwards. */
  method DeleteAccountKeepsData() returns (itemsLeft: seq<Item>, billsLeft: seq<Bill>)
    ensures |itemsLeft| == 1 && |billsLeft| == 1
  {
    var store, item, bill := SampleStore();
    var view := new AccountView();
    view.ConfirmDeleteAsWritten(store);
    itemsLeft, billsLeft := Storage.GetItems(store), Bills.GetBills(store);
  }

  /** The same device after the corrected confirmation: nothing is left. */
  method DeleteAccountErasesData() returns (itemsLeft: seq<Item>, billsLeft: seq<Bill>)
    ensures itemsLeft == [] && billsLeft == []
  {
    var store, item, bill := SampleStore();
    var view := new AccountView();
    view.ConfirmDelete(store);
    itemsLeft, billsLeft := Storage.GetItems(store), Bills.GetBills(store);
  }

  /** A store holding a profile, one item and one bill. */
  method SampleStore() returns (store: KeyValueStore, item: Item, bill: Bill)
    ensures fresh(store)
    ensures store.user.Some? && Storage.GetItems(store) == [item] && Bills.GetBills(store) == [bill]
  {
    store := new KeyValueStore();
    Storage.SaveUserToStorage(store, User("Asha", "Asha Stores", "12 Market Road", "9876543210"));
    item := Item("1", "Rice", 5, "kg", Some("Grains"), Some(60));
    Storage.SaveItems(store, [item]);
    bill := Bill("bill_1", "2024-01-01T00:00:00.000Z", [BillLine("Rice", 1, Some(60), 60)], 60);
    Bills.SaveBill(store, bill);
  }
}
