# KiranaKart core, modelled in Dafny

KiranaKart is a React Native app for a small grocery shop. The shop owner signs up with a
profile, keeps an inventory of stock items, rings up sales in a cart, and reviews the bill
history. Everything lives in the device's key-value store under six keys:

- `KiranaKart_User`, the profile;
- `KiranaKart_Theme`, `KiranaKart_FontSize` and `KiranaKart_MinQuantity`, three display
  settings saved as text;
- `KiranaKart_Items`, the item list;
- `@bills`, the bill ledger.

This project models the app's transaction core on that store:

- the persistence layer (`storage.js`) and the bill ledger (`bills.js`);
- the cart, which sanitises quantities, keeps a running total, generates a bill and lowers
  the stock;
- the item form, which validates, adds, edits, updates and deletes items;
- the inventory views: search, category filter, sort, the category picker and the
  low-stock views;
- the sales history, which lists bills newest first, reopens a bill and clears the ledger;
- the bill pop-up, which shows the rows and their total;
- the sign-up form, which validates and saves a trimmed profile;
- the account screen: the minimum quantity, the theme and font pickers, the profile edit
  and Delete Account.

Store layout:

- The store is the class `KeyValue.KeyValueStore`. It has one field per key. `None` means
  the key is absent.
- Screens whose handlers change state are classes: `Cart.CartScreen`,
  `CreateScreen.ItemEditor`, `SalesScreen.SalesView` and `AccountScreen.AccountView`. Their
  methods state the whole new state.
- Pure list logic is written as functions, with lemmas that state what the code promises.

Module map:

| Module | Models |
|---|---|
| `Base` | Option values, object-spread fields |
| `Text` | the JS string functions used: trim, ASCII case, includes, indexOf, first-match replace, truncation, a code-point comparison, UTF-16 lengths |
| `Numbers` | `toString`, `parseInt` and decimal `Number()` |
| `Seqs` | filter, reverse, Set-based de-duplication |
| `Records` | items, profiles, bills |
| `KeyValue` | the store |
| `Theme` | the two theme rules |
| `Storage` | storage.js |
| `Bills` | bills.js |
| one module per screen | the screens |

Where the app contradicts its own promises, the model states the as-written behaviour and
a corrected one (see "Findings").

## Model

| member | source | states |
|---|---|---|
| Storage.ReadSettingOfMissing | src/lib/storage.js:69-113 | A setting whose key is absent reads as its default. Only stored text that does not parse reads as NaN. |
| Storage.GettersOfEmptyStore | src/lib/storage.js:69-131 | On an empty store, theme is 0, font size 1 and minimum quantity 1. There is no profile, and the item list and bill ledger are empty. |
| Storage.ReadSettingOfSaved | src/lib/storage.js:61-77 | A saved setting reads back as the saved value, whatever the default. |
| Storage.SaveTheme | src/lib/storage.js:61-67 | Stores the value's text. `getTheme` then returns the value. |
| Storage.SaveFontSize | src/lib/storage.js:79-95 | Stores the value's text. `getFontSize` then returns the value. |
| Storage.SaveMinQuantity | src/lib/storage.js:97-113 | Stores the value's text. `getMinQuantity` then returns the value. |
| Storage.SaveUserToStorage | src/lib/storage.js:12-18 | The profile key holds the given profile. |
| Storage.MergeUserFields | src/lib/storage.js:36 | A field the edit supplies replaces the stored one. An unsupplied field keeps its stored value. |
| Storage.MergeUserIdempotent | src/lib/storage.js:36 | Applying the same edit twice equals applying it once. |
| Storage.EditUserInStorage | src/lib/storage.js:30-44 | With no stored profile: writes nothing and returns None (the source's `false`). Otherwise: stores and returns the merged profile. |
| Storage.DeleteUserFromStorage | src/lib/storage.js:46-59 | Removes all six keys. Every getter then returns its default or an empty list. |
| Storage.SaveItems | src/lib/storage.js:115-131 | `getItems` returns exactly the list last saved. |
| Storage.NewItem | src/lib/storage.js:137-140 | A caller-supplied id overrides the generated one. Every other field comes from the caller. |
| Storage.AddItem | src/lib/storage.js:133-149 | The stored list becomes the old list with exactly one new item at the end. The new item is returned. |
| Storage.AddKeepsUniqueIds | src/lib/storage.js:142 | Appending an item under an unused id keeps ids unique. |
| Storage.UpdateItemsShape | src/lib/storage.js:151-157 | Length, order and every id are kept. Items with other ids are unchanged. The matching item is merged with the patch. |
| Storage.UpdateItemsOfAbsent | src/lib/storage.js:153-156 | An id not in the list leaves the list unchanged. |
| Storage.UpdateItemsIdempotent | src/lib/storage.js:153-156 | Saving the same update twice equals saving it once. |
| Storage.UpdateItemsKeepsUniqueIds | src/lib/storage.js:153-156 | Updates keep ids unique. |
| Storage.UpdateItem | src/lib/storage.js:151-157 | The store holds the updated list. |
| Storage.RemoveByIdContents | src/lib/storage.js:161 | No item with the id is left. Every other item stays as often as it occurred. |
| Storage.RemoveByIdOfAbsent | src/lib/storage.js:161 | Deleting an absent id leaves the list unchanged. |
| Storage.RemoveByIdIdempotent | src/lib/storage.js:161 | Deleting twice equals deleting once. |
| Storage.RemoveByIdKeepsUniqueIds | src/lib/storage.js:161 | Deletes keep ids unique. |
| Storage.DeleteAfterAdd | src/lib/storage.js:133-163 | Adding an item under a fresh id and then deleting that id restores the list. |
| Storage.DeleteItem | src/lib/storage.js:159-163 | The store holds the list without that id. |
| Bills.SaveBill | src/lib/bills.js:5-14 | Appends the bill after every earlier bill. The earlier bills are unchanged and in order. |
| Bills.ClearAllBills | src/lib/bills.js:26-32 | Removes the key. `getBills` then returns the empty list, whatever was stored. |
| Bills.ListedAfterSaves | src/lib/bills.js:8-10 | A run of saves lists the earlier bills, then the saved bills in save order. Nothing is merged or rewritten. |
| Bills.SavesAfterClear | src/lib/bills.js:5-32 | After a clear, n saves make `getBills` return exactly those n bills in save order. |
| Bills.SameBillTwice | src/lib/bills.js:8-10 | Saving the same bill twice gives two entries. |
| Cart.KeepDigits | src/screens/Cart.jsx:71 | The result consists only of digits. |
| Cart.KeepDigitsContents | src/screens/Cart.jsx:71 | Every digit of the input survives as often as it occurs and in its original order. Every other character is removed. Digit-only input is unchanged. |
| Cart.SanitizedQuantity | src/screens/Cart.jsx:70-78 | The stored text never parses to more than the stock. Input over the stock stores the stock and raises "Only max available". Input within the stock stores its digit string, possibly empty. |
| Cart.CartScreen.HandleQuantityChange | src/screens/Cart.jsx:70-78 | Only that item's entry changes. It holds the sanitised text. The warning shows exactly when the input exceeded the stock. |
| Cart.CartScreen.HandleRemove | src/screens/Cart.jsx:80-87 | Drops the item and its entry. All other items and entries are unchanged. |
| Cart.ComputeTotal | src/screens/Cart.jsx:61-68 | The `forEach` loop computes the sum over the cart of quantity times price. A missing entry counts as 0. |
| Cart.CartScreen.RefreshTotal | src/screens/Cart.jsx:61-68 | The shown total is the cart total of the current items and entries. |
| Cart.CartTotalAppend | src/screens/Cart.jsx:61-68 | The total is additive over concatenation. |
| Cart.RemoveLowersTotal | src/screens/Cart.jsx:80-87 | Removing an item lowers the total by exactly its lines' amount. |
| Cart.SelectLinesProperties | src/screens/Cart.jsx:90-99 | The selected lines are exactly the items with a positive quantity, in cart order. They are numbered 1..N, and each line's total is quantity times price. |
| Cart.FindLine | src/screens/Cart.jsx:121 | Returns the first line with the id. Returns None exactly when no line has it. |
| Cart.ApplyPurchasesProperties | src/screens/Cart.jsx:118-131 | A purchased item's stock becomes max(0, stock - qty), never negative. Nothing else changes. Unpurchased items, and the list's order and length, are unchanged. |
| Cart.MakeBillTotal | src/screens/Cart.jsx:103-112 | The bill's total equals the sum of its line totals. |
| Cart.BillTotalIsCartTotal | src/screens/Cart.jsx:61-112 | When no entry is negative, the generated bill's total equals the running total shown. |
| Cart.CartScreen.HandleGenerateBill | src/screens/Cart.jsx:89-135 | With no positive quantity, nothing is saved or changed. Otherwise the bill is appended to the ledger, the purchased stock is lowered in the stored list, and the lines are shown. |
| Cart.DisplayName | src/screens/Cart.jsx:144 | A name longer than 12 code points shows as its first 12 and an ellipsis. Shorter names show unchanged. |
| CreateScreen.QuantityError | src/screens/CreateScreen.jsx:112-124 | The quantity passes exactly when it is present, numeric, whole and positive. |
| CreateScreen.QuantityRequiredOnlyWhenEmpty | src/screens/CreateScreen.jsx:112-113 | "Quantity is required" is reported exactly for the empty field. |
| CreateScreen.NegativeQuantity | src/screens/CreateScreen.jsx:115-123 | A negative whole number passes the number and whole checks. Only the last check rejects it, so the checks run in order. |
| CreateScreen.BlankQuantity | src/screens/CreateScreen.jsx:112-123 | A whitespace-only quantity is not "required". `Number` reads it as 0, so it is "not greater than 0". |
| CreateScreen.QuantityOfStockText | src/screens/CreateScreen.jsx:178 | An item's stock, shown in the form, passes exactly when it is positive. |
| CreateScreen.FormErrors | src/screens/CreateScreen.jsx:104-133 | Each field has an error exactly when its check fails, with that check's message. Lengths are counted in UTF-16 code units after trimming. Price never gets an error. The form is accepted exactly when there are no errors. |
| CreateScreen.ValidateItemForm | src/screens/CreateScreen.jsx:104-133 | Fills the error dictionary field by field and ends with exactly FormErrors. It is empty exactly when the form is accepted. |
| CreateScreen.ItemEditor.Validate | src/screens/CreateScreen.jsx:104-133 | The screen's errors become FormErrors of the form. Returns true exactly when the form is accepted, which is exactly when the errors are empty. |
| CreateScreen.ItemEditor.ClearErrors | src/screens/CreateScreen.jsx:217-221 | Focusing a field or tapping outside the form clears the field errors. |
| CreateScreen.FormItem | src/screens/CreateScreen.jsx:144-151 | The new item has the form's untrimmed name and stock = Number(quantity) > 0. An empty price field gives no price. |
| CreateScreen.ItemEditor.HandleAddItem | src/screens/CreateScreen.jsx:141-167 | The errors shown become FormErrors of the submitted form. An invalid form shows those errors and changes nothing else. A valid add appends one item to the local list and to the stored list, then clears the text fields. |
| CreateScreen.ItemEditor.StoreNewItem | src/screens/CreateScreen.jsx:155 | The form's own id wins, so the stored item is the one shown. |
| CreateScreen.ItemEditor.HandleEditItem | src/screens/CreateScreen.jsx:175-183 | Loads the item into the form and enters edit mode on its id. |
| CreateScreen.EditUpdateRoundTrip | src/screens/CreateScreen.jsx:175-195 | Saving an unchanged edit gives back the item with the same id, name, stock and unit. A missing category becomes 'Grains', and a price of 0 becomes no price. |
| CreateScreen.EditFormAccepted | src/screens/CreateScreen.jsx:175-183 | An item can be saved back unchanged exactly when its stock is positive, its trimmed name has at least two UTF-16 code units and its trimmed unit is not empty. |
| CreateScreen.StoredUpdateMatchesShown | src/screens/CreateScreen.jsx:199-203 | The stored update and the shown list agree. Only the item with the edited id is replaced, and the order and ids are kept. |
| CreateScreen.ItemEditor.HandleUpdateItem | src/screens/CreateScreen.jsx:185-213 | The errors shown become FormErrors of the submitted form. An invalid form shows those errors and changes nothing else. A valid one replaces the edited item in both lists, then leaves edit mode. |
| CreateScreen.ItemEditor.StoreUpdate | src/screens/CreateScreen.jsx:199 | The stored list has the edited item replaced. |
| CreateScreen.ItemEditor.HandleDeleteItem | src/screens/CreateScreen.jsx:169-172 | Asks for confirmation for that id. |
| CreateScreen.ItemEditor.CancelDelete | src/screens/CreateScreen.jsx:523-526 | Cancel closes the confirmation and forgets the item to delete. |
| CreateScreen.ItemEditor.ConfirmDelete | src/screens/CreateScreen.jsx:509-518 | Removes only the items with that id, from the store and from the local list, and closes the confirmation. |
| CreateScreen.Highlighted | src/screens/CreateScreen.jsx:420 | A row is highlighted exactly when its stock is below the minimum, which is exactly when the item is listed on the home screen's Low Stock tab. |
| AllItems.CategoryLabel | src/screens/AllItems.jsx:35 | The label is never empty. An item with a non-empty category is labelled with it. Any label other than 'Uncategorized' is the item's own category. |
| AllItems.UniqueCategoriesProperties | src/screens/AllItems.jsx:35 | The picker's list has no duplicates and contains every item's label and nothing else. It is in first-occurrence order. |
| AllItems.FilteredItemsContents | src/screens/AllItems.jsx:49-60 | The result is a permutation of the items that pass the search and the category filter. Each occurs as often as in the data. |
| AllItems.FilteredItemsMatchSearch | src/screens/AllItems.jsx:50-52 | Every result's name contains the search term, ignoring ASCII case. |
| AllItems.EmptySearchKeepsAll | src/screens/AllItems.jsx:50-52 | An empty search keeps every item. |
| AllItems.CategoryFilterIsExact | src/screens/AllItems.jsx:53-55 | With a category set, only items whose category equals it exactly remain. |
| AllItems.SortItemsSorted | src/screens/AllItems.jsx:56-60 | The sort's result is ordered by the comparator. |
| AllItems.SortByStockOrdered | src/screens/AllItems.jsx:58 | Sorting by stock gives non-decreasing stock. |
| AllItems.SortByNameOrdered | src/screens/AllItems.jsx:57 | Sorting by name gives non-decreasing names. |
| AllItems.OtherSortKeepsOrder | src/screens/AllItems.jsx:59 | Any other sort key, such as the `''` a category pick sets, keeps the filtered order. |
| AllItems.CompareAntisymmetric | src/screens/AllItems.jsx:56-60 | Swapping the arguments of the comparator negates its result. |
| AllItems.CompareTransitive | src/screens/AllItems.jsx:56-60 | The comparator's order is transitive. |
| AllItems.RowHighlighted | src/screens/AllItems.jsx:163 | A row is highlighted exactly when its stock is below the minimum. |
| AllItems.RowHighlightedInLowStockTab | src/screens/AllItems.jsx:163 | A catalog row is drawn as low exactly when its item is listed on the Low Stock tab. Every row of that tab is drawn as low. |
| AllItems.PressSort | src/screens/AllItems.jsx:87-101 | The Name and Stock buttons set the sort key and clear the category. |
| AllItems.PickCategory | src/screens/AllItems.jsx:134-137 | A category pick sets the filter and clears the sort key. |
| AllItems.ClearCategory | src/screens/AllItems.jsx:116-119 | Clear Category removes the filter and keeps the search and the sort key. |
| AllItems.ClearAfterPickShowsSearch | src/screens/AllItems.jsx:116-137 | Clearing a picked category shows exactly the items that match the search, in catalog order, because the pick cleared the sort key. |
| AllItems.PressSortShowsAllMatches | src/screens/AllItems.jsx:87-101 | After a sort button, every item that matches the search is shown, in sorted order. |
| AllItems.UncategorizedPickHidesUncategorized | src/screens/AllItems.jsx:53-55 | As written: picking 'Uncategorized' shows only items stored under that literal category. |
| AllItems.UncategorizedPickShowsNothing | src/screens/AllItems.jsx:134-137 | As written: for an item with no category, 'Uncategorized' is offered, and picking it shows an empty list. |
| AllItems.ByLabelOfEmptySearch | src/screens/AllItems.jsx:49-60 | With the corrected filter and no search, the list holds exactly the items whose label passes the filter. |
| AllItems.EveryOfferedCategoryMatches | src/screens/AllItems.jsx:131-137 | Corrected: each offered label shows exactly the items listed under it, and at least one. |
| AllItems.ByLabelAgreesOnNamedCategories | src/screens/AllItems.jsx:53-55 | Corrected filter: the correction changes nothing for any filter other than 'Uncategorized'. |
| AllItems.PickedCategoryShown | src/screens/AllItems.jsx:134-137 | Corrected filter, empty search: picking an offered label shows that label's items in catalog order. |
| HomeScreen.LowStockView | src/screens/HomeScreen.jsx:134 | The Low Stock tab contains only catalog items with stock below the minimum. |
| HomeScreen.LowStockViewContents | src/screens/HomeScreen.jsx:134 | An item is listed exactly when it is low, as often as it occurs in the catalog. |
| HomeScreen.LowStockViewInCatalogOrder | src/screens/HomeScreen.jsx:134 | Every low item appears, in catalog order. |
| HomeScreen.LowStockViewIdempotent | src/screens/HomeScreen.jsx:134 | Filtering the Low Stock list again changes nothing. |
| HomeScreen.LowStockViewOfNaN | src/screens/HomeScreen.jsx:134 | A minimum that is not a number gives an empty Low Stock tab. |
| HomeScreen.TabItems | src/screens/HomeScreen.jsx:133-135 | Tab 0 shows the catalog. Tab 1 shows exactly the Low Stock list: every catalog item below the minimum and no other item. Tab 2 shows no list. |
| HomeScreen.AvatarLetter | src/screens/HomeScreen.jsx:38 | Always one character. It is '?' with no user or an empty name. A lower-case ASCII first letter shows as its capital, and any other first character shows as it is. |
| HomeScreen.AvatarLetterOfLetter | src/screens/HomeScreen.jsx:38 | A name starting with a letter gives that letter in upper case. |
| HomeScreen.AvatarLetterOfOtherStart | src/screens/HomeScreen.jsx:38 | A name starting with anything but a lower-case ASCII letter shows that first character unchanged. |
| HomeScreen.AvatarLetterOfDevanagari | src/screens/HomeScreen.jsx:38 | The name 'आशा' shows 'आ'. |
| Theme.PickerValues | src/screens/HomeScreen.jsx:31 | 0 gives the system theme, 1 light and 2 dark, under both theme rules. |
| Theme.RulesAgreeOnPickerValues | src/screens/AccountScreen.jsx:11 | The account screen's rule (other values are light) and the home screen's rule (other values are dark) agree exactly on 0, 1 and 2. |
| SalesScreen.ReverseInPlace | src/screens/SalesScreen.jsx:21 | `reverse()` in place: the array becomes the exact reverse of its old contents. |
| SalesScreen.NewestFirst | src/screens/SalesScreen.jsx:20-21 | The listed bills are the fetched bills in reverse. |
| SalesScreen.SalesView.LoadData | src/screens/SalesScreen.jsx:19-25 | The screen lists the stored ledger, newest first. |
| SalesScreen.LatestBillFirst | src/screens/SalesScreen.jsx:21 | The last bill saved is listed first, ahead of the earlier ones in reverse. |
| SalesScreen.BillRows | src/screens/SalesScreen.jsx:33-39 | A reopened bill's lines are listed in order, numbered 1..N, with each line's quantity and total. |
| SalesScreen.SalesView.HandleBillClick | src/screens/SalesScreen.jsx:33-42 | Shows the renumbered lines of the bill. |
| SalesScreen.SalesView.CloseBill | src/screens/SalesScreen.jsx:89 | Closing the pop-up hides it. |
| SalesScreen.SalesView.RequestClear | src/screens/SalesScreen.jsx:81 | Clear Sales History only opens the confirmation. |
| SalesScreen.SalesView.CancelClear | src/screens/SalesScreen.jsx:109 | Cancel closes the confirmation. |
| SalesScreen.BillRowsTotal | src/screens/SalesScreen.jsx:33-39 | A reopened bill's rows add up to the sum of its line totals. |
| SalesScreen.ReopenedBill | src/screens/SalesScreen.jsx:33-42 | Reopening a bill the cart generated shows the rows and total the cart showed. |
| SalesScreen.SalesView.HandleConfirmClear | src/screens/SalesScreen.jsx:44-48 | The stored ledger is removed, the list shown is empty and the confirmation closes. |
| SalesScreen.ReopenedBillShown | src/screens/SalesScreen.jsx:33-42 | A reopened bill lists its lines in order, numbered from 1, with each line's shortened name, quantity and total. |
| SalesScreen.ReopenedCartBillShown | src/screens/SalesScreen.jsx:33-42 | A bill the cart generated, reopened, lists exactly the rows the cart's pop-up listed. |
| SalesScreen.DisplayedCartBillId | src/screens/SalesScreen.jsx:56 | A cart-generated id shows as the clock reading it was made at. |
| SalesScreen.DisplayedOtherId | src/screens/SalesScreen.jsx:56 | An id without 'bill_' is shown unchanged. |
| Text.IndexOf | src/screens/SalesScreen.jsx:56 | Returns the first position where the pattern occurs, or -1 when it occurs nowhere. |
| BillModal.ModalTotal | src/screens/BillModal.jsx:33-35 | The total is 0 for an empty list or a non-array value. |
| BillModal.RowsTotalAppend | src/screens/BillModal.jsx:33-35 | The total of two runs of rows is the sum of their totals. |
| BillModal.ShownRows | src/screens/BillModal.jsx:56-64 | Rows are listed in the given order, each with its own number, quantity and total. |
| BillModal.DisplayName | src/screens/BillModal.jsx:60 | A name longer than 20 code points shows as its first 20 and an ellipsis. Shorter names show unchanged. |
| BillModal.ShopName | src/screens/BillModal.jsx:43 | Shows the profile's shop name, or 'KiranaKart' when there is none. |
| BillModal.ShopNameAfterSignup | src/screens/BillModal.jsx:13-43 | On a new device after one sign-up, the header shows the trimmed shop name of an accepted form, and 'KiranaKart' after a refused one. |
| BillModal.CartBillShown | src/screens/BillModal.jsx:56-64 | A bill generated in the cart lists one row per item with a positive quantity, in cart order and numbered from 1, each with the item's shortened name, its quantity and quantity times price. |
| BillModal.FromCartTotal | src/screens/BillModal.jsx:33-35 | The total of the cart's rows is the cart lines' total. |
| BillModal.FreshBillTotal | src/screens/BillModal.jsx:33-35 | For a freshly generated bill, the modal total equals the total saved with the bill. |
| SignupScreen.ValidateSignup | src/screens/SignupScreen.jsx:60-85 | Each field's check runs on the trimmed text, with lengths in UTF-16 code units, and every failing field gets its own message. The form is accepted exactly when there are no errors. |
| SignupScreen.EmojiNameAccepted | src/screens/SignupScreen.jsx:63-68 | A one-emoji name and shop count as two code units each and pass the two-unit minimum. |
| SignupScreen.PhoneRejected | src/screens/SignupScreen.jsx:78 | A trimmed phone of 9 or 11 characters, or one containing a non-digit, is refused. |
| SignupScreen.PaddingIgnored | src/screens/SignupScreen.jsx:63-78 | Whitespace around the fields affects neither the checks nor the saved profile. |
| SignupScreen.SavedProfileRoundTrip | src/screens/SignupScreen.jsx:90-95 | A saved profile passes the checks on its own, and saving it again changes nothing. |
| SignupScreen.HandleSignup | src/screens/SignupScreen.jsx:87-99 | Saves exactly when the form is accepted, and then saves the trimmed profile. Otherwise nothing is written. |
| Text.TrimIdempotent | src/screens/SignupScreen.jsx:90-95 | Trimming a trimmed string changes nothing. |
| Text.TrimIgnoresPadding | src/screens/SignupScreen.jsx:63-78 | Whitespace on either side is removed by `trim`. |
| Text.ContainsIffOccurs | src/screens/AllItems.jsx:51 | `includes` holds exactly when the needle occurs at some position. |
| Text.Utf16Length | src/screens/SignupScreen.jsx:63-73 | `.length`: at least one and at most two code units per character, and zero exactly for the empty string. |
| Text.Utf16LengthOfBmp | src/screens/SignupScreen.jsx:63-73 | Text with no character outside the Basic Multilingual Plane has one code unit per character. |
| Text.Truncate | src/screens/BillModal.jsx:60 | A string longer than the limit becomes its prefix plus an ellipsis. Other strings are unchanged. |
| Text.StrCompareZeroIffEqual | src/screens/AllItems.jsx:57 | The name comparison returns 0 exactly for equal names. |
| Numbers.ParseIntOfIntToString | src/lib/storage.js:63-72 | `parseInt` of a number's text gives the number back. |
| Numbers.ToNumberOfIntToString | src/screens/CreateScreen.jsx:178 | `Number` of an integer's text is that whole number. |
| Seqs.DedupProperties | src/screens/AllItems.jsx:35 | `[...new Set(s)]` has no duplicates, the same elements, and first-occurrence order. |
| Seqs.FilterMultiset | src/lib/storage.js:161 | `filter` keeps each passing element as often as it occurs, and nothing else. |
| Seqs.FilterAtPositions | src/screens/HomeScreen.jsx:134 | `filter` keeps order: its k-th element is at the k-th passing position. |
| AccountScreen.MinQuantityFromInput | src/screens/AccountScreen.jsx:74 | Never 0. A parsed non-zero value is kept, and NaN or 0 give 1. |
| AccountScreen.MinQuantityDefaults | src/screens/AccountScreen.jsx:74 | Empty, non-numeric and "0" input give 1. |
| AccountScreen.MinQuantityOfJunkSuffix | src/screens/AccountScreen.jsx:74 | Trailing junk is ignored: "12ab" gives 12. |
| AccountScreen.MinQuantityOfNegative | src/screens/AccountScreen.jsx:74 | A leading minus sign is kept: "-3" gives -3. |
| AccountScreen.MinQuantityOfDigits | src/screens/AccountScreen.jsx:74 | Leading digits are read, up to the first non-digit. |
| AccountScreen.MinQuantityOfShownValue | src/screens/AccountScreen.jsx:74 | The text of a saved non-zero minimum reads back as that minimum. |
| AccountScreen.AccountView.HandleQtyChange | src/screens/AccountScreen.jsx:73-77 | The same value, never 0, goes into the screen and the store. |
| AccountScreen.PickerLabel | src/screens/AccountScreen.jsx:18 | A label exists exactly for an index inside the list, and it is one of the list's labels. |
| AccountScreen.ThemeLabel | src/screens/AccountScreen.jsx:18 | 'System', 'Light' and 'Dark' belong to exactly 0, 1 and 2, and no other mode has a label. |
| AccountScreen.ThemeLabelNamesScheme | src/screens/AccountScreen.jsx:11-18 | 'System', 'Light' and 'Dark' each name the scheme the screen then uses. |
| AccountScreen.FontSizeLabel | src/screens/AccountScreen.jsx:71 | 'Small', 'Medium' and 'Large' belong to exactly 0, 1 and 2, and no other size has a label. |
| AccountScreen.PickedOptionShown | src/screens/AccountScreen.jsx:176-178 | The option pressed in either picker is the label the row then shows. |
| AccountScreen.DefaultLabels | src/screens/AccountScreen.jsx:71 | With nothing stored, the rows read 'System' and 'Medium'. |
| AccountScreen.AccountView.Load | src/screens/AccountScreen.jsx:40-57 | The screen shows the stored profile and the three stored settings. |
| AccountScreen.AccountView.HandleSelectFontSize | src/screens/AccountScreen.jsx:59-63 | The screen and the store hold the picked size. |
| AccountScreen.AccountView.HandleSelectTheme | src/screens/AccountScreen.jsx:65-69 | The screen and the store hold the picked theme. |
| AccountScreen.ProfileEditReplacesProfile | src/screens/AccountScreen.jsx:241-246 | The edit passes all four fields, so they replace the whole stored profile. |
| AccountScreen.AccountView.HandleProfileUpdate | src/screens/AccountScreen.jsx:240-249 | The edited profile is stored and shown. With no stored profile, nothing is written. |
| AccountScreen.AccountView.RequestDelete | src/screens/AccountScreen.jsx:164 | Delete Account opens the confirmation. |
| AccountScreen.AccountView.CancelDelete | src/screens/AccountScreen.jsx:285 | Cancel closes the confirmation. |
| AccountScreen.AccountView.HandleLogout | src/screens/AccountScreen.jsx:79-82 | Removes the profile key and nothing else. |
| AccountScreen.AccountView.ConfirmDeleteAsWritten | src/screens/AccountScreen.jsx:276-279 | As written: "Yes, Delete" leaves items, bills and settings in the store. |
| AccountScreen.DeleteAccountKeepsData | src/screens/AccountScreen.jsx:272-279 | As written: after "Yes, Delete", one stored item and one stored bill are still there. |
| AccountScreen.AccountView.ConfirmDelete | src/lib/storage.js:46-59 | Corrected: "Yes, Delete" erases every key, as the confirmation text promises. |
| AccountScreen.DeleteAccountErasesData | src/lib/storage.js:46-59 | Corrected: after the confirmation, no item and no bill is left. |

## Left out

- Storage: AsyncStorage, JSON serialisation, `async`/`await` and the `try`/`catch` blocks
  that log and swallow failures are not modelled. The store is an in-memory object, and
  what is saved is what is read back.
- Rendering: layout, styles, colours, font-size presets, shake animations, keyboard
  handling, the visibility of modals other than the confirmations and the bill pop-up, and navigation
  (`navigation.replace`) are not modelled. App.jsx is not part of this model.
- Ids and clocks: `uuid.v4()`, `Date.now()` and `toISOString()` are parameters. The bill
  pop-up's own `INV-` id and `toLocaleString()` date are left out.
- Prices and totals are whole rupees (`int`). JavaScript floating point and the
  `toFixed(2)` formatting are not modelled. A missing price multiplies as 0.
- CreateScreen.PriceOf: a fractional price such as "12.5" becomes no price, because
  prices are integers here.
- Cart.EntryValue: an entry that does not parse counts as 0. The cart never stores such
  an entry (`CartScreen.Valid`), so no reachable total is affected.
- Number parsing: `parseInt` and `Number()` are decimal only, on unbounded integers. Hex,
  exponents, `Infinity` and `0x` prefixes are not modelled. Whitespace-only text is
  modelled as `Number` reads it, as 0.
- Text: case mapping is ASCII only. Unicode case folding and locale collation are not
  modelled.
- Text.StrCompare: `localeCompare` is modelled as a lexicographic comparison by code
  point, not by locale collation.
- Text.Truncate: slices by characters (code points), where JavaScript's `.slice` counts
  UTF-16 code units. A slice that splits a surrogate pair cannot be held in a Dafny
  string, so a name with characters outside the Basic Multilingual Plane keeps more of
  its text here than on the device. Length checks use UTF-16 units (Text.Utf16Length).
- Cart.DisplayName: the 12-character limit counts code points, as Text.Truncate does.
- BillModal.DisplayName: the 20-character limit counts code points, as Text.Truncate does.
- HomeScreen.AvatarLetter: takes the first code point, where `charAt(0)` takes the first
  UTF-16 unit, which for an emoji is half a surrogate pair. Upper-casing is ASCII only, so
  a non-ASCII lower-case letter such as 'é' shows unchanged, where `toUpperCase` gives 'É'.
- AllItems.SortItems: the sort is a stable insertion sort. The tie order is proved only for
  the comparator that ties every pair. For the name and stock sorts, sortedness and
  permutation are proved, but not stability.
- Cart: the screen that fills the cart with items (its route parameters) is not part of
  this model. The cart starts from a given item list.
- Cart.CartScreen.HandleGenerateBill: the gap between saving the bill and saving the items
  is not modelled. The two writes happen in sequence, with no failure in between.
- CreateScreen.ItemEditor.Submit: its contract only keeps the screen invariant. What each
  branch does is stated by HandleAddItem and HandleUpdateItem.
- HomeScreen: `loadEverything`, which fetches the profile, items and settings, is a
  sequence of getter calls with no logic of its own, and is not modelled.
- Theme: the system colour scheme (`useColorScheme`) is a parameter of the theme rules.
- AccountScreen: the `if (!user) return null` early render is a display concern, not
  modelled.

## Findings

| source | as written | input that shows it | evidently intended | confidence | as-written member | corrected member |
|---|---|---|---|---|---|---|
| src/screens/AllItems.jsx:53-55 | The category picker offers `item.category \|\| 'Uncategorized'` (line 35), but the filter compares `item.category === categoryFilter`. Picking 'Uncategorized' therefore matches only items whose stored category is that literal string. | One item `{ name: 'Rice', category: undefined }`, then pick 'Uncategorized': the list is empty. | Picking a label shows the items listed under it, including those with no category. | not executed | AllItems.UncategorizedPickShowsNothing | AllItems.EveryOfferedCategoryMatches |
| src/screens/AccountScreen.jsx:276-279 | "Yes, Delete", under "This will erase all data" (line 272), calls `handleLogout`. That only removes `KiranaKart_User` (lines 79-82). `deleteUserFromStorage` (src/lib/storage.js:46-59) is never called. | A stored profile, one item and one bill, then Delete Account and "Yes, Delete": the item and the bill are still stored. | Every key is erased: profile, settings, items and bills. | not executed | AccountScreen.DeleteAccountKeepsData | AccountScreen.DeleteAccountErasesData |
