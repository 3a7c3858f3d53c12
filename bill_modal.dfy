/** The bill pop-up (`src/screens/BillModal.jsx`): the rows it is given, listed in order,
    and their total. The cart and the sales history both open it. */
module BillModal {
  import opened Base
  import opened Text
  import opened Records
  import opened Seqs
  import opened KeyValue
  import Cart
  import Storage
  import SignupScreen

  /** What the modal reads from each line it is given. */
  datatype Row = Row(sno: int, name: string, qty: int, total: int)

  /** What one row shows: number, shortened name, quantity and total. */
  datatype ShownRow = ShownRow(sno: int, name: string, qty: int, total: int)

  /** `items.reduce((sum, item) => sum + item.total, 0)`. */
  function RowsTotal(rows: seq<Row>): int {
    if rows == [] then 0 else RowsTotal(rows[..|rows| - 1]) + rows[|rows| - 1].total
  }

  /** `totalCost`. The rows prop is `None` when what was passed is not an array. */
  function ModalTotal(rows: Option<seq<Row>>): (r: int)
    ensures rows.None? || rows == Some([]) ==> r == 0
  {
    if rows.Some? then RowsTotal(rows.value) else 0
  }

  /** The total is additive: the total of two runs of rows is the sum of their totals. */
  lemma {:induction false} RowsTotalAppend(a: seq<Row>, b: seq<Row>)
    ensures RowsTotal(a + b) == RowsTotal(a) + RowsTotal(b)
  {
    if b != [] {
      assert (a + b)[..|a + b| - 1] == a + b[..|b| - 1];
      RowsTotalAppend(a, b[..|b| - 1]);
    } else {
      assert a + b == a;
    }
  }

  /** A name longer than 20 characters shows as its first 20 and an ellipsis. */
  function DisplayName(name: string): (r: string)
    ensures |name| <= 20 ==> r == name
    ensures |name| > 20 ==> |r| == 21 && r[..20] == name[..20] && r[20] == '\U{2026}'
  {
    Truncate(name, 20)
  }

  /** The rows as listed, in the order given. */
  function ShownRows(rows: seq<Row>): (r: seq<ShownRow>)
    ensures |r| == |rows|
    ensures forall k :: 0 <= k < |rows| ==>
              r[k] == ShownRow(rows[k].sno, DisplayName(rows[k].name), rows[k].qty, rows[k].total)
  {
    seq(|rows|, k requires 0 <= k < |rows| => ShownRow(rows[k].sno, DisplayName(rows[k].name), rows[k].qty, rows[k].total))
  }

  /** `user?.shop || 'KiranaKart'`. */
  function ShopName(user: Option<User>): (r: string)
    ensures user.Some? && user.value.shop != [] ==> r == user.value.shop
    ensures user.None? || user.value.shop == [] ==> r == "KiranaKart"
  {
    if user.Some? && user.value.shop != [] then user.value.shop else "KiranaKart"
  }

  /** The modal's header on a new device after one sign-up attempt: an accepted form's
      trimmed shop name, and the default while nobody has signed up. */
  method ShopNameAfterSignup(form: SignupScreen.SignupForm) returns (shown: string)
    ensures SignupScreen.Accepted(form) ==> shown == Trim(form.shop)
    ensures !SignupScreen.Accepted(form) ==> shown == "KiranaKart"
  {
    var store := new KeyValueStore();
    var saved := SignupScreen.HandleSignup(store, form);
    shown := ShopName(Storage.GetUserFromStorage(store));
  }

  /** The rows the cart passes: its selected lines, of which the modal reads four fields. */
  function FromCart(lines: seq<Cart.SelectedLine>): (r: seq<Row>)
    ensures |r| == |lines|
    ensures forall k :: 0 <= k < |lines| ==> r[k] == Row(lines[k].sno, lines[k].name, lines[k].qty, lines[k].total)
  {
    seq(|lines|, k requires 0 <= k < |lines| => Row(lines[k].sno, lines[k].name, lines[k].qty, lines[k].total))
  }

  lemma {:induction false} FromCartTotal(lines: seq<Cart.SelectedLine>)
    ensures RowsTotal(FromCart(lines)) == Cart.LinesTotal(lines)
  {
    if lines != [] {
      FromCartTotal(lines[..|lines| - 1]);
      var r := FromCart(lines);
      assert r[..|r| - 1] == FromCart(lines[..|lines| - 1]);
    }
  }

  /** For a freshly generated bill, the total the modal shows is the total saved with the bill. */
  lemma FreshBillTotal(items: seq<Item>, quantities: map<string, string>, now: int, timestamp: string)
    ensures ModalTotal(Some(FromCart(Cart.SelectLines(items, quantities))))
            == Cart.MakeBill(Cart.SelectLines(items, quantities), now, timestamp).total
  {
    FromCartTotal(Cart.SelectLines(items, quantities));
  }

  /** Generating a bill in the cart lists one row per item with a positive quantity, in
      cart order and numbered from 1, each with the item's shortened name, its quantity
      and quantity times price. */
  lemma CartBillShown(items: seq<Item>, quantities: map<string, string>)
    ensures var r, at := ShownRows(FromCart(Cart.SelectLines(items, quantities))),
                         Positions(items, (item: Item) => Cart.IsSelected(quantities, item.id));
      && |r| == |at|
      && (forall k :: 0 <= k < |r| ==>
            && r[k].sno == k + 1
            && r[k].name == DisplayName(items[at[k]].name)
            && r[k].qty > 0
            && r[k].total == r[k].qty * PriceValue(items[at[k]].price))
  {
    Cart.SelectLinesProperties(items, quantities);
  }
}
