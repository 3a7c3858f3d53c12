/** The cart screen (`src/screens/Cart.jsx`): quantities typed per item, a running total,
    removal of lines, and bill generation, which saves the bill and lowers the stock. */
module Cart {
  import opened Base
  import opened Text
  import opened Numbers
  import opened Seqs
  import opened Records
  import opened KeyValue
  import Storage
  import Bills

  // ---------------------------------------------------------------- quantity entries

  /** `value.replace(/[^0-9]/g, '')`. */
  function KeepDigits(value: string): (r: string)
    ensures IsDigits(r)
  {
    Filter(value, IsDigit)
  }

  /** Every digit of the input survives, in order; every other character is removed. */
  lemma KeepDigitsContents(value: string)
    ensures forall c :: c in KeepDigits(value) <==> c in value && IsDigit(c)
    ensures forall c :: multiset(KeepDigits(value))[c] == if IsDigit(c) then multiset(value)[c] else 0
    ensures IsDigits(value) ==> KeepDigits(value) == value
    ensures var kept, at := KeepDigits(value), Positions(value, IsDigit);
      && |kept| == |at|
      && (forall k, l :: 0 <= k < l < |at| ==> at[k] < at[l])
      && (forall i :: 0 <= i < |value| && IsDigit(value[i]) ==> i in at)
      && (forall k :: 0 <= k < |kept| ==> kept[k] == value[at[k]])
  {
    FilterAtPositions(value, IsDigit);
    PositionsIncreasing(value, IsDigit);
    PositionsComplete(value, IsDigit);
    FilterMembership(value, IsDigit);
    FilterMultiset(value, IsDigit);
    if IsDigits(value) {
      FilterKeepsAll(value, IsDigit);
    }
  }

  /** The number an entry stands for in the running total: `parseInt(text || '0')`,
      where an unparsable entry, which the screen never stores, counts as 0. */
  function EntryValue(text: string): int {
    ParseInt(if text == [] then "0" else text).GetOr(0)
  }

  lemma EntryValueOfDigits(d: string)
    requires IsDigits(d)
    ensures EntryValue(d) == DigitsValue(d)
  {
    ParseIntOfDigitString(if d == [] then "0" else d);
  }

  /** An entry the screen may store: empty, or text `parseInt` reads as a number. */
  predicate ValidEntry(text: string) {
    text == [] || ParseInt(text).Some?
  }

  /** What the quantity field holds after typing: the text stored and, when the input
      asked for more than the stock, the warning shown. */
  datatype QuantityInput = QuantityInput(text: string, warning: Option<string>)

  function StockWarning(max: int): string {
    "Only " + IntToString(max) + " available"
  }

  /** `handleQuantityChange`'s decision. The stored text never stands for more than the
      stock; input within the stock is stored as its digits, possibly empty; input over
      the stock stores the stock itself and raises the warning. */
  function SanitizedQuantity(value: string, max: int): (r: QuantityInput)
    ensures ValidEntry(r.text) && EntryValue(r.text) <= max
    ensures r.warning.Some? <==> DigitsValue(KeepDigits(value)) > max
    ensures r.warning.None? ==> r.text == KeepDigits(value)
    ensures r.warning.Some? ==> r.text == IntToString(max) && EntryValue(r.text) == max
                                && r.warning.value == StockWarning(max)
  {
    var digits := KeepDigits(value);
    var requested := ParseInt(if digits == [] then "0" else digits);
    EntryValueOfDigits(digits);
    ParseIntOfDigitString(if digits == [] then "0" else digits);
    ParseIntOfIntToString(max);
    if requested.Some? && requested.value > max then
      QuantityInput(IntToString(max), Some(StockWarning(max)))
    else
      QuantityInput(digits, None)
  }

  // ---------------------------------------------------------------- running total

  /** `parseInt(quantities[id] || '0')`: a missing entry counts as 0. */
  function EntryQuantity(quantities: map<string, string>, id: string): int {
    EntryValue(if id in quantities then quantities[id] else "")
  }

  /** What one item adds to the running total; a missing price multiplies as 0. */
  function LineAmount(quantities: map<string, string>, item: Item): int {
    EntryQuantity(quantities, item.id) * PriceValue(item.price)
  }

  /** The running total: the sum over the cart of quantity times price. */
  function CartTotal(items: seq<Item>, quantities: map<string, string>): int {
    if items == [] then 0
    else CartTotal(items[..|items| - 1], quantities) + LineAmount(quantities, items[|items| - 1])
  }

  /** The total effect's `forEach` loop. */
  method ComputeTotal(items: seq<Item>, quantities: map<string, string>) returns (total: int)
    ensures total == CartTotal(items, quantities)
  {
    total := 0;
    var i := 0;
    while i < |items|
      invariant 0 <= i <= |items|
      invariant total == CartTotal(items[..i], quantities)
    {
      assert items[..i + 1][..i] == items[..i];
      total := total + LineAmount(quantities, items[i]);
      i := i + 1;
    }
    assert items[..|items|] == items;
  }

  lemma {:induction false} CartTotalAppend(a: seq<Item>, b: seq<Item>, quantities: map<string, string>)
    ensures CartTotal(a + b, quantities) == CartTotal(a, quantities) + CartTotal(b, quantities)
  {
    if b != [] {
      assert (a + b)[..|a + b| - 1] == a + b[..|b| - 1];
      CartTotalAppend(a, b[..|b| - 1], quantities);
    } else {
      assert a + b == a;
    }
  }

  /** The total splits between the items that pass a test and those that fail it. */
  lemma {:induction false} CartTotalSplit(items: seq<Item>, quantities: map<string, string>, p: Item -> bool, fails: Item -> bool)
    requires forall x :: fails(x) == !p(x)
    ensures CartTotal(items, quantities) == CartTotal(Filter(items, p), quantities) + CartTotal(Filter(items, fails), quantities)
  {
    if items != [] {
      var init, last := items[..|items| - 1], items[|items| - 1];
      CartTotalSplit(init, quantities, p, fails);
      var passed, failed := Filter(init, p), Filter(init, fails);
      if p(last) {
        assert Filter(items, p) == passed + [last];
        assert Filter(items, fails) == failed;
        CartTotalAppend(passed, [last], quantities);
      } else {
        assert Filter(items, p) == passed;
        assert Filter(items, fails) == failed + [last];
        CartTotalAppend(failed, [last], quantities);
      }
      assert CartTotal([last], quantities) == LineAmount(quantities, last);
      assert CartTotal(items, quantities) == CartTotal(init, quantities) + LineAmount(quantities, last);
    }
  }

  /** Removing an item takes exactly its lines' amount off the total; the entry removed
      with it no longer matters to what is left. */
  lemma RemoveLowersTotal(items: seq<Item>, quantities: map<string, string>, id: string)
    ensures CartTotal(Storage.RemoveById(items, id), quantities - {id})
            == CartTotal(items, quantities) - CartTotal(Filter(items, (x: Item) => x.id == id), quantities)
  {
    var keep, drop := (x: Item) => x.id != id, (x: Item) => x.id == id;
    var rest := Storage.RemoveById(items, id);
    assert rest == Filter(items, keep);
    CartTotalSplit(items, quantities, keep, drop);
    Storage.RemoveByIdContents(items, id);
    CartTotalIgnoresOtherEntries(rest, quantities, id);
  }

  /** The total of items without a given id does not depend on that id's entry. */
  lemma {:induction false} CartTotalIgnoresOtherEntries(items: seq<Item>, quantities: map<string, string>, id: string)
    requires forall k :: 0 <= k < |items| ==> items[k].id != id
    ensures CartTotal(items, quantities - {id}) == CartTotal(items, quantities)
  {
    if items != [] {
      CartTotalIgnoresOtherEntries(items[..|items| - 1], quantities, id);
      assert items[|items| - 1].id != id;
    }
  }

  // ---------------------------------------------------------------- bill generation

  /** A line of the bill being generated, with the item id the stock update needs. */
  datatype SelectedLine = SelectedLine(sno: int, name: string, qty: int, total: int, unitPrice: Option<int>, id: string)

  /** `parseInt(quantities[id]) > 0`: a missing or empty entry is NaN and not selected. */
  predicate IsSelected(quantities: map<string, string>, id: string) {
    id in quantities && ParseInt(quantities[id]).Some? && ParseInt(quantities[id]).value > 0
  }

  /** `parseInt(quantities[id])` for a selected item. */
  function Purchased(quantities: map<string, string>, id: string): int {
    if id in quantities then ParseInt(quantities[id]).GetOr(0) else 0
  }

  /** The cart items with a positive quantity, in cart order. */
  function Chosen(items: seq<Item>, quantities: map<string, string>): seq<Item> {
    Filter(items, (item: Item) => IsSelected(quantities, item.id))
  }

  /** `.map((item, index) => ...)`: the chosen items as lines numbered from 1. */
  function NumberLines(chosen: seq<Item>, quantities: map<string, string>): (lines: seq<SelectedLine>)
    ensures |lines| == |chosen|
    ensures forall k :: 0 <= k < |chosen| ==>
              lines[k] == SelectedLine(k + 1, chosen[k].name, Purchased(quantities, chosen[k].id),
                                       Purchased(quantities, chosen[k].id) * PriceValue(chosen[k].price),
                                       chosen[k].price, chosen[k].id)
  {
    seq(|chosen|, k requires 0 <= k < |chosen| =>
      var qty := Purchased(quantities, chosen[k].id);
      SelectedLine(k + 1, chosen[k].name, qty, qty * PriceValue(chosen[k].price), chosen[k].price, chosen[k].id))
  }

  function SelectLines(items: seq<Item>, quantities: map<string, string>): seq<SelectedLine> {
    NumberLines(Chosen(items, quantities), quantities)
  }

  /** The selected lines are exactly the items with a positive quantity, in cart order,
      numbered 1..N, each with its quantity and its total of quantity times price. */
  lemma SelectLinesProperties(items: seq<Item>, quantities: map<string, string>)
    ensures var lines, at := SelectLines(items, quantities), Positions(items, (item: Item) => IsSelected(quantities, item.id));
      && |lines| == |at|
      && (forall k, l :: 0 <= k < l < |at| ==> at[k] < at[l])
      && (forall i :: 0 <= i < |items| && IsSelected(quantities, items[i].id) ==> i in at)
      && (forall k :: 0 <= k < |lines| ==>
            && lines[k].sno == k + 1
            && IsSelected(quantities, items[at[k]].id)
            && lines[k].id == items[at[k]].id && lines[k].name == items[at[k]].name
            && lines[k].unitPrice == items[at[k]].price
            && lines[k].qty > 0 && lines[k].qty == ParseInt(quantities[lines[k].id]).value
            && lines[k].total == lines[k].qty * PriceValue(lines[k].unitPrice))
  {
    var p := (item: Item) => IsSelected(quantities, item.id);
    FilterAtPositions(items, p);
    PositionsIncreasing(items, p);
    PositionsComplete(items, p);
  }

  /** `selected.reduce((sum, item) => sum + item.total, 0)`. */
  function LinesTotal(lines: seq<SelectedLine>): int {
    if lines == [] then 0 else LinesTotal(lines[..|lines| - 1]) + lines[|lines| - 1].total
  }

  /** `bill_${Date.now()}`, with the clock reading as a parameter. */
  function BillId(now: int): string {
    "bill_" + IntToString(now)
  }

  /** The bill's lines: name, quantity, unit price and total of each selected line. */
  function ToBillLines(lines: seq<SelectedLine>): (r: seq<BillLine>)
    ensures |r| == |lines|
    ensures forall k :: 0 <= k < |lines| ==>
              r[k] == BillLine(lines[k].name, lines[k].qty, lines[k].unitPrice, lines[k].total)
  {
    seq(|lines|, k requires 0 <= k < |lines| => BillLine(lines[k].name, lines[k].qty, lines[k].unitPrice, lines[k].total))
  }

  function MakeBill(lines: seq<SelectedLine>, now: int, timestamp: string): Bill {
    Bill(BillId(now), timestamp, ToBillLines(lines), LinesTotal(lines))
  }

  /** The lines of a generated bill add up to its total. */
  lemma {:induction false} MakeBillTotal(lines: seq<SelectedLine>, now: int, timestamp: string)
    ensures BillLinesTotal(MakeBill(lines, now, timestamp).items) == MakeBill(lines, now, timestamp).total
  {
    if lines != [] {
      var init := lines[..|lines| - 1];
      MakeBillTotal(init, now, timestamp);
      var r := ToBillLines(lines);
      assert r[..|r| - 1] == ToBillLines(init);
    }
  }

  /** `selected.find(item => item.id === id)`: the first line with that id. */
  function FindLine(lines: seq<SelectedLine>, id: string): (r: Option<SelectedLine>)
    ensures r.None? <==> forall k :: 0 <= k < |lines| ==> lines[k].id != id
    ensures r.Some? ==> exists k :: 0 <= k < |lines| && lines[k] == r.value && r.value.id == id
                                    && forall j :: 0 <= j < k ==> lines[j].id != id
  {
    if lines == [] then None
    else if lines[0].id == id then
      Some(lines[0])
    else
      var r := FindLine(lines[1..], id);
      if r.Some? then
        var k :| 0 <= k < |lines[1..]| && lines[1..][k] == r.value && r.value.id == id
                 && forall j :: 0 <= j < k ==> lines[1..][j].id != id;
        assert lines[k + 1] == r.value && forall j :: 0 <= j < k + 1 ==> lines[j].id != id;
        r
      else
        assert forall k :: 1 <= k < |lines| ==> lines[k] == lines[1..][k - 1];
        r
  }

  /** One stored item after the purchase: a purchased item's stock goes down by the
      quantity bought, never below 0. */
  function Restocked(item: Item, found: Option<SelectedLine>): Item {
    if found.Some? then item.(stock := Max(0, item.stock - found.value.qty)) else item
  }

  /** The item list the stock update saves. */
  function ApplyPurchases(stored: seq<Item>, lines: seq<SelectedLine>): seq<Item> {
    seq(|stored|, i requires 0 <= i < |stored| => Restocked(stored[i], FindLine(lines, stored[i].id)))
  }

  /** The stock update keeps every item in its place and changes nothing but stock; a
      purchased item's stock becomes `max(0, stock - qty)` for the first line with its id,
      never negative, and an item no line names is unchanged. */
  lemma ApplyPurchasesProperties(stored: seq<Item>, lines: seq<SelectedLine>)
    ensures |ApplyPurchases(stored, lines)| == |stored|
    ensures forall i :: 0 <= i < |stored| ==>
              ApplyPurchases(stored, lines)[i] == stored[i].(stock := ApplyPurchases(stored, lines)[i].stock)
    ensures forall i :: 0 <= i < |stored| && (forall k :: 0 <= k < |lines| ==> lines[k].id != stored[i].id) ==>
              ApplyPurchases(stored, lines)[i] == stored[i]
    ensures forall i, k :: 0 <= i < |stored| && 0 <= k < |lines| && lines[k].id == stored[i].id
                           && (forall j :: 0 <= j < k ==> lines[j].id != stored[i].id) ==>
              ApplyPurchases(stored, lines)[i].stock == Max(0, stored[i].stock - lines[k].qty) >= 0
  {
    forall i, k | 0 <= i < |stored| && 0 <= k < |lines| && lines[k].id == stored[i].id
                  && (forall j :: 0 <= j < k ==> lines[j].id != stored[i].id)
      ensures ApplyPurchases(stored, lines)[i].stock == Max(0, stored[i].stock - lines[k].qty) >= 0
    {
      var found := FindLine(lines, stored[i].id);
      var k' :| 0 <= k' < |lines| && lines[k'] == found.value && found.value.id == stored[i].id
                && forall j :: 0 <= j < k' ==> lines[j].id != stored[i].id;
      assert k' == k;
    }
  }

  /** The running total shown equals the total of the bill generated from it, when no
      entry stands for a negative quantity. */
  lemma BillTotalIsCartTotal(items: seq<Item>, quantities: map<string, string>, now: int, timestamp: string)
    requires forall id :: id in quantities ==> ValidEntry(quantities[id]) && EntryValue(quantities[id]) >= 0
    ensures MakeBill(SelectLines(items, quantities), now, timestamp).total == CartTotal(items, quantities)
  {
    var p, fails := (item: Item) => IsSelected(quantities, item.id), (item: Item) => !IsSelected(quantities, item.id);
    CartTotalSplit(items, quantities, p, fails);
    var unselected := Filter(items, fails);
    assert forall k :: 0 <= k < |unselected| ==> !IsSelected(quantities, unselected[k].id) by {
      forall k | 0 <= k < |unselected| ensures !IsSelected(quantities, unselected[k].id) {
        assert unselected[k] in unselected;
      }
    }
    UnselectedAddNothing(unselected, quantities);
    var chosen := Chosen(items, quantities);
    assert forall k :: 0 <= k < |chosen| ==> IsSelected(quantities, chosen[k].id) by {
      forall k | 0 <= k < |chosen| ensures IsSelected(quantities, chosen[k].id) {
        assert chosen[k] in chosen;
      }
    }
    ChosenLinesTotal(chosen, quantities);
  }

  lemma {:induction false} UnselectedAddNothing(items: seq<Item>, quantities: map<string, string>)
    requires forall id :: id in quantities ==> ValidEntry(quantities[id]) && EntryValue(quantities[id]) >= 0
    requires forall k :: 0 <= k < |items| ==> !IsSelected(quantities, items[k].id)
    ensures CartTotal(items, quantities) == 0
  {
    if items != [] {
      UnselectedAddNothing(items[..|items| - 1], quantities);
      var id := items[|items| - 1].id;
      assert !IsSelected(quantities, id);
      ParseIntOfDigitString("0");
      assert DigitsValue("0") == 0 by {
        assert "0"[..0] == [];
      }
      assert EntryQuantity(quantities, id) == 0;
    }
  }

  lemma {:induction false} ChosenLinesTotal(chosen: seq<Item>, quantities: map<string, string>)
    requires forall k :: 0 <= k < |chosen| ==> IsSelected(quantities, chosen[k].id)
    ensures LinesTotal(NumberLines(chosen, quantities)) == CartTotal(chosen, quantities)
  {
    if chosen != [] {
      var init := chosen[..|chosen| - 1];
      ChosenLinesTotal(init, quantities);
      var lines := NumberLines(chosen, quantities);
      assert lines[..|lines| - 1] == NumberLines(init, quantities);
      var last := chosen[|chosen| - 1];
      assert IsSelected(quantities, last.id);
      assert EntryQuantity(quantities, last.id) == Purchased(quantities, last.id);
    }
  }

  /** How the cart shows an item's name: at most 12 characters, then an ellipsis. */
  function DisplayName(name: string): (r: string)
    ensures |r| <= 13 && (|name| <= 12 ==> r == name)
    ensures |name| > 12 ==> |r| == 13 && r[..12] == name[..12] && r[12] == '\U{2026}'
  {
    Truncate(name, 12)
  }

  // ---------------------------------------------------------------- the screen

  class CartScreen {
    var items: seq<Item>
    var quantities: map<string, string>
    var stockModalVisible: bool
    var stockMessage: string
    var totalCost: int
    var selectedItems: seq<SelectedLine>
    var billModalVisible: bool

    /** Every stored entry is empty or parses, which is all `handleQuantityChange` stores. */
    predicate Valid()
      reads this
    {
      forall id :: id in quantities ==> ValidEntry(quantities[id])
    }

    /** The cart opens on the items it was given, with no quantities typed. */
    constructor(cartItems: seq<Item>)
      ensures Valid()
      ensures items == cartItems && quantities == map[] && totalCost == 0
      ensures selectedItems == [] && !billModalVisible && !stockModalVisible && stockMessage == ""
    {
      items, quantities := cartItems, map[];
      stockModalVisible, stockMessage := false, "";
      totalCost, selectedItems, billModalVisible := 0, [], false;
    }

    /** Typing into an item's quantity field, `max` being its stock. */
    method HandleQuantityChange(id: string, value: string, max: int)
      requires Valid()
      modifies this`quantities, this`stockModalVisible, this`stockMessage
      ensures Valid()
      ensures quantities == old(quantities)[id := SanitizedQuantity(value, max).text]
      ensures SanitizedQuantity(value, max).warning.Some? ==>
                stockModalVisible && stockMessage == SanitizedQuantity(value, max).warning.value
      ensures SanitizedQuantity(value, max).warning.None? ==>
                stockModalVisible == old(stockModalVisible) && stockMessage == old(stockMessage)
    {
      var input := SanitizedQuantity(value, max);
      if input.warning.Some? {
        stockModalVisible, stockMessage := true, input.warning.value;
      }
      quantities := quantities[id := input.text];
    }

    /** Removing an item drops it from the cart and deletes its entry; nothing else changes. */
    method HandleRemove(id: string)
      requires Valid()
      modifies this`items, this`quantities
      ensures Valid()
      ensures items == Storage.RemoveById(old(items), id)
      ensures quantities == old(quantities) - {id}
    {
      items := Storage.RemoveById(items, id);
      quantities := quantities - {id};
    }

    /** The effect that runs whenever the items or the quantities change. */
    method RefreshTotal()
      modifies this`totalCost
      ensures totalCost == CartTotal(items, quantities)
    {
      totalCost := ComputeTotal(items, quantities);
    }

    /** `handleGenerateBill`, with the clock reading and the ISO timestamp as parameters.
        Without a positive quantity nothing happens; otherwise the bill is appended to the
        ledger, the purchased stock is lowered in the stored item list, and the bill's
        lines are shown. */
    method HandleGenerateBill(store: KeyValueStore, now: int, timestamp: string)
      modifies this`selectedItems, this`billModalVisible, store`bills, store`items
      ensures SelectLines(items, quantities) == [] ==>
                store.bills == old(store.bills) && store.items == old(store.items)
                && selectedItems == old(selectedItems) && billModalVisible == old(billModalVisible)
      ensures SelectLines(items, quantities) != [] ==>
                && Bills.GetBills(store) == old(Bills.GetBills(store)) + [MakeBill(SelectLines(items, quantities), now, timestamp)]
                && store.items == Some(ApplyPurchases(old(Storage.GetItems(store)), SelectLines(items, quantities)))
                && selectedItems == SelectLines(items, quantities) && billModalVisible
    {
      var selected := SelectLines(items, quantities);
      if |selected| == 0 {
        return;
      }
      var bill := MakeBill(selected, now, timestamp);
      Bills.SaveBill(store, bill);
      var current := Storage.GetItems(store);
      Storage.SaveItems(store, ApplyPurchases(current, selected));
      selectedItems, billModalVisible := selected, true;
    }
  }
}
