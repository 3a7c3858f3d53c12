/** The sales history (`src/screens/SalesScreen.jsx`): stored bills newest first, a bill
    reopened in the bill pop-up, and clearing the history. */
module SalesScreen {
  import opened Base
  import opened Text
  import opened Numbers
  import opened Seqs
  import opened Records
  import opened KeyValue
  import Bills
  import Cart
  import BillModal

  /** The first `i` bills and the last `i` have been swapped with each other; the middle
      is still as it was. */
  ghost predicate ReversedUpTo(s: seq<Bill>, original: seq<Bill>, i: int) {
    |s| == |original| && 0 <= i && i <= |s| - i
    && (forall k :: 0 <= k < i ==> s[k] == original[|s| - 1 - k] && s[|s| - 1 - k] == original[k])
    && (forall k :: i <= k < |s| - i ==> s[k] == original[k])
  }

  /** Swapping the next pair from both ends extends the reversed part by one. */
  lemma SwapStep(s: seq<Bill>, original: seq<Bill>, i: int)
    requires ReversedUpTo(s, original, i) && i < |s| - 1 - i
    ensures ReversedUpTo(s[i := s[|s| - 1 - i]][|s| - 1 - i := s[i]], original, i + 1)
  {
  }

  /** Once the two ends meet, the whole list is reversed. */
  lemma ReversedWhenEndsMeet(s: seq<Bill>, original: seq<Bill>, i: int)
    requires ReversedUpTo(s, original, i) && i >= |s| - 1 - i
    ensures s == Reversed(original)
  {
    forall k | 0 <= k < |s| ensures s[k] == original[|s| - 1 - k] {
      if i <= k < |s| - i {
        assert k == |s| - 1 - k;
      } else if k >= |s| - i {
        var m := |s| - 1 - k;
        assert s[|s| - 1 - m] == original[m];
      }
    }
  }

  /** `data.reverse()`: the array is reversed in place by swapping from both ends. */
  method ReverseInPlace(a: array<Bill>)
    modifies a
    ensures a[..] == Reversed(old(a[..]))
  {
    ghost var original := a[..];
    var i := 0;
    while i < a.Length - 1 - i
      invariant ReversedUpTo(a[..], original, i)
    {
      var j := a.Length - 1 - i;
      ghost var before := a[..];
      SwapStep(before, original, i);
      var x, y := a[i], a[j];
      a[i] := y;
      a[j] := x;
      assert a[..] == before[i := y][j := x];
      i := i + 1;
    }
    ReversedWhenEndsMeet(a[..], original, i);
  }

  /** The fetched bills in the order the screen lists them. */
  method NewestFirst(stored: seq<Bill>) returns (shown: seq<Bill>)
    ensures shown == Reversed(stored)
  {
    var a := new Bill[|stored|](i requires 0 <= i < |stored| => stored[i]);
    assert a[..] == stored;
    ReverseInPlace(a);
    shown := a[..];
  }

  /** The bill saved last is listed first, ahead of every bill saved before it in reverse order. */
  lemma LatestBillFirst(stored: seq<Bill>, bill: Bill)
    ensures Reversed(stored + [bill]) == [bill] + Reversed(stored)
    ensures Reversed(stored + [bill])[0] == bill
  {
    ReversedOfAppended(stored, bill);
  }

  /** `handleBillClick`'s rows: the bill's lines numbered 1..N in order, with each
      line's quantity and total. */
  function BillRows(bill: Bill): (rows: seq<BillModal.Row>)
    ensures |rows| == |bill.items|
    ensures forall k :: 0 <= k < |rows| ==>
              rows[k] == BillModal.Row(k + 1, bill.items[k].name, bill.items[k].quantity, bill.items[k].total)
  {
    seq(|bill.items|, k requires 0 <= k < |bill.items| =>
      BillModal.Row(k + 1, bill.items[k].name, bill.items[k].quantity, bill.items[k].total))
  }

  /** A reopened bill's rows add up to the sum of its line totals. */
  lemma {:induction false} BillRowsTotal(bill: Bill)
    ensures BillModal.RowsTotal(BillRows(bill)) == BillLinesTotal(bill.items)
    decreases |bill.items|
  {
    if bill.items != [] {
      var shorter := bill.(items := bill.items[..|bill.items| - 1]);
      BillRowsTotal(shorter);
      var rows := BillRows(bill);
      assert rows[..|rows| - 1] == BillRows(shorter);
    }
  }

  /** Reopening a bill the cart generated shows the rows and the total it showed then. */
  lemma ReopenedBill(items: seq<Item>, quantities: map<string, string>, now: int, timestamp: string)
    ensures var lines := Cart.SelectLines(items, quantities);
            var bill := Cart.MakeBill(lines, now, timestamp);
            BillRows(bill) == BillModal.FromCart(lines)
            && BillModal.ModalTotal(Some(BillRows(bill))) == bill.total
  {
    var lines := Cart.SelectLines(items, quantities);
    var bill := Cart.MakeBill(lines, now, timestamp);
    BillRowsTotal(bill);
    Cart.MakeBillTotal(lines, now, timestamp);
  }

  /** A reopened bill lists its lines in order, numbered from 1, with each line's shortened
      name, quantity and total. */
  lemma ReopenedBillShown(bill: Bill)
    ensures |BillModal.ShownRows(BillRows(bill))| == |bill.items|
    ensures forall k :: 0 <= k < |bill.items| ==>
              BillModal.ShownRows(BillRows(bill))[k]
              == BillModal.ShownRow(k + 1, BillModal.DisplayName(bill.items[k].name), bill.items[k].quantity, bill.items[k].total)
  {
  }

  /** A bill the cart generated, reopened, lists exactly the rows the cart's pop-up listed. */
  lemma ReopenedCartBillShown(items: seq<Item>, quantities: map<string, string>, now: int, timestamp: string)
    ensures var lines := Cart.SelectLines(items, quantities);
            BillModal.ShownRows(BillRows(Cart.MakeBill(lines, now, timestamp))) == BillModal.ShownRows(BillModal.FromCart(lines))
  {
    ReopenedBill(items, quantities, now, timestamp);
  }

  /** `item.id.replace('bill_', '')`: the first `bill_` is dropped from the shown id. */
  function DisplayedBillId(id: string): string {
    RemoveFirst(id, "bill_")
  }

  /** A bill the cart generated shows the clock reading it was made at. */
  lemma DisplayedCartBillId(now: int)
    ensures DisplayedBillId(Cart.BillId(now)) == IntToString(now)
  {
    RemoveFirstOfPrefixed("bill_", IntToString(now));
  }

  /** An id without `bill_` in it is shown as it is. */
  lemma DisplayedOtherId(id: string)
    requires !Contains(id, "bill_")
    ensures DisplayedBillId(id) == id
  {
    ContainsIffOccurs(id, "bill_");
  }

  class SalesView {
    var bills: seq<Bill>
    var selectedBillItems: seq<BillModal.Row>
    var billModalVisible: bool
    var confirmVisible: bool

    constructor()
      ensures bills == [] && selectedBillItems == [] && !billModalVisible && !confirmVisible
    {
      bills, selectedBillItems, billModalVisible, confirmVisible := [], [], false, false;
    }

    /** `loadData`: the stored history, newest first. */
    method LoadData(store: KeyValueStore)
      modifies this`bills
      ensures bills == Reversed(Bills.GetBills(store))
    {
      var data := Bills.GetBills(store);
      bills := NewestFirst(data);
    }

    method HandleBillClick(bill: Bill)
      modifies this`selectedBillItems, this`billModalVisible
      ensures selectedBillItems == BillRows(bill) && billModalVisible
    {
      selectedBillItems, billModalVisible := BillRows(bill), true;
    }

    /** The bill pop-up's close button. */
    method CloseBill()
      modifies this`billModalVisible
      ensures !billModalVisible
    {
      billModalVisible := false;
    }

    /** The Clear Sales History button only asks for confirmation. */
    method RequestClear()
      modifies this`confirmVisible
      ensures confirmVisible
    {
      confirmVisible := true;
    }

    /** The confirmation's Cancel button closes it and keeps the history. */
    method CancelClear()
      modifies this`confirmVisible
      ensures !confirmVisible
    {
      confirmVisible := false;
    }

    /** `handleConfirmClear`: the stored ledger is removed, the list shown is empty and
        the confirmation closes. */
    method HandleConfirmClear(store: KeyValueStore)
      modifies this`bills, this`confirmVisible, store`bills
      ensures bills == [] && store.bills == None && Bills.GetBills(store) == []
      ensures !confirmVisible
    {
      Bills.ClearAllBills(store);
      bills := [];
      confirmVisible := false;
    }
  }
}
