/** The bill history (`src/lib/bills.js`): bills are appended to one stored list. */
module Bills {
  import opened Base
  import opened Records
  import opened KeyValue

  /** `getBills`: the stored list, or the empty list when nothing is stored. */
  function GetBills(store: KeyValueStore): seq<Bill>
    reads store
  {
    store.bills.GetOr([])
  }

  /** The stored ledger after one `saveBill`: the fetched list with the bill pushed on. */
  function AfterSave(stored: Option<seq<Bill>>, bill: Bill): Option<seq<Bill>> {
    var bills := stored.GetOr([]);
    Some(bills + [bill])
  }

  /** The stored ledger after saving `saved` one after the other. */
  function AfterSaves(stored: Option<seq<Bill>>, saved: seq<Bill>): Option<seq<Bill>> {
    if saved == [] then stored else AfterSave(AfterSaves(stored, saved[..|saved| - 1]), saved[|saved| - 1])
  }

  /** A run of saves lists every earlier bill unchanged and in order, followed by the saved
      bills in the order they were saved; nothing is merged or rewritten. */
  lemma {:induction false} ListedAfterSaves(stored: Option<seq<Bill>>, saved: seq<Bill>)
    ensures AfterSaves(stored, saved).GetOr([]) == stored.GetOr([]) + saved
  {
    if saved != [] {
      ListedAfterSaves(stored, saved[..|saved| - 1]);
      assert saved == saved[..|saved| - 1] + [saved[|saved| - 1]];
    }
  }

  /** After a clear, `n` saves list exactly those `n` bills, in save order. */
  lemma SavesAfterClear(saved: seq<Bill>)
    ensures AfterSaves(None, saved).GetOr([]) == saved
  {
    ListedAfterSaves(None, saved);
  }

  /** Saving the same bill twice gives two entries. */
  lemma SameBillTwice(stored: Option<seq<Bill>>, bill: Bill)
    ensures AfterSave(AfterSave(stored, bill), bill).GetOr([]) == stored.GetOr([]) + [bill, bill]
  {
    ListedAfterSaves(stored, [bill, bill]);
    assert [bill, bill][..1] == [bill];
    assert [bill][..0] == [];
  }

  /** `saveBill`: the bill is appended after every bill saved before. */
  method SaveBill(store: KeyValueStore, bill: Bill)
    modifies store`bills
    ensures store.bills == AfterSave(old(store.bills), bill)
    ensures GetBills(store) == old(GetBills(store)) + [bill]
  {
    var bills := GetBills(store);
    bills := bills + [bill];
    store.bills := Some(bills);
  }

  /** `clearAllBills`: the key is removed, so the history reads as empty. */
  method ClearAllBills(store: KeyValueStore)
    modifies store`bills
    ensures store.bills == None
    ensures GetBills(store) == []
  {
    store.bills := None;
  }
}
