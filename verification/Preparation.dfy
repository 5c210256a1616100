// Campaign preparation (src/services/message.service.js): selected customers are evaluated batch by batch, every
// selected debt becomes a recipient row, and no customer gets a second row that may be sent.

module Preparation {
  import opened Collections
  import opened CampaignEligibility
  import opened PhoneSafety
  import C = CampaignStatus

  type CustomerId = nat
  type DebtId = nat

  datatype Debt = Debt(id: DebtId, isActive: bool, facts: Facts)

  datatype Customer = Customer(id: CustomerId, debts: seq<Debt>)

  /** The debts named in the campaign's payload. No allowed debt means that all are. */
  datatype Selection = Selection(allowed: set<DebtId>, excluded: set<DebtId>)

  // One debt to prepare.
  datatype Item = Item(customer: CustomerId, debt: DebtId, facts: Facts)

  datatype Status = Pending | Skipped

  datatype Prepared = Prepared(customer: CustomerId, status: Status)

  datatype Entry = Entry(debt: DebtId, row: Prepared)

  predicate Chosen(debt: Debt, selection: Selection) {
    debt.isActive && debt.id !in selection.excluded && (selection.allowed != {} ==> debt.id in selection.allowed)
  }

  // ---------------------------------------------------------------------------------------------
  // Specification
  // ---------------------------------------------------------------------------------------------

  function ItemsOfDebts(customer: CustomerId, debts: seq<Debt>, selection: Selection): seq<Item> {
    if debts == [] then []
    else
      var last := debts[|debts| - 1];
      ItemsOfDebts(customer, debts[..|debts| - 1], selection)
      + (if Chosen(last, selection) then [Item(customer, last.id, last.facts)] else [])
  }

  function Items(customers: seq<Customer>, selection: Selection): seq<Item> {
    if customers == [] then []
    else
      var last := customers[|customers| - 1];
      Items(customers[..|customers| - 1], selection) + ItemsOfDebts(last.id, last.debts, selection)
  }

  function AllItems(batches: seq<seq<Customer>>, selection: Selection): seq<Item> {
    if batches == [] then []
    else AllItems(batches[..|batches| - 1], selection) + Items(batches[|batches| - 1], selection)
  }

  lemma {:induction false} DebtItems(customer: CustomerId, debts: seq<Debt>, selection: Selection, item: Item)
    ensures item in ItemsOfDebts(customer, debts, selection) <==>
              exists d :: d in debts && Wanted(d, selection) && item == Item(customer, d.id, d.facts)
  {
    if debts != [] {
      DebtItems(customer, debts[..|debts| - 1], selection, item);
      assert debts == debts[..|debts| - 1] + [debts[|debts| - 1]];
    }
  }

  // An active debt that is not excluded, and among the allowed ones if there are any.
  predicate Wanted(d: Debt, selection: Selection) {
    d.isActive && !(d.id in selection.excluded) && (|selection.allowed| == 0 || d.id in selection.allowed)
  }

  /** The items are the wanted debts of the customers. */
  lemma {:induction false} ItemsAre(customers: seq<Customer>, selection: Selection, item: Item)
    ensures item in Items(customers, selection) <==>
              exists c, d :: c in customers && d in c.debts && Wanted(d, selection) && item == Item(c.id, d.id, d.facts)
  {
    if customers != [] {
      var last := customers[|customers| - 1];
      ItemsAre(customers[..|customers| - 1], selection, item);
      DebtItems(last.id, last.debts, selection, item);
      assert customers == customers[..|customers| - 1] + [last];
    }
  }

  /** And so over all batches. */
  lemma {:induction false} AllItemsAre(batches: seq<seq<Customer>>, selection: Selection, item: Item)
    ensures item in AllItems(batches, selection) <==>
              exists b, c, d :: b in batches && c in b && d in c.debts && Wanted(d, selection)
                                && item == Item(c.id, d.id, d.facts)
  {
    hide Wanted, Items;
    if batches != [] {
      var last := batches[|batches| - 1];
      AllItemsAre(batches[..|batches| - 1], selection, item);
      ItemsAre(last, selection, item);
      assert batches == batches[..|batches| - 1] + [last];
      forall b ensures b in batches <==> b in batches[..|batches| - 1] || b == last {}
    }
  }

  function CustomersOf(items: seq<Item>): set<CustomerId> {
    set i | 0 <= i < |items| :: items[i].customer
  }

  // The customer of item i was seen before this batch or earlier in it.
  predicate Repeated(items: seq<Item>, seen: set<CustomerId>, i: nat)
    requires i < |items|
  {
    items[i].customer in seen || items[i].customer in CustomersOf(items[..i])
  }

  function RowOf(items: seq<Item>, seen: set<CustomerId>, i: nat): Prepared
    requires i < |items|
  {
    Prepared(items[i].customer, if Eligible(items[i].facts, Repeated(items, seen, i)) then Pending else Skipped)
  }

  function RowsOf(items: seq<Item>, seen: set<CustomerId>): seq<Entry> {
    seq(|items|, i requires 0 <= i < |items| => Entry(items[i].debt, RowOf(items, seen, i)))
  }

  function Upsert(rows: map<DebtId, Prepared>, entries: seq<Entry>): map<DebtId, Prepared> {
    if entries == [] then rows
    else
      var last := entries[|entries| - 1];
      Upsert(rows, entries[..|entries| - 1])[last.debt := last.row]
  }

  /** The campaign's rows after one preparation run over unchanged data. */
  function PreparedRows(items: seq<Item>): map<DebtId, Prepared> {
    Upsert(map[], RowsOf(items, {}))
  }

  function PendingRows(rows: map<DebtId, Prepared>): set<DebtId> {
    set d | d in rows && rows[d].status.Pending?
  }

  // ---------------------------------------------------------------------------------------------
  // The service
  // ---------------------------------------------------------------------------------------------

  class Preparer {
    var rows: map<DebtId, Prepared>   // CampaignRecipient rows of one campaign, keyed by debt
    var seen: set<CustomerId>         // seenCustomerIds
    var eligibleCount: nat
    var skippedCount: nat
    var status: C.Status

    constructor ()
      ensures rows == map[] && seen == {} && eligibleCount == 0 && skippedCount == 0 && status == C.Queued
    {
      rows, seen, eligibleCount, skippedCount, status := map[], {}, 0, 0, C.Queued;
    }

    /** `prepareCampaignCustomerBatch`, whose callers have loaded the template */
    method PrepareBatch(customers: seq<Customer>, selection: Selection)
      modifies this
      ensures rows == Upsert(old(rows), RowsOf(Items(customers, selection), old(seen)))
      ensures seen == old(seen) + CustomersOf(Items(customers, selection))
      ensures eligibleCount + skippedCount == old(eligibleCount) + old(skippedCount) + |Items(customers, selection)|
      ensures status == old(status)
    {
      hide Eligible, Upsert;
      assert Upsert(rows, []) == rows by { UpsertNothing(rows); }
      var recipientRows: seq<Entry> := [];
      ghost var done: seq<Item> := [];
      for i := 0 to |customers|
        invariant done == Items(customers[..i], selection)
        invariant recipientRows == RowsOf(done, old(seen))
        invariant seen == old(seen) + CustomersOf(done)
        invariant unchanged(`rows) && unchanged(`eligibleCount) && unchanged(`skippedCount) && unchanged(`status)
      {
        var customer := customers[i];
        ghost var before := done;
        for k := 0 to |customer.debts|
          invariant done == before + ItemsOfDebts(customer.id, customer.debts[..k], selection)
          invariant recipientRows == RowsOf(done, old(seen))
          invariant seen == old(seen) + CustomersOf(done)
          invariant unchanged(`rows) && unchanged(`eligibleCount) && unchanged(`skippedCount) && unchanged(`status)
        {
          var debt := customer.debts[k];
          assert customer.debts[..k + 1][..k] == customer.debts[..k];
          if Chosen(debt, selection) {
            var evaluation := EvaluateCampaignEligibility(debt.facts, true, customer.id in seen);
            var eligible := evaluation.value.eligible;
            ghost var item := Item(customer.id, debt.id, debt.facts);
            ExtendRows(done, item, old(seen));
            recipientRows := recipientRows
                + [Entry(debt.id, Prepared(customer.id, if eligible then Pending else Skipped))];
            seen := seen + {customer.id};
            done := done + [item];
          }
        }
        assert customer.debts[..|customer.debts|] == customer.debts;
        assert customers[..i + 1][..i] == customers[..i];
      }
      assert customers[..|customers|] == customers;
      for i := 0 to |recipientRows|
        invariant rows == Upsert(old(rows), recipientRows[..i])
        invariant seen == old(seen) + CustomersOf(done) && status == old(status)
        invariant eligibleCount + skippedCount == old(eligibleCount) + old(skippedCount) + i
      {
        UpsertNext(old(rows), recipientRows, i);
        rows := rows[recipientRows[i].debt := recipientRows[i].row];
        if recipientRows[i].row.status.Pending? {
          eligibleCount := eligibleCount + 1;
        } else {
          skippedCount := skippedCount + 1;
        }
      }
      assert recipientRows[..|recipientRows|] == recipientRows;
    }

    /** `processCampaignPreparation`: one run, on a new campaign or on what an interrupted run left behind. The
        campaign ends SCHEDULED exactly when it has a row that may be sent, else FAILED. */
    method ProcessCampaignPreparation(batches: seq<seq<Customer>>, selection: Selection, templateReady: bool)
      modifies this
      ensures !(old(status).Queued? || old(status).Preparing?) ==> status == old(status) && rows == old(rows)
      ensures (old(status).Queued? || old(status).Preparing?) && !templateReady ==> status.Failed? && rows == old(rows)
      ensures (old(status).Queued? || old(status).Preparing?) && templateReady ==>
                && rows == Upsert(old(rows), RowsOf(AllItems(batches, selection), {}))
                && eligibleCount == |PendingRows(rows)|
                && status == if PendingRows(rows) != {} then C.Scheduled else C.Failed
    {
      if !(status.Queued? || status.Preparing?) {
        return;
      }
      status := C.Preparing;
      if !templateReady {
        status := C.Failed;
        return;
      }
      seen := {};
      for i := 0 to |batches|
        invariant rows == Upsert(old(rows), RowsOf(AllItems(batches[..i], selection), {}))
        invariant seen == CustomersOf(AllItems(batches[..i], selection))
      {
        PrepareBatch(batches[i], selection);
        assert batches[..i + 1][..i] == batches[..i];
        BatchesCompose(old(rows), AllItems(batches[..i], selection), Items(batches[i], selection));
      }
      assert batches[..|batches|] == batches;
      eligibleCount := |PendingRows(rows)|;
      skippedCount := |rows| - CountPending(rows);
      status := if eligibleCount > 0 then C.Scheduled else C.Failed;
    }
  }

  function CountPending(rows: map<DebtId, Prepared>): (n: nat)
    ensures n <= |rows|
  {
    PendingAmongRows(rows);
    |PendingRows(rows)|
  }

  lemma PendingAmongRows(rows: map<DebtId, Prepared>)
    ensures |PendingRows(rows)| <= |rows|
  {
    SubsetSize(PendingRows(rows), rows.Keys);
    assert |rows.Keys| == |rows|;
  }

  function NextEntry(items: seq<Item>, item: Item, seen: set<CustomerId>): Entry {
    var duplicate := item.customer in seen + CustomersOf(items);
    Entry(item.debt, Prepared(item.customer, if Eligible(item.facts, duplicate) then Pending else Skipped))
  }

  lemma ExtendRows(items: seq<Item>, item: Item, seen: set<CustomerId>)
    ensures RowsOf(items + [item], seen) == RowsOf(items, seen) + [NextEntry(items, item, seen)]
    ensures CustomersOf(items + [item]) == CustomersOf(items) + {item.customer}
  {
    var longer := items + [item];
    forall i | 0 <= i < |items| ensures RowOf(longer, seen, i) == RowOf(items, seen, i) {
      assert longer[..i] == items[..i];
    }
    assert longer[..|items|] == items;
    assert longer[|items|] == item;
    forall c ensures c in CustomersOf(longer) <==> c in CustomersOf(items) + {item.customer} {
      if c in CustomersOf(items) {
        var i :| 0 <= i < |items| && items[i].customer == c;
        assert longer[i].customer == c;
      }
    }
  }

  // Preparing two batches one after the other is preparing them together.
  lemma {:induction false} BatchesCompose(rows: map<DebtId, Prepared>, first: seq<Item>, second: seq<Item>)
    ensures Upsert(Upsert(rows, RowsOf(first, {})), RowsOf(second, CustomersOf(first)))
         == Upsert(rows, RowsOf(first + second, {}))
    ensures CustomersOf(first + second) == CustomersOf(first) + CustomersOf(second)
    decreases |second|
  {
    if second == [] {
      assert first + second == first;
      assert RowsOf(second, CustomersOf(first)) == [];
    } else {
      var n := |second| - 1;
      var init, last := second[..n], second[n];
      assert second == init + [last];
      assert first + second == first + init + [last];
      BatchesCompose(rows, first, init);
      ExtendRows(init, last, CustomersOf(first));
      ExtendRows(first + init, last, {});
      hide CustomersOf, RowsOf, Upsert;
      UpsertLast(Upsert(rows, RowsOf(first, {})), RowsOf(init, CustomersOf(first)),
                 NextEntry(init, last, CustomersOf(first)));
      UpsertLast(rows, RowsOf(first + init, {}), NextEntry(first + init, last, {}));
    }
  }

  lemma UpsertNothing(rows: map<DebtId, Prepared>)
    ensures Upsert(rows, []) == rows
  {}

  lemma UpsertNext(rows: map<DebtId, Prepared>, entries: seq<Entry>, i: nat)
    requires i < |entries|
    ensures Upsert(rows, entries[..i + 1]) == Upsert(rows, entries[..i])[entries[i].debt := entries[i].row]
  {
    assert entries[..i + 1][..i] == entries[..i];
  }

  lemma UpsertLast(rows: map<DebtId, Prepared>, entries: seq<Entry>, last: Entry)
    ensures Upsert(rows, entries + [last]) == Upsert(rows, entries)[last.debt := last.row]
  {}

  // ---------------------------------------------------------------------------------------------
  // What preparation guarantees
  // ---------------------------------------------------------------------------------------------

  /** Over all batches and debts, a customer has at most one row that may be sent. */
  ghost predicate OnePendingPerCustomer(rows: map<DebtId, Prepared>) {
    forall d, e :: d in PendingRows(rows) && e in PendingRows(rows) && rows[d].customer == rows[e].customer ==> d == e
  }

  lemma {:induction false} PreparationSendsOncePerCustomer(items: seq<Item>)
    ensures OnePendingPerCustomer(PreparedRows(items))
    ensures forall d :: d in PreparedRows(items) ==> PreparedRows(items)[d].customer in CustomersOf(items)
    decreases |items|
  {
    if items != [] {
      var n := |items| - 1;
      assert items == items[..n] + [items[n]];
      PreparationSendsOncePerCustomer(items[..n]);
      ExtendRows(items[..n], items[n], {});
      UpsertLast(map[], RowsOf(items[..n], {}), RowsOf(items, {})[n]);
    }
  }

  /** When debts are not repeated, a row may be sent exactly if it is its customer's first one and no rule
      speaks against it. */
  lemma {:induction false} PendingExactlyFirstEligible(items: seq<Item>, i: nat)
    requires i < |items|
    requires forall j, k :: 0 <= j < k < |items| ==> items[j].debt != items[k].debt
    ensures var rows := PreparedRows(items);
            && items[i].debt in rows && rows[items[i].debt].customer == items[i].customer
            && (rows[items[i].debt].status.Pending? <==>
                  Eligible(items[i].facts, false) && items[i].customer !in CustomersOf(items[..i]))
    decreases |items|
  {
    var n := |items| - 1;
    assert items == items[..n] + [items[n]];
    ExtendRows(items[..n], items[n], {});
    UpsertLast(map[], RowsOf(items[..n], {}), RowsOf(items, {})[n]);
    if i < n {
      PendingExactlyFirstEligible(items[..n], i);
      assert items[..n][..i] == items[..i];
    }
  }

  /** A campaign prepared while its phone is blocked gets no row that may be sent. */
  lemma {:induction false} BlockedPhoneLeavesNothingPending(items: seq<Item>)
    requires forall i :: 0 <= i < |items| ==> !Safe(items[i].facts.phone)
    ensures PendingRows(PreparedRows(items)) == {}
    decreases |items|
  {
    if items != [] {
      var n := |items| - 1;
      assert items == items[..n] + [items[n]];
      BlockedPhoneLeavesNothingPending(items[..n]);
      ExtendRows(items[..n], items[n], {});
      UpsertLast(map[], RowsOf(items[..n], {}), RowsOf(items, {})[n]);
      forall d | d in PreparedRows(items) ensures !PreparedRows(items)[d].status.Pending? {
        if d != items[n].debt {
          assert d !in PendingRows(PreparedRows(items[..n]));
        }
      }
    }
  }

  lemma {:induction false} UpsertCovers(rows: map<DebtId, Prepared>, other: map<DebtId, Prepared>, entries: seq<Entry>,
                                        d: DebtId)
    requires exists i :: 0 <= i < |entries| && entries[i].debt == d
    ensures d in Upsert(rows, entries) && d in Upsert(other, entries)
    ensures Upsert(rows, entries)[d] == Upsert(other, entries)[d]
    decreases |entries|
  {
    var n := |entries| - 1;
    if entries[n].debt != d {
      var i :| 0 <= i < |entries| && entries[i].debt == d;
      assert entries[..n][i].debt == d;
      UpsertCovers(rows, other, entries[..n], d);
    }
  }

  lemma {:induction false} UpsertKeys(rows: map<DebtId, Prepared>, entries: seq<Entry>, d: DebtId)
    ensures d in Upsert(rows, entries) <==> d in rows || exists i :: 0 <= i < |entries| && entries[i].debt == d
    decreases |entries|
  {
    if entries != [] {
      var n := |entries| - 1;
      UpsertKeys(rows, entries[..n], d);
      if i :| 0 <= i < n && entries[i].debt == d {
        assert entries[..n][i].debt == d;
      }
    }
  }

  /** A run that stopped anywhere and is retried over unchanged data ends with the same rows. */
  lemma RetriedPreparationAgrees(items: seq<Item>, done: nat)
    requires done <= |items|
    ensures Upsert(PreparedRows(items[..done]), RowsOf(items, {})) == PreparedRows(items)
  {
    var entries := RowsOf(items, {});
    var retried := Upsert(PreparedRows(items[..done]), entries);
    forall d ensures d in retried <==> d in PreparedRows(items) {
      UpsertKeys(PreparedRows(items[..done]), entries, d);
      UpsertKeys(map[], RowsOf(items[..done], {}), d);
      UpsertKeys(map[], entries, d);
      if i :| 0 <= i < done && RowsOf(items[..done], {})[i].debt == d {
        assert entries[i].debt == d;
      }
    }
    forall d | d in retried ensures retried[d] == PreparedRows(items)[d] {
      UpsertKeys(map[], entries, d);
      UpsertCovers(PreparedRows(items[..done]), map[], entries, d);
    }
  }
}
