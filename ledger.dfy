/** The `MatsyaHisab` ledger: the expense list and the operations that change it
    (daily entry, invoice save, delete, and the in-place sort of the dashboard's
    recent-entries table). */
module Ledger {
  import opened Seqs
  import opened Dates
  import opened Records
  import opened Invoice
  import opened Recent
  import opened Aggregate
  import opened Decimal

  // ---------------------------------------------------------------------------
  // The daily form

  /** One amount field of the daily form: its category and its item label. */
  datatype FormLine = FormLine(category: Category, item: string)

  /** The fifteen amount fields of the daily form, in the order `Object.keys`
      visits them: the five categories in declared order, then each
      category's items in declared order. */
  const DailyLines: seq<FormLine> := [
    FormLine(Packaging, "ককশীট"),
    FormLine(Packaging, "পলি"),
    FormLine(Packaging, "টেপ"),
    FormLine(Packaging, "মার্কার"),
    FormLine(Packaging, "কলাপাতা"),
    FormLine(Storage, "বরফ"),
    FormLine(Labor, "শ্রমিক"),
    FormLine(Labor, "শ্রমিক যাতায়াত ভাড়া"),
    FormLine(Labor, "বকশিস"),
    FormLine(Labor, "শ্রমিক নাস্তা"),
    FormLine(Transport, "গাড়ি ভাড়া মাছ আনা"),
    FormLine(Transport, "গাড়ি ভাড়া বরফ আনা"),
    FormLine(Transport, "গাড়ি ভাড়া BFT"),
    FormLine(Other, "অন্যান্য"),
    FormLine(Other, "শেড খরচ")
  ]

  /** A filled-in daily form: one parsed amount per line and the id the clock
      would give a record made from that line. */
  predicate FormShape(amounts: seq<real>, ids: seq<Id>) {
    |amounts| == |DailyLines| && |ids| == |DailyLines|
  }

  /** The record `saveDailyEntry` makes from line `i`. */
  function LineRecord(date: Date, amounts: seq<real>, ids: seq<Id>, i: nat): Expense
    requires FormShape(amounts, ids) && i < |DailyLines|
  {
    Expense(ids[i], date, DailyLines[i].category, DailyLines[i].item, amounts[i], None, None, None, None)
  }

  /** The indices of the first `n` lines whose amount is positive, in order. */
  function PositiveLines(amounts: seq<real>, n: nat): seq<nat>
    requires n <= |amounts|
  {
    if n == 0 then []
    else PositiveLines(amounts, n - 1) + (if amounts[n - 1] > 0.0 then [n - 1] else [])
  }

  /** The records the first `n` lines yield. */
  function DailyEntriesUpTo(date: Date, amounts: seq<real>, ids: seq<Id>, n: nat): (r: seq<Expense>)
    requires FormShape(amounts, ids) && n <= |DailyLines|
    ensures |r| <= n
    ensures forall k :: 0 <= k < |r| ==> r[k].date == date && r[k].amount > 0.0
  {
    if n == 0 then []
    else
      DailyEntriesUpTo(date, amounts, ids, n - 1)
      + (if amounts[n - 1] > 0.0 then [LineRecord(date, amounts, ids, n - 1)] else [])
  }

  /** The `entries` array `saveDailyEntry` builds. */
  function DailyEntries(date: Date, amounts: seq<real>, ids: seq<Id>): (r: seq<Expense>)
    requires FormShape(amounts, ids)
    ensures |r| <= |DailyLines|
    ensures forall k :: 0 <= k < |r| ==> r[k].date == date && r[k].amount > 0.0
  {
    DailyEntriesUpTo(date, amounts, ids, |DailyLines|)
  }

  /** The positive lines are exactly the lines with a positive amount, listed
      once each, in form order. */
  lemma {:induction false} PositiveLinesSpec(amounts: seq<real>, n: nat)
    requires n <= |amounts|
    ensures forall k :: 0 <= k < |PositiveLines(amounts, n)| ==> PositiveLines(amounts, n)[k] < n
    ensures forall i :: 0 <= i < n ==> (i in PositiveLines(amounts, n) <==> amounts[i] > 0.0)
    ensures forall a, b :: 0 <= a < b < |PositiveLines(amounts, n)| ==>
      PositiveLines(amounts, n)[a] < PositiveLines(amounts, n)[b]
  {
    if n > 0 {
      PositiveLinesSpec(amounts, n - 1);
      var p := PositiveLines(amounts, n - 1);
      var tail: seq<nat> := if amounts[n - 1] > 0.0 then [n - 1] else [];
      assert PositiveLines(amounts, n) == p + tail;
      forall i | 0 <= i < n
        ensures i in PositiveLines(amounts, n) <==> amounts[i] > 0.0
      {
        if i < n - 1 {
          assert i in p <==> i in p + tail;
        }
      }
    }
  }

  /** Record k of the entries is made from the k-th positive line. */
  lemma {:induction false} DailyEntriesFollowLines(date: Date, amounts: seq<real>, ids: seq<Id>, n: nat)
    requires FormShape(amounts, ids) && n <= |DailyLines|
    ensures |DailyEntriesUpTo(date, amounts, ids, n)| == |PositiveLines(amounts, n)|
    ensures forall k :: 0 <= k < |PositiveLines(amounts, n)| ==>
      PositiveLines(amounts, n)[k] < |DailyLines| &&
      DailyEntriesUpTo(date, amounts, ids, n)[k] == LineRecord(date, amounts, ids, PositiveLines(amounts, n)[k])
  {
    if n > 0 {
      DailyEntriesFollowLines(date, amounts, ids, n - 1);
      PositiveLinesSpec(amounts, n - 1);
    }
  }

  /** `saveDailyEntry` makes exactly one record per line with a positive amount,
      in form order, each carrying the entry date, that line's category and
      item, and its amount; no other record. The entries are well formed. */
  lemma DailyEntrySpec(date: Date, amounts: seq<real>, ids: seq<Id>)
    requires FormShape(amounts, ids)
    ensures var entries := DailyEntries(date, amounts, ids);
      var lines := PositiveLines(amounts, |DailyLines|);
      && (forall i :: 0 <= i < |DailyLines| ==> (i in lines <==> amounts[i] > 0.0))
      && (forall a, b :: 0 <= a < b < |lines| ==> lines[a] < lines[b])
      && |entries| == |lines|
      && (forall k :: 0 <= k < |entries| ==>
            lines[k] < |DailyLines|
            && entries[k].id == ids[lines[k]]
            && entries[k].date == date
            && entries[k].category == DailyLines[lines[k]].category
            && entries[k].item == DailyLines[lines[k]].item
            && entries[k].amount == amounts[lines[k]] > 0.0
            && entries[k].invoiceId.None?)
      && AllWellFormed(entries)
  {
    PositiveLinesSpec(amounts, |DailyLines|);
    DailyEntriesFollowLines(date, amounts, ids, |DailyLines|);
  }

  /** There are no entries, and so the error notice, exactly when no amount
      is positive. */
  lemma DailyEntriesEmpty(date: Date, amounts: seq<real>, ids: seq<Id>)
    requires FormShape(amounts, ids)
    ensures DailyEntries(date, amounts, ids) == [] <==> forall i :: 0 <= i < |DailyLines| ==> amounts[i] <= 0.0
  {
    var lines := PositiveLines(amounts, |DailyLines|);
    PositiveLinesSpec(amounts, |DailyLines|);
    DailyEntriesFollowLines(date, amounts, ids, |DailyLines|);
    if |lines| > 0 {
      assert lines[0] in lines;
    }
    if exists i :: 0 <= i < |DailyLines| && amounts[i] > 0.0 {
      var i :| 0 <= i < |DailyLines| && amounts[i] > 0.0;
      assert i in lines;
    }
  }

  /** The nested `forEach` of `saveDailyEntry` that fills `entries`. */
  method CollectDailyEntries(date: Date, amounts: seq<real>, ids: seq<Id>) returns (entries: seq<Expense>)
    requires FormShape(amounts, ids)
    ensures entries == DailyEntries(date, amounts, ids)
  {
    entries := [];
    var i := 0;
    while i < |DailyLines|
      invariant 0 <= i <= |DailyLines|
      invariant entries == DailyEntriesUpTo(date, amounts, ids, i)
    {
      var amount := amounts[i];
      if amount > 0.0 {
        entries := entries + [Expense(ids[i], date, DailyLines[i].category, DailyLines[i].item, amount,
                                      None, None, None, None)];
      }
      i := i + 1;
    }
  }

  // ---------------------------------------------------------------------------
  // Invoice records

  /** The record `saveInvoice` makes from one kept invoice line. */
  function InvoiceRecord(item: InvoiceItem, invoiceId: string, date: Date, id: Id): Expense {
    Expense(id, date, item.category, item.name, item.total,
            Some(item.quantity), Some(item.unitPrice), Some(item.unit), Some(invoiceId))
  }

  /** The records `saveInvoice` pushes, one per kept line, the k-th with id `ids[k]`. */
  function InvoiceRecords(items: seq<InvoiceItem>, invoiceId: string, date: Date, ids: seq<Id>): (r: seq<Expense>)
    requires |items| <= |ids|
    ensures |r| == |items|
  {
    if items == [] then []
    else
      InvoiceRecords(items[..|items| - 1], invoiceId, date, ids)
      + [InvoiceRecord(items[|items| - 1], invoiceId, date, ids[|items| - 1])]
  }

  /** Every record of an invoice carries its number and its date and has
      amount = quantity × unit price, taken from its line. */
  lemma InvoiceRecordsShape(items: seq<InvoiceItem>, invoiceId: string, date: Date, ids: seq<Id>)
    requires |items| <= |ids|
    requires forall k :: 0 <= k < |items| ==> ValidItem(items[k])
    ensures var recs := InvoiceRecords(items, invoiceId, date, ids);
      && AllWellFormed(recs)
      && (forall k :: 0 <= k < |recs| ==>
            && recs[k].invoiceId == Some(invoiceId)
            && recs[k].date == date
            && recs[k].id == ids[k]
            && recs[k].category == items[k].category
            && recs[k].item == items[k].name
            && recs[k].quantity == Some(items[k].quantity)
            && recs[k].unitPrice == Some(items[k].unitPrice)
            && recs[k].unit == Some(items[k].unit)
            && recs[k].amount == items[k].quantity * items[k].unitPrice > 0.0)
  {
    if items != [] {
      InvoiceRecordsAt(items, invoiceId, date, ids);
    }
  }

  lemma {:induction false} InvoiceRecordsAt(items: seq<InvoiceItem>, invoiceId: string, date: Date, ids: seq<Id>)
    requires |items| <= |ids|
    ensures forall k :: 0 <= k < |items| ==>
      InvoiceRecords(items, invoiceId, date, ids)[k] == InvoiceRecord(items[k], invoiceId, date, ids[k])
  {
    if items != [] {
      var init := items[..|items| - 1];
      InvoiceRecordsAt(init, invoiceId, date, ids);
    }
  }

  /** The records of one saved invoice come one per kept row, in row order:
      the row's category, its trimmed name, its quantity and its unit price,
      with the invoice number and date. None are made exactly when no row passes. */
  lemma InvoiceRecordsSpec(rows: seq<InvoiceRow>, invoiceId: string, date: Date, ids: seq<Id>)
    requires |ids| == |rows|
    ensures var kept := Filter(rows, KeepTest());
      var recs := InvoiceRecords(KeptItems(rows), invoiceId, date, ids);
      && |recs| == |kept|
      && AllWellFormed(recs)
      && (forall k :: 0 <= k < |recs| ==>
            && recs[k].invoiceId == Some(invoiceId)
            && recs[k].date == date
            && Some(recs[k].category) == kept[k].category
            && recs[k].item == Trim(kept[k].name)
            && recs[k].quantity == Some(kept[k].quantity)
            && recs[k].unitPrice == Some(kept[k].unitPrice)
            && recs[k].amount == kept[k].quantity * kept[k].unitPrice)
      && (recs == [] <==> forall j :: 0 <= j < |rows| ==> !KeepRow(rows[j]))
  {
    KeptItemsAreKeptRows(rows);
    KeptItemsEmpty(rows);
    InvoiceRecordsShape(KeptItems(rows), invoiceId, date, ids);
  }

  lemma InvoiceRecordsPrefix(items: seq<InvoiceItem>, invoiceId: string, date: Date, ids: seq<Id>, k: nat)
    requires k < |items| <= |ids|
    ensures InvoiceRecords(items[..k + 1], invoiceId, date, ids)
         == InvoiceRecords(items[..k], invoiceId, date, ids) + [InvoiceRecord(items[k], invoiceId, date, ids[k])]
  {
    assert items[..k + 1][..k] == items[..k];
  }

  /** Saving an invoice with a non-empty number advances the invoice counter by
      the number of its lines, not by one: `generateInvoiceNumber` counts records. */
  lemma InvoiceCountAfterSave(s: seq<Expense>, items: seq<InvoiceItem>, invoiceId: string, date: Date, ids: seq<Id>)
    requires |items| <= |ids| && invoiceId != []
    ensures InvoicedCount(s + InvoiceRecords(items, invoiceId, date, ids)) == InvoicedCount(s) + |items|
  {
    var recs := InvoiceRecords(items, invoiceId, date, ids);
    FilterAppend(s, recs, InvoiceTest());
    InvoiceRecordsAt(items, invoiceId, date, ids);
    FilterAllPass(recs, InvoiceTest());
  }

  /** Daily entries carry no invoice number, so they never move the counter. */
  lemma InvoiceCountAfterDailyEntry(s: seq<Expense>, date: Date, amounts: seq<real>, ids: seq<Id>)
    requires FormShape(amounts, ids)
    ensures InvoicedCount(s + DailyEntries(date, amounts, ids)) == InvoicedCount(s)
  {
    var entries := DailyEntries(date, amounts, ids);
    DailyEntrySpec(date, amounts, ids);
    FilterAppend(s, entries, InvoiceTest());
    FilterNonePass(entries, InvoiceTest());
  }

  /** A daily entry dated in month `m` of year `y` raises that month's total by
      exactly the sum of the amounts entered, and leaves every other month's
      total as it was. */
  lemma MonthTotalAfterDailyEntry(s: seq<Expense>, date: Date, amounts: seq<real>, ids: seq<Id>, m: int, y: int)
    requires FormShape(amounts, ids)
    ensures SumByMonth(s + DailyEntries(date, amounts, ids), m, y)
         == SumByMonth(s, m, y) + (if InMonth(date, m, y) then Sum(DailyEntries(date, amounts, ids)) else 0.0)
  {
    var entries := DailyEntries(date, amounts, ids);
    DailyEntrySpec(date, amounts, ids);
    FilterAppend(s, entries, MonthTest(m, y));
    SumAppend(MonthRecords(s, m, y), MonthRecords(entries, m, y));
    if InMonth(date, m, y) {
      FilterAllPass(entries, MonthTest(m, y));
    } else {
      FilterNonePass(entries, MonthTest(m, y));
    }
  }

  /** The numbers proposed in June 2025 all start with `INV-202506-`. */
  lemma JuneNumber(s: seq<Expense>)
    ensures InvoiceNumber(s, 2025, 6) == "INV-202506-" + PadStart(NatToString(InvoicedCount(s) + 1), 3, '0')
  {
    assert NatToString(2025) == "2025" by {
      assert NatToString(2) == "2";
      assert NatToString(20) == "20";
      assert NatToString(202) == "202";
    }
    assert PadStart(NatToString(6), 2, '0') == "06";
  }

  lemma SingleDigitSequence(n: nat)
    requires 1 <= n <= 9
    ensures PadStart(NatToString(n), 3, '0') == "00" + [DigitChar(n)]
  {
    assert Repeat('0', 2) == "00";
  }

  /** The ledger holding one invoiced record: the next number for June 2025 is
      `INV-202506-002`. */
  lemma InvoiceNumberScenario(e: Expense)
    requires e.invoiceId == Some("INV-202506-001")
    ensures InvoiceNumber([e], 2025, 6) == "INV-202506-002"
  {
    assert [e][1..] == [];
    assert InvoicedCount([e]) == 1;
    JuneNumber([e]);
    SingleDigitSequence(2);
  }

  /** One saved invoice of two lines makes the next number end in `003`, not
      `002`: the counter counts invoiced records, not invoices. */
  lemma InvoiceNumberCountsRecords(item1: InvoiceItem, item2: InvoiceItem, date: Date, ids: seq<Id>)
    requires |ids| >= 2
    ensures var recs := InvoiceRecords([item1, item2], "INV-202506-001", date, ids);
      InvoiceNumber(recs, 2025, 6) == "INV-202506-003"
  {
    var recs := InvoiceRecords([item1, item2], "INV-202506-001", date, ids);
    InvoiceCountAfterSave([], [item1, item2], "INV-202506-001", date, ids);
    assert [] + recs == recs;
    assert InvoicedCount(recs) == 2;
    JuneNumber(recs);
    SingleDigitSequence(3);
  }

  // ---------------------------------------------------------------------------
  // Delete

  function IdTest(id: Id): Expense -> bool {
    (e: Expense) => e.id != id
  }

  /** `this.expenses.filter(exp => exp.id != id)`. */
  function WithoutId(s: seq<Expense>, id: Id): (r: seq<Expense>)
    ensures forall e :: e in r ==> e in s && e.id != id
  {
    Filter(s, IdTest(id))
  }

  /** Deleting removes exactly the records with that id, keeps every other record
      as often as it occurred and in its order, and deleting again changes
      nothing. An id that is not stored deletes nothing. */
  lemma DeleteSpec(s: seq<Expense>, id: Id, x: Expense)
    ensures x in WithoutId(s, id) <==> x in s && x.id != id
    ensures multiset(WithoutId(s, id))[x] == if x.id == id then 0 else multiset(s)[x]
    ensures IsSubsequence(WithoutId(s, id), s)
    ensures WithoutId(WithoutId(s, id), id) == WithoutId(s, id)
    ensures (forall i :: 0 <= i < |s| ==> s[i].id != id) ==> WithoutId(s, id) == s
  {
    FilterMembership(s, IdTest(id), x);
    FilterMultiset(s, IdTest(id), x);
    FilterIsSubsequence(s, IdTest(id));
    FilterIdempotent(s, IdTest(id));
    if forall i :: 0 <= i < |s| ==> s[i].id != id {
      FilterAllPass(s, IdTest(id));
    }
  }

  // ---------------------------------------------------------------------------
  // The ledger object

  /** The part of `MatsyaHisab` that holds data: the expense list in memory and
      the copy last written to storage. Every operation that changes the list
      saves it and then refreshes the dashboard, whose recent-entries table
      sorts the list in place, newest first; so between operations the list in
      memory is the saved list, sorted. */
  class MatsyaHisab {
    /** `this.expenses`. */
    var expenses: seq<Expense>
    /** What `saveExpenses` last wrote under `matsyaHisabExpenses`. */
    var persisted: seq<Expense>

    ghost predicate Valid()
      reads this
    {
      expenses == SortByDateDesc(persisted)
    }

    /** The list in memory is newest first and holds the saved records. */
    lemma ValidSorted()
      requires Valid()
      ensures SortedNewestFirst(expenses)
      ensures multiset(expenses) == multiset(persisted)
    {
      SortSpec(persisted);
    }

    /** `loadExpenses` from the stored list, then `init`, whose dashboard refresh
        sorts the list. */
    constructor (stored: seq<Expense>, today: Date)
      ensures Valid()
      ensures persisted == stored
      ensures expenses == SortByDateDesc(stored)
    {
      expenses := stored;
      persisted := stored;
      new;
      var _, _ := UpdateDashboard(today);
    }

    /** `saveExpenses`. */
    method SaveExpenses()
      modifies this`persisted
      ensures persisted == expenses
    {
      persisted := expenses;
    }

    /** `updateRecentEntries`: sorts the list in place, newest first (stable),
        and returns the first ten records for the table. */
    method UpdateRecentEntries() returns (recent: seq<Expense>)
      modifies this`expenses
      ensures expenses == SortByDateDesc(old(expenses))
      ensures recent == Newest(expenses)
    {
      expenses := SortByDateDesc(expenses);
      recent := Newest(expenses);
    }

    /** `updateDashboard` for the clock's date `today`: the three cards, summed
        over the list as it stands, then the recent-entries table, which sorts
        the list in place. The cards do not depend on the sort. A list just
        saved, or one already in the invariant, ends in the invariant. */
    method UpdateDashboard(today: Date) returns (cards: DashboardTotals, recent: seq<Expense>)
      modifies this`expenses
      ensures unchanged(this`persisted)
      ensures expenses == SortByDateDesc(old(expenses))
      ensures cards == Dashboard(old(expenses), today) == Dashboard(expenses, today)
      ensures recent == Newest(expenses)
      ensures old(expenses) == persisted || old(Valid()) ==> Valid()
    {
      cards := Dashboard(expenses, today);
      SortSpec(expenses);
      DashboardPermutation(expenses, SortByDateDesc(expenses), today);
      SortIdempotent(persisted);
      recent := UpdateRecentEntries();
    }

    /** `saveDailyEntry`. With no positive amount it reports an error (count 0)
        and changes nothing. Otherwise the new records are appended after the
        existing ones, saved, and the list is re-sorted; `count` is the number
        of records made, shown in the success notice. */
    method SaveDailyEntry(date: Date, amounts: seq<real>, ids: seq<Id>, today: Date) returns (count: nat)
      requires Valid() && FormShape(amounts, ids)
      modifies this
      ensures Valid()
      ensures count == |DailyEntries(date, amounts, ids)|
      ensures count == 0 <==> forall i :: 0 <= i < |DailyLines| ==> amounts[i] <= 0.0
      ensures count == 0 ==> expenses == old(expenses) && persisted == old(persisted)
      ensures count > 0 ==> persisted == old(expenses) + DailyEntries(date, amounts, ids)
    {
      var entries := CollectDailyEntries(date, amounts, ids);
      DailyEntriesEmpty(date, amounts, ids);
      if |entries| == 0 {
        return 0;
      }
      expenses := expenses + entries;
      SaveExpenses();
      count := |entries|;
      var _, _ := UpdateDashboard(today);
    }

    /** `saveInvoice`: the kept lines of the form, each pushed as one record
        carrying the invoice number and date. With no kept line it reports an
        error (count 0) and changes nothing. */
    method SaveInvoice(invoiceId: string, date: Date, rows: seq<InvoiceRow>, ids: seq<Id>, today: Date) returns (count: nat)
      requires Valid() && |ids| == |rows|
      modifies this
      ensures Valid()
      ensures count == |KeptItems(rows)|
      ensures count == 0 <==> forall j :: 0 <= j < |rows| ==> !KeepRow(rows[j])
      ensures count == 0 ==> expenses == old(expenses) && persisted == old(persisted)
      ensures count > 0 ==> persisted == old(expenses) + InvoiceRecords(KeptItems(rows), invoiceId, date, ids)
    {
      var items := CollectInvoiceData(rows);
      KeptItemsEmpty(rows);
      if |items| == 0 {
        return 0;
      }
      assert |items| <= |ids| by {
        KeptItemsAreKeptRows(rows);
      }
      PushInvoiceRecords(items, invoiceId, date, ids);
      SaveExpenses();
      count := |items|;
      var _, _ := UpdateDashboard(today);
    }

    /** The `forEach` of `saveInvoice` that pushes one record per kept line. */
    method PushInvoiceRecords(items: seq<InvoiceItem>, invoiceId: string, date: Date, ids: seq<Id>)
      requires |items| <= |ids|
      modifies this`expenses
      ensures expenses == old(expenses) + InvoiceRecords(items, invoiceId, date, ids)
    {
      var k := 0;
      while k < |items|
        invariant 0 <= k <= |items|
        invariant expenses == old(expenses) + InvoiceRecords(items[..k], invoiceId, date, ids)
      {
        InvoiceRecordsPrefix(items, invoiceId, date, ids, k);
        expenses := expenses + [InvoiceRecord(items[k], invoiceId, date, ids[k])];
        k := k + 1;
      }
      assert items[..k] == items;
    }

    /** `deleteEntry(id)`. Without confirmation nothing changes; with it every
        record with that id is removed and the rest are saved in their order.
        The list stays sorted, so the refresh leaves it as saved. */
    method DeleteEntry(id: Id, confirmed: bool, today: Date)
      requires Valid()
      modifies this
      ensures Valid()
      ensures !confirmed ==> expenses == old(expenses) && persisted == old(persisted)
      ensures confirmed ==> persisted == WithoutId(old(expenses), id) && expenses == persisted
    {
      if confirmed {
        ValidSorted();
        expenses := WithoutId(expenses, id);
        SaveExpenses();
        FilterKeepsSorted(old(expenses), IdTest(id));
        SortSortedIsIdentity(expenses);
        var _, _ := UpdateDashboard(today);
      }
    }
  }
}
