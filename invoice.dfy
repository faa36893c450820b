/** The invoice form: which rows become invoice lines, and the invoice number
    `INV-YYYYMM-NNN` proposed for the next invoice. */
module Invoice {
  import opened Seqs
  import opened Records
  import opened Decimal

  // ---------------------------------------------------------------------------
  // Rows of the invoice form

  /** One row of the form as read from its inputs: the category select (`None`
      for the empty choice), the raw name text, the parsed quantity and unit
      price (`parseFloat(...) || 0`), and the unit select. */
  datatype InvoiceRow = InvoiceRow(
    category: Option<Category>,
    name: string,
    quantity: real,
    unit: string,
    unitPrice: real)

  /** One invoice line kept by `collectInvoiceData`. */
  datatype InvoiceItem = InvoiceItem(
    category: Category,
    name: string,
    quantity: real,
    unit: string,
    unitPrice: real,
    total: real)

  /** The characters `String.prototype.trim` removes: white space and line terminators. */
  predicate IsSpace(c: char) {
    var n := c as int;
    n == 0x09 || n == 0x0A || n == 0x0B || n == 0x0C || n == 0x0D || n == 0x20
    || n == 0xA0 || n == 0x1680 || (0x2000 <= n <= 0x200A) || n == 0x2028 || n == 0x2029
    || n == 0x202F || n == 0x205F || n == 0x3000 || n == 0xFEFF
  }

  function TrimStart(s: string): (r: string)
    ensures |r| <= |s| && r == s[|s| - |r|..]
    ensures forall i :: 0 <= i < |s| - |r| ==> IsSpace(s[i])
    ensures r == [] || !IsSpace(r[0])
  {
    if s != [] && IsSpace(s[0]) then TrimStart(s[1..]) else s
  }

  function TrimEnd(s: string): (r: string)
    ensures |r| <= |s| && r == s[..|r|]
    ensures forall i :: |r| <= i < |s| ==> IsSpace(s[i])
    ensures r == [] || !IsSpace(r[|r| - 1])
  {
    if s != [] && IsSpace(s[|s| - 1]) then TrimEnd(s[..|s| - 1]) else s
  }

  /** `trim()`: the text without leading and trailing white space. */
  function Trim(s: string): string {
    TrimEnd(TrimStart(s))
  }

  /** A name trims to the empty string exactly when it holds nothing but white
      space; otherwise the trimmed name neither starts nor ends with white space. */
  lemma TrimSpec(s: string)
    ensures Trim(s) == [] <==> forall i :: 0 <= i < |s| ==> IsSpace(s[i])
    ensures Trim(s) != [] ==> !IsSpace(Trim(s)[0]) && !IsSpace(Trim(s)[|Trim(s)| - 1])
    ensures Trim(Trim(s)) == Trim(s)
  {
    var a := TrimStart(s);
    var b := TrimEnd(a);
    if b == [] {
      assert a == [];
    }
    if b != [] {
      assert b[0] == a[0];
    }
  }

  /** The test of `collectInvoiceData`: a category is chosen, the trimmed name is
      not empty, and quantity and unit price are both positive. */
  predicate KeepRow(row: InvoiceRow) {
    row.category.Some? && Trim(row.name) != [] && row.quantity > 0.0 && row.unitPrice > 0.0
  }

  function ToItem(row: InvoiceRow): InvoiceItem
    requires KeepRow(row)
  {
    InvoiceItem(row.category.value, Trim(row.name), row.quantity, row.unit, row.unitPrice,
                row.quantity * row.unitPrice)
  }

  /** What every kept line satisfies. */
  predicate ValidItem(item: InvoiceItem) {
    item.name != [] && item.quantity > 0.0 && item.unitPrice > 0.0
    && item.total == item.quantity * item.unitPrice && item.total > 0.0
  }

  /** The lines kept from `rows`, in row order. */
  function KeptItems(rows: seq<InvoiceRow>): (items: seq<InvoiceItem>)
    ensures |items| <= |rows|
    ensures forall i :: 0 <= i < |items| ==> ValidItem(items[i])
  {
    if rows == [] then []
    else
      var last := rows[|rows| - 1];
      KeptItems(rows[..|rows| - 1]) + (if KeepRow(last) then [ToItem(last)] else [])
  }

  /** The rows that pass, one kept line each, in order. */
  lemma {:induction false} KeptItemsAreKeptRows(rows: seq<InvoiceRow>)
    ensures |KeptItems(rows)| == |Filter(rows, KeepTest())|
    ensures forall k :: 0 <= k < |KeptItems(rows)| ==>
      KeepRow(Filter(rows, KeepTest())[k]) && KeptItems(rows)[k] == ToItem(Filter(rows, KeepTest())[k])
  {
    if rows != [] {
      var init := rows[..|rows| - 1];
      var last := rows[|rows| - 1];
      KeptItemsAreKeptRows(init);
      assert rows == init + [last];
      FilterAppend(init, [last], KeepTest());
      var pass0 := Filter(init, KeepTest());
      var items0 := KeptItems(init);
      assert Filter([last], KeepTest()) == if KeepRow(last) then [last] else [];
      if KeepRow(last) {
        assert Filter(rows, KeepTest()) == pass0 + [last];
        assert KeptItems(rows) == items0 + [ToItem(last)];
      } else {
        assert Filter(rows, KeepTest()) == pass0;
        assert KeptItems(rows) == items0;
      }
    }
  }

  /** No line is kept exactly when no row passes the test. */
  lemma {:induction false} KeptItemsEmpty(rows: seq<InvoiceRow>)
    ensures KeptItems(rows) == [] <==> forall j :: 0 <= j < |rows| ==> !KeepRow(rows[j])
  {
    if rows != [] {
      var init := rows[..|rows| - 1];
      KeptItemsEmpty(init);
      assert forall j :: 0 <= j < |init| ==> init[j] == rows[j];
    }
  }

  function KeepTest(): InvoiceRow -> bool {
    (row: InvoiceRow) => KeepRow(row)
  }

  /** The row loop of `collectInvoiceData`. */
  method CollectInvoiceData(rows: seq<InvoiceRow>) returns (items: seq<InvoiceItem>)
    ensures items == KeptItems(rows)
  {
    items := [];
    var i := 0;
    while i < |rows|
      invariant 0 <= i <= |rows|
      invariant items == KeptItems(rows[..i])
    {
      var row := rows[i];
      assert rows[..i + 1][..i] == rows[..i];
      if KeepRow(row) {
        items := items + [ToItem(row)];
      }
      i := i + 1;
    }
    assert rows[..|rows|] == rows;
  }

  // ---------------------------------------------------------------------------
  // Invoice numbers

  /** A truthy `invoiceId`: present and not the empty string. */
  predicate HasInvoiceId(e: Expense) {
    e.invoiceId.Some? && e.invoiceId.value != []
  }

  function InvoiceTest(): Expense -> bool {
    (e: Expense) => HasInvoiceId(e)
  }

  /** `this.expenses.filter(exp => exp.invoiceId).length`: records, not invoices. */
  function InvoicedCount(s: seq<Expense>): nat {
    |Filter(s, InvoiceTest())|
  }

  /** `generateInvoiceNumber` for the clock's year and month (1 to 12). */
  function InvoiceNumber(s: seq<Expense>, year: nat, month: int): (r: string)
    requires 1 <= month <= 12
    ensures |r| >= 11 && r[..4] == "INV-"
  {
    "INV-" + NatToString(year) + PadStart(NatToString(month), 2, '0')
    + "-" + PadStart(NatToString(InvoicedCount(s) + 1), 3, '0')
  }

  datatype InvoiceNumberParts = InvoiceNumberParts(year: nat, month: nat, sequence: nat)

  /** Reads an invoice number with a four-digit year back into its parts. */
  function ParseInvoiceNumber(r: string): Option<InvoiceNumberParts> {
    if |r| >= 12 && r[..4] == "INV-" && AllDigits(r[4..10]) && r[10] == '-' && AllDigits(r[11..]) then
      var yearMonth := r[4..10];
      assert AllDigits(yearMonth[..4]) && AllDigits(yearMonth[4..]);
      Some(InvoiceNumberParts(Value(yearMonth[..4]), Value(yearMonth[4..]), Value(r[11..])))
    else None
  }

  /** The parser takes apart what the number is assembled from. */
  lemma ParseAssembled(y: string, m: string, n: string)
    requires |y| == 4 && |m| == 2 && |n| >= 1
    requires AllDigits(y) && AllDigits(m) && AllDigits(n)
    ensures ParseInvoiceNumber("INV-" + y + m + "-" + n)
         == Some(InvoiceNumberParts(Value(y), Value(m), Value(n)))
  {
    var r := "INV-" + y + m + "-" + n;
    assert r[..4] == "INV-";
    assert r[4..10] == y + m;
    assert (y + m)[..4] == y && (y + m)[4..] == m;
    assert r[10] == '-';
    assert r[11..] == n;
  }

  /** For a four-digit year the number reads back as the year, the month and the
      count of invoiced records plus one. */
  lemma InvoiceNumberRoundTrip(s: seq<Expense>, year: nat, month: int)
    requires 1000 <= year <= 9999 && 1 <= month <= 12
    ensures ParseInvoiceNumber(InvoiceNumber(s, year, month))
         == Some(InvoiceNumberParts(year, month, InvoicedCount(s) + 1))
  {
    assert Pow10(3) == 1000 && Pow10(4) == 10000 && Pow10(2) == 100;
    NatToStringLength(year, 4);
    NatToStringLength(year, 3);
    NatToStringLength(month, 2);
    ValueOfNatToString(year);
    PaddedValue(month, 2);
    PaddedValue(InvoicedCount(s) + 1, 3);
    ParseAssembled(NatToString(year), PadStart(NatToString(month), 2, '0'),
                   PadStart(NatToString(InvoicedCount(s) + 1), 3, '0'));
  }

  /** The sequence part is exactly three characters while the count of invoiced
      records plus one stays below 1000, and then the number is 14 characters
      long; beyond that the part simply grows. */
  lemma InvoiceNumberLength(s: seq<Expense>, year: nat, month: int)
    requires 1000 <= year <= 9999 && 1 <= month <= 12
    ensures |PadStart(NatToString(InvoicedCount(s) + 1), 3, '0')| == 3 <==> InvoicedCount(s) + 1 < 1000
    ensures |InvoiceNumber(s, year, month)| == 14 <==> InvoicedCount(s) + 1 < 1000
  {
    assert Pow10(3) == 1000 && Pow10(4) == 10000 && Pow10(2) == 100;
    NatToStringLength(year, 4);
    NatToStringLength(year, 3);
    NatToStringLength(month, 2);
    NatToStringLength(InvoicedCount(s) + 1, 3);
  }
}
