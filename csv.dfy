/** The CSV export (`convertToCSV`): a header row and one row per record, every
    cell wrapped in double quotes, cells joined by `,`, rows joined by a line
    feed. Two departures from RFC 4180 are kept as the code has them: a quote
    inside a cell is not doubled (section 2, rule 7) and rows end in LF rather
    than CRLF (section 2, rule 1). */
module Csv {
  import opened Seqs
  import opened Dates
  import opened Records

  /** The renderings the export calls: `formatDate` and `formatCurrency`, which
      format in the `bn-BD` locale, and `numberToString`, the template string's
      `String(quantity)` (`Number.prototype.toString`, which does not depend on
      the locale but is left opaque because quantities are reals). Their text is
      not modelled. */
  datatype Locale = Locale(formatDate: Date -> string, formatCurrency: real -> string, numberToString: real -> string)

  /** Date, category, item, quantity, unit, unit price, total, invoice number. */
  const Header: seq<string> := ["তারিখ", "বিভাগ", "আইটেম", "পরিমাণ", "একক", "একক দাম", "মোট টাকা", "ইনভয়েজ নম্বর"]

  /** The eight cells of one record. An absent or zero quantity, an absent or
      empty unit, an absent or zero unit price and an absent or empty invoice id
      all become empty cells (JavaScript's `x || ''`). */
  function RowCells(e: Expense, loc: Locale): (cells: seq<string>)
    ensures |cells| == 8
    ensures cells[0] == loc.formatDate(e.date) && cells[1] == CategoryName(e.category) && cells[2] == e.item
    ensures cells[6] == loc.formatCurrency(e.amount)
    ensures e.quantity.None? || e.quantity.value == 0.0 ==> cells[3] == []
    ensures e.unit.None? || e.unit.value == [] ==> cells[4] == []
    ensures e.unitPrice.None? || e.unitPrice.value == 0.0 ==> cells[5] == []
    ensures e.invoiceId.None? || e.invoiceId.value == [] ==> cells[7] == []
    ensures e.quantity.Some? && e.quantity.value != 0.0 ==> cells[3] == loc.numberToString(e.quantity.value)
    ensures e.unit.Some? ==> cells[4] == e.unit.value
    ensures e.unitPrice.Some? && e.unitPrice.value != 0.0 ==> cells[5] == loc.formatCurrency(e.unitPrice.value)
    ensures e.invoiceId.Some? ==> cells[7] == e.invoiceId.value
  {
    [ loc.formatDate(e.date),
      CategoryName(e.category),
      e.item,
      if e.quantity.Some? && e.quantity.value != 0.0 then loc.numberToString(e.quantity.value) else "",
      if e.unit.Some? then e.unit.value else "",
      if e.unitPrice.Some? && e.unitPrice.value != 0.0 then loc.formatCurrency(e.unitPrice.value) else "",
      loc.formatCurrency(e.amount),
      if e.invoiceId.Some? then e.invoiceId.value else "" ]
  }

  function QuoteCell(cell: string): string {
    "\"" + cell + "\""
  }

  function QuoteAll(cells: seq<string>): (r: seq<string>)
    ensures |r| == |cells|
  {
    if cells == [] then [] else [QuoteCell(cells[0])] + QuoteAll(cells[1..])
  }

  /** `parts.join(sep)`. */
  function JoinWith(parts: seq<string>, sep: char): string {
    if |parts| == 0 then ""
    else if |parts| == 1 then parts[0]
    else parts[0] + [sep] + JoinWith(parts[1..], sep)
  }

  /** `row.map(cell => '"' + cell + '"').join(',')`. */
  function RenderRow(cells: seq<string>): string {
    JoinWith(QuoteAll(cells), ',')
  }

  function RecordLines(s: seq<Expense>, loc: Locale): (lines: seq<string>)
    ensures |lines| == |s|
  {
    if s == [] then [] else [RenderRow(RowCells(s[0], loc))] + RecordLines(s[1..], loc)
  }

  /** A join starts with its first part, and is that part alone when there is
      no other. */
  lemma JoinWithHead(head: string, tail: seq<string>, sep: char)
    ensures head <= JoinWith([head] + tail, sep)
    ensures tail == [] ==> JoinWith([head] + tail, sep) == head
  {
    if tail != [] {
      assert ([head] + tail)[1..] == tail;
    }
  }

  /** `convertToCSV()`. */
  function ConvertToCsv(s: seq<Expense>, loc: Locale): (r: string)
    ensures RenderRow(Header) <= r
    ensures s == [] ==> r == RenderRow(Header)
  {
    JoinWithHead(RenderRow(Header), RecordLines(s, loc), '\n');
    JoinWith([RenderRow(Header)] + RecordLines(s, loc), '\n')
  }

  // ---------------------------------------------------------------------------
  // Reading the export back

  /** `text.split(sep)`: the pieces between separators, at least one. */
  function Split(text: string, sep: char): (pieces: seq<string>)
    ensures |pieces| >= 1
  {
    if text == [] then [""]
    else if text[0] == sep then [""] + Split(text[1..], sep)
    else
      var rest := Split(text[1..], sep);
      [[text[0]] + rest[0]] + rest[1..]
  }

  lemma {:induction false} SplitNoSeparator(text: string, sep: char)
    requires sep !in text
    ensures Split(text, sep) == [text]
  {
    if text != [] {
      SplitNoSeparator(text[1..], sep);
      assert text[0] != sep;
      assert [text[0]] + text[1..] == text;
    }
  }

  lemma {:induction false} SplitAtSeparator(piece: string, sep: char, tail: string)
    requires sep !in piece
    ensures Split(piece + [sep] + tail, sep) == [piece] + Split(tail, sep)
  {
    if piece == [] {
      assert piece + [sep] + tail == [sep] + tail;
    } else {
      assert (piece + [sep] + tail)[1..] == piece[1..] + [sep] + tail;
      assert (piece + [sep] + tail)[0] == piece[0] != sep;
      SplitAtSeparator(piece[1..], sep, tail);
      assert [piece[0]] + piece[1..] == piece;
    }
  }

  /** Splitting a join at a separator that no part contains gives the parts back. */
  lemma {:induction false} SplitJoin(parts: seq<string>, sep: char)
    requires |parts| >= 1
    requires forall i :: 0 <= i < |parts| ==> sep !in parts[i]
    ensures Split(JoinWith(parts, sep), sep) == parts
  {
    if |parts| == 1 {
      SplitNoSeparator(parts[0], sep);
    } else {
      SplitJoin(parts[1..], sep);
      SplitAtSeparator(parts[0], sep, JoinWith(parts[1..], sep));
    }
  }

  /** The offset of the first `c` in `s`, or `|s|` if there is none. */
  function IndexOf(s: string, c: char): (k: nat)
    ensures k <= |s|
    ensures k < |s| ==> s[k] == c
    ensures forall i :: 0 <= i < k ==> s[i] != c
  {
    if s == [] then 0 else if s[0] == c then 0 else 1 + IndexOf(s[1..], c)
  }

  /** Reads one row of quoted cells: a quote, the text up to the next quote, a
      quote, then a comma and the next cell or the end of the line. */
  function ParseRow(line: string): Option<seq<string>>
    decreases |line|
  {
    if |line| < 2 || line[0] != '"' then None
    else
      var j := IndexOf(line[1..], '"');
      if j == |line| - 1 then None
      else
        var cell := line[1..j + 1];
        var rest := line[j + 2..];
        if rest == [] then Some([cell])
        else if rest[0] != ',' then None
        else match ParseRow(rest[1..])
          case None => None
          case Some(cells) => Some([cell] + cells)
  }

  lemma IndexOfAfterPrefix(prefix: string, c: char, tail: string)
    requires c !in prefix
    ensures IndexOf(prefix + [c] + tail, c) == |prefix|
  {
    var s := prefix + [c] + tail;
    var k := IndexOf(s, c);
    assert s[|prefix|] == c;
  }

  lemma ParseQuoted(c: string, after: string)
    requires '"' !in c
    ensures var line := QuoteCell(c) + after;
      |line| >= 2 && line[0] == '"' && IndexOf(line[1..], '"') == |c|
      && line[1..|c| + 1] == c && line[|c| + 2..] == after
  {
    var line := QuoteCell(c) + after;
    assert line[1..] == c + ['"'] + after;
    IndexOfAfterPrefix(c, '"', after);
  }

  /** A row of one quoted cell reads back as that cell. */
  lemma ParseRowLast(c: string)
    requires '"' !in c
    ensures ParseRow(QuoteCell(c)) == Some([c])
  {
    ParseQuoted(c, "");
    assert QuoteCell(c) + "" == QuoteCell(c);
  }

  /** A quoted cell, a comma and more: the cell, then whatever the rest reads as. */
  lemma ParseRowMore(c: string, rest: string)
    requires '"' !in c
    ensures ParseRow(QuoteCell(c) + ([','] + rest))
         == match ParseRow(rest)
              case None => None
              case Some(cells) => Some([c] + cells)
  {
    ParseQuoted(c, [','] + rest);
    assert ([','] + rest)[1..] == rest;
  }

  /** A rendered row is its first quoted cell, then a comma and the rest. */
  lemma RenderRowCons(cells: seq<string>)
    requires |cells| >= 2
    ensures RenderRow(cells) == QuoteCell(cells[0]) + ([','] + RenderRow(cells[1..]))
  {
    assert QuoteAll(cells)[1..] == QuoteAll(cells[1..]);
  }

  lemma RenderRowSingle(c: string)
    ensures RenderRow([c]) == QuoteCell(c)
  {
    assert QuoteAll([c]) == [QuoteCell(c)];
  }

  /** Parsing a rendered row with no quote inside any cell gives its cells back. */
  lemma {:induction false} ParseRenderRow(cells: seq<string>)
    requires |cells| >= 1
    requires NoCharInCells(cells, '"')
    ensures ParseRow(RenderRow(cells)) == Some(cells)
  {
    var c, tail := cells[0], cells[1..];
    assert '"' !in c;
    if |cells| == 1 {
      calc {
        ParseRow(RenderRow(cells));
        { assert cells == [c]; RenderRowSingle(c); }
        ParseRow(QuoteCell(c));
        { ParseRowLast(c); }
        Some([c]);
        { assert cells == [c]; }
        Some(cells);
      }
    } else {
      assert NoCharInCells(tail, '"');
      var rest := RenderRow(tail);
      calc {
        ParseRow(RenderRow(cells));
        { RenderRowCons(cells); }
        ParseRow(QuoteCell(c) + ([','] + rest));
        { ParseRowMore(c, rest); ParseRenderRow(tail); }
        Some([c] + tail);
        { assert [c] + tail == cells; }
        Some(cells);
      }
    }
  }

  // ---------------------------------------------------------------------------
  // What the export contains

  predicate NoCharInCells(cells: seq<string>, c: char) {
    forall i :: 0 <= i < |cells| ==> c !in cells[i]
  }

  lemma {:induction false} JoinWithoutChar(parts: seq<string>, sep: char, c: char)
    requires c != sep && NoCharInCells(parts, c)
    ensures c !in JoinWith(parts, sep)
  {
    if |parts| > 1 {
      JoinWithoutChar(parts[1..], sep, c);
    }
  }

  /** A rendered row holds no line feed unless a cell does. */
  lemma {:induction false} RenderRowNoBreak(cells: seq<string>)
    requires NoCharInCells(cells, '\n')
    ensures '\n' !in RenderRow(cells)
  {
    QuoteAllNoChar(cells, '\n');
    JoinWithoutChar(QuoteAll(cells), ',', '\n');
  }

  lemma {:induction false} QuoteAllNoChar(cells: seq<string>, c: char)
    requires c != '"' && NoCharInCells(cells, c)
    ensures NoCharInCells(QuoteAll(cells), c)
  {
    if cells != [] {
      QuoteAllNoChar(cells[1..], c);
      assert QuoteAll(cells) == [QuoteCell(cells[0])] + QuoteAll(cells[1..]);
    }
  }

  lemma HeaderIsPlain()
    ensures NoCharInCells(Header, '\n') && NoCharInCells(Header, '"')
  {
  }

  /** No record cell holds character `c`. */
  predicate PlainRecords(s: seq<Expense>, loc: Locale, c: char) {
    forall i :: 0 <= i < |s| ==> NoCharInCells(RowCells(s[i], loc), c)
  }

  lemma {:induction false} RecordLinesAt(s: seq<Expense>, loc: Locale, i: nat)
    requires i < |s|
    ensures RecordLines(s, loc)[i] == RenderRow(RowCells(s[i], loc))
  {
    if i > 0 {
      RecordLinesAt(s[1..], loc, i - 1);
    }
  }

  lemma {:induction false} RecordLinesPlain(s: seq<Expense>, loc: Locale)
    requires PlainRecords(s, loc, '\n')
    ensures forall i :: 0 <= i < |s| ==> '\n' !in RecordLines(s, loc)[i]
  {
    forall i | 0 <= i < |s| ensures '\n' !in RecordLines(s, loc)[i] {
      RecordLinesAt(s, loc, i);
      RenderRowNoBreak(RowCells(s[i], loc));
    }
  }

  /** When no cell holds a line feed, the export has one line per record plus
      the header line, header first, and line i + 1 renders record i. */
  lemma CsvLines(s: seq<Expense>, loc: Locale)
    requires PlainRecords(s, loc, '\n')
    ensures |Split(ConvertToCsv(s, loc), '\n')| == |s| + 1
    ensures Split(ConvertToCsv(s, loc), '\n')[0] == RenderRow(Header)
    ensures forall i :: 0 <= i < |s| ==> Split(ConvertToCsv(s, loc), '\n')[i + 1] == RenderRow(RowCells(s[i], loc))
  {
    var records := RecordLines(s, loc);
    var lines := [RenderRow(Header)] + records;
    HeaderIsPlain();
    RenderRowNoBreak(Header);
    RecordLinesPlain(s, loc);
    assert forall i :: 0 <= i < |lines| ==> '\n' !in lines[i] by {
      forall i | 0 <= i < |lines| ensures '\n' !in lines[i] {
        if i > 0 {
          assert lines[i] == records[i - 1];
        }
      }
    }
    SplitJoin(lines, '\n');
    forall i | 0 <= i < |s| ensures lines[i + 1] == RenderRow(RowCells(s[i], loc)) {
      RecordLinesAt(s, loc, i);
    }
  }

  /** When no cell holds a line feed or a quote, every line of the export reads
      back as the eight cells it was written from. */
  lemma CsvRoundTrip(s: seq<Expense>, loc: Locale, i: nat)
    requires PlainRecords(s, loc, '\n') && PlainRecords(s, loc, '"')
    requires i < |s|
    ensures var lines := Split(ConvertToCsv(s, loc), '\n');
      |lines| == |s| + 1 && ParseRow(lines[0]) == Some(Header) && ParseRow(lines[i + 1]) == Some(RowCells(s[i], loc))
  {
    CsvLines(s, loc);
    HeaderIsPlain();
    ParseRenderRow(Header);
    ParseRenderRow(RowCells(s[i], loc));
  }

  /** The first `c` of a prefix that holds one is the first `c` of any extension. */
  lemma {:induction false} IndexOfInPrefix(a: string, b: string, c: char)
    requires c in a
    ensures IndexOf(a + b, c) == IndexOf(a, c)
  {
    if a[0] != c {
      assert (a + b)[1..] == a[1..] + b;
      IndexOfInPrefix(a[1..], b, c);
    }
  }

  /** A cell that holds a quote is cut short at that quote when read back, so
      the first cell read, if any, is not the cell written. */
  lemma QuotedCellWithQuote(c: string, after: string)
    requires '"' in c
    ensures var r := ParseRow(QuoteCell(c) + after);
      r.None? || (|r.value| >= 1 && r.value[0] != c)
  {
    var line := QuoteCell(c) + after;
    assert line[1..] == c + (['"'] + after);
    IndexOfInPrefix(c, ['"'] + after, '"');
    var k := IndexOf(c, '"');
    assert line[1..k + 1] == c[..k];
  }

  /** A quote inside any cell is written as is (RFC 4180 would double it), so
      under the quote-delimited reading `ParseRow` that row no longer reads back
      as its cells. */
  lemma {:induction false} EmbeddedQuoteBreaksRow(cells: seq<string>)
    requires |cells| >= 1 && !NoCharInCells(cells, '"')
    ensures ParseRow(RenderRow(cells)) != Some(cells)
  {
    var c := cells[0];
    if '"' in c {
      if |cells| == 1 {
        RenderRowSingle(c);
        QuotedCellWithQuote(c, "");
        assert QuoteCell(c) + "" == QuoteCell(c);
      } else {
        RenderRowCons(cells);
        QuotedCellWithQuote(c, [','] + RenderRow(cells[1..]));
      }
    } else {
      var i :| 0 <= i < |cells| && '"' in cells[i];
      var tail := cells[1..];
      assert tail[i - 1] == cells[i];
      EmbeddedQuoteBreaksRow(tail);
      RenderRowCons(cells);
      ParseRowMore(c, RenderRow(tail));
    }
  }

  /** The export is ambiguous for any reader: a single cell holding `","` is
      written exactly as the two cells on either side of it would be. */
  lemma AmbiguousCells(a: string, b: string)
    ensures RenderRow([a + "\",\"" + b]) == RenderRow([a, b])
  {
    RenderRowSingle(a + "\",\"" + b);
    RenderRowCons([a, b]);
    RenderRowSingle(b);
    assert [a, b][1..] == [b];
    calc {
      RenderRow([a, b]);
      QuoteCell(a) + ([','] + QuoteCell(b));
      "\"" + a + "\"" + ([','] + ("\"" + b + "\""));
      "\"" + (a + "\",\"" + b) + "\"";
      QuoteCell(a + "\",\"" + b);
    }
  }
}
