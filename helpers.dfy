/**
 * The export helpers: the CSV file and the plain-text report built from a
 * list of transactions.  Date formatting (`yyyy-MM-dd`) and `toFixed(2)` are
 * passed in as functions; the download itself (Blob, link, click) is not
 * part of this model.
 */
module Helpers {
  import opened Seqs
  import opened Types
  import opened CsvReader

  // ---------------------------------------------------------------------
  // Quote escaping of the description field (RFC 4180, section 2, item 7)
  // ---------------------------------------------------------------------

  function CountQuotes(s: string): nat {
    if s == [] then 0 else (if s[0] == '"' then 1 else 0) + CountQuotes(s[1..])
  }

  /** `s.replace(/"/g, '""')`: every double quote doubled, nothing else changed. */
  function EscapeQuotes(s: string): (r: string)
    ensures |r| == |s| + CountQuotes(s)
  {
    if s == [] then []
    else (if s[0] == '"' then "\"\"" else [s[0]]) + EscapeQuotes(s[1..])
  }

  /** The description cell as written: the escaped text between two double quotes. */
  function QuoteField(s: string): (r: string)
    ensures |r| == |s| + CountQuotes(s) + 2
    ensures r[0] == '"' && r[|r| - 1] == '"'
  {
    "\"" + EscapeQuotes(s) + "\""
  }

  /** Every double quote in `e` is one of an adjacent pair. */
  ghost predicate QuotesDoubled(e: string)
    decreases |e|
  {
    if e == [] then true
    else if e[0] == '"' then |e| >= 2 && e[1] == '"' && QuotesDoubled(e[2..])
    else QuotesDoubled(e[1..])
  }

  /** Collapses each `""` back to `"`: the reading side of the escaping rule. */
  function CollapseQuotes(e: string): string
    decreases |e|
  {
    if e == [] then []
    else if |e| >= 2 && e[0] == '"' && e[1] == '"' then "\"" + CollapseQuotes(e[2..])
    else [e[0]] + CollapseQuotes(e[1..])
  }

  /** Strips the enclosing quotes and collapses the doubled ones. */
  function Unquote(q: string): string {
    if |q| >= 2 then CollapseQuotes(q[1..|q| - 1]) else q
  }

  /** The escaped text contains no lone double quote. */
  lemma {:induction false} EscapedQuotesDoubled(s: string)
    ensures QuotesDoubled(EscapeQuotes(s))
  {
    if s != [] {
      EscapedQuotesDoubled(s[1..]);
      var e := EscapeQuotes(s);
      if s[0] == '"' {
        assert e[2..] == EscapeQuotes(s[1..]);
      } else {
        assert e[1..] == EscapeQuotes(s[1..]);
      }
    }
  }

  /** Collapsing undoes escaping. */
  lemma {:induction false} CollapseEscape(s: string)
    ensures CollapseQuotes(EscapeQuotes(s)) == s
  {
    if s != [] {
      CollapseEscape(s[1..]);
      var e := EscapeQuotes(s);
      if s[0] == '"' {
        assert e[2..] == EscapeQuotes(s[1..]);
      } else {
        assert e[1..] == EscapeQuotes(s[1..]);
      }
      assert s == [s[0]] + s[1..];
    }
  }

  /** Escaping undoes collapsing on every text whose quotes are doubled: the two are inverse bijections. */
  lemma {:induction false} EscapeCollapse(e: string)
    requires QuotesDoubled(e)
    ensures EscapeQuotes(CollapseQuotes(e)) == e
  {
    if e != [] {
      if e[0] == '"' {
        EscapeCollapse(e[2..]);
        assert e == e[..2] + e[2..];
      } else {
        EscapeCollapse(e[1..]);
        assert e == [e[0]] + e[1..];
      }
    }
  }

  /** Round trip of the description cell: stripping the quotes and collapsing recovers the text. */
  lemma UnquoteQuoteField(s: string)
    ensures Unquote(QuoteField(s)) == s
  {
    var q := QuoteField(s);
    assert q[1..|q| - 1] == EscapeQuotes(s);
    CollapseEscape(s);
  }

  // ---------------------------------------------------------------------
  // CSV rows and content
  // ---------------------------------------------------------------------

  /** A cell of a row: written as is, or enclosed in quotes with its quotes doubled. */
  datatype Cell = Bare(text: string) | Quoted(text: string)

  function EncodeCell(c: Cell): string {
    match c
    case Bare(t) => t
    case Quoted(t) => QuoteField(t)
  }

  function EncodeCells(cells: seq<Cell>): (r: seq<string>)
    ensures |r| == |cells|
    ensures forall i :: 0 <= i < |cells| ==> r[i] == EncodeCell(cells[i])
  {
    if cells == [] then [] else [EncodeCell(cells[0])] + EncodeCells(cells[1..])
  }

  function CellTexts(cells: seq<Cell>): (r: seq<string>)
    ensures |r| == |cells|
    ensures forall i :: 0 <= i < |cells| ==> r[i] == cells[i].text
  {
    if cells == [] then [] else [cells[0].text] + CellTexts(cells[1..])
  }

  /** A text that can stand unquoted in a CSV cell. */
  predicate BareSafe(t: string) {
    ',' !in t && '"' !in t && '\n' !in t
  }

  predicate CellSafe(c: Cell) {
    c.Bare? ==> BareSafe(c.text)
  }

  /** `cells.join(',')` after encoding each cell. */
  function CsvRecord(cells: seq<Cell>): string {
    Join(EncodeCells(cells), ",")
  }

  const CsvHeaderNames: seq<string> := ["Date", "Type", "Category", "Amount", "Description"]

  /** `headers.join(',')`: the first line of the file. */
  const CsvHeader: string := Join(CsvHeaderNames, ",")

  /** The cells of a transaction's row: date, type, category, amount, quoted description. */
  function RowCells(tx: Transaction, dayText: Timestamp -> string, fixed2: real -> string): seq<Cell> {
    [Bare(dayText(tx.date)), Bare(TypeName(tx.kind)), Bare(CategoryName(tx.category)),
     Bare(fixed2(tx.amount)), Quoted(tx.description)]
  }

  /** The five texts a reader should get back from a transaction's row. */
  function RowTexts(tx: Transaction, dayText: Timestamp -> string, fixed2: real -> string): seq<string> {
    [dayText(tx.date), TypeName(tx.kind), CategoryName(tx.category), fixed2(tx.amount), tx.description]
  }

  function CsvRow(tx: Transaction, dayText: Timestamp -> string, fixed2: real -> string): string {
    CsvRecord(RowCells(tx, dayText, fixed2))
  }

  /** A row is the date, type, category, amount and quoted description, separated by commas. */
  lemma CsvRowFields(tx: Transaction, dayText: Timestamp -> string, fixed2: real -> string)
    ensures CsvRow(tx, dayText, fixed2)
         == dayText(tx.date) + "," + (TypeName(tx.kind) + "," + (CategoryName(tx.category) + ","
            + (fixed2(tx.amount) + "," + QuoteField(tx.description))))
  {
    var a, b, c, d, e := dayText(tx.date), TypeName(tx.kind), CategoryName(tx.category),
                         fixed2(tx.amount), QuoteField(tx.description);
    assert EncodeCells(RowCells(tx, dayText, fixed2)) == [a, b, c, d, e];
    assert [a, b, c, d, e][1..] == [b, c, d, e];
    assert [b, c, d, e][1..] == [c, d, e];
    assert [c, d, e][1..] == [d, e];
    assert [d, e][1..] == [e];
    assert Join([d, e], ",") == d + "," + e;
    assert Join([c, d, e], ",") == c + "," + (d + "," + e);
    assert Join([b, c, d, e], ",") == b + "," + (c + "," + (d + "," + e));
  }

  /** The lines of the file: the header, then one row per transaction in input order. */
  function CsvLines(data: seq<Transaction>, dayText: Timestamp -> string, fixed2: real -> string): (r: seq<string>)
    ensures |r| == |data| + 1 && r[0] == CsvHeader
    ensures forall k :: 1 <= k < |r| ==> r[k] == CsvRow(data[k - 1], dayText, fixed2)
  {
    [CsvHeader] + seq(|data|, i requires 0 <= i < |data| => CsvRow(data[i], dayText, fixed2))
  }

  /**
   * `[headers.join(','), ...rows].join('\n')`: starts with the header line,
   * is just the header when there are no transactions, and never ends in a
   * line feed.
   */
  function CsvContent(data: seq<Transaction>, dayText: Timestamp -> string, fixed2: real -> string): (r: string)
    ensures |r| >= |CsvHeader| && r[..|CsvHeader|] == CsvHeader
    ensures data == [] ==> r == CsvHeader
    ensures r[|r| - 1] != '\n'
  {
    var lines := CsvLines(data, dayText, fixed2);
    LastLineEnds(data, dayText, fixed2);
    JoinEndsWithLast(lines, "\n");
    Join(lines, "\n")
  }

  /** The last line of the file is the header or a row, and a row ends with the closing quote. */
  lemma LastLineEnds(data: seq<Transaction>, dayText: Timestamp -> string, fixed2: real -> string)
    ensures var lines := CsvLines(data, dayText, fixed2);
      |lines[|lines| - 1]| > 0 && lines[|lines| - 1][|lines[|lines| - 1]| - 1] != '\n'
  {
    var lines := CsvLines(data, dayText, fixed2);
    if data == [] {
      JoinEndsWithLast(CsvHeaderNames, ",");
      assert CsvHeader[|CsvHeader| - 1] == "Description"[10];
    } else {
      var tx := data[|data| - 1];
      var cells := RowCells(tx, dayText, fixed2);
      var enc := EncodeCells(cells);
      assert lines[|lines| - 1] == Join(enc, ",");
      var q := QuoteField(tx.description);
      assert enc[4] == q;
      JoinEndsWithLast(enc, ",");
    }
  }

  /** A join ends with its last part. */
  lemma {:induction false} JoinEndsWithLast(parts: seq<string>, sep: string)
    requires |parts| >= 1
    ensures var j := Join(parts, sep); var last := parts[|parts| - 1];
      |j| >= |last| && j[|j| - |last|..] == last
  {
    if |parts| > 1 {
      JoinEndsWithLast(parts[1..], sep);
    }
  }

  // ---------------------------------------------------------------------
  // Decodability of the CSV content
  // ---------------------------------------------------------------------

  predicate AtFieldEnd(rest: string) {
    rest == [] || rest[0] == ',' || rest[0] == '\n'
  }

  /** The reader finds the end of an escaped field exactly at its closing quote. */
  lemma {:induction false} ReadQuotedEscaped(d: string, rest: string)
    requires rest == [] || rest[0] != '"'
    ensures ReadQuoted(EscapeQuotes(d) + "\"" + rest) == Some((d, rest))
  {
    var s := EscapeQuotes(d) + "\"" + rest;
    if d == [] {
      assert s == "\"" + rest;
      assert s[1..] == rest;
    } else {
      ReadQuotedEscaped(d[1..], rest);
      var tail := EscapeQuotes(d[1..]) + "\"" + rest;
      if d[0] == '"' {
        assert s == "\"\"" + tail;
        assert s[2..] == tail;
        assert d == "\"" + d[1..];
      } else {
        assert s == [d[0]] + tail;
        assert s[1..] == tail;
        assert d == [d[0]] + d[1..];
      }
    }
  }

  lemma {:induction false} ReadBareSafe(t: string, rest: string)
    requires BareSafe(t) && AtFieldEnd(rest)
    ensures ReadBare(t + rest) == (t, rest)
  {
    if t != [] {
      ReadBareSafe(t[1..], rest);
      assert (t + rest)[1..] == t[1..] + rest;
      assert t == [t[0]] + t[1..];
    } else {
      assert t + rest == rest;
    }
  }

  /** A single encoded cell reads back as its text. */
  lemma ReadCell(c: Cell, rest: string)
    requires CellSafe(c) && AtFieldEnd(rest)
    ensures ReadField(EncodeCell(c) + rest) == Some((c.text, rest))
  {
    match c
    case Bare(t) =>
      ReadBareSafe(t, rest);
      if t != [] {
        assert (t + rest)[0] == t[0];
      } else {
        assert t + rest == rest;
      }
    case Quoted(t) =>
      ReadQuotedEscaped(t, rest);
      assert EncodeCell(c) + rest == "\"" + (EscapeQuotes(t) + "\"" + rest);
  }

  /** An encoded record reads back as its cell texts, in order. */
  lemma {:induction false} ReadCsvRecord(cells: seq<Cell>, rest: string)
    requires |cells| >= 1
    requires forall i :: 0 <= i < |cells| ==> CellSafe(cells[i])
    requires rest == [] || rest[0] == '\n'
    ensures ReadRecord(CsvRecord(cells) + rest) == Some((CellTexts(cells), rest))
  {
    var enc := EncodeCells(cells);
    if |cells| == 1 {
      assert CsvRecord(cells) + rest == EncodeCell(cells[0]) + rest;
      ReadCell(cells[0], rest);
      assert CellTexts(cells) == [cells[0].text];
    } else {
      var tail := CsvRecord(cells[1..]) + rest;
      assert enc[1..] == EncodeCells(cells[1..]);
      assert CsvRecord(cells) + rest == EncodeCell(cells[0]) + ("," + tail);
      ReadCell(cells[0], "," + tail);
      ReadCsvRecord(cells[1..], rest);
      assert ("," + tail)[1..] == tail;
      assert CellTexts(cells) == [cells[0].text] + CellTexts(cells[1..]);
    }
  }

  function EncodeRecords(rows: seq<seq<Cell>>): (r: seq<string>)
    ensures |r| == |rows|
    ensures forall k :: 0 <= k < |rows| ==> r[k] == CsvRecord(rows[k])
  {
    if rows == [] then [] else [CsvRecord(rows[0])] + EncodeRecords(rows[1..])
  }

  function RecordTexts(rows: seq<seq<Cell>>): (r: seq<seq<string>>)
    ensures |r| == |rows|
    ensures forall k :: 0 <= k < |rows| ==> r[k] == CellTexts(rows[k])
  {
    if rows == [] then [] else [CellTexts(rows[0])] + RecordTexts(rows[1..])
  }

  ghost predicate RowsSafe(rows: seq<seq<Cell>>) {
    forall k :: 0 <= k < |rows| ==>
      |rows[k]| >= 1 && forall i :: 0 <= i < |rows[k]| ==> CellSafe(rows[k][i])
  }

  /** Records joined by line feeds read back as the list of their cell texts. */
  lemma {:induction false} ReadCsvDocument(rows: seq<seq<Cell>>)
    requires |rows| >= 1 && RowsSafe(rows)
    ensures ReadDocument(Join(EncodeRecords(rows), "\n")) == Some(RecordTexts(rows))
  {
    var enc := EncodeRecords(rows);
    if |rows| == 1 {
      ReadCsvRecord(rows[0], []);
      assert Join(enc, "\n") == CsvRecord(rows[0]) + [];
      assert RecordTexts(rows) == [CellTexts(rows[0])];
    } else {
      assert enc[1..] == EncodeRecords(rows[1..]);
      var tail := Join(EncodeRecords(rows[1..]), "\n");
      assert Join(enc, "\n") == CsvRecord(rows[0]) + ("\n" + tail);
      ReadCsvRecord(rows[0], "\n" + tail);
      assert ("\n" + tail)[1..] == tail;
      ReadCsvDocument(rows[1..]);
      assert RecordTexts(rows) == [CellTexts(rows[0])] + RecordTexts(rows[1..]);
    }
  }

  const HeaderCells: seq<Cell> :=
    [Bare("Date"), Bare("Type"), Bare("Category"), Bare("Amount"), Bare("Description")]

  function FileRows(data: seq<Transaction>, dayText: Timestamp -> string, fixed2: real -> string): (r: seq<seq<Cell>>)
    ensures |r| == |data| + 1 && r[0] == HeaderCells
    ensures forall k :: 1 <= k < |r| ==> r[k] == RowCells(data[k - 1], dayText, fixed2)
  {
    [HeaderCells] + seq(|data|, i requires 0 <= i < |data| => RowCells(data[i], dayText, fixed2))
  }

  /** The header row is the five column names joined by commas, and reads back as those names. */
  lemma HeaderRecord()
    ensures CsvRecord(HeaderCells) == CsvHeader
    ensures CellTexts(HeaderCells) == CsvHeaderNames
  {
    assert EncodeCells(HeaderCells) == CsvHeaderNames;
  }

  /** What a reader should get back from the file: the header names, then each transaction's five texts. */
  function FileTexts(data: seq<Transaction>, dayText: Timestamp -> string, fixed2: real -> string): (r: seq<seq<string>>)
    ensures |r| == |data| + 1 && r[0] == CsvHeaderNames
    ensures forall k :: 1 <= k < |r| ==> r[k] == RowTexts(data[k - 1], dayText, fixed2)
  {
    [CsvHeaderNames] + seq(|data|, i requires 0 <= i < |data| => RowTexts(data[i], dayText, fixed2))
  }

  lemma FileRowsEncode(data: seq<Transaction>, dayText: Timestamp -> string, fixed2: real -> string)
    ensures EncodeRecords(FileRows(data, dayText, fixed2)) == CsvLines(data, dayText, fixed2)
  {
    var enc := EncodeRecords(FileRows(data, dayText, fixed2));
    var lines := CsvLines(data, dayText, fixed2);
    forall k | 0 <= k < |enc|
      ensures enc[k] == lines[k]
    {
      FileRowEncode(data, dayText, fixed2, k);
    }
  }

  lemma FileRowEncode(data: seq<Transaction>, dayText: Timestamp -> string, fixed2: real -> string, k: nat)
    requires k <= |data|
    ensures CsvRecord(FileRows(data, dayText, fixed2)[k]) == CsvLines(data, dayText, fixed2)[k]
  {
    if k == 0 {
      HeaderRecord();
    }
  }

  lemma FileRowsTexts(data: seq<Transaction>, dayText: Timestamp -> string, fixed2: real -> string)
    ensures RecordTexts(FileRows(data, dayText, fixed2)) == FileTexts(data, dayText, fixed2)
  {
    var texts := RecordTexts(FileRows(data, dayText, fixed2));
    var expected := FileTexts(data, dayText, fixed2);
    forall k | 0 <= k < |texts|
      ensures texts[k] == expected[k]
    {
      FileRowText(data, dayText, fixed2, k);
    }
  }

  lemma FileRowText(data: seq<Transaction>, dayText: Timestamp -> string, fixed2: real -> string, k: nat)
    requires k <= |data|
    ensures CellTexts(FileRows(data, dayText, fixed2)[k]) == FileTexts(data, dayText, fixed2)[k]
  {
    if k == 0 {
      HeaderRecord();
    } else {
      RowCellTexts(data[k - 1], dayText, fixed2);
    }
  }

  lemma RowCellTexts(tx: Transaction, dayText: Timestamp -> string, fixed2: real -> string)
    ensures CellTexts(RowCells(tx, dayText, fixed2)) == RowTexts(tx, dayText, fixed2)
  {
  }

  /**
   * The CSV file is decodable: a reader that follows RFC 4180's quoting
   * (with `\n` as record separator) gets back the header names and then,
   * for each transaction in order, its date, type, category, amount and
   * exact description -- provided the formatted date and amount contain no
   * comma, quote or line feed.
   */
  lemma CsvRoundTrip(data: seq<Transaction>, dayText: Timestamp -> string, fixed2: real -> string)
    requires forall tx :: tx in data ==> BareSafe(dayText(tx.date)) && BareSafe(fixed2(tx.amount))
    ensures ReadDocument(CsvContent(data, dayText, fixed2)) == Some(FileTexts(data, dayText, fixed2))
  {
    var rows := FileRows(data, dayText, fixed2);
    FileRowsSafe(data, dayText, fixed2);
    FileRowsEncode(data, dayText, fixed2);
    FileRowsTexts(data, dayText, fixed2);
    ReadCsvDocument(rows);
    assert CsvContent(data, dayText, fixed2) == Join(EncodeRecords(rows), "\n");
  }

  /** Every cell of the file can be written as it is: the bare ones need no quoting. */
  lemma FileRowsSafe(data: seq<Transaction>, dayText: Timestamp -> string, fixed2: real -> string)
    requires forall tx :: tx in data ==> BareSafe(dayText(tx.date)) && BareSafe(fixed2(tx.amount))
    ensures RowsSafe(FileRows(data, dayText, fixed2))
  {
    var rows := FileRows(data, dayText, fixed2);
    forall k | 0 <= k < |rows|
      ensures |rows[k]| >= 1 && forall i :: 0 <= i < |rows[k]| ==> CellSafe(rows[k][i])
    {
      FileRowSafe(data, dayText, fixed2, k);
    }
  }

  lemma FileRowSafe(data: seq<Transaction>, dayText: Timestamp -> string, fixed2: real -> string, k: nat)
    requires forall tx :: tx in data ==> BareSafe(dayText(tx.date)) && BareSafe(fixed2(tx.amount))
    requires k <= |data|
    ensures var row := FileRows(data, dayText, fixed2)[k];
      |row| >= 1 && forall i :: 0 <= i < |row| ==> CellSafe(row[i])
  {
    if k == 0 {
      HeaderCellsSafe();
    } else {
      var tx := data[k - 1];
      assert tx in data;
      RowCellsSafe(tx, dayText, fixed2);
      assert FileRows(data, dayText, fixed2)[k] == RowCells(tx, dayText, fixed2);
    }
  }

  lemma HeaderCellsSafe()
    ensures forall i :: 0 <= i < |HeaderCells| ==> CellSafe(HeaderCells[i])
  {
    assert BareSafe("Date");
    assert BareSafe("Type");
    assert BareSafe("Category");
    assert BareSafe("Amount");
    assert BareSafe("Description");
  }

  lemma RowCellsSafe(tx: Transaction, dayText: Timestamp -> string, fixed2: real -> string)
    requires BareSafe(dayText(tx.date)) && BareSafe(fixed2(tx.amount))
    ensures forall i :: 0 <= i < |RowCells(tx, dayText, fixed2)| ==> CellSafe(RowCells(tx, dayText, fixed2)[i])
  {
    NamesBareSafe(tx);
  }

  /** Type and category names never need quoting. */
  lemma NamesBareSafe(tx: Transaction)
    ensures BareSafe(TypeName(tx.kind)) && BareSafe(CategoryName(tx.category))
  {
    match tx.category
    case Food => assert BareSafe("Food");
    case Transport => assert BareSafe("Transport");
    case Shopping => assert BareSafe("Shopping");
    case Housing => assert BareSafe("Housing");
    case Health => assert BareSafe("Health");
    case Entertainment => assert BareSafe("Entertainment");
    case Income => assert BareSafe("Income");
    case Other => assert BareSafe("Other");
  }

  // ---------------------------------------------------------------------
  // Plain-text report
  // ---------------------------------------------------------------------

  const Rule: string := "-----------------------------------------------------------"

  /** Text made of the given lines, each followed by a line feed. */
  function Lines(ls: seq<string>): string {
    if ls == [] then [] else Lines(ls[..|ls| - 1]) + (ls[|ls| - 1] + "\n")
  }

  /** The opening lines: the title, the "Generated on" line, a rule and a blank line. */
  function HeadLines(title: string, generatedOn: string): seq<string> {
    [title, "Generated on: " + generatedOn, Rule, ""]
  }

  /** One transaction's block: five labelled lines (the amount after `$`), then a rule. */
  function BlockLines(tx: Transaction, dayText: Timestamp -> string, fixed2: real -> string): seq<string> {
    ["Date:        " + dayText(tx.date),
     "Type:        " + TypeName(tx.kind),
     "Category:    " + CategoryName(tx.category),
     "Amount:      $" + fixed2(tx.amount),
     "Description: " + tx.description,
     Rule]
  }

  /** The lines of one block per transaction, in input order. */
  function Blocks(data: seq<Transaction>, block: Transaction -> seq<string>): seq<string> {
    if data == [] then [] else Blocks(data[..|data| - 1], block) + block(data[|data| - 1])
  }

  /** With six lines to a block, the blocks of `n` transactions take `6 * n` lines. */
  lemma {:induction false} BlocksLength(data: seq<Transaction>, block: Transaction -> seq<string>)
    requires forall tx :: |block(tx)| == 6
    ensures |Blocks(data, block)| == 6 * |data|
  {
    if data != [] {
      BlocksLength(data[..|data| - 1], block);
    }
  }

  /** Line `6 * k + j` of the blocks is line `j` of transaction `k`'s block. */
  lemma {:induction false} BlocksLineAt(data: seq<Transaction>, block: Transaction -> seq<string>, k: nat, j: nat)
    requires forall tx :: |block(tx)| == 6
    requires k < |data| && j < 6
    ensures |Blocks(data, block)| == 6 * |data|
    ensures Blocks(data, block)[6 * k + j] == block(data[k])[j]
  {
    var init := data[..|data| - 1];
    BlocksLength(data, block);
    BlocksLength(init, block);
    if k < |init| {
      BlocksLineAt(init, block, k, j);
      assert init[k] == data[k];
    }
  }

  /** `BlockLines` as a value, for `Blocks`. */
  function BlockOf(dayText: Timestamp -> string, fixed2: real -> string): (Transaction -> seq<string>) {
    tx => BlockLines(tx, dayText, fixed2)
  }

  /** The blocks of all transactions, in input order: six lines each. */
  function AllBlockLines(data: seq<Transaction>, dayText: Timestamp -> string, fixed2: real -> string): (r: seq<string>)
    ensures |r| == 6 * |data|
  {
    BlocksLength(data, BlockOf(dayText, fixed2));
    Blocks(data, BlockOf(dayText, fixed2))
  }

  function ReportLines(title: string, generatedOn: string, data: seq<Transaction>,
                       dayText: Timestamp -> string, fixed2: real -> string): seq<string> {
    HeadLines(title, generatedOn) + AllBlockLines(data, dayText, fixed2)
  }

  /** The line layout of the report: four opening lines, then six lines per transaction in input order. */
  lemma ReportLineAt(title: string, generatedOn: string, data: seq<Transaction>,
                     dayText: Timestamp -> string, fixed2: real -> string, k: nat, j: nat)
    requires k < |data| && j < 6
    ensures var ls := ReportLines(title, generatedOn, data, dayText, fixed2);
      |ls| == 4 + 6 * |data|
      && ls[0] == title && ls[1] == "Generated on: " + generatedOn && ls[2] == Rule && ls[3] == ""
      && ls[4 + 6 * k + j] == BlockLines(data[k], dayText, fixed2)[j]
  {
    BlocksLineAt(data, BlockOf(dayText, fixed2), k, j);
  }

  /** Appending one line to a text of lines. */
  lemma LinesSnoc(ls: seq<string>, l: string)
    ensures Lines(ls + [l]) == Lines(ls) + (l + "\n")
  {
    assert (ls + [l])[..|ls|] == ls;
  }

  lemma {:induction false} LinesAppend(a: seq<string>, b: seq<string>)
    ensures Lines(a + b) == Lines(a) + Lines(b)
    decreases |b|
  {
    if b == [] {
      assert a + b == a;
    } else {
      var b' := b[..|b| - 1];
      LinesAppend(a, b');
      assert (a + b)[..|a + b| - 1] == a + b';
    }
  }

  /** Appending one more line to a report that already holds `lines` after `report`. */
  lemma AppendLine(report: string, lines: seq<string>, l: string)
    ensures report + Lines(lines) + (l + "\n") == report + Lines(lines + [l])
  {
    LinesSnoc(lines, l);
  }

  /** The body of the `forEach` callback: appends one transaction's block to the report. */
  method AppendBlock(report: string, tx: Transaction, dayText: Timestamp -> string, fixed2: real -> string)
    returns (r: string)
    ensures r == report + Lines(BlockLines(tx, dayText, fixed2))
  {
    ghost var lines: seq<string> := [];
    r := report;
    assert r == report + Lines(lines);
    var date := "Date:        " + dayText(tx.date);
    AppendLine(report, lines, date);
    r, lines := r + (date + "\n"), lines + [date];
    var kind := "Type:        " + TypeName(tx.kind);
    AppendLine(report, lines, kind);
    r, lines := r + (kind + "\n"), lines + [kind];
    var category := "Category:    " + CategoryName(tx.category);
    AppendLine(report, lines, category);
    r, lines := r + (category + "\n"), lines + [category];
    var amount := "Amount:      $" + fixed2(tx.amount);
    AppendLine(report, lines, amount);
    r, lines := r + (amount + "\n"), lines + [amount];
    var description := "Description: " + tx.description;
    AppendLine(report, lines, description);
    r, lines := r + (description + "\n"), lines + [description];
    AppendLine(report, lines, Rule);
    r, lines := r + (Rule + "\n"), lines + [Rule];
    assert lines == BlockLines(tx, dayText, fixed2);
  }

  /** `exportToTxt`'s report string, accumulated with `+=` in a loop over the transactions. */
  method ExportReport(data: seq<Transaction>, title: string, generatedOn: string,
                      dayText: Timestamp -> string, fixed2: real -> string)
    returns (report: string)
    ensures report == Lines(ReportLines(title, generatedOn, data, dayText, fixed2))
  {
    report := title + "\n";
    report := report + ("Generated on: " + generatedOn + "\n");
    report := report + (Rule + "\n\n");
    ReportStart(title, generatedOn, data, dayText, fixed2);
    var i := 0;
    while i < |data|
      invariant 0 <= i <= |data|
      invariant report == Lines(ReportLines(title, generatedOn, data[..i], dayText, fixed2))
    {
      ReportStep(title, generatedOn, data, dayText, fixed2, i);
      report := AppendBlock(report, data[i], dayText, fixed2);
      i := i + 1;
    }
    assert data[..i] == data;
  }

  /** Before the loop the report holds the opening lines and no block. */
  lemma ReportStart(title: string, generatedOn: string, data: seq<Transaction>,
                    dayText: Timestamp -> string, fixed2: real -> string)
    ensures Lines(ReportLines(title, generatedOn, data[..0], dayText, fixed2))
         == title + "\n" + ("Generated on: " + generatedOn + "\n") + (Rule + "\n\n")
  {
    HeadText(title, generatedOn);
    assert ReportLines(title, generatedOn, data[..0], dayText, fixed2) == HeadLines(title, generatedOn);
  }

  /** One pass of the loop adds the next transaction's block to the text. */
  lemma ReportStep(title: string, generatedOn: string, data: seq<Transaction>,
                   dayText: Timestamp -> string, fixed2: real -> string, i: nat)
    requires i < |data|
    ensures Lines(ReportLines(title, generatedOn, data[..i + 1], dayText, fixed2))
         == Lines(ReportLines(title, generatedOn, data[..i], dayText, fixed2)) + Lines(BlockLines(data[i], dayText, fixed2))
  {
    var head := HeadLines(title, generatedOn);
    var done := AllBlockLines(data[..i], dayText, fixed2);
    var block := BlockLines(data[i], dayText, fixed2);
    assert data[..i + 1][..i] == data[..i];
    assert ReportLines(title, generatedOn, data[..i + 1], dayText, fixed2) == head + (done + block);
    LinesRegroup(head, done, block);
  }

  lemma LinesRegroup(a: seq<string>, b: seq<string>, c: seq<string>)
    ensures Lines(a + (b + c)) == Lines(a + b) + Lines(c)
  {
    LinesAppend(a + b, c);
    assert a + b + c == a + (b + c) by {
      forall i | 0 <= i < |a| + |b| + |c|
        ensures (a + b + c)[i] == (a + (b + c))[i]
      {
        if i >= |a| {
          assert (a + (b + c))[i] == (b + c)[i - |a|];
        }
      }
    }
  }

  lemma HeadText(title: string, generatedOn: string)
    ensures Lines(HeadLines(title, generatedOn))
         == title + "\n" + ("Generated on: " + generatedOn + "\n") + (Rule + "\n\n")
  {
    var g := "Generated on: " + generatedOn;
    LinesSnoc([], title);
    assert [] + [title] == [title];
    LinesSnoc([title], g);
    assert [title] + [g] == [title, g];
    LinesSnoc([title, g], Rule);
    assert [title, g] + [Rule] == [title, g, Rule];
    LinesSnoc([title, g, Rule], "");
    assert [title, g, Rule] + [""] == HeadLines(title, generatedOn);
    assert Rule + "\n\n" == (Rule + "\n") + ("" + "\n");
  }
}
