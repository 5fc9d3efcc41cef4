/** CSV export of the two reports (src/lib/reports/csv-exporter.ts): the
    field escaping, the rows of each report, and the downloaded content.
    Currency and date formatting are parameters of the model. The partner of
    the escaping is a reader of one RFC 4180 record (section 2 of RFC 4180,
    rules 4 to 7), against which escaped cells round-trip. */
module CsvExport {
  import opened Common
  import opened Database
  import AccountStatement
  import AccountSummary

  /** The argument of `escapeCSV`: a string, or null / undefined. */
  datatype CsvValue = Missing | Text(s: string)

  /** The characters that make `escapeCSV` quote a field: comma, double
      quote and line feed (a carriage return is not among them). */
  predicate NeedsQuoting(s: string) {
    Includes(s, ",") || Includes(s, "\"") || Includes(s, "\n")
  }

  /** `s.replace(/"/g, '""')`. */
  function DoubleQuotes(s: string): (r: string)
    ensures |r| >= |s|
  {
    if s == [] then []
    else (if s[0] == '"' then "\"\"" else [s[0]]) + DoubleQuotes(s[1..])
  }

  /** `escapeCSV`: null and undefined become the empty field; a string that
      holds a comma, a double quote or a line feed is wrapped in double
      quotes with every inner double quote doubled; any other string is kept. */
  function EscapeCSV(v: CsvValue): (r: string)
    ensures v.Missing? ==> r == ""
    ensures v.Text? && !NeedsQuoting(v.s) ==> r == v.s
    ensures v.Text? && NeedsQuoting(v.s) ==> r == "\"" + DoubleQuotes(v.s) + "\""
  {
    match v
    case Missing => ""
    case Text(s) => if NeedsQuoting(s) then "\"" + DoubleQuotes(s) + "\"" else s
  }

  /** A string is left as it is exactly when it needs no quoting. */
  lemma EscapeChangesIffQuoted(s: string)
    ensures EscapeCSV(Text(s)) == s <==> !NeedsQuoting(s)
  {
    if NeedsQuoting(s) {
      assert |EscapeCSV(Text(s))| >= |s| + 2;
    }
  }

  /** A field made only of ordinary characters and carriage returns is never
      quoted: a lone "\r" does not trigger quoting. */
  lemma CarriageReturnNotQuoted(s: string)
    requires forall i :: 0 <= i < |s| ==> s[i] != ',' && s[i] != '"' && s[i] != '\n'
    ensures EscapeCSV(Text(s)) == s
  {
    NoCharNotIncluded(s, ',');
    NoCharNotIncluded(s, '"');
    NoCharNotIncluded(s, '\n');
  }

  lemma NoCharNotIncluded(s: string, c: char)
    requires forall i :: 0 <= i < |s| ==> s[i] != c
    ensures !Includes(s, [c])
  {
    forall i: nat ensures !OccursAt(s, [c], i) {
      if i + 1 <= |s| {
        assert s[i..i + 1][0] == s[i];
      }
    }
    IncludesIffOccurs(s, [c]);
  }

  lemma CharIncluded(s: string, i: nat)
    requires i < |s|
    ensures Includes(s, [s[i]])
  {
    assert OccursAt(s, [s[i]], i);
    IncludesIffOccurs(s, [s[i]]);
  }

  // ---------------------------------------------------------------------
  // Reading one record back (RFC 4180, section 2)

  /** Reads an unquoted field up to the next comma. */
  function ReadUnquoted(s: string): (r: (string, string))
    ensures r.0 + r.1 == s
    ensures r.1 == [] || r.1[0] == ','
    ensures forall i :: 0 <= i < |r.0| ==> r.0[i] != ','
  {
    if s == [] || s[0] == ',' then ([], s)
    else
      var p := ReadUnquoted(s[1..]);
      assert [s[0]] + s[1..] == s;
      ([s[0]] + p.0, p.1)
  }

  /** Reads the inside of a quoted field, after its opening quote: a doubled
      quote stands for one quote, a single quote closes the field. Returns the
      value and what follows the closing quote. */
  function ReadQuoted(s: string): (r: (string, string))
    ensures |r.1| <= |s|
  {
    if s == [] then ([], [])
    else if s[0] == '"' then
      if |s| >= 2 && s[1] == '"' then
        var (v, rest) := ReadQuoted(s[2..]);
        ("\"" + v, rest)
      else ([], s[1..])
    else
      var (v, rest) := ReadQuoted(s[1..]);
      ([s[0]] + v, rest)
  }

  /** Reads one field; what remains is empty or starts with the separator. */
  function ReadField(s: string): (r: (string, string))
    ensures |r.1| <= |s|
    ensures r.1 == [] || r.1[0] == ','
  {
    if s != [] && s[0] == '"' then
      var (v, rest) := ReadQuoted(s[1..]);
      var (tail, rest') := ReadUnquoted(rest);
      (v + tail, rest')
    else ReadUnquoted(s)
  }

  /** The fields of one record. */
  function ReadRecord(s: string): (r: seq<string>)
    ensures |r| >= 1
    decreases |s|
  {
    var (f, rest) := ReadField(s);
    if rest == [] then [f] else [f] + ReadRecord(rest[1..])
  }

  lemma {:induction false} ReadQuotedDoubled(c: string, rest: string)
    requires rest == [] || rest[0] != '"'
    ensures ReadQuoted(DoubleQuotes(c) + "\"" + rest) == (c, rest)
  {
    if c != [] {
      ReadQuotedDoubled(c[1..], rest);
      if c[0] == '"' {
        assert DoubleQuotes(c) + "\"" + rest == "\"\"" + (DoubleQuotes(c[1..]) + "\"" + rest);
      } else {
        assert DoubleQuotes(c) + "\"" + rest == [c[0]] + (DoubleQuotes(c[1..]) + "\"" + rest);
      }
      assert [c[0]] + c[1..] == c;
    } else {
      assert DoubleQuotes(c) + "\"" + rest == "\"" + rest;
    }
  }

  lemma {:induction false} ReadUnquotedPlain(c: string, rest: string)
    requires forall i :: 0 <= i < |c| ==> c[i] != ','
    requires rest == [] || rest[0] == ','
    ensures ReadUnquoted(c + rest) == (c, rest)
  {
    if c != [] {
      ReadUnquotedPlain(c[1..], rest);
      var s := c + rest;
      assert s[0] == c[0] && s[0] != ',';
      assert s[1..] == c[1..] + rest;
      assert ReadUnquoted(s) == ([s[0]] + ReadUnquoted(s[1..]).0, ReadUnquoted(s[1..]).1);
      assert [c[0]] + c[1..] == c;
    } else {
      assert c + rest == rest;
    }
  }

  lemma QuotedRead(c: string, rest: string)
    requires rest == [] || rest[0] == ','
    ensures ReadField("\"" + DoubleQuotes(c) + "\"" + rest) == (c, rest)
  {
    var inner := DoubleQuotes(c) + "\"" + rest;
    assert "\"" + DoubleQuotes(c) + "\"" + rest == "\"" + inner;
    QuotedFieldRead(inner);
    ReadQuotedDoubled(c, rest);
    ReadUnquotedPlain([], rest);
    assert [] + rest == rest;
    assert c + [] == c;
  }

  /** A field opening with a quote is read by `ReadQuoted` and then up to
      the next comma. */
  lemma QuotedFieldRead(inner: string)
    ensures ReadField("\"" + inner) ==
      (ReadQuoted(inner).0 + ReadUnquoted(ReadQuoted(inner).1).0, ReadUnquoted(ReadQuoted(inner).1).1)
  {
    assert ("\"" + inner)[1..] == inner;
  }

  lemma QuotedFieldRoundTrip(c: string, rest: string)
    requires NeedsQuoting(c)
    requires rest == [] || rest[0] == ','
    ensures ReadField(EscapeCSV(Text(c)) + rest) == (c, rest)
  {
    QuotedRead(c, rest);
  }

  lemma PlainFieldRoundTrip(c: string, rest: string)
    requires !NeedsQuoting(c)
    requires rest == [] || rest[0] == ','
    ensures ReadField(EscapeCSV(Text(c)) + rest) == (c, rest)
  {
    forall i | 0 <= i < |c| ensures c[i] != ',' && c[i] != '"' {
      if c[i] == ',' || c[i] == '"' {
        CharIncluded(c, i);
      }
    }
    ReadUnquotedPlain(c, rest);
  }

  /** An escaped cell followed by a separator (or by nothing) reads back as
      the cell's own text. */
  lemma FieldRoundTrip(c: string, rest: string)
    requires rest == [] || rest[0] == ','
    ensures ReadField(EscapeCSV(Text(c)) + rest) == (c, rest)
  {
    if NeedsQuoting(c) {
      QuotedFieldRoundTrip(c, rest);
    } else {
      PlainFieldRoundTrip(c, rest);
    }
  }

  /** Every cell of the record, escaped. */
  function EscapeAll(cells: seq<string>): (r: seq<string>)
    ensures |r| == |cells|
    ensures forall i :: 0 <= i < |cells| ==> r[i] == EscapeCSV(Text(cells[i]))
  {
    seq(|cells|, i requires 0 <= i < |cells| => EscapeCSV(Text(cells[i])))
  }

  /** A record whose every cell went through `escapeCSV` and was joined with
      commas reads back as exactly those cells. */
  lemma {:induction false} RecordRoundTrip(cells: seq<string>)
    requires cells != []
    ensures ReadRecord(Join(EscapeAll(cells), ",")) == cells
    decreases |cells|
  {
    var e := EscapeAll(cells);
    if |cells| == 1 {
      FieldRoundTrip(cells[0], []);
      assert EscapeCSV(Text(cells[0])) + [] == EscapeCSV(Text(cells[0]));
    } else {
      var tail := Join(EscapeAll(cells[1..]), ",");
      assert EscapeAll(cells[1..]) == e[1..];
      assert Join(e, ",") == EscapeCSV(Text(cells[0])) + ("," + tail);
      FieldRoundTrip(cells[0], "," + tail);
      assert ("," + tail)[1..] == tail;
      RecordRoundTrip(cells[1..]);
      assert [cells[0]] + cells[1..] == cells;
    }
  }

  // ---------------------------------------------------------------------
  // The balance split

  /** The two balance cells of a signed net: a positive net fills only the
      debt-balance cell, a negative one only the receivable-balance cell with
      its magnitude, zero leaves both empty. */
  function BalanceCells(net: int, fmtMoney: int -> string): (r: (string, string))
    ensures net > 0 ==> r == (fmtMoney(net), "")
    ensures net < 0 ==> r == ("", fmtMoney(-net))
    ensures net == 0 ==> r == ("", "")
  {
    (if net > 0 then fmtMoney(net) else "", if net < 0 then fmtMoney(-net) else "")
  }

  /** A positive amount is shown, any other amount leaves its cell empty. */
  function PositiveCell(amount: int, fmtMoney: int -> string): (r: string)
    ensures amount > 0 ==> r == fmtMoney(amount)
    ensures amount <= 0 ==> r == ""
  {
    if amount > 0 then fmtMoney(amount) else ""
  }

  /** One CSV line: the cells joined with commas. */
  function Line(cells: seq<string>): string {
    Join(cells, ",")
  }

  /** The cells of a six-column row. */
  function Row6(a: string, b: string, c: string, d: string, balance: (string, string)): seq<string> {
    [a, b, c, d, balance.0, balance.1]
  }

  // ---------------------------------------------------------------------
  // The account statement

  const StatementHeader: seq<string> := ["Tarih", "A\U{00E7}\U{0131}klama", "Bor\U{00E7}", "Alacak", "Bor\U{00E7} Bakiye", "Alacak Bakiye"]

  function OpeningCells(d: AccountStatement.StatementData, fmtMoney: int -> string): seq<string> {
    Row6("Devir", "", "", "", BalanceCells(d.openingNet, fmtMoney))
  }

  function EntryCells(e: AccountStatement.StatementEntry, fmtMoney: int -> string, fmtDate: string -> string): seq<string> {
    Row6(fmtDate(e.date), EscapeCSV(Text(OrEmpty(e.statement))),
      PositiveCell(e.debt, fmtMoney), PositiveCell(e.receivable, fmtMoney),
      BalanceCells(e.runningNet, fmtMoney))
  }

  function StatementTotalCells(d: AccountStatement.StatementData, fmtMoney: int -> string): seq<string> {
    Row6("Toplam", "", fmtMoney(d.totalDebt), fmtMoney(d.totalReceivable), BalanceCells(d.closingNet, fmtMoney))
  }

  /** A `forEach` that pushes one line per item, in order, after the
      lines already there. */
  method PushEach<T>(rows0: seq<string>, xs: seq<T>, line: T -> string) returns (rows: seq<string>)
    ensures |rows| == |rows0| + |xs|
    ensures rows[..|rows0|] == rows0
    ensures forall k :: 0 <= k < |xs| ==> rows[|rows0| + k] == line(xs[k])
  {
    rows := rows0;
    var i := 0;
    while i < |xs|
      invariant 0 <= i <= |xs|
      invariant |rows| == |rows0| + i
      invariant rows[..|rows0|] == rows0
      invariant forall k :: 0 <= k < i ==> rows[|rows0| + k] == line(xs[k])
    {
      rows := rows + [line(xs[i])];
      i := i + 1;
    }
  }

  /** The lines of the statement CSV as `exportAccountStatementToCSV` pushes
      them: the header, the "Devir" line, one line per entry in order, and
      the "Toplam" line. */
  method StatementLines(d: AccountStatement.StatementData, fmtMoney: int -> string, fmtDate: string -> string)
    returns (rows: seq<string>)
    ensures |rows| == |d.entries| + 3
    ensures rows[0] == Line(StatementHeader)
    ensures rows[1] == Line(OpeningCells(d, fmtMoney))
    ensures forall i :: 0 <= i < |d.entries| ==> rows[i + 2] == Line(EntryCells(d.entries[i], fmtMoney, fmtDate))
    ensures rows[|rows| - 1] == Line(StatementTotalCells(d, fmtMoney))
  {
    rows := [Line(StatementHeader)];
    rows := rows + [Line(OpeningCells(d, fmtMoney))];
    var entryLine := (e: AccountStatement.StatementEntry) => Line(EntryCells(e, fmtMoney, fmtDate));
    rows := PushEach(rows, d.entries, entryLine);
    rows := rows + [Line(StatementTotalCells(d, fmtMoney))];
  }

  /** The amount formatter with its result escaped: the corrected export
      writes every formatted amount through `escapeCSV`, since a Turkish
      lira amount carries a decimal comma. */
  function MoneyCell(fmtMoney: int -> string): (f: int -> string)
    ensures forall a :: f(a) == EscapeCSV(Text(fmtMoney(a)))
  {
    (a: int) => EscapeCSV(Text(fmtMoney(a)))
  }

  lemma EmptyUnescaped()
    ensures EscapeCSV(Text("")) == ""
  {
    CarriageReturnNotQuoted("");
  }

  /** Escaping a six-column row escapes each of its cells. */
  lemma EscapeRow6(a: string, b: string, c: string, d: string, balance: (string, string))
    ensures EscapeAll(Row6(a, b, c, d, balance)) ==
      Row6(EscapeCSV(Text(a)), EscapeCSV(Text(b)), EscapeCSV(Text(c)), EscapeCSV(Text(d)),
        (EscapeCSV(Text(balance.0)), EscapeCSV(Text(balance.1))))
  {
  }

  /** With the escaping formatter, an amount cell is the escaped plain cell. */
  lemma PositiveCellEscaped(amount: int, fmtMoney: int -> string)
    ensures PositiveCell(amount, MoneyCell(fmtMoney)) == EscapeCSV(Text(PositiveCell(amount, fmtMoney)))
  {
    EmptyUnescaped();
  }

  lemma BalanceCellsEscaped(net: int, fmtMoney: int -> string)
    ensures BalanceCells(net, MoneyCell(fmtMoney)) ==
      (EscapeCSV(Text(BalanceCells(net, fmtMoney).0)), EscapeCSV(Text(BalanceCells(net, fmtMoney).1)))
  {
    EmptyUnescaped();
  }

  /** The cells a reader should get back from an entry line. */
  function EntryValues(e: AccountStatement.StatementEntry, fmtMoney: int -> string, fmtDate: string -> string): seq<string> {
    Row6(fmtDate(e.date), OrEmpty(e.statement),
      PositiveCell(e.debt, fmtMoney), PositiveCell(e.receivable, fmtMoney),
      BalanceCells(e.runningNet, fmtMoney))
  }

  /** A sample entry: a debt of 100 lira on 5 January 2024, no memo. */
  const SampleEntry := AccountStatement.StatementEntry("e1", "2024-01-05", None, 100, 0, 100, 100)
  const SampleAmount := "\U{20BA}100,00"
  const SampleLine := "05.01.2024,," + SampleAmount + ",," + SampleAmount + ","

  /** The tr-TR currency text of 100 lira, and the "dd.MM.yyyy" date of the sample. */
  function SampleMoney(a: int): string { SampleAmount }
  function SampleDate(s: string): string { "05.01.2024" }

  /** The sample entry's line as the exporter builds it. */
  lemma SampleEntryLine()
    ensures Line(EntryCells(SampleEntry, SampleMoney, SampleDate)) == SampleLine
  {
    EmptyUnescaped();
    assert EntryCells(SampleEntry, SampleMoney, SampleDate) == Row6("05.01.2024", "", SampleAmount, "", (SampleAmount, ""));
    SixCellLine("05.01.2024", "", SampleAmount, "", SampleAmount, "");
  }

  /** A six-cell line is its cells with a comma between each two. */
  lemma SixCellLine(a: string, b: string, c: string, d: string, e: string, f: string)
    ensures Line([a, b, c, d, e, f]) == a + "," + b + "," + c + "," + d + "," + e + "," + f
  {
    var cells := [a, b, c, d, e, f];
    JoinTriple(d, e, f, ",");
    assert cells[1..][1..][1..] == [d, e, f];
    assert Join(cells[2..], ",") == c + "," + Join([d, e, f], ",");
    assert Join(cells[1..], ",") == b + "," + Join(cells[2..], ",");
  }

  /** A cell with no comma and no double quote. */
  predicate PlainCell(c: string) {
    forall i :: 0 <= i < |c| ==> c[i] != ',' && c[i] != '"'
  }

  /** A line "d,,a,b,,a,b," of plain cells reads back as eight fields. */
  lemma EightFields(d: string, a: string, b: string)
    requires PlainCell(d) && PlainCell(a) && PlainCell(b)
    ensures ReadRecord(d + ("," + ("" + ("," + (a + ("," + (b + ("," + ("" + ("," + (a + ("," + (b + ("," + "")))))))))))))) ==
      [d, "", a, b, "", a, b, ""]
  {
    var t4 := "" + ("," + (a + ("," + (b + ("," + "")))));
    var t2 := a + ("," + (b + ("," + t4)));
    TailFields(a, b);
    TwoFields(a, b, t4);
    TwoFields(d, "", t2);
  }

  /** The last four fields of the sample line: ",a,b," after a comma. */
  lemma TailFields(a: string, b: string)
    requires PlainCell(a) && PlainCell(b)
    ensures ReadRecord("" + ("," + (a + ("," + (b + ("," + "")))))) == ["", a, b, ""]
  {
    var t6 := b + ("," + "");
    FieldThen(b, "");
    assert ReadRecord("") == [""];
    assert PlainCell("");
    TwoFields("", a, t6);
  }

  lemma TwoFields(x: string, y: string, t: string)
    requires PlainCell(x) && PlainCell(y)
    ensures ReadRecord(x + ("," + (y + ("," + t)))) == [x, y] + ReadRecord(t)
  {
    FieldThen(y, t);
    FieldThen(x, y + ("," + t));
  }

  /** The sample line read back field by field. */
  lemma SampleLineFields()
    ensures ReadRecord(SampleLine) == ["05.01.2024", "", "\U{20BA}100", "00", "", "\U{20BA}100", "00", ""]
  {
    var d, a, b := "05.01.2024", "\U{20BA}100", "00";
    assert SampleLine == d + ("," + ("" + ("," + (a + ("," + (b + ("," + ("" + ("," + (a + ("," + (b + ("," + "")))))))))))));
    assert PlainCell(d) && PlainCell(a) && PlainCell(b);
    EightFields(d, a, b);
  }

  lemma FieldThen(c: string, t: string)
    requires PlainCell(c)
    ensures ReadRecord(c + ("," + t)) == [c] + ReadRecord(t)
  {
    SplitsAt(c, "," + t);
    assert ("," + t)[1..] == t;
  }

  /** As written, an entry line whose formatted amounts hold a decimal
      comma does not read back as six cells: the sample line, with
      "₺100,00" in the debt and balance cells, has eight fields. */
  lemma AmountCommaSplitsEntryLine()
    ensures |ReadRecord(Line(EntryCells(SampleEntry, SampleMoney, SampleDate)))| == 8
    ensures ReadRecord(Line(EntryCells(SampleEntry, SampleMoney, SampleDate))) != EntryValues(SampleEntry, SampleMoney, SampleDate)
  {
    SampleEntryLine();
    SampleLineFields();
  }

  /** A comma-free, quote-free cell before a separator reads as one field. */
  lemma SplitsAt(c: string, rest: string)
    requires forall i :: 0 <= i < |c| ==> c[i] != ',' && c[i] != '"'
    requires rest != [] && rest[0] == ','
    ensures ReadRecord(c + rest) == [c] + ReadRecord(rest[1..])
  {
    ReadUnquotedPlain(c, rest);
    if c == [] {
      assert c + rest == rest;
    }
  }

  /** Corrected: with the amounts escaped, an entry line reads back as the
      entry's date, memo, amounts and balances, whatever the formatter
      returns, provided the date holds no comma, quote or line feed. */
  lemma EntryLineReadsBack(e: AccountStatement.StatementEntry, fmtMoney: int -> string, fmtDate: string -> string)
    requires forall i :: 0 <= i < |fmtDate(e.date)| ==> fmtDate(e.date)[i] != ',' && fmtDate(e.date)[i] != '"' && fmtDate(e.date)[i] != '\n'
    ensures ReadRecord(Line(EntryCells(e, MoneyCell(fmtMoney), fmtDate))) == EntryValues(e, fmtMoney, fmtDate)
  {
    var plain := EntryValues(e, fmtMoney, fmtDate);
    CarriageReturnNotQuoted(fmtDate(e.date));
    EscapeRow6(fmtDate(e.date), OrEmpty(e.statement), PositiveCell(e.debt, fmtMoney), PositiveCell(e.receivable, fmtMoney),
      BalanceCells(e.runningNet, fmtMoney));
    PositiveCellEscaped(e.debt, fmtMoney);
    PositiveCellEscaped(e.receivable, fmtMoney);
    BalanceCellsEscaped(e.runningNet, fmtMoney);
    assert EscapeAll(plain) == EntryCells(e, MoneyCell(fmtMoney), fmtDate);
    RecordRoundTrip(plain);
  }

  /** What the browser is handed: the file name and the content, which is
      the CSV text prefixed with the byte order mark U+FEFF. */
  datatype Download = Download(fileName: string, content: string)

  function DownloadContent(csv: string): (r: string)
    ensures |r| == |csv| + 1 && r[0] == '\U{FEFF}' && r[1..] == csv
  {
    "\U{FEFF}" + csv
  }

  /** The statement download: its file name, and its content as the
      statement lines joined by line feeds behind the byte order mark. */
  method ExportAccountStatement(d: AccountStatement.StatementData, accountName: string, dateRange: string,
                                fmtMoney: int -> string, fmtDate: string -> string)
    returns (file: Download, rows: seq<string>)
    ensures file.fileName == accountName + "_" + dateRange + ".csv"
    ensures file.content == DownloadContent(Join(rows, "\n"))
    ensures |rows| == |d.entries| + 3
    ensures rows[0] == Line(StatementHeader)
    ensures rows[1] == Line(OpeningCells(d, MoneyCell(fmtMoney)))
    ensures forall i :: 0 <= i < |d.entries| ==> rows[i + 2] == Line(EntryCells(d.entries[i], MoneyCell(fmtMoney), fmtDate))
    ensures rows[|rows| - 1] == Line(StatementTotalCells(d, MoneyCell(fmtMoney)))
  {
    rows := StatementLines(d, MoneyCell(fmtMoney), fmtDate);
    file := Download(accountName + "_" + dateRange + ".csv", DownloadContent(Join(rows, "\n")));
  }

  // ---------------------------------------------------------------------
  // The account summary

  const SummaryHeader: seq<string> := ["Kategori", "Hesap", "Bor\U{00E7}", "Alacak", "Bor\U{00E7} Bakiye", "Alacak Bakiye"]

  function AccountCells(g: AccountSummary.SummaryGroup, row: AccountSummary.SummaryRow, fmtMoney: int -> string): seq<string> {
    Row6(EscapeCSV(Text(g.category.name)), EscapeCSV(Text(row.account.account.name)),
      PositiveCell(row.totalDebt, fmtMoney), PositiveCell(row.totalReceivable, fmtMoney),
      BalanceCells(row.net, fmtMoney))
  }

  function GroupTotalCells(g: AccountSummary.SummaryGroup, fmtMoney: int -> string): seq<string> {
    Row6(EscapeCSV(Text(g.category.name)), "Toplam", fmtMoney(g.totalDebt), fmtMoney(g.totalReceivable),
      BalanceCells(g.net, fmtMoney))
  }

  function GrandTotalCells(d: AccountSummary.SummaryData, fmtMoney: int -> string): seq<string> {
    Row6("Genel Toplam", "", fmtMoney(d.totalDebt), fmtMoney(d.totalReceivable), BalanceCells(d.totalNet, fmtMoney))
  }

  function AccountLine(g: AccountSummary.SummaryGroup, row: AccountSummary.SummaryRow, fmtMoney: int -> string): string {
    Line(AccountCells(g, row, fmtMoney))
  }

  function AccountLines(g: AccountSummary.SummaryGroup, fmtMoney: int -> string): (r: seq<string>)
    ensures |r| == |g.accounts|
    ensures forall i :: 0 <= i < |g.accounts| ==> r[i] == AccountLine(g, g.accounts[i], fmtMoney)
  {
    seq(|g.accounts|, i requires 0 <= i < |g.accounts| => AccountLine(g, g.accounts[i], fmtMoney))
  }

  /** The lines of one group: one per account in order, the group's
      "Toplam" line, and an empty line. */
  function GroupLines(g: AccountSummary.SummaryGroup, fmtMoney: int -> string): (r: seq<string>)
    ensures |r| == |g.accounts| + 2
  {
    AccountLines(g, fmtMoney) + [Line(GroupTotalCells(g, fmtMoney)), ""]
  }

  /** The lines of the groups, in order. */
  function AllGroupLines(gs: seq<AccountSummary.SummaryGroup>, fmtMoney: int -> string): seq<string> {
    if gs == [] then [] else AllGroupLines(gs[..|gs| - 1], fmtMoney) + GroupLines(gs[|gs| - 1], fmtMoney)
  }

  function GroupLineCount(gs: seq<AccountSummary.SummaryGroup>): nat {
    if gs == [] then 0 else GroupLineCount(gs[..|gs| - 1]) + |gs[|gs| - 1].accounts| + 2
  }

  lemma {:induction false} AllGroupLinesCount(gs: seq<AccountSummary.SummaryGroup>, fmtMoney: int -> string)
    ensures |AllGroupLines(gs, fmtMoney)| == GroupLineCount(gs)
  {
    if gs != [] {
      AllGroupLinesCount(gs[..|gs| - 1], fmtMoney);
    }
  }

  /** The block one group pushes. */
  method GroupBlock(g: AccountSummary.SummaryGroup, fmtMoney: int -> string) returns (block: seq<string>)
    ensures block == GroupLines(g, fmtMoney)
  {
    var accountLine := (row: AccountSummary.SummaryRow) => AccountLine(g, row, fmtMoney);
    block := PushEach([], g.accounts, accountLine);
    assert block == AccountLines(g, fmtMoney);
    var total := Line(GroupTotalCells(g, fmtMoney));
    block := block + [total, ""];
  }

  /** The lines of the summary CSV as `exportAccountSummaryToCSV` pushes
      them: the header, each group's block in order, and "Genel Toplam". */
  method SummaryLines(d: AccountSummary.SummaryData, fmtMoney: int -> string) returns (rows: seq<string>)
    ensures rows == [Line(SummaryHeader)] + AllGroupLines(d.groups, fmtMoney) + [Line(GrandTotalCells(d, fmtMoney))]
    ensures |rows| == 1 + GroupLineCount(d.groups) + 1
  {
    var body: seq<string> := [];
    var gi := 0;
    while gi < |d.groups|
      invariant 0 <= gi <= |d.groups|
      invariant body == AllGroupLines(d.groups[..gi], fmtMoney)
    {
      var block := GroupBlock(d.groups[gi], fmtMoney);
      assert d.groups[..gi + 1][..gi] == d.groups[..gi];
      body := body + block;
      gi := gi + 1;
    }
    assert d.groups[..gi] == d.groups;
    AllGroupLinesCount(d.groups, fmtMoney);
    rows := [Line(SummaryHeader)] + body + [Line(GrandTotalCells(d, fmtMoney))];
  }

  method ExportAccountSummary(d: AccountSummary.SummaryData, dateRange: string, fmtMoney: int -> string)
    returns (file: Download)
    ensures file.fileName == "Hesap_Ozeti_" + dateRange + ".csv"
    ensures file.content == DownloadContent(Join([Line(SummaryHeader)] + AllGroupLines(d.groups, MoneyCell(fmtMoney)) + [Line(GrandTotalCells(d, MoneyCell(fmtMoney)))], "\n"))
  {
    var rows := SummaryLines(d, MoneyCell(fmtMoney));
    file := Download("Hesap_Ozeti_" + dateRange + ".csv", DownloadContent(Join(rows, "\n")));
  }

  /** Corrected: with the amounts escaped, an account line of the summary
      reads back as the category name, the account name, the amounts and the
      balances, whatever the names and the formatter hold. */
  lemma AccountLineReadsBack(g: AccountSummary.SummaryGroup, row: AccountSummary.SummaryRow, fmtMoney: int -> string)
    ensures ReadRecord(AccountLine(g, row, MoneyCell(fmtMoney))) ==
      Row6(g.category.name, row.account.account.name,
        PositiveCell(row.totalDebt, fmtMoney), PositiveCell(row.totalReceivable, fmtMoney),
        BalanceCells(row.net, fmtMoney))
  {
    var plain := Row6(g.category.name, row.account.account.name,
      PositiveCell(row.totalDebt, fmtMoney), PositiveCell(row.totalReceivable, fmtMoney),
      BalanceCells(row.net, fmtMoney));
    EscapeRow6(g.category.name, row.account.account.name,
      PositiveCell(row.totalDebt, fmtMoney), PositiveCell(row.totalReceivable, fmtMoney),
      BalanceCells(row.net, fmtMoney));
    PositiveCellEscaped(row.totalDebt, fmtMoney);
    PositiveCellEscaped(row.totalReceivable, fmtMoney);
    BalanceCellsEscaped(row.net, fmtMoney);
    assert EscapeAll(plain) == AccountCells(g, row, MoneyCell(fmtMoney));
    RecordRoundTrip(plain);
  }
}
