/** The CSV export of the reports page: the text the page builds (a header
    line and one line per shown record, cells joined by commas), a reader for
    comma-separated text in the usual quoting convention (a quoted cell may hold
    commas, line breaks and doubled quotes), and the relation between the two:
    the page's rows read back as their ten values only when the unquoted cells
    are free of commas, quotes and line breaks; a writer that quotes every cell
    reads back exactly. */
module ReportsCsv {
  import opened Common
  import opened Text
  import opened Types

  /** The column titles of the export. */
  const HEADERS: seq<string> := ["ID", "Date", "Merchant", "Business Unit", "Category", "Amount", "Status",
                                 "Payment Method", "Description", "Submitted By"]

  const QUOTE: char := '"'
  const COMMA: char := ','
  const NEWLINE: char := '\n'

  /** `s.replace(/"/g, '""')`: every double quote doubled. */
  function Escape(s: string): (r: string)
    ensures |r| >= |s|
    ensures QUOTE !in s ==> r == s
  {
    if s == [] then []
    else (if s[0] == QUOTE then [QUOTE, QUOTE] else [s[0]]) + Escape(s[1..])
  }

  /** A cell wrapped in double quotes. */
  function Quote(s: string): string {
    [QUOTE] + s + [QUOTE]
  }

  /** Text that can stand as an unquoted cell: no comma, quote or line break. */
  predicate Plain(s: string) {
    COMMA !in s && QUOTE !in s && NEWLINE !in s
  }

  // ---------------------------------------------------------------------------
  // The export as the page writes it
  // ---------------------------------------------------------------------------

  /** The ten cells of one row exactly as the page writes them: merchant and
      description quoted with their quotes doubled, the business unit quoted
      without escaping, every other value bare. `amountText` is the
      number-to-text conversion of the runtime, left abstract. */
  function AsWrittenFields(e: Expense, amountText: real -> string): seq<string> {
    [e.id, e.date, Quote(Escape(e.merchant)), Quote(e.businessUnit), e.category,
     amountText(e.amount), e.status.Label(), e.paymentMethod.Label(), Quote(Escape(e.description)),
     e.submittedBy]
  }

  /** One line of the export as written. */
  function AsWrittenRow(e: Expense, amountText: real -> string): string {
    Join([COMMA], AsWrittenFields(e, amountText))
  }

  /** The rows of the export as written, one per record, in order. */
  function AsWrittenRows(xs: seq<Expense>, amountText: real -> string): (r: seq<string>)
    ensures |r| == |xs|
    ensures forall i :: 0 <= i < |xs| ==> r[i] == AsWrittenRow(xs[i], amountText)
  {
    if xs == [] then [] else [AsWrittenRow(xs[0], amountText)] + AsWrittenRows(xs[1..], amountText)
  }

  /** `csvContent` as written: the header line, then the rows, joined by line breaks. */
  function AsWrittenCsv(xs: seq<Expense>, amountText: real -> string): string {
    Join([NEWLINE], [Join([COMMA], HEADERS)] + AsWrittenRows(xs, amountText))
  }

  /** The ten values a row stands for, in header order. */
  function Fields(e: Expense, amountText: real -> string): (r: seq<string>)
    ensures |r| == |HEADERS|
  {
    [e.id, e.date, e.merchant, e.businessUnit, e.category, amountText(e.amount), e.status.Label(),
     e.paymentMethod.Label(), e.description, e.submittedBy]
  }

  // ---------------------------------------------------------------------------
  // Reading comma-separated text back
  // ---------------------------------------------------------------------------

  /** Reads an unquoted cell: everything up to the next comma, quote or line break. */
  function ReadBare(s: string): (r: (string, string))
    ensures r.0 + r.1 == s
  {
    if s == [] || s[0] == COMMA || s[0] == QUOTE || s[0] == NEWLINE then ([], s)
    else
      var (t, rest) := ReadBare(s[1..]);
      assert [s[0]] + s[1..] == s;
      ([s[0]] + t, rest)
  }

  /** Reads the rest of a quoted cell after its opening quote, turning each
      doubled quote into one; none when the closing quote is missing. The
      second component is the text after the closing quote. */
  function ReadQuoted(s: string): (r: Option<(string, string)>)
    ensures r.Some? ==> |r.value.1| < |s|
  {
    if s == [] then None
    else if s[0] == QUOTE then
      if |s| > 1 && s[1] == QUOTE then
        match ReadQuoted(s[2..])
        case None => None
        case Some((t, rest)) => Some(([QUOTE] + t, rest))
      else Some(([], s[1..]))
    else
      match ReadQuoted(s[1..])
      case None => None
      case Some((t, rest)) => Some(([s[0]] + t, rest))
  }

  /** Reads one cell, quoted or not. */
  function ReadField(s: string): (r: Option<(string, string)>)
    ensures r.Some? ==> |r.value.1| <= |s|
  {
    if |s| > 0 && s[0] == QUOTE then ReadQuoted(s[1..]) else Some(ReadBare(s))
  }

  /** One line read back: its cells, and the text after its line break (none
      at the end of the input). */
  datatype Record = Record(fields: seq<string>, next: Option<string>)

  /** Reads one line; none when a cell is malformed (an unclosed quote, or
      text after a closing quote). */
  function ReadRecord(s: string): (r: Option<Record>)
    ensures r.Some? ==> |r.value.fields| >= 1
    ensures r.Some? && r.value.next.Some? ==> |r.value.next.value| < |s|
    decreases |s|
  {
    match ReadField(s)
    case None => None
    case Some((f, rest)) =>
      if rest == [] then Some(Record([f], None))
      else if rest[0] == NEWLINE then Some(Record([f], Some(rest[1..])))
      else if rest[0] == COMMA then
        match ReadRecord(rest[1..])
        case None => None
        case Some(Record(fs, next)) => Some(Record([f] + fs, next))
      else None
  }

  /** Reads a whole document, line by line. */
  function ReadDocument(s: string): (r: Option<seq<seq<string>>>)
    ensures r.Some? ==> |r.value| >= 1
    decreases |s|
  {
    match ReadRecord(s)
    case None => None
    case Some(Record(fs, None)) => Some([fs])
    case Some(Record(fs, Some(t))) =>
      match ReadDocument(t)
      case None => None
      case Some(rows) => Some([fs] + rows)
  }

  // ---------------------------------------------------------------------------
  // Cells and their encoding
  // ---------------------------------------------------------------------------

  /** A cell to write: bare, or quoted with its quotes doubled. */
  datatype Cell = Bare(text: string) | Quoted(text: string)

  function Encode(c: Cell): string {
    match c
    case Bare(t) => t
    case Quoted(t) => Quote(Escape(t))
  }

  /** A bare cell must be plain; a quoted cell may hold anything. */
  predicate WellFormed(c: Cell) {
    c.Quoted? || Plain(c.text)
  }

  predicate WellFormedRow(cells: seq<Cell>) {
    |cells| >= 1 && forall i :: 0 <= i < |cells| ==> WellFormed(cells[i])
  }

  lemma WellFormedRowOf(cells: seq<Cell>)
    requires |cells| >= 1
    requires forall c :: c in cells ==> WellFormed(c)
    ensures WellFormedRow(cells)
  {
    forall i | 0 <= i < |cells| ensures WellFormed(cells[i]) {
      assert cells[i] in cells;
    }
  }

  function Encoded(cells: seq<Cell>): (r: seq<string>)
    ensures |r| == |cells|
    ensures forall i :: 0 <= i < |cells| ==> r[i] == Encode(cells[i])
  {
    if cells == [] then [] else [Encode(cells[0])] + Encoded(cells[1..])
  }

  function Texts(cells: seq<Cell>): (r: seq<string>)
    ensures |r| == |cells|
    ensures forall i :: 0 <= i < |cells| ==> r[i] == cells[i].text
  {
    if cells == [] then [] else [cells[0].text] + Texts(cells[1..])
  }

  function EncodeRow(cells: seq<Cell>): string {
    Join([COMMA], Encoded(cells))
  }

  function EncodedRows(rows: seq<seq<Cell>>): (r: seq<string>)
    ensures |r| == |rows|
    ensures forall i :: 0 <= i < |rows| ==> r[i] == EncodeRow(rows[i])
  {
    if rows == [] then [] else [EncodeRow(rows[0])] + EncodedRows(rows[1..])
  }

  function TextRows(rows: seq<seq<Cell>>): (r: seq<seq<string>>)
    ensures |r| == |rows|
    ensures forall i :: 0 <= i < |rows| ==> r[i] == Texts(rows[i])
  {
    if rows == [] then [] else [Texts(rows[0])] + TextRows(rows[1..])
  }

  function EncodeDocument(rows: seq<seq<Cell>>): string {
    Join([NEWLINE], EncodedRows(rows))
  }

  /** What follows a line: nothing at the end, or a line break and the rest. */
  function Tail(next: Option<string>): string {
    if next.None? then [] else [NEWLINE] + next.value
  }

  lemma {:induction false} ReadBareOf(t: string, rest: string)
    requires Plain(t)
    requires rest == [] || rest[0] == COMMA || rest[0] == NEWLINE
    ensures ReadBare(t + rest) == (t, rest)
  {
    if t == [] {
      assert t + rest == rest;
    } else {
      assert t[0] in t;
      assert (t + rest)[1..] == t[1..] + rest;
      assert Plain(t[1..]) by {
        forall c | c in t[1..] ensures c in t {
          var k :| 0 <= k < |t[1..]| && t[1..][k] == c;
          assert t[k + 1] == c;
        }
      }
      ReadBareOf(t[1..], rest);
      assert [t[0]] + t[1..] == t;
    }
  }

  lemma {:induction false} ReadQuotedOf(t: string, rest: string)
    requires rest == [] || rest[0] != QUOTE
    ensures ReadQuoted(Escape(t) + [QUOTE] + rest) == Some((t, rest))
  {
    var s := Escape(t) + [QUOTE] + rest;
    if t == [] {
      assert s == [QUOTE] + rest;
      assert s[1..] == rest;
    } else {
      ReadQuotedOf(t[1..], rest);
      if t[0] == QUOTE {
        ReadQuotedDoubled(t, rest);
      } else {
        ReadQuotedOrdinary(t, rest);
      }
    }
  }

  /** A doubled quote reads back as one quote in front of what follows it. */
  lemma ReadQuotedDoubled(t: string, rest: string)
    requires t != [] && t[0] == QUOTE
    requires ReadQuoted(Escape(t[1..]) + [QUOTE] + rest) == Some((t[1..], rest))
    ensures ReadQuoted(Escape(t) + [QUOTE] + rest) == Some((t, rest))
  {
    EscapeHead(t);
    Regroup([QUOTE, QUOTE], Escape(t[1..]), [QUOTE], rest);
    ReadQuotedAfterPair(Escape(t[1..]) + [QUOTE] + rest, t[1..], rest);
    assert [QUOTE] + t[1..] == t;
  }

  /** Any other character reads back as itself in front of what follows it. */
  lemma ReadQuotedOrdinary(t: string, rest: string)
    requires t != [] && t[0] != QUOTE
    requires ReadQuoted(Escape(t[1..]) + [QUOTE] + rest) == Some((t[1..], rest))
    ensures ReadQuoted(Escape(t) + [QUOTE] + rest) == Some((t, rest))
  {
    EscapeHead(t);
    Regroup([t[0]], Escape(t[1..]), [QUOTE], rest);
    ReadQuotedAfterChar(t[0], Escape(t[1..]) + [QUOTE] + rest, t[1..], rest);
    assert [t[0]] + t[1..] == t;
  }

  lemma EscapeHead(t: string)
    requires t != []
    ensures Escape(t) == (if t[0] == QUOTE then [QUOTE, QUOTE] else [t[0]]) + Escape(t[1..])
  {
  }

  lemma Regroup(a: string, b: string, c: string, d: string)
    ensures a + b + c + d == a + (b + c + d)
  {
  }

  lemma ReadQuotedAfterPair(u: string, v: string, rest: string)
    requires ReadQuoted(u) == Some((v, rest))
    ensures ReadQuoted([QUOTE, QUOTE] + u) == Some(([QUOTE] + v, rest))
  {
    assert ([QUOTE, QUOTE] + u)[2..] == u;
  }

  lemma ReadQuotedAfterChar(c: char, u: string, v: string, rest: string)
    requires c != QUOTE && ReadQuoted(u) == Some((v, rest))
    ensures ReadQuoted([c] + u) == Some(([c] + v, rest))
  {
    assert ([c] + u)[1..] == u;
  }


  /** A well-formed cell followed by a separator or the end reads back as its text. */
  lemma ReadFieldOf(c: Cell, rest: string)
    requires WellFormed(c)
    requires rest == [] || rest[0] == COMMA || rest[0] == NEWLINE
    ensures ReadField(Encode(c) + rest) == Some((c.text, rest))
  {
    match c
    case Bare(t) =>
      ReadBareOf(t, rest);
      if t == [] {
        assert t + rest == rest;
      } else {
        assert t[0] in t;
        assert (t + rest)[0] == t[0];
      }
    case Quoted(t) =>
      assert Encode(c) + rest == [QUOTE] + (Escape(t) + [QUOTE] + rest);
      assert (Encode(c) + rest)[1..] == Escape(t) + [QUOTE] + rest;
      ReadQuotedOf(t, rest);
  }

  /** A line of well-formed cells reads back as the cells' texts. */
  lemma {:induction false} ReadRecordOf(cells: seq<Cell>, next: Option<string>)
    requires WellFormedRow(cells)
    ensures ReadRecord(EncodeRow(cells) + Tail(next)) == Some(Record(Texts(cells), next))
  {
    if |cells| == 1 {
      ReadRecordSingle(cells, next);
    } else {
      WellFormedRowTail(cells);
      ReadRecordOf(cells[1..], next);
      ReadRecordCons(cells, next);
    }
  }

  lemma WellFormedRowTail(cells: seq<Cell>)
    requires |cells| >= 2 && WellFormedRow(cells)
    ensures WellFormedRow(cells[1..])
  {
    forall i | 0 <= i < |cells[1..]| ensures WellFormed(cells[1..][i]) {
      assert cells[1..][i] == cells[i + 1];
    }
  }

  /** A line of one well-formed cell reads back as its text. */
  lemma ReadRecordSingle(cells: seq<Cell>, next: Option<string>)
    requires |cells| == 1 && WellFormed(cells[0])
    ensures ReadRecord(EncodeRow(cells) + Tail(next)) == Some(Record(Texts(cells), next))
  {
    assert EncodeRow(cells) == Encode(cells[0]);
    ReadFieldOf(cells[0], Tail(next));
    RecordLast(Encode(cells[0]) + Tail(next), cells[0].text, next);
    assert Texts(cells) == [cells[0].text];
  }

  /** A well-formed first cell, a comma and a line that reads back: the whole line reads back. */
  lemma ReadRecordCons(cells: seq<Cell>, next: Option<string>)
    requires |cells| >= 2 && WellFormed(cells[0])
    requires ReadRecord(EncodeRow(cells[1..]) + Tail(next)) == Some(Record(Texts(cells[1..]), next))
    ensures ReadRecord(EncodeRow(cells) + Tail(next)) == Some(Record(Texts(cells), next))
  {
    var tail := EncodeRow(cells[1..]) + Tail(next);
    EncodeRowConsThen(cells, Tail(next));
    ReadFieldOf(cells[0], [COMMA] + tail);
    RecordStep(Encode(cells[0]) + ([COMMA] + tail), cells[0].text, tail, Texts(cells[1..]), next);
    assert [cells[0].text] + Texts(cells[1..]) == Texts(cells);
  }

  /** A row of two or more cells is its first cell, a comma and the rest of the row. */
  lemma EncodeRowCons(cells: seq<Cell>)
    requires |cells| >= 2
    ensures EncodeRow(cells) == Encode(cells[0]) + [COMMA] + EncodeRow(cells[1..])
  {
    assert Encoded(cells)[1..] == Encoded(cells[1..]);
  }

  /** The same, with the text that follows the row attached. */
  lemma EncodeRowConsThen(cells: seq<Cell>, t: string)
    requires |cells| >= 2
    ensures EncodeRow(cells) + t == Encode(cells[0]) + ([COMMA] + (EncodeRow(cells[1..]) + t))
  {
    EncodeRowCons(cells);
    ConcatAssoc(Encode(cells[0]), [COMMA], EncodeRow(cells[1..]), t);
  }

  lemma ConcatAssoc(a: string, b: string, c: string, d: string)
    ensures a + b + c + d == a + (b + (c + d))
  {
  }

  /** A last cell followed by the end or by a line break ends the line. */
  lemma RecordLast(s: string, f: string, next: Option<string>)
    requires ReadField(s) == Some((f, Tail(next)))
    ensures ReadRecord(s) == Some(Record([f], next))
  {
    if next.Some? {
      assert Tail(next)[1..] == next.value;
    }
  }

  /** A cell followed by a comma continues the line with the rest of it. */
  lemma RecordStep(s: string, f: string, tail: string, fs: seq<string>, next: Option<string>)
    requires ReadField(s) == Some((f, [COMMA] + tail))
    requires ReadRecord(tail) == Some(Record(fs, next))
    ensures ReadRecord(s) == Some(Record([f] + fs, next))
  {
    assert ([COMMA] + tail)[1..] == tail;
  }

  /** A document of well-formed lines reads back as the lines' texts. */
  lemma {:induction false} ReadDocumentOf(rows: seq<seq<Cell>>)
    requires |rows| >= 1
    requires forall r :: 0 <= r < |rows| ==> WellFormedRow(rows[r])
    ensures ReadDocument(EncodeDocument(rows)) == Some(TextRows(rows))
  {
    if |rows| == 1 {
      ReadRecordOf(rows[0], None);
      assert EncodeDocument(rows) == EncodeRow(rows[0]) + Tail(None);
      assert TextRows(rows) == [Texts(rows[0])];
    } else {
      var rest := EncodeDocument(rows[1..]);
      assert EncodedRows(rows)[1..] == EncodedRows(rows[1..]);
      assert EncodeDocument(rows) == EncodeRow(rows[0]) + Tail(Some(rest));
      ReadRecordOf(rows[0], Some(rest));
      ReadDocumentOf(rows[1..]);
      assert [Texts(rows[0])] + TextRows(rows[1..]) == TextRows(rows);
    }
  }

  // ---------------------------------------------------------------------------
  // The export with every cell quoted
  // ---------------------------------------------------------------------------

  function HeaderCells(): (r: seq<Cell>)
    ensures |r| == |HEADERS|
    ensures forall i :: 0 <= i < |HEADERS| ==> r[i] == Bare(HEADERS[i])
  {
    seq(|HEADERS|, i requires 0 <= i < |HEADERS| => Bare(HEADERS[i]))
  }

  /** A row with every value quoted and its quotes doubled. */
  function RowCells(e: Expense, amountText: real -> string): (r: seq<Cell>)
    ensures |r| == |HEADERS|
    ensures forall i :: 0 <= i < |r| ==> r[i] == Quoted(Fields(e, amountText)[i])
  {
    var f := Fields(e, amountText);
    seq(|f|, i requires 0 <= i < |f| => Quoted(f[i]))
  }

  function RowsCells(xs: seq<Expense>, amountText: real -> string): (r: seq<seq<Cell>>)
    ensures |r| == |xs|
    ensures forall i :: 0 <= i < |xs| ==> r[i] == RowCells(xs[i], amountText)
  {
    if xs == [] then [] else [RowCells(xs[0], amountText)] + RowsCells(xs[1..], amountText)
  }

  /** The values of each record, one list per record, in order. */
  function FieldRows(xs: seq<Expense>, amountText: real -> string): (r: seq<seq<string>>)
    ensures |r| == |xs|
    ensures forall i :: 0 <= i < |xs| ==> r[i] == Fields(xs[i], amountText)
  {
    if xs == [] then [] else [Fields(xs[0], amountText)] + FieldRows(xs[1..], amountText)
  }

  /** The export with the header as written and every value quoted. */
  function Csv(xs: seq<Expense>, amountText: real -> string): string {
    EncodeDocument(CsvRows(xs, amountText))
  }

  /** No column title holds a comma, a quote or a line break. */
  lemma HeadersPlain()
    ensures forall k :: 0 <= k < |HEADERS| ==> Plain(HEADERS[k])
  {
    forall k | 0 <= k < |HEADERS| ensures Plain(HEADERS[k]) {
      HeaderPlain(k);
    }
  }

  lemma HeaderPlain(k: nat)
    requires k < |HEADERS|
    ensures Plain(HEADERS[k])
  {
    if k < 4 {
      HeadersTameFront();
      assert k == 0 || k == 1 || k == 2 || k == 3;
    } else if k < 7 {
      HeadersTameMiddle();
      assert k == 4 || k == 5 || k == 6;
    } else {
      HeadersTameBack();
      assert k == 7 || k == 8 || k == 9;
    }
    TamePlain(HEADERS[k]);
  }

  /** Text made of letters, spaces, parentheses and slashes only, as the
      column titles and the labels are. */
  predicate Tame(s: string) {
    forall i :: 0 <= i < |s| ==> 'A' <= s[i] <= 'z' || s[i] == ' ' || s[i] == '(' || s[i] == ')' || s[i] == '/'
  }

  lemma TamePlain(s: string)
    requires Tame(s)
    ensures Plain(s)
  {
  }

  lemma HeadersTameFront()
    ensures Tame(HEADERS[0]) && Tame(HEADERS[1]) && Tame(HEADERS[2]) && Tame(HEADERS[3])
  {
  }

  lemma HeadersTameMiddle()
    ensures Tame(HEADERS[4]) && Tame(HEADERS[5]) && Tame(HEADERS[6])
  {
  }

  lemma HeadersTameBack()
    ensures Tame(HEADERS[7]) && Tame(HEADERS[8]) && Tame(HEADERS[9])
  {
  }

  lemma HeaderCellsFacts()
    ensures WellFormedRow(HeaderCells())
    ensures Texts(HeaderCells()) == HEADERS
  {
    HeadersPlain();
    assert forall i :: 0 <= i < |HEADERS| ==> WellFormed(HeaderCells()[i]);
  }

  lemma RowCellsFacts(e: Expense, amountText: real -> string)
    ensures WellFormedRow(RowCells(e, amountText))
    ensures Texts(RowCells(e, amountText)) == Fields(e, amountText)
  {
  }

  /** The lines of the export with every value quoted, as cells. */
  function CsvRows(xs: seq<Expense>, amountText: real -> string): seq<seq<Cell>> {
    [HeaderCells()] + RowsCells(xs, amountText)
  }

  lemma CsvRowsFacts(xs: seq<Expense>, amountText: real -> string)
    ensures forall r :: 0 <= r < |CsvRows(xs, amountText)| ==> WellFormedRow(CsvRows(xs, amountText)[r])
    ensures TextRows(CsvRows(xs, amountText)) == [HEADERS] + FieldRows(xs, amountText)
  {
    var rows := CsvRows(xs, amountText);
    var texts := TextRows(rows);
    var want := [HEADERS] + FieldRows(xs, amountText);
    forall r | 0 <= r < |rows| ensures WellFormedRow(rows[r]) && texts[r] == want[r] {
      CsvRowFacts(xs, amountText, r);
    }
    SameByIndex(texts, want);
  }

  lemma SameByIndex<T>(a: seq<T>, b: seq<T>)
    requires |a| == |b|
    requires forall i :: 0 <= i < |a| ==> a[i] == b[i]
    ensures a == b
  {
  }

  /** One line of the export: well formed, and its texts are the header or the record's values. */
  lemma CsvRowFacts(xs: seq<Expense>, amountText: real -> string, r: nat)
    requires r < |CsvRows(xs, amountText)|
    ensures WellFormedRow(CsvRows(xs, amountText)[r])
    ensures Texts(CsvRows(xs, amountText)[r]) == ([HEADERS] + FieldRows(xs, amountText))[r]
  {
    var rows := CsvRows(xs, amountText);
    if r == 0 {
      HeaderCellsFacts();
      assert rows[0] == HeaderCells();
    } else {
      RowCellsFacts(xs[r - 1], amountText);
      assert rows[r] == RowCells(xs[r - 1], amountText);
      assert ([HEADERS] + FieldRows(xs, amountText))[r] == FieldRows(xs, amountText)[r - 1];
    }
  }

  /** The export reads back as the header followed by the ten values of each
      record, in order, whatever the values hold. */
  lemma CsvReadsBack(xs: seq<Expense>, amountText: real -> string)
    ensures ReadDocument(Csv(xs, amountText)) == Some([HEADERS] + FieldRows(xs, amountText))
  {
    CsvRowsFacts(xs, amountText);
    ReadDocumentOf(CsvRows(xs, amountText));
  }

  // ---------------------------------------------------------------------------
  // What the export as written reads back as
  // ---------------------------------------------------------------------------

  /** The cells the page writes bare are plain, and the business unit, which
      it quotes without escaping, holds no quote. */
  predicate SafeAsWritten(e: Expense, amountText: real -> string) {
    Plain(e.id) && Plain(e.date) && Plain(e.category) && Plain(amountText(e.amount)) &&
    Plain(e.submittedBy) && QUOTE !in e.businessUnit
  }

  /** The labels of the two enumerations are plain. */
  lemma StatusLabelPlain(st: ExpenseStatus)
    ensures Plain(st.Label())
  {
    assert Tame(st.Label());
    TamePlain(st.Label());
  }

  lemma MethodLabelPlain(pm: PaymentMethod)
    ensures Plain(pm.Label())
  {
    assert Tame(pm.Label());
    TamePlain(pm.Label());
  }

  /** The cells the page writes, as bare and quoted cells. */
  function AsWrittenCells(e: Expense, amountText: real -> string): seq<Cell> {
    [Bare(e.id), Bare(e.date), Quoted(e.merchant), Quoted(e.businessUnit), Bare(e.category),
     Bare(amountText(e.amount)), Bare(e.status.Label()), Bare(e.paymentMethod.Label()),
     Quoted(e.description), Bare(e.submittedBy)]
  }

  lemma AsWrittenIsEncoding(e: Expense, amountText: real -> string)
    requires QUOTE !in e.businessUnit
    ensures Encoded(AsWrittenCells(e, amountText)) == AsWrittenFields(e, amountText)
  {
  }

  lemma AsWrittenCellsFacts(e: Expense, amountText: real -> string)
    requires SafeAsWritten(e, amountText)
    ensures WellFormedRow(AsWrittenCells(e, amountText))
    ensures Texts(AsWrittenCells(e, amountText)) == Fields(e, amountText)
  {
    AsWrittenCellsWellFormed(e, amountText);
    AsWrittenCellsTexts(e, amountText);
  }

  lemma AsWrittenCellsWellFormed(e: Expense, amountText: real -> string)
    requires SafeAsWritten(e, amountText)
    ensures WellFormedRow(AsWrittenCells(e, amountText))
  {
    StatusLabelPlain(e.status);
    MethodLabelPlain(e.paymentMethod);
    WellFormedRowOf(AsWrittenCells(e, amountText));
  }

  lemma AsWrittenCellsTexts(e: Expense, amountText: real -> string)
    ensures Texts(AsWrittenCells(e, amountText)) == Fields(e, amountText)
  {
  }

  /** On values that avoid the special characters where the page writes them
      bare, a row as written reads back as the record's ten values. */
  lemma AsWrittenReadsBack(e: Expense, amountText: real -> string)
    requires SafeAsWritten(e, amountText)
    ensures ReadRecord(AsWrittenRow(e, amountText)) == Some(Record(Fields(e, amountText), None))
  {
    var cells := AsWrittenCells(e, amountText);
    AsWrittenIsEncoding(e, amountText);
    AsWrittenCellsFacts(e, amountText);
    ReadRecordOf(cells, None);
    assert AsWrittenRow(e, amountText) + Tail(None) == AsWrittenRow(e, amountText);
  }

  /** Replacing one part `x,y` of a comma-joined list by the two parts `x` and
      `y` leaves the joined text unchanged. */
  lemma {:induction false} JoinSplitPart(p: seq<string>, x: string, y: string, q: seq<string>)
    ensures Join([COMMA], p + [x + [COMMA] + y] + q) == Join([COMMA], p + [x, y] + q)
  {
    if p == [] {
      assert p + [x + [COMMA] + y] + q == [x + [COMMA] + y] + q;
      assert p + [x, y] + q == [x, y] + q;
      assert ([x, y] + q)[1..] == [y] + q;
      if q != [] {
        assert ([x + [COMMA] + y] + q)[1..] == q;
        assert ([y] + q)[1..] == q;
      }
    } else {
      JoinSplitPart(p[1..], x, y, q);
      assert (p + [x + [COMMA] + y] + q)[1..] == p[1..] + [x + [COMMA] + y] + q;
      assert (p + [x, y] + q)[1..] == p[1..] + [x, y] + q;
    }
  }

  /** A category holding a comma, which the page writes bare, makes its row
      read back as eleven values instead of ten: the category split in two and
      every later value shifted one column to the right. */
  lemma AsWrittenCommaInCategory(e: Expense, amountText: real -> string, a: string, b: string)
    requires e.category == a + [COMMA] + b && Plain(a) && Plain(b)
    requires Plain(e.id) && Plain(e.date) && Plain(amountText(e.amount)) && Plain(e.submittedBy)
    requires QUOTE !in e.businessUnit
    ensures ReadRecord(AsWrittenRow(e, amountText))
            == Some(Record([e.id, e.date, e.merchant, e.businessUnit, a, b, amountText(e.amount), e.status.Label(),
                            e.paymentMethod.Label(), e.description, e.submittedBy], None))
    ensures |ReadRecord(AsWrittenRow(e, amountText)).value.fields| == |HEADERS| + 1
  {
    var cells := SplitCells(e, amountText, a, b);
    AsWrittenRowSplit(e, amountText, a, b);
    SplitCellsWellFormed(e, amountText, a, b);
    SplitCellsTexts(e, amountText, a, b);
    ReadRecordOf(cells, None);
    assert EncodeRow(cells) + Tail(None) == EncodeRow(cells);
  }

  /** With a category `a,b`, the row as written is the encoding of the eleven split cells. */
  lemma AsWrittenRowSplit(e: Expense, amountText: real -> string, a: string, b: string)
    requires e.category == a + [COMMA] + b
    requires QUOTE !in e.businessUnit
    ensures AsWrittenRow(e, amountText) == EncodeRow(SplitCells(e, amountText, a, b))
  {
    FieldsAroundCategory(e, amountText, a, b);
    EncodedAroundCategory(e, amountText, a, b);
    JoinSplitPart(FrontFields(e), a, b, BackFields(e, amountText));
  }

  /** The four cells written before the category. */
  function FrontFields(e: Expense): seq<string> {
    [e.id, e.date, Quote(Escape(e.merchant)), Quote(e.businessUnit)]
  }

  /** The five cells written after the category. */
  function BackFields(e: Expense, amountText: real -> string): seq<string> {
    [amountText(e.amount), e.status.Label(), e.paymentMethod.Label(), Quote(Escape(e.description)), e.submittedBy]
  }

  lemma FieldsAroundCategory(e: Expense, amountText: real -> string, a: string, b: string)
    requires e.category == a + [COMMA] + b
    ensures AsWrittenFields(e, amountText) == FrontFields(e) + [a + [COMMA] + b] + BackFields(e, amountText)
  {
  }

  lemma EncodedAroundCategory(e: Expense, amountText: real -> string, a: string, b: string)
    requires QUOTE !in e.businessUnit
    ensures Encoded(SplitCells(e, amountText, a, b)) == FrontFields(e) + [a, b] + BackFields(e, amountText)
  {
    var mid := [Bare(a), Bare(b)];
    EncodedConcat(FrontCells(e) + mid, BackCells(e, amountText));
    EncodedConcat(FrontCells(e), mid);
    EncodedFront(e);
    EncodedBack(e, amountText);
    assert Encoded(mid) == [a, b];
  }

  /** The cells of a row as written with a category `a,b`, as the reader sees
      them: the four cells before the category, its two halves, the five after. */
  function SplitCells(e: Expense, amountText: real -> string, a: string, b: string): seq<Cell> {
    FrontCells(e) + [Bare(a), Bare(b)] + BackCells(e, amountText)
  }

  function FrontCells(e: Expense): seq<Cell> {
    [Bare(e.id), Bare(e.date), Quoted(e.merchant), Quoted(e.businessUnit)]
  }

  function BackCells(e: Expense, amountText: real -> string): seq<Cell> {
    [Bare(amountText(e.amount)), Bare(e.status.Label()), Bare(e.paymentMethod.Label()),
     Quoted(e.description), Bare(e.submittedBy)]
  }

  lemma EncodedConcat(a: seq<Cell>, b: seq<Cell>)
    ensures Encoded(a + b) == Encoded(a) + Encoded(b)
  {
  }

  lemma EncodedFront(e: Expense)
    requires QUOTE !in e.businessUnit
    ensures Encoded(FrontCells(e)) == FrontFields(e)
  {
  }

  lemma EncodedBack(e: Expense, amountText: real -> string)
    ensures Encoded(BackCells(e, amountText)) == BackFields(e, amountText)
  {
  }

  lemma SplitCellsTexts(e: Expense, amountText: real -> string, a: string, b: string)
    ensures Texts(SplitCells(e, amountText, a, b))
            == [e.id, e.date, e.merchant, e.businessUnit, a, b, amountText(e.amount), e.status.Label(),
                e.paymentMethod.Label(), e.description, e.submittedBy]
  {
  }

  lemma SplitCellsWellFormed(e: Expense, amountText: real -> string, a: string, b: string)
    requires Plain(a) && Plain(b)
    requires Plain(e.id) && Plain(e.date) && Plain(amountText(e.amount)) && Plain(e.submittedBy)
    ensures WellFormedRow(SplitCells(e, amountText, a, b))
  {
    StatusLabelPlain(e.status);
    MethodLabelPlain(e.paymentMethod);
    WellFormedRowOf(SplitCells(e, amountText, a, b));
  }

  /** With no line break in any value, the export as written has one line for
      the header and one per record, in order. */
  lemma AsWrittenLines(xs: seq<Expense>, amountText: real -> string)
    requires forall i :: 0 <= i < |xs| ==> OneLineFields(xs[i], amountText)
    ensures Split(AsWrittenCsv(xs, amountText), NEWLINE) == [Join([COMMA], HEADERS)] + AsWrittenRows(xs, amountText)
  {
    var rows := AsWrittenRows(xs, amountText);
    HeaderLineOneLine();
    RowsOneLine(xs, amountText);
    LinesAvoid(Join([COMMA], HEADERS), rows, NEWLINE);
    SplitJoin(NEWLINE, [Join([COMMA], HEADERS)] + rows);
  }

  lemma RowsOneLine(xs: seq<Expense>, amountText: real -> string)
    requires forall i :: 0 <= i < |xs| ==> OneLineFields(xs[i], amountText)
    ensures forall i :: 0 <= i < |xs| ==> NEWLINE !in AsWrittenRows(xs, amountText)[i]
  {
    forall i | 0 <= i < |xs| ensures NEWLINE !in AsWrittenRows(xs, amountText)[i] {
      RowOneLine(xs[i], amountText);
    }
  }

  lemma LinesAvoid(first: string, rest: seq<string>, c: char)
    requires c !in first
    requires forall i :: 0 <= i < |rest| ==> c !in rest[i]
    ensures forall i :: 0 <= i < |[first] + rest| ==> c !in ([first] + rest)[i]
  {
    var parts := [first] + rest;
    forall i | 0 <= i < |parts| ensures c !in parts[i] {
      if i > 0 {
        assert parts[i] == rest[i - 1];
      }
    }
  }

  /** No cell of the record's row as written holds a line break. */
  predicate OneLineFields(e: Expense, amountText: real -> string) {
    forall k :: 0 <= k < |HEADERS| ==> NEWLINE !in AsWrittenFields(e, amountText)[k]
  }

  lemma HeaderLineOneLine()
    ensures NEWLINE !in Join([COMMA], HEADERS)
  {
    HeadersPlain();
    JoinAvoids(HEADERS, NEWLINE);
  }

  lemma RowOneLine(e: Expense, amountText: real -> string)
    requires OneLineFields(e, amountText)
    ensures NEWLINE !in AsWrittenRow(e, amountText)
  {
    JoinAvoids(AsWrittenFields(e, amountText), NEWLINE);
  }

  /** A comma-joined list holds a character other than the comma only when a part does. */
  lemma {:induction false} JoinAvoids(parts: seq<string>, c: char)
    requires c != COMMA
    requires forall k :: 0 <= k < |parts| ==> c !in parts[k]
    ensures c !in Join([COMMA], parts)
  {
    if |parts| > 1 {
      JoinAvoids(parts[1..], c);
    }
  }

  // ---------------------------------------------------------------------------
  // The whole export as written, read back
  // ---------------------------------------------------------------------------

  /** The cells of each record's row as written, in order. */
  function AsWrittenRowsCells(xs: seq<Expense>, amountText: real -> string): (r: seq<seq<Cell>>)
    ensures |r| == |xs|
    ensures forall i :: 0 <= i < |xs| ==> r[i] == AsWrittenCells(xs[i], amountText)
  {
    if xs == [] then [] else [AsWrittenCells(xs[0], amountText)] + AsWrittenRowsCells(xs[1..], amountText)
  }

  /** The header line is the encoding of the bare header cells. */
  lemma HeaderEncoding()
    ensures EncodeRow(HeaderCells()) == Join([COMMA], HEADERS)
  {
    assert Encoded(HeaderCells()) == HEADERS;
  }

  /** Encoding and reading rows both work row by row from the head. */
  lemma RowsCons(h: seq<Cell>, t: seq<seq<Cell>>)
    ensures EncodedRows([h] + t) == [EncodeRow(h)] + EncodedRows(t)
    ensures TextRows([h] + t) == [Texts(h)] + TextRows(t)
  {
    assert ([h] + t)[1..] == t;
  }

  /** Each record's row as written is the encoding of its cells. */
  lemma {:induction false} AsWrittenRowsEncoding(xs: seq<Expense>, amountText: real -> string)
    requires forall i :: 0 <= i < |xs| ==> QUOTE !in xs[i].businessUnit
    ensures EncodedRows(AsWrittenRowsCells(xs, amountText)) == AsWrittenRows(xs, amountText)
  {
    if xs != [] {
      AsWrittenIsEncoding(xs[0], amountText);
      AsWrittenRowsEncoding(xs[1..], amountText);
      RowsCons(AsWrittenCells(xs[0], amountText), AsWrittenRowsCells(xs[1..], amountText));
    }
  }

  /** Each safe record's row as written is well formed and stands for its ten values. */
  lemma AsWrittenRowsFacts(xs: seq<Expense>, amountText: real -> string)
    requires forall i :: 0 <= i < |xs| ==> SafeAsWritten(xs[i], amountText)
    ensures forall i :: 0 <= i < |xs| ==> WellFormedRow(AsWrittenRowsCells(xs, amountText)[i])
    ensures TextRows(AsWrittenRowsCells(xs, amountText)) == FieldRows(xs, amountText)
  {
    var cells := AsWrittenRowsCells(xs, amountText);
    var fields := FieldRows(xs, amountText);
    forall i | 0 <= i < |xs| ensures WellFormedRow(cells[i]) && TextRows(cells)[i] == fields[i] {
      RowFacts(xs, amountText, i, cells[i], fields[i]);
    }
    SameByIndex(TextRows(cells), fields);
  }

  lemma RowFacts(xs: seq<Expense>, amountText: real -> string, i: nat, cells: seq<Cell>, fields: seq<string>)
    requires i < |xs| && SafeAsWritten(xs[i], amountText)
    requires cells == AsWrittenRowsCells(xs, amountText)[i] && fields == FieldRows(xs, amountText)[i]
    ensures WellFormedRow(cells) && Texts(cells) == fields
  {
    AsWrittenCellsFacts(xs[i], amountText);
  }

  /** Rows that are each well formed, after a well-formed head. */
  lemma WellFormedCons(h: seq<Cell>, t: seq<seq<Cell>>)
    requires WellFormedRow(h)
    requires forall i :: 0 <= i < |t| ==> WellFormedRow(t[i])
    ensures forall r :: 0 <= r < |[h] + t| ==> WellFormedRow(([h] + t)[r])
  {
    forall r | 0 <= r < |[h] + t| ensures WellFormedRow(([h] + t)[r]) {
      if r > 0 {
        assert ([h] + t)[r] == t[r - 1];
      }
    }
  }

  /** When no record has a comma, quote or line break in a bare value or a
      quote in its business unit, the whole export as written reads back as
      the header and the ten values of each record, in order. */
  lemma AsWrittenDocumentReadsBack(xs: seq<Expense>, amountText: real -> string)
    requires forall i :: 0 <= i < |xs| ==> SafeAsWritten(xs[i], amountText)
    ensures ReadDocument(AsWrittenCsv(xs, amountText)) == Some([HEADERS] + FieldRows(xs, amountText))
  {
    var body := AsWrittenRowsCells(xs, amountText);
    var rows := [HeaderCells()] + body;
    RowsCons(HeaderCells(), body);
    HeaderEncoding();
    AsWrittenRowsEncoding(xs, amountText);
    assert EncodeDocument(rows) == AsWrittenCsv(xs, amountText);
    HeaderCellsFacts();
    AsWrittenRowsFacts(xs, amountText);
    WellFormedCons(HeaderCells(), body);
    ReadDocumentOf(rows);
  }

  /** What the export as written promises: read back whole when every record
      is safe to write bare, and one line per record when no value holds a
      line break. */
  lemma AsWrittenCsvFacts(xs: seq<Expense>, amountText: real -> string)
    ensures (forall i :: 0 <= i < |xs| ==> SafeAsWritten(xs[i], amountText)) ==>
              ReadDocument(AsWrittenCsv(xs, amountText)) == Some([HEADERS] + FieldRows(xs, amountText))
    ensures (forall i :: 0 <= i < |xs| ==> OneLineFields(xs[i], amountText)) ==>
              Split(AsWrittenCsv(xs, amountText), NEWLINE) == [Join([COMMA], HEADERS)] + AsWrittenRows(xs, amountText)
  {
    if forall i :: 0 <= i < |xs| ==> SafeAsWritten(xs[i], amountText) {
      AsWrittenDocumentReadsBack(xs, amountText);
    }
    if forall i :: 0 <= i < |xs| ==> OneLineFields(xs[i], amountText) {
      AsWrittenLines(xs, amountText);
    }
  }
}
