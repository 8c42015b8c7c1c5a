/** Reading an uploaded CSV file: parseEnrichmentUpload of src/lib/enrichment.ts. */
module Csv {
  import opened Days

  /** Text as JavaScript has it: UTF-16 code units. */
  type Unit = x: int | 0 <= x < 0x10000

  type Text = seq<Unit>

  const QUOTE: Unit := 34
  const COMMA: Unit := 44
  const SEMICOLON: Unit := 59
  const TAB: Unit := 9
  const LF: Unit := 10
  const CR: Unit := 13
  const BOM: Unit := 0xFEFF

  const MAX_ROWS: nat := 5000
  const MAX_BYTES: nat := 4000000
  const MAX_COLUMNS: nat := 50
  const MAX_HEADER: nat := 200

  datatype Error = TooBig | NoContent | QuoteInsideValue | QuoteNotClosed | RaggedRows | BadColumns | RepeatedColumns | BadRowCount

  /** `rows` lists each record's values in the order of `headers`; a JSON file is not part of this model. */
  datatype Parsed = Table(headers: seq<Text>, rows: seq<seq<Text>>) | Json | Failed(why: Error)

  // ---------------------------------------------------------------- text

  /** What String.prototype.trim strips. */
  predicate Space(u: Unit) {
    9 <= u <= 13 || u in {32, 0xA0, 0x1680, 0x2028, 0x2029, 0x202F, 0x205F, 0x3000, 0xFEFF} || 0x2000 <= u <= 0x200A
  }

  function TrimStart(s: Text): Text {
    if s != [] && Space(s[0]) then TrimStart(s[1..]) else s
  }

  function TrimEnd(s: Text): Text {
    if s != [] && Space(s[|s| - 1]) then TrimEnd(s[..|s| - 1]) else s
  }

  function Trim(s: Text): Text {
    TrimEnd(TrimStart(s))
  }

  /** Buffer.byteLength in UTF-8: surrogate pairs take four bytes. */
  function Bytes(s: Text): nat {
    if s == [] then 0
    else if 0xD800 <= s[0] < 0xDC00 && |s| > 1 && 0xDC00 <= s[1] < 0xE000 then 4 + Bytes(s[2..])
    else (if s[0] < 0x80 then 1 else if s[0] < 0x800 then 2 else 3) + Bytes(s[1..])
  }

  /** The text without a byte order mark and without space around it. */
  function Source(text: Text): Text {
    Trim(if text != [] && text[0] == BOM then text[1..] else text)
  }

  // ---------------------------------------------------------------- which delimiter

  datatype Counts = Counts(commas: nat, semicolons: nat, tabs: nat)

  function Counted(n: Counts, u: Unit): Counts {
    if u == COMMA then n.(commas := n.commas + 1)
    else if u == SEMICOLON then n.(semicolons := n.semicolons + 1)
    else if u == TAB then n.(tabs := n.tabs + 1)
    else n
  }

  /** Delimiters outside quotes in the first line of `s`. */
  function CountFrom(s: Text, quoted: bool, n: Counts): Counts {
    if s == [] then n
    else if s[0] == QUOTE then
      if quoted && |s| > 1 && s[1] == QUOTE then CountFrom(s[2..], quoted, n) else CountFrom(s[1..], !quoted, n)
    else if quoted then CountFrom(s[1..], quoted, n)
    else if s[0] == LF then n
    else CountFrom(s[1..], quoted, Counted(n, s[0]))
  }

  /** The commonest; a comma before a semicolon before a tab when they tie. */
  function Commonest(n: Counts): Unit {
    if n.commas >= n.semicolons && n.commas >= n.tabs then COMMA
    else if n.semicolons >= n.tabs then SEMICOLON
    else TAB
  }

  function Delimiter(source: Text): Unit {
    Commonest(CountFrom(source, false, Counts(0, 0, 0)))
  }

  method DetectDelimiter(source: Text) returns (d: Unit)
    ensures d == Delimiter(source)
  {
    hide Counted;
    var quoted, counts, index := false, Counts(0, 0, 0), 0;
    while index < |source|
      invariant 0 <= index <= |source|
      invariant CountFrom(source, false, Counts(0, 0, 0)) == CountFrom(source[index..], quoted, counts)
    {
      var unit := source[index];
      var rest := source[index..];
      assert rest[1..] == source[index + 1..];
      if unit == QUOTE {
        if quoted && index + 1 < |source| && source[index + 1] == QUOTE {
          assert rest[2..] == source[index + 2..];
          index := index + 1;
        } else {
          quoted := !quoted;
        }
      } else if !quoted && unit == LF {
        break;
      } else if !quoted {
        counts := Counted(counts, unit);
      }
      index := index + 1;
    }
    d := Commonest(counts);
  }

  // ---------------------------------------------------------------- the quoted-cell machine

  datatype Machine = Machine(rows: seq<seq<Text>>, cells: seq<Text>, cell: Text, quoted: bool)

  predicate AnyFilled(cells: seq<Text>) {
    exists i :: 0 <= i < |cells| && cells[i] != []
  }

  function EndCell(m: Machine): Machine {
    m.(cells := m.cells + [Trim(m.cell)], cell := [])
  }

  /** A row is kept unless every cell is empty. */
  function EndRow(m: Machine): Machine {
    m.(rows := if AnyFilled(m.cells) then m.rows + [m.cells] else m.rows, cells := [])
  }

  /** The machine after `s`; None when a quote stands inside an unquoted value. */
  function Scan(s: Text, d: Unit, m: Machine): Option<Machine> {
    if s == [] then Some(m)
    else if s[0] == QUOTE then
      if m.quoted && |s| > 1 && s[1] == QUOTE then Scan(s[2..], d, m.(cell := m.cell + [QUOTE]))
      else if m.quoted || Trim(m.cell) == [] then Scan(s[1..], d, m.(quoted := !m.quoted))
      else None
    else if !m.quoted && s[0] == LF then Scan(s[1..], d, EndRow(EndCell(m)))
    else if !m.quoted && s[0] == d then Scan(s[1..], d, EndCell(m))
    else if s[0] != CR || m.quoted then Scan(s[1..], d, m.(cell := m.cell + [s[0]]))
    else Scan(s[1..], d, m)
  }

  /** Every record of the source, the header first. */
  datatype Records = Records(rows: seq<seq<Text>>) | NoRecords(why: Error)

  function RecordsOf(source: Text, d: Unit): Records {
    var end := Scan(source, d, Machine([], [], [], false));
    if end.None? then NoRecords(QuoteInsideValue)
    else if end.value.quoted then NoRecords(QuoteNotClosed)
    else Records(EndRow(EndCell(end.value)).rows)
  }

  method ReadRecords(source: Text, d: Unit) returns (r: Records)
    ensures r == RecordsOf(source, d)
  {
    hide Trim;
    var rows: seq<seq<Text>>, cells: seq<Text>, cell: Text, quoted, index := [], [], [], false, 0;
    while index < |source|
      invariant 0 <= index <= |source|
      invariant Scan(source, d, Machine([], [], [], false)) == Scan(source[index..], d, Machine(rows, cells, cell, quoted))
    {
      var unit := source[index];
      var rest := source[index..];
      assert rest[1..] == source[index + 1..];
      if unit == QUOTE {
        if quoted && index + 1 < |source| && source[index + 1] == QUOTE {
          assert rest[2..] == source[index + 2..];
          cell := cell + [QUOTE];
          index := index + 1;
        } else if quoted || Trim(cell) == [] {
          quoted := !quoted;
        } else {
          return NoRecords(QuoteInsideValue);
        }
      } else if !quoted && (unit == d || unit == LF) {
        cells := cells + [Trim(cell)];
        cell := [];
        if unit == LF {
          if AnyFilled(cells) {
            rows := rows + [cells];
          }
          cells := [];
        }
      } else if unit != CR || quoted {
        cell := cell + [unit];
      }
      index := index + 1;
    }
    if quoted {
      return NoRecords(QuoteNotClosed);
    }
    cells := cells + [Trim(cell)];
    if AnyFilled(cells) {
      rows := rows + [cells];
    }
    r := Records(rows);
  }

  function Quotes(s: Text): nat {
    if s == [] then 0 else (if s[0] == QUOTE then 1 else 0) + Quotes(s[1..])
  }

  /** Quotes open and close in turn, a doubled one counting as two. */
  lemma {:induction false} QuotesTakeTurns(s: Text, d: Unit, m: Machine)
    ensures Scan(s, d, m).Some? ==> (Scan(s, d, m).value.quoted <==> m.quoted != (Quotes(s) % 2 == 1))
    decreases |s|
  {
    hide Trim, EndRow, EndCell;
    if s != [] {
      if s[0] == QUOTE {
        if m.quoted && |s| > 1 && s[1] == QUOTE {
          assert s[1..][1..] == s[2..];
          QuotesTakeTurns(s[2..], d, m.(cell := m.cell + [QUOTE]));
        } else if m.quoted || Trim(m.cell) == [] {
          QuotesTakeTurns(s[1..], d, m.(quoted := !m.quoted));
        }
      } else if !m.quoted && s[0] == LF {
        EndsAsBefore(m);
        QuotesTakeTurns(s[1..], d, EndRow(EndCell(m)));
      } else if !m.quoted && s[0] == d {
        EndsAsBefore(m);
        QuotesTakeTurns(s[1..], d, EndCell(m));
      } else if s[0] != CR || m.quoted {
        QuotesTakeTurns(s[1..], d, m.(cell := m.cell + [s[0]]));
      } else {
        QuotesTakeTurns(s[1..], d, m);
      }
    }
  }

  lemma {:induction false} EndsAsBefore(m: Machine)
    ensures EndCell(m).quoted == m.quoted && EndRow(EndCell(m)).quoted == m.quoted
  {
  }

  /** A file is refused for an unclosed quote only if its quotes are odd in number, and records need them even. */
  lemma {:induction false} OddQuotesAreRefused(source: Text, d: Unit)
    ensures var r := RecordsOf(source, d);
      && (r == NoRecords(QuoteNotClosed) ==> Quotes(source) % 2 == 1)
      && (r.Records? ==> Quotes(source) % 2 == 0)
  {
    hide Scan, EndRow, EndCell;
    QuotesTakeTurns(source, d, Machine([], [], [], false));
  }

  // ---------------------------------------------------------------- the checks

  predicate SameWidth(headers: seq<Text>, rows: seq<seq<Text>>) {
    forall i :: 0 <= i < |rows| ==> |rows[i]| == |headers|
  }

  predicate GoodHeaders(headers: seq<Text>) {
    1 <= |headers| <= MAX_COLUMNS && forall i :: 0 <= i < |headers| ==> Trim(headers[i]) != [] && |headers[i]| <= MAX_HEADER
  }

  /** Column names differ once case and punctuation are put aside; `norm` is normalizedHeader. */
  predicate DistinctHeaders(norm: Text -> Text, headers: seq<Text>) {
    forall i, j :: 0 <= i < j < |headers| ==> norm(headers[i]) != norm(headers[j])
  }

  function Checked(norm: Text -> Text, records: seq<seq<Text>>): Parsed {
    var headers := if records == [] then [] else records[0];
    var rows := if records == [] then [] else records[1..];
    if !SameWidth(headers, rows) then Failed(RaggedRows)
    else if !GoodHeaders(headers) then Failed(BadColumns)
    else if !DistinctHeaders(norm, headers) then Failed(RepeatedColumns)
    else if !(1 <= |rows| <= MAX_ROWS) then Failed(BadRowCount)
    else Table(headers, rows)
  }

  function Parse(norm: Text -> Text, text: Text): Parsed {
    if Bytes(text) > MAX_BYTES then Failed(TooBig)
    else
      var source := Source(text);
      if source == [] then Failed(NoContent)
      else if source[0] == 91 || source[0] == 123 then Json
      else
        var r := RecordsOf(source, Delimiter(source));
        match r
        case NoRecords(why) => Failed(why)
        case Records(rows) => Checked(norm, rows)
  }

  /** parseEnrichmentUpload, for CSV text. */
  method ParseEnrichmentUpload(norm: Text -> Text, text: Text) returns (p: Parsed)
    ensures p == Parse(norm, text)
  {
    hide RecordsOf, Delimiter, Source, Checked, Bytes;
    if Bytes(text) > MAX_BYTES {
      return Failed(TooBig);
    }
    var source := Source(text);
    if source == [] {
      return Failed(NoContent);
    }
    if source[0] == 91 || source[0] == 123 {
      return Json;
    }
    var d := DetectDelimiter(source);
    var r := ReadRecords(source, d);
    match r {
      case NoRecords(why) => p := Failed(why);
      case Records(rows) => p := Checked(norm, rows);
    }
  }

  // ---------------------------------------------------------------- writing, section 2 of RFC 4180

  function Doubled(c: Text): Text {
    if c == [] then [] else (if c[0] == QUOTE then [QUOTE, QUOTE] else [c[0]]) + Doubled(c[1..])
  }

  function Quoted(c: Text): Text {
    [QUOTE] + (Doubled(c) + [QUOTE])
  }

  /** Cells as they stand in the file, side by side. */
  function WriteRow(forms: seq<Text>, d: Unit): Text
    requires forms != []
  {
    if |forms| == 1 then forms[0] else forms[0] + ([d] + WriteRow(forms[1..], d))
  }

  function WriteRows(file: seq<seq<Text>>, d: Unit, eol: Text): Text
    requires file != [] && forall i :: 0 <= i < |file| ==> file[i] != []
  {
    if |file| == 1 then WriteRow(file[0], d) else WriteRow(file[0], d) + (eol + WriteRows(file[1..], d, eol))
  }

  /** Units that end a bare cell or open a quoted one. */
  predicate Special(u: Unit) {
    u in {QUOTE, COMMA, SEMICOLON, TAB, CR, LF}
  }

  /** What may stand bare: nothing special in it, and no space around it. */
  predicate Plain(c: Text) {
    Trim(c) == c && forall i :: 0 <= i < |c| ==> !Special(c[i])
  }

  /** `form` is cell `c` as a file may hold it: quoted, or bare. */
  predicate FormOf(form: Text, c: Text) {
    form == Quoted(c) || (form == c && Plain(c))
  }

  predicate FormsOf(forms: seq<Text>, cells: seq<Text>) {
    |forms| == |cells| && forall j :: 0 <= j < |cells| ==> FormOf(forms[j], cells[j])
  }

  /** The file holds this table, each cell quoted or bare as it likes. */
  predicate Written(file: seq<seq<Text>>, table: seq<seq<Text>>) {
    |file| == |table| && forall i :: 0 <= i < |table| ==> FormsOf(file[i], table[i])
  }

  function AllQuoted(cells: seq<Text>): (forms: seq<Text>)
    ensures |forms| == |cells|
  {
    seq(|cells|, j requires 0 <= j < |cells| => Quoted(cells[j]))
  }

  function QuotedFile(table: seq<seq<Text>>): (file: seq<seq<Text>>)
    ensures |file| == |table|
    ensures forall i :: 0 <= i < |table| ==> |file[i]| == |table[i]|
  {
    seq(|table|, i requires 0 <= i < |table| => AllQuoted(table[i]))
  }

  /** A whole file: every cell quoted, lines ended one way, the last line's end optional. */
  function Write(headers: seq<Text>, rows: seq<seq<Text>>, d: Unit, eol: Text, ended: bool): Text
    requires headers != [] && forall i :: 0 <= i < |rows| ==> rows[i] != []
  {
    WriteRows(QuotedFile([headers] + rows), d, eol) + (if ended then eol else [])
  }

  predicate IsDelimiter(d: Unit) {
    d in {COMMA, SEMICOLON, TAB}
  }

  predicate IsLineEnd(eol: Text) {
    eol in {[LF], [CR, LF]}
  }

  predicate Trimmed(cells: seq<Text>) {
    forall i :: 0 <= i < |cells| ==> Trim(cells[i]) == cells[i]
  }

  /** A table an upload can hold. */
  ghost predicate Writable(norm: Text -> Text, headers: seq<Text>, rows: seq<seq<Text>>) {
    && SameWidth(headers, rows) && GoodHeaders(headers) && DistinctHeaders(norm, headers) && 1 <= |rows| <= MAX_ROWS
    && Trimmed(headers)
    && forall i :: 0 <= i < |rows| ==> Trimmed(rows[i]) && AnyFilled(rows[i])
  }

  /** What may follow a quoted cell: anything but another quote. */
  predicate NoQuote(rest: Text) {
    rest == [] || rest[0] != QUOTE
  }

  // ---------------------------------------------------------------- the machine reads back what was written

  lemma {:induction false} ScanInside(c: Text, rest: Text, d: Unit, m: Machine)
    requires m.quoted && NoQuote(rest)
    ensures Scan(Doubled(c) + ([QUOTE] + rest), d, m) == Scan(rest, d, m.(cell := m.cell + c, quoted := false))
  {
    var s := Doubled(c) + ([QUOTE] + rest);
    if c == [] {
      assert s == [QUOTE] + rest;
      assert s[1..] == rest;
      assert m.cell + c == m.cell;
    } else {
      var tail := Doubled(c[1..]) + ([QUOTE] + rest);
      if c[0] == QUOTE {
        assert s == [QUOTE, QUOTE] + tail;
        assert s[2..] == tail;
      } else {
        assert s == [c[0]] + tail;
        assert s[1..] == tail;
      }
      ScanInside(c[1..], rest, d, m.(cell := m.cell + [c[0]]));
      assert m.cell + [c[0]] + c[1..] == m.cell + c;
    }
  }

  lemma {:induction false} ScanCell(c: Text, rest: Text, d: Unit, m: Machine)
    requires !m.quoted && m.cell == [] && NoQuote(rest)
    ensures Scan(Quoted(c) + rest, d, m) == Scan(rest, d, m.(cell := c))
  {
    var s := Quoted(c) + rest;
    assert s[1..] == Doubled(c) + ([QUOTE] + rest);
    assert s[0] == QUOTE && m.cell + c == c;
    ScanInside(c, rest, d, m.(quoted := true));
  }

  function WithoutReturns(c: Text): Text {
    if c == [] then [] else (if c[0] == CR then [] else [c[0]]) + WithoutReturns(c[1..])
  }

  /** Outside quotes everything up to the next delimiter, line end or quote is kept, except carriage returns. */
  lemma {:induction false} UnquotedIsKept(c: Text, rest: Text, d: Unit, m: Machine)
    requires !m.quoted && forall i :: 0 <= i < |c| ==> c[i] != QUOTE && c[i] != LF && c[i] != d
    ensures Scan(c + rest, d, m) == Scan(rest, d, m.(cell := m.cell + WithoutReturns(c)))
  {
    hide Scan;
    if c == [] {
      assert c + rest == rest && m.cell + [] == m.cell;
    } else {
      var kept := if c[0] == CR then [] else [c[0]];
      var next := m.(cell := m.cell + kept);
      assert c + rest == [c[0]] + (c[1..] + rest);
      ScanKeeps(c[0], c[1..] + rest, d, m);
      UnquotedIsKept(c[1..], rest, d, next);
      var more := WithoutReturns(c[1..]);
      assert WithoutReturns(c) == kept + more;
      assert m.cell + kept + more == m.cell + (kept + more);
    }
  }

  /** One such character: the machine goes on with it kept, a carriage return dropped. */
  lemma {:induction false} ScanKeeps(u: Unit, rest: Text, d: Unit, m: Machine)
    requires !m.quoted && u != QUOTE && u != LF && u != d
    ensures Scan([u] + rest, d, m) == Scan(rest, d, m.(cell := m.cell + if u == CR then [] else [u]))
  {
    hide EndRow, EndCell;
    var s := [u] + rest;
    assert s[0] == u && s[1..] == rest;
    assert m.cell + [] == m.cell;
  }

  lemma {:induction false} NoReturns(c: Text)
    requires forall i :: 0 <= i < |c| ==> c[i] != CR
    ensures WithoutReturns(c) == c
  {
    if c != [] {
      NoReturns(c[1..]);
    }
  }

  lemma {:induction false} ScanForm(form: Text, c: Text, rest: Text, d: Unit, m: Machine)
    requires FormOf(form, c) && IsDelimiter(d) && !m.quoted && m.cell == [] && NoQuote(rest)
    ensures Scan(form + rest, d, m) == Scan(rest, d, m.(cell := c))
  {
    hide Trim, Scan;
    if form == Quoted(c) {
      ScanCell(c, rest, d, m);
    } else {
      UnquotedIsKept(c, rest, d, m);
      NoReturns(c);
      assert m.cell + c == c;
    }
  }

  /** A written row is read cell by cell, up to its last cell; one cell needs no delimiter. */
  lemma {:induction false} ScanRow(forms: seq<Text>, cells: seq<Text>, rest: Text, d: Unit, e: Unit, m: Machine)
    requires cells != [] && FormsOf(forms, cells) && Trimmed(cells) && IsDelimiter(d) && IsDelimiter(e) && (d == e || |cells| == 1) && NoQuote(rest)
    requires !m.quoted && m.cell == []
    ensures Scan(WriteRow(forms, d) + rest, e, m) == Scan(rest, e, m.(cells := m.cells + cells[..|cells| - 1], cell := cells[|cells| - 1]))
  {
    hide Trim, FormOf;
    if |cells| == 1 {
      ScanForm(forms[0], cells[0], rest, e, m);
      assert m.cells + cells[..0] == m.cells;
    } else {
      var tail := [d] + (WriteRow(forms[1..], d) + rest);
      assert WriteRow(forms, d) + rest == forms[0] + tail;
      ScanForm(forms[0], cells[0], tail, e, m);
      assert tail[1..] == WriteRow(forms[1..], d) + rest;
      var next := EndCell(m.(cell := cells[0]));
      ScanRow(forms[1..], cells[1..], rest, d, e, next);
      assert next.cells + cells[1..][..|cells| - 2] == m.cells + cells[..|cells| - 1];
    }
  }

  /** A line end closes the row. */
  lemma {:induction false} ScanLineEnd(eol: Text, rest: Text, e: Unit, m: Machine)
    requires IsLineEnd(eol) && IsDelimiter(e) && !m.quoted
    ensures Scan(eol + rest, e, m) == Scan(rest, e, EndRow(EndCell(m)))
  {
    hide Trim;
    assert (eol + rest)[|eol|..] == rest;
    if eol == [CR, LF] {
      assert (eol + rest)[1..] == [LF] + rest;
      assert ([LF] + rest)[1..] == rest;
    }
  }

  ghost predicate GoodRows(rows: seq<seq<Text>>) {
    forall i :: 0 <= i < |rows| ==> rows[i] != [] && Trimmed(rows[i]) && AnyFilled(rows[i])
  }

  /** The last cell closes the row it belongs to. */
  lemma {:induction false} RowCloses(cells: seq<Text>, rows: seq<seq<Text>>)
    requires cells != [] && Trimmed(cells) && AnyFilled(cells)
    ensures EndRow(EndCell(Machine(rows, cells[..|cells| - 1], cells[|cells| - 1], false))) == Machine(rows + [cells], [], [], false)
  {
    hide Trim, AnyFilled;
    var m := Machine(rows, cells[..|cells| - 1], cells[|cells| - 1], false);
    assert cells[..|cells| - 1] + [Trim(cells[|cells| - 1])] == cells;
    assert EndCell(m).cells == cells;
  }

  lemma {:induction false} ScanRows(file: seq<seq<Text>>, rows: seq<seq<Text>>, d: Unit, e: Unit, eol: Text, before: seq<seq<Text>>)
    requires rows != [] && Written(file, rows) && GoodRows(rows) && IsDelimiter(d) && IsDelimiter(e) && IsLineEnd(eol)
    requires d == e || forall i :: 0 <= i < |rows| ==> |rows[i]| == 1
    ensures forall i :: 0 <= i < |file| ==> file[i] != []
    ensures var end := Scan(WriteRows(file, d, eol), e, Machine(before, [], [], false));
      end.Some? && !end.value.quoted && EndRow(EndCell(end.value)).rows == before + rows
  {
    hide Trim, AnyFilled, EndRow, EndCell, WriteRow, FormOf;
    var first := rows[0];
    var m := Machine(before, first[..|first| - 1], first[|first| - 1], false);
    RowCloses(first, before);
    assert [] + first[..|first| - 1] == first[..|first| - 1];
    if |rows| == 1 {
      ScanRow(file[0], first, [], d, e, Machine(before, [], [], false));
      assert WriteRow(file[0], d) + [] == WriteRow(file[0], d);
      assert before + [first] == before + rows;
    } else {
      var tail := eol + WriteRows(file[1..], d, eol);
      ScanRow(file[0], first, tail, d, e, Machine(before, [], [], false));
      ScanLineEnd(eol, WriteRows(file[1..], d, eol), e, m);
      ScanRows(file[1..], rows[1..], d, e, eol, before + [first]);
      assert before + [first] + rows[1..] == before + rows;
    }
  }

  // ---------------------------------------------------------------- the delimiter is found

  lemma {:induction false} CountInside(c: Text, rest: Text, n: Counts)
    requires NoQuote(rest)
    ensures CountFrom(Doubled(c) + ([QUOTE] + rest), true, n) == CountFrom(rest, false, n)
  {
    var s := Doubled(c) + ([QUOTE] + rest);
    if c == [] {
      assert s == [QUOTE] + rest;
      assert s[1..] == rest;
    } else {
      var tail := Doubled(c[1..]) + ([QUOTE] + rest);
      if c[0] == QUOTE {
        assert s == [QUOTE, QUOTE] + tail;
        assert s[2..] == tail;
      } else {
        assert s == [c[0]] + tail;
        assert s[1..] == tail;
      }
      CountInside(c[1..], rest, n);
    }
  }

  function Times(d: Unit, k: nat): Counts {
    Counts(if d == COMMA then k else 0, if d == SEMICOLON then k else 0, if d == TAB then k else 0)
  }

  /** Only the delimiters between cells are counted. */
  lemma {:induction false} CountRow(forms: seq<Text>, cells: seq<Text>, rest: Text, d: Unit, k: nat)
    requires cells != [] && FormsOf(forms, cells) && IsDelimiter(d) && NoQuote(rest)
    ensures CountFrom(WriteRow(forms, d) + rest, false, Times(d, k)) == CountFrom(rest, false, Times(d, k + |cells| - 1))
  {
    hide Quoted, Commonest, FormOf;
    if |cells| == 1 {
      CountForm(forms[0], cells[0], rest, Times(d, k));
    } else {
      var tail := [d] + (WriteRow(forms[1..], d) + rest);
      assert WriteRow(forms, d) + rest == forms[0] + tail;
      CountForm(forms[0], cells[0], tail, Times(d, k));
      assert tail[1..] == WriteRow(forms[1..], d) + rest;
      assert Counted(Times(d, k), d) == Times(d, k + 1);
      CountRow(forms[1..], cells[1..], rest, d, k + 1);
    }
  }

  lemma {:induction false} CountForm(form: Text, c: Text, rest: Text, n: Counts)
    requires FormOf(form, c) && NoQuote(rest)
    ensures CountFrom(form + rest, false, n) == CountFrom(rest, false, n)
  {
    hide Trim, CountFrom;
    if form == Quoted(c) {
      CountCell(c, rest, n);
    } else {
      CountBare(c, rest, n);
    }
  }

  lemma {:induction false} CountBare(c: Text, rest: Text, n: Counts)
    requires forall i :: 0 <= i < |c| ==> !Special(c[i])
    ensures CountFrom(c + rest, false, n) == CountFrom(rest, false, n)
  {
    if c == [] {
      assert c + rest == rest;
    } else {
      assert (c + rest)[1..] == c[1..] + rest;
      CountBare(c[1..], rest, n);
    }
  }

  lemma {:induction false} CountCell(c: Text, rest: Text, n: Counts)
    requires NoQuote(rest)
    ensures CountFrom(Quoted(c) + rest, false, n) == CountFrom(rest, false, n)
  {
    var s := Quoted(c) + rest;
    assert s[0] == QUOTE && s[1..] == Doubled(c) + ([QUOTE] + rest);
    CountInside(c, rest, n);
  }

  /** The delimiter is found, whatever the cells hold and whether they are quoted or bare. */
  lemma {:induction false} DelimiterIsFound(file: seq<seq<Text>>, table: seq<seq<Text>>, d: Unit, eol: Text)
    requires table != [] && Written(file, table) && IsDelimiter(d) && IsLineEnd(eol) && forall i :: 0 <= i < |table| ==> table[i] != []
    ensures forall i :: 0 <= i < |file| ==> file[i] != []
    ensures Delimiter(WriteRows(file, d, eol)) == if |table[0]| == 1 then COMMA else d
  {
    hide WriteRow, FormOf;
    forall i | 0 <= i < |file|
      ensures file[i] != []
    {
      assert |file[i]| == |table[i]|;
    }
    var rest := if |file| == 1 then [] else eol + WriteRows(file[1..], d, eol);
    assert WriteRows(file, d, eol) == WriteRow(file[0], d) + rest;
    CountRow(file[0], table[0], rest, d, 0);
    LineEndsCount(rest, eol, Times(d, |table[0]| - 1));
  }

  /** Counting stops at the end of the line. */
  lemma {:induction false} LineEndsCount(rest: Text, eol: Text, n: Counts)
    requires IsLineEnd(eol) && (rest == [] || eol <= rest)
    ensures CountFrom(rest, false, n) == n
  {
    if rest != [] && eol == [CR, LF] {
      assert rest[0] == CR && rest[1] == LF;
      assert rest[1..][0] == LF;
    }
  }

  // ---------------------------------------------------------------- the text around it

  /** A trimmed text neither begins nor ends with a space. */
  lemma {:induction false} TrimmedEdges(c: Text)
    requires Trim(c) == c && c != []
    ensures !Space(c[0]) && !Space(c[|c| - 1])
  {
    TrimEndTwice(TrimStart(c));
    TrimStartShorter(c);
    TrimStartTwice(c);
  }

  lemma {:induction false} TrimStartShorter(s: Text)
    ensures |TrimStart(s)| <= |s| && (|TrimStart(s)| == |s| ==> TrimStart(s) == s)
  {
    if s != [] && Space(s[0]) {
      TrimStartShorter(s[1..]);
    }
  }

  /** A cell that is not empty shows no space at its edges, quoted or bare. */
  lemma {:induction false} FormEdges(form: Text, c: Text)
    requires FormOf(form, c) && form != []
    ensures !Space(form[0]) && !Space(form[|form| - 1])
  {
    hide Trim;
    if form == c && Plain(c) {
      TrimmedEdges(c);
    }
  }

  lemma {:induction false} RowBegins(forms: seq<Text>, d: Unit)
    requires forms != [] && forms[0] != []
    ensures WriteRow(forms, d) != [] && WriteRow(forms, d)[0] == forms[0][0]
  {
  }

  lemma {:induction false} RowsBegin(file: seq<seq<Text>>, d: Unit, eol: Text)
    requires file != [] && (forall i :: 0 <= i < |file| ==> file[i] != []) && file[0][0] != []
    ensures var s := WriteRows(file, d, eol); s != [] && s[0] == file[0][0][0]
  {
    RowBegins(file[0], d);
  }

  /** A row ends as its last cell does, or with a delimiter before an empty one. */
  lemma {:induction false} RowEnds(forms: seq<Text>, d: Unit)
    requires forms != [] && (|forms| > 1 || forms[0] != [])
    ensures var s, last := WriteRow(forms, d), forms[|forms| - 1];
      s != [] && s[|s| - 1] == if last == [] then d else last[|last| - 1]
  {
    if |forms| > 1 {
      if |forms| > 2 || forms[1] != [] {
        RowEnds(forms[1..], d);
      }
    }
  }

  lemma {:induction false} RowsEnd(file: seq<seq<Text>>, d: Unit, eol: Text)
    requires file != [] && forall i :: 0 <= i < |file| ==> file[i] != []
    requires var forms := file[|file| - 1]; |forms| > 1 || forms[0] != []
    ensures var s := WriteRows(file, d, eol); var forms := file[|file| - 1]; var last := forms[|forms| - 1];
      s != [] && s[|s| - 1] == if last == [] then d else last[|last| - 1]
  {
    hide WriteRow;
    if |file| > 1 {
      var more := file[1..];
      assert more[|more| - 1] == file[|file| - 1];
      RowsEnd(more, d, eol);
      var s, tail := WriteRows(file, d, eol), WriteRows(more, d, eol);
      assert s[|s| - 1] == tail[|tail| - 1];
    } else {
      RowEnds(file[0], d);
    }
  }

  lemma {:induction false} TrimEndStops(s: Text, spaces: Text)
    requires s != [] && !Space(s[|s| - 1]) && forall i :: 0 <= i < |spaces| ==> Space(spaces[i])
    ensures TrimEnd(s + spaces) == s
  {
    if spaces == [] {
      assert s + spaces == s;
    } else {
      assert (s + spaces)[..|s + spaces| - 1] == s + spaces[..|spaces| - 1];
      TrimEndStops(s, spaces[..|spaces| - 1]);
    }
  }

  /** Trimming leaves what neither begins nor ends with a space. */
  lemma {:induction false} SourceIsText(text: Text, spaces: Text)
    requires text != [] && !Space(text[0]) && !Space(text[|text| - 1]) && forall i :: 0 <= i < |spaces| ==> Space(spaces[i])
    ensures Source(text + spaces) == text
  {
    TrimEndStops(text, spaces);
  }

  /** Which rows a file's text is read as, whichever way its cells are written. */
  lemma {:induction false} RecordsAreRead(file: seq<seq<Text>>, table: seq<seq<Text>>, d: Unit, eol: Text)
    requires table != [] && Written(file, table) && GoodRows(table) && IsDelimiter(d) && IsLineEnd(eol)
    requires |table[0]| == 1 ==> forall i :: 0 <= i < |table| ==> |table[i]| == 1
    ensures forall i :: 0 <= i < |file| ==> file[i] != []
    ensures var text := WriteRows(file, d, eol); RecordsOf(text, Delimiter(text)) == Records(table)
  {
    hide WriteRows, Scan, Delimiter, FormsOf, Trim, AnyFilled;
    DelimiterIsFound(file, table, d, eol);
    ScanRows(file, table, d, Delimiter(WriteRows(file, d, eol)), eol, []);
    assert [] + table == table;
  }

  /** The last cell of the last row stands bare and empty behind a tab. */
  predicate EndsInATab(file: seq<seq<Text>>, d: Unit) {
    d == TAB && file != [] && file[|file| - 1] != [] && file[|file| - 1][|file[|file| - 1]| - 1] == []
  }

  /**
   * Any table within the limits, each cell quoted or, where nothing special is in it, bare, by comma,
   * semicolon or tab and either line end, reads back as the same table, and the delimiter is found.
   * There are three exceptions, and these are all: a file past the size limit is refused, one that
   * begins with a bracket or brace is taken for JSON, and one that ends in a tab is refused, since
   * trimming the file takes the last row's empty cells away.
   */
  lemma {:induction false} MixedRoundTrip(norm: Text -> Text, headers: seq<Text>, rows: seq<seq<Text>>, file: seq<seq<Text>>, d: Unit, eol: Text, ended: bool)
    requires Writable(norm, headers, rows) && Written(file, [headers] + rows) && IsDelimiter(d) && IsLineEnd(eol)
    ensures file != [] && forall i :: 0 <= i < |file| ==> file[i] != []
    ensures var text := WriteRows(file, d, eol) + (if ended then eol else []);
      text != [] && Parse(norm, text) ==
        if Bytes(text) > MAX_BYTES then Failed(TooBig)
        else if text[0] == 91 || text[0] == 123 then Json
        else if EndsInATab(file, d) then Failed(RaggedRows)
        else Table(headers, rows)
  {
    hide Bytes, WriteRows, RecordsOf, Delimiter, Trim, DistinctHeaders, FormOf, AnyFilled;
    var all := [headers] + rows;
    FileIsGood(norm, headers, rows, file);
    var text, end := WriteRows(file, d, eol), if ended then eol else [];
    FormEdges(file[0][0], headers[0]);
    RowsBegin(file, d, eol);
    assert all[0] == headers && all[1..] == rows;
    if EndsInATab(file, d) {
      TabIsTrimmed(norm, headers, rows, file, eol, end);
    } else {
      TextEnds(file, all, d, eol);
      SourceIsText(text, end);
      RecordsAreRead(file, all, d, eol);
    }
    assert (text + end)[0] == text[0];
  }

  /** What a writable table's file is made of. */
  lemma {:induction false} FileIsGood(norm: Text -> Text, headers: seq<Text>, rows: seq<seq<Text>>, file: seq<seq<Text>>)
    requires Writable(norm, headers, rows) && Written(file, [headers] + rows)
    ensures |file| == |rows| + 1 && (forall i :: 0 <= i < |file| ==> |file[i]| == |headers|) && |headers| >= 1
    ensures GoodRows([headers] + rows) && file[0][0] != [] && FormOf(file[0][0], headers[0])
    ensures forall i :: 0 <= i < |file| ==> |([headers] + rows)[i]| == |headers|
  {
    hide Trim, DistinctHeaders, FormOf;
    var all := [headers] + rows;
    HeadersAreFilled(headers);
    forall i | 0 <= i < |all|
      ensures |all[i]| == |headers| && FormsOf(file[i], all[i]) && all[i] != [] && Trimmed(all[i]) && AnyFilled(all[i])
    {
      assert i > 0 ==> all[i] == rows[i - 1];
    }
    FilledForm(file[0][0], headers[0]);
  }

  lemma {:induction false} FilledForm(form: Text, c: Text)
    requires FormOf(form, c) && Trim(c) != []
    ensures form != []
  {
    hide Space;
  }

  /** Unless it ends in a tab, the text ends in nothing that is trimmed. */
  lemma {:induction false} TextEnds(file: seq<seq<Text>>, table: seq<seq<Text>>, d: Unit, eol: Text)
    requires table != [] && Written(file, table) && GoodRows(table) && IsDelimiter(d) && !EndsInATab(file, d)
    ensures forall i :: 0 <= i < |file| ==> file[i] != []
    ensures var s := WriteRows(file, d, eol); s != [] && !Space(s[|s| - 1])
  {
    hide Trim, FormOf, WriteRows;
    forall i | 0 <= i < |file|
      ensures file[i] != []
    {
      assert |file[i]| == |table[i]|;
    }
    var n := |file| - 1;
    var last := |file[n]| - 1;
    assert FormsOf(file[n], table[n]);
    if last == 0 {
      OneFilled(file[n], table[n]);
    }
    RowsEnd(file, d, eol);
    if file[n][last] != [] {
      FormEdges(file[n][last], table[n][last]);
    }
  }

  lemma {:induction false} OneFilled(forms: seq<Text>, cells: seq<Text>)
    requires FormsOf(forms, cells) && AnyFilled(cells) && |cells| == 1
    ensures forms[0] != []
  {
    hide Trim;
  }

  // ---------------------------------------------------------------- a file that ends in a tab

  /** So many tabs. */
  function Tabs(n: nat): (s: Text)
    ensures |s| == n && forall i :: 0 <= i < n ==> s[i] == TAB
  {
    seq(n, _ => TAB)
  }

  /** How many of the row's last cells stand bare and empty. */
  function Trailing(forms: seq<Text>): (n: nat)
    ensures n <= |forms|
    ensures forall j :: |forms| - n <= j < |forms| ==> forms[j] == []
    ensures n < |forms| ==> forms[|forms| - n - 1] != []
  {
    if forms == [] || forms[|forms| - 1] != [] then 0 else 1 + Trailing(forms[..|forms| - 1])
  }

  lemma {:induction false} RowWithTabs(forms: seq<Text>, n: nat)
    requires n < |forms| && forall j :: |forms| - n <= j < |forms| ==> forms[j] == []
    ensures WriteRow(forms, TAB) == WriteRow(forms[..|forms| - n], TAB) + Tabs(n)
  {
    var front := forms[..|forms| - n];
    if |front| > 1 {
      RowWithTabs(forms[1..], n);
      assert forms[1..][..|forms| - 1 - n] == front[1..];
    } else {
      OnlyTabs(forms, n);
    }
  }

  lemma {:induction false} OnlyTabs(forms: seq<Text>, n: nat)
    requires |forms| == n + 1 && forall j :: 1 <= j < |forms| ==> forms[j] == []
    ensures WriteRow(forms, TAB) == forms[0] + Tabs(n)
    ensures forms[..1] == [forms[0]]
  {
    if n == 0 {
      assert forms[0] + Tabs(0) == forms[0];
    } else {
      OnlyTabs(forms[1..], n - 1);
      assert [TAB] + Tabs(n - 1) == Tabs(n);
      assert forms[1..][0] == [];
      assert [] + Tabs(n - 1) == Tabs(n - 1);
    }
  }

  lemma {:induction false} RowsWithTabs(file: seq<seq<Text>>, n: nat, eol: Text)
    requires file != [] && (forall i :: 0 <= i < |file| ==> file[i] != [])
    requires var forms := file[|file| - 1]; n < |forms| && forall j :: |forms| - n <= j < |forms| ==> forms[j] == []
    ensures var last := |file| - 1; var short := file[last := file[last][..|file[last]| - n]];
      (forall i :: 0 <= i < |short| ==> short[i] != []) && WriteRows(file, TAB, eol) == WriteRows(short, TAB, eol) + Tabs(n)
  {
    var last := |file| - 1;
    var short := file[last := file[last][..|file[last]| - n]];
    if last == 0 {
      RowWithTabs(file[0], n);
    } else {
      RowsWithTabs(file[1..], n, eol);
      assert file[1..][last - 1 := file[last][..|file[last]| - n]] == short[1..];
    }
  }

  /** Trimming takes a last row's empty cells away, and the row is refused as too short. */
  lemma {:induction false} TabIsTrimmed(norm: Text -> Text, headers: seq<Text>, rows: seq<seq<Text>>, file: seq<seq<Text>>, eol: Text, end: Text)
    requires Writable(norm, headers, rows) && Written(file, [headers] + rows) && IsLineEnd(eol) && (end == [] || end == eol) && EndsInATab(file, TAB)
    ensures forall i :: 0 <= i < |file| ==> file[i] != []
    ensures var source := Source(WriteRows(file, TAB, eol) + end); var text := WriteRows(file, TAB, eol);
      && source != [] && text != [] && source[0] == text[0]
      && exists short :: RecordsOf(source, Delimiter(source)) == Records(short) && Checked(norm, short) == Failed(RaggedRows)
  {
    hide WriteRows, RecordsOf, Delimiter, Trim, DistinctHeaders, FormOf, AnyFilled, Source;
    var all, last := [headers] + rows, |rows|;
    FileIsGood(norm, headers, rows, file);
    var n := Trailing(file[last]);
    SomeFormStays(file[last], all[last], n);
    var keep := |headers| - n;
    var shortFile, short := file[last := file[last][..keep]], all[last := all[last][..keep]];
    RowsWithTabs(file, n, eol);
    ShortIsGood(file, all, last, keep);
    var text := WriteRows(shortFile, TAB, eol);
    TextEnds(shortFile, short, TAB, eol);
    FormEdges(file[0][0], headers[0]);
    RowsBegin(shortFile, TAB, eol);
    RowsBegin(file, TAB, eol);
    SourceIsText(text, Tabs(n) + end);
    assert text + (Tabs(n) + end) == WriteRows(file, TAB, eol) + end;
    RecordsAreRead(shortFile, short, TAB, eol);
    assert short[0] == headers && short[1..][last - 1] == all[last][..keep];
  }

  /** Somewhere in the row a cell is filled, and its form with it. */
  lemma {:induction false} SomeFormStays(forms: seq<Text>, cells: seq<Text>, n: nat)
    requires FormsOf(forms, cells) && AnyFilled(cells) && n == Trailing(forms)
    ensures n < |forms| && AnyFilled(cells[..|cells| - n])
  {
    hide Trim, Trailing;
    var j :| 0 <= j < |cells| && cells[j] != [];
    assert FormOf(forms[j], cells[j]);
    assert cells[..|cells| - n][j] == cells[j];
  }

  lemma {:induction false} ShortIsGood(file: seq<seq<Text>>, all: seq<seq<Text>>, last: nat, keep: nat)
    requires Written(file, all) && GoodRows(all) && last < |all| && 1 <= keep <= |all[last]| && AnyFilled(all[last][..keep])
    ensures var shortFile, short := file[last := file[last][..keep]], all[last := all[last][..keep]];
      Written(shortFile, short) && GoodRows(short)
  {
    hide Trim, FormOf, AnyFilled;
    assert FormsOf(file[last], all[last]);
  }

  /** A two-column file of one record whose second value is empty, separated by tabs: it is refused. */
  lemma {:induction false} TabCanBeRefused(norm: Text -> Text)
    requires norm([97]) != norm([98])
    ensures Parse(norm, [97, TAB, 98, LF, 49, TAB]) == Failed(RaggedRows)
  {
    hide Parse, Written, Writable, Bytes, Plain, Trim;
    var headers, rows: seq<seq<Text>> := [[97], [98]], [[[49], []]];
    var file := [headers] + rows;
    AllPlain();
    assert Writable(norm, headers, rows) by { TwoColumns(norm, headers, rows); }
    assert Written(file, file) by { BareIsWritten(file); }
    MixedRoundTrip(norm, headers, rows, file, TAB, [LF], false);
    assert WriteRow(headers, TAB) == [97, TAB, 98] && WriteRow(rows[0], TAB) == [49, TAB];
    assert file[1..] == rows && WriteRows(rows, TAB, [LF]) == [49, TAB];
    assert WriteRows(file, TAB, [LF]) == [97, TAB, 98, LF, 49, TAB];
    assert WriteRows(file, TAB, [LF]) + [] == WriteRows(file, TAB, [LF]);
    assert Bytes([97, TAB, 98, LF, 49, TAB]) <= MAX_BYTES by { SixBytes(); }
  }

  lemma {:induction false} SixBytes()
    ensures Bytes([97, TAB, 98, LF, 49, TAB]) == 6
  {
    assert Bytes([]) == 0 && Bytes([TAB]) == 1 && Bytes([49, TAB]) == 2 && Bytes([LF, 49, TAB]) == 3;
    assert Bytes([98, LF, 49, TAB]) == 4 && Bytes([TAB, 98, LF, 49, TAB]) == 5;
  }

  lemma {:induction false} AllPlain()
    ensures Plain([97]) && Plain([98]) && Plain([49]) && Plain([])
  {
  }

  lemma {:induction false} TwoColumns(norm: Text -> Text, headers: seq<Text>, rows: seq<seq<Text>>)
    requires headers == [[97], [98]] && rows == [[[49], []]] && norm([97]) != norm([98])
    requires Plain([97]) && Plain([98]) && Plain([49]) && Plain([])
    ensures Writable(norm, headers, rows)
  {
    hide Trim;
    assert rows[0][0] == [49];
  }

  lemma {:induction false} BareIsWritten(file: seq<seq<Text>>)
    requires forall i, j :: 0 <= i < |file| && 0 <= j < |file[i]| ==> Plain(file[i][j])
    ensures Written(file, file)
  {
    hide Trim, Plain;
  }

  /**
   * Writing any table within the limits with every cell quoted, by comma, semicolon or tab and either
   * line end, and reading it gives the same table back: line breaks, delimiters and quotes inside
   * cells included.
   */
  lemma {:induction false} RoundTrip(norm: Text -> Text, headers: seq<Text>, rows: seq<seq<Text>>, d: Unit, eol: Text, ended: bool)
    requires Writable(norm, headers, rows) && IsDelimiter(d) && IsLineEnd(eol)
    requires Bytes(Write(headers, rows, d, eol, ended)) <= MAX_BYTES
    ensures Parse(norm, Write(headers, rows, d, eol, ended)) == Table(headers, rows)
  {
    hide Bytes, WriteRows, Parse, Trim, DistinctHeaders;
    var all := [headers] + rows;
    var file := QuotedFile(all);
    assert Written(file, all);
    FileIsGood(norm, headers, rows, file);
    MixedRoundTrip(norm, headers, rows, file, d, eol, ended);
    RowsBegin(file, d, eol);
    assert file[0][0] == Quoted(headers[0]) && file[|rows|][|headers| - 1] == Quoted(all[|rows|][|headers| - 1]);
  }

  lemma {:induction false} HeadersAreFilled(headers: seq<Text>)
    requires GoodHeaders(headers)
    ensures AnyFilled(headers)
  {
    assert headers[0] != [];
  }

  // ---------------------------------------------------------------- whatever is read can be written and read again

  lemma {:induction false} TrimStartTwice(s: Text)
    ensures TrimStart(s) == [] || !Space(TrimStart(s)[0])
  {
    if s != [] && Space(s[0]) {
      TrimStartTwice(s[1..]);
    }
  }

  lemma {:induction false} TrimEndTwice(s: Text)
    ensures TrimEnd(s) <= s
    ensures TrimEnd(s) == [] || !Space(TrimEnd(s)[|TrimEnd(s)| - 1])
  {
    if s != [] && Space(s[|s| - 1]) {
      TrimEndTwice(s[..|s| - 1]);
    }
  }

  lemma {:induction false} TrimTwice(s: Text)
    ensures Trim(Trim(s)) == Trim(s)
  {
    TrimStartTwice(s);
    TrimEndTwice(TrimStart(s));
  }

  /** The machine's rows are trimmed and never all empty, whatever it reads. */
  ghost predicate Tidy(m: Machine) {
    GoodRows(m.rows) && Trimmed(m.cells)
  }

  lemma {:induction false} EndsTidy(m: Machine)
    requires Tidy(m)
    ensures Tidy(EndCell(m)) && Tidy(EndRow(EndCell(m)))
  {
    hide Trim;
    TrimTwice(m.cell);
  }

  lemma {:induction false} ScanStaysTidy(s: Text, d: Unit, m: Machine)
    requires Tidy(m)
    ensures Scan(s, d, m).Some? ==> Tidy(Scan(s, d, m).value)
    decreases |s|
  {
    hide Trim, EndRow, EndCell, GoodRows;
    if s != [] {
      EndsTidy(m);
      if s[0] == QUOTE {
        if m.quoted && |s| > 1 && s[1] == QUOTE {
          ScanStaysTidy(s[2..], d, m.(cell := m.cell + [QUOTE]));
        } else if m.quoted || Trim(m.cell) == [] {
          ScanStaysTidy(s[1..], d, m.(quoted := !m.quoted));
        }
      } else if !m.quoted && s[0] == LF {
        ScanStaysTidy(s[1..], d, EndRow(EndCell(m)));
      } else if !m.quoted && s[0] == d {
        ScanStaysTidy(s[1..], d, EndCell(m));
      } else if s[0] != CR || m.quoted {
        ScanStaysTidy(s[1..], d, m.(cell := m.cell + [s[0]]));
      } else {
        ScanStaysTidy(s[1..], d, m);
      }
    }
  }

  /** Every table read is within the limits, rectangular, trimmed, without empty rows and with distinct columns. */
  lemma {:induction false} ReadTablesAreWritable(norm: Text -> Text, text: Text)
    ensures var p := Parse(norm, text); p.Table? ==> Writable(norm, p.headers, p.rows)
  {
    hide Bytes, Scan, Trim, Delimiter, Source, DistinctHeaders, EndRow, EndCell;
    var p := Parse(norm, text);
    if p.Table? {
      var source := Source(text);
      var start := Machine([], [], [], false);
      ScanStaysTidy(source, Delimiter(source), start);
      EndsTidy(Scan(source, Delimiter(source), start).value);
    }
  }

  /** So a table read from any file, written out again, reads the same. */
  lemma {:induction false} ReadsTheSameAgain(norm: Text -> Text, text: Text, d: Unit, eol: Text, ended: bool)
    requires Parse(norm, text).Table? && IsDelimiter(d) && IsLineEnd(eol)
    ensures var p := Parse(norm, text);
      && p.headers != [] && (forall i :: 0 <= i < |p.rows| ==> p.rows[i] != [])
      && (Bytes(Write(p.headers, p.rows, d, eol, ended)) <= MAX_BYTES ==> Parse(norm, Write(p.headers, p.rows, d, eol, ended)) == p)
  {
    hide Bytes, Write, Parse, DistinctHeaders, Trim;
    ReadTablesAreWritable(norm, text);
    var p := Parse(norm, text);
    if Bytes(Write(p.headers, p.rows, d, eol, ended)) <= MAX_BYTES {
      RoundTrip(norm, p.headers, p.rows, d, eol, ended);
    }
  }
}
