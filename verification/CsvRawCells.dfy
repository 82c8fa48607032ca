/**
 * Why ids, enums and timestamps must hold no CSV syntax: these columns are printed as they are, and
 * the export reads back as its cells if and only if none of them holds a comma, quote or line feed.
 */
module CsvRawCells {
  import opened Prelude
  import opened CsvExport

  /** What was read has another cell, or none, where v belongs. */
  ghost predicate Misread(read: Option<seq<seq<string>>>, v: string, record: seq<string>, table: seq<seq<string>>) {
    read.Some? && |table| < |read.value| && |record| < |read.value[|table|]| ==> read.value[|table|][|record|] != v
  }

  /** The finished cells and the start of the current one stand where they were read. */
  ghost predicate CellKept(rows: seq<seq<string>>, cell: string, record: seq<string>, table: seq<seq<string>>) {
    |table| < |rows| && |record| < |rows[|table|]| && record <= rows[|table|] && cell <= rows[|table|][|record|]
  }

  /** Whatever is read later. */
  lemma {:induction false} ReadKeeps(state: ReaderState, input: string, cell: string, record: seq<string>,
                                     table: seq<seq<string>>)
    ensures var read := Read(state, input, cell, record, table); read.Some? ==>
      && table <= read.value
      && (state != FieldStart ==> CellKept(read.value, cell, record, table))
      && (record != [] ==> CellKept(read.value, "", record, table))
    decreases |input|
  {
    if input != [] {
      var c, rest := input[0], input[1..];
      ReadKeeps(FieldStart, rest, "", record + [cell], table);
      ReadKeeps(FieldStart, rest, "", [], table + [record + [cell]]);
      ReadKeeps(Quoted, rest, cell, record, table);
      ReadKeeps(QuoteSeen, rest, cell, record, table);
      ReadKeeps(Unquoted, rest, cell + [c], record, table);
      ReadKeeps(Quoted, rest, cell + [c], record, table);
      ReadKeeps(Quoted, rest, cell + ['"'], record, table);
    }
  }

  /** A finished cell other than v is a misreading. */
  lemma EndsOther(rest: string, cell: string, record: seq<string>, table: seq<seq<string>>, c: char, v: string)
    requires cell != v
    ensures Misread(EndField(rest, cell, record, table, c), v, record, table)
  {
    ReadKeeps(FieldStart, rest, "", record + [cell], table);
    ReadKeeps(FieldStart, rest, "", [], table + [record + [cell]]);
  }

  lemma {:induction false} UnquotedMisread(s: string, rest: string, cell: string, record: seq<string>,
                                           table: seq<seq<string>>)
    requires NeedsQuotes(s)
    ensures Misread(Read(Unquoted, s + rest, cell, record, table), cell + s, record, table)
    decreases |s|
  {
    var input := s + rest;
    assert input[0] == s[0] && input[1..] == s[1..] + rest;
    if s[0] == ',' || s[0] == '\n' {
      EndsOther(input[1..], cell, record, table, s[0], cell + s);
    } else if s[0] != '"' {
      UnquotedMisread(s[1..], rest, cell + [s[0]], record, table);
      assert cell + [s[0]] + s[1..] == cell + s;
    }
  }

  function Quotes(n: nat): (q: string)
    ensures |q| == n && forall i :: 0 <= i < n ==> q[i] == '"'
  {
    seq(n, _ => '"')
  }

  /** Inside quotes, after 2m + 1 quotes of v have been read as m. */
  lemma {:induction false} QuotedMisread(m: nat, s: string, rest: string, v: string, record: seq<string>,
                                         table: seq<seq<string>>)
    requires AtDelimiter(rest) && v == Quotes(2 * m + 1) + s
    ensures Misread(Read(Quoted, s + rest, Quotes(m), record, table), v, record, table)
    decreases |s|
  {
    hide Misread;
    var input := s + rest;
    if s == [] || s[0] != '"' {
      OtherInside(m, input, v, record, table);
    } else {
      assert input[1..] == s[1..] + rest;
      AfterQuote(m, s[1..], rest, v, record, table);
    }
  }

  lemma OtherInside(m: nat, input: string, v: string, record: seq<string>, table: seq<seq<string>>)
    requires |v| > m && v[m] == '"' && (input != [] ==> input[0] != '"')
    ensures Misread(Read(Quoted, input, Quotes(m), record, table), v, record, table)
  {
    if input != [] {
      ReadKeeps(Quoted, input[1..], Quotes(m) + [input[0]], record, table);
      assert (Quotes(m) + [input[0]])[m] == input[0];
    }
  }

  lemma {:induction false} AfterQuote(m: nat, s: string, rest: string, v: string, record: seq<string>,
                                      table: seq<seq<string>>)
    requires AtDelimiter(rest) && v == Quotes(2 * m + 1) + (['"'] + s)
    ensures Misread(Read(QuoteSeen, s + rest, Quotes(m), record, table), v, record, table)
    decreases |s|
  {
    var input := s + rest;
    if s != [] && s[0] == '"' {
      assert input[1..] == s[1..] + rest && Quotes(m) + ['"'] == Quotes(m + 1);
      assert v == Quotes(2 * m + 3) + s[1..];
      QuotedMisread(m + 1, s[1..], rest, v, record, table);
    } else if input != [] && (input[0] == ',' || input[0] == '\n') {
      EndsOther(input[1..], Quotes(m), record, table, input[0], v);
    }
  }

  /** A raw cell with CSV syntax in it is never read back as itself. */
  lemma RawMisread(v: string, rest: string, record: seq<string>, table: seq<seq<string>>)
    requires NeedsQuotes(v) && AtDelimiter(rest)
    ensures Misread(Read(FieldStart, v + rest, "", record, table), v, record, table)
  {
    var input := v + rest;
    assert input[0] == v[0] && input[1..] == v[1..] + rest;
    if v[0] == '"' {
      assert v == Quotes(1) + v[1..] && Quotes(0) == "";
      QuotedMisread(0, v[1..], rest, v, record, table);
    } else if v[0] == ',' || v[0] == '\n' {
      EndsOther(input[1..], "", record, table, v[0], v);
    } else {
      UnquotedMisread(v[1..], rest, [v[0]], record, table);
      assert "" + [v[0]] == [v[0]] && [v[0]] + v[1..] == v;
    }
  }

  lemma JoinStep(parts: seq<string>, separator: char)
    requires |parts| > 1
    ensures Join(parts, separator) == parts[0] + [separator] + Join(parts[1..], separator)
  {
  }

  lemma PrintedStep(cells: seq<Cell>)
    requires cells != []
    ensures Printed(cells)[0] == cells[0].Print() && Printed(cells)[1..] == Printed(cells[1..])
    ensures Values(cells) == [cells[0].value] + Values(cells[1..])
  {
  }

  /** A record with such a cell is not read back as its values. */
  lemma {:induction false} RowMisread(cells: seq<Cell>, rest: string, record: seq<string>, table: seq<seq<string>>)
    requires !RawIsPlain(cells) && (rest == [] || rest[0] == '\n') && (record != [] || |cells| > 1)
    ensures var read := Read(FieldStart, Join(Printed(cells), ',') + rest, "", record, table);
      read.Some? && |table| < |read.value| ==> read.value[|table|] != record + Values(cells)
    decreases |cells|
  {
    hide Read, Join, Printed, Values;
    PrintedStep(cells);
    var first := cells[0];
    var more := if |cells| == 1 then rest else [','] + (Join(Printed(cells[1..]), ',') + rest);
    assert Join(Printed(cells), ',') + rest == first.Print() + more by {
      if |cells| > 1 { JoinStep(Printed(cells), ','); } else { JoinOfOne(Printed(cells), ','); }
    }
    if first.Raw? && NeedsQuotes(first.value) {
      RawMisread(first.value, more, record, table);
      assert (record + Values(cells))[|record|] == first.value;
    } else {
      assert |cells| > 1 && !RawIsPlain(cells[1..]) by { LaterIsBad(cells); }
      assert first.Print() == Escape(first.value);
      ReadsCell(first.value, more, record, table);
      assert more[1..] == Join(Printed(cells[1..]), ',') + rest;
      RowMisread(cells[1..], rest, record + [first.value], table);
      assert record + [first.value] + Values(cells[1..]) == record + Values(cells);
    }
  }

  lemma JoinOfOne(parts: seq<string>, separator: char)
    requires |parts| == 1
    ensures Join(parts, separator) == parts[0]
  {
  }

  lemma LaterIsBad(cells: seq<Cell>)
    requires !RawIsPlain(cells) && cells != [] && !(cells[0].Raw? && NeedsQuotes(cells[0].value))
    ensures |cells| > 1 && !RawIsPlain(cells[1..])
  {
    var i :| 0 <= i < |cells| && cells[i].Raw? && NeedsQuotes(cells[i].value);
    assert cells[1..][i - 1] == cells[i];
  }

  lemma PlainIff(lead: Lead, owners: map<string, string>)
    ensures RawIsPlain(Columns(lead, owners)) <==> PlainColumns(lead)
  {
    if PlainColumns(lead) {
      ColumnsArePlain(lead, owners);
    } else {
      var cells := Columns(lead, owners);
      assert cells[0] == Raw(lead.id) && cells[4] == Raw(lead.kind) && cells[5] == Raw(lead.status);
      assert cells[6] == Raw(lead.sourceType) && cells[7] == Raw(OrEmpty(lead.ownerUserId));
      assert cells[14] == Raw(lead.createdAt) && cells[15] == Raw(OrEmpty(lead.wonAt));
      assert cells[16] == Raw(OrEmpty(lead.lostAt));
    }
  }

  lemma PrintedRowsStep(leads: seq<Lead>, owners: map<string, string>)
    requires leads != []
    ensures PrintedRows(leads, owners)[0] == Join(Printed(Columns(leads[0], owners)), ',')
    ensures PrintedRows(leads, owners)[1..] == PrintedRows(leads[1..], owners)
    ensures CellTable(leads, owners) == [Values(Columns(leads[0], owners))] + CellTable(leads[1..], owners)
  {
  }

  lemma {:induction false} TableMisread(leads: seq<Lead>, owners: map<string, string>, table: seq<seq<string>>)
    requires exists i :: 0 <= i < |leads| && !PlainColumns(leads[i])
    ensures Read(FieldStart, Join(PrintedRows(leads, owners), '\n'), "", [], table)
            != Some(table + CellTable(leads, owners))
    decreases |leads|
  {
    hide Read, Join, PrintedRows, CellTable, Columns, Values, Printed, PlainColumns, RawIsPlain;
    PrintedRowsStep(leads, owners);
    var cells := Columns(leads[0], owners);
    var rest := if |leads| == 1 then [] else ['\n'] + Join(PrintedRows(leads[1..], owners), '\n');
    assert Join(PrintedRows(leads, owners), '\n') == Join(Printed(cells), ',') + rest by {
      var lines := PrintedRows(leads, owners);
      if |leads| > 1 { JoinStep(lines, '\n'); } else { JoinOfOne(lines, '\n'); }
    }
    SeventeenCells(leads[0], owners);
    PlainIff(leads[0], owners);
    if !PlainColumns(leads[0]) {
      RowMisread(cells, rest, [], table);
      assert (table + CellTable(leads, owners))[|table|] == [] + Values(cells);
    } else {
      LaterLeadIsBad(leads);
      PrintedIsEscaped(cells);
      ReadsRow(Values(cells), rest, [], table);
      assert rest[1..] == Join(PrintedRows(leads[1..], owners), '\n');
      assert [] + Values(cells) == Values(cells);
      TableMisread(leads[1..], owners, table + [Values(cells)]);
      assert table + [Values(cells)] + CellTable(leads[1..], owners) == table + CellTable(leads, owners);
    }
  }

  lemma SeventeenCells(lead: Lead, owners: map<string, string>)
    ensures |Columns(lead, owners)| == 17 == |Values(Columns(lead, owners))|
  {
  }

  lemma LaterLeadIsBad(leads: seq<Lead>)
    requires (exists i :: 0 <= i < |leads| && !PlainColumns(leads[i])) && leads != [] && PlainColumns(leads[0])
    ensures |leads| > 1 && exists i :: 0 <= i < |leads[1..]| && !PlainColumns(leads[1..][i])
  {
    var i :| 0 <= i < |leads| && !PlainColumns(leads[i]);
    assert leads[1..][i - 1] == leads[i];
  }

  /**
   * The export reads back as its cells if and only if no id, enum or timestamp in it holds a comma, a
   * quote or a line feed. Free texts may hold anything.
   */
  lemma ExportReadsBackIff(leads: seq<Lead>, owners: map<string, string>)
    ensures ReadCsv(ExportLeadsCsv(leads, owners)) == Some([HEADER] + CellTable(leads, owners)) <==>
            forall i :: 0 <= i < |leads| ==> PlainColumns(leads[i])
  {
    hide PlainColumns, CellTable, PrintedRows, Join, Read, NeedsQuotes;
    if forall i :: 0 <= i < |leads| ==> PlainColumns(leads[i]) {
      ExportReadsBack(leads, owners);
    } else {
      var lines := [Join(HEADER, ',')] + PrintedRows(leads, owners);
      JoinStep(lines, '\n');
      var rest := ['\n'] + Join(PrintedRows(leads, owners), '\n');
      assert lines[1..] == PrintedRows(leads, owners);
      HeaderIsPlain();
      ReadsRow(HEADER, rest, [], []);
      assert Join(lines, '\n') == EscapedRow(HEADER) + rest;
      assert rest[1..] == Join(PrintedRows(leads, owners), '\n') && [] + HEADER == HEADER && [] + [HEADER] == [HEADER];
      TableMisread(leads, owners, [HEADER]);
    }
  }

  lemma HeaderIsPlain()
    ensures Join(HEADER, ',') == EscapedRow(HEADER)
  {
    hide NeedsQuotes, Join;
    LeadNamesArePlain();
    StateNamesArePlain();
    PlaceNamesArePlain();
    LastNamesArePlain();
    PlainRow(HEADER);
  }
}
