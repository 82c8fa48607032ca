/**
 * The lead export of the dashboard and an independent reader for it: RFC 4180, section 2,
 * with LF as record separator.
 */
module CsvExport {
  import opened Prelude
  import DedupeKeys

  // ----- the printer -----

  function DoubleQuotes(s: string): string {
    if s == [] then []
    else (if s[0] == '"' then ['"', '"'] else [s[0]]) + DoubleQuotes(s[1..])
  }

  predicate NeedsQuotes(s: string) {
    ',' in s || '"' in s || '\n' in s
  }

  /** `csvEscape`. */
  function Escape(s: string): string {
    if NeedsQuotes(s) then ['"'] + DoubleQuotes(s) + ['"'] else s
  }

  function Join(parts: seq<string>, separator: char): string {
    if parts == [] then []
    else if |parts| == 1 then parts[0]
    else parts[0] + [separator] + Join(parts[1..], separator)
  }

  datatype Lead = Lead(
    id: string, fullName: string, phone: Option<string>, email: Option<string>,
    kind: string, status: string, sourceType: string, ownerUserId: Option<string>,
    wilaya: Option<string>, commune: Option<string>, quartier: Option<string>,
    budgetMin: Option<int>, budgetMax: Option<int>,
    createdAt: string, wonAt: Option<string>, lostAt: Option<string>)

  const HEADER: seq<string> := [
    "leadId", "fullName", "phone", "email", "type", "status", "sourceType", "ownerUserId", "ownerName",
    "wilaya", "commune", "quartier", "budgetMin", "budgetMax", "createdAt", "wonAt", "lostAt"]

  function OwnerName(lead: Lead, owners: map<string, string>): string {
    if OrEmpty(lead.ownerUserId) != "" && lead.ownerUserId.value in owners then owners[lead.ownerUserId.value] else ""
  }

  /** A column is either passed through `csvEscape` or printed as it is. */
  datatype Cell = Text(value: string) | Raw(value: string) {
    function Print(): string { if Text? then Escape(value) else value }
  }

  function Columns(lead: Lead, owners: map<string, string>): seq<Cell> {
    [Raw(lead.id), Text(lead.fullName), Text(OrEmpty(lead.phone)), Text(OrEmpty(lead.email)),
     Raw(lead.kind), Raw(lead.status), Raw(lead.sourceType), Raw(OrEmpty(lead.ownerUserId)),
     Text(OwnerName(lead, owners)),
     Text(OrEmpty(lead.wilaya)), Text(OrEmpty(lead.commune)), Text(OrEmpty(lead.quartier)),
     Raw(DedupeKeys.OptionalIntText(lead.budgetMin)), Raw(DedupeKeys.OptionalIntText(lead.budgetMax)),
     Raw(lead.createdAt), Raw(OrEmpty(lead.wonAt)), Raw(OrEmpty(lead.lostAt))]
  }

  function Values(cells: seq<Cell>): (values: seq<string>)
    ensures |values| == |cells|
  {
    seq(|cells|, i requires 0 <= i < |cells| => cells[i].value)
  }

  function Printed(cells: seq<Cell>): (texts: seq<string>)
    ensures |texts| == |cells|
  {
    seq(|cells|, i requires 0 <= i < |cells| => cells[i].Print())
  }

  function PrintedRows(leads: seq<Lead>, owners: map<string, string>): (rows: seq<string>)
    ensures |rows| == |leads|
  {
    seq(|leads|, i requires 0 <= i < |leads| => Join(Printed(Columns(leads[i], owners)), ','))
  }

  function ExportLeadsCsv(leads: seq<Lead>, owners: map<string, string>): string {
    Join([Join(HEADER, ',')] + PrintedRows(leads, owners), '\n')
  }

  // ----- the reader -----

  datatype ReaderState = FieldStart | Unquoted | Quoted | QuoteSeen

  function EndField(rest: string, cell: string, record: seq<string>, table: seq<seq<string>>,
                    c: char): Option<seq<seq<string>>>
    decreases |rest|, 1
  {
    if c == ',' then Read(FieldStart, rest, "", record + [cell], table)
    else Read(FieldStart, rest, "", [], table + [record + [cell]])
  }

  /** None for text that is not CSV: a stray quote, or a quoted field left open. */
  function Read(state: ReaderState, input: string, cell: string, record: seq<string>, table: seq<seq<string>>)
    : Option<seq<seq<string>>>
    decreases |input|, 0
  {
    if input == [] then
      if state == Quoted then None
      else if state == FieldStart && record == [] && table != [] then Some(table)  // closing line break
      else Some(table + [record + [cell]])
    else
      var c, rest := input[0], input[1..];
      match state
      case FieldStart =>
        if c == '"' then Read(Quoted, rest, cell, record, table)
        else if c == ',' || c == '\n' then EndField(rest, cell, record, table, c)
        else Read(Unquoted, rest, cell + [c], record, table)
      case Unquoted =>
        if c == '"' then None
        else if c == ',' || c == '\n' then EndField(rest, cell, record, table, c)
        else Read(Unquoted, rest, cell + [c], record, table)
      case Quoted =>
        if c == '"' then Read(QuoteSeen, rest, cell, record, table)
        else Read(Quoted, rest, cell + [c], record, table)
      case QuoteSeen =>
        if c == '"' then Read(Quoted, rest, cell + ['"'], record, table)
        else if c == ',' || c == '\n' then EndField(rest, cell, record, table, c)
        else None
  }

  function ReadCsv(text: string): Option<seq<seq<string>>> {
    Read(FieldStart, text, "", [], [])
  }

  // ----- reading one printed cell -----

  /** What follows a cell: the end of the text, a comma or a line feed. */
  predicate AtDelimiter(rest: string) {
    rest == [] || rest[0] == ',' || rest[0] == '\n'
  }

  /** The reading continues after a finished cell. */
  function Continue(rest: string, cell: string, record: seq<string>, table: seq<seq<string>>): Option<seq<seq<string>>>
    requires AtDelimiter(rest)
  {
    if rest == [] then Some(table + [record + [cell]]) else EndField(rest[1..], cell, record, table, rest[0])
  }

  lemma {:induction false} ReadsQuoted(s: string, rest: string, cell: string, record: seq<string>,
                                       table: seq<seq<string>>)
    requires AtDelimiter(rest)
    ensures Read(Quoted, DoubleQuotes(s) + ['"'] + rest, cell, record, table) == Continue(rest, cell + s, record, table)
    decreases |s|
  {
    var input := DoubleQuotes(s) + ['"'] + rest;
    if s == [] {
      assert input[1..] == rest;
      assert cell + s == cell;
    } else {
      ReadsQuoted(s[1..], rest, cell + [s[0]], record, table);
      var tail := DoubleQuotes(s[1..]) + ['"'] + rest;
      assert cell + [s[0]] + s[1..] == cell + s;
      if s[0] == '"' {
        assert input == ['"', '"'] + tail;
        assert input[1..][1..] == tail;
      } else {
        assert input == [s[0]] + tail;
      }
    }
  }

  lemma {:induction false} ReadsUnquoted(s: string, rest: string, cell: string, record: seq<string>,
                                         table: seq<seq<string>>)
    requires AtDelimiter(rest) && !NeedsQuotes(s)
    ensures Read(Unquoted, s + rest, cell, record, table) == Continue(rest, cell + s, record, table)
    decreases |s|
  {
    if s == [] {
      assert s + rest == rest && cell + s == cell;
    } else {
      assert (s + rest)[1..] == s[1..] + rest && (s + rest)[0] == s[0];
      assert cell + [s[0]] + s[1..] == cell + s;
      ReadsUnquoted(s[1..], rest, cell + [s[0]], record, table);
    }
  }

  lemma ReadStart(input: string, record: seq<string>, table: seq<seq<string>>)
    requires input != [] && !AtDelimiter(input)
    ensures Read(FieldStart, input, "", record, table)
            == if input[0] == '"' then Read(Quoted, input[1..], "", record, table)
               else Read(Unquoted, input[1..], [input[0]], record, table)
  {
    assert "" + [input[0]] == [input[0]];
  }

  lemma ReadsEmptyCell(rest: string, record: seq<string>, table: seq<seq<string>>)
    requires AtDelimiter(rest) && (rest != [] || record != [])
    ensures Read(FieldStart, rest, "", record, table) == Continue(rest, "", record, table)
  {
  }

  /** Any cell, escaped and followed by a delimiter, is read back as itself. */
  lemma ReadsCell(s: string, rest: string, record: seq<string>, table: seq<seq<string>>)
    requires AtDelimiter(rest)
    requires rest != [] || record != [] || s != []
    ensures Read(FieldStart, Escape(s) + rest, "", record, table) == Continue(rest, s, record, table)
  {
    hide Read, Continue, DoubleQuotes;
    var input := Escape(s) + rest;
    if NeedsQuotes(s) {
      ReadStart(input, record, table);
      assert input[1..] == DoubleQuotes(s) + ['"'] + rest;
      ReadsQuoted(s, rest, "", record, table);
      assert "" + s == s;
    } else if s == [] {
      assert input == rest;
      ReadsEmptyCell(rest, record, table);
    } else {
      assert input[0] == s[0] && s[0] in s;
      ReadStart(input, record, table);
      assert input[1..] == s[1..] + rest;
      ReadsUnquoted(s[1..], rest, [s[0]], record, table);
      assert [s[0]] + s[1..] == s;
    }
  }

  // ----- reading records and tables -----

  function EscapedRow(cells: seq<string>): string {
    Join(seq(|cells|, i requires 0 <= i < |cells| => Escape(cells[i])), ',')
  }

  lemma EscapedRowStep(cells: seq<string>)
    requires |cells| > 1
    ensures EscapedRow(cells) == Escape(cells[0]) + [','] + EscapedRow(cells[1..])
  {
    var escaped := seq(|cells|, i requires 0 <= i < |cells| => Escape(cells[i]));
    assert escaped[1..] == seq(|cells[1..]|, i requires 0 <= i < |cells[1..]| => Escape(cells[1..][i]));
  }

  lemma EscapedRowOfOne(cell: string)
    ensures EscapedRow([cell]) == Escape(cell)
  {
    assert seq(|[cell]|, i requires 0 <= i < |[cell]| => Escape([cell][i])) == [Escape(cell)];
  }

  /** A record is read back cell by cell, up to the line feed or the end of the text. */
  lemma {:induction false} ReadsRow(cells: seq<string>, rest: string, record: seq<string>, table: seq<seq<string>>)
    requires cells != [] && (rest == [] || rest[0] == '\n')
    requires record != [] || |cells| > 1
    ensures Read(FieldStart, EscapedRow(cells) + rest, "", record, table) ==
            (if rest == [] then Some(table + [record + cells])
             else Read(FieldStart, rest[1..], "", [], table + [record + cells]))
    decreases |cells|
  {
    hide Read, Escape, EscapedRow;
    if |cells| == 1 {
      EscapedRowOfOne(cells[0]);
      ReadsCell(cells[0], rest, record, table);
      assert cells == [cells[0]];
    } else {
      EscapedRowStep(cells);
      var more := [','] + (EscapedRow(cells[1..]) + rest);
      assert EscapedRow(cells) + rest == Escape(cells[0]) + more;
      ReadsCell(cells[0], more, record, table);
      assert more[1..] == EscapedRow(cells[1..]) + rest;
      ReadsRow(cells[1..], rest, record + [cells[0]], table);
      assert record + [cells[0]] + cells[1..] == record + cells;
    }
  }

  function EscapedRows(rows: seq<seq<string>>): (lines: seq<string>)
    ensures |lines| == |rows| && forall i :: 0 <= i < |rows| ==> lines[i] == EscapedRow(rows[i])
  {
    seq(|rows|, i requires 0 <= i < |rows| => EscapedRow(rows[i]))
  }

  function EscapedTable(rows: seq<seq<string>>): string {
    Join(EscapedRows(rows), '\n')
  }

  lemma EscapedTableStep(rows: seq<seq<string>>)
    requires |rows| > 1
    ensures EscapedTable(rows) == EscapedRow(rows[0]) + ['\n'] + EscapedTable(rows[1..])
  {
    assert EscapedRows(rows)[1..] == EscapedRows(rows[1..]);
  }

  lemma {:induction false} ReadsTable(rows: seq<seq<string>>, table: seq<seq<string>>)
    requires rows != [] && forall i :: 0 <= i < |rows| ==> |rows[i]| > 1
    ensures Read(FieldStart, EscapedTable(rows), "", [], table) == Some(table + rows)
    decreases |rows|
  {
    if |rows| == 1 {
      ReadsRow(rows[0], [], [], table);
      assert EscapedTable(rows) == EscapedRow(rows[0]) + [];
      assert [] + rows[0] == rows[0] && rows == [rows[0]];
    } else {
      EscapedTableStep(rows);
      var more := ['\n'] + EscapedTable(rows[1..]);
      assert EscapedTable(rows) == EscapedRow(rows[0]) + more;
      ReadsRow(rows[0], more, [], table);
      assert more[1..] == EscapedTable(rows[1..]) && [] + rows[0] == rows[0];
      ReadsTable(rows[1..], table + [rows[0]]);
      assert table + [rows[0]] + rows[1..] == table + rows;
    }
  }

  // ----- the lead export -----

  /** Ids, enums and timestamps: printed as they are, so they must not hold CSV syntax. */
  predicate PlainColumns(lead: Lead) {
    && !NeedsQuotes(lead.id) && !NeedsQuotes(lead.kind) && !NeedsQuotes(lead.status)
    && !NeedsQuotes(lead.sourceType) && !NeedsQuotes(OrEmpty(lead.ownerUserId))
    && !NeedsQuotes(lead.createdAt) && !NeedsQuotes(OrEmpty(lead.wonAt)) && !NeedsQuotes(OrEmpty(lead.lostAt))
  }

  ghost predicate RawIsPlain(cells: seq<Cell>) {
    forall i :: 0 <= i < |cells| && cells[i].Raw? ==> !NeedsQuotes(cells[i].value)
  }

  lemma PrintedIsEscaped(cells: seq<Cell>)
    requires RawIsPlain(cells)
    ensures Join(Printed(cells), ',') == EscapedRow(Values(cells))
  {
    var values := Values(cells);
    assert Printed(cells) == seq(|values|, i requires 0 <= i < |values| => Escape(values[i]));
  }

  lemma ColumnsArePlain(lead: Lead, owners: map<string, string>)
    requires PlainColumns(lead)
    ensures RawIsPlain(Columns(lead, owners))
  {
    assert !NeedsQuotes(DedupeKeys.OptionalIntText(lead.budgetMin));
    assert !NeedsQuotes(DedupeKeys.OptionalIntText(lead.budgetMax));
  }

  lemma LeadNamesArePlain()
    ensures forall i :: 0 <= i < 4 ==> !NeedsQuotes(HEADER[i])
  {
    assert !NeedsQuotes("leadId") && !NeedsQuotes("fullName") && !NeedsQuotes("phone") && !NeedsQuotes("email");
  }

  lemma StateNamesArePlain()
    ensures forall i :: 4 <= i < 9 ==> !NeedsQuotes(HEADER[i])
  {
    assert !NeedsQuotes("type") && !NeedsQuotes("status") && !NeedsQuotes("sourceType");
    assert !NeedsQuotes("ownerUserId") && !NeedsQuotes("ownerName");
  }

  lemma PlaceNamesArePlain()
    ensures forall i :: 9 <= i < 12 ==> !NeedsQuotes(HEADER[i])
  {
    assert !NeedsQuotes("wilaya") && !NeedsQuotes("commune") && !NeedsQuotes("quartier");
  }

  lemma LastNamesArePlain()
    ensures forall i :: 12 <= i < |HEADER| ==> !NeedsQuotes(HEADER[i])
  {
    assert !NeedsQuotes("budgetMin") && !NeedsQuotes("budgetMax");
    assert !NeedsQuotes("createdAt") && !NeedsQuotes("wonAt") && !NeedsQuotes("lostAt");
  }

  lemma PlainRow(cells: seq<string>)
    requires forall i :: 0 <= i < |cells| ==> !NeedsQuotes(cells[i])
    ensures Join(cells, ',') == EscapedRow(cells)
  {
    assert cells == seq(|cells|, i requires 0 <= i < |cells| => Escape(cells[i]));
  }

  function CellTable(leads: seq<Lead>, owners: map<string, string>): (rows: seq<seq<string>>)
    ensures |rows| == |leads| && forall i :: 0 <= i < |rows| ==> |rows[i]| == 17
  {
    seq(|leads|, i requires 0 <= i < |leads| => Values(Columns(leads[i], owners)))
  }

  lemma LinesAreEscapedRows(leads: seq<Lead>, owners: map<string, string>, header: seq<string>)
    requires forall i :: 0 <= i < |leads| ==> PlainColumns(leads[i])
    requires Join(header, ',') == EscapedRow(header)
    ensures [Join(header, ',')] + PrintedRows(leads, owners)
         == EscapedRows([header] + CellTable(leads, owners))
  {
    var table := CellTable(leads, owners);
    forall i | 0 <= i < |leads| ensures PrintedRows(leads, owners)[i] == EscapedRow(table[i]) {
      ColumnsArePlain(leads[i], owners);
      PrintedIsEscaped(Columns(leads[i], owners));
    }
  }

  lemma TableReadsBack(lines: seq<string>, rows: seq<seq<string>>)
    requires rows != [] && lines == EscapedRows(rows) && forall i :: 0 <= i < |rows| ==> |rows[i]| > 1
    ensures ReadCsv(Join(lines, '\n')) == Some(rows)
  {
    ReadsTable(rows, []);
    assert [] + rows == rows;
  }

  lemma LinesReadBack(leads: seq<Lead>, owners: map<string, string>, header: seq<string>)
    requires forall i :: 0 <= i < |leads| ==> PlainColumns(leads[i])
    requires |header| > 1 && forall i :: 0 <= i < |header| ==> !NeedsQuotes(header[i])
    ensures ReadCsv(Join([Join(header, ',')] + PrintedRows(leads, owners), '\n'))
            == Some([header] + CellTable(leads, owners))
  {
    hide *;
    PlainRow(header);
    LinesAreEscapedRows(leads, owners, header);
    TableReadsBack([Join(header, ',')] + PrintedRows(leads, owners), [header] + CellTable(leads, owners));
  }

  /** The reader recovers every cell of every exported lead, quotes, commas and line feeds included. */
  lemma ExportReadsBack(leads: seq<Lead>, owners: map<string, string>)
    requires forall i :: 0 <= i < |leads| ==> PlainColumns(leads[i])
    ensures ReadCsv(ExportLeadsCsv(leads, owners)) == Some([HEADER] + CellTable(leads, owners))
  {
    hide NeedsQuotes, PlainColumns, CellTable, PrintedRows, Join, ReadCsv;
    LeadNamesArePlain();
    StateNamesArePlain();
    PlaceNamesArePlain();
    LastNamesArePlain();
    LinesReadBack(leads, owners, HEADER);
  }

  // ----- which field stands under which name -----

  /** Record i of the leads, record i + 1 of the text, has the value in its one column of that name. */
  ghost predicate Shows(table: seq<seq<string>>, i: nat, name: string, value: string) {
    && i + 1 < |table| && |table[i + 1]| == |table[0]| && name in table[0]
    && forall c :: 0 <= c < |table[0]| && table[0][c] == name ==> table[i + 1][c] == value
  }

  function Signature(s: string): int
    requires |s| > 1
  {
    1_000_000 * |s| + 1_000 * s[1] as int + s[|s| - 1] as int
  }

  lemma FirstSignatures()
    ensures forall c :: 0 <= c < 9 ==> |HEADER[c]| > 1
    ensures Signature(HEADER[0]) == 6_101_100 && Signature(HEADER[1]) == 8_117_101
    ensures Signature(HEADER[2]) == 5_104_101 && Signature(HEADER[3]) == 5_109_108
    ensures Signature(HEADER[4]) == 4_121_101 && Signature(HEADER[5]) == 6_116_115
    ensures Signature(HEADER[6]) == 10_111_101 && Signature(HEADER[7]) == 11_119_100
    ensures Signature(HEADER[8]) == 9_119_101
  {
  }

  lemma LastSignatures()
    ensures forall c :: 9 <= c < 17 ==> |HEADER[c]| > 1
    ensures Signature(HEADER[9]) == 6_105_097 && Signature(HEADER[10]) == 7_111_101
    ensures Signature(HEADER[11]) == 8_117_114 && Signature(HEADER[12]) == 9_117_110
    ensures Signature(HEADER[13]) == 9_117_120 && Signature(HEADER[14]) == 9_114_116
    ensures Signature(HEADER[15]) == 5_111_116 && Signature(HEADER[16]) == 6_111_116
  {
  }

  lemma NamesDiffer(c: nat, d: nat)
    requires c < d < 17
    ensures HEADER[c] != HEADER[d]
  {
    FirstSignatures();
    LastSignatures();
    assert Signature(HEADER[c]) != Signature(HEADER[d]);
  }

  lemma ShowsAt(table: seq<seq<string>>, i: nat, c: nat)
    requires i + 1 < |table| && table[0] == HEADER && |table[i + 1]| == 17 && c < 17
    ensures Shows(table, i, HEADER[c], table[i + 1][c])
  {
    forall d | 0 <= d < 17 && d != c ensures HEADER[d] != HEADER[c] { NamesDiffer(Min(c, d), Max(c, d)); }
  }

  /** What one record of the text must show of its lead, name by name; numbers read back as numbers. */
  ghost predicate ShowsLead(table: seq<seq<string>>, i: nat, lead: Lead, owners: map<string, string>) {
    var ownerId := OrEmpty(lead.ownerUserId);
    && Shows(table, i, "leadId", lead.id) && Shows(table, i, "fullName", lead.fullName)
    && Shows(table, i, "phone", OrEmpty(lead.phone)) && Shows(table, i, "email", OrEmpty(lead.email))
    && Shows(table, i, "type", lead.kind) && Shows(table, i, "status", lead.status)
    && Shows(table, i, "sourceType", lead.sourceType)
    && Shows(table, i, "ownerUserId", ownerId)
    && Shows(table, i, "ownerName", if ownerId != "" && ownerId in owners then owners[ownerId] else "")
    && Shows(table, i, "wilaya", OrEmpty(lead.wilaya)) && Shows(table, i, "commune", OrEmpty(lead.commune))
    && Shows(table, i, "quartier", OrEmpty(lead.quartier))
    && (exists text :: Shows(table, i, "budgetMin", text) && DedupeKeys.ParseOptionalInt(text) == lead.budgetMin)
    && (exists text :: Shows(table, i, "budgetMax", text) && DedupeKeys.ParseOptionalInt(text) == lead.budgetMax)
    && Shows(table, i, "createdAt", lead.createdAt)
    && Shows(table, i, "wonAt", OrEmpty(lead.wonAt)) && Shows(table, i, "lostAt", OrEmpty(lead.lostAt))
  }

  /** The values of a record, one by one. */
  lemma ValuesAre(lead: Lead, owners: map<string, string>)
    ensures var v := Values(Columns(lead, owners));
      && |v| == 17
      && v[0] == lead.id && v[1] == lead.fullName && v[2] == OrEmpty(lead.phone) && v[3] == OrEmpty(lead.email)
      && v[4] == lead.kind && v[5] == lead.status && v[6] == lead.sourceType && v[7] == OrEmpty(lead.ownerUserId)
      && (OrEmpty(lead.ownerUserId) != "" && lead.ownerUserId.value in owners ==>
            v[8] == owners[lead.ownerUserId.value])
      && (OrEmpty(lead.ownerUserId) == "" || lead.ownerUserId.value !in owners ==> v[8] == "")
      && v[9] == OrEmpty(lead.wilaya) && v[10] == OrEmpty(lead.commune) && v[11] == OrEmpty(lead.quartier)
      && DedupeKeys.ParseOptionalInt(v[12]) == lead.budgetMin && DedupeKeys.ParseOptionalInt(v[13]) == lead.budgetMax
      && v[14] == lead.createdAt && v[15] == OrEmpty(lead.wonAt) && v[16] == OrEmpty(lead.lostAt)
  {
    hide DedupeKeys.OptionalIntText, DedupeKeys.ParseOptionalInt;
    DedupeKeys.OptionalIntReadsBack(lead.budgetMin);
    DedupeKeys.OptionalIntReadsBack(lead.budgetMax);
  }

  lemma HeaderNames()
    ensures HEADER[0] == "leadId" && HEADER[1] == "fullName" && HEADER[2] == "phone" && HEADER[3] == "email"
    ensures HEADER[4] == "type" && HEADER[5] == "status" && HEADER[6] == "sourceType" && HEADER[7] == "ownerUserId"
    ensures HEADER[8] == "ownerName" && HEADER[9] == "wilaya" && HEADER[10] == "commune" && HEADER[11] == "quartier"
    ensures HEADER[12] == "budgetMin" && HEADER[13] == "budgetMax" && HEADER[14] == "createdAt"
    ensures HEADER[15] == "wonAt" && HEADER[16] == "lostAt"
  {
  }

  lemma RecordShowsLead(table: seq<seq<string>>, i: nat, lead: Lead, owners: map<string, string>)
    requires i + 1 < |table| && table[0] == HEADER && table[i + 1] == Values(Columns(lead, owners))
    ensures ShowsLead(table, i, lead, owners)
  {
    hide Shows, Values, Columns, DedupeKeys.ParseOptionalInt;
    ValuesAre(lead, owners);
    HeaderNames();
    forall c: nat | c < 17 ensures Shows(table, i, HEADER[c], table[i + 1][c]) { ShowsAt(table, i, c); }
  }

  /**
   * In the text read back, every lead's record shows each of the seventeen fields under its own name,
   * whatever quotes, commas and line feeds the free texts hold.
   */
  lemma ExportShowsLeads(leads: seq<Lead>, owners: map<string, string>, i: nat)
    requires (forall k :: 0 <= k < |leads| ==> PlainColumns(leads[k])) && i < |leads|
    ensures ReadCsv(ExportLeadsCsv(leads, owners)).Some?
    ensures var table := ReadCsv(ExportLeadsCsv(leads, owners)).value;
            |table| == |leads| + 1 && ShowsLead(table, i, leads[i], owners)
  {
    hide PlainColumns, ExportLeadsCsv, ReadCsv, ShowsLead;
    ExportReadsBack(leads, owners);
    RecordShowsLead([HEADER] + CellTable(leads, owners), i, leads[i], owners);
  }

  /** Two leads the export cannot tell apart: equal but for absent and empty texts. */
  predicate SameShown(a: Lead, b: Lead) {
    && a.id == b.id && a.fullName == b.fullName && OrEmpty(a.phone) == OrEmpty(b.phone)
    && OrEmpty(a.email) == OrEmpty(b.email) && a.kind == b.kind && a.status == b.status
    && a.sourceType == b.sourceType && OrEmpty(a.ownerUserId) == OrEmpty(b.ownerUserId)
    && OrEmpty(a.wilaya) == OrEmpty(b.wilaya) && OrEmpty(a.commune) == OrEmpty(b.commune)
    && OrEmpty(a.quartier) == OrEmpty(b.quartier) && a.budgetMin == b.budgetMin && a.budgetMax == b.budgetMax
    && a.createdAt == b.createdAt && OrEmpty(a.wonAt) == OrEmpty(b.wonAt) && OrEmpty(a.lostAt) == OrEmpty(b.lostAt)
  }

  /** Hence two exports print the same text only for the same leads, field by field, and the same owners' names. */
  lemma ExportIsInjective(a: seq<Lead>, owners: map<string, string>, b: seq<Lead>, owners': map<string, string>)
    requires forall i :: 0 <= i < |a| ==> PlainColumns(a[i])
    requires forall i :: 0 <= i < |b| ==> PlainColumns(b[i])
    requires ExportLeadsCsv(a, owners) == ExportLeadsCsv(b, owners')
    ensures |a| == |b|
    ensures forall i :: 0 <= i < |a| ==>
      SameShown(a[i], b[i]) && OwnerName(a[i], owners) == OwnerName(b[i], owners')
  {
    hide PlainColumns, ExportLeadsCsv, ReadCsv, Values, Columns, SameShown, OwnerName;
    ExportReadsBack(a, owners);
    ExportReadsBack(b, owners');
    assert ([HEADER] + CellTable(a, owners))[1..] == CellTable(a, owners);
    assert ([HEADER] + CellTable(b, owners'))[1..] == CellTable(b, owners');
    forall i | 0 <= i < |a| ensures SameShown(a[i], b[i]) && OwnerName(a[i], owners) == OwnerName(b[i], owners') {
      assert CellTable(a, owners)[i] == CellTable(b, owners')[i];
      SameValuesSameShown(a[i], owners, b[i], owners');
    }
  }

  lemma SameValuesSameShown(a: Lead, owners: map<string, string>, b: Lead, owners': map<string, string>)
    requires Values(Columns(a, owners)) == Values(Columns(b, owners'))
    ensures SameShown(a, b) && OwnerName(a, owners) == OwnerName(b, owners')
  {
    hide Values, Columns, DedupeKeys.ParseOptionalInt;
    ValuesAre(a, owners);
    ValuesAre(b, owners');
  }
}
