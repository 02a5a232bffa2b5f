/** CSV export of the audit trail, and a reader for the format of section 2 of RFC 4180
    that takes the exported text back apart. */
module Csv {
  import opened Text

  datatype AuditEvent = AuditEvent(createdAt: string, actor: string, subjectType: string,
                                   subjectId: Option<string>, action: string, message: string)

  const HEADER := ["time", "actor", "subject_type", "subject_id", "action", "message"]

  // ------------------------------------------------------------------- printing

  predicate FormulaStart(c: char) {
    c == '=' || c == '+' || c == '-' || c == '@'
  }

  predicate Special(c: char) {
    c == '"' || c == ',' || c == '\n' || c == '\r'
  }

  /** The value an exported cell stands for: the input, defused by an apostrophe when
      a spreadsheet would take it for a formula. */
  function Defused(v: string): string {
    if v != "" && FormulaStart(v[0]) then "'" + v else v
  }

  function DoubleQuotes(s: string): string {
    if s == "" then ""
    else if s[0] == '"' then "\"\"" + DoubleQuotes(s[1..])
    else [s[0]] + DoubleQuotes(s[1..])
  }

  predicate NeedsQuotes(s: string) {
    exists i :: 0 <= i < |s| && Special(s[i])
  }

  function Cell(v: string): string {
    var s := Defused(v);
    if NeedsQuotes(s) then "\"" + DoubleQuotes(s) + "\"" else s
  }

  method CsvCell(v: string) returns (s: string)
    ensures s == Cell(v)
  {
    s := v;
    if s != "" && FormulaStart(s[0]) {
      s := "'" + s;
    }
    if exists i :: 0 <= i < |s| && Special(s[i]) {
      s := "\"" + DoubleQuotes(s) + "\"";
    }
  }

  function Join(parts: seq<string>, sep: string): string {
    if parts == [] then ""
    else if |parts| == 1 then parts[0]
    else parts[0] + sep + Join(parts[1..], sep)
  }

  function Cells(values: seq<string>): (r: seq<string>)
    ensures |r| == |values| && forall i :: 0 <= i < |values| ==> r[i] == Cell(values[i])
  {
    seq(|values|, i requires 0 <= i < |values| => Cell(values[i]))
  }

  function Fields(e: AuditEvent): seq<string> {
    [e.createdAt, e.actor, e.subjectType,
     match e.subjectId case Some(id) => id case None => "", e.action, e.message]
  }

  function Line(values: seq<string>): string {
    Join(Cells(values), ",")
  }

  function Lines(events: seq<AuditEvent>): (r: seq<string>)
    ensures |r| == |events| && forall i :: 0 <= i < |events| ==> r[i] == Line(Fields(events[i]))
  {
    seq(|events|, i requires 0 <= i < |events| => Line(Fields(events[i])))
  }

  function ExportCsv(events: seq<AuditEvent>): string {
    Join([Join(HEADER, ",")] + Lines(events), "\r\n")
  }

  // ------------------------------------------------ reading (section 2 of RFC 4180)

  /** The rest of a quoted field after its opening quote. */
  function ReadQuoted(s: string): Option<(string, string)> {
    if s == "" then None
    else if s[0] != '"' then
      match ReadQuoted(s[1..])
      case Some(r) => Some(([s[0]] + r.0, r.1))
      case None => None
    else if |s| > 1 && s[1] == '"' then
      match ReadQuoted(s[2..])
      case Some(r) => Some(("\"" + r.0, r.1))
      case None => None
    else Some(("", s[1..]))
  }

  /** Text data up to the first quote, comma or line-break character. */
  function ReadPlain(s: string): (string, string) {
    if s == "" || Special(s[0]) then ("", s)
    else var r := ReadPlain(s[1..]); ([s[0]] + r.0, r.1)
  }

  function ReadField(s: string): Option<(string, string)> {
    if s != "" && s[0] == '"' then ReadQuoted(s[1..]) else Some(ReadPlain(s))
  }

  lemma {:induction false} QuotedShrinks(s: string)
    ensures ReadQuoted(s).Some? ==> |ReadQuoted(s).value.1| < |s|
  {
    if s != "" {
      if s[0] != '"' { QuotedShrinks(s[1..]); }
      else if |s| > 1 && s[1] == '"' { QuotedShrinks(s[2..]); }
    }
  }

  lemma {:induction false} PlainShrinks(s: string)
    ensures |ReadPlain(s).1| <= |s|
  {
    if s != "" && !Special(s[0]) { PlainShrinks(s[1..]); }
  }

  lemma FieldShrinks(s: string)
    ensures ReadField(s).Some? ==> |ReadField(s).value.1| <= |s|
  {
    if s != "" { QuotedShrinks(s[1..]); }
    PlainShrinks(s);
  }

  /** One record: its fields, and what follows its line break, or None at the end of
      the text. Anything else after a field is malformed. */
  function ReadRecord(s: string): (r: Option<(seq<string>, Option<string>)>)
    ensures r.Some? && r.value.1.Some? ==> |r.value.1.value| < |s|
    decreases |s|
  {
    FieldShrinks(s);
    match ReadField(s)
    case None => None
    case Some((f, rest)) =>
      if rest == "" then Some(([f], None))
      else if rest[0] == ',' then
        match ReadRecord(rest[1..])
        case None => None
        case Some((fs, next)) => Some(([f] + fs, next))
      else if |rest| > 1 && rest[..2] == "\r\n" then Some(([f], Some(rest[2..])))
      else None
  }

  /** All records; the last one may or may not end in a line break. */
  function ReadCsv(s: string): Option<seq<seq<string>>>
    decreases |s|
  {
    match ReadRecord(s)
    case None => None
    case Some((fs, next)) =>
      if next.None? || next.value == "" then Some([fs])
      else
        match ReadCsv(next.value)
        case None => None
        case Some(more) => Some([fs] + more)
  }

  // ------------------------------------------------------------------ round trip

  /** What may follow a field: a comma, a line break or the end of the text. */
  predicate EndsField(tail: string) {
    tail == "" || tail[0] == ',' || tail[0] == '\r'
  }

  lemma {:induction false} QuotedRoundTrip(s: string, tail: string)
    requires EndsField(tail)
    ensures ReadQuoted(DoubleQuotes(s) + "\"" + tail) == Some((s, tail))
  {
    var text := DoubleQuotes(s) + "\"" + tail;
    if s == "" {
      assert text == "\"" + tail;
      assert text[1..] == tail;
    } else {
      QuotedRoundTrip(s[1..], tail);
      var more := DoubleQuotes(s[1..]) + "\"" + tail;
      if s[0] == '"' {
        assert text == "\"\"" + more;
        assert text[2..] == more && text[0] == '"' && text[1] == '"';
        assert "\"" + s[1..] == s;
      } else {
        assert text == [s[0]] + more;
        assert text[1..] == more && [s[0]] + s[1..] == s;
      }
    }
  }

  lemma {:induction false} PlainRoundTrip(s: string, tail: string)
    requires !NeedsQuotes(s) && EndsField(tail)
    ensures ReadPlain(s + tail) == (s, tail)
  {
    if s == "" {
      assert s + tail == tail;
    } else {
      assert !Special(s[0]);
      forall i | 0 <= i < |s[1..]| ensures !Special(s[1..][i]) {
        assert s[1..][i] == s[i + 1];
      }
      assert (s + tail)[1..] == s[1..] + tail;
      PlainRoundTrip(s[1..], tail);
      assert [s[0]] + s[1..] == s;
    }
  }

  lemma {:induction false} CellRoundTrip(v: string, tail: string)
    requires EndsField(tail)
    ensures ReadField(Cell(v) + tail) == Some((Defused(v), tail))
  {
    hide Defused, DoubleQuotes, ReadQuoted, ReadPlain;
    var s := Defused(v);
    var text := Cell(v) + tail;
    if NeedsQuotes(s) {
      assert text == "\"" + (DoubleQuotes(s) + "\"" + tail);
      assert text[0] == '"' && text[1..] == DoubleQuotes(s) + "\"" + tail;
      QuotedRoundTrip(s, tail);
    } else {
      assert text == s + tail;
      PlainRoundTrip(s, tail);
      if s != "" {
        assert text[0] == s[0] && !Special(s[0]);
      } else {
        assert text == tail;
      }
    }
  }

  function DefusedAll(values: seq<string>): (r: seq<string>)
    ensures |r| == |values| && forall i :: 0 <= i < |values| ==> r[i] == Defused(values[i])
  {
    seq(|values|, i requires 0 <= i < |values| => Defused(values[i]))
  }

  lemma RecordEnds(s: string, f: string, tail: string)
    requires ReadField(s) == Some((f, tail))
    requires tail == "" || (|tail| > 1 && tail[..2] == "\r\n")
    ensures ReadRecord(s) == Some(([f], if tail == "" then None else Some(tail[2..])))
  {
    assert tail != "" ==> tail[0] == tail[..2][0];
  }

  lemma RecordContinues(s: string, f: string, more: string, fs: seq<string>, next: Option<string>)
    requires ReadField(s) == Some((f, "," + more))
    requires ReadRecord(more) == Some((fs, next))
    ensures ReadRecord(s) == Some(([f] + fs, next))
  {
    assert ("," + more)[1..] == more;
  }

  lemma {:induction false} LineRoundTrip(values: seq<string>, tail: string)
    requires values != []
    requires tail == "" || (|tail| > 1 && tail[..2] == "\r\n")
    ensures ReadRecord(Line(values) + tail)
         == Some((DefusedAll(values), if tail == "" then None else Some(tail[2..])))
    decreases |values|
  {
    hide ReadField, ReadRecord, Cell, Defused;
    if |values| == 1 {
      assert Cells(values) == [Cell(values[0])];
      assert tail != "" ==> tail[0] == tail[..2][0];
      CellRoundTrip(values[0], tail);
      RecordEnds(Line(values) + tail, Defused(values[0]), tail);
      assert DefusedAll(values) == [Defused(values[0])];
    } else {
      var more := Line(values[1..]) + tail;
      assert Cells(values)[1..] == Cells(values[1..]);
      assert Line(values) + tail == Cell(values[0]) + ("," + more);
      CellRoundTrip(values[0], "," + more);
      LineRoundTrip(values[1..], tail);
      RecordContinues(Line(values) + tail, Defused(values[0]), more,
                      DefusedAll(values[1..]), if tail == "" then None else Some(tail[2..]));
      assert DefusedAll(values) == [Defused(values[0])] + DefusedAll(values[1..]);
    }
  }

  lemma {:induction false} LongLineNotEmpty(values: seq<string>)
    requires |values| >= 2
    ensures Line(values) != ""
  {
  }

  /** Rows of at least two cells, each printed by the cell printer, are read back. */
  lemma {:induction false} RowsRoundTrip(rows: seq<seq<string>>, lines: seq<string>)
    requires rows != [] && |lines| == |rows|
    requires forall i :: 0 <= i < |rows| ==> |rows[i]| >= 2 && lines[i] == Line(rows[i])
    ensures ReadCsv(Join(lines, "\r\n")).Some?
    ensures var out := ReadCsv(Join(lines, "\r\n")).value;
            |out| == |rows| && forall i :: 0 <= i < |rows| ==> out[i] == DefusedAll(rows[i])
    decreases |rows|
  {
    var text := Join(lines, "\r\n");
    if |rows| == 1 {
      assert text == Line(rows[0]) + "";
      LineRoundTrip(rows[0], "");
    } else {
      var more := Join(lines[1..], "\r\n");
      var tail := "\r\n" + more;
      assert text == Line(rows[0]) + tail;
      assert tail[..2] == "\r\n" && tail[2..] == more;
      LineRoundTrip(rows[0], tail);
      LongLineNotEmpty(rows[1]);
      RowsRoundTrip(rows[1..], lines[1..]);
      JoinNotEmpty(lines[1..], "\r\n");
    }
  }

  lemma JoinNotEmpty(parts: seq<string>, sep: string)
    requires parts != [] && parts[0] != ""
    ensures Join(parts, sep) != ""
  {
  }

  function ExportedRows(events: seq<AuditEvent>): (r: seq<seq<string>>)
    ensures |r| == |events| + 1 && r[0] == HEADER
    ensures forall i :: 0 <= i < |events| ==> r[i + 1] == DefusedAll(Fields(events[i]))
  {
    [HEADER] + seq(|events|, i requires 0 <= i < |events| => DefusedAll(Fields(events[i])))
  }

  lemma HeaderIsPlain()
    ensures Join(HEADER, ",") == Line(HEADER) && DefusedAll(HEADER) == HEADER
  {
    forall i | 0 <= i < |HEADER| ensures Cell(HEADER[i]) == HEADER[i] == Defused(HEADER[i]) {
      HeaderCellIsPlain(i);
    }
    assert Cells(HEADER) == HEADER;
  }

  lemma HeaderCellIsPlain(i: nat)
    requires i < |HEADER|
    ensures Cell(HEADER[i]) == HEADER[i] == Defused(HEADER[i])
  {
    var h := HEADER[i];
    assert h != "" && !FormulaStart(h[0]) && forall k :: 0 <= k < |h| ==> !Special(h[k]);
  }

  /** The exported file, read by RFC 4180's rules, is the header and one row per event,
      every cell as it was except for the apostrophe before a formula start. */
  lemma ExportRoundTrip(events: seq<AuditEvent>)
    ensures ReadCsv(ExportCsv(events)) == Some(ExportedRows(events))
  {
    hide HEADER, Join, Line, ReadCsv, Defused, Fields;
    HeaderIsPlain();
    HeaderWidth();
    var rows := [HEADER] + seq(|events|, i requires 0 <= i < |events| => Fields(events[i]));
    var lines := [Join(HEADER, ",")] + Lines(events);
    forall i | 0 <= i < |rows| ensures |rows[i]| >= 2 && lines[i] == Line(rows[i]) {
      if i > 0 {
        assert rows[i] == Fields(events[i - 1]) && lines[i] == Lines(events)[i - 1];
        SixFields(events[i - 1]);
      }
    }
    RowsRoundTrip(rows, lines);
    var out := ReadCsv(ExportCsv(events)).value;
    forall i | 0 <= i < |out| ensures out[i] == ExportedRows(events)[i] {
      if i > 0 {
        assert rows[i] == Fields(events[i - 1]);
      }
    }
    assert out == ExportedRows(events);
  }

  /** What a cell read back shows of a text: the text itself, behind an apostrophe where it
      starts like a formula. */
  ghost predicate Shows(cell: string, v: string) {
    cell == if v != "" && v[0] in "=+-@" then "'" + v else v
  }

  /** The columns of the file: the first row names them, and each event's row shows its six
      fields under those names, the missing subject id as an empty cell. */
  lemma ColumnsReadBack(events: seq<AuditEvent>, i: nat)
    requires i < |events|
    ensures ReadCsv(ExportCsv(events)).Some?
    ensures var rows, e := ReadCsv(ExportCsv(events)).value, events[i];
            && |rows| == |events| + 1 && |rows[i + 1]| == 6
            && rows[0] == ["time", "actor", "subject_type", "subject_id", "action", "message"]
            && Shows(rows[i + 1][0], e.createdAt) && Shows(rows[i + 1][1], e.actor)
            && Shows(rows[i + 1][2], e.subjectType)
            && (e.subjectId.Some? ==> Shows(rows[i + 1][3], e.subjectId.value))
            && (e.subjectId.None? ==> rows[i + 1][3] == "")
            && Shows(rows[i + 1][4], e.action) && Shows(rows[i + 1][5], e.message)
  {
    hide ReadCsv, ExportCsv, Fields, Shows, Defused;
    ExportRoundTrip(events);
    FieldsShown(events[i]);
  }

  lemma FieldsShown(e: AuditEvent)
    ensures var row := DefusedAll(Fields(e));
            && |row| == 6
            && Shows(row[0], e.createdAt) && Shows(row[1], e.actor) && Shows(row[2], e.subjectType)
            && (e.subjectId.Some? ==> Shows(row[3], e.subjectId.value))
            && (e.subjectId.None? ==> row[3] == "")
            && Shows(row[4], e.action) && Shows(row[5], e.message)
  {
    forall v: string ensures Shows(Defused(v), v) {
    }
    hide Shows;
  }

  lemma SixFields(e: AuditEvent)
    ensures |Fields(e)| == 6
  {
  }

  lemma HeaderWidth()
    ensures |HEADER| >= 2
  {
  }

  /** No cell of the file, once read, starts like a formula; and the export tells two
      values apart unless one is the other behind the defusing apostrophe. */
  lemma CellsAreDefused(v: string, w: string)
    ensures Defused(v) == "" || Defused(v)[0] !in "=+-@"
    ensures Defused(v) == v || (Defused(v) == "'" + v && v != "" && v[0] in "=+-@")
    ensures Cell(v) == Cell(w) <==> Defused(v) == Defused(w)
    ensures Defused(v) == Defused(w)
       <==> v == w || (w != "" && FormulaStart(w[0]) && v == "'" + w)
                   || (v != "" && FormulaStart(v[0]) && w == "'" + v)
  {
    if Cell(v) == Cell(w) {
      CellRoundTrip(v, "");
      CellRoundTrip(w, "");
      assert Cell(v) + "" == Cell(w) + "";
    }
    assert v != "" && w != "" && "'" + v == "'" + w ==> ("'" + v)[1..] == ("'" + w)[1..];
  }
}
