/**
 The CSV text of a statement, and a reader for the grammar of section 2 of RFC 4180.
 */
module Csv {
  import opened Store

  // ---------------------------------------------------------------- the writer

  predicate IsSpecial(c: char) {
    c == '"' || c == ',' || c == '\r' || c == '\n'
  }

  // A spreadsheet would take the text for a formula.
  predicate Dangerous(value: string) {
    |value| > 0 && value[0] in {'=', '+', '-', '@', '\t', '\r'}
  }

  function DoubleQuotes(s: string): string {
    if |s| == 0 then "" else (if s[0] == '"' then "\"\"" else [s[0]]) + DoubleQuotes(s[1..])
  }

  predicate NeedsQuotes(s: string) {
    exists i :: 0 <= i < |s| && IsSpecial(s[i])
  }

  function CsvField(value: Option<string>): string {
    if value.None? || value.value == "" then ""
    else
      var escaped := DoubleQuotes(if Dangerous(value.value) then "'" + value.value else value.value);
      if NeedsQuotes(escaped) then "\"" + escaped + "\"" else escaped
  }

  function JoinFields(fields: seq<Option<string>>): string
    requires |fields| > 0
  {
    if |fields| == 1 then CsvField(fields[0]) else CsvField(fields[0]) + "," + JoinFields(fields[1..])
  }

  // A statement line; dates and amounts are rendered before they get here.
  datatype Line = Line(date: string, reference: string, kind: string, credit: bool, counterparty: string,
                       phone: Option<string>, amount: string, amountMinor: string, balance: string, note: Option<string>)

  function Fields(line: Line): (fields: seq<Option<string>>)
    ensures |fields| == 10
  {
    [Some(line.date), Some(line.reference), Some(line.kind), Some(if line.credit then "IN" else "OUT"),
     Some(line.counterparty), line.phone, Some(line.amount), Some(line.amountMinor), Some(line.balance), line.note]
  }

  function CsvRow(fields: seq<Option<string>>): string
    requires |fields| > 0
  {
    JoinFields(fields) + "\r\n"
  }

  // Rows of fields, one after another.
  function CsvRows(rows: seq<seq<Option<string>>>): string
    requires forall i :: 0 <= i < |rows| ==> |rows[i]| > 0
  {
    if |rows| == 0 then "" else CsvRow(rows[0]) + CsvRows(rows[1..])
  }

  function AllFields(lines: seq<Line>): (rows: seq<seq<Option<string>>>)
    ensures |rows| == |lines| && forall i :: 0 <= i < |rows| ==> |rows[i]| == 10
  {
    seq(|lines|, i requires 0 <= i < |lines| => Fields(lines[i]))
  }

  lemma Associate(a: string, b: string, c: string)
    ensures a + (b + c) == a + b + c
  {
  }

  lemma {:induction false} OneMoreRow(rows: seq<seq<Option<string>>>, row: seq<Option<string>>)
    requires |row| > 0 && forall i :: 0 <= i < |rows| ==> |rows[i]| > 0
    ensures CsvRows(rows + [row]) == CsvRows(rows) + CsvRow(row)
  {
    var all := rows + [row];
    if |rows| == 0 {
      assert all[1..] == [] && all[0] == row;
    } else {
      OneMoreRow(rows[1..], row);
      assert all[1..] == rows[1..] + [row] && all[0] == rows[0];
      Associate(CsvRow(rows[0]), CsvRows(rows[1..]), CsvRow(row));
    }
  }

  // The text of one page.
  method WriteChunk(lines: seq<Line>) returns (chunk: string)
    ensures chunk == CsvRows(AllFields(lines))
  {
    chunk := "";
    ghost var rows := AllFields(lines);
    for i := 0 to |lines|
      invariant chunk == CsvRows(rows[..i])
    {
      OneMoreRow(rows[..i], rows[i]);
      assert rows[..i + 1] == rows[..i] + [rows[i]];
      chunk := chunk + CsvRow(Fields(lines[i]));
    }
    assert rows[..|lines|] == rows;
  }

  // ---------------------------------------------------------------- the reader

  datatype Read<+T> = Bad | Good(value: T, rest: string)

  // *(TEXTDATA / COMMA / CR / LF / 2DQUOTE) DQUOTE
  function ReadQuoted(s: string): (r: Read<string>)
    ensures r.Good? ==> |r.rest| < |s|
  {
    if |s| == 0 then Bad
    else if s[0] != '"' then
      var r := ReadQuoted(s[1..]);
      if r.Bad? then Bad else Good([s[0]] + r.value, r.rest)
    else if |s| > 1 && s[1] == '"' then
      var r := ReadQuoted(s[2..]);
      if r.Bad? then Bad else Good("\"" + r.value, r.rest)
    else Good("", s[1..])
  }

  // *TEXTDATA
  function ReadPlain(s: string): (r: Read<string>)
    ensures r.Good? && |r.rest| <= |s|
  {
    if |s| == 0 || IsSpecial(s[0]) then Good("", s)
    else
      var r := ReadPlain(s[1..]);
      Good([s[0]] + r.value, r.rest)
  }

  function ReadField(s: string): (r: Read<string>)
    ensures r.Good? ==> |r.rest| <= |s|
  {
    if |s| > 0 && s[0] == '"' then ReadQuoted(s[1..]) else ReadPlain(s)
  }

  // field *(COMMA field) CRLF
  function ReadRecord(s: string): (r: Read<seq<string>>)
    ensures r.Good? ==> |r.rest| < |s|
    decreases |s|
  {
    var f := ReadField(s);
    if f.Bad? then Bad
    else if |f.rest| > 0 && f.rest[0] == ',' then
      var r := ReadRecord(f.rest[1..]);
      if r.Bad? then Bad else Good([f.value] + r.value, r.rest)
    else if |f.rest| > 1 && f.rest[0] == '\r' && f.rest[1] == '\n' then Good([f.value], f.rest[2..])
    else Bad
  }

  function ReadFile(s: string): Option<seq<seq<string>>>
    decreases |s|
  {
    if |s| == 0 then Some([])
    else
      var r := ReadRecord(s);
      if r.Bad? then None
      else
        var more := ReadFile(r.rest);
        if more.None? then None else Some([r.value] + more.value)
  }

  // ---------------------------------------------------------------- round trip

  // What a reader sees of a field: null is empty, and a formula has a quote in front.
  function Guarded(value: Option<string>): string {
    if value.None? then ""
    else if Dangerous(value.value) then "'" + value.value
    else value.value
  }

  function GuardedFields(fields: seq<Option<string>>): seq<string> {
    seq(|fields|, i requires 0 <= i < |fields| => Guarded(fields[i]))
  }

  // A character that can follow a field.
  predicate AfterField(rest: string) {
    |rest| > 0 && (rest[0] == ',' || rest[0] == '\r')
  }

  lemma {:induction false} QuotedReadsBack(s: string, rest: string)
    requires AfterField(rest)
    ensures ReadQuoted(DoubleQuotes(s) + "\"" + rest) == Good(s, rest)
  {
    var text := DoubleQuotes(s) + "\"" + rest;
    if |s| == 0 {
      assert text == "\"" + rest;
      assert text[1..] == rest;
    } else {
      QuotedReadsBack(s[1..], rest);
      var head := if s[0] == '"' then "\"\"" else [s[0]];
      var tail := DoubleQuotes(s[1..]) + "\"" + rest;
      assert text == head + tail;
      assert text[|head|..] == tail;
      assert s == [s[0]] + s[1..];
    }
  }

  lemma {:induction false} PlainReadsBack(s: string, rest: string)
    requires AfterField(rest) && forall i :: 0 <= i < |s| ==> !IsSpecial(s[i])
    ensures ReadPlain(s + rest) == Good(s, rest)
  {
    if |s| == 0 {
      assert s + rest == rest;
    } else {
      PlainReadsBack(s[1..], rest);
      assert (s + rest)[1..] == s[1..] + rest;
      assert s == [s[0]] + s[1..];
    }
  }

  lemma {:induction false} NoQuotesToDouble(s: string)
    requires forall i :: 0 <= i < |DoubleQuotes(s)| ==> !IsSpecial(DoubleQuotes(s)[i])
    ensures DoubleQuotes(s) == s
  {
    if |s| > 0 {
      var head := if s[0] == '"' then "\"\"" else [s[0]];
      assert DoubleQuotes(s) == head + DoubleQuotes(s[1..]);
      assert DoubleQuotes(s)[0] == head[0];
      forall i | 0 <= i < |DoubleQuotes(s[1..])| ensures !IsSpecial(DoubleQuotes(s[1..])[i]) {
        assert DoubleQuotes(s)[|head| + i] == DoubleQuotes(s[1..])[i];
      }
      NoQuotesToDouble(s[1..]);
      assert s == [s[0]] + s[1..];
    }
  }

  lemma Unquote(c: char, a: string, b: string, rest: string)
    ensures ([c] + a + b + rest)[1..] == a + b + rest
  {
  }

  lemma QuotedFieldReadsBack(text: string, rest: string)
    requires AfterField(rest)
    ensures ReadField("\"" + DoubleQuotes(text) + "\"" + rest) == Good(text, rest)
  {
    Unquote('"', DoubleQuotes(text), "\"", rest);
    QuotedReadsBack(text, rest);
  }

  lemma PlainFieldReadsBack(text: string, rest: string)
    requires AfterField(rest) && !NeedsQuotes(DoubleQuotes(text))
    ensures DoubleQuotes(text) == text && ReadField(text + rest) == Good(text, rest)
  {
    NoQuotesToDouble(text);
    PlainReadsBack(text, rest);
  }

  lemma FieldReadsBack(value: Option<string>, rest: string)
    requires AfterField(rest)
    ensures ReadField(CsvField(value) + rest) == Good(Guarded(value), rest)
  {
    if value.None? || value.value == "" {
      assert CsvField(value) + rest == rest;
    } else if NeedsQuotes(DoubleQuotes(Guarded(value))) {
      QuotedFieldReadsBack(Guarded(value), rest);
    } else {
      PlainFieldReadsBack(Guarded(value), rest);
    }
  }

  lemma RecordGoesOn(text: string, value: string, more: string, values: seq<string>, rest: string)
    requires ReadField(text) == Good(value, "," + more) && ReadRecord(more) == Good(values, rest)
    ensures ReadRecord(text) == Good([value] + values, rest)
  {
    assert ("," + more)[1..] == more;
  }

  lemma RecordEnds(text: string, value: string, rest: string)
    requires ReadField(text) == Good(value, "\r\n" + rest)
    ensures ReadRecord(text) == Good([value], rest)
  {
    assert ("\r\n" + rest)[2..] == rest;
  }

  lemma RowSplits(fields: seq<Option<string>>, rest: string)
    requires |fields| > 0
    ensures |fields| == 1 ==> CsvRow(fields) + rest == CsvField(fields[0]) + ("\r\n" + rest)
    ensures |fields| > 1 ==> CsvRow(fields) + rest == CsvField(fields[0]) + ("," + (CsvRow(fields[1..]) + rest))
  {
    if |fields| == 1 {
      Associate(CsvField(fields[0]), "\r\n", rest);
    } else {
      Regroup(CsvField(fields[0]), ",", JoinFields(fields[1..]), "\r\n", rest);
    }
  }

  lemma Regroup(a: string, b: string, c: string, d: string, e: string)
    ensures a + b + c + d + e == a + (b + ((c + d) + e))
  {
  }

  lemma {:induction false} RecordReadsBack(fields: seq<Option<string>>, rest: string)
    requires |fields| > 0
    ensures ReadRecord(CsvRow(fields) + rest) == Good(GuardedFields(fields), rest)
    decreases |fields|
  {
    var text := CsvRow(fields) + rest;
    RowSplits(fields, rest);
    if |fields| == 1 {
      FieldReadsBack(fields[0], "\r\n" + rest);
      RecordEnds(text, Guarded(fields[0]), rest);
      assert GuardedFields(fields) == [Guarded(fields[0])];
    } else {
      var more := CsvRow(fields[1..]) + rest;
      RecordReadsBack(fields[1..], rest);
      FieldReadsBack(fields[0], "," + more);
      RecordGoesOn(text, Guarded(fields[0]), more, GuardedFields(fields[1..]), rest);
      assert GuardedFields(fields) == [Guarded(fields[0])] + GuardedFields(fields[1..]);
    }
  }

  function GuardedRows(rows: seq<seq<Option<string>>>): seq<seq<string>> {
    seq(|rows|, i requires 0 <= i < |rows| => GuardedFields(rows[i]))
  }

  lemma {:induction false} RowsReadBack(rows: seq<seq<Option<string>>>)
    requires forall i :: 0 <= i < |rows| ==> |rows[i]| > 0
    ensures ReadFile(CsvRows(rows)) == Some(GuardedRows(rows))
  {
    if |rows| > 0 {
      RowsReadBack(rows[1..]);
      RecordReadsBack(rows[0], CsvRows(rows[1..]));
      assert GuardedRows(rows) == [GuardedFields(rows[0])] + GuardedRows(rows[1..]);
    }
  }

  // Reading back what was written, whatever commas, quotes and line ends the texts contain: the same
  // rows in the same order, ten fields each, every field as it was but for the guard.
  lemma StatementReadsBack(lines: seq<Line>)
    ensures ReadFile(CsvRows(AllFields(lines))) == Some(GuardedRows(AllFields(lines)))
    ensures forall i :: 0 <= i < |lines| ==> |GuardedRows(AllFields(lines))[i]| == 10
  {
    RowsReadBack(AllFields(lines));
  }

  // The guard cannot be taken off again: two different texts read back alike exactly when one is the
  // other, a formula, with a quote already in front.
  lemma GuardConfusesIff(a: string, b: string)
    ensures Guarded(Some(a)) == Guarded(Some(b)) <==>
              a == b || (Dangerous(b) && a == "'" + b) || (Dangerous(a) && b == "'" + a)
  {
    assert ("'" + a)[1..] == a && ("'" + b)[1..] == b;
    assert !Dangerous("'" + a) && !Dangerous("'" + b);
  }
}
