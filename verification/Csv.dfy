/**
 The text of a results download (web/src/features/analysis/model.ts), and a
 reader for the format of section 2 of RFC 4180.
 */
module Csv {
  import opened Common

  const QUOTE := '"'
  const CR := '\r'
  const LF := '\n'
  const CRLF := [CR, LF]

  /** A value to export: a string, or anything else by the text that `cell` renders it as. */
  datatype Value = Text(text: string) | Rendered(text: string)

  const FORMULA := {'=', '+', '-', '@', '\t', '\r'}

  predicate LooksLikeFormula(s: string) {
    s != "" && s[0] in FORMULA
  }

  /** The text of a cell before quoting. */
  function CellText(v: Value): string {
    if v.Text? && LooksLikeFormula(v.text) then "'" + v.text else v.text
  }

  /** `replaceAll('"', '""')`. */
  function Doubled(s: string): string {
    if s == "" then ""
    else (if s[0] == QUOTE then [QUOTE, QUOTE] else [s[0]]) + Doubled(s[1..])
  }

  function Escape(v: Value): string {
    [QUOTE] + Doubled(CellText(v)) + [QUOTE]
  }

  function JoinText(parts: seq<string>, sep: string): string {
    if parts == [] then ""
    else if |parts| == 1 then parts[0]
    else parts[0] + sep + JoinText(parts[1..], sep)
  }

  function RowText(row: seq<Value>): string {
    JoinText(seq(|row|, i requires 0 <= i < |row| => Escape(row[i])), ",")
  }

  /** The text after the byte-order mark. */
  function FileText(matrix: seq<seq<Value>>): string {
    JoinText(seq(|matrix|, i requires 0 <= i < |matrix| => RowText(matrix[i])), CRLF)
  }

  // ----- the exported matrix -----

  /** What the export reads of a result row; `inputs` has an entry for each field that is present. */
  datatype ResultRow = ResultRow(number: string, inputs: map<string, Value>, flagged: bool, output: string,
      error: string)

  /** A missing field renders as the empty string. */
  function InputValue(r: ResultRow, column: string): Value {
    if column in r.inputs then r.inputs[column] else Rendered("")
  }

  function Header(columns: seq<string>): seq<Value> {
    [Text("Source row")] + seq(|columns|, i requires 0 <= i < |columns| => Text(columns[i]))
    + [Text("Flagged"), Text("Result"), Text("Error")]
  }

  function ResultCells(columns: seq<string>, r: ResultRow): seq<Value> {
    [Rendered(r.number)] + seq(|columns|, i requires 0 <= i < |columns| => InputValue(r, columns[i]))
    + [Rendered(if r.flagged then "true" else "false"), Text(r.output), Text(r.error)]
  }

  function Matrix(columns: seq<string>, rows: seq<ResultRow>): seq<seq<Value>> {
    [Header(columns)] + seq(|rows|, i requires 0 <= i < |rows| => ResultCells(columns, rows[i]))
  }

  // ----- the reader -----

  /** The rest of a quoted field: its content, and the text after the closing quote. */
  function ReadQuoted(s: string): (r: Option<(string, string)>)
    ensures r.Some? ==> |r.value.1| < |s|
  {
    if s == "" then None
    else if s[0] == QUOTE && (|s| == 1 || s[1] != QUOTE) then Some(("", s[1..]))
    else
      match ReadQuoted(if s[0] == QUOTE then s[2..] else s[1..])
      case None => None
      case Some(f) => Some(([s[0]] + f.0, f.1))
  }

  /** An unquoted field has no quote, comma or line break in it. */
  function ReadPlain(s: string): (r: Option<(string, string)>)
    ensures r.Some? ==> |r.value.1| <= |s|
  {
    if s == "" || s[0] == ',' || s[0] == CR then Some(("", s))
    else if s[0] == QUOTE || s[0] == LF then None
    else
      match ReadPlain(s[1..])
      case None => None
      case Some(f) => Some(([s[0]] + f.0, f.1))
  }

  function ReadField(s: string): (r: Option<(string, string)>)
    ensures r.Some? ==> |r.value.1| <= |s|
  {
    if s != "" && s[0] == QUOTE then ReadQuoted(s[1..]) else ReadPlain(s)
  }

  function ReadRecord(s: string): (r: Option<(seq<string>, string)>)
    ensures r.Some? ==> |r.value.1| <= |s|
    decreases |s|
  {
    match ReadField(s)
    case None => None
    case Some(f) =>
      if f.1 == "" || f.1[0] != ',' then Some(([f.0], f.1))
      else
        match ReadRecord(f.1[1..])
        case None => None
        case Some(more) => Some(([f.0] + more.0, more.1))
  }

  /** Records are separated by line breaks; the last one may have one too. */
  function ReadFile(s: string): Option<seq<seq<string>>>
    decreases |s|
  {
    match ReadRecord(s)
    case None => None
    case Some(record) =>
      var rest := record.1;
      if rest == "" || rest == CRLF then Some([record.0])
      else if |rest| < 2 || rest[..2] != CRLF then None
      else
        match ReadFile(rest[2..])
        case None => None
        case Some(more) => Some([record.0] + more)
  }

  // ----- round trip -----

  function RowTexts(row: seq<Value>): seq<string> {
    seq(|row|, i requires 0 <= i < |row| => CellText(row[i]))
  }

  function Texts(matrix: seq<seq<Value>>): seq<seq<string>> {
    seq(|matrix|, i requires 0 <= i < |matrix| => RowTexts(matrix[i]))
  }

  lemma {:induction false} QuotedReadsBack(s: string, rest: string)
    requires rest == "" || rest[0] != QUOTE
    ensures ReadQuoted(Doubled(s) + [QUOTE] + rest) == Some((s, rest))
  {
    if s == "" {
      assert Doubled(s) + [QUOTE] + rest == [QUOTE] + rest;
    } else {
      QuotedReadsBack(s[1..], rest);
      var more := Doubled(s[1..]) + [QUOTE] + rest;
      var all := Doubled(s) + [QUOTE] + rest;
      if s[0] == QUOTE {
        assert all == [QUOTE, QUOTE] + more;
        assert all[2..] == more;
      } else {
        assert all == [s[0]] + more;
        assert all[1..] == more;
      }
      assert [s[0]] + s[1..] == s;
    }
  }

  lemma {:induction false} FieldReadsBack(v: Value, rest: string)
    requires rest == "" || rest[0] != QUOTE
    ensures ReadField(Escape(v) + rest) == Some((CellText(v), rest))
  {
    hide CellText, Doubled, ReadQuoted;
    QuotedReadsBack(CellText(v), rest);
    var all := Escape(v) + rest;
    assert all[1..] == Doubled(CellText(v)) + [QUOTE] + rest;
  }

  lemma {:induction false} RowTextParts(row: seq<Value>)
    requires row != []
    ensures RowText(row) == Escape(row[0]) + if |row| == 1 then "" else "," + RowText(row[1..])
    ensures RowTexts(row) == [CellText(row[0])] + RowTexts(row[1..])
  {
    hide Escape, CellText;
    var parts := seq(|row|, i requires 0 <= i < |row| => Escape(row[i]));
    assert parts[1..] == seq(|row[1..]|, i requires 0 <= i < |row[1..]| => Escape(row[1..][i]));
  }

  lemma {:induction false} RecordReadsBack(row: seq<Value>, rest: string)
    requires row != [] && (rest == "" || rest[0] == CR)
    ensures ReadRecord(RowText(row) + rest) == Some((RowTexts(row), rest))
    decreases |row|
  {
    hide Escape, CellText, ReadField, RowText, RowTexts;
    RowTextParts(row);
    if |row| == 1 {
      FieldReadsBack(row[0], rest);
      assert RowText(row) + rest == Escape(row[0]) + rest;
      NoCells();
      assert row[1..] == [];
      assert RowTexts(row) == [CellText(row[0])];
    } else {
      var more := "," + RowText(row[1..]) + rest;
      FieldReadsBack(row[0], more);
      assert RowText(row) + rest == Escape(row[0]) + more;
      assert more[1..] == RowText(row[1..]) + rest;
      RecordReadsBack(row[1..], rest);
    }
  }

  lemma {:induction false} NoCells()
    ensures RowTexts([]) == []
  {
  }

  lemma {:induction false} FileTextParts(matrix: seq<seq<Value>>)
    requires matrix != []
    ensures FileText(matrix) == RowText(matrix[0]) + if |matrix| == 1 then "" else CRLF + FileText(matrix[1..])
    ensures Texts(matrix) == [RowTexts(matrix[0])] + Texts(matrix[1..])
  {
    hide RowText, RowTexts;
    var parts := seq(|matrix|, i requires 0 <= i < |matrix| => RowText(matrix[i]));
    assert parts[1..] == seq(|matrix[1..]|, i requires 0 <= i < |matrix[1..]| => RowText(matrix[1..][i]));
  }

  /** Every row's text starts with a quote, so nothing that follows it is empty. */
  lemma {:induction false} FileTextStarts(matrix: seq<seq<Value>>)
    requires matrix != [] && matrix[0] != []
    ensures FileText(matrix) != "" && FileText(matrix)[0] == QUOTE
  {
    hide RowText, FileText, CellText, Doubled;
    FileTextParts(matrix);
    RowTextParts(matrix[0]);
    assert Escape(matrix[0][0])[0] == QUOTE;
  }

  /** A matrix of non-empty rows reads back as the texts of its cells. */
  lemma {:induction false} FileReadsBack(matrix: seq<seq<Value>>)
    requires matrix != [] && forall i :: 0 <= i < |matrix| ==> matrix[i] != []
    ensures ReadFile(FileText(matrix)) == Some(Texts(matrix))
    decreases |matrix|
  {
    hide RowText, FileText, RowTexts, Texts, ReadRecord;
    FileTextParts(matrix);
    if |matrix| == 1 {
      RecordReadsBack(matrix[0], "");
      assert RowText(matrix[0]) + "" == RowText(matrix[0]);
      NoRows();
      assert matrix[1..] == [];
      assert Texts(matrix) == [RowTexts(matrix[0])];
    } else {
      var more := FileText(matrix[1..]);
      RecordReadsBack(matrix[0], CRLF + more);
      assert FileText(matrix) == RowText(matrix[0]) + (CRLF + more);
      FileTextStarts(matrix[1..]);
      assert (CRLF + more)[..2] == CRLF && (CRLF + more)[2..] == more;
      FileReadsBack(matrix[1..]);
    }
  }

  lemma {:induction false} NoRows()
    ensures Texts([]) == []
  {
  }

  /** The exported file reads back as the header and one record per result row, cell by cell. */
  lemma {:induction false} DownloadReadsBack(columns: seq<string>, rows: seq<ResultRow>)
    ensures ReadFile(FileText(Matrix(columns, rows))) == Some(Texts(Matrix(columns, rows)))
    ensures |Matrix(columns, rows)| == |rows| + 1
    ensures forall i :: 0 <= i <= |rows| ==> |Matrix(columns, rows)[i]| == |columns| + 4
  {
    hide FileText, ReadFile, Texts;
    FileReadsBack(Matrix(columns, rows));
  }

  /** The text of a field of the row under a column of that name; a missing field is empty. */
  function FieldText(r: ResultRow, column: string): string {
    if column in r.inputs then CellText(r.inputs[column]) else ""
  }

  predicate HeaderReads(cells: seq<string>, columns: seq<string>) {
    && |cells| == |columns| + 4 && cells[0] == "Source row" && cells[|columns| + 1..] == ["Flagged", "Result", "Error"]
    && forall j :: 0 <= j < |columns| ==> cells[j + 1] == CellText(Text(columns[j]))
  }

  predicate RowReads(cells: seq<string>, columns: seq<string>, r: ResultRow) {
    && |cells| == |columns| + 4 && cells[0] == r.number
    && (forall j :: 0 <= j < |columns| ==> cells[j + 1] == FieldText(r, columns[j]))
    && cells[|columns| + 1..] ==
       [if r.flagged then "true" else "false", CellText(Text(r.output)), CellText(Text(r.error))]
  }

  lemma {:induction false} HeaderTexts(columns: seq<string>)
    ensures HeaderReads(RowTexts(Header(columns)), columns)
  {
    var cells := RowTexts(Header(columns));
    assert cells[|columns| + 1..] == ["Flagged", "Result", "Error"];
  }

  lemma {:induction false} RowCellTexts(columns: seq<string>, r: ResultRow)
    ensures RowReads(RowTexts(ResultCells(columns, r)), columns, r)
  {
    var cells := RowTexts(ResultCells(columns, r));
    assert cells[|columns| + 1..] ==
      [if r.flagged then "true" else "false", CellText(Text(r.output)), CellText(Text(r.error))];
  }

  /**
   A reader of the exported file finds the column names in the first record and,
   in one record for each result in order, its number, each input under its
   column's name, whether it was flagged, its result and its error.
   */
  lemma {:induction false} DownloadCells(columns: seq<string>, rows: seq<ResultRow>)
    ensures var file := ReadFile(FileText(Matrix(columns, rows)));
      && file.Some? && |file.value| == |rows| + 1
      && HeaderReads(file.value[0], columns)
      && forall i :: 0 <= i < |rows| ==> RowReads(file.value[i + 1], columns, rows[i])
  {
    hide FileText, ReadFile, Header, ResultCells, HeaderReads, RowReads, RowTexts;
    DownloadReadsBack(columns, rows);
    HeaderTexts(columns);
    forall i | 0 <= i < |rows|
      ensures RowReads(Texts(Matrix(columns, rows))[i + 1], columns, rows[i])
    {
      RowCellTexts(columns, rows[i]);
    }
  }

  // ----- the apostrophe -----

  /**
   A cell's text differs from the value's own exactly for strings that start
   with one of the six characters, by one apostrophe in front; so no exported
   string starts with one of them, and other values are exported as they are.
   */
  lemma {:induction false} ApostropheExactly(v: Value)
    ensures CellText(v) != v.text <==> v.Text? && v.text != "" && v.text[0] in {'=', '+', '-', '@', '\t', '\r'}
    ensures CellText(v) != v.text ==> CellText(v)[0] == '\'' && CellText(v)[1..] == v.text
    ensures v.Text? ==> !LooksLikeFormula(CellText(v))
  {
    if v.Text? && LooksLikeFormula(v.text) {
      assert |CellText(v)| == |v.text| + 1;
    }
  }

  /** Two strings are exported alike only if they are equal, or one is the other behind an apostrophe it was given. */
  lemma {:induction false} SameExportIff(s: string, t: string)
    ensures Escape(Text(s)) == Escape(Text(t)) <==>
      s == t || (LooksLikeFormula(s) && t == "'" + s) || (LooksLikeFormula(t) && s == "'" + t)
  {
    hide ReadField, Escape;
    if Escape(Text(s)) == Escape(Text(t)) {
      FieldReadsBack(Text(s), "");
      FieldReadsBack(Text(t), "");
      ApostropheExactly(Text(s));
      ApostropheExactly(Text(t));
      if LooksLikeFormula(s) && LooksLikeFormula(t) {
        assert s == ("'" + s)[1..] && t == ("'" + t)[1..];
      }
    } else {
      SameCell(Text(s), Text(t));
      ApostropheExactly(Text("'" + s));
      ApostropheExactly(Text("'" + t));
    }
  }

  lemma {:induction false} SameCell(v: Value, w: Value)
    ensures CellText(v) == CellText(w) ==> Escape(v) == Escape(w)
  {
  }
}
