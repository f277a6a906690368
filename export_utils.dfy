/** `exportToCSV` of src/lib/exportUtils.ts: the execution history as CSV
    text and the name of the downloaded file. */
module ExportUtils {
  import opened Wrappers
  import opened Text
  import opened LogData
  import opened Csv

  const Headers: seq<string> := ["ID", "Data/Hora", "Status", "Duração", "Registros Processados", "Erro"]

  const DefaultFilename: string := "historico"

  /** `row.registrosProcessados || ""`: a missing count and a count of zero
      are both blank, since zero is falsy. */
  function RecordsCell(n: Option<nat>): (r: string)
    ensures r == "" <==> n.None? || n == Some(0)
    ensures n.Some? && n.value > 0 ==>
      (forall i :: 0 <= i < |r| ==> IsDigit(r[i])) && ParseNat(r) == n.value
  {
    if n.None? || n.value == 0 then ""
    else
      ParseNatToString(n.value);
      NatToString(n.value)
  }

  /** `row.erro || ""`. */
  function ErrorCell(e: Option<string>): (r: string)
    ensures e.None? ==> r == ""
    ensures e.Some? ==> r == e.value
  {
    if e.None? || e.value == "" then "" else e.value
  }

  /** The six raw cells of a row, before quoting. */
  function Cells(row: ExecutionHistory): (r: seq<string>)
    ensures |r| == |Headers|
  {
    [row.id, row.dataHora, HistoryStatusName(row.status), row.duracao,
     RecordsCell(row.registrosProcessados), ErrorCell(row.erro)]
  }

  /** A data line: every cell quoted, joined by commas. */
  function DataLine(row: ExecutionHistory): (r: string)
    ensures |r| >= 2 && r[0] == '"' && r[|r| - 1] == '"'
  {
    var quoted := QuotedCells(row);
    JoinEnds(quoted);
    Row(quoted)
  }

  lemma {:induction false} JoinEnds(parts: seq<string>)
    requires |parts| >= 1
    requires forall i :: 0 <= i < |parts| ==> |parts[i]| >= 2 && parts[i][0] == '"' && parts[i][|parts[i]| - 1] == '"'
    ensures var r := Join(parts, ','); |r| >= 2 && r[0] == '"' && r[|r| - 1] == '"'
  {
    if |parts| > 1 {
      JoinEnds(parts[1..]);
      var rest := Join(parts[1..], ',');
      assert Join(parts, ',') == parts[0] + [','] + rest;
    }
  }

  /** A row none of whose raw cells holds a comma. */
  predicate CommaFreeRow(row: ExecutionHistory)
  {
    NoSeparator(Cells(row), ',')
  }

  /** A row none of whose raw cells holds a newline. */
  predicate SingleLineRow(row: ExecutionHistory)
  {
    NoSeparator(Cells(row), '\n')
  }

  /** The quoted cells a data line joins. */
  function QuotedCells(row: ExecutionHistory): (r: seq<string>)
    ensures |r| == |Headers|
    ensures forall i :: 0 <= i < |r| ==> r[i] == Quote(Cells(row)[i])
  {
    var cells := Cells(row);
    seq(|cells|, i requires 0 <= i < |cells| => Quote(cells[i]))
  }

  /** Quoting adds no character other than the quote itself. */
  lemma QuotedCellsHold(row: ExecutionHistory, c: char)
    requires c != '"'
    ensures NoSeparator(QuotedCells(row), c) <==> NoSeparator(Cells(row), c)
  {
    var cells := Cells(row);
    var quoted := QuotedCells(row);
    forall i | 0 <= i < |quoted| ensures c in quoted[i] <==> c in cells[i] {
      assert quoted[i] == "\"" + cells[i] + "\"";
    }
  }

  /** The line has exactly six comma-separated pieces iff no cell holds a
      comma, and then each piece is the quoted raw value, in header order. A
      comma inside a cell splits it into more pieces. */
  lemma DataLineCells(row: ExecutionHistory)
    ensures var pieces := SplitOn(DataLine(row), ',');
      (|pieces| == |Headers| <==> CommaFreeRow(row))
      && (!CommaFreeRow(row) ==> |pieces| > |Headers|)
      && (CommaFreeRow(row) ==> forall i :: 0 <= i < |Headers| ==> pieces[i] == Quote(Cells(row)[i]))
  {
    var quoted := QuotedCells(row);
    assert DataLine(row) == Row(quoted);
    QuotedCellsHold(row, ',');
    SplitOnJoinSize(quoted, ',');
    if CommaFreeRow(row) {
      RowCells(quoted);
    }
  }

  /** The data lines, one per row, in input order. */
  function DataLines(data: seq<ExecutionHistory>): (r: seq<string>)
    ensures |r| == |data|
    ensures forall i :: 0 <= i < |data| ==> r[i] == DataLine(data[i])
  {
    seq(|data|, i requires 0 <= i < |data| => DataLine(data[i]))
  }

  /** The CSV text `exportToCSV` builds. */
  function HistoryCsv(data: seq<ExecutionHistory>): (r: string)
    ensures |r| >= |Row(Headers)|
  {
    Document(Row(Headers), DataLines(data))
  }

  predicate AllSingleLine(data: seq<ExecutionHistory>)
  {
    forall i :: 0 <= i < |data| ==> SingleLineRow(data[i])
  }

  lemma HeaderSingleLine()
    ensures '\n' !in Row(Headers)
  {
    forall i | 0 <= i < |Headers| ensures '\n' !in Headers[i] {
    }
    JoinHolds(Headers, ',', '\n');
  }

  /** The header and the data lines are free of newlines iff every row is. */
  lemma LinesFreeOfNewlines(data: seq<ExecutionHistory>)
    ensures NoSeparator([Row(Headers)] + DataLines(data), '\n') <==> AllSingleLine(data)
  {
    HeaderSingleLine();
    DataLinesFreeOfNewlines(data);
    NoSeparatorCons(Row(Headers), DataLines(data), '\n');
  }

  lemma DataLinesFreeOfNewlines(data: seq<ExecutionHistory>)
    ensures NoSeparator(DataLines(data), '\n') <==> AllSingleLine(data)
  {
    var rows := DataLines(data);
    forall i | 0 <= i < |data| ensures '\n' in rows[i] <==> !SingleLineRow(data[i]) {
      NewlineInLine(data[i]);
    }
  }

  lemma NoSeparatorCons(head: string, tail: seq<string>, c: char)
    ensures NoSeparator([head] + tail, c) <==> c !in head && NoSeparator(tail, c)
  {
    var all := [head] + tail;
    if c !in head && NoSeparator(tail, c) {
      forall i | 0 <= i < |all| ensures c !in all[i] {
        if i > 0 { assert all[i] == tail[i - 1]; }
      }
    }
    if NoSeparator(all, c) {
      assert all[0] == head;
      forall i | 0 <= i < |tail| ensures c !in tail[i] {
        assert tail[i] == all[i + 1];
      }
    }
  }

  /** The text has one line per row after the header iff no cell holds a
      newline, and then the lines are the header and the rows in input order. */
  lemma HistoryCsvLines(data: seq<ExecutionHistory>)
    ensures var lines := SplitOn(HistoryCsv(data), '\n');
      (|lines| == |data| + 1 <==> AllSingleLine(data))
      && (AllSingleLine(data) ==>
        lines[0] == Row(Headers) && forall i :: 0 <= i < |data| ==> lines[i + 1] == DataLine(data[i]))
  {
    LinesFreeOfNewlines(data);
    SplitOnJoinSize([Row(Headers)] + DataLines(data), '\n');
    if AllSingleLine(data) {
      DocumentLines(Row(Headers), DataLines(data));
    }
  }

  /** A data line spans one line iff no cell of its row holds a newline. */
  lemma NewlineInLine(row: ExecutionHistory)
    ensures '\n' in DataLine(row) <==> !SingleLineRow(row)
  {
    var quoted := QuotedCells(row);
    assert DataLine(row) == Row(quoted);
    QuotedCellsHold(row, '\n');
    JoinHolds(quoted, ',', '\n');
  }

  /** A character other than the separator occurs in the joined text iff it
      occurs in one of the pieces. */
  lemma {:induction false} JoinHolds(parts: seq<string>, sep: char, c: char)
    requires sep != c
    ensures c in Join(parts, sep) <==> !NoSeparator(parts, c)
  {
    if |parts| > 1 {
      JoinHolds(parts[1..], sep, c);
      assert Join(parts, sep) == parts[0] + [sep] + Join(parts[1..], sep);
      assert NoSeparator(parts, c) <==> c !in parts[0] && NoSeparator(parts[1..], c) by {
        if c !in parts[0] && NoSeparator(parts[1..], c) {
          forall i | 0 <= i < |parts| ensures c !in parts[i] {
            if i > 0 { assert parts[i] == parts[1..][i - 1]; }
          }
        }
      }
    }
  }

  /** The download name: the file name (`historico` when none is given),
      an underscore, the date part of the ISO timestamp and `.csv`. */
  function DownloadName(filename: Option<string>, isoNow: string): (r: string)
    ensures filename.None? ==> "historico_" <= r
    ensures filename.Some? ==> filename.value + "_" <= r
    ensures |r| >= 4 && r[|r| - 4..] == ".csv"
  {
    var name := if filename.Some? then filename.value else DefaultFilename;
    name + "_" + SplitOn(isoNow, 'T')[0] + ".csv"
  }

  /** For an ISO timestamp `date + "T" + time`, the name carries exactly the date part. */
  lemma DownloadNameDate(filename: Option<string>, date: string, time: string)
    requires 'T' !in date
    ensures DownloadName(filename, date + "T" + time)
      == (if filename.Some? then filename.value else DefaultFilename) + "_" + date + ".csv"
  {
    SplitOnPiece(date, time, 'T');
  }
}
