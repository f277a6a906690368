/** The hand-rolled CSV text both exports build: cells joined by commas,
    lines joined by newlines, and some cells wrapped in double quotes. A
    quote inside a cell is copied as it is; section 2 of RFC 4180 would
    double it. */
module Csv {
  import opened Text

  /** `"${s}"`: the text between two double quotes, unescaped. */
  function Quote(s: string): (r: string)
    ensures |r| == |s| + 2
    ensures r[0] == '"' && r[|r| - 1] == '"' && r[1..|r| - 1] == s
  {
    "\"" + s + "\""
  }

  /** A line: the cells joined by commas. */
  function Row(cells: seq<string>): string
  {
    Join(cells, ',')
  }

  /** The file: the header line, then one line per row, joined by newlines
      with no trailing newline. */
  function Document(header: string, rows: seq<string>): (r: string)
    ensures |r| >= |header|
  {
    var lines := [header] + rows;
    JoinFirstLine(lines, '\n');
    Join(lines, '\n')
  }

  lemma JoinFirstLine(parts: seq<string>, sep: char)
    requires |parts| >= 1
    ensures |Join(parts, sep)| >= |parts[0]|
  {
    if |parts| > 1 {
      assert Join(parts, sep) == parts[0] + [sep] + Join(parts[1..], sep);
    }
  }

  /** The file splits back into the header and the rows when no line holds a
      newline, so it has exactly one line more than there are rows. */
  lemma DocumentLines(header: string, rows: seq<string>)
    requires '\n' !in header
    requires NoSeparator(rows, '\n')
    ensures SplitOn(Document(header, rows), '\n') == [header] + rows
    ensures |SplitOn(Document(header, rows), '\n')| == |rows| + 1
  {
    var lines := [header] + rows;
    assert forall i :: 1 <= i < |lines| ==> lines[i] == rows[i - 1];
    SplitOnJoin(lines, '\n');
  }

  /** A line splits back into its cells when no cell holds a comma. */
  lemma RowCells(cells: seq<string>)
    requires |cells| >= 1
    requires NoSeparator(cells, ',')
    ensures SplitOn(Row(cells), ',') == cells
  {
    SplitOnJoin(cells, ',');
  }
}
