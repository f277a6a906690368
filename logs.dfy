/** The system log page of src/pages/Logs.tsx: search and level filtering,
    per-level counters, and the CSV text of the filtered entries. */
module Logs {
  import opened Wrappers
  import opened Text
  import opened LogData
  import opened Csv
  import Seqs

  /** The search half of the filter: the empty query matches everything;
      otherwise the lowercased query occurs in the lowercased message or in
      the lowercased details when there are any. */
  predicate MatchesSearch(log: LogEntry, query: string)
  {
    var q := Lower(query);
    query == "" || Contains(Lower(log.message), q)
      || (log.details.Some? && Contains(Lower(log.details.value), q))
  }

  /** The level half: `None` is the "all" choice. */
  predicate MatchesLevel(log: LogEntry, level: Option<Level>)
  {
    level.None? || log.level == level.value
  }

  /** `filteredLogs`: the entries matching both halves, in list order. */
  function FilterLogs(logs: seq<LogEntry>, query: string, level: Option<Level>): (r: seq<LogEntry>)
    ensures Seqs.IsSubsequence(r, logs)
    ensures forall i :: 0 <= i < |r| ==> MatchesSearch(r[i], query) && MatchesLevel(r[i], level)
    ensures forall i :: 0 <= i < |logs| && MatchesSearch(logs[i], query) && MatchesLevel(logs[i], level) ==> logs[i] in r
    ensures forall x :: multiset(r)[x] == if MatchesSearch(x, query) && MatchesLevel(x, level) then multiset(logs)[x] else 0
  {
    var keep := (l: LogEntry) => MatchesSearch(l, query) && MatchesLevel(l, level);
    Seqs.FilterIsSubsequence(logs, keep);
    Seqs.FilterMultiset(logs, keep);
    Seqs.Filter(logs, keep)
  }

  /** The empty query with level "all" shows every entry. */
  lemma NoFilterShowsAll(logs: seq<LogEntry>)
    ensures FilterLogs(logs, "", None) == logs
  {
    Seqs.FilterAll(logs, (l: LogEntry) => MatchesSearch(l, "") && MatchesLevel(l, None));
  }

  datatype Stats = Stats(total: nat, info: nat, warn: nat, error: nat)

  function CountLevel(logs: seq<LogEntry>, level: Level): nat
  {
    Seqs.Count(logs, (l: LogEntry) => l.level == level)
  }

  /** `stats` counts every entry in the total but only three levels by name. */
  function ComputeStats(logs: seq<LogEntry>): (s: Stats)
    ensures s.total == |logs|
    ensures s.info + s.warn + s.error + CountLevel(logs, Debug) == s.total
    ensures s.info + s.warn + s.error <= s.total
  {
    Seqs.CountPartition4(logs,
      (l: LogEntry) => l.level == Info, (l: LogEntry) => l.level == Warn,
      (l: LogEntry) => l.level == Error, (l: LogEntry) => l.level == Debug);
    Stats(|logs|, CountLevel(logs, Info), CountLevel(logs, Warn), CountLevel(logs, Error))
  }

  const Header: string := "Timestamp,Nível,Mensagem,Detalhes"

  /** One CSV line: timestamp and level bare, message and details quoted,
      missing details as `""`. */
  function LogLine(log: LogEntry): (r: string)
    ensures r == log.timestamp + "," + LevelName(log.level) + "," + Quote(log.message) + ","
      + Quote(if log.details.Some? then log.details.value else "")
  {
    var details := if log.details.Some? && log.details.value != "" then log.details.value else "";
    var cells := [log.timestamp, LevelName(log.level), Quote(log.message), Quote(details)];
    JoinFour(cells[0], cells[1], cells[2], cells[3]);
    Row(cells)
  }

  lemma JoinFour(a: string, b: string, c: string, d: string)
    ensures Join([a, b, c, d], ',') == a + "," + b + "," + c + "," + d
  {
    assert [a, b, c, d][1..] == [b, c, d];
    assert [b, c, d][1..] == [c, d];
    assert [c, d][1..] == [d];
    assert Join([c, d], ',') == c + "," + d;
    assert Join([b, c, d], ',') == b + "," + (c + "," + d);
    assert Join([a, b, c, d], ',') == a + "," + (b + "," + (c + "," + d));
  }

  /** The text of `exportLogs`: the header, then one line per filtered entry. */
  function LogsCsv(filtered: seq<LogEntry>): (r: string)
    ensures Header <= r
  {
    var rows := seq(|filtered|, i requires 0 <= i < |filtered| => LogLine(filtered[i]));
    JoinFirstIsPrefix([Header] + rows);
    Document(Header, rows)
  }

  lemma JoinFirstIsPrefix(parts: seq<string>)
    requires |parts| >= 1
    ensures parts[0] <= Join(parts, '\n')
  {
    if |parts| > 1 {
      assert Join(parts, '\n') == parts[0] + ([ '\n' ] + Join(parts[1..], '\n'));
    }
  }

  /** An entry none of whose texts holds a newline. */
  predicate SingleLine(log: LogEntry)
  {
    '\n' !in log.timestamp && '\n' !in log.message
      && (log.details.Some? ==> '\n' !in log.details.value)
  }

  /** With single-line entries the file has one line more than there are
      entries, the first being the header and the rest the entries in order. */
  lemma LogsCsvLines(filtered: seq<LogEntry>)
    requires forall i :: 0 <= i < |filtered| ==> SingleLine(filtered[i])
    ensures var lines := SplitOn(LogsCsv(filtered), '\n');
      |lines| == |filtered| + 1 && lines[0] == Header
      && forall i :: 0 <= i < |filtered| ==> lines[i + 1] == LogLine(filtered[i])
  {
    var rows := seq(|filtered|, i requires 0 <= i < |filtered| => LogLine(filtered[i]));
    assert '\n' !in Header;
    forall i | 0 <= i < |rows| ensures '\n' !in rows[i] {
      LogLineSingle(filtered[i]);
    }
    DocumentLines(Header, rows);
  }

  lemma LogLineSingle(log: LogEntry)
    requires SingleLine(log)
    ensures '\n' !in LogLine(log)
  {
    var level := LevelName(log.level);
    assert '\n' !in level by {
      match log.level
      case Info => assert level == "info";
      case Warn => assert level == "warn";
      case Error => assert level == "error";
      case Debug => assert level == "debug";
    }
    var details := if log.details.Some? then log.details.value else "";
    assert '\n' !in Quote(log.message) by {
      assert Quote(log.message) == "\"" + log.message + "\"";
    }
    assert '\n' !in Quote(details) by {
      assert Quote(details) == "\"" + details + "\"";
    }
  }
}
