/** The bot's log tab in src/components/bot-detail/LogsTab.tsx: the same
    search and level filter as the log page, with a level toggle and a
    clear-filters action. */
module LogsTab {
  import opened Wrappers
  import opened Text
  import opened LogData
  import Logs
  import Seqs

  /** The tab's search test, which has no shortcut for the empty query. */
  predicate TabMatchesSearch(log: LogEntry, search: string)
  {
    var q := Lower(search);
    Contains(Lower(log.message), q) || (log.details.Some? && Contains(Lower(log.details.value), q))
  }

  /** The shortcut is not needed: every text includes the empty string, so
      the tab and the log page accept the same entries. */
  lemma SameSearchAsLogsPage(log: LogEntry, search: string)
    ensures TabMatchesSearch(log, search) <==> Logs.MatchesSearch(log, search)
  {
    if search == "" {
      assert Lower(search) == "";
      ContainsEmpty(Lower(log.message));
    }
  }

  /** The tab's filter callback; a null level passes every entry. */
  predicate TabKeeps(log: LogEntry, search: string, level: Option<Level>)
  {
    TabMatchesSearch(log, search) && (level.None? || log.level == level.value)
  }

  /** `filteredLogs`: the entries the callback keeps, in list order. */
  function FilterTab(logs: seq<LogEntry>, search: string, level: Option<Level>): (r: seq<LogEntry>)
    ensures Seqs.IsSubsequence(r, logs)
    ensures forall i :: 0 <= i < |r| ==> TabKeeps(r[i], search, level)
    ensures forall i :: 0 <= i < |logs| && TabKeeps(logs[i], search, level) ==> logs[i] in r
    ensures |r| <= |logs|
    ensures forall x :: multiset(r)[x] == if TabKeeps(x, search, level) then multiset(logs)[x] else 0
  {
    var keep := (l: LogEntry) => TabKeeps(l, search, level);
    Seqs.FilterIsSubsequence(logs, keep);
    Seqs.FilterMultiset(logs, keep);
    Seqs.Filter(logs, keep)
  }

  /** With the filters cleared every entry is shown. */
  lemma ClearedShowsAll(logs: seq<LogEntry>)
    ensures FilterTab(logs, "", None) == logs
  {
    forall log | log in logs
      ensures TabKeeps(log, "", None)
    {
      SameSearchAsLogsPage(log, "");
    }
    Seqs.FilterAll(logs, (l: LogEntry) => TabKeeps(l, "", None));
  }

  /** Toggling a level twice from no filter comes back to no filter. */
  lemma ToggleTwiceFromNone(l: Level)
    ensures Toggle(Toggle(None, l), l) == None
  {
  }

  class LogsTabState {
    var search: string
    var levelFilter: Option<Level>
    const logs: seq<LogEntry>

    constructor (logs: seq<LogEntry>)
      ensures search == "" && levelFilter == None && this.logs == logs
    {
      search := "";
      levelFilter := None;
      this.logs := logs;
    }

    function Filtered(): seq<LogEntry>
      reads this
    {
      FilterTab(logs, search, levelFilter)
    }

    /** The "Mostrando X de Y" counts: X never exceeds Y. */
    function Showing(): (r: (nat, nat))
      reads this
      ensures r.0 <= r.1 && r.1 == |logs|
    {
      (|Filtered()|, |logs|)
    }

    method SetSearch(value: string)
      modifies this`search
      ensures search == value
    {
      search := value;
    }

    method ToggleLevelFilter(l: Level)
      modifies this`levelFilter
      ensures levelFilter == Toggle(old(levelFilter), l)
    {
      levelFilter := Toggle(levelFilter, l);
    }

    /** "Limpar filtros": afterwards every entry is shown. */
    method ClearFilters()
      modifies this`search, this`levelFilter
      ensures search == "" && levelFilter == None
      ensures Filtered() == logs
    {
      search := "";
      levelFilter := None;
      ClearedShowsAll(logs);
    }
  }
}
