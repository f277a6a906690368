/** The live console of src/components/bot-detail/ConsoleTab.tsx: a session
    that connects (or replays the last run), shows an append-only buffer of
    lines, echoes the operator's input and ends. The connection delay is a
    separate step, `TimerFires`. */
module Console {
  import opened Wrappers
  import opened Text

  datatype ConsoleStatus = Unavailable | Disconnected | Connecting | Interactive | Replay | Ended

  datatype ConsoleMode = InteractiveMode | ReplayMode

  datatype LineType = Stdout | Stderr | Input | System

  datatype LogLine = LogLine(id: string, timestamp: string, content: string, kind: LineType)

  /** The fixed lines a connection or a replay loads. */
  function MockLines(): (r: seq<LogLine>)
    ensures |r| == 8
  {
    [ LogLine("1", "14:32:01", "[INFO] Iniciando processamento de faturas...", Stdout),
      LogLine("2", "14:32:02", "[INFO] Conectando ao ERP...", Stdout),
      LogLine("3", "14:32:03", "[INFO] Autenticação bem-sucedida", Stdout),
      LogLine("4", "14:32:05", "[INFO] Buscando faturas pendentes...", Stdout),
      LogLine("5", "14:32:08", "[INFO] 47 faturas encontradas", Stdout),
      LogLine("6", "14:32:10", "[WARN] Fatura #1234 com data retroativa", Stderr),
      LogLine("7", "14:32:12", "[INFO] Processando fatura 1/47...", Stdout),
      LogLine("8", "14:32:15", "[INFO] Processando fatura 2/47...", Stdout) ]
  }

  /** One line of the copied or downloaded text. */
  function FormatLine(l: LogLine): (r: string)
    ensures |r| == |l.timestamp| + |l.content| + 3
    ensures r[0] == '[' && r[|l.timestamp| + 1..|l.timestamp| + 3] == "] "
    ensures r[1..|l.timestamp| + 1] == l.timestamp && r[|l.timestamp| + 3..] == l.content
  {
    "[" + l.timestamp + "] " + l.content
  }

  function FormatLines(logs: seq<LogLine>): (r: seq<string>)
    ensures |r| == |logs|
    ensures forall i :: 0 <= i < |logs| ==> r[i] == FormatLine(logs[i])
  {
    seq(|logs|, i requires 0 <= i < |logs| => FormatLine(logs[i]))
  }

  /** The text `handleCopy` and `handleDownload` produce: the formatted lines
      joined by newlines, with no trailing newline. */
  function ConsoleText(logs: seq<LogLine>): (r: string)
    ensures r == "" <==> logs == []
    ensures logs != [] ==> r[0] == '['
  {
    var lines := FormatLines(logs);
    assert logs != [] ==> Join(lines, '\n')[0] == '[' by {
      if logs != [] {
        JoinHead(lines, '\n');
        assert |lines[0]| >= 3 && lines[0][0] == '[';
      }
    }
    Join(lines, '\n')
  }

  lemma {:induction false} JoinHead(parts: seq<string>, sep: char)
    requires |parts| >= 1
    ensures |Join(parts, sep)| >= |parts[0]|
    ensures Join(parts, sep)[..|parts[0]|] == parts[0]
  {
    if |parts| > 1 {
      assert Join(parts, sep) == parts[0] + ([sep] + Join(parts[1..], sep));
    }
  }

  /** A line that carries no newline of its own. */
  predicate SingleLine(l: LogLine)
  {
    '\n' !in l.timestamp && '\n' !in l.content
  }

  /** The exported text splits back into exactly one formatted line per entry,
      as long as no entry carries a newline of its own. */
  lemma ConsoleTextLines(logs: seq<LogLine>)
    requires |logs| >= 1
    requires forall i :: 0 <= i < |logs| ==> SingleLine(logs[i])
    ensures SplitOn(ConsoleText(logs), '\n') == FormatLines(logs)
    ensures |SplitOn(ConsoleText(logs), '\n')| == |logs|
  {
    var lines := FormatLines(logs);
    forall i | 0 <= i < |lines| ensures '\n' !in lines[i] {
      assert lines[i] == "[" + logs[i].timestamp + "] " + logs[i].content;
    }
    SplitOnJoin(lines, '\n');
  }

  class ConsoleTab {
    var status: ConsoleStatus
    var mode: ConsoleMode
    var logs: seq<LogLine>
    var inputValue: string
    /** The connection or replay timeout that has been scheduled and not yet fired. */
    var pending: Option<ConsoleMode>
    const runtimeAvailable: bool

    /** A timeout is pending exactly while connecting; the buffer is empty
        until the first connection and holds the fixed lines during a replay. */
    ghost predicate Valid()
      reads this
    {
      && status != Unavailable
      && (status == Connecting <==> pending.Some?)
      && (status == Disconnected || status == Connecting ==> logs == [])
      && (status == Interactive ==> mode == InteractiveMode)
      && (status == Replay ==> mode == ReplayMode && logs == MockLines())
    }

    constructor (runtimeAvailable: bool)
      ensures Valid()
      ensures status == Disconnected && mode == InteractiveMode && logs == [] && inputValue == ""
      ensures pending == None && this.runtimeAvailable == runtimeAvailable
    {
      status := Disconnected;
      mode := InteractiveMode;
      logs := [];
      inputValue := "";
      pending := None;
      this.runtimeAvailable := runtimeAvailable;
    }

    /** `handleConnect`, offered while disconnected: nothing happens when the
        runtime is unavailable, otherwise the session starts connecting. */
    method Connect()
      requires Valid() && status == Disconnected
      modifies this
      ensures Valid()
      ensures !runtimeAvailable ==> unchanged(this)
      ensures runtimeAvailable ==> (status == Connecting && pending == Some(InteractiveMode)
        && logs == old(logs) && mode == old(mode) && inputValue == old(inputValue))
    {
      if !runtimeAvailable {
        return;
      }
      status := Connecting;
      pending := Some(InteractiveMode);
    }

    /** `handleReplay`, offered while disconnected whether or not the runtime is available. */
    method StartReplay()
      requires Valid() && status == Disconnected
      modifies this
      ensures Valid()
      ensures status == Connecting && pending == Some(ReplayMode)
      ensures logs == old(logs) && mode == old(mode) && inputValue == old(inputValue)
    {
      status := Connecting;
      pending := Some(ReplayMode);
    }

    /** The scheduled timeout: the session becomes interactive or a replay,
        with the matching mode, and the buffer is replaced by the fixed lines. */
    method TimerFires()
      requires Valid() && pending.Some?
      modifies this
      ensures Valid()
      ensures pending == None && logs == MockLines() && mode == old(pending).value
      ensures status == (if old(pending).value == InteractiveMode then Interactive else Replay)
      ensures inputValue == old(inputValue)
    {
      mode := pending.value;
      status := if pending.value == InteractiveMode then Interactive else Replay;
      logs := MockLines();
      pending := None;
    }

    /** `handleDisconnect` ("Finalizar"): the session ends and the buffer stays. */
    method Disconnect()
      requires Valid() && status == Interactive
      modifies this`status
      ensures Valid() && status == Ended
    {
      status := Ended;
    }

    /** Typing into the input box, shown only while interactive. */
    method SetInput(value: string)
      requires Valid() && status == Interactive
      modifies this`inputValue
      ensures Valid() && inputValue == value
    {
      inputValue := value;
    }

    /** `handleSendInput`: whitespace-only input is ignored; otherwise one
        `input` line echoing the untrimmed text after `> ` is appended and the
        box is cleared. `id` and `timestamp` stand for the clock readings. */
    method SendInput(id: string, timestamp: string)
      requires Valid() && status == Interactive
      modifies this`logs, this`inputValue
      ensures Valid()
      ensures IsBlank(old(inputValue)) ==> logs == old(logs) && inputValue == old(inputValue)
      ensures !IsBlank(old(inputValue)) ==>
        logs == old(logs) + [LogLine(id, timestamp, "> " + old(inputValue), Input)] && inputValue == ""
    {
      TrimEmptyIffBlank(inputValue);
      if Trim(inputValue) == "" {
        return;
      }
      var line := LogLine(id, timestamp, "> " + inputValue, Input);
      logs := logs + [line];
      inputValue := "";
    }

    /** `handleClear` ("Limpar"), shown only while interactive. */
    method Clear()
      requires Valid() && status == Interactive
      modifies this`logs
      ensures Valid() && logs == []
    {
      logs := [];
    }

    /** The text the copy and download buttons export. */
    function ExportText(): (r: string)
      reads this
      ensures r == "" <==> logs == []
    {
      ConsoleText(logs)
    }
  }
}
