/** The live executions page of src/pages/Execucoes.tsx: a two-second tick
    that advances the progress of running executions, and the counters. The
    two `Math.random()` readings of each execution are parameters. */
module Executions {
  import opened BotData
  import Seqs

  datatype ExecutionStatus = Running | Paused | Completed | Failed

  datatype ActiveExecution = ActiveExecution(
    id: string,
    bot: Bot,
    startedAt: string,
    progress: int,
    status: ExecutionStatus,
    recordsProcessed: nat,
    estimatedTimeLeft: string)

  /** The two readings of `Math.random()` one execution consumes in a tick. */
  datatype Draw = Draw(progressRandom: real, recordsRandom: real)

  predicate ValidDraw(d: Draw)
  {
    0.0 <= d.progressRandom < 1.0 && 0.0 <= d.recordsRandom < 1.0
  }

  /** `Math.round`: half-way values go up. */
  function Round(x: real): (r: int)
    ensures r as real <= x + 0.5 < r as real + 1.0
  {
    (x + 0.5).Floor
  }

  /** `Math.min(progress + random * 3, 100)`, before rounding. */
  function NewProgress(progress: int, d: Draw): (p: real)
    requires ValidDraw(d)
    ensures progress as real <= p <= 100.0 || (progress > 100 && p == 100.0)
    ensures p < progress as real + 3.0
  {
    var raw := progress as real + d.progressRandom * 3.0;
    if raw < 100.0 then raw else 100.0
  }

  /** The per-execution update of one tick: a running execution below 100
      moves on; any other execution is left as it is. */
  function TickOne(e: ActiveExecution, d: Draw): (r: ActiveExecution)
    requires ValidDraw(d)
    ensures !(e.status == Running && e.progress < 100) ==> r == e
    ensures r.id == e.id && r.bot == e.bot && r.startedAt == e.startedAt
      && r.estimatedTimeLeft == e.estimatedTimeLeft
    ensures e.progress <= 100 ==> e.progress <= r.progress <= 100
    ensures r.recordsProcessed == e.recordsProcessed || r.recordsProcessed == e.recordsProcessed + 1
    ensures r.status != e.status ==> e.status == Running && r.status == Completed
    ensures e.status == Running && e.progress < 100 ==>
      (r.status == Completed <==> NewProgress(e.progress, d) >= 100.0)
  {
    if e.status == Running && e.progress < 100 then
      var newProgress := NewProgress(e.progress, d);
      var extra := (d.recordsRandom * 2.0).Floor;
      e.(progress := Round(newProgress),
         recordsProcessed := e.recordsProcessed + extra,
         status := if newProgress >= 100.0 then Completed else Running)
    else e
  }

  /** A tick: every execution updated in place; length, ids and order are kept. */
  function Tick(executions: seq<ActiveExecution>, draws: seq<Draw>): (r: seq<ActiveExecution>)
    requires |draws| == |executions|
    requires forall i :: 0 <= i < |draws| ==> ValidDraw(draws[i])
    ensures |r| == |executions|
    ensures forall i :: 0 <= i < |r| ==> r[i].id == executions[i].id
    ensures forall i :: 0 <= i < |r| ==> r[i] == TickOne(executions[i], draws[i])
  {
    seq(|executions|, i requires 0 <= i < |executions| => TickOne(executions[i], draws[i]))
  }

  /** A running execution at 99 whose draw lies in [1/6, 1/3) is
      stored at 100 but stays running, and from then on no tick changes it:
      progress 100 does not imply completion. */
  lemma RoundedToHundredStaysRunning(e: ActiveExecution, d: Draw)
    requires e.status == Running && e.progress == 99
    requires ValidDraw(d) && 1.0 / 6.0 <= d.progressRandom < 1.0 / 3.0
    ensures var next := TickOne(e, d);
      next.progress == 100 && next.status == Running
      && forall d' :: ValidDraw(d') ==> TickOne(next, d') == next
  {
    var p := NewProgress(99, d);
    assert 99.5 <= p < 100.0;
    assert Round(p) == 100;
  }

  datatype Stats = Stats(running: nat, completed: nat, failed: nat, total: nat)

  function CountStatus(executions: seq<ActiveExecution>, s: ExecutionStatus): nat
  {
    Seqs.Count(executions, (e: ActiveExecution) => e.status == s)
  }

  /** `stats`: paused executions are in the total only. */
  function ComputeStats(executions: seq<ActiveExecution>): (s: Stats)
    ensures s.total == |executions|
    ensures s.running + s.completed + s.failed + CountStatus(executions, Paused) == s.total
    ensures s.running + s.completed + s.failed <= s.total
  {
    Seqs.CountPartition4(executions,
      (e: ActiveExecution) => e.status == Running, (e: ActiveExecution) => e.status == Completed,
      (e: ActiveExecution) => e.status == Failed, (e: ActiveExecution) => e.status == Paused);
    Stats(CountStatus(executions, Running), CountStatus(executions, Completed),
      CountStatus(executions, Failed), |executions|)
  }

  class ExecutionsPage {
    var executions: seq<ActiveExecution>

    /** Every stored progress lies between 0 and 100. */
    ghost predicate Valid()
      reads this
    {
      forall i :: 0 <= i < |executions| ==> 0 <= executions[i].progress <= 100
    }

    constructor (initial: seq<ActiveExecution>)
      requires forall i :: 0 <= i < |initial| ==> 0 <= initial[i].progress <= 100
      ensures Valid() && executions == initial
    {
      executions := initial;
    }

    /** One firing of the interval. Progress never decreases and never passes
        100, and the processed-record counters never decrease. */
    method ProgressTick(draws: seq<Draw>)
      requires Valid()
      requires |draws| == |executions|
      requires forall i :: 0 <= i < |draws| ==> ValidDraw(draws[i])
      modifies this`executions
      ensures Valid()
      ensures executions == Tick(old(executions), draws)
      ensures forall i :: 0 <= i < |executions| ==>
        old(executions)[i].progress <= executions[i].progress
        && old(executions)[i].recordsProcessed <= executions[i].recordsProcessed
    {
      executions := Tick(executions, draws);
    }
  }
}
