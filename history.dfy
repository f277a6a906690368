/** The counters of src/components/bot-detail/HistoricoTab.tsx: executions
    by status and the success rate in whole percent. */
module History {
  import opened LogData
  import Seqs

  datatype Stats = Stats(total: nat, sucesso: nat, falha: nat, cancelado: nat)

  function CountStatus(history: seq<ExecutionHistory>, s: HistoryStatus): nat
  {
    Seqs.Count(history, (h: ExecutionHistory) => h.status == s)
  }

  predicate AllWithStatus(history: seq<ExecutionHistory>, st: HistoryStatus)
  {
    forall i :: 0 <= i < |history| ==> history[i].status == st
  }

  predicate NoneWithStatus(history: seq<ExecutionHistory>, st: HistoryStatus)
  {
    forall i :: 0 <= i < |history| ==> history[i].status != st
  }

  /** A status every execution has counts them all; one none has counts zero. */
  lemma CountStatusExtremes(history: seq<ExecutionHistory>, st: HistoryStatus)
    ensures AllWithStatus(history, st) ==> CountStatus(history, st) == |history|
    ensures NoneWithStatus(history, st) ==> CountStatus(history, st) == 0
  {
    var p := (h: ExecutionHistory) => h.status == st;
    if AllWithStatus(history, st) {
      Seqs.CountAll(history, p);
    }
    if NoneWithStatus(history, st) {
      Seqs.CountNone(history, p);
    }
  }

  /** `stats`: since every execution has exactly one of the three statuses,
      the three counters add up to the total. */
  function ComputeStats(history: seq<ExecutionHistory>): (s: Stats)
    ensures s.total == |history|
    ensures s.sucesso + s.falha + s.cancelado == s.total
    ensures AllWithStatus(history, Sucesso) ==> s.sucesso == s.total
    ensures NoneWithStatus(history, Sucesso) ==> s.sucesso == 0
    ensures AllWithStatus(history, Falha) ==> s.falha == s.total
    ensures NoneWithStatus(history, Falha) ==> s.falha == 0
    ensures AllWithStatus(history, Cancelado) ==> s.cancelado == s.total
    ensures NoneWithStatus(history, Cancelado) ==> s.cancelado == 0
  {
    CountStatusExtremes(history, Sucesso);
    CountStatusExtremes(history, Falha);
    CountStatusExtremes(history, Cancelado);
    Seqs.CountPartition3(history,
      (h: ExecutionHistory) => h.status == Sucesso,
      (h: ExecutionHistory) => h.status == Falha,
      (h: ExecutionHistory) => h.status == Cancelado);
    Stats(|history|, CountStatus(history, Sucesso), CountStatus(history, Falha), CountStatus(history, Cancelado))
  }

  /** `taxaSucesso`: `100 * sucesso / total` rounded half up, 0 for an empty
      history. The result is the whole percentage nearest to the exact rate. */
  function SuccessRate(sucesso: nat, total: nat): (r: nat)
    requires sucesso <= total
    ensures total == 0 ==> r == 0
    ensures r <= 100
    ensures total > 0 ==> 2 * total * r <= 200 * sucesso + total < 2 * total * (r + 1)
  {
    if total > 0 then
      RateBounds(sucesso, total);
      (200 * sucesso + total) / (2 * total)
    else 0
  }

  lemma RateBounds(sucesso: nat, total: nat)
    requires sucesso <= total && total > 0
    ensures var r := (200 * sucesso + total) / (2 * total);
      0 <= r <= 100 && 2 * total * r <= 200 * sucesso + total < 2 * total * (r + 1)
  {
    var a, b := 200 * sucesso + total, 2 * total;
    var q, m := a / b, a % b;
    assert a == q * b + m && 0 <= m < b;
    assert b * (q + 1) == q * b + b;
    if q > 100 {
      MulLe(101, q, b);
      assert false;
    }
    if q < 0 {
      MulLe(q + 1, 0, b);
      assert false;
    }
  }

  lemma MulLe(x: int, y: int, b: int)
    requires x <= y && b >= 0
    ensures x * b <= y * b
  {
    assert y * b - x * b == (y - x) * b;
  }

  /** The rate is 100 when every execution succeeded, and 0 when none did. */
  lemma SuccessRateExtremes(sucesso: nat, total: nat)
    requires sucesso <= total && total > 0
    ensures sucesso == total ==> SuccessRate(sucesso, total) == 100
    ensures sucesso == 0 ==> SuccessRate(sucesso, total) == 0
  {
    if sucesso == total {
      DivUnique(200 * sucesso + total, 2 * total, 100, total);
    }
    if sucesso == 0 {
      DivUnique(200 * sucesso + total, 2 * total, 0, total);
    }
  }

  lemma DivUnique(a: int, b: int, q: int, rem: int)
    requires b > 0 && 0 <= rem < b && a == q * b + rem
    ensures a / b == q
  {
    var q', r' := a / b, a % b;
    assert (q - q') * b == r' - rem;
    if q > q' {
      MulAtLeast(q - q', b);
    } else if q < q' {
      MulAtLeast(q' - q, b);
    }
  }

  lemma {:induction false} MulAtLeast(k: int, b: int)
    requires k >= 1 && b > 0
    ensures k * b >= b
  {
    if k > 1 {
      MulAtLeast(k - 1, b);
      assert k * b == (k - 1) * b + b;
    }
  }

  /** The rate of a history, from its own counters. */
  function HistoryRate(history: seq<ExecutionHistory>): (r: nat)
    ensures r <= 100
    ensures history == [] ==> r == 0
  {
    var s := ComputeStats(history);
    SuccessRate(s.sucesso, s.total)
  }

  /** A history in which every execution succeeded shows 100%, and one in
      which none did shows 0%. */
  lemma HistoryRateExtremes(history: seq<ExecutionHistory>)
    requires history != []
    ensures AllWithStatus(history, Sucesso) ==> HistoryRate(history) == 100
    ensures NoneWithStatus(history, Sucesso) ==> HistoryRate(history) == 0
  {
    var s := ComputeStats(history);
    SuccessRateExtremes(s.sucesso, s.total);
  }
}
