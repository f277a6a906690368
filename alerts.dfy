/** The alerts page of src/pages/Alertas.tsx: a list of alerts filtered by
    type and read status, three counters, and the mark-read and delete
    handlers. */
module Alerts {
  import opened Wrappers
  import opened AlertData
  import opened Text
  import Seqs

  /** The type select: `'todos'` or one alert type. */
  datatype TypeFilter = AllTypes | OnlyType(tipo: AlertType)

  /** The status select: `'todos'`, `'nao-lidas'` or `'lidas'`. */
  datatype ReadFilter = AllAlerts | UnreadOnly | ReadOnly

  /** The filter callback, written as its chain of early rejections. */
  function KeepAlert(tf: TypeFilter, rf: ReadFilter, a: Alert): (keep: bool)
    ensures keep <==> (tf == AllTypes || tf.tipo == a.tipo)
                      && (rf == UnreadOnly ==> !a.lida)
                      && (rf == ReadOnly ==> a.lida)
  {
    if tf.OnlyType? && a.tipo != tf.tipo then false
    else if rf == UnreadOnly && a.lida then false
    else if rf == ReadOnly && !a.lida then false
    else true
  }

  /** `filteredAlerts`: the admitted alerts, in list order. */
  function FilterAlerts(alerts: seq<Alert>, tf: TypeFilter, rf: ReadFilter): (r: seq<Alert>)
    ensures Seqs.IsSubsequence(r, alerts)
    ensures forall i :: 0 <= i < |r| ==> KeepAlert(tf, rf, r[i])
    ensures forall i :: 0 <= i < |alerts| && KeepAlert(tf, rf, alerts[i]) ==> alerts[i] in r
    ensures forall x :: multiset(r)[x] == if KeepAlert(tf, rf, x) then multiset(alerts)[x] else 0
  {
    var keep := (a: Alert) => KeepAlert(tf, rf, a);
    Seqs.FilterIsSubsequence(alerts, keep);
    Seqs.FilterMultiset(alerts, keep);
    Seqs.Filter(alerts, keep)
  }

  /** With both selects on `'todos'` every alert is shown. */
  lemma FilterAllShowsEverything(alerts: seq<Alert>)
    ensures FilterAlerts(alerts, AllTypes, AllAlerts) == alerts
  {
    Seqs.FilterAll(alerts, (a: Alert) => KeepAlert(AllTypes, AllAlerts, a));
  }

  /** For a fixed type, the unread and the read views split it between them. */
  lemma ReadViewsPartition(alerts: seq<Alert>, tf: TypeFilter)
    ensures |FilterAlerts(alerts, tf, UnreadOnly)| + |FilterAlerts(alerts, tf, ReadOnly)|
         == |FilterAlerts(alerts, tf, AllAlerts)|
  {
    var unread := (a: Alert) => !a.lida;
    var read := (a: Alert) => a.lida;
    ViewsOfType(alerts, tf, UnreadOnly, unread);
    ViewsOfType(alerts, tf, ReadOnly, read);
    Seqs.CountComplement(FilterAlerts(alerts, tf, AllAlerts), unread, read);
  }

  /** Narrowing by read status is filtering the type's view again. */
  lemma {:induction false} ViewsOfType(alerts: seq<Alert>, tf: TypeFilter, rf: ReadFilter, p: Alert -> bool)
    requires forall a :: KeepAlert(tf, rf, a) == (KeepAlert(tf, AllAlerts, a) && p(a))
    ensures FilterAlerts(alerts, tf, rf) == Seqs.Filter(FilterAlerts(alerts, tf, AllAlerts), p)
  {
    if alerts != [] {
      ViewsOfType(alerts[1..], tf, rf, p);
    }
  }

  function UnreadCount(alerts: seq<Alert>): nat
  {
    Seqs.Count(alerts, (a: Alert) => !a.lida)
  }

  function ErrorCount(alerts: seq<Alert>): nat
  {
    Seqs.Count(alerts, (a: Alert) => a.tipo == Erro)
  }

  function WarningCount(alerts: seq<Alert>): nat
  {
    Seqs.Count(alerts, (a: Alert) => a.tipo == Aviso)
  }

  /** The counters never exceed the list: errors and warnings are disjoint. */
  lemma CounterBounds(alerts: seq<Alert>)
    ensures ErrorCount(alerts) + WarningCount(alerts) <= |alerts|
    ensures UnreadCount(alerts) <= |alerts|
  {
    Seqs.CountDisjoint(alerts, (a: Alert) => a.tipo == Erro, (a: Alert) => a.tipo == Aviso);
  }

  /** `markAsRead(id)`: every alert with that id becomes read; nothing else changes. */
  function MarkRead(alerts: seq<Alert>, id: string): (r: seq<Alert>)
    ensures |r| == |alerts|
    ensures forall i :: 0 <= i < |r| ==> r[i].lida == (alerts[i].lida || alerts[i].id == id)
    ensures forall i :: 0 <= i < |r| ==> r[i].(lida := alerts[i].lida) == alerts[i]
  {
    seq(|alerts|, i requires 0 <= i < |alerts| =>
      if alerts[i].id == id then alerts[i].(lida := true) else alerts[i])
  }

  /** Marking the same alert twice is the same as marking it once, and it
      never raises the unread counter. */
  lemma MarkReadIdempotent(alerts: seq<Alert>, id: string)
    ensures MarkRead(MarkRead(alerts, id), id) == MarkRead(alerts, id)
    ensures UnreadCount(MarkRead(alerts, id)) <= UnreadCount(alerts)
  {
    MarkReadUnread(alerts, id);
  }

  lemma {:induction false} MarkReadUnread(alerts: seq<Alert>, id: string)
    ensures UnreadCount(MarkRead(alerts, id)) <= UnreadCount(alerts)
  {
    if alerts != [] {
      MarkReadUnread(alerts[1..], id);
      assert MarkRead(alerts, id)[1..] == MarkRead(alerts[1..], id);
    }
  }

  /** `markAllAsRead`: every alert becomes read; nothing else changes. */
  function MarkAllRead(alerts: seq<Alert>): (r: seq<Alert>)
    ensures |r| == |alerts|
    ensures forall i :: 0 <= i < |r| ==> r[i].lida && r[i].(lida := alerts[i].lida) == alerts[i]
  {
    seq(|alerts|, i requires 0 <= i < |alerts| => alerts[i].(lida := true))
  }

  /** After "mark all" nothing is unread, and doing it again changes nothing. */
  lemma MarkAllReadClearsUnread(alerts: seq<Alert>)
    ensures UnreadCount(MarkAllRead(alerts)) == 0
    ensures MarkAllRead(MarkAllRead(alerts)) == MarkAllRead(alerts)
  {
    var r := MarkAllRead(alerts);
    assert forall x :: x in r ==> x.lida;
    Seqs.CountNone(r, (a: Alert) => !a.lida);
  }

  /** `deleteAlert(id)`: the alerts with another id, in their order. */
  function DeleteAlert(alerts: seq<Alert>, id: string): (r: seq<Alert>)
    ensures Seqs.IsSubsequence(r, alerts)
    ensures forall i :: 0 <= i < |r| ==> r[i].id != id
    ensures forall i :: 0 <= i < |alerts| && alerts[i].id != id ==> alerts[i] in r
  {
    var keep := (a: Alert) => a.id != id;
    Seqs.FilterIsSubsequence(alerts, keep);
    Seqs.Filter(alerts, keep)
  }

  /** Deleting removes exactly the alerts carrying the id, and is idempotent. */
  lemma DeleteAlertCount(alerts: seq<Alert>, id: string)
    ensures |DeleteAlert(alerts, id)| == |alerts| - Seqs.Count(alerts, (a: Alert) => a.id == id)
    ensures DeleteAlert(DeleteAlert(alerts, id), id) == DeleteAlert(alerts, id)
  {
    Seqs.CountComplement(alerts, (a: Alert) => a.id == id, (a: Alert) => a.id != id);
    Seqs.FilterIdempotent(alerts, (a: Alert) => a.id != id);
  }

  const MsPerHour: int := 1000 * 60 * 60
  const MsPerDay: int := 1000 * 60 * 60 * 24

  /** `formatDate`, given the milliseconds elapsed since the alert and the
      day/month label the locale would print. JavaScript's `Math.floor`
      agrees with Dafny's division for a positive divisor. */
  function FormatDate(diffMs: int, dateLabel: string): (r: string)
    ensures diffMs < 3600000 ==> r == "Agora há pouco"
    ensures 3600000 <= diffMs < 86400000 ==> r == "Há " + NatToString(diffMs / 3600000) + "h"
    ensures 86400000 <= diffMs < 172800000 ==> r == "Ontem"
    ensures 172800000 <= diffMs ==> r == dateLabel
  {
    var diffHours := diffMs / MsPerHour;
    var diffDays := diffMs / MsPerDay;
    if diffHours < 1 then "Agora há pouco"
    else if diffHours < 24 then "Há " + NatToString(diffHours) + "h"
    else if diffDays == 1 then "Ontem"
    else dateLabel
  }

  /** The hour label counts whole hours from 1 to 23. */
  lemma FormatDateHours(diffMs: int, dateLabel: string)
    requires 3600000 <= diffMs < 86400000
    ensures 1 <= diffMs / 3600000 <= 23
    ensures FormatDate(diffMs, dateLabel)[..3] == "Há "
  {
  }

  class AlertsPage {
    var alerts: seq<Alert>
    var filterType: TypeFilter
    var filterStatus: ReadFilter

    constructor (initial: seq<Alert>)
      ensures alerts == initial && filterType == AllTypes && filterStatus == AllAlerts
    {
      alerts := initial;
      filterType := AllTypes;
      filterStatus := AllAlerts;
    }

    function Visible(): seq<Alert>
      reads this
    {
      FilterAlerts(alerts, filterType, filterStatus)
    }

    method SetFilterType(tf: TypeFilter)
      modifies this`filterType
      ensures filterType == tf
    {
      filterType := tf;
    }

    method SetFilterStatus(rf: ReadFilter)
      modifies this`filterStatus
      ensures filterStatus == rf
    {
      filterStatus := rf;
    }

    method MarkAsRead(id: string)
      modifies this`alerts
      ensures alerts == MarkRead(old(alerts), id)
    {
      alerts := MarkRead(alerts, id);
    }

    method MarkAllAsRead()
      modifies this`alerts
      ensures alerts == MarkAllRead(old(alerts))
      ensures UnreadCount(alerts) == 0
    {
      alerts := MarkAllRead(alerts);
      MarkAllReadClearsUnread(old(alerts));
    }

    method Delete(id: string)
      modifies this`alerts
      ensures alerts == DeleteAlert(old(alerts), id)
    {
      alerts := DeleteAlert(alerts, id);
    }
  }
}
