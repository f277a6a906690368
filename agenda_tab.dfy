/** The bot's weekly grid in src/components/bot-detail/AgendaTab.tsx: active
    slots per weekday, a selected slot, and a soft delete. */
module AgendaTab {
  import opened Wrappers
  import opened LogData
  import Seqs

  /** `diasSemana`: Monday to Sunday, the order day cards are rendered in. */
  const DaysOfWeek: seq<Day> := [Seg, Ter, Qua, Qui, Sex, Sab, Dom]

  /** The position of a weekday in `DaysOfWeek`. */
  lemma DayIndex(d: Day) returns (i: nat)
    ensures i < |DaysOfWeek| && DaysOfWeek[i] == d
  {
    i := match d
      case Seg => 0 case Ter => 1 case Qua => 2 case Qui => 3
      case Sex => 4 case Sab => 5 case Dom => 6;
  }

  lemma DaysOfWeekComplete(d: Day)
    ensures d in DaysOfWeek
  {
  }

  /** `getSlotsByDay(d)`: the active slots of that day, in list order. */
  function SlotsByDay(schedule: seq<ScheduleSlot>, d: Day): (r: seq<ScheduleSlot>)
    ensures Seqs.IsSubsequence(r, schedule)
    ensures forall i :: 0 <= i < |r| ==> r[i].dia == d && r[i].ativo
    ensures forall i :: 0 <= i < |schedule| && schedule[i].dia == d && schedule[i].ativo ==> schedule[i] in r
    ensures forall x :: multiset(r)[x] == if x.dia == d && x.ativo then multiset(schedule)[x] else 0
  {
    var keep := (s: ScheduleSlot) => s.dia == d && s.ativo;
    Seqs.FilterIsSubsequence(schedule, keep);
    Seqs.FilterMultiset(schedule, keep);
    Seqs.Filter(schedule, keep)
  }

  /** `hasSchedules`: some slot is active. */
  function HasSchedules(schedule: seq<ScheduleSlot>): (r: bool)
    ensures r <==> exists i :: 0 <= i < |schedule| && schedule[i].ativo
  {
    Seqs.Any(schedule, (s: ScheduleSlot) => s.ativo)
  }

  /** The day cards rendered: the weekdays with at least one active slot, Monday first. */
  function ShownDays(schedule: seq<ScheduleSlot>): (r: seq<Day>)
    ensures Seqs.IsSubsequence(r, DaysOfWeek)
    ensures forall i :: 0 <= i < |r| ==> |SlotsByDay(schedule, r[i])| > 0
    ensures forall d :: |SlotsByDay(schedule, d)| > 0 ==> d in r
  {
    var keep := (d: Day) => |SlotsByDay(schedule, d)| > 0;
    Seqs.FilterIsSubsequence(DaysOfWeek, keep);
    FilterDaysComplete(keep);
    Seqs.Filter(DaysOfWeek, keep)
  }

  /** Filtering the week keeps every weekday the predicate admits. */
  lemma FilterDaysComplete(keep: Day -> bool)
    ensures forall d :: keep(d) ==> d in Seqs.Filter(DaysOfWeek, keep)
  {
    forall d | keep(d) ensures d in Seqs.Filter(DaysOfWeek, keep) {
      var i := DayIndex(d);
    }
  }

  /** The grid shows a card exactly when the tab has something to show. */
  lemma ShownDaysIffHasSchedules(schedule: seq<ScheduleSlot>)
    ensures ShownDays(schedule) != [] <==> HasSchedules(schedule)
  {
    if HasSchedules(schedule) {
      var i :| 0 <= i < |schedule| && schedule[i].ativo;
      var d := schedule[i].dia;
      assert schedule[i] in SlotsByDay(schedule, d);
      assert d in DaysOfWeek;
    }
  }

  function ActiveCount(schedule: seq<ScheduleSlot>): nat
  {
    Seqs.Count(schedule, (s: ScheduleSlot) => s.ativo)
  }

  /** `removeSlot(id)`'s list update: slots with that id are deactivated,
      every other slot and the list length stay. */
  function Deactivate(schedule: seq<ScheduleSlot>, id: string): (r: seq<ScheduleSlot>)
    ensures |r| == |schedule|
    ensures forall i :: 0 <= i < |r| ==> r[i].(ativo := schedule[i].ativo) == schedule[i]
    ensures forall i :: 0 <= i < |r| ==> r[i].ativo == (schedule[i].ativo && schedule[i].id != id)
  {
    seq(|schedule|, i requires 0 <= i < |schedule| =>
      if schedule[i].id == id then schedule[i].(ativo := false) else schedule[i])
  }

  /** Removing twice is removing once, and afterwards the slot is in no day's list. */
  lemma DeactivateIdempotent(schedule: seq<ScheduleSlot>, id: string, d: Day)
    ensures Deactivate(Deactivate(schedule, id), id) == Deactivate(schedule, id)
    ensures forall i :: 0 <= i < |SlotsByDay(Deactivate(schedule, id), d)| ==>
      SlotsByDay(Deactivate(schedule, id), d)[i].id != id
  {
    var r := Deactivate(schedule, id);
    forall i | 0 <= i < |SlotsByDay(r, d)| ensures SlotsByDay(r, d)[i].id != id {
      var s := SlotsByDay(r, d)[i];
      assert s in r && s.ativo;
    }
  }

  /** No removal reactivates anything: the active count never grows. */
  lemma {:induction false} DeactivateNeverReactivates(schedule: seq<ScheduleSlot>, id: string)
    ensures ActiveCount(Deactivate(schedule, id)) <= ActiveCount(schedule)
  {
    if schedule != [] {
      DeactivateNeverReactivates(schedule[1..], id);
      assert Deactivate(schedule, id)[1..] == Deactivate(schedule[1..], id);
    }
  }

  class AgendaTabState {
    var schedule: seq<ScheduleSlot>
    var selectedSlot: Option<string>

    constructor (initial: seq<ScheduleSlot>)
      ensures schedule == initial && selectedSlot == None
    {
      schedule := initial;
      selectedSlot := None;
    }

    method ToggleSlot(id: string)
      modifies this`selectedSlot
      ensures selectedSlot == Toggle(old(selectedSlot), id)
    {
      selectedSlot := Toggle(selectedSlot, id);
    }

    /** `removeSlot(id)`: a soft delete that also clears the selection. */
    method RemoveSlot(id: string)
      modifies this
      ensures schedule == Deactivate(old(schedule), id) && selectedSlot == None
      ensures ActiveCount(schedule) <= ActiveCount(old(schedule))
    {
      DeactivateNeverReactivates(schedule, id);
      schedule := Deactivate(schedule, id);
      selectedSlot := None;
    }
  }
}
