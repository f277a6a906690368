/** The schedule page of src/pages/Agenda.tsx: one item per active slot with
    a bot assigned to it, an optional weekday filter, the items grouped by
    weekday and sorted by time, and three counters. */
module Agenda {
  import opened Wrappers
  import opened LogData
  import opened BotData
  import opened AgendaTab
  import Seqs

  datatype ScheduleItem = ScheduleItem(bot: Bot, slot: ScheduleSlot)

  function ActiveSlots(schedule: seq<ScheduleSlot>): seq<ScheduleSlot>
  {
    Seqs.Filter(schedule, (s: ScheduleSlot) => s.ativo)
  }

  function ActiveBots(bots: seq<Bot>): seq<Bot>
  {
    Seqs.Filter(bots, (b: Bot) => b.status == Ativo)
  }

  /** A reading of `Math.random()`: a real in [0, 1). */
  predicate ValidDraw(x: real)
  {
    0.0 <= x < 1.0
  }

  /** The bot a slot gets: `activeBots[Math.floor(draw * activeBots.length)]`,
      or the first bot of all when that index holds nothing, which happens
      exactly when no bot is active. */
  function AssignBot(bots: seq<Bot>, draw: real): (b: Bot)
    requires |bots| > 0
    requires ValidDraw(draw)
    ensures b in bots
    ensures ActiveBots(bots) != [] ==> b in ActiveBots(bots) && b.status == Ativo
    ensures ActiveBots(bots) == [] ==> b == bots[0]
  {
    var active := ActiveBots(bots);
    var k := (draw * |active| as real).Floor;
    if 0 <= k < |active| then active[k]
    else
      DrawIndexInRange(draw, |active|);
      bots[0]
  }

  /** `Math.floor(draw * n)` is a valid index into a list of `n > 0` elements. */
  lemma DrawIndexInRange(draw: real, n: nat)
    requires ValidDraw(draw)
    ensures n > 0 ==> 0 <= (draw * n as real).Floor < n
  {
    if n > 0 {
      var x := draw * n as real;
      assert 0.0 <= x;
      assert n as real - x == (1.0 - draw) * n as real;
      assert x < n as real;
    }
  }

  /** `scheduleItems`: one item per active slot, in list order. `draws[i]`
      stands for the `Math.random()` reading taken for slot `i`. */
  function ScheduleItems(schedule: seq<ScheduleSlot>, bots: seq<Bot>, draws: seq<real>): (r: seq<ScheduleItem>)
    requires |bots| > 0
    requires |draws| == |ActiveSlots(schedule)|
    requires forall i :: 0 <= i < |draws| ==> ValidDraw(draws[i])
    ensures |r| == |ActiveSlots(schedule)|
    ensures forall i :: 0 <= i < |r| ==> r[i].slot == ActiveSlots(schedule)[i] && r[i].slot.ativo
    ensures forall i :: 0 <= i < |r| ==> r[i].bot in bots
    ensures ActiveBots(bots) != [] ==> forall i :: 0 <= i < |r| ==> r[i].bot.status == Ativo
    ensures ActiveBots(bots) == [] ==> forall i :: 0 <= i < |r| ==> r[i].bot == bots[0]
  {
    var slots := ActiveSlots(schedule);
    seq(|slots|, i requires 0 <= i < |slots| => ScheduleItem(AssignBot(bots, draws[i]), slots[i]))
  }

  /** `filteredItems`: every item without a selected day, otherwise that day's items. */
  function FilteredItems(items: seq<ScheduleItem>, selectedDay: Option<Day>): (r: seq<ScheduleItem>)
    ensures selectedDay.None? ==> r == items
    ensures Seqs.IsSubsequence(r, items)
    ensures selectedDay.Some? ==> forall i :: 0 <= i < |r| ==> r[i].slot.dia == selectedDay.value
    ensures selectedDay.Some? ==> forall i :: 0 <= i < |items| && items[i].slot.dia == selectedDay.value ==> items[i] in r
    ensures selectedDay.Some? ==> forall x :: multiset(r)[x] == if x.slot.dia == selectedDay.value then multiset(items)[x] else 0
  {
    if selectedDay.None? then
      IsSubsequenceRefl(items);
      items
    else
      BucketMultiset(items, selectedDay.value);
      Bucket(items, selectedDay.value)
  }

  lemma {:induction false} IsSubsequenceRefl<T>(s: seq<T>)
    ensures Seqs.IsSubsequence(s, s)
  {
    if s != [] {
      IsSubsequenceRefl(s[1..]);
    }
  }

  /** The items of one weekday, in list order. */
  function Bucket(items: seq<ScheduleItem>, d: Day): (r: seq<ScheduleItem>)
    ensures Seqs.IsSubsequence(r, items)
    ensures forall i :: 0 <= i < |r| ==> r[i].slot.dia == d
    ensures forall i :: 0 <= i < |items| && items[i].slot.dia == d ==> items[i] in r
  {
    var keep := (it: ScheduleItem) => it.slot.dia == d;
    Seqs.FilterIsSubsequence(items, keep);
    Seqs.Filter(items, keep)
  }

  /** A weekday's bucket holds each of that day's items exactly as often as
      the list does, and nothing else. */
  lemma BucketMultiset(items: seq<ScheduleItem>, d: Day)
    ensures forall x :: multiset(Bucket(items, d))[x] == if x.slot.dia == d then multiset(items)[x] else 0
  {
    Seqs.FilterMultiset(items, (it: ScheduleItem) => it.slot.dia == d);
  }

  lemma BucketCons(x: ScheduleItem, items: seq<ScheduleItem>, d: Day)
    ensures Bucket([x] + items, d) == (if x.slot.dia == d then [x] else []) + Bucket(items, d)
  {
    assert ([x] + items)[1..] == items;
  }

  lemma BucketSnoc(items: seq<ScheduleItem>, x: ScheduleItem, d: Day)
    ensures Bucket(items + [x], d) == Bucket(items, d) + (if x.slot.dia == d then [x] else [])
  {
    Seqs.FilterConcat(items, [x], (it: ScheduleItem) => it.slot.dia == d);
  }

  /** `a <= b` in the ordinal (code-unit by code-unit) order that
      `localeCompare` gives the zero-padded `HH:MM` strings. */
  predicate TimeLeq(a: string, b: string)
  {
    if a == [] then true
    else if b == [] then false
    else a[0] < b[0] || (a[0] == b[0] && TimeLeq(a[1..], b[1..]))
  }

  lemma {:induction false} TimeLeqTotal(a: string, b: string)
    ensures TimeLeq(a, b) || TimeLeq(b, a)
  {
    if a != [] && b != [] && a[0] == b[0] {
      TimeLeqTotal(a[1..], b[1..]);
    }
  }

  predicate SortedByTime(s: seq<ScheduleItem>)
  {
    forall i :: 0 <= i < |s| - 1 ==> TimeLeq(s[i].slot.horario, s[i + 1].slot.horario)
  }

  /** Inserts `x` into a time-sorted list before the first item not earlier than it. */
  function Insert(x: ScheduleItem, s: seq<ScheduleItem>): (r: seq<ScheduleItem>)
    requires SortedByTime(s)
    ensures SortedByTime(r)
    ensures multiset(r) == multiset(s) + multiset{x}
    ensures |r| == |s| + 1
    ensures r[0] == x || (s != [] && r[0] == s[0])
  {
    if s == [] || TimeLeq(x.slot.horario, s[0].slot.horario) then [x] + s
    else
      TimeLeqTotal(x.slot.horario, s[0].slot.horario);
      var rest := Insert(x, s[1..]);
      assert s == [s[0]] + s[1..];
      [s[0]] + rest
  }

  /** The per-day `sort`: a stable sort by `horario`. */
  function SortByTime(s: seq<ScheduleItem>): (r: seq<ScheduleItem>)
    ensures SortedByTime(r)
    ensures multiset(r) == multiset(s)
    ensures |r| == |s|
  {
    if s == [] then []
    else
      assert s == [s[0]] + s[1..];
      Insert(s[0], SortByTime(s[1..]))
  }

  /** The number of items over some days, counted bucket by bucket. */
  function SumBuckets(items: seq<ScheduleItem>, days: seq<Day>): nat
  {
    if days == [] then 0 else |Bucket(items, days[0])| + SumBuckets(items, days[1..])
  }

  lemma {:induction false} SumBucketsCons(x: ScheduleItem, items: seq<ScheduleItem>, days: seq<Day>)
    requires forall i, j :: 0 <= i < j < |days| ==> days[i] != days[j]
    ensures SumBuckets([x] + items, days) == SumBuckets(items, days) + (if x.slot.dia in days then 1 else 0)
  {
    if days != [] {
      BucketCons(x, items, days[0]);
      SumBucketsCons(x, items, days[1..]);
    }
  }

  /** The weekday buckets partition the items: their sizes add up to the whole. */
  lemma {:induction false} BucketsPartition(items: seq<ScheduleItem>)
    ensures SumBuckets(items, DaysOfWeek) == |items|
  {
    if items == [] {
      SumBucketsEmpty(DaysOfWeek);
    } else {
      assert [items[0]] + items[1..] == items;
      BucketsPartition(items[1..]);
      DaysOfWeekComplete(items[0].slot.dia);
      SumBucketsCons(items[0], items[1..], DaysOfWeek);
    }
  }

  lemma {:induction false} SumBucketsEmpty(days: seq<Day>)
    ensures SumBuckets([], days) == 0
  {
    if days != [] {
      SumBucketsEmpty(days[1..]);
    }
  }

  /** The item count the day sections of `grouped` add up to. */
  function SumGrouped(grouped: map<Day, seq<ScheduleItem>>, days: seq<Day>): nat
  {
    if days == [] then 0
    else (if days[0] in grouped then |grouped[days[0]]| else 0) + SumGrouped(grouped, days[1..])
  }

  lemma {:induction false} SumGroupedIsSumBuckets(
    grouped: map<Day, seq<ScheduleItem>>, items: seq<ScheduleItem>, days: seq<Day>)
    requires forall d :: d in grouped ==> |grouped[d]| == |Bucket(items, d)|
    requires forall d :: d !in grouped ==> Bucket(items, d) == []
    ensures SumGrouped(grouped, days) == SumBuckets(items, days)
  {
    if days != [] {
      SumGroupedIsSumBuckets(grouped, items, days[1..]);
    }
  }

  /** `grouped` has a key exactly for the days that have items, holding
      those items in list order. */
  ghost predicate Groups(grouped: map<Day, seq<ScheduleItem>>, items: seq<ScheduleItem>)
  {
    && (forall d :: d in grouped <==> Bucket(items, d) != [])
    && (forall d :: d in grouped ==> grouped[d] == Bucket(items, d))
  }

  lemma PushKeepsGroups(grouped: map<Day, seq<ScheduleItem>>, items: seq<ScheduleItem>, item: ScheduleItem)
    requires Groups(grouped, items)
    ensures var day := item.slot.dia;
      var withKey := if day !in grouped then grouped[day := []] else grouped;
      Groups(withKey[day := withKey[day] + [item]], items + [item])
  {
    var day := item.slot.dia;
    var withKey := if day !in grouped then grouped[day := []] else grouped;
    var next := withKey[day := withKey[day] + [item]];
    forall d ensures (d in next <==> Bucket(items + [item], d) != [])
      && (d in next ==> next[d] == Bucket(items + [item], d))
    {
      BucketSnoc(items, item, d);
      if d != day {
        assert (d in next <==> d in grouped) && (d in next ==> next[d] == grouped[d]);
      }
    }
  }

  /** The `forEach` that pushes each item into its weekday's list. */
  method Collect(items: seq<ScheduleItem>) returns (grouped: map<Day, seq<ScheduleItem>>)
    ensures Groups(grouped, items)
  {
    grouped := map[];
    var i := 0;
    while i < |items|
      invariant 0 <= i <= |items|
      invariant Groups(grouped, items[..i])
    {
      var item := items[i];
      var day := item.slot.dia;
      PushKeepsGroups(grouped, items[..i], item);
      assert items[..i + 1] == items[..i] + [item];
      if day !in grouped {
        grouped := grouped[day := []];
      }
      grouped := grouped[day := grouped[day] + [item]];
      i := i + 1;
    }
    assert items[..i] == items;
  }

  /** The second `forEach`, which sorts the list of every key. */
  method SortGroups(buckets: map<Day, seq<ScheduleItem>>) returns (grouped: map<Day, seq<ScheduleItem>>)
    ensures grouped.Keys == buckets.Keys
    ensures forall d :: d in grouped ==> grouped[d] == SortByTime(buckets[d])
  {
    grouped := buckets;
    var todo := buckets.Keys;
    while todo != {}
      invariant todo <= grouped.Keys == buckets.Keys
      invariant forall d :: d in grouped && d !in todo ==> grouped[d] == SortByTime(buckets[d])
      invariant forall d :: d in todo ==> grouped[d] == buckets[d]
      decreases |todo|
    {
      var day :| day in todo;
      grouped := grouped[day := SortByTime(grouped[day])];
      todo := todo - {day};
    }
  }

  /** `groupedByDay`: each item is pushed into its weekday's list, then each
      list is sorted by time. The result has a key exactly for the days that
      have items, each list is a time-sorted permutation of that day's items,
      and the lists add up to all the items. */
  method GroupByDay(items: seq<ScheduleItem>) returns (grouped: map<Day, seq<ScheduleItem>>)
    ensures forall d :: d in grouped <==> Bucket(items, d) != []
    ensures forall d :: d in grouped ==>
      SortedByTime(grouped[d]) && multiset(grouped[d]) == multiset(Bucket(items, d))
    ensures SumGrouped(grouped, DaysOfWeek) == |items|
  {
    var buckets := Collect(items);
    grouped := SortGroups(buckets);
    SumGroupedIsSumBuckets(grouped, items, DaysOfWeek);
    BucketsPartition(items);
  }

  /** The day sections rendered: Monday to Sunday, only the selected day when
      there is one, and only days whose list is not empty. */
  function DaySections(grouped: map<Day, seq<ScheduleItem>>, selectedDay: Option<Day>): (r: seq<Day>)
    ensures Seqs.IsSubsequence(r, DaysOfWeek)
    ensures forall i :: 0 <= i < |r| ==> r[i] in grouped && |grouped[r[i]]| > 0
    ensures selectedDay.Some? ==> forall i :: 0 <= i < |r| ==> r[i] == selectedDay.value
    ensures forall d :: d in grouped && |grouped[d]| > 0 && (selectedDay.None? || selectedDay == Some(d)) ==> d in r
  {
    var keep := (d: Day) => (selectedDay.None? || selectedDay == Some(d)) && d in grouped && |grouped[d]| > 0;
    Seqs.FilterIsSubsequence(DaysOfWeek, keep);
    var r := Seqs.Filter(DaysOfWeek, keep);
    forall d | keep(d) ensures d in r {
      var i := DayIndex(d);
    }
    r
  }

  /** The three counters. `hoje` counts Monday's items whatever the date is. */
  datatype Stats = Stats(total: nat, hoje: nat, ativos: nat)

  function ComputeStats(items: seq<ScheduleItem>, bots: seq<Bot>): (s: Stats)
    ensures s.total == |items| && s.hoje <= s.total && s.ativos <= |bots|
    ensures s.hoje == |Bucket(items, Seg)| && s.ativos == |ActiveBots(bots)|
  {
    Stats(|items|, |Bucket(items, Seg)|, |ActiveBots(bots)|)
  }

  /** The total counter equals the number of active slots. */
  lemma TotalIsActiveSlots(schedule: seq<ScheduleSlot>, bots: seq<Bot>, draws: seq<real>)
    requires |bots| > 0
    requires |draws| == |ActiveSlots(schedule)|
    requires forall i :: 0 <= i < |draws| ==> ValidDraw(draws[i])
    ensures ComputeStats(ScheduleItems(schedule, bots, draws), bots).total == AgendaTab.ActiveCount(schedule)
  {
  }

  class AgendaPage {
    /** Computed once when the page mounts. */
    const scheduleItems: seq<ScheduleItem>
    var selectedDay: Option<Day>

    constructor (schedule: seq<ScheduleSlot>, bots: seq<Bot>, draws: seq<real>)
      requires |bots| > 0
      requires |draws| == |ActiveSlots(schedule)|
      requires forall i :: 0 <= i < |draws| ==> ValidDraw(draws[i])
      ensures scheduleItems == ScheduleItems(schedule, bots, draws) && selectedDay == None
    {
      scheduleItems := ScheduleItems(schedule, bots, draws);
      selectedDay := None;
    }

    /** A click on "Todos" (`None`) or on a weekday button. */
    method SelectDay(d: Option<Day>)
      modifies this`selectedDay
      ensures selectedDay == d
    {
      selectedDay := d;
    }

    /** The grid: the grouped lists of the filtered items and the sections to show. */
    method Grid() returns (grouped: map<Day, seq<ScheduleItem>>, sections: seq<Day>)
      ensures forall d :: d in grouped <==> Bucket(FilteredItems(scheduleItems, selectedDay), d) != []
      ensures forall d :: d in grouped ==> (SortedByTime(grouped[d])
        && multiset(grouped[d]) == multiset(Bucket(FilteredItems(scheduleItems, selectedDay), d)))
      ensures sections == DaySections(grouped, selectedDay)
    {
      grouped := GroupByDay(FilteredItems(scheduleItems, selectedDay));
      sections := DaySections(grouped, selectedDay);
    }
  }
}
