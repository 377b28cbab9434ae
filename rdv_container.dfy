/** The planning view: appointments grouped by calendar day, each day headed
    by the label of its first appointment, and the days listed in ascending
    order. The calendar day of an appointment (`toISOString().split("T")[0]`)
    and its heading (`toLocaleDateString("fr-FR", ...)`) are given functions
    of the appointment's timestamp; the day is numbered so that
    `new Date(a) - new Date(b)` compares day numbers. */
module RdvContainer {
  import opened Js
  import opened Grouping
  import opened Appointments

  /** `acc[key] = { label, events }` */
  datatype DayGroup = DayGroup(day: int, caption: string, events: seq<Rdv>)

  /** The reduce pushes the appointment itself. */
  function Itself(r: Rdv): Rdv { r }

  /** The days the reduce builds: the grouping of the appointments by day, each
      group captioned by the label of the first appointment pushed into it. */
  function DayGroups(events: seq<Rdv>, dayOf: Rdv -> int, labelOf: Rdv -> string): (days: seq<DayGroup>)
    ensures var gs := Grouped(events, dayOf, Itself);
      |days| == |gs|
      && forall g :: 0 <= g < |gs| ==>
           gs[g].items != [] && days[g] == DayGroup(gs[g].key, labelOf(gs[g].items[0]), gs[g].items)
  {
    var gs := Grouped(events, dayOf, Itself);
    GroupedIsGrouping(events, dayOf, Itself);
    seq(|gs|, g requires 0 <= g < |gs| => DayGroup(gs[g].key, labelOf(gs[g].items[0]), gs[g].items))
  }

  /** Where day `d` is in the accumulator, or -1 when `acc[d]` is undefined. */
  function IndexOfDay(days: seq<DayGroup>, d: int): (r: int)
    ensures -1 <= r < |days|
    ensures 0 <= r ==> days[r].day == d
    ensures r == -1 <==> forall j :: 0 <= j < |days| ==> days[j].day != d
    decreases |days|
  {
    if days == [] then -1
    else if days[0].day == d then 0
    else
      var r := IndexOfDay(days[1..], d);
      if r < 0 then -1 else r + 1
  }

  /** The accumulator holds, day by day, the groups of `gs`, each captioned by its first appointment. */
  ghost predicate Mirrors(days: seq<DayGroup>, gs: seq<Group<int, Rdv>>, labelOf: Rdv -> string)
  {
    |days| == |gs|
    && forall g :: 0 <= g < |gs| ==>
         gs[g].items != [] && days[g] == DayGroup(gs[g].key, labelOf(gs[g].items[0]), gs[g].items)
  }

  /** Looking a day up in the accumulator finds the position of its group. */
  lemma DayIndex(days: seq<DayGroup>, items: seq<Rdv>, dayOf: Rdv -> int, labelOf: Rdv -> string, d: int)
    requires Mirrors(days, Grouped(items, dayOf, Itself), labelOf)
    ensures IndexOfDay(days, d) == IndexOfKey(Grouped(items, dayOf, Itself), d)
  {
    var gs := Grouped(items, dayOf, Itself);
    GroupedIsGrouping(items, dayOf, Itself);
    assert forall j :: 0 <= j < |days| ==> days[j].day == gs[j].key;
  }

  /** One step of the reduce mirrors one push of the grouping. */
  lemma MirrorsPush(days: seq<DayGroup>, gs: seq<Group<int, Rdv>>, labelOf: Rdv -> string, d: int, e: Rdv)
    requires Mirrors(days, gs, labelOf)
    ensures var at := IndexOfKey(gs, d);
      var withDay := if at < 0 then days + [DayGroup(d, labelOf(e), [])] else days;
      var slot := if at < 0 then |days| else at;
      Mirrors(withDay[slot := withDay[slot].(events := withDay[slot].events + [e])], Push(gs, d, e), labelOf)
  {
    var at := IndexOfKey(gs, d);
    var next := Push(gs, d, e);
    if 0 <= at {
      assert next[at].items == gs[at].items + [e];
      assert next[at].items[0] == gs[at].items[0];
    }
  }

  /** The `grouped` reduce. */
  method GroupByDay(events: seq<Rdv>, dayOf: Rdv -> int, labelOf: Rdv -> string) returns (days: seq<DayGroup>)
    ensures days == DayGroups(events, dayOf, labelOf)
  {
    days := [];
    var i := 0;
    while i < |events|
      invariant 0 <= i <= |events|
      invariant Mirrors(days, Grouped(events[..i], dayOf, Itself), labelOf)
    {
      var e := events[i];
      var d := dayOf(e);
      assert events[..i + 1][..i] == events[..i];
      DayIndex(days, events[..i], dayOf, labelOf, d);
      MirrorsPush(days, Grouped(events[..i], dayOf, Itself), labelOf, d, e);
      var at := IndexOfDay(days, d);
      if at < 0 {
        days := days + [DayGroup(d, labelOf(e), [])];
        at := |days| - 1;
      }
      days := days[at := days[at].(events := days[at].events + [e])];
      i := i + 1;
    }
    assert events[..i] == events;
  }

  /** `Object.keys(grouped)`: the days in the order they were first met. */
  function DayKeys(days: seq<DayGroup>): (keys: seq<int>)
    ensures |keys| == |days| && forall g :: 0 <= g < |days| ==> keys[g] == days[g].day
  {
    seq(|days|, g requires 0 <= g < |days| => days[g].day)
  }

  predicate Distinct(s: seq<int>)
  {
    forall i, j :: 0 <= i < j < |s| ==> s[i] != s[j]
  }

  predicate Increasing(s: seq<int>)
  {
    forall i, j :: 0 <= i < j < |s| ==> s[i] < s[j]
  }

  function Insert(x: int, s: seq<int>): (r: seq<int>)
    requires Increasing(s) && x !in s
    ensures Increasing(r)
    ensures multiset(r) == multiset(s) + multiset{x}
    ensures forall y :: y in r <==> y == x || y in s
    decreases |s|
  {
    if s == [] then [x]
    else if x < s[0] then [x] + s
    else
      var t := Insert(x, s[1..]);
      assert s == [s[0]] + s[1..];
      Cons(s[0], t);
      [s[0]] + t
  }

  /** Putting a value in front of an increasing sequence of larger values keeps it increasing. */
  lemma Cons(h: int, t: seq<int>)
    requires Increasing(t) && forall y :: y in t ==> h < y
    ensures Increasing([h] + t)
  {
    var r := [h] + t;
    forall i, j | 0 <= i < j < |r|
      ensures r[i] < r[j]
    {
      assert r[j] == t[j - 1] && t[j - 1] in t;
      if i > 0 {
        assert r[i] == t[i - 1];
      }
    }
  }

  /** `.sort((a, b) => new Date(a) - new Date(b))` on distinct day keys. */
  function SortAscending(s: seq<int>): (r: seq<int>)
    requires Distinct(s)
    ensures Increasing(r)
    ensures multiset(r) == multiset(s)
    decreases |s|
  {
    if s == [] then []
    else
      assert s == [s[0]] + s[1..];
      var t := SortAscending(s[1..]);
      assert s[0] !in t by {
        assert s[0] !in s[1..];
        assert forall y :: y in t <==> y in multiset(s[1..]);
      }
      Insert(s[0], t)
  }

  /** `sortedDates`: every day of the planning exactly once, earliest first. */
  function SortedDates(days: seq<DayGroup>): (r: seq<int>)
    requires Distinct(DayKeys(days))
    ensures Increasing(r)
    ensures forall d :: d in r <==> IndexOfDay(days, d) >= 0
  {
    var r := SortAscending(DayKeys(days));
    assert forall d :: d in r <==> d in multiset(DayKeys(days));
    r
  }

  /** The days the reduce builds carry distinct keys, so they can be sorted. */
  lemma DayGroupsDistinct(events: seq<Rdv>, dayOf: Rdv -> int, labelOf: Rdv -> string)
    ensures Distinct(DayKeys(DayGroups(events, dayOf, labelOf)))
  {
    GroupedIsGrouping(events, dayOf, Itself);
  }

  /** Every appointment is listed under its own day, in input order within the
      day, and each day's caption is the label of that day's first appointment. */
  lemma PlanningIsByDay(events: seq<Rdv>, dayOf: Rdv -> int, labelOf: Rdv -> string, d: int)
    requires exists i :: 0 <= i < |events| && dayOf(events[i]) == d
    ensures var days := DayGroups(events, dayOf, labelOf);
      var g := IndexOfDay(days, d);
      0 <= g
      && days[g].events == Matching(events, dayOf, Itself, d)
      && exists i :: 0 <= i < |events| && dayOf(events[i]) == d && days[g].caption == labelOf(events[i])
           && forall j :: 0 <= j < i ==> dayOf(events[j]) != d
  {
    var days := DayGroups(events, dayOf, labelOf);
    var gs := Grouped(events, dayOf, Itself);
    GroupedIsGrouping(events, dayOf, Itself);
    var i :| 0 <= i < |events| && dayOf(events[i]) == d;
    MatchingHasItem(events, dayOf, Itself, i);
    var g := IndexOfKey(gs, d);
    assert 0 <= g;
    assert IndexOfDay(days, d) == g by {
      assert forall j :: 0 <= j < |days| ==> days[j].day == gs[j].key;
    }
    MatchingFirst(events, dayOf, Itself, d);
  }
}
