// Advancing a schedule in two steps gives the pool of one step.
module ScheduleComposition {
  import opened Common
  import opened Planner
  import opened Schedule

  function Filter(d: Snaps, q: SnapshotInfo -> bool): (r: Snaps)
    ensures forall x :: x in r <==> x in d && q(x)
  {
    if d == [] then []
    else
      assert d == [d[0]] + d[1..];
      (if q(d[0]) then [d[0]] else []) + Filter(d[1..], q)
  }

  lemma FilterCons(d: Snaps, q: SnapshotInfo -> bool)
    requires d != []
    ensures q(d[0]) ==> Filter(d, q) == [d[0]] + Filter(d[1..], q)
    ensures !q(d[0]) ==> Filter(d, q) == Filter(d[1..], q)
  {
  }

  lemma {:induction false} FilterAppend(a: Snaps, b: Snaps, q: SnapshotInfo -> bool)
    ensures Filter(a + b, q) == Filter(a, q) + Filter(b, q)
  {
    if a == [] {
      assert a + b == b;
    } else {
      assert (a + b)[0] == a[0] && (a + b)[1..] == a[1..] + b;
      FilterAppend(a[1..], b, q);
    }
  }

  lemma {:induction false} FilterAll(d: Snaps, q: SnapshotInfo -> bool)
    requires forall x :: x in d ==> q(x)
    ensures Filter(d, q) == d
  {
    if d != [] {
      assert d == [d[0]] + d[1..];
      FilterAll(d[1..], q);
    }
  }

  lemma {:induction false} FilterNone(d: Snaps, q: SnapshotInfo -> bool)
    requires forall x :: x in d ==> !q(x)
    ensures Filter(d, q) == []
  {
    if d != [] {
      assert d == [d[0]] + d[1..];
      FilterNone(d[1..], q);
    }
  }

  // ---- Sorting ----

  // Inserting and sorting keep the order of what they tie, so both commute with a filter.
  lemma {:induction false} InsertFilter(x: SnapshotInfo, d: Snaps, q: SnapshotInfo -> bool)
    requires SnapsNewestFirst(d)
    ensures Filter(InsertNewest(x, d), q) == if q(x) then InsertNewest(x, Filter(d, q)) else Filter(d, q)
  {
    hide Filter;
    var r := InsertNewest(x, d);
    if d != [] && d[0].time > x.time {
      assert r[0] == d[0] && r[1..] == InsertNewest(x, d[1..]);
      InsertFilter(x, d[1..], q);
      FilterCons(r, q);
      FilterCons(d, q);
      InsertBehind(x, d[0], Filter(d[1..], q));
    } else {
      assert r[0] == x && r[1..] == d;
      FilterCons(r, q);
      InsertInFront(x, Filter(d, q), d);
    }
  }

  lemma InsertBehind(x: SnapshotInfo, y: SnapshotInfo, d: Snaps)
    requires y.time > x.time
    ensures InsertNewest(x, [y] + d) == [y] + InsertNewest(x, d)
  {
    assert ([y] + d)[1..] == d;
  }

  lemma InsertInFront(x: SnapshotInfo, part: Snaps, d: Snaps)
    requires SnapsNewestFirst(d) && (d == [] || d[0].time <= x.time) && forall y :: y in part ==> y in d
    ensures InsertNewest(x, part) == [x] + part
  {
    if part != [] {
      assert part[0] in d;
    }
  }

  lemma SortCons(x: SnapshotInfo, d: Snaps)
    ensures SortNewest([x] + d) == InsertNewest(x, SortNewest(d))
  {
    assert ([x] + d)[1..] == d;
  }

  lemma {:induction false} SortFilter(d: Snaps, q: SnapshotInfo -> bool)
    ensures SortNewest(Filter(d, q)) == Filter(SortNewest(d), q)
  {
    if d != [] {
      hide Filter, InsertNewest, SortNewest;
      SortFilter(d[1..], q);
      SortSorted(d[1..]);
      InsertFilter(d[0], SortNewest(d[1..]), q);
      FilterCons(d, q);
      SortCons(d[0], Filter(d[1..], q));
      SortCons(d[0], d[1..]);
      assert d == [d[0]] + d[1..];
    }
  }

  lemma {:induction false} SortedStays(d: Snaps)
    requires SnapsNewestFirst(d)
    ensures SortNewest(d) == d
  {
    if d != [] {
      SortedStays(d[1..]);
      assert d == [d[0]] + d[1..];
    }
  }

  function AtTime(t: int): (q: SnapshotInfo -> bool) {
    (x: SnapshotInfo) => x.time == t
  }

  // A newest-first list is determined by what it holds at each time, in order.
  lemma {:induction false} SameAtEachTime(a: Snaps, b: Snaps)
    requires SnapsNewestFirst(a) && SnapsNewestFirst(b) && forall t: int :: Filter(a, AtTime(t)) == Filter(b, AtTime(t))
    ensures a == b
  {
    if a == [] {
      assert b != [] ==> Filter(a, AtTime(b[0].time)) == Filter(b, AtTime(b[0].time));
    } else {
      hide Filter;
      assert b != [] by {
        assert a[0] in Filter(a, AtTime(a[0].time));
        assert Filter(b, AtTime(a[0].time)) == Filter(a, AtTime(a[0].time));
      }
      SameHead(a, b);
      forall t: int
        ensures Filter(a[1..], AtTime(t)) == Filter(b[1..], AtTime(t))
      {
        SameTail(a, b, t);
      }
      SameAtEachTime(a[1..], b[1..]);
      assert a == [a[0]] + a[1..] && b == [b[0]] + b[1..];
    }
  }

  lemma SameTail(a: Snaps, b: Snaps, t: int)
    requires a != [] && b != [] && a[0] == b[0] && Filter(a, AtTime(t)) == Filter(b, AtTime(t))
    ensures Filter(a[1..], AtTime(t)) == Filter(b[1..], AtTime(t))
  {
    hide Filter;
    FilterCons(a, AtTime(t));
    FilterCons(b, AtTime(t));
    if a[0].time == t {
      assert Filter(a[1..], AtTime(t)) == Filter(a, AtTime(t))[1..];
      assert Filter(b[1..], AtTime(t)) == Filter(b, AtTime(t))[1..];
    }
  }

  lemma SameHead(a: Snaps, b: Snaps)
    requires a != [] && b != [] && SnapsNewestFirst(a) && SnapsNewestFirst(b)
    requires forall t: int :: Filter(a, AtTime(t)) == Filter(b, AtTime(t))
    ensures a[0] == b[0]
  {
    hide Filter, SnapsNewestFirst;
    var s, t := a[0].time, b[0].time;
    FilterCons(a, AtTime(s));
    FilterCons(b, AtTime(s));
    assert Filter(a, AtTime(s)) == Filter(b, AtTime(s)) && Filter(a, AtTime(t)) == Filter(b, AtTime(t));
    assert a[0] in Filter(a, AtTime(s)) && b[0] in Filter(b, AtTime(t));
    NoneNewer(a, b[0]);
    NoneNewer(b, a[0]);
    assert Filter(a, AtTime(s))[0] == a[0] && Filter(b, AtTime(s))[0] == b[0];
  }

  lemma NoneNewer(d: Snaps, x: SnapshotInfo)
    requires SnapsNewestFirst(d) && x in d
    ensures x.time <= d[0].time
  {
    var i :| 0 <= i < |d| && d[i] == x;
  }

  // A stable sort keeps what it holds at each time in order.
  lemma SortAtTime(d: Snaps, t: int)
    ensures Filter(SortNewest(d), AtTime(t)) == Filter(d, AtTime(t))
  {
    hide Filter, SortNewest;
    SortFilter(d, AtTime(t));
    TiedInOrder(Filter(d, AtTime(t)), t);
    SortedStays(Filter(d, AtTime(t)));
  }

  lemma TiedInOrder(d: Snaps, t: int)
    requires forall x :: x in d ==> x.time == t
    ensures SnapsNewestFirst(d)
  {
    assert forall i :: 0 <= i < |d| ==> d[i] in d;
  }

  predicate Apart(a: Snaps, b: Snaps) {
    forall x, y :: x in a && y in b ==> x.time != y.time
  }

  // Sorting in two steps is sorting in one, when the two additions share no time.
  lemma SortInSteps(s: Snaps, a: Snaps, b: Snaps)
    requires Apart(a, b)
    ensures SortNewest(SortNewest(s + a) + b) == SortNewest(s + (b + a))
  {
    hide Filter, SortNewest, SnapsNewestFirst;
    SortSorted(SortNewest(s + a) + b);
    SortSorted(s + (b + a));
    forall t: int
      ensures Filter(SortNewest(SortNewest(s + a) + b), AtTime(t)) == Filter(SortNewest(s + (b + a)), AtTime(t))
    {
      StepsAtTime(s, a, b, t);
    }
    SameAtEachTime(SortNewest(SortNewest(s + a) + b), SortNewest(s + (b + a)));
  }

  lemma StepsAtTime(s: Snaps, a: Snaps, b: Snaps, t: int)
    requires Apart(a, b)
    ensures Filter(SortNewest(SortNewest(s + a) + b), AtTime(t)) == Filter(SortNewest(s + (b + a)), AtTime(t))
  {
    hide Filter, SortNewest;
    var q := AtTime(t);
    SortAtTime(SortNewest(s + a) + b, t);
    SortAtTime(s + a, t);
    SortAtTime(s + (b + a), t);
    FilterAppend(SortNewest(s + a), b, q);
    FilterAppend(s, a, q);
    FilterAppend(s, b + a, q);
    FilterAppend(b, a, q);
    OneIsEmpty(a, b, t);
    assert (Filter(s, q) + Filter(a, q)) + Filter(b, q) == Filter(s, q) + (Filter(b, q) + Filter(a, q));
  }

  lemma OneIsEmpty(a: Snaps, b: Snaps, t: int)
    requires Apart(a, b)
    ensures Filter(a, AtTime(t)) == [] || Filter(b, AtTime(t)) == []
  {
    hide Filter;
    var x, y := Filter(a, AtTime(t)), Filter(b, AtTime(t));
    assert x != [] ==> x[0] in x;
    assert y != [] ==> y[0] in y;
  }

  // ---- What is taken ----

  function PeriodsDue(s: Policy, order: seq<Period>, t: int): (r: seq<Period>) {
    if order == [] then []
    else
      var p := order[|order| - 1];
      PeriodsDue(s, order[..|order| - 1], t) + if p.keep > 0 && s.boundary(p.name, t) then [p] else []
  }

  function DueAt(s: Policy, t: int): (r: Snaps) {
    SnapsOf(s, PeriodsDue(s, s.tieOrder, t), t)
  }

  // What is found at the boundaries in (from, to], newest first, each time's in tie order.
  function Taken(s: Policy, from: int, to: int): (r: Snaps)
    decreases if to > from then to - from else 0
  {
    if to <= from then [] else DueAt(s, to) + Taken(s, from, to - 1)
  }

  lemma {:induction false} TakenSplits(s: Policy, a: int, b: int, c: int)
    requires a <= b <= c
    ensures Taken(s, a, c) == Taken(s, b, c) + Taken(s, a, b)
    decreases c - b
  {
    if c > b {
      TakenSplits(s, a, b, c - 1);
    }
  }

  // ---- Boundaries and their windows ----

  predicate Due(s: Policy, t: int) {
    PeriodsDue(s, s.tieOrder, t) != []
  }

  // The times at which snapshots of a boundary can be created.
  predicate InWindow(s: Policy, t: int, x: int) {
    t + s.delay <= x <= t + s.delay + |s.tieOrder| * s.gap
  }

  // Boundaries are further apart than the snapshots of one.
  ghost predicate Spread(s: Policy) {
    forall t, u :: t < u && Due(s, t) && Due(s, u) ==> t + |s.tieOrder| * s.gap < u
  }

  // Without a gap they always are.
  lemma NoGapSpreads(s: Policy)
    requires s.gap == 0
    ensures Spread(s)
  {
    hide Due;
    assert |s.tieOrder| * s.gap == 0;
  }

  lemma OneWindow(s: Policy, t: int, u: int, x: int)
    requires Spread(s) && Due(s, t) && Due(s, u) && InWindow(s, t, x) && InWindow(s, u, x)
    ensures t == u
  {
    hide Due;
  }

  lemma {:induction false} FewDue(s: Policy, order: seq<Period>, t: int)
    ensures |PeriodsDue(s, order, t)| <= |order|
  {
    if order != [] {
      FewDue(s, order[..|order| - 1], t);
    }
  }

  lemma CreatedInWindow(s: Policy, n: nat, i: nat, t: int)
    requires i < n <= |s.tieOrder|
    ensures InWindow(s, t, CreatedAt(s, n, i, t))
  {
    var k := n - 1 - i;
    assert 0 <= k * s.gap <= |s.tieOrder| * s.gap;
  }

  lemma SnapsInWindow(s: Policy, periods: seq<Period>, t: int)
    requires |periods| <= |s.tieOrder|
    ensures forall x :: x in SnapsOf(s, periods, t) ==> InWindow(s, t, x.time)
  {
    hide InWindow, CreatedAt;
    var d := SnapsOf(s, periods, t);
    forall x | x in d
      ensures InWindow(s, t, x.time)
    {
      var i :| 0 <= i < |d| && d[i] == x;
      CreatedInWindow(s, |periods|, i, t);
    }
  }

  lemma SnapsInOrder(s: Policy, periods: seq<Period>, t: int)
    ensures SnapsNewestFirst(SnapsOf(s, periods, t))
  {
    var d := SnapsOf(s, periods, t);
    forall i, j | 0 <= i < j < |d|
      ensures d[i].time >= d[j].time
    {
      LaterIsOlder(s, |periods|, i, j, t);
    }
  }

  lemma LaterIsOlder(s: Policy, n: nat, i: nat, j: nat, t: int)
    requires i < j < n
    ensures CreatedAt(s, n, i, t) >= CreatedAt(s, n, j, t)
  {
    assert (n - 1 - i) * s.gap >= (n - 1 - j) * s.gap;
  }

  lemma DueTimes(s: Policy, t: int)
    ensures forall x :: x in DueAt(s, t) ==> Due(s, t) && InWindow(s, t, x.time)
  {
    hide InWindow, CreatedAt;
    FewDue(s, s.tieOrder, t);
    SnapsInWindow(s, PeriodsDue(s, s.tieOrder, t), t);
  }

  // What is taken is created in the window of a boundary.
  predicate TakenFrom(s: Policy, from: int, to: int, x: SnapshotInfo) {
    exists t :: from < t <= to && Due(s, t) && InWindow(s, t, x.time)
  }

  lemma {:induction false} TakenTimes(s: Policy, from: int, to: int)
    ensures forall x :: x in Taken(s, from, to) ==> TakenFrom(s, from, to, x)
    decreases if to > from then to - from else 0
  {
    hide DueAt, InWindow, Due;
    if to > from {
      DueTimes(s, to);
      TakenTimes(s, from, to - 1);
      forall x | x in Taken(s, from, to)
        ensures TakenFrom(s, from, to, x)
      {
        if x !in DueAt(s, to) {
          assert TakenFrom(s, from, to - 1, x);
        }
      }
    }
  }

  // What an earlier boundary takes is older than what a later one takes.
  lemma EarlierIsOlder(s: Policy, t: int, u: int, x: int, y: int)
    requires Spread(s) && t < u && Due(s, t) && Due(s, u) && InWindow(s, t, x) && InWindow(s, u, y)
    ensures x < y
  {
    hide Due;
  }

  lemma {:induction false} TakenInOrder(s: Policy, from: int, to: int)
    requires Spread(s)
    ensures SnapsNewestFirst(Taken(s, from, to))
    decreases if to > from then to - from else 0
  {
    hide DueAt, InWindow, Due, Spread, SnapsNewestFirst;
    if to > from {
      TakenInOrder(s, from, to - 1);
      DueInOrder(s, to);
      var due, rest := DueAt(s, to), Taken(s, from, to - 1);
      DueTimes(s, to);
      TakenTimes(s, from, to - 1);
      forall x, y | x in due && y in rest
        ensures x.time >= y.time
      {
        assert TakenFrom(s, from, to - 1, y);
        var t :| from < t <= to - 1 && Due(s, t) && InWindow(s, t, y.time);
        EarlierIsOlder(s, t, to, y.time, x.time);
      }
      AppendInOrder(due, rest);
    } else {
      NoneInOrder();
    }
  }

  lemma NoneInOrder()
    ensures SnapsNewestFirst([])
  {
  }

  lemma DueInOrder(s: Policy, t: int)
    ensures SnapsNewestFirst(DueAt(s, t))
  {
    hide SnapsNewestFirst;
    SnapsInOrder(s, PeriodsDue(s, s.tieOrder, t), t);
  }

  lemma AppendInOrder(a: Snaps, b: Snaps)
    requires SnapsNewestFirst(a) && SnapsNewestFirst(b) && forall x, y :: x in a && y in b ==> x.time >= y.time
    ensures SnapsNewestFirst(a + b)
  {
    var all := a + b;
    forall i, j | 0 <= i < j < |all|
      ensures all[i].time >= all[j].time
    {
      assert all[i] == if i < |a| then a[i] else b[i - |a|];
      assert all[j] == if j < |a| then a[j] else b[j - |a|];
      assert i < |a| ==> a[i] in a;
      assert j >= |a| ==> b[j - |a|] in b;
    }
  }

  // Only boundary t can take anything at time x.
  ghost predicate OnlyWindow(s: Policy, t: int, x: int) {
    forall u :: Due(s, u) && InWindow(s, u, x) ==> u == t
  }

  lemma NotThen(d: Snaps, x: int)
    requires forall y :: y in d ==> y.time != x
    ensures Filter(d, AtTime(x)) == []
  {
    FilterNone(d, AtTime(x));
  }

  lemma {:induction false} TakenAtTime(s: Policy, from: int, to: int, t: int, x: int)
    requires OnlyWindow(s, t, x)
    ensures Filter(Taken(s, from, to), AtTime(x)) == if from < t <= to then Filter(DueAt(s, t), AtTime(x)) else []
    decreases if to > from then to - from else 0
  {
    hide DueAt, Filter, InWindow, Due;
    var q := AtTime(x);
    if to > from {
      var due, rest := DueAt(s, to), Taken(s, from, to - 1);
      FilterAppend(due, rest, q);
      TakenAtTime(s, from, to - 1, t, x);
      if t == to {
        assert Filter(due, q) + [] == Filter(due, q);
      } else {
        DueTimes(s, to);
        NotThen(due, x);
        assert [] + Filter(rest, q) == Filter(rest, q);
      }
    } else {
      FilterNone([], q);
    }
  }

  // ---- The groups hold the same ----

  function PeriodsIn(groups: seq<Group>, t: int): (r: seq<Period>) {
    if groups == [] then [] else if groups[0].at == t then groups[0].periods else PeriodsIn(groups[1..], t)
  }

  predicate DistinctTimes(groups: seq<Group>) {
    forall i, j :: 0 <= i < j < |groups| ==> groups[i].at != groups[j].at
  }

  predicate HasTime(groups: seq<Group>, t: int) {
    exists i :: 0 <= i < |groups| && groups[i].at == t
  }

  lemma {:induction false} AddDueTimes(groups: seq<Group>, p: Period, t: int)
    requires DistinctTimes(groups)
    ensures DistinctTimes(AddDue(groups, p, t))
    ensures forall u :: HasTime(AddDue(groups, p, t), u) ==> HasTime(groups, u) || u == t
  {
    var more := AddDue(groups, p, t);
    if i :| 0 <= i < |groups| && groups[i].at == t {
      AddDueAt(groups, p, t, i);
      assert forall k :: 0 <= k < |groups| ==> more[k].at == groups[k].at;
    } else {
      AddDueNew(groups, p, t);
      assert forall k :: 0 <= k < |groups| ==> more[k] == groups[k];
    }
  }

  lemma {:induction false} AddDuePeriods(groups: seq<Group>, p: Period, t: int, u: int)
    ensures PeriodsIn(AddDue(groups, p, t), u) == PeriodsIn(groups, u) + if u == t then [p] else []
  {
    if groups == [] {
      assert [Group(t, [p])][1..] == [];
    } else if groups[0].at == t {
      assert ([Group(t, groups[0].periods + [p])] + groups[1..])[1..] == groups[1..];
    } else {
      AddDuePeriods(groups[1..], p, t, u);
      assert ([groups[0]] + AddDue(groups[1..], p, t))[1..] == AddDue(groups[1..], p, t);
    }
  }

  lemma {:induction false} AddAllPeriods(groups: seq<Group>, p: Period, times: seq<int>, u: int)
    requires DistinctTimes(groups) && forall i, j :: 0 <= i < j < |times| ==> times[i] < times[j]
    ensures DistinctTimes(AddAll(groups, p, times))
    ensures PeriodsIn(AddAll(groups, p, times), u) == PeriodsIn(groups, u) + if u in times then [p] else []
    decreases |times|
  {
    if times != [] {
      var init, last := times[..|times| - 1], times[|times| - 1];
      AddAllPeriods(groups, p, init, u);
      AddDueTimes(AddAll(groups, p, init), p, last);
      AddDuePeriods(AddAll(groups, p, init), p, last, u);
      assert times == init + [last];
      assert last !in init;
    }
  }

  lemma {:induction false} CollectPeriods(s: Policy, order: seq<Period>, from: int, to: int, u: int)
    ensures DistinctTimes(Collect(s, order, Some(from), to))
    ensures PeriodsIn(Collect(s, order, Some(from), to), u) == if from < u <= to then PeriodsDue(s, order, u) else []
    decreases |order|
  {
    if order != [] {
      var init, p := order[..|order| - 1], order[|order| - 1];
      CollectPeriods(s, init, from, to, u);
      AddAllPeriods(Collect(s, init, Some(from), to), p, TimesIn(s, p, Some(from), to), u);
    }
  }

  predicate NoneIdle(groups: seq<Group>) {
    forall i :: 0 <= i < |groups| ==> groups[i].periods != []
  }

  lemma {:induction false} AddDueBusy(groups: seq<Group>, p: Period, t: int)
    requires NoneIdle(groups)
    ensures NoneIdle(AddDue(groups, p, t))
  {
    if groups != [] && groups[0].at != t {
      AddDueBusy(groups[1..], p, t);
    }
  }

  lemma {:induction false} AddAllBusy(groups: seq<Group>, p: Period, times: seq<int>)
    requires NoneIdle(groups)
    ensures NoneIdle(AddAll(groups, p, times))
    decreases |times|
  {
    hide NoneIdle;
    if times != [] {
      AddAllBusy(groups, p, times[..|times| - 1]);
      AddDueBusy(AddAll(groups, p, times[..|times| - 1]), p, times[|times| - 1]);
    }
  }

  lemma {:induction false} CollectBusy(s: Policy, order: seq<Period>, from: Option<int>, to: int)
    ensures NoneIdle(Collect(s, order, from, to))
    decreases |order|
  {
    hide TimesIn;
    if order != [] {
      var init, p := order[..|order| - 1], order[|order| - 1];
      CollectBusy(s, init, from, to);
      AddAllBusy(Collect(s, init, from, to), p, TimesIn(s, p, from, to));
    }
  }

  lemma {:induction false} PeriodsOfGroup(groups: seq<Group>, i: nat)
    requires DistinctTimes(groups) && i < |groups|
    ensures PeriodsIn(groups, groups[i].at) == groups[i].periods
  {
    if i > 0 {
      PeriodsOfGroup(groups[1..], i - 1);
    }
  }

  // Every group collected is a boundary, with what is due then.
  lemma GroupIsDue(s: Policy, from: int, to: int, i: nat)
    requires i < |Collect(s, s.tieOrder, Some(from), to)|
    ensures var g := Collect(s, s.tieOrder, Some(from), to)[i]; Due(s, g.at) && |g.periods| <= |s.tieOrder|
  {
    hide Collect;
    var groups := Collect(s, s.tieOrder, Some(from), to);
    CollectPeriods(s, s.tieOrder, from, to, groups[i].at);
    CollectBusy(s, s.tieOrder, Some(from), to);
    PeriodsOfGroup(groups, i);
    FewDue(s, s.tieOrder, groups[i].at);
  }

  predicate AllDue(s: Policy, groups: seq<Group>) {
    forall i :: 0 <= i < |groups| ==> Due(s, groups[i].at) && |groups[i].periods| <= |s.tieOrder|
  }

  lemma {:induction false} FlattenAtTime(s: Policy, groups: seq<Group>, t: int, x: int)
    requires DistinctTimes(groups) && AllDue(s, groups) && OnlyWindow(s, t, x)
    ensures Filter(Flatten(s, groups), AtTime(x)) == Filter(SnapsOf(s, PeriodsIn(groups, t), t), AtTime(x))
  {
    hide Filter, InWindow, Due, SnapsOf;
    var q := AtTime(x);
    if groups == [] {
      NothingDue(s, t, x);
    } else {
      var first, rest := SnapsOf(s, groups[0].periods, groups[0].at), Flatten(s, groups[1..]);
      FilterAppend(first, rest, q);
      FlattenAtTime(s, groups[1..], t, x);
      if groups[0].at == t {
        NoPeriods(groups[1..], t);
        NothingDue(s, t, x);
        assert Filter(first, q) + [] == Filter(first, q);
      } else {
        SnapsInWindow(s, groups[0].periods, groups[0].at);
        NotThen(first, x);
        assert [] + Filter(rest, q) == Filter(rest, q);
      }
    }
  }

  lemma NothingDue(s: Policy, t: int, x: int)
    ensures Filter(SnapsOf(s, [], t), AtTime(x)) == []
    ensures Filter([], AtTime(x)) == []
  {
    assert SnapsOf(s, [], t) == [];
  }

  lemma {:induction false} NoPeriods(groups: seq<Group>, t: int)
    requires forall i :: 0 <= i < |groups| ==> groups[i].at != t
    ensures PeriodsIn(groups, t) == []
  {
    if groups != [] {
      NoPeriods(groups[1..], t);
    }
  }

  // The boundary whose window x is in, if any.
  lemma WindowOf(s: Policy, x: int, none: int) returns (t: int)
    requires Spread(s)
    ensures OnlyWindow(s, t, x)
    ensures t == none || (Due(s, t) && InWindow(s, t, x))
  {
    hide InWindow, Due, Spread;
    if u :| Due(s, u) && InWindow(s, u, x) {
      t := u;
      forall v | Due(s, v) && InWindow(s, v, x)
        ensures v == t
      {
        OneWindow(s, v, t, x);
      }
    } else {
      t := none;
    }
  }

  // Sorting what was found gives what was taken, in order.
  lemma FoundIsTaken(s: Policy, from: int, to: int)
    requires Spread(s)
    ensures SortNewest(Found(s, Some(from), to)) == Taken(s, from, to)
  {
    hide Filter, SortNewest, Taken, Collect, Flatten, SnapsNewestFirst, Spread;
    var found := Found(s, Some(from), to);
    SortSorted(found);
    TakenInOrder(s, from, to);
    forall x: int
      ensures Filter(SortNewest(found), AtTime(x)) == Filter(Taken(s, from, to), AtTime(x))
    {
      FoundAtTime(s, from, to, x);
    }
    SameAtEachTime(SortNewest(found), Taken(s, from, to));
  }

  lemma FoundAtTime(s: Policy, from: int, to: int, x: int)
    requires Spread(s)
    ensures Filter(SortNewest(Found(s, Some(from), to)), AtTime(x)) == Filter(Taken(s, from, to), AtTime(x))
  {
    hide Filter, SortNewest, Taken, Collect, Flatten, Spread, OnlyWindow, SnapsOf, InWindow, Due;
    var groups := Collect(s, s.tieOrder, Some(from), to);
    var t := WindowOf(s, x, from);
    SortAtTime(Found(s, Some(from), to), x);
    forall i | 0 <= i < |groups|
      ensures Due(s, groups[i].at) && |groups[i].periods| <= |s.tieOrder|
    {
      GroupIsDue(s, from, to, i);
    }
    CollectPeriods(s, s.tieOrder, from, to, t);
    FlattenAtTime(s, groups, t, x);
    TakenAtTime(s, from, to, t, x);
    NothingDue(s, t, x);
  }

  lemma {:induction false} AllNewNames(d: Snaps, names: set<string>)
    requires DistinctNames(d) && forall x :: x in d ==> x.name !in names
    ensures FirstOfName(d, names) == d
    decreases |d|
  {
    if d != [] {
      assert d == [d[0]] + d[1..];
      forall x | x in d[1..]
        ensures x.name !in names + {d[0].name}
      {
        var i :| 0 <= i < |d[1..]| && d[1..][i] == x;
        assert d[i + 1] == x;
      }
      AllNewNames(d[1..], names + {d[0].name});
    }
  }

  // ---- What pruning drops ----

  function GoneAfter(newer: Snaps, d: Snaps, periods: seq<Period>, now: int): (r: set<SnapshotInfo>)
    decreases |d|
  {
    if d == [] then {}
    else (if Doomed(newer, d[0], periods, now) then {d[0]} else {}) + GoneAfter(newer + [d[0]], d[1..], periods, now)
  }

  function NotIn(gone: set<SnapshotInfo>): (q: SnapshotInfo -> bool) {
    (x: SnapshotInfo) => x !in gone
  }

  lemma {:induction false} GoneFrom(newer: Snaps, d: Snaps, periods: seq<Period>, now: int, x: SnapshotInfo)
    requires x in GoneAfter(newer, d, periods, now)
    ensures exists j :: 0 <= j < |d| && d[j] == x && Doomed(newer + d[..j], x, periods, now)
    decreases |d|
  {
    hide Doomed;
    if Doomed(newer, d[0], periods, now) && x == d[0] {
      assert newer + d[..0] == newer;
    } else {
      GoneFrom(newer + [d[0]], d[1..], periods, now, x);
      var j :| 0 <= j < |d[1..]| && d[1..][j] == x && Doomed(newer + [d[0]] + d[1..][..j], x, periods, now);
      assert newer + [d[0]] + d[1..][..j] == newer + d[..j + 1];
      assert d[j + 1] == x;
    }
  }

  lemma {:induction false} FilterAgrees(d: Snaps, p: SnapshotInfo -> bool, q: SnapshotInfo -> bool)
    requires forall x :: x in d ==> p(x) == q(x)
    ensures Filter(d, p) == Filter(d, q)
  {
    if d != [] {
      assert d == [d[0]] + d[1..];
      FilterAgrees(d[1..], p, q);
    }
  }

  // Pruning is dropping a set of snapshots.
  lemma {:induction false} PruneIsFilter(newer: Snaps, d: Snaps, periods: seq<Period>, now: int)
    requires DistinctNames(d)
    ensures PruneAfter(newer, d, periods, now) == Filter(d, NotIn(GoneAfter(newer, d, periods, now)))
    decreases |d|
  {
    hide Doomed, Filter;
    if d != [] {
      var rest, gone := GoneAfter(newer + [d[0]], d[1..], periods, now), GoneAfter(newer, d, periods, now);
      PruneIsFilter(newer + [d[0]], d[1..], periods, now);
      FilterCons(d, NotIn(gone));
      HeadStays(newer + [d[0]], d, periods, now);
      TailsLackHead(d);
      FilterAgrees(d[1..], NotIn(gone), NotIn(rest));
    } else {
      FilterNone(d, NotIn({}));
    }
  }

  lemma TailsLackHead(d: Snaps)
    requires DistinctNames(d) && d != []
    ensures d[0] !in d[1..]
  {
    forall i | 0 <= i < |d[1..]|
      ensures d[1..][i] != d[0]
    {
      assert d[1..][i] == d[i + 1];
    }
  }

  lemma HeadStays(newer: Snaps, d: Snaps, periods: seq<Period>, now: int)
    requires DistinctNames(d) && d != []
    ensures d[0] !in GoneAfter(newer, d[1..], periods, now)
  {
    if d[0] in GoneAfter(newer, d[1..], periods, now) {
      GoneFrom(newer, d[1..], periods, now, d[0]);
      TailsLackHead(d);
      assert false;
    }
  }

  lemma {:induction false} DoomedIsGone(newer: Snaps, d: Snaps, periods: seq<Period>, now: int, i: nat)
    requires i < |d| && Doomed(newer + d[..i], d[i], periods, now)
    ensures d[i] in GoneAfter(newer, d, periods, now)
    decreases |d|
  {
    hide Doomed;
    if i == 0 {
      assert newer + d[..0] == newer;
    } else {
      assert newer + [d[0]] + d[1..][..i - 1] == newer + d[..i];
      DoomedIsGone(newer + [d[0]], d[1..], periods, now, i - 1);
    }
  }

  // A snapshot stays exactly when, for each period it is of, it is among the keep newest or has not
  // expired.
  lemma PruneKeepsExactly(d: Snaps, periods: seq<Period>, now: int, i: nat)
    requires DistinctNames(d) && i < |d|
    ensures d[i] in Prune(d, periods, now) <==>
      forall p :: p in periods && Mine(d[i], p) ==> Count(d[..i], p) < p.keep || !Expired(d[i], p, now)
  {
    hide GoneAfter, PruneAfter, Count, Mine, Expired;
    PruneIsFilter([], d, periods, now);
    assert [] + d[..i] == d[..i];
    if Doomed(d[..i], d[i], periods, now) {
      DoomedIsGone([], d, periods, now, i);
    } else if d[i] in GoneAfter([], d, periods, now) {
      GoneFrom([], d, periods, now, d[i]);
    }
  }

  // ---- Pruning without what was pruned before ----

  predicate OnePeriod(d: Snaps, periods: seq<Period>) {
    forall x, p, q :: x in d && p in periods && q in periods && Mine(x, p) && Mine(x, q) ==> p == q
  }

  predicate SameOrFull(a: nat, b: nat, p: Period) {
    a == b || (a >= p.keep && b >= p.keep)
  }

  predicate CountsAlike(a: Snaps, b: Snaps, periods: seq<Period>) {
    forall p :: p in periods ==> SameOrFull(Count(a, p), Count(b, p), p)
  }

  lemma CountMore(d: Snaps, x: SnapshotInfo, p: Period)
    ensures Count(d + [x], p) == Count(d, p) + if Mine(x, p) then 1 else 0
  {
    assert (d + [x])[..|d|] == d;
  }

  lemma BothCount(a: Snaps, b: Snaps, x: SnapshotInfo, periods: seq<Period>)
    requires CountsAlike(a, b, periods)
    ensures CountsAlike(a + [x], b + [x], periods)
  {
    hide Count, Mine;
    forall p | p in periods
      ensures SameOrFull(Count(a + [x], p), Count(b + [x], p), p)
    {
      CountMore(a, x, p);
      CountMore(b, x, p);
      assert SameOrFull(Count(a, p), Count(b, p), p);
    }
  }

  lemma DoomedCounts(a: Snaps, b: Snaps, x: SnapshotInfo, periods: seq<Period>, now: int)
    requires CountsAlike(a, b, periods) && OnePeriod([x], periods) && Doomed(b, x, periods, now)
    ensures CountsAlike(a, b + [x], periods)
  {
    hide Count, Mine;
    assert x in [x];
    forall p | p in periods
      ensures SameOrFull(Count(a, p), Count(b + [x], p), p)
    {
      CountMore(b, x, p);
      assert SameOrFull(Count(a, p), Count(b, p), p);
    }
  }

  lemma DoomedAlike(a: Snaps, b: Snaps, x: SnapshotInfo, periods: seq<Period>, now: int)
    requires CountsAlike(a, b, periods)
    ensures Doomed(a, x, periods, now) <==> Doomed(b, x, periods, now)
  {
    hide Count, Mine, Expired;
    assert forall p :: p in periods ==> SameOrFull(Count(a, p), Count(b, p), p);
  }

  // Leaving out snapshots that would be dropped anyway drops the same rest.
  lemma {:induction false} PruneWithout(
    a: Snaps, b: Snaps, d: Snaps, gone: set<SnapshotInfo>, periods: seq<Period>, now: int)
    requires CountsAlike(a, b, periods) && OnePeriod(d, periods)
    requires forall i :: 0 <= i < |d| && d[i] in gone ==> Doomed(b + d[..i], d[i], periods, now)
    ensures PruneAfter(a, Filter(d, NotIn(gone)), periods, now) == PruneAfter(b, d, periods, now)
    decreases |d|
  {
    hide Doomed, Filter, CountsAlike, Mine;
    if d == [] {
      FilterNone(d, NotIn(gone));
    } else {
      var x, rest, q := d[0], d[1..], NotIn(gone);
      FilterCons(d, q);
      forall i | 0 <= i < |rest| && rest[i] in gone
        ensures Doomed(b + [x] + rest[..i], rest[i], periods, now)
      {
        assert b + [x] + rest[..i] == b + d[..i + 1] && d[i + 1] == rest[i];
      }
      assert b + d[..0] == b && x in d;
      if x in gone {
        DoomedCounts(a, b, x, periods, now);
        PruneWithout(a, b + [x], rest, gone, periods, now);
      } else {
        BothCount(a, b, x, periods);
        DoomedAlike(a, b, x, periods, now);
        PruneWithout(a + [x], b + [x], rest, gone, periods, now);
        assert ([x] + Filter(rest, q))[1..] == Filter(rest, q);
      }
    }
  }

  // ---- Composition ----

  lemma {:induction false} CountOfPart(d: Snaps, q: SnapshotInfo -> bool, p: Period)
    ensures Count(Filter(d, q), p) <= Count(d, p)
  {
    hide Mine, Filter;
    if d == [] {
      FilterNone(d, q);
    } else {
      var init, last := d[..|d| - 1], d[|d| - 1];
      assert d == init + [last] && [last][1..] == [];
      CountOfPart(init, q, p);
      FilterAppend(init, [last], q);
      FilterCons([last], q);
      FilterNone([], q);
      if q(last) {
        CountMore(Filter(init, q), last, p);
      } else {
        assert Filter(init, q) + [] == Filter(init, q);
      }
    }
  }

  predicate Among(part: Snaps, d: Snaps) {
    forall x :: x in part ==> x in d
  }

  function In(d: Snaps): (q: SnapshotInfo -> bool) {
    (x: SnapshotInfo) => x in d
  }

  // In the merged list, the older pool comes in its own order.
  lemma PoolInOrder(x: Snaps, b: Snaps)
    requires SnapsNewestFirst(x) && forall y :: y in b ==> y !in x
    ensures Filter(SortNewest(x + b), In(x)) == x
  {
    hide Filter, SortNewest, SnapsNewestFirst;
    SortFilter(x + b, In(x));
    FilterAppend(x, b, In(x));
    FilterAll(x, In(x));
    FilterNone(b, In(x));
    assert x + [] == x;
    SortedStays(x);
  }

  lemma UniquePlace(d: Snaps, a: Snaps, x: SnapshotInfo, b: Snaps, j: nat)
    requires DistinctNames(d) && d == a + [x] + b && j < |d| && d[j] == x
    ensures a == d[..j]
  {
    assert d[|a|] == x;
  }

  // What comes before a pool snapshot in the merged list holds what came before it in the pool.
  lemma CountsGrow(z: Snaps, x: Snaps, i: nat, j: nat, p: Period)
    requires Filter(z, In(x)) == x && DistinctNames(x) && i < |z| && j < |x| && z[i] == x[j]
    ensures Count(x[..j], p) <= Count(z[..i], p)
  {
    hide Filter, Count;
    var q := In(x);
    assert z == z[..i] + [z[i]] + z[i + 1..];
    FilterAppend(z[..i] + [z[i]], z[i + 1..], q);
    FilterAppend(z[..i], [z[i]], q);
    FilterAll([z[i]], q);
    UniquePlace(x, Filter(z[..i], q), z[i], Filter(z[i + 1..], q), j);
    CountOfPart(z[..i], q, p);
  }

  lemma LaterDoomed(z: Snaps, x: Snaps, i: nat, j: nat, periods: seq<Period>, now: int, later: int)
    requires Filter(z, In(x)) == x && DistinctNames(x) && i < |z| && j < |x| && z[i] == x[j] && now <= later
    requires Doomed(x[..j], x[j], periods, now)
    ensures Doomed(z[..i], z[i], periods, later)
  {
    hide Filter, Count, Mine;
    var p :| p in periods && Mine(x[j], p) && Count(x[..j], p) >= p.keep && Expired(x[j], p, now);
    CountsGrow(z, x, i, j, p);
    assert Expired(z[i], p, later);
  }

  // Pruning a pool before more is merged in changes nothing, when it is pruned again later.
  lemma PruneBeforeMerge(x: Snaps, b: Snaps, periods: seq<Period>, now: int, later: int)
    requires SnapsNewestFirst(x) && DistinctNames(x) && (forall y :: y in b ==> y !in x) && now <= later
    requires OnePeriod(x + b, periods)
    ensures Prune(SortNewest(Prune(x, periods, now) + b), periods, later) == Prune(SortNewest(x + b), periods, later)
  {
    hide Filter, SortNewest, SnapsNewestFirst, Doomed, PruneAfter, GoneAfter, Mine;
    var gone := GoneAfter([], x, periods, now);
    var q, z := NotIn(gone), SortNewest(x + b);
    PruneIsFilter([], x, periods, now);
    forall y | y in gone
      ensures y in x
    {
      GoneFrom([], x, periods, now, y);
    }
    FilterAppend(x, b, q);
    FilterAll(b, q);
    SortFilter(x + b, q);
    PoolInOrder(x, b);
    SortHolds(x + b);
    forall i | 0 <= i < |z| && z[i] in gone
      ensures Doomed([] + z[..i], z[i], periods, later)
    {
      GoneFrom([], x, periods, now, z[i]);
      var j :| 0 <= j < |x| && x[j] == z[i] && Doomed([] + x[..j], z[i], periods, now);
      assert [] + x[..j] == x[..j] && [] + z[..i] == z[..i];
      LaterDoomed(z, x, i, j, periods, now, later);
    }
    SameCounts([], periods);
    PruneWithout([], [], z, gone, periods, later);
  }

  lemma SameCounts(d: Snaps, periods: seq<Period>)
    ensures CountsAlike(d, d, periods)
  {
  }

  // No snapshot is named twice: not in the pool, not among those found.
  predicate NoNameRepeats(s: Policy, snaps: Snaps, from: int, to: int) {
    DistinctNames(snaps + Taken(s, from, to))
  }

  lemma DistinctParts(a: Snaps, b: Snaps)
    requires DistinctNames(a + b)
    ensures DistinctNames(a) && DistinctNames(b) && forall x, y :: x in a && y in b ==> x.name != y.name
  {
    var all := a + b;
    forall i, j | 0 <= i < j < |a|
      ensures a[i].name != a[j].name
    {
      assert all[i] == a[i] && all[j] == a[j];
    }
    forall i, j | 0 <= i < j < |b|
      ensures b[i].name != b[j].name
    {
      assert all[|a| + i] == b[i] && all[|a| + j] == b[j];
    }
    forall x, y | x in a && y in b
      ensures x.name != y.name
    {
      var i :| 0 <= i < |a| && a[i] == x;
      var j :| 0 <= j < |b| && b[j] == y;
      assert all[i] == x && all[|a| + j] == y;
    }
  }

  // Without repeated names nothing taken is skipped.
  lemma AdvanceTakesAll(s: Policy, snaps: Snaps, from: int, to: int)
    requires Spread(s) && NoNameRepeats(s, snaps, from, to)
    ensures Advance(s, snaps, Some(from), to) == Prune(SortNewest(snaps + Taken(s, from, to)), s.periods, to)
  {
    hide DistinctNames, Prune, SortNewest, Taken, Found, Spread;
    var found := Found(s, Some(from), to);
    DistinctParts(snaps, Taken(s, from, to));
    FoundIsTaken(s, from, to);
    SortHolds(found);
    UnsortedDistinct(found);
    AllNewNames(found, NamesOf(snaps));
  }

  // What a sort leaves distinct was distinct.
  lemma {:induction false} UnsortedDistinct(d: Snaps)
    requires DistinctNames(SortNewest(d))
    ensures DistinctNames(d)
  {
    hide DistinctNames, InsertNewest;
    if d != [] {
      InsertedDistinct(d[0], SortNewest(d[1..]));
      UnsortedDistinct(d[1..]);
      SortHolds(d[1..]);
      assert d == [d[0]] + d[1..] && d[0] in [d[0]];
      DistinctOne(d[0]);
      DistinctJoin([d[0]], d[1..]);
    } else {
      NoneDistinct();
    }
  }

  lemma DistinctOne(x: SnapshotInfo)
    ensures DistinctNames([x])
  {
  }

  lemma NoneDistinct()
    ensures DistinctNames([])
  {
  }

  lemma {:induction false} InsertedDistinct(x: SnapshotInfo, d: Snaps)
    requires DistinctNames(InsertNewest(x, d))
    ensures DistinctNames(d) && forall y :: y in d ==> x.name != y.name
  {
    hide DistinctNames;
    if d != [] && d[0].time > x.time {
      var rest := InsertNewest(x, d[1..]);
      assert InsertNewest(x, d) == [d[0]] + rest && d == [d[0]] + d[1..] && d[0] in [d[0]];
      DistinctParts([d[0]], rest);
      InsertHolds(x, d[1..]);
      InsertedDistinct(x, d[1..]);
      DistinctJoin([d[0]], d[1..]);
    } else {
      assert x in [x];
      DistinctParts([x], d);
    }
  }

  lemma DistinctJoin(a: Snaps, b: Snaps)
    requires DistinctNames(a) && DistinctNames(b) && forall x, y :: x in a && y in b ==> x.name != y.name
    ensures DistinctNames(a + b)
  {
    var all := a + b;
    forall i, j | 0 <= i < j < |all|
      ensures all[i].name != all[j].name
    {
      assert all[i] == if i < |a| then a[i] else b[i - |a|];
      assert all[j] == if j < |a| then a[j] else b[j - |a|];
      assert i < |a| ==> a[i] in a;
      assert j >= |a| ==> b[j - |a|] in b;
    }
  }

  lemma {:induction false} InsertDistinct(x: SnapshotInfo, d: Snaps)
    requires DistinctNames([x] + d)
    ensures DistinctNames(InsertNewest(x, d))
  {
    hide DistinctNames;
    DistinctParts([x], d);
    if d != [] && d[0].time > x.time {
      assert d == [d[0]] + d[1..] && x in [x] && d[0] in d;
      DistinctParts([d[0]], d[1..]);
      DistinctJoin([x], d[1..]);
      InsertDistinct(x, d[1..]);
      InsertHolds(x, d[1..]);
      assert d[0] in [d[0]];
      DistinctJoin([d[0]], InsertNewest(x, d[1..]));
    }
  }

  lemma {:induction false} SortDistinct(d: Snaps)
    requires DistinctNames(d)
    ensures DistinctNames(SortNewest(d))
  {
    hide DistinctNames, InsertNewest;
    if d != [] {
      assert d == [d[0]] + d[1..] && d[0] in [d[0]];
      DistinctParts([d[0]], d[1..]);
      SortDistinct(d[1..]);
      SortHolds(d[1..]);
      DistinctJoin([d[0]], SortNewest(d[1..]));
      InsertDistinct(d[0], SortNewest(d[1..]));
    }
  }

  lemma {:induction false} FilterDistinct(d: Snaps, q: SnapshotInfo -> bool)
    requires DistinctNames(d)
    ensures DistinctNames(Filter(d, q))
  {
    hide DistinctNames, Filter;
    if d != [] {
      assert d == [d[0]] + d[1..] && d[0] in [d[0]];
      DistinctParts([d[0]], d[1..]);
      FilterCons(d, q);
      FilterDistinct(d[1..], q);
      DistinctJoin([d[0]], Filter(d[1..], q));
    } else {
      FilterNone(d, q);
    }
  }

  // Pruning keeps some of the pool, and repeats none of it.
  lemma PruneKeepsSome(d: Snaps, periods: seq<Period>, now: int)
    requires DistinctNames(d)
    ensures DistinctNames(Prune(d, periods, now)) && Among(Prune(d, periods, now), d)
  {
    hide DistinctNames, Filter, PruneAfter, GoneAfter;
    PruneIsFilter([], d, periods, now);
    FilterDistinct(d, NotIn(GoneAfter([], d, periods, now)));
  }

  function Later(a: int, b: int): (r: int) {
    if b > a then b else a
  }

  lemma TakenAfter(s: Policy, a: int, b: int, c: int)
    requires b <= c
    ensures Taken(s, a, c) == Taken(s, Later(a, b), c) + Taken(s, a, b)
  {
    if a <= b {
      TakenSplits(s, a, b, c);
    }
  }

  // Advancing from a to b and then, from the later of the two, to c is advancing from a to c.
  lemma AdvanceComposes(s: Policy, snaps: Snaps, a: int, b: int, c: int)
    requires b <= c && NoNameRepeats(s, snaps, a, c) && OnePeriod(snaps + Taken(s, a, c), s.periods)
    requires Spread(s)
    ensures Advance(s, Advance(s, snaps, Some(a), b), Some(Later(a, b)), c) == Advance(s, snaps, Some(a), c)
  {
    hide Spread, DistinctNames, SortNewest, Prune, Advance, Taken, SnapsNewestFirst, Mine, OnePeriod;
    var first, second := Taken(s, a, b), Taken(s, Later(a, b), c);
    TakenAfter(s, a, b, c);
    DistinctParts(snaps, second + first);
    DistinctParts(second, first);
    DistinctJoin(snaps, first);
    AdvanceTakesAll(s, snaps, a, b);
    AdvanceTakesAll(s, snaps, a, c);
    var x := SortNewest(snaps + first);
    SortDistinct(snaps + first);
    SortHolds(snaps + first);
    SortSorted(snaps + first);
    PruneKeepsSome(x, s.periods, b);
    DistinctJoin(Prune(x, s.periods, b), second);
    AdvanceTakesAll(s, Prune(x, s.periods, b), Later(a, b), c);
    OnePeriodAmong(x + second, snaps + (second + first), s.periods);
    PruneBeforeMerge(x, second, s.periods, b, c);
    TakenApart(s, a, b, Later(a, b), c);
    SortInSteps(snaps, first, second);
  }

  lemma OnePeriodAmong(part: Snaps, d: Snaps, periods: seq<Period>)
    requires OnePeriod(d, periods) && Among(part, d)
    ensures OnePeriod(part, periods)
  {
    hide Mine;
  }

  lemma TakenApart(s: Policy, a: int, b: int, m: int, c: int)
    requires Spread(s) && b <= m
    ensures Apart(Taken(s, a, b), Taken(s, m, c))
  {
    hide Taken, InWindow, Due, Spread;
    TakenTimes(s, a, b);
    TakenTimes(s, m, c);
    forall x, y | x in Taken(s, a, b) && y in Taken(s, m, c)
      ensures x.time != y.time
    {
      assert TakenFrom(s, a, b, x) && TakenFrom(s, m, c, y);
      var t :| a < t <= b && Due(s, t) && InWindow(s, t, x.time);
      var u :| m < u <= c && Due(s, u) && InWindow(s, u, y.time);
      EarlierIsOlder(s, t, u, x.time, y.time);
    }
  }

  // ---- The periods of sanoid ----

  predicate IsPeriodName(p: string) {
    p == "yearly" || p == "monthly" || p == "weekly" || p == "daily" || p == "hourly"
  }

  predicate SanoidNames(periods: seq<Period>) {
    && (forall p :: p in periods ==> IsPeriodName(p.name))
    && forall i, j :: 0 <= i < j < |periods| ==> periods[i].name != periods[j].name
  }

  lemma FromEnd(name: string, suffix: string, k: nat)
    requires HasSuffix(name, suffix) && 1 <= k <= |suffix|
    ensures name[|name| - k] == suffix[|suffix| - k]
  {
    assert name[|name| - |suffix|..][|suffix| - k] == suffix[|suffix| - k];
  }

  // The third and fourth letters from the end of a period's name.
  function Letters(p: string): (r: (char, char)) {
    if p == "yearly" then ('r', 'a')
    else if p == "monthly" then ('h', 't')
    else if p == "weekly" then ('k', 'e')
    else if p == "daily" then ('i', 'a')
    else ('r', 'u')
  }

  lemma LettersAre(p: string)
    requires IsPeriodName(p)
    ensures |p| >= 4 && Letters(p) == (p[|p| - 3], p[|p| - 4])
  {
  }

  // They tell the periods apart.
  lemma SuffixesDiffer(name: string, p: string, q: string)
    requires IsPeriodName(p) && IsPeriodName(q) && HasSuffix(name, "_" + p) && HasSuffix(name, "_" + q)
    ensures p == q
  {
    LettersAre(p);
    LettersAre(q);
    FromEnd(name, "_" + p, 3);
    FromEnd(name, "_" + q, 3);
    FromEnd(name, "_" + p, 4);
    FromEnd(name, "_" + q, 4);
    assert Letters(p) == Letters(q);
  }

  lemma SanoidHasOnePeriod(d: Snaps, periods: seq<Period>)
    requires SanoidNames(periods)
    ensures OnePeriod(d, periods)
  {
    forall x, p, q | x in d && p in periods && q in periods && Mine(x, p) && Mine(x, q)
      ensures p == q
    {
      SuffixesDiffer(x.name, p.name, q.name);
    }
  }

  // ---- Dated names ----

  lemma {:induction false} FlattenDated(s: Policy, groups: seq<Group>, timeOf: string -> int)
    requires forall p: string, t: int :: timeOf(s.nameOf(p, t)) == t
    ensures Dated(Flatten(s, groups), timeOf)
  {
    if groups != [] {
      FlattenDated(s, groups[1..], timeOf);
      var first := SnapsOf(s, groups[0].periods, groups[0].at);
      assert forall i :: 0 <= i < |first| ==> first[i].time == timeOf(first[i].name);
    }
  }

  lemma {:induction false} FirstOfNameHolds(d: Snaps, names: set<string>)
    ensures Among(FirstOfName(d, names), d)
    decreases |d|
  {
    if d != [] {
      FirstOfNameHolds(d[1..], names);
      FirstOfNameHolds(d[1..], names + {d[0].name});
    }
  }

  lemma {:induction false} PruneHolds(newer: Snaps, d: Snaps, periods: seq<Period>, now: int)
    ensures Among(PruneAfter(newer, d, periods, now), d)
    decreases |d|
  {
    hide Doomed;
    if d != [] {
      PruneHolds(newer + [d[0]], d[1..], periods, now);
    }
  }

  // A schedule whose names tell their time keeps a pool whose names do: what a simulation asks of
  // the pools of its history.
  lemma AdvanceKeepsDated(s: Policy, snaps: Snaps, from: Option<int>, to: int, timeOf: string -> int)
    requires Dated(snaps, timeOf) && forall p: string, t: int :: timeOf(s.nameOf(p, t)) == t
    ensures Dated(Advance(s, snaps, from, to), timeOf)
  {
    hide SortNewest, FirstOfName, PruneAfter, Flatten, Collect;
    var found := FirstOfName(Found(s, from, to), NamesOf(snaps));
    FlattenDated(s, Collect(s, s.tieOrder, from, to), timeOf);
    FirstOfNameHolds(Found(s, from, to), NamesOf(snaps));
    SortHolds(found);
    SortHolds(snaps + SortNewest(found));
    PruneHolds([], SortNewest(snaps + SortNewest(found)), s.periods, to);
  }
}
