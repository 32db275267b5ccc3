// What a schedule takes and keeps, snapshot by snapshot.
module ScheduleMeaning {
  import opened Common
  import opened Planner
  import opened Schedule
  import opened ScheduleComposition

  // ---- Keeping ----

  // A snapshot that sanoid took for the period.
  ghost predicate IsOf(x: SnapshotInfo, p: Period) {
    && !x.bookmark
    && (exists rest: string :: x.name == "autosnap_" + rest)
    && exists front: string :: x.name == front + ("_" + p.name)
  }

  lemma IsOfIff(x: SnapshotInfo, p: Period)
    ensures IsOf(x, p) <==> Mine(x, p)
  {
    var n, suffix := x.name, "_" + p.name;
    if Mine(x, p) {
      assert n == "autosnap_" + n[9..];
      assert n == n[..|n| - |suffix|] + suffix;
    }
  }

  // The places before i of the snapshots of the period.
  ghost function PlacesBefore(d: Snaps, p: Period, i: nat): (r: set<nat>)
    requires i <= |d|
  {
    set j: nat | j < i && IsOf(d[j], p)
  }

  lemma {:induction false} CountsPlaces(d: Snaps, p: Period, i: nat)
    requires i <= |d|
    ensures |PlacesBefore(d, p, i)| == Count(d[..i], p)
  {
    if i == 0 {
      assert PlacesBefore(d, p, 0) == {};
    } else {
      CountsPlaces(d, p, i - 1);
      CountNext(d, i - 1, p);
      IsOfIff(d[i - 1], p);
      var before := PlacesBefore(d, p, i - 1);
      if IsOf(d[i - 1], p) {
        assert PlacesBefore(d, p, i) == before + {i - 1};
      } else {
        assert PlacesBefore(d, p, i) == before;
      }
    }
  }

  // It stays if, for each period it is of, fewer than keep newer ones of the period are there, or it
  // is not older than keep times its length.
  ghost predicate Stays(d: Snaps, i: nat, periods: seq<Period>, now: int)
    requires i < |d|
  {
    forall p :: p in periods && IsOf(d[i], p) ==>
      |PlacesBefore(d, p, i)| < p.keep || d[i].time >= now - p.keep * p.length
  }

  lemma PruneIff(d: Snaps, periods: seq<Period>, now: int, i: nat)
    requires DistinctNames(d) && i < |d|
    ensures d[i] in Prune(d, periods, now) <==> Stays(d, i, periods, now)
  {
    hide Mine, IsOf, Count, PlacesBefore, Prune;
    PruneKeepsExactly(d, periods, now, i);
    forall p: Period
      ensures IsOf(d[i], p) <==> Mine(d[i], p)
      ensures |PlacesBefore(d, p, i)| == Count(d[..i], p)
    {
      IsOfIff(d[i], p);
      CountsPlaces(d, p, i);
    }
  }

  // ---- Taking ----

  predicate DuePlace(s: Policy, k: nat, t: int)
    requires k < |s.tieOrder|
  {
    s.tieOrder[k].keep > 0 && s.boundary(s.tieOrder[k].name, t)
  }

  // The periods due at a time, in tie order; a period that keeps none takes none. at says where in
  // the tie order each of them is.
  ghost predicate AreDue(s: Policy, due: seq<Period>, at: seq<nat>, upTo: nat, t: int)
    requires upTo <= |s.tieOrder|
  {
    && |at| == |due|
    && (forall i :: 0 <= i < |at| ==> at[i] < upTo && s.tieOrder[at[i]] == due[i] && DuePlace(s, at[i], t))
    && (forall i, j :: 0 <= i < j < |at| ==> at[i] < at[j])
    && (forall k: nat :: k < upTo && DuePlace(s, k, t) ==> k in at)
  }

  // Taken at the boundary t: named by its period and creation, the last in tie order first, a gap
  // apart, that one a delay after the boundary.
  ghost predicate TakenAtBoundary(s: Policy, t: int, x: SnapshotInfo) {
    exists due: seq<Period>, at: seq<nat>, i: nat ::
      && AreDue(s, due, at, |s.tieOrder|, t) && i < |due|
      && x.time == t + s.delay + (|due| - 1 - i) * s.gap
      && x.name == s.nameOf(due[i].name, x.time) && !x.bookmark
  }

  lemma {:induction false} DuePeriods(s: Policy, n: nat, t: int) returns (at: seq<nat>)
    requires n <= |s.tieOrder|
    ensures AreDue(s, PeriodsDue(s, s.tieOrder[..n], t), at, n, t)
  {
    at := [];
    if n > 0 {
      var order := s.tieOrder[..n];
      var before := DuePeriods(s, n - 1, t);
      assert order[..n - 1] == s.tieOrder[..n - 1] && order[n - 1] == s.tieOrder[n - 1];
      if DuePlace(s, n - 1, t) {
        at := before + [n - 1];
        DueMore(s, PeriodsDue(s, s.tieOrder[..n - 1], t), before, n - 1, t);
      } else {
        at := before;
        assert PeriodsDue(s, order, t) == PeriodsDue(s, s.tieOrder[..n - 1], t);
      }
    }
  }

  lemma DueMore(s: Policy, due: seq<Period>, at: seq<nat>, n: nat, t: int)
    requires n < |s.tieOrder| && AreDue(s, due, at, n, t) && DuePlace(s, n, t)
    ensures AreDue(s, due + [s.tieOrder[n]], at + [n], n + 1, t)
  {
    hide DuePlace;
    var more := at + [n];
    forall k: nat | k < n + 1 && DuePlace(s, k, t)
      ensures k in more
    {
      assert k < n ==> k in at;
      assert more[|at|] == n;
    }
  }

  // There is one list of what is due.
  lemma {:induction false} SamePlaces(
    s: Policy, due: seq<Period>, at: seq<nat>, other: seq<Period>, places: seq<nat>, t: int, i: nat)
    requires AreDue(s, due, at, |s.tieOrder|, t) && AreDue(s, other, places, |s.tieOrder|, t) && i < |at|
    ensures i < |places| && places[i] == at[i]
  {
    hide DuePlace;
    assert at[i] in places;
    var j :| 0 <= j < |places| && places[j] == at[i];
    if i > 0 {
      SamePlaces(s, due, at, other, places, t, i - 1);
    }
  }

  lemma OneDueList(s: Policy, due: seq<Period>, at: seq<nat>, other: seq<Period>, places: seq<nat>, t: int)
    requires AreDue(s, due, at, |s.tieOrder|, t) && AreDue(s, other, places, |s.tieOrder|, t)
    ensures due == other
  {
    hide DuePlace;
    forall i | 0 <= i < |at|
      ensures i < |places| && places[i] == at[i]
    {
      SamePlaces(s, due, at, other, places, t, i);
    }
    if |at| < |places| {
      SamePlaces(s, other, places, due, at, t, |at|);
    }
    if at != [] {
      SamePlaces(s, due, at, other, places, t, |at| - 1);
    }
  }

  lemma DueAtIff(s: Policy, t: int, x: SnapshotInfo)
    ensures x in DueAt(s, t) <==> TakenAtBoundary(s, t, x)
  {
    hide TakenAtBoundary, DueAt;
    if x in DueAt(s, t) {
      DueIsTaken(s, t, x);
    }
    if TakenAtBoundary(s, t, x) {
      TakenIsDue(s, t, x);
    }
  }

  lemma DueIsTaken(s: Policy, t: int, x: SnapshotInfo)
    requires x in DueAt(s, t)
    ensures TakenAtBoundary(s, t, x)
  {
    hide PeriodsDue, AreDue;
    var due := PeriodsDue(s, s.tieOrder, t);
    assert s.tieOrder[..|s.tieOrder|] == s.tieOrder;
    var at := DuePeriods(s, |s.tieOrder|, t);
    var i: nat :| i < |DueAt(s, t)| && DueAt(s, t)[i] == x;
    assert AreDue(s, due, at, |s.tieOrder|, t) && i < |due|;
  }

  lemma TakenIsDue(s: Policy, t: int, x: SnapshotInfo)
    requires TakenAtBoundary(s, t, x)
    ensures x in DueAt(s, t)
  {
    hide PeriodsDue, AreDue;
    var due := PeriodsDue(s, s.tieOrder, t);
    assert s.tieOrder[..|s.tieOrder|] == s.tieOrder;
    var at := DuePeriods(s, |s.tieOrder|, t);
    var other: seq<Period>, places: seq<nat>, i: nat :|
      && AreDue(s, other, places, |s.tieOrder|, t) && i < |other|
      && x.time == t + s.delay + (|other| - 1 - i) * s.gap
      && x.name == s.nameOf(other[i].name, x.time) && !x.bookmark;
    OneDueList(s, due, at, other, places, t);
    assert DueAt(s, t)[i] == x;
  }

  // What is taken in (from, to] is what is due at the boundaries in it.
  lemma {:induction false} TakenIff(s: Policy, from: int, to: int, x: SnapshotInfo)
    ensures x in Taken(s, from, to) <==> exists t :: from < t <= to && TakenAtBoundary(s, t, x)
    decreases if to > from then to - from else 0
  {
    hide DueAt, TakenAtBoundary;
    if to > from {
      TakenIff(s, from, to - 1, x);
      DueAtIff(s, to, x);
    }
  }

  // ---- Advancing ----

  // The pool of an advance: all of the pool and all that is taken, newest first, without what does
  // not stay.
  lemma AdvanceIs(s: Policy, snaps: Snaps, from: int, to: int) returns (all: Snaps)
    requires Spread(s) && NoNameRepeats(s, snaps, from, to)
    ensures SnapsNewestFirst(all) && DistinctNames(all)
    ensures forall x :: x in all <==> x in snaps || exists t :: from < t <= to && TakenAtBoundary(s, t, x)
    ensures forall x :: x in Advance(s, snaps, Some(from), to) ==> x in all
    ensures forall i :: 0 <= i < |all| ==>
      (all[i] in Advance(s, snaps, Some(from), to) <==> Stays(all, i, s.periods, to))
  {
    hide Spread, Taken, SortNewest, Prune, Advance, TakenAtBoundary, Stays, SnapsNewestFirst, DistinctNames;
    all := SortNewest(snaps + Taken(s, from, to));
    AdvanceTakesAll(s, snaps, from, to);
    SortSorted(snaps + Taken(s, from, to));
    SortHolds(snaps + Taken(s, from, to));
    SortDistinct(snaps + Taken(s, from, to));
    PruneKeepsSome(all, s.periods, to);
    forall x
      ensures x in Taken(s, from, to) <==> exists t :: from < t <= to && TakenAtBoundary(s, t, x)
    {
      TakenIff(s, from, to, x);
    }
    forall i | 0 <= i < |all|
      ensures all[i] in Advance(s, snaps, Some(from), to) <==> Stays(all, i, s.periods, to)
    {
      PruneIff(all, s.periods, to, i);
    }
  }

  // ---- From the zero time ----

  ghost predicate HasDue(groups: seq<Group>, p: Period, t: int) {
    exists i :: 0 <= i < |groups| && groups[i].at == t && p in groups[i].periods
  }

  lemma HasDueCons(g: Group, rest: seq<Group>, p: Period, t: int)
    ensures HasDue([g] + rest, p, t) <==> (g.at == t && p in g.periods) || HasDue(rest, p, t)
  {
    var all := [g] + rest;
    if HasDue(rest, p, t) {
      var i :| 0 <= i < |rest| && rest[i].at == t && p in rest[i].periods;
      assert all[i + 1] == rest[i];
    }
    if g.at == t && p in g.periods {
      assert all[0] == g;
    }
  }

  lemma {:induction false} AddDueHas(groups: seq<Group>, p: Period, t: int, q: Period, u: int)
    ensures HasDue(AddDue(groups, p, t), q, u) <==> HasDue(groups, q, u) || (q == p && u == t)
  {
    hide HasDue;
    if groups == [] {
      HasDueCons(Group(t, [p]), [], q, u);
      HasNone(q, u);
    } else {
      var rest := groups[1..];
      assert groups == [groups[0]] + rest;
      HasDueCons(groups[0], rest, q, u);
      if groups[0].at == t {
        HasDueCons(Group(t, groups[0].periods + [p]), rest, q, u);
      } else {
        AddDueHas(rest, p, t, q, u);
        HasDueCons(groups[0], AddDue(rest, p, t), q, u);
      }
    }
  }

  lemma HasNone(p: Period, t: int)
    ensures !HasDue([], p, t) && forall g: Group :: [g] + [] == [g]
  {
  }

  lemma {:induction false} AddAllHas(groups: seq<Group>, p: Period, times: seq<int>, q: Period, u: int)
    ensures HasDue(AddAll(groups, p, times), q, u) <==> HasDue(groups, q, u) || (q == p && u in times)
    decreases |times|
  {
    hide HasDue;
    if times != [] {
      var init, last := times[..|times| - 1], times[|times| - 1];
      AddAllHas(groups, p, init, q, u);
      AddDueHas(AddAll(groups, p, init), p, last, q, u);
      assert times == init + [last];
    }
  }

  lemma {:induction false} CollectHas(s: Policy, order: seq<Period>, from: Option<int>, to: int, q: Period, u: int)
    ensures HasDue(Collect(s, order, from, to), q, u) <==> q in order && u in TimesIn(s, q, from, to)
    decreases |order|
  {
    hide HasDue, TimesIn;
    if order == [] {
      HasNone(q, u);
    } else {
      var init, p := order[..|order| - 1], order[|order| - 1];
      CollectHas(s, init, from, to, q, u);
      AddAllHas(Collect(s, init, from, to), p, TimesIn(s, p, from, to), q, u);
      assert order == init + [p];
    }
  }

  // A snapshot of the period at the boundary, when snapshots of one boundary are not apart.
  function OneAt(s: Policy, p: Period, t: int): (x: SnapshotInfo) {
    SnapshotInfo(s.nameOf(p.name, t + s.delay), t + s.delay, false)
  }

  lemma SnapsOfNoGap(s: Policy, periods: seq<Period>, t: int, x: SnapshotInfo)
    requires s.gap == 0
    ensures x in SnapsOf(s, periods, t) <==> exists p :: p in periods && x == OneAt(s, p, t)
  {
    var d := SnapsOf(s, periods, t);
    forall i | 0 <= i < |d|
      ensures d[i] == OneAt(s, periods[i], t)
    {
      assert (|periods| - 1 - i) * s.gap == 0;
    }
    if p :| p in periods && x == OneAt(s, p, t) {
      var i :| 0 <= i < |periods| && periods[i] == p;
      assert d[i] == x;
    }
  }

  lemma {:induction false} FlattenIff(s: Policy, groups: seq<Group>, x: SnapshotInfo)
    requires s.gap == 0
    ensures x in Flatten(s, groups) <==> exists p, t :: HasDue(groups, p, t) && x == OneAt(s, p, t)
  {
    hide HasDue, OneAt, SnapsOf;
    if groups == [] {
      forall p, t
        ensures !HasDue(groups, p, t)
      {
        HasNone(p, t);
      }
    } else {
      var g, rest := groups[0], groups[1..];
      assert groups == [g] + rest;
      FlattenIff(s, rest, x);
      SnapsOfNoGap(s, g.periods, g.at, x);
      forall p, t
        ensures HasDue(groups, p, t) <==> (g.at == t && p in g.periods) || HasDue(rest, p, t)
      {
        HasDueCons(g, rest, p, t);
      }
      if p :| p in g.periods && x == OneAt(s, p, g.at) {
        assert HasDue(groups, p, g.at);
      }
    }
  }

  // Where the boundaries of a period count from: the time given, or, from the zero time, keep + 2
  // lengths before the end.
  function StartOf(p: Period, from: Option<int>, to: int): (t: int) {
    match from
    case Some(t) => t
    case None => to - p.keep * p.length - 2 * p.length
  }

  // What is found from a time or from the zero time: a snapshot of each period that keeps any, at
  // each of its boundaries from its start on.
  lemma FoundIff(s: Policy, from: Option<int>, to: int, x: SnapshotInfo)
    requires s.gap == 0
    ensures x in Found(s, from, to) <==> exists p, t ::
      p in s.tieOrder && p.keep > 0 && StartOf(p, from, to) < t <= to && s.boundary(p.name, t) && x == OneAt(s, p, t)
  {
    hide Collect, Flatten, HasDue, OneAt, StartOf;
    FlattenIff(s, Collect(s, s.tieOrder, from, to), x);
    forall p, t
      ensures HasDue(Collect(s, s.tieOrder, from, to), p, t) <==>
        p in s.tieOrder && p.keep > 0 && StartOf(p, from, to) < t <= to && s.boundary(p.name, t)
    {
      CollectHas(s, s.tieOrder, from, to, p, t);
      TimesIff(s, p, from, to, t);
    }
  }

  lemma TimesIff(s: Policy, p: Period, from: Option<int>, to: int, t: int)
    ensures t in TimesIn(s, p, from, to) <==>
      p.keep > 0 && StartOf(p, from, to) < t <= to && s.boundary(p.name, t)
  {
    assert (p.keep + 2) * p.length == p.keep * p.length + 2 * p.length;
  }

  // At least keep boundaries of the period lie between the zero time's start and the end.
  predicate Regular(s: Policy, p: Period, to: int, b: seq<int>) {
    && |b| == p.keep
    && (forall k :: 0 <= k < |b| ==> StartOf(p, None, to) < b[k] <= to && s.boundary(p.name, b[k]))
    && forall j, k :: 0 <= j < k < |b| ==> b[j] < b[k]
  }

  lemma {:induction false} NewerPlaces(s: Policy, all: Snaps, p: Period, i: nat, b: seq<int>, k: nat)
    returns (places: set<nat>)
    requires SnapsNewestFirst(all) && i < |all| && k <= |b|
    requires forall t: int :: IsOf(OneAt(s, p, t), p)
    requires forall j :: 0 <= j < |b| ==> OneAt(s, p, b[j]) in all && b[j] + s.delay > all[i].time
    requires forall j, l :: 0 <= j < l < |b| ==> b[j] < b[l]
    ensures |places| == k && places <= PlacesBefore(all, p, i)
    ensures forall j :: j in places ==> j < |all| && exists l :: 0 <= l < k && all[j].time == b[l] + s.delay
  {
    hide IsOf;
    if k == 0 {
      places := {};
    } else {
      var before := NewerPlaces(s, all, p, i, b, k - 1);
      var j: nat :| j < |all| && all[j] == OneAt(s, p, b[k - 1]);
      assert IsOf(all[j], p);
      assert j !in before;
      assert j < i;
      places := before + {j};
    }
  }

  // Starting from the zero time loses nothing: what is older than its start would be pruned.
  lemma OlderIsPruned(s: Policy, all: Snaps, p: Period, t: int, to: int, b: seq<int>, i: nat)
    requires SnapsNewestFirst(all) && i < |all| && all[i] == OneAt(s, p, t) && p in s.periods
    requires t <= StartOf(p, None, to) && Regular(s, p, to, b) && s.delay < 2 * p.length
    requires forall u: int :: IsOf(OneAt(s, p, u), p)
    requires forall k :: 0 <= k < |b| ==> OneAt(s, p, b[k]) in all
    ensures !Stays(all, i, s.periods, to)
  {
    hide IsOf, SnapsNewestFirst;
    var places := NewerPlaces(s, all, p, i, b, |b|);
    FewerPlaces(places, PlacesBefore(all, p, i));
    assert IsOf(OneAt(s, p, t), p);
  }

  lemma FewerPlaces(a: set<nat>, b: set<nat>)
    requires a <= b
    ensures |a| <= |b|
  {
    assert b == a + (b - a);
  }
}
