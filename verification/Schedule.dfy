// The snapshot schedule of a simulation: which snapshots are taken and pruned between two times.
module Schedule {
  import opened Common
  import opened Planner

  type Snaps = seq<SnapshotInfo>

  // A period keeps its newest snapshots, and every one younger than keep times its length.
  datatype Period = Period(name: string, keep: nat, length: nat)

  // boundary says at which times a period's snapshots are due; nameOf names one by its creation.
  // Snapshots of one boundary are taken in tie order, the last first, a gap apart.
  datatype Policy = Policy(
    periods: seq<Period>, tieOrder: seq<Period>, delay: int, gap: nat,
    boundary: (string, int) -> bool, nameOf: (string, int) -> string)

  predicate Mine(x: SnapshotInfo, p: Period) {
    !x.bookmark && "autosnap_" <= x.name && HasSuffix(x.name, "_" + p.name)
  }

  // ---- Pruning ----

  // How many of the snapshots are of the period.
  function Count(d: Snaps, p: Period): (n: nat) {
    if d == [] then 0 else Count(d[..|d| - 1], p) + if Mine(d[|d| - 1], p) then 1 else 0
  }

  predicate Expired(x: SnapshotInfo, p: Period, now: int) {
    x.time < now - p.keep * p.length
  }

  // After the newer snapshots: not among the keep newest of its period, and expired.
  predicate Doomed(newer: Snaps, x: SnapshotInfo, periods: seq<Period>, now: int) {
    exists p :: p in periods && Mine(x, p) && Count(newer, p) >= p.keep && Expired(x, p, now)
  }

  function PruneAfter(newer: Snaps, d: Snaps, periods: seq<Period>, now: int): (r: Snaps)
    decreases |d|
  {
    if d == [] then []
    else (if Doomed(newer, d[0], periods, now) then [] else [d[0]]) + PruneAfter(newer + [d[0]], d[1..], periods, now)
  }

  function Prune(d: Snaps, periods: seq<Period>, now: int): (r: Snaps) {
    PruneAfter([], d, periods, now)
  }

  // The places of a period's snapshots, newest first.
  ghost predicate Places(mine: seq<nat>, d: Snaps, p: Period, upTo: nat)
    requires upTo <= |d|
  {
    && |mine| == Count(d[..upTo], p)
    && (forall k :: 0 <= k < |mine| ==> mine[k] < upTo && Mine(d[mine[k]], p) && Count(d[..mine[k]], p) == k)
    && (forall i: nat :: i < upTo && Mine(d[i], p) ==> i in mine)
    && (forall j, k :: 0 <= j < k < |mine| ==> mine[j] < mine[k])
  }

  lemma CountNext(d: Snaps, i: nat, p: Period)
    requires i < |d|
    ensures Count(d[..i + 1], p) == Count(d[..i], p) + if Mine(d[i], p) then 1 else 0
  {
    assert d[..i + 1][..i] == d[..i];
  }

  method PlacesOf(d: Snaps, p: Period) returns (mine: seq<nat>)
    ensures Places(mine, d, p, |d|)
  {
    mine := [];
    for i := 0 to |d|
      invariant Places(mine, d, p, i)
    {
      CountNext(d, i, p);
      if Mine(d[i], p) {
        mine := mine + [i];
      }
    }
  }

  predicate DoomedAt(d: Snaps, i: nat, p: Period, now: int)
    requires i < |d|
  {
    Mine(d[i], p) && Count(d[..i], p) >= p.keep && Expired(d[i], p, now)
  }

  // The loop of prune for one period: from the oldest, while more than keep are left, up to the
  // first that has not expired. On a newest-first list these are exactly the doomed ones.
  method MarkPeriod(d: Snaps, p: Period, now: int) returns (destroyed: set<nat>)
    requires SnapsNewestFirst(d)
    ensures forall i: nat :: i in destroyed <==> i < |d| && DoomedAt(d, i, p, now)
  {
    hide Places, DoomedAt, MarkedFrom, SnapsNewestFirst;
    var mine := PlacesOf(d, p);
    PlacesInside(mine, d, p);
    destroyed := {};
    var k, left := |mine| - 1, |mine|;
    MarksNone(mine);
    while k >= 0 && left > p.keep
      invariant -1 <= k < |mine| && left == k + 1
      invariant MarkedFrom(destroyed, mine, k)
      invariant forall j :: k < j < |mine| ==> DoomedAt(d, mine[j], p, now)
      decreases k
    {
      if !Expired(d[mine[k]], p, now) {
        break;
      }
      OldestDoomed(d, p, now, mine, k);
      MarksOne(destroyed, mine, k);
      destroyed := destroyed + {mine[k]};
      k, left := k - 1, left - 1;
    }
    MarkedExactly(d, p, now, mine, k, destroyed);
  }

  // The snapshots after place k of the period are marked.
  ghost predicate MarkedFrom(destroyed: set<nat>, mine: seq<nat>, k: int)
    requires -1 <= k
  {
    forall i: nat :: i in destroyed <==> exists j :: k < j < |mine| && mine[j] == i
  }

  lemma MarksNone(mine: seq<nat>)
    ensures MarkedFrom({}, mine, |mine| - 1)
  {
  }

  lemma MarksOne(destroyed: set<nat>, mine: seq<nat>, k: nat)
    requires k < |mine| && MarkedFrom(destroyed, mine, k)
    ensures MarkedFrom(destroyed + {mine[k]}, mine, k - 1)
  {
  }

  lemma PlacesInside(mine: seq<nat>, d: Snaps, p: Period)
    requires Places(mine, d, p, |d|)
    ensures forall j :: 0 <= j < |mine| ==> mine[j] < |d|
  {
  }

  lemma OldestDoomed(d: Snaps, p: Period, now: int, mine: seq<nat>, k: nat)
    requires Places(mine, d, p, |d|) && p.keep <= k < |mine| && mine[k] < |d| && Expired(d[mine[k]], p, now)
    ensures DoomedAt(d, mine[k], p, now)
  {
  }

  lemma MarkedExactly(d: Snaps, p: Period, now: int, mine: seq<nat>, k: int, destroyed: set<nat>)
    requires SnapsNewestFirst(d) && Places(mine, d, p, |d|) && -1 <= k < |mine|
    requires forall j :: 0 <= j < |mine| ==> mine[j] < |d|
    requires MarkedFrom(destroyed, mine, k)
    requires forall j :: k < j < |mine| ==> DoomedAt(d, mine[j], p, now)
    requires k >= 0 ==> k < p.keep || !Expired(d[mine[k]], p, now)
    ensures forall i: nat :: i in destroyed <==> i < |d| && DoomedAt(d, i, p, now)
  {
    forall i: nat | i < |d| && DoomedAt(d, i, p, now)
      ensures i in destroyed
    {
      var j :| 0 <= j < |mine| && mine[j] == i;
    }
  }

  lemma DoomedByOne(d: Snaps, i: nat, periods: seq<Period>, now: int)
    requires i < |d|
    ensures Doomed(d[..i], d[i], periods, now) <==> exists j :: 0 <= j < |periods| && DoomedAt(d, i, periods[j], now)
  {
  }

  method MarkAll(d: Snaps, periods: seq<Period>, now: int) returns (destroyed: set<nat>)
    requires SnapsNewestFirst(d)
    ensures forall i: nat :: i in destroyed <==>
      i < |d| && exists j :: 0 <= j < |periods| && DoomedAt(d, i, periods[j], now)
  {
    hide DoomedAt, SnapsNewestFirst;
    destroyed := {};
    for k := 0 to |periods|
      invariant forall i: nat :: i in destroyed <==>
        i < |d| && exists j :: 0 <= j < k && DoomedAt(d, i, periods[j], now)
    {
      var more := MarkPeriod(d, periods[k], now);
      destroyed := destroyed + more;
    }
  }

  // prune: exactly the snapshots among the keep newest of their period or not yet expired stay.
  method PruneMarked(d: Snaps, periods: seq<Period>, now: int) returns (kept: Snaps)
    requires SnapsNewestFirst(d)
    ensures kept == Prune(d, periods, now)
  {
    hide DoomedAt, Doomed, SnapsNewestFirst, PruneAfter;
    var destroyed := MarkAll(d, periods, now);
    kept := [];
    assert d[..0] == [] && d[0..] == d;
    for i := 0 to |d|
      invariant kept + PruneAfter(d[..i], d[i..], periods, now) == Prune(d, periods, now)
    {
      PruneNext(d, i, periods, now);
      DoomedByOne(d, i, periods, now);
      if i !in destroyed {
        kept := kept + [d[i]];
      }
    }
    assert d[|d|..] == [] && d[..|d|] == d && kept + [] == kept;
    PruneNothing(d, periods, now);
  }

  lemma PruneNothing(newer: Snaps, periods: seq<Period>, now: int)
    ensures PruneAfter(newer, [], periods, now) == []
  {
  }

  lemma PruneNext(d: Snaps, i: nat, periods: seq<Period>, now: int)
    requires i < |d|
    ensures PruneAfter(d[..i], d[i..], periods, now)
      == (if Doomed(d[..i], d[i], periods, now) then [] else [d[i]]) + PruneAfter(d[..i + 1], d[i + 1..], periods, now)
  {
    hide Doomed;
    assert d[i..][0] == d[i] && d[i..][1..] == d[i + 1..] && d[..i] + [d[i]] == d[..i + 1];
  }

  // ---- Taking ----

  // The boundaries of a period in (from, to], oldest first.
  function Times(s: Policy, p: Period, from: int, to: int): (r: seq<int>)
    ensures forall t :: t in r <==> from < t <= to && s.boundary(p.name, t)
    ensures forall i, j :: 0 <= i < j < |r| ==> r[i] < r[j]
    decreases if to > from then to - from else 0
  {
    if to <= from then []
    else
      var rest := Times(s, p, from, to - 1);
      assert forall i :: 0 <= i < |rest| ==> rest[i] in rest;
      rest + if s.boundary(p.name, to) then [to] else []
  }

  // Without a start, from a time so old that what is taken before it would be pruned anyway.
  function TimesIn(s: Policy, p: Period, from: Option<int>, to: int): (r: seq<int>)
    ensures forall i, j :: 0 <= i < j < |r| ==> r[i] < r[j]
  {
    if p.keep == 0 then []
    else Times(s, p, if from.Some? then from.value else to - (p.keep + 2) * p.length, to)
  }

  // What is due at one time, in tie order.
  datatype Group = Group(at: int, periods: seq<Period>)

  function SnapsOf(s: Policy, periods: seq<Period>, t: int): (r: Snaps)
    ensures |r| == |periods| && forall i :: 0 <= i < |r| ==> r[i].time == CreatedAt(s, |periods|, i, t)
    ensures forall i :: 0 <= i < |r| ==> r[i].name == s.nameOf(periods[i].name, r[i].time)
  {
    seq(|periods|, i requires 0 <= i < |periods| =>
      var created := CreatedAt(s, |periods|, i, t);
      SnapshotInfo(s.nameOf(periods[i].name, created), created, false))
  }

  // When the i-th of n snapshots of a boundary is created.
  function CreatedAt(s: Policy, n: nat, i: nat, t: int): (r: int)
    requires i < n
  {
    t + s.delay + (n - 1 - i) * s.gap
  }

  // The group of the time gets the period; a time without a group gets a new one, last.
  function AddDue(groups: seq<Group>, p: Period, t: int): (r: seq<Group>) {
    if groups == [] then [Group(t, [p])]
    else if groups[0].at == t then [Group(t, groups[0].periods + [p])] + groups[1..]
    else [groups[0]] + AddDue(groups[1..], p, t)
  }

  function AddAll(groups: seq<Group>, p: Period, times: seq<int>): (r: seq<Group>)
    decreases |times|
  {
    if times == [] then groups
    else AddDue(AddAll(groups, p, times[..|times| - 1]), p, times[|times| - 1])
  }

  // The groups in the order they are found: period by period in tie order, each oldest first. A
  // period that keeps none takes none.
  function Collect(s: Policy, order: seq<Period>, from: Option<int>, to: int): (r: seq<Group>)
    decreases |order|
  {
    if order == [] then []
    else
      var p := order[|order| - 1];
      AddAll(Collect(s, order[..|order| - 1], from, to), p, TimesIn(s, p, from, to))
  }

  function Flatten(s: Policy, groups: seq<Group>): (r: Snaps) {
    if groups == [] then [] else SnapsOf(s, groups[0].periods, groups[0].at) + Flatten(s, groups[1..])
  }

  function Found(s: Policy, from: Option<int>, to: int): (r: Snaps) {
    Flatten(s, Collect(s, s.tieOrder, from, to))
  }

  // A second snapshot of a name is not taken.
  function FirstOfName(d: Snaps, names: set<string>): (r: Snaps)
    decreases |d|
  {
    if d == [] then []
    else if d[0].name in names then FirstOfName(d[1..], names)
    else [d[0]] + FirstOfName(d[1..], names + {d[0].name})
  }

  function NamesOf(d: Snaps): (r: set<string>) {
    set x | x in d :: x.name
  }

  // Stable, newest first.
  function InsertNewest(x: SnapshotInfo, d: Snaps): (r: Snaps) {
    if d == [] || d[0].time <= x.time then [x] + d else [d[0]] + InsertNewest(x, d[1..])
  }

  function SortNewest(d: Snaps): (r: Snaps) {
    if d == [] then [] else InsertNewest(d[0], SortNewest(d[1..]))
  }

  lemma {:induction false} InsertHolds(x: SnapshotInfo, d: Snaps)
    ensures forall y :: y in InsertNewest(x, d) <==> y == x || y in d
  {
    if d != [] && d[0].time > x.time {
      InsertHolds(x, d[1..]);
      assert d == [d[0]] + d[1..];
    }
  }

  lemma {:induction false} SortHolds(d: Snaps)
    ensures forall y :: y in SortNewest(d) <==> y in d
  {
    if d != [] {
      SortHolds(d[1..]);
      InsertHolds(d[0], SortNewest(d[1..]));
      assert d == [d[0]] + d[1..];
    }
  }

  lemma {:induction false} InsertSorted(x: SnapshotInfo, d: Snaps)
    requires SnapsNewestFirst(d)
    ensures SnapsNewestFirst(InsertNewest(x, d))
  {
    var r := InsertNewest(x, d);
    if d != [] && d[0].time > x.time {
      InsertSorted(x, d[1..]);
      InsertHolds(x, d[1..]);
      var rest := InsertNewest(x, d[1..]);
      forall i, j | 0 <= i < j < |r|
        ensures r[i].time >= r[j].time
      {
        assert r[j] == rest[j - 1] && rest[j - 1] in rest;
        assert i > 0 ==> r[i] == rest[i - 1];
      }
    } else {
      forall i, j | 0 <= i < j < |r|
        ensures r[i].time >= r[j].time
      {
        assert r[j] == d[j - 1] && (i > 0 ==> r[i] == d[i - 1]);
      }
    }
  }

  lemma {:induction false} SortSorted(d: Snaps)
    ensures SnapsNewestFirst(SortNewest(d))
  {
    if d != [] {
      SortSorted(d[1..]);
      InsertSorted(d[0], SortNewest(d[1..]));
    }
  }

  // Advance: the pool as of `to`.
  function Advance(s: Policy, snaps: Snaps, from: Option<int>, to: int): (pool: Snaps) {
    var taken := SortNewest(FirstOfName(Found(s, from, to), NamesOf(snaps)));
    Prune(SortNewest(snaps + taken), s.periods, to)
  }

  // ---- The loops of Advance ----

  // byTime finds the group of a time.
  ghost predicate IsIndex(byTime: map<int, nat>, groups: seq<Group>) {
    && (forall t :: t in byTime ==> byTime[t] < |groups| && groups[byTime[t]].at == t)
    && (forall i :: 0 <= i < |groups| ==> groups[i].at in byTime && byTime[groups[i].at] == i)
  }

  lemma {:induction false} AddDueAt(groups: seq<Group>, p: Period, t: int, i: nat)
    requires i < |groups| && groups[i].at == t && forall k :: 0 <= k < i ==> groups[k].at != t
    ensures AddDue(groups, p, t) == groups[i := Group(t, groups[i].periods + [p])]
  {
    if i > 0 {
      AddDueAt(groups[1..], p, t, i - 1);
    }
  }

  lemma {:induction false} AddDueNew(groups: seq<Group>, p: Period, t: int)
    requires forall k :: 0 <= k < |groups| ==> groups[k].at != t
    ensures AddDue(groups, p, t) == groups + [Group(t, [p])]
  {
    if groups != [] {
      AddDueNew(groups[1..], p, t);
    }
  }

  method AddTimes(groups: seq<Group>, byTime: map<int, nat>, p: Period, times: seq<int>)
    returns (more: seq<Group>, index: map<int, nat>)
    requires IsIndex(byTime, groups)
    ensures more == AddAll(groups, p, times) && IsIndex(index, more)
  {
    more, index := groups, byTime;
    for k := 0 to |times|
      invariant more == AddAll(groups, p, times[..k]) && IsIndex(index, more)
    {
      var t := times[k];
      assert times[..k + 1][..k] == times[..k];
      if t in index {
        AddDueAt(more, p, t, index[t]);
        more := more[index[t] := Group(t, more[index[t]].periods + [p])];
      } else {
        AddDueNew(more, p, t);
        index := index[t := |more|];
        more := more + [Group(t, [p])];
      }
    }
    assert times[..|times|] == times;
  }

  method CollectGroups(s: Policy, from: Option<int>, to: int) returns (groups: seq<Group>)
    ensures groups == Collect(s, s.tieOrder, from, to)
  {
    hide IsIndex, Collect, TimesIn, AddAll;
    groups := [];
    CollectNone(s, from, to);
    var byTime: map<int, nat> := map[];
    EmptyIndex();
    for k := 0 to |s.tieOrder|
      invariant groups == Collect(s, s.tieOrder[..k], from, to) && IsIndex(byTime, groups)
    {
      var p := s.tieOrder[k];
      CollectNext(s, s.tieOrder, k, from, to);
      groups, byTime := AddTimes(groups, byTime, p, TimesIn(s, p, from, to));
    }
    assert s.tieOrder[..|s.tieOrder|] == s.tieOrder;
  }

  lemma CollectNone(s: Policy, from: Option<int>, to: int)
    ensures Collect(s, s.tieOrder[..0], from, to) == []
  {
  }

  lemma CollectNext(s: Policy, order: seq<Period>, k: nat, from: Option<int>, to: int)
    requires k < |order|
    ensures Collect(s, order[..k + 1], from, to)
      == AddAll(Collect(s, order[..k], from, to), order[k], TimesIn(s, order[k], from, to))
  {
    hide TimesIn, AddAll;
    assert order[..k + 1][..k] == order[..k];
  }

  lemma EmptyIndex()
    ensures IsIndex(map[], [])
  {
  }

  method AdvancePool(s: Policy, snaps: Snaps, from: Option<int>, to: int) returns (pool: Snaps)
    ensures pool == Advance(s, snaps, from, to)
  {
    hide SnapsNewestFirst, Prune, SortNewest, Collect;
    var groups := CollectGroups(s, from, to);
    var found := Flatten(s, groups);
    var names, taken := NamesOf(snaps), [];
    for i := 0 to |found|
      invariant taken + FirstOfName(found[i..], names) == FirstOfName(found, NamesOf(snaps))
    {
      assert found[i..][0] == found[i] && found[i..][1..] == found[i + 1..];
      if found[i].name !in names {
        names := names + {found[i].name};
        taken := taken + [found[i]];
      }
    }
    assert found[|found|..] == [];
    assert taken == FirstOfName(found, NamesOf(snaps));
    SortSorted(snaps + SortNewest(taken));
    pool := PruneMarked(SortNewest(snaps + SortNewest(taken)), s.periods, to);
  }
}
