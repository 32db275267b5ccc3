// What a simulation is: its runs, what each of them sees, plans and records.
module SimulatorRuns {
  import opened Common
  import opened Planner
  import opened Simulator

  // ---- When it runs ----

  // --from, else an hour after the newest snapshot given, else --until.
  function FirstTime(sc: Scenario): (t: int)
    requires sc.until.Some?
  {
    match sc.from
    case Some(t) => t
    case None => if |sc.snaps| > 0 then sc.snaps[0].time + 60 * 60 else sc.until.value
  }

  function RunTime(sc: Scenario, k: nat): (t: int)
    requires sc.until.Some?
  {
    if k == 0 then FirstTime(sc) else sc.nextRun(RunTime(sc, k - 1))
  }

  // The host is down.
  predicate IsDown(sc: Scenario, t: int) {
    exists r :: r in sc.skips && r.0 <= t && t < r.1
  }

  ghost predicate RunsAt(sc: Scenario, t: int, k: nat)
    requires sc.until.Some?
  {
    t <= sc.until.value && !IsDown(sc, t) && exists j: nat :: j >= k && RunTime(sc, j) == t
  }

  lemma {:induction false} TimesRise(sc: Scenario, j: nat, k: nat)
    requires ValidScenario(sc) && sc.until.Some? && j < k
    ensures RunTime(sc, j) < RunTime(sc, k)
    decreases k
  {
    if j < k - 1 {
      TimesRise(sc, j, k - 1);
    }
  }

  // ---- The pool ----

  // What is taken is due after the newest snapshot given, or after --from.
  function Start(sc: Scenario): (t: int) {
    if |sc.snaps| > 0 then sc.snaps[0].time else match sc.from case Some(t) => t case None => 0
  }

  // The given pool, advanced once.
  function PoolAt(sc: Scenario, t: int): (pool: Pool) {
    match sc.schedule
    case None => sc.snaps
    case Some(advance) => advance(sc.snaps, Start(sc), t)
  }

  function LaterOf(a: int, b: int): (r: int) {
    if a < b then b else a
  }

  // Advancing twice is advancing once.
  ghost predicate Composes(sc: Scenario)
    requires sc.until.Some?
  {
    sc.schedule.Some? ==> forall b, c :: b <= c <= sc.until.value ==>
      sc.schedule.value(PoolAt(sc, b), LaterOf(Start(sc), b), c) == PoolAt(sc, c)
  }

  // Whether some backup is of the snapshot, or from it.
  predicate InSomeBackup(x: SnapshotInfo, dests: Destinations) {
    exists d: seq<Backup>, m: Backup :: d in dests && m in d && (
      || (m.base.name == x.name && m.base.time == x.time)
      || (m.source.name == x.name && m.source.time == x.time))
  }

  // What a run sees of a pool: what is taken by then and what is backed up, newest first.
  predicate Shows(seen: Pool, pool: Pool, at: int, dests: Destinations) {
    && (forall x :: x in seen ==> x in pool)
    && (forall x :: x in pool && (x.time <= at || InSomeBackup(x, dests)) ==> x in seen)
    && (SnapsNewestFirst(pool) ==>
      SnapsNewestFirst(seen) && forall x :: x in seen ==> x.time <= at || InSomeBackup(x, dests))
    && (DistinctNames(pool) ==> DistinctNames(seen))
  }

  // ---- What is recorded ----

  function Recorded(st: Step, raw: bool, dests: Destinations): (r: Destinations)
    ensures |r| == |dests|
  {
    if st.plan.Err? || st.plan.value.action.Noop? then dests
    else
      var p := st.plan.value;
      var m := Backup(p.base, if p.action.Full? then NoSnapshot else p.source, raw);
      seq(|dests|, i requires 0 <= i < |dests| => AddManifest(dests[i], m))
  }

  // The destinations after some runs.
  function AllRecorded(steps: seq<Step>, raw: bool, dests: Destinations): (r: Destinations)
    ensures |r| == |dests|
    decreases |steps|
  {
    if steps == [] then dests else AllRecorded(steps[1..], raw, Recorded(steps[0], raw, dests))
  }

  lemma RecordedIs(st: Step, raw: bool, dests: Destinations)
    ensures Recorded(st, raw, dests) == After(st, raw, dests)
  {
  }

  // ---- A run ----

  // A run on what is there by then, with a clock that is never behind the wall clock.
  predicate IsRunOn(sc: Scenario, st: Step, dests: Destinations)
    requires dests != []
  {
    && Shows(st.snaps, PoolAt(sc, st.at), st.at, dests)
    && st.plan == PlanSmartAt(LaterOf(sc.now, st.at), sc.options, st.snaps, dests, sc.completable)
  }

  ghost predicate AreRuns(sc: Scenario, steps: seq<Step>, dests: Destinations)
    requires dests != []
  {
    forall i :: 0 <= i < |steps| ==> IsRunOn(sc, steps[i], AllRecorded(steps[..i], sc.options.raw, dests))
  }

  // There is a step for each run time, in order, and for no other.
  ghost predicate CoversRuns(sc: Scenario, steps: seq<Step>, k: nat)
    requires sc.until.Some?
  {
    && (forall i, j :: 0 <= i < j < |steps| ==> steps[i].at < steps[j].at)
    && (forall st :: st in steps ==> RunsAt(sc, st.at, k))
    && forall t :: RunsAt(sc, t, k) ==> exists st :: st in steps && st.at == t
  }

  // ---- Seeing ----

  lemma BackedUpIff(x: SnapshotInfo, dests: Destinations)
    ensures BackedUp(dests, x) <==> InSomeBackup(x, dests)
  {
  }

  lemma {:induction false} KeepInOrder(snaps: Pool, dests: Destinations)
    ensures SnapsNewestFirst(snaps) ==> SnapsNewestFirst(Keep(snaps, dests))
    ensures DistinctNames(snaps) ==> DistinctNames(Keep(snaps, dests))
  {
    hide BackedUp, SnapsNewestFirst, DistinctNames;
    if snaps == [] {
      assert Keep(snaps, dests) == snaps;
    } else {
      KeepInOrder(snaps[1..], dests);
      KeptCons(snaps[0], snaps[1..], Keep(snaps[1..], dests));
      NamesCons(snaps[0], snaps[1..], Keep(snaps[1..], dests));
      assert snaps == [snaps[0]] + snaps[1..];
      var rest := Keep(snaps[1..], dests);
      assert Keep(snaps, dests) == if BackedUp(dests, snaps[0]) then [snaps[0]] + rest else rest;
    }
  }

  lemma KeptCons(x: SnapshotInfo, rest: Pool, kept: Pool)
    requires forall s :: s in kept ==> s in rest
    ensures SnapsNewestFirst([x] + rest) ==> SnapsNewestFirst(rest)
    ensures SnapsNewestFirst([x] + rest) && SnapsNewestFirst(kept) ==> SnapsNewestFirst([x] + kept)
  {
    var all, some := [x] + rest, [x] + kept;
    assert forall i :: 0 <= i < |rest| ==> all[i + 1] == rest[i];
    if SnapsNewestFirst(all) {
      forall s | s in rest
        ensures s.time <= x.time
      {
        var i :| 0 <= i < |rest| && rest[i] == s;
        assert all[0] == x && all[i + 1] == s;
      }
    }
    assert forall j :: 0 < j < |some| ==> some[j] == kept[j - 1] && kept[j - 1] in rest;
  }

  lemma NamesCons(x: SnapshotInfo, rest: Pool, kept: Pool)
    requires forall s :: s in kept ==> s in rest
    ensures DistinctNames([x] + rest) ==> DistinctNames(rest)
    ensures DistinctNames([x] + rest) && DistinctNames(kept) ==> DistinctNames([x] + kept)
  {
    var all, some := [x] + rest, [x] + kept;
    assert forall i :: 0 <= i < |rest| ==> all[i + 1] == rest[i];
    if DistinctNames(all) {
      forall s | s in rest
        ensures s.name != x.name
      {
        var i :| 0 <= i < |rest| && rest[i] == s;
        assert all[0] == x && all[i + 1] == s;
      }
    }
    assert forall j :: 0 < j < |some| ==> some[j] == kept[j - 1] && kept[j - 1] in rest;
  }

  // A list whose beginning is thinned out.
  lemma ThinnedInOrder(front: Pool, thinned: Pool, back: Pool)
    requires forall s :: s in thinned ==> s in front
    ensures SnapsNewestFirst(front + back) && SnapsNewestFirst(thinned) ==> SnapsNewestFirst(thinned + back)
    ensures DistinctNames(front + back) && DistinctNames(thinned) ==> DistinctNames(thinned + back)
  {
    var all, some := front + back, thinned + back;
    forall i | 0 <= i < |some|
      ensures i >= |thinned| ==> some[i] == all[i - |thinned| + |front|]
      ensures i < |thinned| ==> exists j :: 0 <= j < |front| && all[j] == some[i]
    {
      if i < |thinned| {
        assert thinned[i] in front;
        var j :| 0 <= j < |front| && front[j] == thinned[i];
        assert all[j] == some[i];
      }
    }
  }

  lemma SplitInOrder(front: Pool, back: Pool)
    ensures SnapsNewestFirst(front + back) ==> SnapsNewestFirst(front)
    ensures DistinctNames(front + back) ==> DistinctNames(front)
  {
    assert forall i :: 0 <= i < |front| ==> (front + back)[i] == front[i];
  }

  lemma VisibleShows(pool: Pool, at: int, dests: Destinations)
    ensures Shows(VisibleAt(pool, at, dests), pool, at, dests)
  {
    hide InSomeBackup, BackedUp, SnapsNewestFirst, DistinctNames, Keep, Leading;
    forall x: SnapshotInfo
      ensures BackedUp(dests, x) <==> InSomeBackup(x, dests)
    {
      BackedUpIff(x, dests);
    }
    var front, back := pool[..Leading(pool, at)], pool[Leading(pool, at)..];
    assert pool == front + back;
    SplitInOrder(front, back);
    KeepInOrder(front, dests);
    ThinnedInOrder(front, Keep(front, dests), back);
  }

  // ---- All runs ----

  // The pool and the time through which it is advanced lead to the given pool, advanced once.
  ghost predicate OnSchedule(sc: Scenario, snaps: Pool, taken: int, at: int)
    requires sc.until.Some?
  {
    && Start(sc) <= taken && (taken <= at || taken == Start(sc))
    && forall t :: at <= t <= sc.until.value ==> Advanced(sc, snaps, taken, t) == PoolAt(sc, t)
  }

  lemma StartsOnSchedule(sc: Scenario, at: int)
    requires sc.until.Some?
    ensures OnSchedule(sc, sc.snaps, FirstTaken(sc), at)
  {
  }

  lemma StaysOnSchedule(sc: Scenario, snaps: Pool, taken: int, at: int, next: int)
    requires sc.until.Some? && Composes(sc) && OnSchedule(sc, snaps, taken, at) && at < next && at <= sc.until.value
    ensures Advanced(sc, snaps, taken, at) == PoolAt(sc, at)
    ensures OnSchedule(sc, PoolAt(sc, at), TakenAt(sc, taken, at), next)
  {
    if sc.schedule.Some? {
      assert TakenAt(sc, taken, at) == LaterOf(Start(sc), at);
    }
  }

  lemma {:induction false} RunsFrom(
    sc: Scenario, k: nat, snaps: Pool, taken: int, dests: Destinations)
    requires ValidScenario(sc) && sc.until.Some? && dests != [] && Composes(sc)
    requires OnSchedule(sc, snaps, taken, RunTime(sc, k))
    ensures var sim := SimulateFrom(sc, sc.until.value, RunTime(sc, k), snaps, taken, dests);
      && CoversRuns(sc, sim.steps, k) && AreRuns(sc, sim.steps, dests)
      && sim.manifests == AllRecorded(sim.steps, sc.options.raw, dests)
    decreases if RunTime(sc, k) > sc.until.value then 0 else sc.until.value - RunTime(sc, k) + 1
  {
    hide OnSchedule, Composes, VisibleAt, Recorded, CoversRuns, AreRuns, IsRunOn, PoolAt, Advanced, TakenAt, Skipped;
    hide PlanSmartAt, Clock, After, RunOnce;
    var at := RunTime(sc, k);
    if at > sc.until.value {
      CoversNone(sc, k);
      NoRuns(sc, dests);
    } else {
      var pool, now := PoolAt(sc, at), TakenAt(sc, taken, at);
      StaysOnSchedule(sc, snaps, taken, at, RunTime(sc, k + 1));
      DownIff(sc, at);
      if Skipped(sc, at) {
        RunsFrom(sc, k + 1, pool, now, dests);
        CoversSkipped(sc, SimulateFrom(sc, sc.until.value, sc.nextRun(at), pool, now, dests).steps, k);
      } else {
        var st := RunOnce(sc, Clock(sc, at), at, VisibleAt(pool, at, dests), dests);
        RecordedIs(st, sc.options.raw, dests);
        OneRun(sc, at, dests);
        RunsFrom(sc, k + 1, pool, now, After(st, sc.options.raw, dests));
        var rest := SimulateFrom(sc, sc.until.value, sc.nextRun(at), pool, now, After(st, sc.options.raw, dests));
        CoversNext(sc, st, rest.steps, k);
        RunsNext(sc, st, rest.steps, dests);
        assert ([st] + rest.steps)[1..] == rest.steps;
      }
    }
  }

  lemma DownIff(sc: Scenario, t: int)
    ensures Skipped(sc, t) <==> IsDown(sc, t)
  {
  }

  lemma OneRun(sc: Scenario, at: int, dests: Destinations)
    requires dests != []
    ensures var st := RunOnce(sc, Clock(sc, at), at, VisibleAt(PoolAt(sc, at), at, dests), dests);
      IsRunOn(sc, st, dests) && st.at == at
  {
    hide PlanSmartAt, VisibleAt, Shows, PoolAt;
    VisibleShows(PoolAt(sc, at), at, dests);
  }

  lemma NoRuns(sc: Scenario, dests: Destinations)
    requires dests != []
    ensures AreRuns(sc, [], dests)
  {
  }

  lemma RunsNext(sc: Scenario, st: Step, rest: seq<Step>, dests: Destinations)
    requires dests != [] && IsRunOn(sc, st, dests)
    requires AreRuns(sc, rest, Recorded(st, sc.options.raw, dests))
    ensures AreRuns(sc, [st] + rest, dests)
  {
    hide IsRunOn, Recorded;
    var all := [st] + rest;
    forall i | 0 <= i < |all|
      ensures IsRunOn(sc, all[i], AllRecorded(all[..i], sc.options.raw, dests))
    {
      if i == 0 {
        assert all[..0] == [];
      } else {
        assert all[..i][0] == st && all[..i][1..] == rest[..i - 1] && all[i] == rest[i - 1];
      }
    }
  }

  lemma CoversNone(sc: Scenario, k: nat)
    requires ValidScenario(sc) && sc.until.Some? && RunTime(sc, k) > sc.until.value
    ensures CoversRuns(sc, [], k)
  {
    forall t
      ensures !RunsAt(sc, t, k)
    {
      if j: nat :| j >= k && RunTime(sc, j) == t {
        if j > k {
          TimesRise(sc, k, j);
        }
      }
    }
  }

  // The runs from the k-th on are the k-th, unless the host is down, and those after it.
  lemma RunsSplit(sc: Scenario, t: int, k: nat)
    requires ValidScenario(sc) && sc.until.Some? && RunTime(sc, k) <= sc.until.value
    ensures RunsAt(sc, t, k) <==> RunsAt(sc, t, k + 1) || (t == RunTime(sc, k) && !IsDown(sc, t))
    ensures RunsAt(sc, t, k + 1) ==> t > RunTime(sc, k)
  {
    hide IsDown, RunTime;
    forall j: nat | j >= k + 1
      ensures RunTime(sc, j) > RunTime(sc, k)
    {
      TimesRise(sc, k, j);
    }
  }

  lemma CoversSkipped(sc: Scenario, steps: seq<Step>, k: nat)
    requires ValidScenario(sc) && sc.until.Some? && RunTime(sc, k) <= sc.until.value && IsDown(sc, RunTime(sc, k))
    requires CoversRuns(sc, steps, k + 1)
    ensures CoversRuns(sc, steps, k)
  {
    hide RunsAt, IsDown, RunTime;
    forall t
      ensures RunsAt(sc, t, k) <==> RunsAt(sc, t, k + 1)
    {
      RunsSplit(sc, t, k);
    }
  }

  lemma CoversNext(sc: Scenario, st: Step, rest: seq<Step>, k: nat)
    requires ValidScenario(sc) && sc.until.Some? && st.at == RunTime(sc, k) <= sc.until.value && !IsDown(sc, st.at)
    requires CoversRuns(sc, rest, k + 1)
    ensures CoversRuns(sc, [st] + rest, k)
  {
    hide RunsAt, IsDown, RunTime;
    var all := [st] + rest;
    forall t
      ensures RunsAt(sc, t, k) <==> RunsAt(sc, t, k + 1) || t == st.at
      ensures RunsAt(sc, t, k + 1) ==> t > st.at
    {
      RunsSplit(sc, t, k);
    }
    forall i, j | 0 <= i < j < |all|
      ensures all[i].at < all[j].at
    {
      assert all[j] == rest[j - 1] && rest[j - 1] in rest && RunsAt(sc, rest[j - 1].at, k + 1);
      RunsSplit(sc, rest[j - 1].at, k);
      assert if i == 0 then all[i] == st else all[i] == rest[i - 1];
    }
    forall t | RunsAt(sc, t, k)
      ensures exists x :: x in all && x.at == t
    {
      if t == st.at {
        assert st in all;
      } else {
        var x :| x in rest && x.at == t;
        assert x in all;
      }
    }
  }

  // A simulation through --until has a run at each time outside the skips, and at no other. Each
  // sees what the given pool, advanced once to its time, has by then, plans with what the runs before
  // it recorded, and what all of them recorded is what is left.
  lemma SimulationIs(sc: Scenario)
    requires ValidScenario(sc) && sc.until.Some? && Composes(sc)
    ensures var sim := Simulate(sc);
      && CoversRuns(sc, sim.steps, 0) && AreRuns(sc, sim.steps, sc.dests)
      && sim.manifests == AllRecorded(sim.steps, sc.options.raw, sc.dests)
  {
    hide SimulateFrom, CoversRuns, AreRuns, AllRecorded, Composes, OnSchedule;
    StartsOnSchedule(sc, RunTime(sc, 0));
    RunsFrom(sc, 0, sc.snaps, FirstTaken(sc), sc.dests);
  }

  // Without --until it is one run, on the given pool, now.
  lemma OneRunIs(sc: Scenario)
    requires ValidScenario(sc) && sc.until.None?
    ensures var sim := Simulate(sc);
      && |sim.steps| == 1 && sim.steps[0].snaps == sc.snaps
      && sim.steps[0].plan == PlanSmartAt(sc.now, sc.options, sc.snaps, sc.dests, sc.completable)
      && sim.manifests == Recorded(sim.steps[0], sc.options.raw, sc.dests)
  {
    hide PlanSmartAt;
    RecordedIs(Simulate(sc).steps[0], sc.options.raw, sc.dests);
  }
}
