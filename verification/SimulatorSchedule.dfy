// A simulation whose pool is kept by a snapshot schedule.
module SimulatorSchedule {
  import opened Common
  import opened Planner
  import opened Simulator
  import opened SimulatorRuns
  import Schedule
  import ScheduleComposition

  // The pool is advanced by the policy; no name repeats, no snapshot is of two periods, and
  // boundaries do not overlap.
  ghost predicate Keeps(sc: Scenario, s: Schedule.Policy)
    requires sc.until.Some?
  {
    && sc.schedule.Some?
    && (forall x: Pool, from, to :: sc.schedule.value(x, from, to) == Schedule.Advance(s, x, Some(from), to))
    && ScheduleComposition.Spread(s)
    && ScheduleComposition.NoNameRepeats(s, sc.snaps, Start(sc), sc.until.value)
    && ScheduleComposition.OnePeriod(
      sc.snaps + ScheduleComposition.Taken(s, Start(sc), sc.until.value), s.periods)
  }

  lemma NoRepeatsBefore(s: Schedule.Policy, snaps: Pool, a: int, c: int, until: int)
    requires c <= until && ScheduleComposition.NoNameRepeats(s, snaps, a, until)
    requires ScheduleComposition.OnePeriod(snaps + ScheduleComposition.Taken(s, a, until), s.periods)
    ensures ScheduleComposition.NoNameRepeats(s, snaps, a, c)
    ensures ScheduleComposition.OnePeriod(snaps + ScheduleComposition.Taken(s, a, c), s.periods)
  {
    hide Schedule.Mine, ScheduleComposition.Taken;
    ScheduleComposition.TakenAfter(s, a, c, until);
    var all, first := ScheduleComposition.Taken(s, a, until), ScheduleComposition.Taken(s, a, c);
    var rest := ScheduleComposition.Taken(s, ScheduleComposition.Later(a, c), until);
    assert all == rest + first;
    forall i, j | 0 <= i < j < |snaps + first|
      ensures (snaps + first)[i].name != (snaps + first)[j].name
    {
      var x := if i < |snaps| then i else i + |rest|;
      var y := if j < |snaps| then j else j + |rest|;
      assert (snaps + first)[i] == (snaps + all)[x] && (snaps + first)[j] == (snaps + all)[y];
    }
  }

  lemma PolicyComposes(sc: Scenario, s: Schedule.Policy)
    requires sc.until.Some? && Keeps(sc, s)
    ensures Composes(sc)
  {
    hide ScheduleComposition.NoNameRepeats, ScheduleComposition.OnePeriod, ScheduleComposition.Spread, Schedule.Advance;
    forall b, c | b <= c <= sc.until.value
      ensures sc.schedule.value(PoolAt(sc, b), LaterOf(Start(sc), b), c) == PoolAt(sc, c)
    {
      NoRepeatsBefore(s, sc.snaps, Start(sc), c, sc.until.value);
      ScheduleComposition.AdvanceComposes(s, sc.snaps, Start(sc), b, c);
      assert LaterOf(Start(sc), b) == ScheduleComposition.Later(Start(sc), b);
    }
  }

  // The steps of such a simulation: one for each run time outside the skips; each sees exactly what
  // the given pool, advanced by the policy from the newest snapshot given to that time, has by then,
  // and what is backed up.
  lemma ScheduledSimulationIs(sc: Scenario, s: Schedule.Policy, i: nat)
    requires ValidScenario(sc) && sc.until.Some? && Keeps(sc, s) && i < |Simulate(sc).steps|
    ensures CoversRuns(sc, Simulate(sc).steps, 0)
    ensures var st, pool := Simulate(sc).steps[i], Schedule.Advance(
      s, sc.snaps, Some(Start(sc)), Simulate(sc).steps[i].at);
      var dests := AllRecorded(Simulate(sc).steps[..i], sc.options.raw, sc.dests);
      forall x :: x in st.snaps <==> x in pool && (x.time <= st.at || InSomeBackup(x, dests))
  {
    hide Simulate, CoversRuns, Schedule.Advance, AllRecorded, InSomeBackup, PlanSmartAt, Composes, SnapsNewestFirst;
    PolicyComposes(sc, s);
    SimulationIs(sc);
    var st := Simulate(sc).steps[i];
    assert IsRunOn(sc, st, AllRecorded(Simulate(sc).steps[..i], sc.options.raw, sc.dests));
    AdvancedInOrder(s, sc.snaps, Some(Start(sc)), st.at);
  }

  lemma AdvancedInOrder(s: Schedule.Policy, snaps: Pool, from: Option<int>, to: int)
    ensures SnapsNewestFirst(Schedule.Advance(s, snaps, from, to))
  {
    hide Schedule.SortNewest, Schedule.FirstOfName, Schedule.Found, Schedule.PruneAfter, SnapsNewestFirst;
    var all := snaps + Schedule.SortNewest(Schedule.FirstOfName(Schedule.Found(s, from, to), Schedule.NamesOf(snaps)));
    Schedule.SortSorted(all);
    PrunedInOrder([], Schedule.SortNewest(all), s.periods, to);
  }

  lemma {:induction false} PrunedInOrder(
    newer: Pool, d: Pool, periods: seq<Schedule.Period>, now: int)
    requires SnapsNewestFirst(d)
    ensures SnapsNewestFirst(Schedule.PruneAfter(newer, d, periods, now))
    ensures forall x :: x in Schedule.PruneAfter(newer, d, periods, now) ==> x in d
    decreases |d|
  {
    hide Schedule.Doomed;
    if d != [] {
      PrunedInOrder(newer + [d[0]], d[1..], periods, now);
      assert d == [d[0]] + d[1..];
      KeptCons(d[0], d[1..], Schedule.PruneAfter(newer + [d[0]], d[1..], periods, now));
    }
  }
}
