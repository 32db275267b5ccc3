// The checks never fire on the planner: a --fullIfOlderThan simulation of one destination.
module SimulatorTheorem {
  import opened Common
  import opened Planner
  import opened PlannerFacts
  import opened Chains
  import opened Simulator
  import opened SimulatorChecks

  predicate HeadNewest(d: seq<Backup>) {
    d != [] ==> forall b: Backup :: b in d ==> b.base.time <= d[0].base.time
  }

  // A destination whose every backup restores and none of which is dated in the future, and whose
  // snapshot names tell their time.
  predicate Sound(d: seq<Backup>, timeOf: string -> int, limit: int) {
    && HeadNewest(d) && Linked(d) && BrokenLink(d).None?
    && forall b: Backup :: b in d ==> b.base.time <= limit && b.base.time == timeOf(b.base.name)
  }

  // ---- One plan ----

  lemma OneIsNotPartial(d: seq<Backup>)
    ensures PartialSet([d]).None?
  {
    assert Leader([d]) == d;
  }

  lemma UnbrokenHasFull(d: seq<Backup>)
    requires d != [] && BrokenLink(d).None?
    ensures LastFull(d).Some?
  {
    WalkRestores(d, d[0], 0);
    var chain: seq<Backup> :| Restores(d, chain) && chain[0] == d[0];
    var n := |chain| - 1;
    assert n > 0 ==> ParentOf(d, chain[n - 1].source) == Some(chain[n]);
    assert chain[n] in d;
  }

  // A plan of one destination sends something newer than its newest backup.
  predicate SendsNewer(r: Result<Plan, PlanError>, d: seq<Backup>) {
    r.Ok? && !r.value.action.Noop? ==>
      && !r.value.reason.ExplicitFull? && !r.value.reason.CompletePartial?
      && (d != [] ==> d[0].base.time < r.value.base.time)
  }

  lemma ContinueSendsNewer(
    o: Options, snaps: seq<SnapshotInfo>, fullBase: Option<SnapshotInfo>, incrBase: Option<SnapshotInfo>,
    d: seq<Backup>, fullDue: bool)
    requires d != []
    ensures SendsNewer(PlanContinue(o, snaps, fullBase, incrBase, [d], fullDue), d)
  {
    hide PresenceOf, SameStreamKind, LastBackupsAgree;
  }

  lemma ByAgeSendsNewer(
    o: Options, snaps: seq<SnapshotInfo>, fullBase: Option<SnapshotInfo>, incrBase: Option<SnapshotInfo>,
    d: seq<Backup>)
    requires snaps != [] && AgeOptions(o) && BrokenLink(d).None? && ComparablesAgree(o, [d])
    ensures SendsNewer(PlanFullIfOlder(o, snaps, fullBase, incrBase, [d]), d)
  {
    hide PlanContinue, BrokenLink, FirstBrokenChain;
    if d != [] {
      UnbrokenHasFull(d);
      var age := FullWindowElapsed(snaps[0].time - Comparable(o, [d][0]).value.time, o.fullIfOlderThan);
      ContinueSendsNewer(o, snaps, fullBase, incrBase, d, age);
    }
  }

  lemma SmartSendsNewer(o: Options, snaps: seq<SnapshotInfo>, d: seq<Backup>, completable: bool)
    requires AgeOptions(o) && BrokenLink(d).None?
    ensures SendsNewer(PlanSmart(o, snaps, [d], completable), d)
  {
    hide PlanFullIfOlder, BrokenLink, PartialSet, LastBackupsOnPool, NewestMatching;
    OneIsNotPartial(d);
    if snaps != [] {
      ByAgeSendsNewer(o, snaps, NewestMatching(snaps, o.prefix, o.fullSuffix),
        NewestMatching(snaps, o.prefix, o.incrementalSuffix), d);
    }
  }

  // The source of an incremental is on the pool the plan was made for.
  predicate SourceThere(o: Options, snaps: seq<SnapshotInfo>, r: Result<Plan, PlanError>) {
    IsIncremental(r) ==>
      var presence := PresenceOf(r.value.source, snaps);
      presence.Present? || (presence.OnlyBookmark? && !NeedsSnapshotSource(o))
  }

  lemma {:induction false} PresenceOfEqual(a: SnapshotInfo, b: SnapshotInfo, snaps: seq<SnapshotInfo>)
    requires Equal(a, b)
    ensures PresenceOf(a, snaps) == PresenceOf(b, snaps)
  {
    if snaps != [] {
      PresenceOfEqual(a, b, snaps[1..]);
    }
  }

  lemma ContinueSourceThere(
    o: Options, snaps: seq<SnapshotInfo>, fullBase: Option<SnapshotInfo>, incrBase: Option<SnapshotInfo>,
    d: seq<Backup>, fullDue: bool)
    requires d != []
    ensures SourceThere(o, snaps, PlanContinue(o, snaps, fullBase, incrBase, [d], fullDue))
  {
    hide PresenceOf, SameStreamKind, LastBackupsAgree;
    forall flag: bool
      ensures PresenceOf(d[0].base.(bookmark := flag), snaps) == PresenceOf(d[0].base, snaps)
    {
      PresenceOfEqual(d[0].base.(bookmark := flag), d[0].base, snaps);
    }
  }

  lemma SmartSourceThere(o: Options, snaps: seq<SnapshotInfo>, d: seq<Backup>, completable: bool)
    requires AgeOptions(o)
    ensures SourceThere(o, snaps, PlanSmart(o, snaps, [d], completable))
  {
    hide PlanContinue, BrokenLink, FirstBrokenChain, PartialSet, LastBackupsOnPool, NewestMatching, PresenceOf;
    hide LastFull;
    OneIsNotPartial(d);
    if snaps != [] && d != [] && Comparable(o, [d][0]).Some? {
      var age := FullWindowElapsed(snaps[0].time - Comparable(o, [d][0]).value.time, o.fullIfOlderThan);
      ContinueSourceThere(o, snaps, NewestMatching(snaps, o.prefix, o.fullSuffix),
        NewestMatching(snaps, o.prefix, o.incrementalSuffix), d, age);
    }
  }

  // ---- One run ----

  function Next(d: seq<Backup>, st: Step, raw: bool): (r: seq<Backup>) {
    if Sends(st) then [BackupFor(st.plan.value, raw)] + d else d
  }

  predicate GoodStep(o: Options, d: seq<Backup>, st: Step) {
    Sends(st) ==>
      var p := st.plan.value;
      && !p.reason.ExplicitFull? && !p.reason.CompletePartial?
      && (forall b: Backup :: b in d ==> b.base.time < p.base.time)
      && (IsIncremental(st.plan) ==> d != [] && Equal(d[0].base, p.source) && SourceOnPool(o, st))
  }

  lemma FewerPresent(s: SnapshotInfo, few: Pool, all: Pool)
    requires forall x :: x in few ==> x in all
    ensures PresenceOf(s, few).Present? ==> PresenceOf(s, all).Present?
    ensures PresenceOf(s, all).Absent? ==> PresenceOf(s, few).Absent?
  {
  }

  lemma PlanIsGood(
    o: Options, clock: int, at: int, snaps: Pool, d: seq<Backup>, completable: bool, timeOf: string -> int)
    requires AgeOptions(o) && Sound(d, timeOf, clock + FutureSlack) && Dated(snaps, timeOf)
    ensures var st := Step(at, snaps, PlanSmartAt(clock, o, snaps, [d], completable));
      && GoodStep(o, d, st)
      && (Sends(st) ==> st.plan.value.base in snaps && st.plan.value.base.time <= clock + FutureSlack)
  {
    hide PlanSmart, KeptBackups, BrokenLink, Linked, PresenceOf;
    var limit := clock + FutureSlack;
    var kept := KeptSnapshots(snaps, limit);
    KeepsAll(d, limit);
    assert KeptDestinations([d], limit) == [d];
    var r := PlanSmart(o, kept, [d], completable);
    SmartSendsNewer(o, kept, d, completable);
    SmartSourceThere(o, kept, d, completable);
    if r.Ok? && !r.value.action.Noop? {
      SmartSendsCandidate(o, kept, [d], completable);
      if r.value.action.Incremental? {
        IncrementalContinues(o, kept, [d], completable);
        assert [d][0] in [d];
        FewerPresent(r.value.source, kept, snaps);
      }
    }
  }

  lemma NextSound(o: Options, d: seq<Backup>, st: Step, timeOf: string -> int, limit: int)
    requires Sound(d, timeOf, limit) && GoodStep(o, d, st)
    requires Sends(st) ==>
      st.plan.value.base.time == timeOf(st.plan.value.base.name) && st.plan.value.base.time <= limit
    ensures Sound(Next(d, st, o.raw), timeOf, limit)
    ensures After(st, o.raw, [d]) == [Next(d, st, o.raw)]
  {
    hide BrokenLink, Linked, AddManifest;
    if Sends(st) {
      var m := BackupFor(st.plan.value, o.raw);
      NewestGoesFirst(d, m);
      NextLinked(d, m);
      NextUnbroken(d, m);
      NextDated(d, m, timeOf, limit);
    }
  }

  lemma NextDated(d: seq<Backup>, m: Backup, timeOf: string -> int, limit: int)
    requires forall b: Backup :: b in d ==>
      b.base.time <= limit && b.base.time == timeOf(b.base.name) && b.base.time < m.base.time
    requires m.base.time <= limit && m.base.time == timeOf(m.base.name)
    ensures HeadNewest([m] + d)
    ensures forall b: Backup :: b in [m] + d ==> b.base.time <= limit && b.base.time == timeOf(b.base.name)
  {
  }

  lemma NextLinked(d: seq<Backup>, m: Backup)
    requires Linked(d) && (IsFull(m) || (d != [] && Equal(d[0].base, m.source)))
    ensures Linked([m] + d)
  {
    var r := [m] + d;
    forall c: Backup | c in r && !IsFull(c)
      ensures ParentOf(r, c.source).Some?
    {
      if c == m {
        assert d[0] in r;
      } else {
        assert c in d;
        var p := ParentOf(d, c.source).value;
        assert p in r;
      }
    }
  }

  lemma NextUnbroken(d: seq<Backup>, m: Backup)
    requires BrokenLink(d).None? && forall b: Backup :: b in d ==> b.base.time < m.base.time
    requires IsFull(m) || (d != [] && Equal(d[0].base, m.source))
    ensures BrokenLink([m] + d).None?
  {
    hide BrokenLink, ParentOf, KeptBackups;
    var r := [m] + d;
    BrokenLinkIsExact(r);
    if IsFull(m) {
      assert Restores(r, [m]);
    } else {
      var chain := ParentChain(d, m.source);
      KeepsAll(d, m.base.time);
      ChainSurvives(d, m.base.time, 0, m, chain);
      assert InsertAt(d, 0, m) == r;
      ParentUnchanged(d, 0, m, m.source);
      SentRestoresBy(r, m, chain);
    }
  }

  // ---- All runs ----

  predicate GoodRun(o: Options, d: seq<Backup>, steps: seq<Step>)
    decreases |steps|
  {
    steps == [] || (GoodStep(o, d, steps[0]) && GoodRun(o, Next(d, steps[0], o.raw), steps[1..]))
  }

  // Every pool of the scenario's history has names that tell their time.
  ghost predicate DatedHistory(sc: Scenario, timeOf: string -> int) {
    && Dated(sc.snaps, timeOf)
    && (sc.schedule.Some? ==>
        forall p: Pool, a: int, b: int :: Dated(p, timeOf) ==> Dated(sc.schedule.value(p, a, b), timeOf))
  }

  lemma SoundLater(d: seq<Backup>, timeOf: string -> int, limit: int, later: int)
    requires Sound(d, timeOf, limit) && limit <= later
    ensures Sound(d, timeOf, later)
  {
  }

  lemma {:induction false} SimulationIsGood(
    sc: Scenario, timeOf: string -> int, until: int, at: int, snaps: Pool, taken: int, d: seq<Backup>, limit: int)
    requires ValidScenario(sc) && AgeOptions(sc.options) && DatedHistory(sc, timeOf) && Dated(snaps, timeOf)
    requires Sound(d, timeOf, limit) && limit <= Clock(sc, at) + FutureSlack
    ensures var sim := SimulateFrom(sc, until, at, snaps, taken, [d]);
      GoodRun(sc.options, d, sim.steps) && |sim.manifests| == 1 && Linked(sim.manifests[0])
    decreases if at > until then 0 else until - at + 1
  {
    hide Sound, GoodStep, Linked, PlanSmartAt, Next, After, VisibleAt;
    if at <= until {
      var pool, now := Advanced(sc, snaps, taken, at), TakenAt(sc, taken, at);
      var clock := Clock(sc, at);
      SoundLater(d, timeOf, limit, clock + FutureSlack);
      if Skipped(sc, at) {
        SimulationIsGood(sc, timeOf, until, sc.nextRun(at), pool, now, d, clock + FutureSlack);
      } else {
        var visible := VisibleAt(pool, at, [d]);
        var st := RunOnce(sc, clock, at, visible, [d]);
        PlanIsGood(sc.options, clock, at, visible, d, sc.completable, timeOf);
        NextSound(sc.options, d, st, timeOf, clock + FutureSlack);
        SimulationIsGood(sc, timeOf, until, sc.nextRun(at), pool, now, Next(d, st, sc.options.raw),
          clock + FutureSlack);
        var rest := SimulateFrom(sc, until, sc.nextRun(at), pool, now, [Next(d, st, sc.options.raw)]);
        assert ([st] + rest.steps)[1..] == rest.steps;
      }
    } else {
      SoundIsLinked(d, timeOf, limit);
    }
  }

  lemma SoundIsLinked(d: seq<Backup>, timeOf: string -> int, limit: int)
    requires Sound(d, timeOf, limit)
    ensures Linked(d)
  {
  }

  // ---- What a good run means for the checks ----

  lemma {:induction false} GoodSources(o: Options, d: seq<Backup>, steps: seq<Step>, i: nat)
    requires GoodRun(o, d, steps) && i < |steps|
    ensures SourceOnPool(o, steps[i])
    decreases |steps|
  {
    if i > 0 {
      GoodSources(o, Next(d, steps[0], o.raw), steps[1..], i - 1);
    }
  }

  lemma {:induction false} SentNewer(o: Options, d: seq<Backup>, steps: seq<Step>, i: nat)
    requires GoodRun(o, d, steps) && i < |steps| && Sends(steps[i])
    ensures forall b: Backup :: b in d ==> b.base.time < steps[i].plan.value.base.time
    decreases |steps|
  {
    if i > 0 {
      SentNewer(o, Next(d, steps[0], o.raw), steps[1..], i - 1);
      assert forall b: Backup :: b in d ==> b in Next(d, steps[0], o.raw);
    }
  }

  lemma {:induction false} SentInOrder(o: Options, d: seq<Backup>, steps: seq<Step>, j: nat, i: nat)
    requires GoodRun(o, d, steps) && j < i < |steps| && Sends(steps[i]) && Sends(steps[j])
    ensures steps[j].plan.value.base.time < steps[i].plan.value.base.time
    decreases |steps|
  {
    var next := Next(d, steps[0], o.raw);
    if j == 0 {
      SentNewer(o, next, steps[1..], i - 1);
      assert next[0] in next;
    } else {
      SentInOrder(o, next, steps[1..], j - 1, i - 1);
    }
  }

  lemma GoodSendsOnce(o: Options, d: seq<Backup>, steps: seq<Step>)
    requires GoodRun(o, d, steps)
    ensures NothingSentTwice(steps, d)
  {
    hide GoodRun;
    forall i: nat | i < |steps|
      ensures SentOnce(steps, d, i)
    {
      if Judged(steps[i]) {
        SentNewer(o, d, steps, i);
        forall j | 0 <= j < i && Judged(steps[j])
          ensures !Equal(steps[j].plan.value.base, steps[i].plan.value.base)
        {
          SentInOrder(o, d, steps, j, i);
        }
      }
    }
  }

  lemma {:induction false} ContinuesHead(o: Options, d: seq<Backup>, steps: seq<Step>, j: nat)
    requires GoodRun(o, d, steps) && j < |steps| && IsIncremental(steps[j].plan)
    requires forall k :: 0 <= k < j ==> !Sends(steps[k])
    ensures d != [] && Equal(steps[j].plan.value.source, d[0].base)
    decreases |steps|
  {
    if j > 0 {
      assert !Sends(steps[0]);
      ContinuesHead(o, d, steps[1..], j - 1);
    }
  }

  lemma {:induction false} ContinuesFull(o: Options, d: seq<Backup>, steps: seq<Step>, i: nat, j: nat)
    requires GoodRun(o, d, steps) && j < |steps| && SentBefore(steps, i, j) && IsIncremental(steps[j].plan)
    ensures Equal(steps[j].plan.value.source, steps[i].plan.value.base)
    decreases |steps|
  {
    var next, rest := Next(d, steps[0], o.raw), steps[1..];
    if i == 0 {
      ContinuesHead(o, next, rest, j - 1);
    } else {
      assert SentBefore(rest, i - 1, j - 1);
      ContinuesFull(o, next, rest, i - 1, j - 1);
    }
  }

  lemma GoodFullsContinued(o: Options, d: seq<Backup>, steps: seq<Step>)
    requires GoodRun(o, d, steps)
    ensures FullsContinued(steps)
  {
    hide GoodRun;
    forall i: nat, j: nat |
      j < |steps| && SentBefore(steps, i, j) && IsPlannedFull(steps[i].plan) && IsIncremental(steps[j].plan)
      ensures Equal(steps[j].plan.value.source, steps[i].plan.value.base)
    {
      ContinuesFull(o, d, steps, i, j);
    }
  }

  // For every pool history, a simulation of one destination that starts sound breaks no check.
  lemma ChecksHold(sc: Scenario, timeOf: string -> int)
    requires ValidScenario(sc) && AgeOptions(sc.options) && |sc.dests| == 1
    requires DatedHistory(sc, timeOf) && Sound(sc.dests[0], timeOf, sc.now + FutureSlack)
    ensures var sim := Simulate(sc);
      && (forall d: seq<Backup> :: d in sim.manifests ==> Linked(d))
      && (forall i :: 0 <= i < |sim.steps| ==> SourceOnPool(sc.options, sim.steps[i]))
      && (forall d: seq<Backup> :: d in sc.dests ==> NothingSentTwice(sim.steps, d))
      && FullsContinued(sim.steps)
  {
    hide SimulateFrom, GoodStep, Sound, Linked, SourceOnPool, NothingSentTwice, FullsContinued, After, Next;
    hide PlanSmartAt;
    var sim, o, d := Simulate(sc), sc.options, sc.dests[0];
    assert sc.dests == [d];
    if sc.until.None? {
      PlanIsGood(o, sc.now, 0, sc.snaps, d, sc.completable, timeOf);
      NextSound(o, d, sim.steps[0], timeOf, sc.now + FutureSlack);
      SoundIsLinked(Next(d, sim.steps[0], o.raw), timeOf, sc.now + FutureSlack);
      assert sim.steps[1..] == [];
    } else {
      SimulationIsGood(sc, timeOf, sc.until.value, FirstRun(sc, sc.until.value), sc.snaps, FirstTaken(sc), d,
        sc.now + FutureSlack);
    }
    forall i | 0 <= i < |sim.steps|
      ensures SourceOnPool(o, sim.steps[i])
    {
      GoodSources(o, d, sim.steps, i);
    }
    GoodSendsOnce(o, d, sim.steps);
    GoodFullsContinued(o, d, sim.steps);
  }

  // The same, as the four checks report it.
  method JudgeScenario(sc: Scenario, ghost timeOf: string -> int) returns (sim: Simulation, found: seq<Violation>)
    requires ValidScenario(sc) && AgeOptions(sc.options) && |sc.dests| == 1
    requires DatedHistory(sc, timeOf) && Sound(sc.dests[0], timeOf, sc.now + FutureSlack)
    ensures sim == Simulate(sc) && found == []
  {
    sim := RunScenario(sc);
    ChecksHold(sc, timeOf);
    var links := CheckChainLinks(sim.manifests);
    var sources := CheckSourcePresent(sc.options, sim.steps);
    var twice := CheckNoDuplicateSend(sc.dests, sim.steps);
    var orphans := CheckNoOrphanFull(sim.steps);
    found := links + sources + twice + orphans;
  }
}
