// The plan simulator: smart runs over a pool that a schedule changes between them.
module Simulator {
  import opened Common
  import opened Planner
  import opened Chains

  // ---- Recording a backup ----

  function Others(d: seq<Backup>, m: Backup): (r: seq<Backup>)
    ensures forall b: Backup :: b in r <==> b in d && !SameObject(b, m)
  {
    if d == [] then []
    else
      assert d == [d[0]] + d[1..];
      (if SameObject(d[0], m) then [] else [d[0]]) + Others(d[1..], m)
  }

  // How many leading entries are not older than the time.
  function NotOlder(d: seq<Backup>, time: int): (n: nat)
    ensures n <= |d|
    ensures forall i :: 0 <= i < n ==> d[i].base.time >= time
    ensures n < |d| ==> d[n].base.time < time
  {
    if d == [] || d[0].base.time < time then 0 else 1 + NotOlder(d[1..], time)
  }

  // The set replaces one of the same object name, and goes after the entries that are not older.
  function AddManifest(d: seq<Backup>, m: Backup): (r: seq<Backup>)
    ensures forall b: Backup :: b in r <==> b == m || (b in d && !SameObject(b, m))
  {
    var out := Others(d, m);
    InsertAt(out, NotOlder(out, m.base.time), m)
  }

  method RecordManifest(d: seq<Backup>, m: Backup) returns (r: seq<Backup>)
    ensures r == AddManifest(d, m)
  {
    var out: seq<Backup> := [];
    for n := 0 to |d|
      invariant out == Others(d[..n], m)
    {
      OthersAppend(d[..n], d[n], m);
      assert d[..n + 1] == d[..n] + [d[n]];
      if !SameObject(d[n], m) {
        out := out + [d[n]];
      }
    }
    assert d[..|d|] == d;
    var i := 0;
    while i < |out| && out[i].base.time >= m.base.time
      invariant i <= |out| && forall k :: 0 <= k < i ==> out[k].base.time >= m.base.time
    {
      i := i + 1;
    }
    NotOlderIs(out, m.base.time, i);
    return out[..i] + [m] + out[i..];
  }

  lemma {:induction false} OthersAppend(d: seq<Backup>, b: Backup, m: Backup)
    ensures Others(d + [b], m) == Others(d, m) + if SameObject(b, m) then [] else [b]
  {
    if d == [] {
      assert d + [b] == [b] && [b][1..] == [];
    } else {
      assert (d + [b])[0] == d[0] && (d + [b])[1..] == d[1..] + [b];
      OthersAppend(d[1..], b, m);
    }
  }

  lemma NotOlderIs(d: seq<Backup>, time: int, i: nat)
    requires i <= |d| && (forall k :: 0 <= k < i ==> d[k].base.time >= time) && (i < |d| ==> d[i].base.time < time)
    ensures NotOlder(d, time) == i
  {
  }

  lemma {:induction false} OthersAll(d: seq<Backup>, m: Backup)
    requires forall b: Backup :: b in d ==> !SameObject(b, m)
    ensures Others(d, m) == d
  {
    if d != [] {
      assert d == [d[0]] + d[1..];
      OthersAll(d[1..], m);
    }
  }

  // A set newer than every other goes in front.
  lemma NewestGoesFirst(d: seq<Backup>, m: Backup)
    requires forall b: Backup :: b in d ==> b.base.time < m.base.time && !SameObject(b, m)
    ensures AddManifest(d, m) == [m] + d
  {
    OthersAll(d, m);
    assert d != [] ==> d[0] in d;
    NotOlderIs(d, m.base.time, 0);
  }

  // ---- One run ----

  type Pool = seq<SnapshotInfo>
  type Destinations = seq<seq<Backup>>

  // advance takes and prunes the snapshots due after one time and through another.
  datatype Scenario = Scenario(
    options: Options, snaps: Pool, dests: Destinations, completable: bool,
    schedule: Option<(Pool, int, int) -> Pool>, from: Option<int>, until: Option<int>,
    nextRun: int -> int, skips: seq<(int, int)>, now: int)

  ghost predicate ValidScenario(sc: Scenario) {
    sc.dests != [] && forall t: int :: t < sc.nextRun(t)
  }

  datatype Step = Step(at: int, snaps: Pool, plan: Result<Plan, PlanError>)

  datatype Simulation = Simulation(steps: seq<Step>, manifests: Destinations)

  predicate Sends(st: Step) {
    st.plan.Ok? && !st.plan.value.action.Noop?
  }

  function Clock(sc: Scenario, at: int): (now: int)
    ensures now >= at && now >= sc.now
  {
    if at > sc.now then at else sc.now
  }

  predicate Skipped(sc: Scenario, at: int) {
    exists r :: r in sc.skips && r.0 <= at < r.1
  }

  predicate BackedUp(dests: Destinations, s: SnapshotInfo) {
    exists d: seq<Backup>, m: Backup :: d in dests && m in d && (Equal(m.base, s) || Equal(m.source, s))
  }

  function Keep(snaps: Pool, dests: Destinations): (r: Pool)
    ensures forall s :: s in r <==> s in snaps && BackedUp(dests, s)
  {
    if snaps == [] then []
    else
      assert snaps == [snaps[0]] + snaps[1..];
      (if BackedUp(dests, snaps[0]) then [snaps[0]] else []) + Keep(snaps[1..], dests)
  }

  function Leading(snaps: Pool, at: int): (n: nat)
    ensures n <= |snaps|
  {
    if snaps == [] || snaps[0].time <= at then 0 else 1 + Leading(snaps[1..], at)
  }

  // A run does not see the snapshots taken after it, other than those already backed up.
  function VisibleAt(snaps: Pool, at: int, dests: Destinations): (r: Pool)
    ensures forall s :: s in r ==> s in snaps
    ensures forall s :: s in snaps && (s.time <= at || BackedUp(dests, s)) ==> s in r
    ensures SnapsNewestFirst(snaps) ==> forall s :: s in r ==> s.time <= at || BackedUp(dests, s)
  {
    var i := Leading(snaps, at);
    assert forall s :: s in snaps[..i] ==> s in snaps;
    assert snaps == snaps[..i] + snaps[i..];
    LeadingNewer(snaps, at);
    Keep(snaps[..i], dests) + snaps[i..]
  }

  lemma {:induction false} LeadingNewer(snaps: Pool, at: int)
    ensures forall s :: s in snaps[..Leading(snaps, at)] ==> s.time > at
    ensures SnapsNewestFirst(snaps) ==> forall s :: s in snaps[Leading(snaps, at)..] ==> s.time <= at
  {
    if snaps != [] && snaps[0].time > at {
      LeadingNewer(snaps[1..], at);
      assert snaps[..Leading(snaps, at)] == [snaps[0]] + snaps[1..][..Leading(snaps[1..], at)];
      assert snaps[Leading(snaps, at)..] == snaps[1..][Leading(snaps[1..], at)..];
    }
  }

  function RunOnce(sc: Scenario, clock: int, at: int, snaps: Pool, dests: Destinations): (st: Step)
    requires dests != []
  {
    Step(at, snaps, PlanSmartAt(clock, sc.options, snaps, dests, sc.completable))
  }

  // Every destination records what was sent.
  function After(st: Step, raw: bool, dests: Destinations): (r: Destinations)
    ensures |r| == |dests|
  {
    if !Sends(st) then dests
    else seq(|dests|, i requires 0 <= i < |dests| => AddManifest(dests[i], BackupFor(st.plan.value, raw)))
  }

  // ---- All runs ----

  function Advanced(sc: Scenario, snaps: Pool, taken: int, at: int): (r: Pool) {
    if sc.schedule.Some? then sc.schedule.value(snaps, taken, at) else snaps
  }

  function TakenAt(sc: Scenario, taken: int, at: int): (r: int) {
    if sc.schedule.Some? && at > taken then at else taken
  }

  ghost function SimulateFrom(
    sc: Scenario, until: int, at: int, snaps: Pool, taken: int, dests: Destinations): (sim: Simulation)
    requires ValidScenario(sc) && dests != []
    decreases if at > until then 0 else until - at + 1
  {
    if at > until then Simulation([], dests)
    else
      var pool, now := Advanced(sc, snaps, taken, at), TakenAt(sc, taken, at);
      if Skipped(sc, at) then SimulateFrom(sc, until, sc.nextRun(at), pool, now, dests)
      else
        var st := RunOnce(sc, Clock(sc, at), at, VisibleAt(pool, at, dests), dests);
        var rest := SimulateFrom(sc, until, sc.nextRun(at), pool, now, After(st, sc.options.raw, dests));
        Simulation([st] + rest.steps, rest.manifests)
  }

  function FirstRun(sc: Scenario, until: int): (at: int) {
    if sc.from.Some? then sc.from.value else if sc.snaps != [] then sc.snaps[0].time + 3600 else until
  }

  function FirstTaken(sc: Scenario): (taken: int) {
    if sc.snaps != [] then sc.snaps[0].time else if sc.from.Some? then sc.from.value else 0
  }

  ghost function Simulate(sc: Scenario): (sim: Simulation)
    requires ValidScenario(sc)
  {
    if sc.until.None? then
      var st := RunOnce(sc, sc.now, 0, sc.snaps, sc.dests);
      Simulation([st], After(st, sc.options.raw, sc.dests))
    else SimulateFrom(sc, sc.until.value, FirstRun(sc, sc.until.value), sc.snaps, FirstTaken(sc), sc.dests)
  }

  method RunScenario(sc: Scenario) returns (sim: Simulation)
    requires ValidScenario(sc)
    ensures sim == Simulate(sc)
  {
    hide RunOnce, After, VisibleAt, Advanced, TakenAt, Skipped, Clock;
    var dests := sc.dests;
    if sc.until.None? {
      var st := RunOnce(sc, sc.now, 0, sc.snaps, dests);
      dests := RecordRun(sc, st, dests);
      return Simulation([st], dests);
    }
    var until := sc.until.value;
    var snaps, taken, at := sc.snaps, FirstTaken(sc), FirstRun(sc, until);
    var steps: seq<Step> := [];
    while at <= until
      invariant dests != []
      invariant var rest := SimulateFrom(sc, until, at, snaps, taken, dests);
        Simulate(sc) == Simulation(steps + rest.steps, rest.manifests)
      decreases until - at
    {
      snaps, taken := Advanced(sc, snaps, taken, at), TakenAt(sc, taken, at);
      if !Skipped(sc, at) {
        var st := RunOnce(sc, Clock(sc, at), at, VisibleAt(snaps, at, dests), dests);
        steps := steps + [st];
        dests := RecordRun(sc, st, dests);
      }
      at := sc.nextRun(at);
    }
    return Simulation(steps, dests);
  }

  method RecordRun(sc: Scenario, st: Step, dests: Destinations) returns (r: Destinations)
    ensures r == After(st, sc.options.raw, dests)
  {
    if !Sends(st) {
      return dests;
    }
    r := dests;
    for i := 0 to |dests|
      invariant |r| == |dests|
      invariant forall k :: 0 <= k < i ==> r[k] == AddManifest(dests[k], BackupFor(st.plan.value, sc.options.raw))
      invariant forall k :: i <= k < |dests| ==> r[k] == dests[k]
    {
      var d := RecordManifest(dests[i], BackupFor(st.plan.value, sc.options.raw));
      r := r[i := d];
    }
  }
}
