// Repeated --fullIfOlderThan runs against a pool and a clock that stand still.
module Convergence {
  import opened Common
  import opened Planner
  import opened PlannerFacts
  import opened Chains
  import opened Simulator
  import opened SimulatorTheorem
  import opened PartialSets

  // ---- Destinations ----

  predicate Descending(d: seq<Backup>) {
    forall i, j :: 0 <= i < j < |d| ==> d[i].base.time >= d[j].base.time
  }

  // Newest first, and snapshot names tell their time.
  predicate Orderly(d: seq<Backup>, timeOf: string -> int) {
    Descending(d) && forall b: Backup :: b in d ==> b.base.name != "" && b.base.time == timeOf(b.base.name)
  }

  predicate AllOrderly(dests: Destinations, timeOf: string -> int) {
    forall d: seq<Backup> :: d in dests ==> Orderly(d, timeOf)
  }

  predicate NamedAndDated(snaps: Pool, timeOf: string -> int) {
    Dated(snaps, timeOf) && forall s :: s in snaps ==> s.name != ""
  }

  lemma {:induction false} OthersOrder(d: seq<Backup>, m: Backup)
    requires Descending(d)
    ensures Descending(Others(d, m))
  {
    if d != [] {
      OthersOrder(d[1..], m);
      var rest, all := Others(d[1..], m), Others(d, m);
      if !SameObject(d[0], m) {
        forall i, j | 0 <= i < j < |all|
          ensures all[i].base.time >= all[j].base.time
        {
          assert all[j] == rest[j - 1] && rest[j - 1] in d[1..];
          assert i > 0 ==> all[i] == rest[i - 1];
        }
      }
    }
  }

  lemma InsertedOrder(d: seq<Backup>, m: Backup)
    requires Descending(d)
    ensures Descending(InsertAt(d, NotOlder(d, m.base.time), m))
  {
    var n := NotOlder(d, m.base.time);
    var r := InsertAt(d, n, m);
    forall i, j | 0 <= i < j < |r|
      ensures r[i].base.time >= r[j].base.time
    {
      assert r[i] == if i < n then d[i] else if i == n then m else d[i - 1];
      assert r[j] == if j < n then d[j] else if j == n then m else d[j - 1];
    }
  }

  lemma AddedOrderly(d: seq<Backup>, m: Backup, timeOf: string -> int)
    requires Orderly(d, timeOf) && m.base.name != "" && m.base.time == timeOf(m.base.name)
    ensures Orderly(AddManifest(d, m), timeOf)
  {
    OthersOrder(d, m);
    InsertedOrder(Others(d, m), m);
  }

  // ---- Ignoring the future commutes with recording a backup ----

  lemma {:induction false} KeptOthers(d: seq<Backup>, m: Backup, limit: int)
    ensures KeptBackups(Others(d, m), limit) == Others(KeptBackups(d, limit), m)
  {
    if d != [] {
      KeptOthers(d[1..], m, limit);
      var head, rest := [d[0]], d[1..];
      KeptAppend(if SameObject(d[0], m) then [] else head, Others(rest, m), limit);
      assert head[1..] == [];
      if d[0].base.time <= limit {
        assert KeptBackups(d, limit)[0] == d[0] && KeptBackups(d, limit)[1..] == KeptBackups(rest, limit);
      } else {
        assert KeptBackups(d, limit) == KeptBackups(rest, limit);
      }
    }
  }

  lemma {:induction false} KeptNotOlder(d: seq<Backup>, m: Backup, limit: int)
    requires m.base.time <= limit
    ensures KeptBackups(InsertAt(d, NotOlder(d, m.base.time), m), limit)
      == InsertAt(KeptBackups(d, limit), NotOlder(KeptBackups(d, limit), m.base.time), m)
  {
    hide KeptBackups, NotOlder, InsertAt;
    var n := NotOlder(d, m.base.time);
    var front, back := KeptBackups(d[..n], limit), KeptBackups(d[n..], limit);
    var _ := KeptInserted(d, n, m, limit);
    var kept := front + back;
    forall i | 0 <= i < |front|
      ensures kept[i].base.time >= m.base.time
    {
      assert front[i] in d[..n];
    }
    if n < |d| {
      KeptHead(d[n..], limit);
    }
    NotOlderIs(kept, m.base.time, |front|);
  }

  lemma KeptHead(d: seq<Backup>, limit: int)
    requires d != [] && d[0].base.time <= limit
    ensures KeptBackups(d, limit) != [] && KeptBackups(d, limit)[0] == d[0]
  {
  }

  lemma KeptAdded(d: seq<Backup>, m: Backup, limit: int)
    requires m.base.time <= limit
    ensures KeptBackups(AddManifest(d, m), limit) == AddManifest(KeptBackups(d, limit), m)
  {
    KeptOthers(d, m, limit);
    KeptNotOlder(Others(d, m), m, limit);
  }

  lemma KeptAfter(st: Step, raw: bool, dests: Destinations, limit: int)
    requires Sends(st) ==> st.plan.value.base.time <= limit
    ensures KeptDestinations(After(st, raw, dests), limit) == After(st, raw, KeptDestinations(dests, limit))
  {
    hide KeptBackups, AddManifest;
    if Sends(st) {
      forall i | 0 <= i < |dests|
        ensures KeptBackups(AddManifest(dests[i], BackupFor(st.plan.value, raw)), limit)
          == AddManifest(KeptBackups(dests[i], limit), BackupFor(st.plan.value, raw))
      {
        KeptAdded(dests[i], BackupFor(st.plan.value, raw), limit);
      }
    }
  }

  lemma {:induction false} KeptDescending(d: seq<Backup>, limit: int)
    requires Descending(d)
    ensures Descending(KeptBackups(d, limit))
  {
    if d != [] {
      hide Descending;
      DescendingTail(d);
      KeptDescending(d[1..], limit);
      if d[0].base.time <= limit {
        DescendingCons(d[0], KeptBackups(d[1..], limit));
      }
    }
  }

  lemma DescendingTail(d: seq<Backup>)
    requires Descending(d) && d != []
    ensures Descending(d[1..]) && forall b: Backup :: b in d[1..] ==> b.base.time <= d[0].base.time
  {
  }

  lemma DescendingCons(x: Backup, d: seq<Backup>)
    requires Descending(d) && forall b: Backup :: b in d ==> b.base.time <= x.base.time
    ensures Descending([x] + d)
  {
    var r := [x] + d;
    forall i, j | 0 <= i < j < |r|
      ensures r[i].base.time >= r[j].base.time
    {
      assert r[j] == d[j - 1] && d[j - 1] in d;
      assert i > 0 ==> r[i] == d[i - 1];
    }
  }

  // ---- After a full ----

  // Some full of time t is the first full, and nothing newer is missing.
  predicate RolledOver(d: seq<Backup>, time: int) {
    d != [] && d[0].base.time >= time && LastFull(d).Some?
  }

  lemma AddedRollsOver(d: seq<Backup>, m: Backup)
    requires IsFull(m)
    ensures RolledOver(AddManifest(d, m), m.base.time)
  {
    var out := Others(d, m);
    var n, r := NotOlder(out, m.base.time), AddManifest(d, m);
    assert r[0] == if n == 0 then m else out[0];
    assert m in r;
  }

  lemma BehindAtLeast(dests: Destinations, time: int)
    requires dests != [] && forall d: seq<Backup> :: d in dests ==> d != [] && RolledOver(d, time)
    ensures Behind(dests).time >= time
  {
  }

  lemma NoFullToContinue(
    o: Options, snaps: seq<SnapshotInfo>, fullBase: Option<SnapshotInfo>, incrBase: Option<SnapshotInfo>,
    dests: Destinations, fullDue: bool)
    requires dests != [] && fullBase.Some?
    requires forall d: seq<Backup> :: d in dests ==> d != [] && RolledOver(d, fullBase.value.time)
    ensures !IsPlannedFull(PlanContinue(o, snaps, fullBase, incrBase, dests, fullDue))
  {
    hide PresenceOf, SameStreamKind, LastBackupsAgree;
    assert dests[0] in dests;
  }

  lemma NoFullByAge(
    o: Options, snaps: seq<SnapshotInfo>, fullBase: Option<SnapshotInfo>, incrBase: Option<SnapshotInfo>,
    dests: Destinations)
    requires snaps != [] && dests != [] && AgeOptions(o) && ComparablesAgree(o, dests)
    requires fullBase.Some? && forall d: seq<Backup> :: d in dests ==> d != [] && RolledOver(d, fullBase.value.time)
    ensures !IsPlannedFull(PlanFullIfOlder(o, snaps, fullBase, incrBase, dests))
  {
    hide PlanContinue, FirstBrokenChain, Behind, ComparablesAgree, LastFull;
    assert dests[0] in dests;
    BehindAtLeast(dests, fullBase.value.time);
    var age := FullWindowElapsed(snaps[0].time - Comparable(o, dests[0]).value.time, o.fullIfOlderThan);
    NoFullToContinue(o, snaps, fullBase, incrBase, dests, age);
  }

  // Once every destination is at the newest full candidate, no full is planned.
  lemma NoFullAgain(o: Options, snaps: seq<SnapshotInfo>, dests: Destinations)
    requires dests != [] && AgeOptions(o) && NewestMatching(snaps, o.prefix, o.fullSuffix).Some?
    requires forall d: seq<Backup> :: d in dests ==>
      d != [] && RolledOver(d, NewestMatching(snaps, o.prefix, o.fullSuffix).value.time)
    ensures !IsPlannedFull(PlanSmart(o, snaps, dests, false))
  {
    hide RolledOver, PlanFullIfOlder, ComparablesAgree, NewestMatching, LastBackupsOnPool, PartialSet;
    if snaps != [] && ComparablesAgree(o, dests) {
      NoFullByAge(o, snaps, NewestMatching(snaps, o.prefix, o.fullSuffix),
        NewestMatching(snaps, o.prefix, o.incrementalSuffix), dests);
    }
  }

  // ---- After an incremental ----

  // The state an incremental leaves: m in front of what every destination had.
  predicate Extends(dests: Destinations, m: Backup, r: Destinations) {
    |r| == |dests| && forall i :: 0 <= i < |dests| ==> r[i] == [m] + dests[i]
  }

  lemma NothingToContinue(
    o: Options, snaps: seq<SnapshotInfo>, fullBase: Option<SnapshotInfo>, incrBase: Option<SnapshotInfo>,
    dests: Destinations, fullDue: bool)
    requires dests != [] && (forall d: seq<Backup> :: d in dests ==> d != [])
    requires incrBase.Some? && dests[0] != [] && dests[0][0].base.time == incrBase.value.time
    ensures var r := PlanContinue(o, snaps, fullBase, incrBase, dests, fullDue); !(r.Ok? && !r.value.action.Noop?)
  {
    hide PresenceOf, SameStreamKind, LastBackupsAgree;
  }

  lemma HeadTimes(dests: Destinations, m: Backup, r: Destinations)
    requires Extends(dests, m, r) && r != [] && forall d: seq<Backup> :: d in r ==> d != []
    ensures Behind(r).time == m.base.time
  {
    forall d: seq<Backup> | d in r
      ensures d[0] == m
    {
      var i :| 0 <= i < |r| && r[i] == d;
    }
  }

  lemma SameLastFull(o: Options, d: seq<Backup>, m: Backup)
    requires !IsFull(m) && AgeOptions(o)
    ensures Comparable(o, [m] + d) == Comparable(o, d)
  {
    assert ([m] + d)[1..] == d;
  }

  // No full was due before an incremental, and the incremental makes none due.
  lemma NotDue(
    o: Options, snaps: seq<SnapshotInfo>, fullBase: Option<SnapshotInfo>, incrBase: Option<SnapshotInfo>,
    dests: Destinations)
    requires snaps != [] && dests != [] && AgeOptions(o) && ComparablesAgree(o, dests)
    requires IsIncremental(PlanFullIfOlder(o, snaps, fullBase, incrBase, dests))
    ensures Comparable(o, dests[0]).Some?
    ensures forall d: seq<Backup> :: d in dests ==> d != []
    ensures var age := FullWindowElapsed(snaps[0].time - Comparable(o, dests[0]).value.time, o.fullIfOlderThan);
      age ==> fullBase.Some? && fullBase.value.time <= Behind(dests).time
  {
    hide PlanContinue, FirstBrokenChain, Behind, ComparablesAgree, LastFull;
    if Comparable(o, dests[0]).Some? {
      NoDestinationIsEmpty(o, dests);
    }
  }

  lemma NothingByAge(
    o: Options, snaps: seq<SnapshotInfo>, fullBase: Option<SnapshotInfo>, incrBase: Option<SnapshotInfo>,
    dests: Destinations, m: Backup, r: Destinations)
    requires snaps != [] && dests != [] && AgeOptions(o) && ComparablesAgree(o, dests) && ComparablesAgree(o, r)
    requires IsIncremental(PlanFullIfOlder(o, snaps, fullBase, incrBase, dests))
    requires incrBase == Some(m.base) && !IsFull(m) && Extends(dests, m, r) && FirstBrokenChain(r).None?
    requires forall d: seq<Backup> :: d in dests ==> d != [] && d[0].base.time < m.base.time
    ensures var p := PlanFullIfOlder(o, snaps, fullBase, incrBase, r); !(p.Ok? && !p.value.action.Noop?)
  {
    hide PlanContinue, FirstBrokenChain, ComparablesAgree, LastFull, Behind;
    NotDue(o, snaps, fullBase, incrBase, dests);
    SameLastFull(o, dests[0], m);
    assert r[0] == [m] + dests[0];
    NoDestinationIsEmpty(o, r);
    HeadTimes(dests, m, r);
    var age := FullWindowElapsed(snaps[0].time - Comparable(o, r[0]).value.time, o.fullIfOlderThan);
    NothingToContinue(o, snaps, fullBase, incrBase, r, age);
  }

  // After an incremental nothing is planned.
  lemma NothingAfterIncremental(o: Options, snaps: seq<SnapshotInfo>, dests: Destinations, m: Backup, r: Destinations)
    requires dests != [] && AgeOptions(o) && IsIncremental(PlanSmart(o, snaps, dests, false))
    requires m.base == PlanSmart(o, snaps, dests, false).value.base && !IsFull(m)
    requires Extends(dests, m, r) && FirstBrokenChain(r).None?
    requires forall d: seq<Backup> :: d in dests ==> d != [] && d[0].base.time < m.base.time
    ensures var p := PlanSmart(o, snaps, r, false); !(p.Ok? && !p.value.action.Noop?)
  {
    hide PlanFullIfOlder, ComparablesAgree, NewestMatching, LastBackupsOnPool, PartialSet, FirstBrokenChain;
    var fullBase := NewestMatching(snaps, o.prefix, o.fullSuffix);
    var incrBase := NewestMatching(snaps, o.prefix, o.incrementalSuffix);
    ByAgeSendsCandidate(o, snaps, fullBase, incrBase, dests);
    if ComparablesAgree(o, r) {
      NothingByAge(o, snaps, fullBase, incrBase, dests, m, r);
    }
  }

  // ---- A planned full is new ----

  lemma {:induction false} LastFullNewest(d: seq<Backup>, b: Backup)
    requires Descending(d) && b in d && IsFull(b)
    ensures LastFull(d).Some? && LastFull(d).value.time >= b.base.time
  {
    if !IsFull(d[0]) {
      LastFullNewest(d[1..], b);
    } else {
      var i :| 0 <= i < |d| && d[i] == b;
    }
  }

  lemma HeadNotOlder(d: seq<Backup>)
    requires Descending(d) && LastFull(d).Some?
    ensures d != [] && d[0].base.time >= LastFull(d).value.time
  {
    var b: Backup :| b in d && IsFull(b) && b.base == LastFull(d).value;
    var i :| 0 <= i < |d| && d[i] == b;
  }

  // A full is planned only where there is none, or newer than the destination furthest behind.
  lemma FullIsNewer(
    o: Options, snaps: seq<SnapshotInfo>, fullBase: Option<SnapshotInfo>, incrBase: Option<SnapshotInfo>,
    dests: Destinations)
    requires snaps != [] && dests != [] && AgeOptions(o) && ComparablesAgree(o, dests)
    requires IsPlannedFull(PlanFullIfOlder(o, snaps, fullBase, incrBase, dests))
    ensures fullBase.Some?
    ensures Comparable(o, dests[0]).Some? ==>
      exists d: seq<Backup> :: d in dests && d != [] && d[0].base.time < fullBase.value.time
  {
    hide ComparablesAgree, FirstBrokenChain, LastFull, PresenceOf, SameStreamKind, LastBackupsAgree;
    if Comparable(o, dests[0]).Some? {
      NoDestinationIsEmpty(o, dests);
      assert dests[0] in dests;
    }
  }

  // All last fulls agree, so a full as new as the candidate anywhere would be at every destination.
  lemma FullsAreOlder(o: Options, dests: Destinations, time: int, d: seq<Backup>, b: Backup)
    requires AgeOptions(o) && ComparablesAgree(o, dests) && forall x: seq<Backup> :: x in dests ==> Descending(x)
    requires d in dests && b in d && IsFull(b)
    requires Comparable(o, dests[0]).Some? ==>
      exists x: seq<Backup> :: x in dests && x != [] && x[0].base.time < time
    ensures b.base.time < time
  {
    hide ComparablesAgree, LastFull, Descending;
    LastFullNewest(d, b);
    var i :| 0 <= i < |dests| && dests[i] == d;
    ComparablesEqualFirst(o, dests, i);
    var x: seq<Backup> :| x in dests && x != [] && x[0].base.time < time;
    var j :| 0 <= j < |dests| && dests[j] == x;
    ComparablesEqualFirst(o, dests, j);
    HeadNotOlder(x);
  }

  // ---- Repeated runs ----

  // PartialSetCompletable: with --resume, or when the destinations that lack the set hold its
  // volumes. What they hold of a set does not change while the runs send others.
  datatype Completable = Completable(resume: bool, present: Backup -> bool)

  predicate MayComplete(c: Completable, dests: Destinations) {
    c.resume || (PartialSet(dests).Some? && c.present(PartialSet(dests).value))
  }

  // A pool and a clock that stand still.
  datatype Setting = Setting(o: Options, now: int, snaps: Pool, c: Completable)

  function Limit(w: Setting): (limit: int) {
    w.now + FutureSlack
  }

  function FixedRun(w: Setting, dests: Destinations): (st: Step)
    requires dests != []
  {
    Step(w.now, w.snaps, PlanSmartAt(w.now, w.o, w.snaps, dests, MayComplete(w.c, dests)))
  }

  // The destinations after n runs.
  function AfterRuns(w: Setting, dests: Destinations, n: nat): (r: Destinations)
    requires dests != []
    ensures |r| == |dests|
  {
    if n == 0 then dests
    else
      var before := AfterRuns(w, dests, n - 1);
      After(FixedRun(w, before), w.o.raw, before)
  }

  function AfterRun(w: Setting, dests: Destinations): (r: Destinations)
    requires dests != []
    ensures |r| == |dests|
  {
    After(FixedRun(w, dests), w.o.raw, dests)
  }

  predicate RunSends(w: Setting, dests: Destinations)
    requires dests != []
  {
    Sends(FixedRun(w, dests))
  }

  predicate RunCompletes(w: Setting, dests: Destinations)
    requires dests != []
  {
    RunSends(w, dests) && FixedRun(w, dests).plan.value.reason.CompletePartial?
  }

  predicate RunSendsFull(w: Setting, dests: Destinations)
    requires dests != []
  {
    IsPlannedFull(FixedRun(w, dests).plan) && !RunCompletes(w, dests)
  }

  predicate RunSendsIncremental(w: Setting, dests: Destinations)
    requires dests != []
  {
    IsIncremental(FixedRun(w, dests).plan) && !RunCompletes(w, dests)
  }

  // A run completes the set some destinations lack, or plans as if none could be completed.
  lemma CompletesOrNot(w: Setting, dests: Destinations)
    requires dests != [] && AgeOptions(w.o)
    ensures var kept, limited := KeptSnapshots(w.snaps, Limit(w)), KeptDestinations(dests, Limit(w));
      var partial := PartialSet(limited);
      && (RunCompletes(w, dests) <==> kept != [] && MayComplete(w.c, dests) && partial.Some?)
      && FixedRun(w, dests).plan ==
         if RunCompletes(w, dests) then Ok(PlanPartial(partial.value)) else PlanSmart(w.o, kept, limited, false)
  {
    hide PlanFullIfOlder, NewestMatching, ComparablesAgree, LastBackupsOnPool, PartialSet, MayComplete;
    var kept, limited := KeptSnapshots(w.snaps, Limit(w)), KeptDestinations(dests, Limit(w));
    if kept != [] && ComparablesAgree(w.o, limited) {
      ByAgeSendsCandidate(w.o, kept, NewestMatching(kept, w.o.prefix, w.o.fullSuffix),
        NewestMatching(kept, w.o.prefix, w.o.incrementalSuffix), limited);
    }
  }

  // What is sent anew is the candidate, on the pool.
  lemma SentOnPool(w: Setting, dests: Destinations)
    requires dests != [] && AgeOptions(w.o) && RunSends(w, dests) && !RunCompletes(w, dests)
    ensures var p, kept := FixedRun(w, dests).plan.value, KeptSnapshots(w.snaps, Limit(w));
      && p.base in w.snaps && p.base.time <= Limit(w)
      && SendsCandidate(Ok(p), NewestMatching(kept, w.o.prefix, w.o.fullSuffix),
        NewestMatching(kept, w.o.prefix, w.o.incrementalSuffix))
  {
    hide PlanFullIfOlder, NewestMatching, ComparablesAgree, LastBackupsOnPool, PartialSet, MayComplete;
    CompletesOrNot(w, dests);
    var kept, limited := KeptSnapshots(w.snaps, Limit(w)), KeptDestinations(dests, Limit(w));
    ByAgeSendsCandidate(w.o, kept, NewestMatching(kept, w.o.prefix, w.o.fullSuffix),
      NewestMatching(kept, w.o.prefix, w.o.incrementalSuffix), limited);
  }

  // What is completed is a set of some destination, as old as the clock allows.
  lemma CompletedIsThere(w: Setting, dests: Destinations)
    requires dests != [] && AgeOptions(w.o) && RunCompletes(w, dests)
    ensures var m, partial := BackupFor(FixedRun(w, dests).plan.value, w.o.raw),
                              PartialSet(KeptDestinations(dests, Limit(w)));
      && partial.Some? && m.base == partial.value.base && SameObject(partial.value, m) && m.base.time <= Limit(w)
      && exists d: seq<Backup> :: d in dests && partial.value in d
  {
    hide PlanSmart, MayComplete, SameSets;
    CompletesOrNot(w, dests);
    var limited := KeptDestinations(dests, Limit(w));
    var i :| 0 <= i < |limited| && limited[i] == Leader(limited);
    assert limited[i][0] in KeptBackups(dests[i], Limit(w));
    assert dests[i] in dests;
  }

  lemma SentIsKept(w: Setting, dests: Destinations)
    requires dests != [] && AgeOptions(w.o) && RunSends(w, dests)
    ensures FixedRun(w, dests).plan.value.base.time <= Limit(w)
    ensures KeptDestinations(AfterRun(w, dests), Limit(w)) ==
      After(FixedRun(w, dests), w.o.raw, KeptDestinations(dests, Limit(w)))
  {
    hide PlanSmartAt, KeptBackups, AddManifest, PartialSet, MayComplete, KeptSnapshots, NewestMatching;
    if RunCompletes(w, dests) {
      CompletedIsThere(w, dests);
    } else {
      SentOnPool(w, dests);
    }
    KeptAfter(FixedRun(w, dests), w.o.raw, dests, Limit(w));
  }

  lemma OrderlyAfter(w: Setting, dests: Destinations, timeOf: string -> int)
    requires dests != [] && AgeOptions(w.o) && AllOrderly(dests, timeOf) && NamedAndDated(w.snaps, timeOf)
    ensures AllOrderly(AfterRun(w, dests), timeOf)
  {
    hide PlanSmartAt, AddManifest, Orderly, PartialSet, MayComplete, KeptSnapshots, NewestMatching;
    var st := FixedRun(w, dests);
    if Sends(st) {
      SentIsDated(w, dests, timeOf);
      var r := AfterRun(w, dests);
      forall d: seq<Backup> | d in r
        ensures Orderly(d, timeOf)
      {
        var i :| 0 <= i < |r| && r[i] == d;
        assert dests[i] in dests;
        AddedOrderly(dests[i], BackupFor(st.plan.value, w.o.raw), timeOf);
      }
    }
  }

  lemma SentIsDated(w: Setting, dests: Destinations, timeOf: string -> int)
    requires dests != [] && AgeOptions(w.o) && AllOrderly(dests, timeOf) && NamedAndDated(w.snaps, timeOf)
    requires RunSends(w, dests)
    ensures var s := FixedRun(w, dests).plan.value.base; s.name != "" && s.time == timeOf(s.name)
  {
    hide PlanSmartAt, PartialSet, MayComplete, KeptSnapshots, KeptDestinations, NewestMatching, Descending;
    if RunCompletes(w, dests) {
      CompletedIsThere(w, dests);
    } else {
      SentOnPool(w, dests);
    }
  }

  // ---- After a completion ----

  lemma CompletionThenAnew(w: Setting, dests: Destinations)
    requires dests != [] && AgeOptions(w.o) && RunCompletes(w, dests)
    ensures !RunCompletes(w, AfterRun(w, dests))
  {
    hide PlanSmartAt, KeptBackups, KeptDestinations, KeptSnapshots, PartialSet, MayComplete, AddManifest, AllSame;
    var st, limited := FixedRun(w, dests), KeptDestinations(dests, Limit(w));
    var r := After(st, w.o.raw, limited);
    CompletedIsThere(w, dests);
    SentIsKept(w, dests);
    CompletionAligns(limited, BackupFor(st.plan.value, w.o.raw), r);
    AllSameNoPartial(r);
    CompletesOrNot(w, AfterRun(w, dests));
  }

  // ---- After a full ----

  // After a full no full is planned anew.
  lemma FullThenNoFull(w: Setting, dests: Destinations)
    requires dests != [] && AgeOptions(w.o) && RunSendsFull(w, dests)
    ensures !RunSendsFull(w, AfterRun(w, dests))
  {
    hide PlanSmart, KeptDestinations, KeptSnapshots, NewestMatching, AddManifest, RolledOver, PartialSet, MayComplete;
    var st, limit := FixedRun(w, dests), Limit(w);
    var m, limited := BackupFor(st.plan.value, w.o.raw), KeptDestinations(dests, limit);
    var r := After(st, w.o.raw, limited);
    SentOnPool(w, dests);
    SentIsKept(w, dests);
    forall d: seq<Backup> | d in r
      ensures d != [] && RolledOver(d, m.base.time)
    {
      var i :| 0 <= i < |limited| && d == r[i];
      assert d == AddManifest(limited[i], m);
      AddedRollsOver(limited[i], m);
    }
    NoFullAgain(w.o, KeptSnapshots(w.snaps, limit), r);
    CompletesOrNot(w, AfterRun(w, dests));
  }

  // The full planned for what the destinations keep is in none of them.
  lemma FullIsNewHere(o: Options, snaps: seq<SnapshotInfo>, dests: Destinations, m: Backup, timeOf: string -> int)
    requires dests != [] && AgeOptions(o) && AllOrderly(dests, timeOf) && m.base.time == timeOf(m.base.name)
    requires IsPlannedFull(PlanSmart(o, snaps, dests, false))
    requires m == BackupFor(PlanSmart(o, snaps, dests, false).value, o.raw)
    ensures IsNew(m, dests)
  {
    hide PlanFullIfOlder, ComparablesAgree, NewestMatching, LastBackupsOnPool, PartialSet, Comparable, Descending;
    var fullBase := NewestMatching(snaps, o.prefix, o.fullSuffix);
    var incrBase := NewestMatching(snaps, o.prefix, o.incrementalSuffix);
    FullIsNewer(o, snaps, fullBase, incrBase, dests);
    ByAgeSendsCandidate(o, snaps, fullBase, incrBase, dests);
    forall d: seq<Backup>, b: Backup | d in dests && b in d
      ensures !SameObject(b, m)
    {
      if IsFull(b) {
        FullsAreOlder(o, dests, fullBase.value.time, d, b);
      }
    }
  }

  lemma AllKeptOrderly(dests: Destinations, limit: int, timeOf: string -> int)
    requires AllOrderly(dests, timeOf)
    ensures AllOrderly(KeptDestinations(dests, limit), timeOf)
  {
    hide Orderly, KeptBackups;
    var limited := KeptDestinations(dests, limit);
    forall d: seq<Backup> | d in limited
      ensures Orderly(d, timeOf)
    {
      var i :| 0 <= i < |limited| && limited[i] == d;
      assert dests[i] in dests;
      KeptOrderly(dests[i], limit, timeOf);
    }
  }

  // A full of the same name would have the same date, so it is not among what is ignored either.
  lemma NewBeyondLimit(dests: Destinations, m: Backup, limit: int, timeOf: string -> int)
    requires AllOrderly(dests, timeOf) && m.base.time == timeOf(m.base.name) && m.base.time <= limit
    requires IsNew(m, KeptDestinations(dests, limit))
    ensures IsNew(m, dests)
  {
    hide Descending, KeptBackups;
    var limited := KeptDestinations(dests, limit);
    forall d: seq<Backup>, b: Backup | d in dests && b in d
      ensures !SameObject(b, m)
    {
      var i :| 0 <= i < |dests| && dests[i] == d;
      assert limited[i] in limited;
      assert b.base.time <= limit ==> b in limited[i];
    }
  }

  lemma AfterRecords(w: Setting, dests: Destinations, limited: Destinations)
    requires dests != [] && RunSends(w, dests)
    ensures RecordedAll(limited, BackupFor(FixedRun(w, dests).plan.value, w.o.raw),
      After(FixedRun(w, dests), w.o.raw, limited))
  {
    hide PlanSmartAt, AddManifest;
  }

  lemma FullIsNew(w: Setting, dests: Destinations, timeOf: string -> int)
    requires dests != [] && AgeOptions(w.o) && AllOrderly(dests, timeOf) && NamedAndDated(w.snaps, timeOf)
    requires RunSendsFull(w, dests)
    ensures var m := BackupFor(FixedRun(w, dests).plan.value, w.o.raw);
      IsNew(m, dests) && IsNew(m, KeptDestinations(dests, Limit(w)))
  {
    hide PlanSmart, KeptDestinations, KeptSnapshots, NewestMatching, PartialSet, MayComplete, AllOrderly, IsNew;
    var m, limited := BackupFor(FixedRun(w, dests).plan.value, w.o.raw), KeptDestinations(dests, Limit(w));
    SentOnPool(w, dests);
    CompletesOrNot(w, dests);
    AllKeptOrderly(dests, Limit(w), timeOf);
    FullIsNewHere(w.o, KeptSnapshots(w.snaps, Limit(w)), limited, m, timeOf);
    NewBeyondLimit(dests, m, Limit(w), timeOf);
  }

  // After a full nothing is completed: what lacks a set then lacked it before.
  lemma FullThenNoCompletion(w: Setting, dests: Destinations, timeOf: string -> int)
    requires dests != [] && AgeOptions(w.o) && AllOrderly(dests, timeOf) && NamedAndDated(w.snaps, timeOf)
    requires RunSendsFull(w, dests)
    ensures !RunCompletes(w, AfterRun(w, dests))
  {
    hide PlanSmartAt, KeptDestinations, KeptSnapshots, PartialSet, AllOrderly, IsNew, RecordedAll, After;
    var st, limited := FixedRun(w, dests), KeptDestinations(dests, Limit(w));
    var m := BackupFor(st.plan.value, w.o.raw);
    FullIsNew(w, dests, timeOf);
    SentIsKept(w, dests);
    AfterRecords(w, dests, dests);
    AfterRecords(w, dests, limited);
    NewKeepsPartial(dests, m, AfterRun(w, dests));
    NewKeepsPartial(limited, m, After(st, w.o.raw, limited));
    CompletesOrNot(w, dests);
    CompletesOrNot(w, AfterRun(w, dests));
  }

  // ---- After an incremental ----

  lemma KeptOrderly(d: seq<Backup>, limit: int, timeOf: string -> int)
    requires Orderly(d, timeOf)
    ensures Orderly(KeptBackups(d, limit), timeOf)
  {
    KeptDescending(d, limit);
  }

  // Recording a planned incremental puts it in front, on an unbroken chain.
  lemma IncrementalRecorded(d: seq<Backup>, m: Backup, p: Plan, raw: bool, timeOf: string -> int)
    requires Orderly(d, timeOf) && Continues(p, raw, d) && p.action.Incremental? && m == BackupFor(p, raw)
    requires p.base.time == timeOf(p.base.name)
    ensures AddManifest(d, m) == [m] + d && BrokenLink([m] + d).None? && !IsFull(m)
    ensures forall b: Backup :: b in d ==> !SameObject(b, m)
  {
    hide BrokenLink, AddManifest;
    assert d[0] in d;
    forall b: Backup | b in d
      ensures b.base.time < m.base.time && !SameObject(b, m)
    {
      var i :| 0 <= i < |d| && d[i] == b;
    }
    NewestGoesFirst(d, m);
    NextUnbroken(d, m);
  }

  // The incremental m is in front of what each destination had, on an unbroken chain.
  predicate InFront(m: Backup, before: Destinations, after: Destinations) {
    && !IsFull(m) && |after| == |before| && IsNew(m, before)
    && forall i :: 0 <= i < |after| ==> after[i] == [m] + before[i] && BrokenLink(after[i]).None?
  }

  lemma IncrementalEverywhere(o: Options, snaps: Pool, dests: Destinations, st: Step, timeOf: string -> int)
    requires dests != [] && AgeOptions(o) && AllOrderly(dests, timeOf) && NamedAndDated(snaps, timeOf)
    requires st.plan == PlanSmart(o, snaps, dests, false) && IsIncremental(st.plan)
    requires !st.plan.value.reason.CompletePartial?
    ensures InFront(BackupFor(st.plan.value, o.raw), dests, After(st, o.raw, dests))
  {
    hide PlanSmart, AddManifest, BrokenLink, Orderly, Continues, BackupFor, SameObject;
    var m := BackupFor(st.plan.value, o.raw);
    IncrementalContinues(o, snaps, dests, false);
    forall i | 0 <= i < |dests|
      ensures AddManifest(dests[i], m) == [m] + dests[i] && BrokenLink([m] + dests[i]).None? && !IsFull(m)
      ensures forall b: Backup :: b in dests[i] ==> !SameObject(b, m)
    {
      assert dests[i] in dests;
      IncrementalRecorded(dests[i], m, st.plan.value, o.raw, timeOf);
    }
    var r := After(st, o.raw, dests);
    assert !IsFull(m) by {
      assert 0 < |dests| && AddManifest(dests[0], m) == [m] + dests[0];
    }
    forall i | 0 <= i < |r|
      ensures r[i] == [m] + dests[i] && BrokenLink(r[i]).None?
    {
      assert r[i] == AddManifest(dests[i], m);
    }
    forall d: seq<Backup>, b: Backup | d in dests && b in d
      ensures !SameObject(b, m)
    {
      var i :| 0 <= i < |dests| && dests[i] == d;
    }
  }

  lemma IncrementalThenNothingHere(o: Options, snaps: Pool, dests: Destinations, m: Backup, r: Destinations)
    requires dests != [] && AgeOptions(o) && IsIncremental(PlanSmart(o, snaps, dests, false))
    requires m == BackupFor(PlanSmart(o, snaps, dests, false).value, o.raw)
    requires !PlanSmart(o, snaps, dests, false).value.reason.CompletePartial?
    requires InFront(m, dests, r)
    ensures var p := PlanSmart(o, snaps, r, false); !(p.Ok? && !p.value.action.Noop?)
    ensures PartialSet(r).None?
  {
    hide PlanSmart, BrokenLink, PartialSet, IsNew;
    IncrementalContinues(o, snaps, dests, false);
    assert r[0] == [m] + dests[0];
    forall d: seq<Backup> | d in r
      ensures BrokenLink(d).None?
    {
      var i :| 0 <= i < |r| && r[i] == d;
    }
    NothingAfterIncremental(o, snaps, dests, m, r);
    NewestLeavesNone(dests, m, r);
  }

  lemma KeptDated(snaps: Pool, limit: int, timeOf: string -> int)
    requires NamedAndDated(snaps, timeOf)
    ensures NamedAndDated(KeptSnapshots(snaps, limit), timeOf)
  {
  }

  // After an incremental nothing is sent, nor completed.
  lemma IncrementalThenNothing(w: Setting, dests: Destinations, timeOf: string -> int)
    requires dests != [] && AgeOptions(w.o) && AllOrderly(dests, timeOf) && NamedAndDated(w.snaps, timeOf)
    requires RunSendsIncremental(w, dests)
    ensures !RunSends(w, AfterRun(w, dests))
  {
    hide PlanSmart, KeptBackups, KeptSnapshots, KeptDestinations, After, InFront, PartialSet, MayComplete, AllOrderly;
    hide NamedAndDated;
    var st, snaps, limited := FixedRun(w, dests), KeptSnapshots(w.snaps, Limit(w)), KeptDestinations(dests, Limit(w));
    CompletesOrNot(w, dests);
    SentIsKept(w, dests);
    AllKeptOrderly(dests, Limit(w), timeOf);
    KeptDated(w.snaps, Limit(w), timeOf);
    IncrementalEverywhere(w.o, snaps, limited, st, timeOf);
    IncrementalThenNothingHere(
      w.o, snaps, limited, BackupFor(st.plan.value, w.o.raw), After(st, w.o.raw, limited));
    CompletesOrNot(w, AfterRun(w, dests));
  }

  // ---- All runs ----

  // What a run that sends does, in the only order it can come in.
  function Rank(w: Setting, dests: Destinations): (rank: nat)
    requires dests != [] && RunSends(w, dests)
  {
    if RunCompletes(w, dests) then 0 else if RunSendsFull(w, dests) then 1 else 2
  }

  // A run sends after another only what comes later in that order.
  lemma NextRanksHigher(w: Setting, dests: Destinations, timeOf: string -> int)
    requires dests != [] && AgeOptions(w.o) && AllOrderly(dests, timeOf) && NamedAndDated(w.snaps, timeOf)
    requires RunSends(w, AfterRun(w, dests))
    ensures RunSends(w, dests) && Rank(w, dests) < Rank(w, AfterRun(w, dests))
  {
    hide PlanSmartAt, AllOrderly, NamedAndDated, MayComplete, After;
    if !RunSends(w, dests) {
      NothingSent(w, dests);
      assert false;
    } else if RunCompletes(w, dests) {
      CompletionThenAnew(w, dests);
    } else if RunSendsFull(w, dests) {
      FullThenNoFull(w, dests);
      FullThenNoCompletion(w, dests, timeOf);
    } else {
      IncrementalThenNothing(w, dests, timeOf);
      assert false;
    }
  }

  lemma NothingSent(w: Setting, dests: Destinations)
    requires dests != [] && !RunSends(w, dests)
    ensures AfterRun(w, dests) == dests
  {
  }

  lemma {:induction false} OrderlyAlways(w: Setting, dests: Destinations, timeOf: string -> int, n: nat)
    requires dests != [] && AgeOptions(w.o) && AllOrderly(dests, timeOf) && NamedAndDated(w.snaps, timeOf)
    ensures AllOrderly(AfterRuns(w, dests, n), timeOf)
  {
    hide AllOrderly, NamedAndDated, FixedRun;
    if n > 0 {
      OrderlyAlways(w, dests, timeOf, n - 1);
      OrderlyAfter(w, AfterRuns(w, dests, n - 1), timeOf);
    }
  }

  lemma {:induction false} RanksRise(w: Setting, dests: Destinations, timeOf: string -> int, n: nat)
    requires dests != [] && AgeOptions(w.o) && AllOrderly(dests, timeOf) && NamedAndDated(w.snaps, timeOf)
    requires RunSends(w, AfterRuns(w, dests, n))
    ensures RunSends(w, dests) && Rank(w, dests) + n <= Rank(w, AfterRuns(w, dests, n))
  {
    hide AllOrderly, NamedAndDated, FixedRun, Rank;
    if n > 0 {
      OrderlyAlways(w, dests, timeOf, n - 1);
      NextRanksHigher(w, AfterRuns(w, dests, n - 1), timeOf);
      RanksRise(w, dests, timeOf, n - 1);
    }
  }

  // Runs against a fixed pool and clock complete at most one set, then send at most one full, then
  // at most one incremental, each in the run after the one before, and then nothing ever again.
  lemma Converges(w: Setting, dests: Destinations, timeOf: string -> int)
    requires dests != [] && AgeOptions(w.o) && AllOrderly(dests, timeOf) && NamedAndDated(w.snaps, timeOf)
    ensures forall n: nat :: RunSends(w, AfterRuns(w, dests, n + 1)) ==>
      RunSends(w, AfterRuns(w, dests, n)) && Rank(w, AfterRuns(w, dests, n)) < Rank(w, AfterRuns(w, dests, n + 1))
    ensures forall n: nat :: n >= 3 ==> !RunSends(w, AfterRuns(w, dests, n))
    ensures !RunCompletes(w, dests) ==> forall n: nat :: n >= 2 ==> !RunSends(w, AfterRuns(w, dests, n))
  {
    hide AllOrderly, NamedAndDated, FixedRun, After;
    forall n: nat | RunSends(w, AfterRuns(w, dests, n + 1))
      ensures RunSends(w, AfterRuns(w, dests, n))
      ensures Rank(w, AfterRuns(w, dests, n)) < Rank(w, AfterRuns(w, dests, n + 1))
    {
      OrderlyAlways(w, dests, timeOf, n);
      NextRanksHigher(w, AfterRuns(w, dests, n), timeOf);
    }
    forall n: nat | RunSends(w, AfterRuns(w, dests, n))
      ensures n < 3 && (RunCompletes(w, dests) || n < 2)
    {
      RanksRise(w, dests, timeOf, n);
    }
  }
}
