// What a plan tells about the destinations it was made for.
module PlannerFacts {
  import opened Common
  import opened Planner

  // The last backups of all destinations are one snapshot.
  lemma {:induction false} LastBackupsEqualFirst(dests: seq<seq<Backup>>, i: nat)
    requires LastBackupsAgree(dests) && i < |dests| && dests[0] != []
    ensures dests[i] != [] && Equal(dests[i][0].base, dests[0][0].base)
  {
    if i > 0 {
      LastBackupsEqualFirst(dests, i - 1);
      assert EqualOptions(LastBackup(dests[i - 1]), LastBackup(dests[i]));
    }
  }

  lemma {:induction false} ComparablesEqualFirst(o: Options, dests: seq<seq<Backup>>, i: nat)
    requires ComparablesAgree(o, dests) && i < |dests|
    ensures EqualOptions(Comparable(o, dests[0]), Comparable(o, dests[i]))
  {
    if i > 0 {
      ComparablesEqualFirst(o, dests, i - 1);
      assert EqualOptions(Comparable(o, dests[i - 1]), Comparable(o, dests[i]));
    }
  }

  // What a destination must be like for the incremental p to continue its newest backup.
  predicate Continues(p: Plan, raw: bool, d: seq<Backup>) {
    d != [] && Equal(d[0].base, p.source) && d[0].base.time < p.base.time && d[0].raw == raw && BrokenLink(d).None?
  }

  predicate AllContinue(p: Plan, raw: bool, dests: seq<seq<Backup>>) {
    forall d: seq<Backup> :: d in dests ==> Continues(p, raw, d)
  }

  predicate IsIncremental(r: Result<Plan, PlanError>) {
    r.Ok? && r.value.action.Incremental?
  }

  predicate IsPlannedFull(r: Result<Plan, PlanError>) {
    r.Ok? && r.value.action.Full?
  }

  lemma ExplicitIncrementalContinues(o: Options, incrBase: Option<SnapshotInfo>, dests: seq<seq<Backup>>)
    requires o.incremental && o.fullIfOlderThan == NotSet && dests != [] && ComparablesAgree(o, dests)
    requires IsIncremental(PlanIncremental(o, incrBase, dests))
    ensures AllContinue(PlanIncremental(o, incrBase, dests).value, o.raw, dests)
  {
    hide BrokenLink;
    var p := PlanIncremental(o, incrBase, dests).value;
    forall d: seq<Backup> | d in dests
      ensures Continues(p, o.raw, d)
    {
      var i :| 0 <= i < |dests| && dests[i] == d;
      ComparablesEqualFirst(o, dests, i);
    }
  }

  lemma ContinueContinues(
    o: Options, snaps: seq<SnapshotInfo>, fullBase: Option<SnapshotInfo>, incrBase: Option<SnapshotInfo>,
    dests: seq<seq<Backup>>, fullDue: bool)
    requires dests != [] && forall b: seq<Backup> :: b in dests ==> b != []
    requires FirstBrokenChain(dests).None?
    requires IsIncremental(PlanContinue(o, snaps, fullBase, incrBase, dests, fullDue))
    ensures AllContinue(PlanContinue(o, snaps, fullBase, incrBase, dests, fullDue).value, o.raw, dests)
  {
    hide BrokenLink, PresenceOf;
    var p := PlanContinue(o, snaps, fullBase, incrBase, dests, fullDue).value;
    forall d: seq<Backup> | d in dests
      ensures Continues(p, o.raw, d)
    {
      var i :| 0 <= i < |dests| && dests[i] == d;
      assert dests[0] in dests;
      LastBackupsEqualFirst(dests, i);
    }
  }

  lemma ByAgeContinues(
    o: Options, snaps: seq<SnapshotInfo>, fullBase: Option<SnapshotInfo>, incrBase: Option<SnapshotInfo>,
    dests: seq<seq<Backup>>)
    requires snaps != [] && dests != [] && !o.incremental && ComparablesAgree(o, dests)
    requires IsIncremental(PlanFullIfOlder(o, snaps, fullBase, incrBase, dests))
    ensures AllContinue(PlanFullIfOlder(o, snaps, fullBase, incrBase, dests).value, o.raw, dests)
    ensures incrBase == Some(PlanFullIfOlder(o, snaps, fullBase, incrBase, dests).value.base)
  {
    hide BrokenLink, AllContinue, ComparablesAgree, LastBackupsAgree, PresenceOf, SameStreamKind, FirstBrokenChain;
    hide Behind;
    NoDestinationIsEmpty(o, dests);
    var age := FullWindowElapsed(snaps[0].time - Comparable(o, dests[0]).value.time, o.fullIfOlderThan);
    ContinueContinues(o, snaps, fullBase, incrBase, dests, age);
  }

  // Every newly planned incremental continues, at every destination, an unbroken chain of its own
  // stream kind from the newest backup there, and ends at a snapshot on the pool.
  lemma IncrementalContinues(o: Options, snaps: seq<SnapshotInfo>, dests: seq<seq<Backup>>, completable: bool)
    requires ValidOptions(o) && dests != []
    requires IsIncremental(PlanSmart(o, snaps, dests, completable))
    requires PlanSmart(o, snaps, dests, completable).value.reason != CompletePartial
    ensures AllContinue(PlanSmart(o, snaps, dests, completable).value, o.raw, dests)
    ensures PlanSmart(o, snaps, dests, completable).value.base in snaps
    ensures !PlanSmart(o, snaps, dests, completable).value.base.bookmark
  {
    hide BrokenLink, AllContinue, PartialSet, ComparablesAgree, LastBackupsOnPool, SameStreamKind, FirstBrokenChain,
      PlanFullIfOlder, NewestMatching, Comparable, HasFullOf;
    var fullBase := NewestMatching(snaps, o.prefix, o.fullSuffix);
    var incrBase := NewestMatching(snaps, o.prefix, o.incrementalSuffix);
    if o.incremental {
      ExplicitIncrementalContinues(o, incrBase, dests);
    } else if !o.full {
      ByAgeContinues(o, snaps, fullBase, incrBase, dests);
    }
  }

  // What is sent anew is the newest candidate on the pool, of the full or of the incremental kind.
  predicate SendsCandidate(r: Result<Plan, PlanError>, fullBase: Option<SnapshotInfo>, incrBase: Option<SnapshotInfo>) {
    && (IsPlannedFull(r) ==> Some(r.value.base) == fullBase)
    && (IsIncremental(r) ==> Some(r.value.base) == incrBase)
  }

  lemma ByAgeSendsCandidate(
    o: Options, snaps: seq<SnapshotInfo>, fullBase: Option<SnapshotInfo>, incrBase: Option<SnapshotInfo>,
    dests: seq<seq<Backup>>)
    requires snaps != [] && dests != [] && !o.incremental && ComparablesAgree(o, dests)
    ensures SendsCandidate(PlanFullIfOlder(o, snaps, fullBase, incrBase, dests), fullBase, incrBase)
    ensures PlanFullIfOlder(o, snaps, fullBase, incrBase, dests).Ok? ==>
      !PlanFullIfOlder(o, snaps, fullBase, incrBase, dests).value.reason.CompletePartial?
  {
    hide BrokenLink, ComparablesAgree, LastBackupsAgree, PresenceOf, SameStreamKind, FirstBrokenChain, Behind, LastFull;
    if Comparable(o, dests[0]).Some? {
      NoDestinationIsEmpty(o, dests);
    }
  }

  lemma SmartSendsCandidate(o: Options, snaps: seq<SnapshotInfo>, dests: seq<seq<Backup>>, completable: bool)
    requires dests != []
    requires PlanSmart(o, snaps, dests, completable).Ok?
    requires !PlanSmart(o, snaps, dests, completable).value.reason.CompletePartial?
    ensures SendsCandidate(PlanSmart(o, snaps, dests, completable),
      NewestMatching(snaps, o.prefix, o.fullSuffix), NewestMatching(snaps, o.prefix, o.incrementalSuffix))
  {
    hide BrokenLink, PartialSet, ComparablesAgree, LastBackupsOnPool, SameStreamKind, FirstBrokenChain,
      PlanFullIfOlder, NewestMatching, Comparable, HasFullOf;
    var fullBase := NewestMatching(snaps, o.prefix, o.fullSuffix);
    var incrBase := NewestMatching(snaps, o.prefix, o.incrementalSuffix);
    if snaps != [] && ComparablesAgree(o, dests) && !o.incremental {
      ByAgeSendsCandidate(o, snaps, fullBase, incrBase, dests);
    }
  }
}
