// The order destinations are given in decides nothing.
module DestinationOrder {
  import opened Common
  import opened Planner
  import opened PlannerFacts
  import opened SimulatorTheorem
  import opened PartialSets

  predicate SameDestinations(a: seq<seq<Backup>>, b: seq<seq<Backup>>) {
    a != [] && b != [] && (forall d: seq<Backup> :: d in a ==> d in b) && (forall d: seq<Backup> :: d in b ==> d in a)
  }

  // One outcome: the same error, or plans that send the same snapshot for the same reason.
  predicate SameOutcome(a: Result<Plan, PlanError>, b: Result<Plan, PlanError>) {
    match (a, b)
    case (Ok(p), Ok(q)) =>
      && p.action == q.action && Equal(p.base, q.base) && p.reason == q.reason && p.fullDue == q.fullDue
      && (p.action.Incremental? ==> Equal(p.source, q.source))
    case (Err(e), Err(f)) => e == f
    case _ => false
  }

  // ---- Agreement ----

  predicate AllComparablesEqual(o: Options, dests: seq<seq<Backup>>) {
    forall a: seq<Backup>, b: seq<Backup> :: a in dests && b in dests ==>
      EqualOptions(Comparable(o, a), Comparable(o, b))
  }

  predicate AllLastBackupsEqual(dests: seq<seq<Backup>>) {
    forall a: seq<Backup>, b: seq<Backup> :: a in dests && b in dests ==> EqualOptions(LastBackup(a), LastBackup(b))
  }

  lemma ComparablesAgreeIff(o: Options, dests: seq<seq<Backup>>)
    ensures ComparablesAgree(o, dests) <==> AllComparablesEqual(o, dests)
  {
    hide Comparable;
    if ComparablesAgree(o, dests) {
      forall a: seq<Backup>, b: seq<Backup> | a in dests && b in dests
        ensures EqualOptions(Comparable(o, a), Comparable(o, b))
      {
        var i :| 0 <= i < |dests| && dests[i] == a;
        var j :| 0 <= j < |dests| && dests[j] == b;
        ComparablesEqualFirst(o, dests, i);
        ComparablesEqualFirst(o, dests, j);
      }
    }
    if AllComparablesEqual(o, dests) {
      forall i | 1 <= i < |dests|
        ensures EqualOptions(Comparable(o, dests[i - 1]), Comparable(o, dests[i]))
      {
        assert dests[i - 1] in dests && dests[i] in dests;
      }
    }
  }

  lemma {:induction false} LastBackupsLikeFirst(dests: seq<seq<Backup>>, i: nat)
    requires LastBackupsAgree(dests) && i < |dests|
    ensures EqualOptions(LastBackup(dests[0]), LastBackup(dests[i]))
  {
    hide LastBackup;
    if i > 0 {
      LastBackupsLikeFirst(dests, i - 1);
      assert EqualOptions(LastBackup(dests[i - 1]), LastBackup(dests[i]));
    }
  }

  lemma LastBackupsAgreeIff(dests: seq<seq<Backup>>)
    ensures LastBackupsAgree(dests) <==> AllLastBackupsEqual(dests)
  {
    hide LastBackup;
    if LastBackupsAgree(dests) {
      forall a: seq<Backup>, b: seq<Backup> | a in dests && b in dests
        ensures EqualOptions(LastBackup(a), LastBackup(b))
      {
        var i :| 0 <= i < |dests| && dests[i] == a;
        var j :| 0 <= j < |dests| && dests[j] == b;
        LastBackupsLikeFirst(dests, i);
        LastBackupsLikeFirst(dests, j);
      }
    }
    if AllLastBackupsEqual(dests) {
      forall i | 1 <= i < |dests|
        ensures EqualOptions(LastBackup(dests[i - 1]), LastBackup(dests[i]))
      {
        assert dests[i - 1] in dests && dests[i] in dests;
      }
    }
  }

  lemma AgreementUnordered(o: Options, a: seq<seq<Backup>>, b: seq<seq<Backup>>)
    requires SameDestinations(a, b)
    ensures ComparablesAgree(o, a) <==> ComparablesAgree(o, b)
    ensures LastBackupsAgree(a) <==> LastBackupsAgree(b)
    ensures ComparablesAgree(o, a) ==> EqualOptions(Comparable(o, a[0]), Comparable(o, b[0]))
    ensures LastBackupsAgree(a) ==> EqualOptions(LastBackup(a[0]), LastBackup(b[0]))
  {
    hide Comparable, LastBackup, ComparablesAgree, LastBackupsAgree;
    ComparablesAgreeIff(o, a);
    ComparablesAgreeIff(o, b);
    LastBackupsAgreeIff(a);
    LastBackupsAgreeIff(b);
    assert a[0] in a && b[0] in b;
  }

  // ---- Partial sets ----

  lemma SameSetsLike(x: seq<Backup>, a: seq<Backup>, b: seq<Backup>)
    requires SameSets(a, b)
    ensures SameSets(x, a) <==> SameSets(x, b)
    ensures a != [] ==> (SameSets(x, a[1..]) <==> SameSets(x, b[1..]))
  {
    if a != [] {
      SameTail(a, b);
      SameSetsEither(x, a[1..], b[1..]);
    }
    SameSetsEither(x, a, b);
  }

  lemma SameSetsEither(x: seq<Backup>, a: seq<Backup>, b: seq<Backup>)
    requires SameSets(a, b)
    ensures SameSets(x, a) <==> SameSets(x, b)
  {
    SameSetsSymmetric(a, b);
    if SameSets(x, a) {
      SameSetsTransitive(x, a, b);
    }
    if SameSets(x, b) {
      SameSetsTransitive(x, b, a);
    }
  }

  // Every destination has the leader's sets, or all but the newest.
  predicate AtMostOneBehind(dests: seq<seq<Backup>>, leader: seq<Backup>)
    requires leader != []
  {
    forall b: seq<Backup> :: b in dests ==> SameSets(b, leader) || SameSets(b, leader[1..])
  }

  // Whichever of the longest lists leads, it leads with the same sets.
  lemma LeadersAlike(a: seq<seq<Backup>>, b: seq<seq<Backup>>)
    requires SameDestinations(a, b) && Leader(a) != []
    ensures Leader(b) != [] && (AtMostOneBehind(a, Leader(a)) <==> AtMostOneBehind(b, Leader(b)))
    ensures AtMostOneBehind(a, Leader(a)) ==> SameSets(Leader(a), Leader(b))
  {
    hide SameSets, Leader;
    var x, y := Leader(a), Leader(b);
    assert x in b && y in a && |x| == |y|;
    LongestNotBehind(x, y);
    LongestNotBehind(y, x);
    if AtMostOneBehind(a, x) || AtMostOneBehind(b, y) {
      assert SameSets(y, x) || SameSets(x, y);
      if SameSets(y, x) {
        SameSetsSymmetric(y, x);
      }
      forall d: seq<Backup>
        ensures SameSets(d, x) <==> SameSets(d, y)
        ensures SameSets(d, x[1..]) <==> SameSets(d, y[1..])
      {
        SameSetsLike(d, x, y);
      }
    }
  }

  lemma LongestNotBehind(x: seq<Backup>, y: seq<Backup>)
    requires |x| == |y| > 0
    ensures !SameSets(x, y[1..])
  {
  }

  // The set every destination has or only lacks, as an outcome.
  lemma PartialUnordered(a: seq<seq<Backup>>, b: seq<seq<Backup>>)
    requires SameDestinations(a, b)
    ensures PartialSet(a).Some? <==> PartialSet(b).Some?
    ensures PartialSet(a).Some? ==>
      && Equal(PartialSet(a).value.base, PartialSet(b).value.base)
      && Equal(PartialSet(a).value.source, PartialSet(b).value.source)
  {
    PartialFrom(a, b);
    PartialFrom(b, a);
  }

  lemma PartialFrom(a: seq<seq<Backup>>, b: seq<seq<Backup>>)
    requires SameDestinations(a, b)
    ensures PartialSet(a).Some? ==> PartialSet(b).Some?
    ensures PartialSet(a).Some? ==>
      && Equal(PartialSet(a).value.base, PartialSet(b).value.base)
      && Equal(PartialSet(a).value.source, PartialSet(b).value.source)
  {
    hide Leader, SameSets;
    if PartialSet(a).Some? {
      var x, y := Leader(a), Leader(b);
      assert AtMostOneBehind(a, x);
      LeadersAlike(a, b);
      assert AtMostOneBehind(b, y);
      forall d: seq<Backup>
        ensures SameSets(d, x) <==> SameSets(d, y)
      {
        SameSetsLike(d, x, y);
      }
      SameHeads(x, y);
    }
  }

  lemma SameHeads(x: seq<Backup>, y: seq<Backup>)
    requires SameSets(x, y) && x != []
    ensures y != [] && Equal(x[0].base, y[0].base) && Equal(x[0].source, y[0].source)
  {
  }

  // ---- The plan ----

  lemma BehindUnordered(a: seq<seq<Backup>>, b: seq<seq<Backup>>)
    requires SameDestinations(a, b) && forall d: seq<Backup> :: d in a ==> d != []
    requires forall d: seq<Backup> :: d in b ==> d != []
    ensures Behind(a).time == Behind(b).time
  {
  }

  lemma KindUnordered(o: Options, a: seq<seq<Backup>>, b: seq<seq<Backup>>)
    requires SameDestinations(a, b)
    ensures SameStreamKind(o, a) <==> SameStreamKind(o, b)
  {
  }

  lemma ContinueUnordered(
    o: Options, snaps: seq<SnapshotInfo>, fullBase: Option<SnapshotInfo>, incrBase: Option<SnapshotInfo>,
    a: seq<seq<Backup>>, b: seq<seq<Backup>>, fullDue: bool)
    requires SameDestinations(a, b) && forall d: seq<Backup> :: d in a ==> d != []
    requires forall d: seq<Backup> :: d in b ==> d != []
    ensures SameOutcome(PlanContinue(o, snaps, fullBase, incrBase, a, fullDue),
      PlanContinue(o, snaps, fullBase, incrBase, b, fullDue))
  {
    hide PlanFromLast, LastBackupsAgree, SameStreamKind;
    assert a[0] in a && b[0] in b;
    AgreementUnordered(o, a, b);
    KindUnordered(o, a, b);
    if incrBase.Some? && LastBackupsAgree(a) {
      FromLastUnordered(o, snaps, fullBase, incrBase.value, a[0][0].base, b[0][0].base, SameStreamKind(o, a), fullDue);
    }
  }

  lemma FromLastUnordered(
    o: Options, snaps: seq<SnapshotInfo>, fullBase: Option<SnapshotInfo>, incrBase: SnapshotInfo, last: SnapshotInfo,
    other: SnapshotInfo, sameKind: bool, fullDue: bool)
    requires Equal(last, other)
    ensures SameOutcome(
      PlanFromLast(o, snaps, fullBase, incrBase, last, sameKind, fullDue),
      PlanFromLast(o, snaps, fullBase, incrBase, other, sameKind, fullDue))
  {
    hide PresenceOf;
    PresenceOfEqual(last, other, snaps);
  }

  lemma ByAgeUnordered(
    o: Options, snaps: seq<SnapshotInfo>, fullBase: Option<SnapshotInfo>, incrBase: Option<SnapshotInfo>,
    a: seq<seq<Backup>>, b: seq<seq<Backup>>)
    requires SameDestinations(a, b) && snaps != [] && !o.incremental && ComparablesAgree(o, a) && ComparablesAgree(o, b)
    ensures SameOutcome(PlanFullIfOlder(o, snaps, fullBase, incrBase, a),
      PlanFullIfOlder(o, snaps, fullBase, incrBase, b))
  {
    hide PlanContinue, FirstBrokenChain, Behind, ComparablesAgree, Comparable, BrokenLink;
    AgreementUnordered(o, a, b);
    if Comparable(o, a[0]).Some? {
      NoDestinationIsEmpty(o, a);
      NoDestinationIsEmpty(o, b);
      BehindUnordered(a, b);
      BrokenUnordered(a, b);
      var age := FullWindowElapsed(snaps[0].time - Comparable(o, a[0]).value.time, o.fullIfOlderThan);
      ContinueUnordered(o, snaps, fullBase, incrBase, a, b, age);
    }
  }

  lemma BrokenUnordered(a: seq<seq<Backup>>, b: seq<seq<Backup>>)
    requires SameDestinations(a, b)
    ensures FirstBrokenChain(a).Some? <==> FirstBrokenChain(b).Some?
  {
    hide BrokenLink;
  }

  lemma IncrementalUnordered(o: Options, incrBase: Option<SnapshotInfo>, a: seq<seq<Backup>>, b: seq<seq<Backup>>)
    requires SameDestinations(a, b) && ComparablesAgree(o, a)
    ensures SameOutcome(PlanIncremental(o, incrBase, a), PlanIncremental(o, incrBase, b))
  {
    hide FirstBrokenChain, ComparablesAgree, Comparable;
    AgreementUnordered(o, a, b);
    BrokenUnordered(a, b);
  }

  // Permuting, repeating or regrouping the destinations changes neither success nor what is sent.
  lemma PlanUnordered(o: Options, snaps: seq<SnapshotInfo>, a: seq<seq<Backup>>, b: seq<seq<Backup>>, completable: bool)
    requires SameDestinations(a, b)
    ensures SameOutcome(PlanSmart(o, snaps, a, completable), PlanSmart(o, snaps, b, completable))
  {
    hide PlanFullIfOlder, PlanIncremental, ComparablesAgree, NewestMatching, PartialSet, HasFullOf, PresenceOf;
    PartialUnordered(a, b);
    AgreementUnordered(o, a, b);
    if snaps != [] && ComparablesAgree(o, a) {
      var fullBase := NewestMatching(snaps, o.prefix, o.fullSuffix);
      var incrBase := NewestMatching(snaps, o.prefix, o.incrementalSuffix);
      IncrementalUnordered(o, incrBase, a, b);
      if !o.incremental {
        ByAgeUnordered(o, snaps, fullBase, incrBase, a, b);
      }
    }
  }

  lemma PlanAtUnordered(
    now: int, o: Options, snaps: seq<SnapshotInfo>, a: seq<seq<Backup>>, b: seq<seq<Backup>>, completable: bool)
    requires SameDestinations(a, b)
    ensures SameOutcome(PlanSmartAt(now, o, snaps, a, completable), PlanSmartAt(now, o, snaps, b, completable))
  {
    hide PlanSmart, KeptBackups;
    var limit := now + FutureSlack;
    KeptAmong(a, b, limit);
    KeptAmong(b, a, limit);
    PlanUnordered(o, KeptSnapshots(snaps, limit), KeptDestinations(a, limit), KeptDestinations(b, limit), completable);
  }

  lemma KeptAmong(a: seq<seq<Backup>>, b: seq<seq<Backup>>, limit: int)
    requires SameDestinations(a, b)
    ensures forall d: seq<Backup> :: d in KeptDestinations(a, limit) ==> d in KeptDestinations(b, limit)
  {
    hide KeptBackups;
    forall d: seq<Backup> | d in KeptDestinations(a, limit)
      ensures d in KeptDestinations(b, limit)
    {
      var i :| 0 <= i < |a| && KeptDestinations(a, limit)[i] == d;
      assert a[i] in a;
      var j :| 0 <= j < |b| && b[j] == a[i];
      assert KeptDestinations(b, limit)[j] == d;
    }
  }
}
