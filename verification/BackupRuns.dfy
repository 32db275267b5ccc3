// Smart runs over time: any number of destinations, any part of them per run, other options and
// another pool each time, and sends that reach only some of their destinations.
module BackupRuns {
  import opened Common
  import opened Planner
  import opened PlannerFacts
  import opened Chains

  // ---- Stream kinds ----

  // No incremental restores onto a backup of the other stream kind.
  predicate KindsAgree(d: seq<Backup>) {
    forall c: Backup :: c in d && !IsFull(c) && ParentOf(d, c.source).Some? ==> ParentOf(d, c.source).value.raw == c.raw
  }

  predicate ParentFits(d: seq<Backup>, m: Backup) {
    !IsFull(m) && ParentOf(d, m.source).Some? ==> ParentOf(d, m.source).value.raw == m.raw
  }

  // The incrementals from m's snapshot that are already there have m's kind.
  predicate ChildrenFit(d: seq<Backup>, m: Backup) {
    forall c: Backup :: c in d && !IsFull(c) && Equal(c.source, m.base) ==> c.raw == m.raw
  }

  // Added at place i, m becomes the parent of the incrementals from its snapshot.
  predicate TakesOver(d: seq<Backup>, i: nat, m: Backup)
    requires i <= |d|
  {
    if IsFull(m) then FirstBackupOf(d[..i], m.base, true).None?
    else !HasFullOf(d, m.base) && FirstBackupOf(d[..i], m.base, false).None?
  }

  // A backup that matches is found unless an earlier one is.
  lemma {:induction false} FirstOfInserted(d: seq<Backup>, i: nat, m: Backup, s: SnapshotInfo, fullOnly: bool)
    requires i <= |d| && Equal(m.base, s) && (fullOnly ==> IsFull(m))
    ensures FirstBackupOf(InsertAt(d, i, m), s, fullOnly) ==
      if FirstBackupOf(d[..i], s, fullOnly).Some? then FirstBackupOf(d, s, fullOnly) else Some(m)
  {
    var r := InsertAt(d, i, m);
    if i == 0 {
      assert r[0] == m && d[..0] == [];
    } else {
      assert r[0] == d[0] && r[1..] == InsertAt(d[1..], i - 1, m);
      assert d[..i][0] == d[0] && d[..i][1..] == d[1..][..i - 1];
      FirstOfInserted(d[1..], i - 1, m, s, fullOnly);
    }
  }

  lemma ParentAfter(d: seq<Backup>, i: nat, m: Backup, s: SnapshotInfo)
    requires i <= |d|
    ensures ParentOf(InsertAt(d, i, m), s) == if Equal(m.base, s) && TakesOver(d, i, m) then Some(m) else ParentOf(d, s)
  {
    hide FirstBackupOf;
    if Equal(m.base, s) {
      FirstOfEqual(d[..i], m.base, s, true);
      FirstOfEqual(d[..i], m.base, s, false);
      if IsFull(m) {
        FirstOfInserted(d, i, m, s, true);
        FirstOfInserted(d, i, m, s, false);
        if FirstBackupOf(d[..i], s, true).Some? {
          EarlierIsFirst(d, i, s);
        }
      } else {
        FirstSkips(d, i, m, s, true);
        FirstOfInserted(d, i, m, s, false);
      }
    } else {
      ParentUnchanged(d, i, m, s);
    }
  }

  lemma EarlierIsFirst(d: seq<Backup>, i: nat, s: SnapshotInfo)
    requires i <= |d| && FirstBackupOf(d[..i], s, true).Some?
    ensures FirstBackupOf(d, s, true).Some?
  {
    hide FirstBackupOf;
    assert FirstBackupOf(d[..i], s, true).value in d;
  }

  // A new set keeps the kinds of a destination exactly when its parent there has its kind and, if
  // it becomes a parent, its children there do.
  lemma KindsKeptIff(d: seq<Backup>, i: nat, m: Backup)
    requires i <= |d| && KindsAgree(d) && !Equal(m.base, m.source)
    ensures KindsAgree(InsertAt(d, i, m)) <==> ParentFits(d, m) && (TakesOver(d, i, m) ==> ChildrenFit(d, m))
  {
    hide ParentOf, TakesOver;
    var r := InsertAt(d, i, m);
    forall c: Backup
      ensures ParentOf(r, c.source) ==
        if Equal(m.base, c.source) && TakesOver(d, i, m) then Some(m) else ParentOf(d, c.source)
    {
      ParentAfter(d, i, m, c.source);
    }
    assert m in r;
    if KindsAgree(r) && TakesOver(d, i, m) {
      forall c: Backup | c in d && !IsFull(c) && Equal(c.source, m.base)
        ensures c.raw == m.raw
      {
        assert c in r;
      }
    }
  }

  lemma {:induction false} ChainHasOneKind(d: seq<Backup>, chain: seq<Backup>, i: nat)
    requires KindsAgree(d) && Restores(d, chain) && chain[0] in d && i < |chain|
    ensures chain[i] in d && chain[i].raw == chain[0].raw
  {
    if i > 0 {
      ChainHasOneKind(d, chain, i - 1);
      assert ParentOf(d, chain[i - 1].source) == Some(chain[i]);
    }
  }

  // ---- Runs ----

  type DestId = nat
  type Store = map<DestId, seq<Backup>>

  // One run. wrote says where its manifest was published, and where in each destination's list it
  // is then read back.
  datatype Run = Run(
    now: int, options: Options, snaps: seq<SnapshotInfo>, chosen: seq<DestId>, completable: bool,
    wrote: map<DestId, nat>)

  predicate ValidRun(s: Store, r: Run) {
    && r.chosen != [] && ValidOptions(r.options)
    && (forall k :: k in r.chosen ==> k in s)
    && (forall x: SnapshotInfo :: x in r.snaps ==> x.name != "")
  }

  function Limit(r: Run): (limit: int) {
    r.now + FutureSlack
  }

  function Seen(s: Store, r: Run): (dests: seq<seq<Backup>>)
    requires ValidRun(s, r)
    ensures |dests| == |r.chosen| && forall i :: 0 <= i < |dests| ==> dests[i] == s[r.chosen[i]]
  {
    seq(|r.chosen|, i requires 0 <= i < |r.chosen| => assert r.chosen[i] in r.chosen; s[r.chosen[i]])
  }

  function PlanOf(s: Store, r: Run): (p: Result<Plan, PlanError>)
    requires ValidRun(s, r)
  {
    PlanSmartAt(r.now, r.options, r.snaps, Seen(s, r), r.completable)
  }

  // The set a run publishes: completing a partial set copies the manifest another destination has.
  function SetOf(s: Store, r: Run): (m: Option<Backup>)
    requires ValidRun(s, r)
  {
    var p := PlanOf(s, r);
    if p.Err? || p.value.action.Noop? then None
    else if p.value.reason.CompletePartial? then PartialSet(KeptDestinations(Seen(s, r), Limit(r)))
    else Some(BackupFor(p.value, r.options.raw))
  }

  // A send refuses a set that is already there, and publishes at any part of its destinations.
  predicate RunStep(s: Store, r: Run, t: Store) {
    && ValidRun(s, r)
    && t.Keys == s.Keys
    && (forall k :: k in s && k !in r.wrote ==> t[k] == s[k])
    && (forall k :: k in r.wrote ==> Publishes(s, r, t, k))
  }

  predicate Publishes(s: Store, r: Run, t: Store, k: DestId)
    requires ValidRun(s, r) && k in r.wrote
  {
    && k in r.chosen && k in t && SetOf(s, r).Some?
    && (forall b: Backup :: b in s[k] ==> !SameObject(b, SetOf(s, r).value))
    && r.wrote[k] <= |s[k]|
    && t[k] == InsertAt(s[k], r.wrote[k], SetOf(s, r).value)
    && NewestFirst(t[k])
  }

  // A set that is new to a destination can be published and read back there.
  lemma CanPublish(s: Store, r: Run, k: DestId) returns (wrote: map<DestId, nat>, t: Store)
    requires ValidRun(s, r) && k in r.chosen && SetOf(s, r).Some? && NewestFirst(s[k])
    requires forall b: Backup :: b in s[k] ==> !SameObject(b, SetOf(s, r).value)
    ensures k in wrote && Publishes(s, r.(wrote := wrote), t, k)
  {
    hide PlanSmartAt, PartialSet;
    var i := PlaceOf(s[k], SetOf(s, r).value);
    wrote, t := map[k := i], s[k := InsertAt(s[k], i, SetOf(s, r).value)];
    assert Seen(s, r.(wrote := wrote)) == Seen(s, r);
  }

  lemma {:induction false} PlaceOf(d: seq<Backup>, m: Backup) returns (i: nat)
    requires NewestFirst(d)
    ensures i <= |d| && NewestFirst(InsertAt(d, i, m))
    ensures forall j :: 0 <= j < i ==> Precedes(d[j], m)
    ensures i < |d| ==> Precedes(m, d[i])
  {
    i := 0;
    while i < |d| && Precedes(d[i], m)
      invariant i <= |d| && forall j :: 0 <= j < i ==> Precedes(d[j], m)
    {
      i := i + 1;
    }
    PlaceInOrder(d, i, m);
  }

  lemma PlaceInOrder(d: seq<Backup>, i: nat, m: Backup)
    requires NewestFirst(d) && i <= |d| && (forall j :: 0 <= j < i ==> Precedes(d[j], m))
    requires i < |d| ==> !Precedes(d[i], m)
    ensures NewestFirst(InsertAt(d, i, m)) && (i < |d| ==> Precedes(m, d[i]))
  {
    var r := InsertAt(d, i, m);
    forall j, k | 0 <= j < k < |r|
      ensures Precedes(r[j], r[k])
    {
      assert r[j] == if j < i then d[j] else if j == i then m else d[j - 1];
      assert r[k] == if k < i then d[k] else if k == i then m else d[k - 1];
    }
  }

  predicate ForwardInTime(d: seq<Backup>) {
    forall b: Backup :: b in d && !IsFull(b) ==> b.source.time < b.base.time
  }

  predicate Named(d: seq<Backup>) {
    forall b: Backup :: b in d ==> b.base.name != ""
  }

  // A list in order, with one set per object, every incremental from an older snapshot.
  predicate Sane(d: seq<Backup>) {
    Named(d) && NewestFirst(d) && DistinctSets(d) && ForwardInTime(d)
  }

  predicate Inv(s: Store) {
    forall k :: k in s ==> Sane(s[k])
  }

  predicate OneKind(s: Store) {
    forall k :: k in s ==> KindsAgree(s[k])
  }

  predicate NewIncremental(s: Store, r: Run)
    requires ValidRun(s, r)
  {
    IsIncremental(PlanOf(s, r)) && !PlanOf(s, r).value.reason.CompletePartial?
  }

  predicate OnwardsNamed(m: Backup) {
    m.base.name != "" && (!IsFull(m) ==> m.source.time < m.base.time)
  }

  // What no planner check looks at, at a destination the set goes to: incrementals of the other kind
  // that continue from its snapshot, and, when a partial set is completed, the kind of its parent.
  predicate FitsAt(s: Store, r: Run, k: DestId)
    requires ValidRun(s, r) && k in s && k in r.wrote && r.wrote[k] <= |s[k]| && SetOf(s, r).Some?
  {
    var m := SetOf(s, r).value;
    && (TakesOver(s[k], r.wrote[k], m) ==> ChildrenFit(s[k], m))
    && (PlanOf(s, r).value.reason.CompletePartial? ==> ParentFits(s[k], m))
  }

  predicate Fits(s: Store, r: Run)
    requires ValidRun(s, r)
  {
    SetOf(s, r).Some? ==> forall k :: k in r.wrote && k in s && r.wrote[k] <= |s[k]| ==> FitsAt(s, r, k)
  }

  // What a run that sends an incremental leaves at a destination: its newest backup is that
  // incremental, and a chain of backups there restores it from a full.
  ghost predicate LeavesRestorable(d: seq<Backup>, limit: int, m: Backup) {
    KeptBackups(d, limit) != [] && KeptBackups(d, limit)[0] == m && m in d && Restorable(d, m)
  }

  // The newest backup that a run at that time considers restores from a full, with or without what
  // is dated later.
  ghost predicate NewestRestores(d: seq<Backup>, limit: int) {
    var kept := KeptBackups(d, limit);
    kept != [] && Restorable(kept, kept[0]) && Restorable(d, kept[0])
  }

  predicate RestoresInKind(d: seq<Backup>, chain: seq<Backup>, m: Backup) {
    Restores(d, chain) && chain[0] == m && forall b: Backup :: b in chain ==> b in d && b.raw == m.raw
  }

  ghost predicate RestorableInOneKind(d: seq<Backup>, m: Backup) {
    exists chain: seq<Backup> :: RestoresInKind(d, chain, m)
  }

  lemma RestorableInKind(d: seq<Backup>, m: Backup)
    requires Restorable(d, m) && KindsAgree(d) && m in d
    ensures RestorableInOneKind(d, m)
  {
    var chain: seq<Backup> :| Restores(d, chain) && chain[0] == m;
    forall b: Backup | b in chain
      ensures b in d && b.raw == m.raw
    {
      var i :| 0 <= i < |chain| && chain[i] == b;
      ChainHasOneKind(d, chain, i);
    }
    assert RestoresInKind(d, chain, m);
  }

  // ---- One run ----

  lemma SeenKept(s: Store, r: Run, k: DestId)
    requires ValidRun(s, r) && k in r.chosen
    ensures KeptBackups(s[k], Limit(r)) in KeptDestinations(Seen(s, r), Limit(r))
  {
    hide KeptBackups;
    var i :| 0 <= i < |r.chosen| && r.chosen[i] == k;
    assert KeptDestinations(Seen(s, r), Limit(r))[i] == KeptBackups(s[k], Limit(r));
  }

  // A planned incremental continues what each of its destinations keeps.
  lemma NewIncrementalContinues(s: Store, r: Run, k: DestId)
    requires ValidRun(s, r) && NewIncremental(s, r) && k in r.chosen
    ensures SetOf(s, r).Some? && ContinuesKept(s[k], Limit(r), SetOf(s, r).value)
    ensures KeptBackups(s[k], Limit(r))[0].raw == r.options.raw == SetOf(s, r).value.raw
    ensures SetOf(s, r).value.source == PlanOf(s, r).value.source
  {
    hide PlanSmart, KeptBackups, BrokenLink;
    SeenKept(s, r, k);
    var kept := KeptBackups(s[k], Limit(r));
    IncrementalContinues(r.options, KeptSnapshots(r.snaps, Limit(r)), KeptDestinations(Seen(s, r), Limit(r)),
      r.completable);
    assert Continues(PlanOf(s, r).value, r.options.raw, kept);
  }

  lemma FreshBase(d: seq<Backup>, limit: int, m: Backup)
    requires NewestFirst(d) && ContinuesKept(d, limit, m)
    ensures ParentOf(d, m.base).None?
  {
    hide BrokenLink;
    var kept := KeptBackups(d, limit);
    KeptInOrder(d, limit);
    HeadIsNewest(kept);
  }

  lemma NewIncrementalKind(d: seq<Backup>, limit: int, m: Backup)
    requires NewestFirst(d) && DistinctSets(d) && ContinuesKept(d, limit, m) && KeptBackups(d, limit)[0].raw == m.raw
    ensures ParentFits(d, m)
  {
    hide BrokenLink;
    var kept := KeptBackups(d, limit);
    ParentOfKept(d, limit, m.source);
    ParentOfEqual(kept, kept[0].base, m.source);
    NewestIsParent(kept);
    var p := ParentOf(d, m.source).value;
    if p != kept[0] {
      FullsFirst(d, limit, p);
    }
  }

  // A full of the newest backup's snapshot is the newest backup.
  lemma FullsFirst(d: seq<Backup>, limit: int, p: Backup)
    requires NewestFirst(d) && DistinctSets(d)
    requires KeptBackups(d, limit) != [] && p in KeptBackups(d, limit) && IsFull(p)
    requires Equal(p.base, KeptBackups(d, limit)[0].base)
    ensures p == KeptBackups(d, limit)[0]
  {
    var kept := KeptBackups(d, limit);
    KeptInOrder(d, limit);
    var n :| 0 <= n < |kept| && kept[n] == p;
    if n > 0 {
      assert Precedes(kept[0], kept[n]);
      assert SameObject(kept[0], p);
      DistinctEqual(d, kept[0], p);
    }
  }

  lemma DistinctEqual(d: seq<Backup>, a: Backup, b: Backup)
    requires DistinctSets(d) && a in d && b in d && SameObject(a, b)
    ensures a == b
  {
    var i :| 0 <= i < |d| && d[i] == a;
    var j :| 0 <= j < |d| && d[j] == b;
  }

  lemma InsertedSane(d: seq<Backup>, i: nat, m: Backup)
    requires Sane(d) && i <= |d| && NewestFirst(InsertAt(d, i, m)) && OnwardsNamed(m)
    requires forall b: Backup :: b in d ==> !SameObject(b, m)
    ensures Sane(InsertAt(d, i, m))
  {
    InsertedDistinct(d, i, m);
  }

  lemma InsertedDistinct(d: seq<Backup>, i: nat, m: Backup)
    requires DistinctSets(d) && i <= |d| && forall b: Backup :: b in d ==> !SameObject(b, m)
    ensures DistinctSets(InsertAt(d, i, m))
  {
    var r := InsertAt(d, i, m);
    forall x, y | 0 <= x < y < |r|
      ensures !SameObject(r[x], r[y])
    {
      assert r[x] == if x < i then d[x] else if x == i then m else d[x - 1];
      assert r[y] == if y < i then d[y] else if y == i then m else d[y - 1];
      if x == i {
        assert d[y - 1] in d;
      } else if y == i {
        assert d[x] in d;
      }
    }
  }

  lemma FullTakesOver(d: seq<Backup>, i: nat, m: Backup)
    requires i <= |d| && IsFull(m) && forall b: Backup :: b in d ==> !SameObject(b, m)
    ensures TakesOver(d, i, m)
  {
    assert forall b: Backup :: b in d[..i] ==> b in d;
  }

  lemma NewSetOnPool(s: Store, r: Run)
    requires ValidRun(s, r) && SetOf(s, r).Some? && !PlanOf(s, r).value.reason.CompletePartial?
    ensures SetOf(s, r).value.base in r.snaps
  {
    hide PlanSmart, KeptDestinations, NewestMatching;
    SmartSendsCandidate(r.options, KeptSnapshots(r.snaps, Limit(r)), KeptDestinations(Seen(s, r), Limit(r)),
      r.completable);
  }

  // The set of any run has names, and an incremental's source is older.
  lemma SetIsOnwards(s: Store, r: Run)
    requires ValidRun(s, r) && Inv(s) && SetOf(s, r).Some?
    ensures OnwardsNamed(SetOf(s, r).value)
  {
    hide PlanSmartAt, KeptBackups, PartialSet, Sane, BrokenLink;
    if PlanOf(s, r).value.reason.CompletePartial? {
      PartialIsThere(s, r);
    } else {
      NewSetOnPool(s, r);
      if NewIncremental(s, r) {
        NewIncrementalContinues(s, r, r.chosen[0]);
      }
    }
  }

  lemma PartialIsThere(s: Store, r: Run)
    requires ValidRun(s, r) && Inv(s) && PartialSet(KeptDestinations(Seen(s, r), Limit(r))).Some?
    ensures OnwardsNamed(PartialSet(KeptDestinations(Seen(s, r), Limit(r))).value)
  {
    hide KeptBackups, NewestFirst, DistinctSets;
    var dests := KeptDestinations(Seen(s, r), Limit(r));
    var leader, m := Leader(dests), PartialSet(dests).value;
    var i :| 0 <= i < |dests| && dests[i] == leader;
    assert leader == KeptBackups(s[r.chosen[i]], Limit(r)) && m in leader;
    assert m in s[r.chosen[i]] && Sane(s[r.chosen[i]]);
  }

  lemma StepKeepsSane(s: Store, r: Run, t: Store, k: DestId)
    requires Inv(s) && RunStep(s, r, t) && k in r.wrote
    ensures Sane(t[k])
  {
    hide SetOf, Sane, NewestFirst, InsertAt;
    assert Publishes(s, r, t, k);
    SetIsOnwards(s, r);
    InsertedSane(s[k], r.wrote[k], SetOf(s, r).value);
  }

  // A new incremental leaves itself restorable, and its own kind fits its parent.
  lemma NewIncrementalRestorable(s: Store, r: Run, t: Store, k: DestId)
    requires Inv(s) && RunStep(s, r, t) && k in r.wrote && NewIncremental(s, r)
    ensures SetOf(s, r).Some? && LeavesRestorable(t[k], Limit(r), SetOf(s, r).value)
    ensures ParentFits(s[k], SetOf(s, r).value)
  {
    hide SetOf, PlanOf, KeptBackups, BrokenLink, ParentOf, Restorable, NewestFirst;
    assert Publishes(s, r, t, k);
    var m := SetOf(s, r).value;
    var d, i, limit := s[k], r.wrote[k], Limit(r);
    NewIncrementalContinues(s, r, k);
    SetIsOnwards(s, r);
    assert KeptBackups(d, limit)[0] in d;
    NewIncrementalKind(d, limit, m);
    SentIsNewest(d, limit, i, m);
    SentRestores(d, limit, i, m);
  }

  lemma KeptRestores(d: seq<Backup>, limit: int)
    requires KeptBackups(d, limit) != [] && Restorable(KeptBackups(d, limit), KeptBackups(d, limit)[0])
    ensures NewestRestores(d, limit)
  {
    hide KeptBackups, ParentOf;
    var kept := KeptBackups(d, limit);
    var chain: seq<Backup> :| Restores(kept, chain) && chain[0] == kept[0];
    KeptChain(d, limit, chain);
  }

  // Where the incremental was published, it also restores among what is kept.
  lemma SentRestoresKept(d: seq<Backup>, limit: int, i: nat, m: Backup)
    requires i <= |d| && NewestFirst(d) && ContinuesKept(d, limit, m) && !IsFull(m) && NewestFirst(InsertAt(d, i, m))
    ensures NewestRestores(InsertAt(d, i, m), limit)
  {
    hide KeptBackups, BrokenLink, Restorable, NewestFirst;
    var kept := KeptBackups(d, limit);
    SentIsNewest(d, limit, i, m);
    KeptInOrder(d, limit);
    KeptTwice(d, limit);
    SentRestores(kept, limit, 0, m);
    assert InsertAt(kept, 0, m) == [m] + kept;
    KeptRestores(InsertAt(d, i, m), limit);
  }

  // After a run that plans an incremental the newest backup of each of its destinations restores,
  // wherever the incremental was published.
  lemma ChosenRestore(s: Store, r: Run, t: Store, k: DestId)
    requires Inv(s) && RunStep(s, r, t) && k in r.chosen && NewIncremental(s, r)
    ensures k in t && NewestRestores(t[k], Limit(r))
  {
    hide SetOf, PlanOf, KeptBackups, BrokenLink, Restorable, NewestFirst, NewestRestores, InsertAt;
    NewIncrementalContinues(s, r, k);
    if k in r.wrote {
      assert Publishes(s, r, t, k);
      NewIncrementalIsOne(s, r);
      SentRestoresKept(s[k], Limit(r), r.wrote[k], SetOf(s, r).value);
    } else {
      BrokenLinkIsExact(KeptBackups(s[k], Limit(r)));
      KeptRestores(s[k], Limit(r));
    }
  }

  lemma NewIncrementalIsOne(s: Store, r: Run)
    requires Inv(s) && ValidRun(s, r) && NewIncremental(s, r)
    ensures SetOf(s, r).Some? && !IsFull(SetOf(s, r).value)
  {
    hide PlanSmartAt, KeptBackups, BrokenLink;
    var k := r.chosen[0];
    NewIncrementalContinues(s, r, k);
    assert KeptBackups(s[k], Limit(r))[0] in s[k];
  }

  // A run keeps the kinds of a destination it publishes at exactly when its set fits there.
  lemma RunKeepsKindsIff(s: Store, r: Run, t: Store, k: DestId)
    requires Inv(s) && RunStep(s, r, t) && k in r.wrote && KindsAgree(s[k])
    ensures SetOf(s, r).Some? && r.wrote[k] <= |s[k]|
    ensures KindsAgree(t[k]) <==> FitsAt(s, r, k)
  {
    hide PlanSmartAt, PartialSet, ParentOf, KindsAgree, NewestFirst, InsertAt, TakesOver, Sane;
    assert Publishes(s, r, t, k);
    var m := SetOf(s, r).value;
    SetIsOnwards(s, r);
    KindsKeptIff(s[k], r.wrote[k], m);
    if NewIncremental(s, r) {
      NewIncrementalRestorable(s, r, t, k);
    }
  }

  // ---- Any sequence of runs ----

  predicate History(states: seq<Store>, runs: seq<Run>) {
    |states| == |runs| + 1 && forall n :: 0 <= n < |runs| ==> RunStep(states[n], runs[n], states[n + 1])
  }

  predicate AllFit(states: seq<Store>, runs: seq<Run>)
    requires History(states, runs)
  {
    forall n :: 0 <= n < |runs| ==> RunStep(states[n], runs[n], states[n + 1]) && Fits(states[n], runs[n])
  }

  lemma StepKeepsInv(s: Store, r: Run, t: Store)
    requires Inv(s) && RunStep(s, r, t)
    ensures Inv(t)
  {
    hide Sane, Publishes;
    forall k | k in t
      ensures Sane(t[k])
    {
      if k in r.wrote {
        StepKeepsSane(s, r, t, k);
      }
    }
  }

  lemma {:induction false} InvAlways(states: seq<Store>, runs: seq<Run>, n: nat)
    requires History(states, runs) && Inv(states[0]) && n <= |runs|
    ensures Inv(states[n])
  {
    hide Inv, RunStep;
    if n > 0 {
      InvAlways(states, runs, n - 1);
      StepKeepsInv(states[n - 1], runs[n - 1], states[n]);
    }
  }

  lemma StepKeepsKinds(s: Store, r: Run, t: Store)
    requires Inv(s) && OneKind(s) && RunStep(s, r, t) && Fits(s, r)
    ensures OneKind(t)
  {
    hide KindsAgree, FitsAt, Inv;
    forall k | k in t
      ensures KindsAgree(t[k])
    {
      if k in r.wrote {
        RunKeepsKindsIff(s, r, t, k);
      }
    }
  }

  lemma {:induction false} KindsAlways(states: seq<Store>, runs: seq<Run>, n: nat)
    requires History(states, runs) && AllFit(states, runs) && Inv(states[0]) && OneKind(states[0]) && n <= |runs|
    ensures OneKind(states[n])
  {
    hide Inv, RunStep, Fits, OneKind;
    if n > 0 {
      KindsAlways(states, runs, n - 1);
      InvAlways(states, runs, n - 1);
      StepKeepsKinds(states[n - 1], runs[n - 1], states[n]);
    }
  }

  // Smart runs keep backups restorable: whatever runs came before, after one that plans an
  // incremental the newest backup of each of its destinations restores from a full, whether the
  // send got that far or not; where it did, that backup is the incremental.
  lemma IncrementalsStayRestorable(states: seq<Store>, runs: seq<Run>, n: nat, k: DestId)
    requires History(states, runs) && Inv(states[0]) && n < |runs|
    requires ValidRun(states[n], runs[n]) && NewIncremental(states[n], runs[n]) && k in runs[n].chosen
    ensures SetOf(states[n], runs[n]).Some? && k in states[n + 1]
    ensures NewestRestores(states[n + 1][k], Limit(runs[n]))
    ensures k in runs[n].wrote ==>
      LeavesRestorable(states[n + 1][k], Limit(runs[n]), SetOf(states[n], runs[n]).value)
  {
    hide Inv, LeavesRestorable, NewestRestores, NewIncremental, SetOf, Publishes;
    InvAlways(states, runs, n);
    NewIncrementalIsOne(states[n], runs[n]);
    ChosenRestore(states[n], runs[n], states[n + 1], k);
    if k in runs[n].wrote {
      NewIncrementalRestorable(states[n], runs[n], states[n + 1], k);
    }
  }

  lemma WroteIsChosen(s: Store, r: Run, t: Store, k: DestId)
    requires RunStep(s, r, t) && k in r.wrote
    ensures k in r.chosen
  {
    assert Publishes(s, r, t, k);
  }

  // And when every set sent so far fitted where it went, it does so along one stream kind.
  lemma IncrementalsKeepOneKind(states: seq<Store>, runs: seq<Run>, n: nat, k: DestId)
    requires History(states, runs) && AllFit(states, runs) && Inv(states[0]) && OneKind(states[0]) && n < |runs|
    requires ValidRun(states[n], runs[n]) && NewIncremental(states[n], runs[n]) && k in runs[n].wrote
    ensures SetOf(states[n], runs[n]).Some? && k in states[n + 1]
    ensures RestorableInOneKind(states[n + 1][k], SetOf(states[n], runs[n]).value)
  {
    hide Inv, NewIncremental, SetOf, KindsAgree, RestorableInOneKind, NewestRestores;
    WroteIsChosen(states[n], runs[n], states[n + 1], k);
    IncrementalsStayRestorable(states, runs, n, k);
    KindsAlways(states, runs, n + 1);
    RestorableInKind(states[n + 1][k], SetOf(states[n], runs[n]).value);
  }

  // For a planned full the condition is that the incrementals from its snapshot have its kind.
  lemma FullKeepsKindsIff(s: Store, r: Run, t: Store, k: DestId)
    requires Inv(s) && RunStep(s, r, t) && k in r.wrote && KindsAgree(s[k])
    requires IsPlannedFull(PlanOf(s, r)) && !PlanOf(s, r).value.reason.CompletePartial?
    ensures SetOf(s, r).Some?
    ensures KindsAgree(t[k]) <==> ChildrenFit(s[k], SetOf(s, r).value)
  {
    hide PlanSmartAt, ParentOf, KindsAgree, NewestFirst, InsertAt, TakesOver, Inv;
    assert Publishes(s, r, t, k);
    FullTakesOver(s[k], r.wrote[k], SetOf(s, r).value);
    RunKeepsKindsIff(s, r, t, k);
  }

  // For a completed partial set it is also that its parent where it lags has its kind.
  lemma PartialKeepsKindsIff(s: Store, r: Run, t: Store, k: DestId)
    requires Inv(s) && RunStep(s, r, t) && k in r.wrote && KindsAgree(s[k])
    requires SetOf(s, r).Some? && PlanOf(s, r).value.reason.CompletePartial? && r.wrote[k] <= |s[k]|
    ensures var m := SetOf(s, r).value;
      KindsAgree(t[k]) <==>
        ParentFits(s[k], m) && (TakesOver(s[k], r.wrote[k], m) ==> ChildrenFit(s[k], m))
  {
    hide PlanSmartAt, ParentOf, KindsAgree, TakesOver, Inv, Publishes;
    RunKeepsKindsIff(s, r, t, k);
  }

  // A set newer than everything where it goes always fits.
  lemma NewestFits(s: Store, r: Run)
    requires ValidRun(s, r) && Inv(s) && SetOf(s, r).Some? && !PlanOf(s, r).value.reason.CompletePartial?
    requires forall k, b: Backup :: k in r.wrote && k in s && b in s[k] ==> b.base.time <= SetOf(s, r).value.base.time
    ensures Fits(s, r)
  {
    hide PlanSmartAt, TakesOver, NewestFirst, DistinctSets;
    forall k | k in r.wrote && k in s && r.wrote[k] <= |s[k]|
      ensures FitsAt(s, r, k)
    {
      assert Sane(s[k]);
    }
  }

  // ---- A full that mixes kinds ----

  // Plain backups: a full of a, incrementals a to b and b to c.
  const PlainChain := [
    Backup(SnapshotInfo("c", 3, false), SnapshotInfo("b", 2, false), false),
    Backup(SnapshotInfo("b", 2, false), SnapshotInfo("a", 1, false), false),
    Backup(SnapshotInfo("a", 1, false), NoSnapshot, false)]

  // An explicit raw full of b, once c is gone from the pool.
  const RawFull := Run(
    10, Options(true, false, NotSet, "", "", "", false, true, false, false), [SnapshotInfo("b", 2, false)], [0], false,
    map[0 := 1])

  // The planner lets it through, and the incremental b to c then restores onto a raw stream.
  lemma FullCanMixKinds()
    ensures var s: Store := map[0 := PlainChain];
      var m := Backup(SnapshotInfo("b", 2, false), NoSnapshot, true);
      var t: Store := map[0 := InsertAt(PlainChain, 1, m)];
      && Inv(s) && OneKind(s) && RunStep(s, RawFull, t) && SetOf(s, RawFull) == Some(m) && !KindsAgree(t[0])
  {
    hide KeptBackups, PlanOf, KindsAgree, SetOf, Publishes, InsertAt, Sane;
    var s: Store := map[0 := PlainChain];
    var m := Backup(SnapshotInfo("b", 2, false), NoSnapshot, true);
    var t: Store := map[0 := InsertAt(PlainChain, 1, m)];
    MixPlanned(s, m);
    MixStarts();
    MixPublished(s, t, m);
    assert PlainChain[0] in PlainChain && !ChildrenFit(PlainChain, m);
    FullKeepsKindsIff(s, RawFull, t, 0);
  }

  lemma MixPublished(s: Store, t: Store, m: Backup)
    requires s == map[0 := PlainChain] && m == Backup(SnapshotInfo("b", 2, false), NoSnapshot, true)
    requires t == map[0 := InsertAt(PlainChain, 1, m)]
    requires ValidRun(s, RawFull) && SetOf(s, RawFull) == Some(m)
    ensures RunStep(s, RawFull, t)
  {
    hide SetOf;
    assert InsertAt(PlainChain, 1, m) == [PlainChain[0], m, PlainChain[1], PlainChain[2]];
    assert Publishes(s, RawFull, t, 0);
  }

  lemma MixStarts()
    ensures Sane(PlainChain) && KindsAgree(PlainChain)
  {
    var c, b, a := PlainChain[0], PlainChain[1], PlainChain[2];
    assert PlainChain == [c, b, a] && PlainChain[1..] == [b, a] && PlainChain[2..] == [a];
    assert ParentOf(PlainChain, c.source).value.base.name == "b";
    assert ParentOf(PlainChain, b.source).value.base.name == "a";
  }

  lemma MixPlanned(s: Store, m: Backup)
    requires s == map[0 := PlainChain] && m == Backup(SnapshotInfo("b", 2, false), NoSnapshot, true)
    ensures ValidRun(s, RawFull) && SetOf(s, RawFull) == Some(m) && IsPlannedFull(PlanOf(s, RawFull))
      && PlanOf(s, RawFull).value.reason.ExplicitFull?
  {
    hide KeptBackups, PresenceOf;
    var b := SnapshotInfo("b", 2, false);
    assert RawFull.snaps[1..] == [];
    assert KeptSnapshots(RawFull.snaps, Limit(RawFull)) == [b];
    assert NewestMatching([b], "", "") == Some(b);
    assert Seen(s, RawFull) == [PlainChain];
    forall d: seq<Backup> | d in KeptDestinations([PlainChain], Limit(RawFull))
      ensures !HasFullOf(d, b)
    {
      assert d == KeptBackups(PlainChain, Limit(RawFull));
    }
  }

  // ---- A completed partial set that mixes kinds ----

  const SnapA := SnapshotInfo("a", 1, false)
  const SnapB := SnapshotInfo("b", 2, false)
  const RawB := Backup(SnapB, SnapA, true)
  const RawChain := [RawB, Backup(SnapA, NoSnapshot, true)]
  const PlainFull := [Backup(SnapA, NoSnapshot, false)]

  // Completes, at destination 1, what destination 0 has.
  const Completes := Run(
    10, Options(false, true, NotSet, "", "", "", false, true, false, false), [SnapB], [0, 1], true, map[1 := 0])

  // The sets of both destinations are the same but for the newest, and their kinds are not compared.
  lemma PartialCanMixKinds()
    ensures var s: Store := map[0 := RawChain, 1 := PlainFull];
      var t: Store := map[0 := RawChain, 1 := InsertAt(PlainFull, 0, RawB)];
      && Inv(s) && OneKind(s) && RunStep(s, Completes, t)
      && SetOf(s, Completes) == PartialSet([RawChain, PlainFull]) == Some(RawB) && !KindsAgree(t[1])
  {
    hide SetOf, PlanOf, Sane, KindsAgree, ParentOf, PartialSet;
    PartialSetIs();
    var s: Store := map[0 := RawChain, 1 := PlainFull];
    var t: Store := map[0 := RawChain, 1 := InsertAt(PlainFull, 0, RawB)];
    PartialStarts();
    PartialPlanned(s);
    PartialPublished(s, t);
    PartialKeepsKindsIff(s, Completes, t, 1);
  }

  lemma PartialStarts()
    ensures Sane(RawChain) && Sane(PlainFull) && KindsAgree(RawChain) && KindsAgree(PlainFull)
    ensures !ParentFits(PlainFull, RawB)
  {
    assert RawChain[1..] == [Backup(SnapA, NoSnapshot, true)];
    assert ParentOf(RawChain, SnapA) == Some(RawChain[1]);
    assert ParentOf(PlainFull, SnapA) == Some(PlainFull[0]);
  }

  lemma PartialKept(limit: int)
    requires limit >= 2
    ensures KeptBackups(RawChain, limit) == RawChain && KeptBackups(PlainFull, limit) == PlainFull
  {
    assert RawChain[1..] == [RawChain[1]] && [RawChain[1]][1..] == [];
    assert KeptBackups([RawChain[1]], limit) == [RawChain[1]];
    assert PlainFull[1..] == [];
  }

  lemma PartialSetIs()
    ensures PartialSet([RawChain, PlainFull]) == Some(RawB)
  {
    var dests := [RawChain, PlainFull];
    assert dests[..1] == [RawChain] && [RawChain][..0] == [];
    assert Leader([RawChain]) == RawChain && Leader(dests) == RawChain;
    assert RawChain[1..] == [RawChain[1]] && SameSets(PlainFull, RawChain[1..]);
    assert PlainFull in dests && !SameSets(PlainFull, RawChain);
  }

  lemma PartialPlanned(s: Store)
    requires s == map[0 := RawChain, 1 := PlainFull]
    ensures ValidRun(s, Completes) && SetOf(s, Completes) == Some(RawB)
    ensures PlanOf(s, Completes).Ok? && PlanOf(s, Completes).value.reason.CompletePartial?
  {
    hide PartialSet, KeptBackups, NewestMatching;
    var limit := Limit(Completes);
    assert Completes.snaps[1..] == [];
    assert KeptSnapshots(Completes.snaps, limit) == [SnapB];
    assert Seen(s, Completes) == [RawChain, PlainFull];
    PartialKept(limit);
    assert KeptDestinations([RawChain, PlainFull], limit) == [RawChain, PlainFull];
    PartialSetIs();
  }

  lemma PartialPublished(s: Store, t: Store)
    requires s == map[0 := RawChain, 1 := PlainFull] && t == map[0 := RawChain, 1 := InsertAt(PlainFull, 0, RawB)]
    requires ValidRun(s, Completes) && SetOf(s, Completes) == Some(RawB)
    ensures RunStep(s, Completes, t)
  {
    hide SetOf;
    assert InsertAt(PlainFull, 0, RawB) == [RawB, PlainFull[0]];
    assert 1 in Completes.chosen by {
      assert Completes.chosen[1] == 1;
    }
    assert Publishes(s, Completes, t, 1);
  }
}
