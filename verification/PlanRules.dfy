// When the planner sends a full, an incremental or nothing, in terms of what is on the pool and at
// the destinations.
module PlanRules {
  import opened Common
  import opened Planner
  import opened PlannerFacts
  import opened Chains

  // ---- What a run goes by ----

  // A snapshot, not a bookmark, whose name starts with the prefix and ends with the suffix.
  ghost predicate Eligible(s: SnapshotInfo, prefix: string, suffix: string) {
    && !s.bookmark
    && (exists rest: string :: s.name == prefix + rest)
    && exists front: string :: s.name == front + suffix
  }

  // The first eligible snapshot of the list; none when there is none.
  ghost predicate IsCandidate(snaps: seq<SnapshotInfo>, prefix: string, suffix: string, c: Option<SnapshotInfo>) {
    match c
    case None => forall s :: s in snaps ==> !Eligible(s, prefix, suffix)
    case Some(s) =>
      && Eligible(s, prefix, suffix)
      && exists i :: 0 <= i < |snaps| && snaps[i] == s && forall j :: 0 <= j < i ==> !Eligible(snaps[j], prefix, suffix)
  }

  // The base of the first full of the list; none when it has no full.
  ghost predicate IsLastFull(d: seq<Backup>, f: Option<SnapshotInfo>) {
    match f
    case None => forall b: Backup :: b in d ==> b.source.name != ""
    case Some(s) =>
      exists i :: (
        && 0 <= i < |d| && d[i].source.name == "" && d[i].base == s
        && forall j :: 0 <= j < i ==> d[j].source.name != "")
  }

  // All destinations have the same last full, or none has any.
  ghost predicate FullsAgree(dests: seq<seq<Backup>>, f: Option<SnapshotInfo>)
    requires dests != []
  {
    && IsLastFull(dests[0], f)
    && forall d: seq<Backup> :: d in dests ==> exists g :: IsLastFull(d, g) && EqualOptions(f, g)
  }

  // All destinations have a backup, of one snapshot.
  predicate HeadsAgree(dests: seq<seq<Backup>>) {
    && (forall d: seq<Backup> :: d in dests ==> d != [])
    && forall a: seq<Backup>, b: seq<Backup> :: a in dests && b in dests ==>
      a[0].base.name == b[0].base.name && a[0].base.time == b[0].base.time
  }

  // A destination's newest backup is newer than the pool's newest snapshot, and not on the pool.
  predicate FromTheFuture(snaps: seq<SnapshotInfo>, dests: seq<seq<Backup>>)
    requires snaps != []
  {
    exists d: seq<Backup> :: d in dests && d != [] && d[0].base.time > snaps[0].time
      && forall s :: s in snaps ==> s.name != d[0].base.name || s.time != d[0].base.time
  }

  // The newest snapshot is more than the window younger than the last full; of a window of more
  // than an hour ten minutes are forgiven.
  predicate Elapsed(o: Options, snaps: seq<SnapshotInfo>, f: SnapshotInfo)
    requires snaps != []
  {
    snaps[0].time - f.time > if o.fullIfOlderThan > 3600 then o.fullIfOlderThan - 600 else o.fullIfOlderThan
  }

  // Newer than what some destination has.
  predicate NewerThanSome(c: Option<SnapshotInfo>, dests: seq<seq<Backup>>) {
    c.Some? && exists d: seq<Backup> :: d in dests && d != [] && d[0].base.time < c.value.time
  }

  ghost predicate SomeChainBroken(dests: seq<seq<Backup>>) {
    exists d: seq<Backup> :: d in dests && d != [] && !Restorable(d, d[0])
  }

  predicate OnPool(s: SnapshotInfo, snaps: seq<SnapshotInfo>) {
    exists x :: x in snaps && x.name == s.name && x.time == s.time && !x.bookmark
  }

  predicate Bookmarked(s: SnapshotInfo, snaps: seq<SnapshotInfo>) {
    exists x :: x in snaps && x.name == s.name && x.time == s.time && x.bookmark
  }

  // An incremental can start from it: -R and -I need the snapshot itself.
  predicate Available(o: Options, s: SnapshotInfo, snaps: seq<SnapshotInfo>) {
    OnPool(s, snaps) || (Bookmarked(s, snaps) && !o.replication && !o.intermediary)
  }

  predicate OneKindOfStream(o: Options, dests: seq<seq<Backup>>) {
    forall d: seq<Backup> :: d in dests && d != [] ==> d[0].raw == o.raw
  }

  // ---- The planner's functions say the same ----

  lemma EligibleIff(s: SnapshotInfo, prefix: string, suffix: string)
    ensures Eligible(s, prefix, suffix) <==> SnapshotMatches(s, prefix, suffix)
  {
    var n := s.name;
    if SnapshotMatches(s, prefix, suffix) {
      assert n == prefix + n[|prefix|..];
      assert n == n[..|n| - |suffix|] + suffix;
    }
  }

  lemma {:induction false} CandidateIs(snaps: seq<SnapshotInfo>, prefix: string, suffix: string)
    ensures IsCandidate(snaps, prefix, suffix, NewestMatching(snaps, prefix, suffix))
  {
    hide Eligible, SnapshotMatches;
    if snaps != [] {
      EligibleIff(snaps[0], prefix, suffix);
      assert snaps == [snaps[0]] + snaps[1..];
      if !SnapshotMatches(snaps[0], prefix, suffix) {
        CandidateIs(snaps[1..], prefix, suffix);
        CandidateCons(snaps[0], snaps[1..], prefix, suffix, NewestMatching(snaps[1..], prefix, suffix));
      }
    }
  }

  lemma CandidateCons(x: SnapshotInfo, rest: seq<SnapshotInfo>, prefix: string, suffix: string, c: Option<SnapshotInfo>)
    requires IsCandidate(rest, prefix, suffix, c) && !Eligible(x, prefix, suffix)
    ensures IsCandidate([x] + rest, prefix, suffix, c)
  {
    hide Eligible;
    var all := [x] + rest;
    if c.Some? {
      var i :| 0 <= i < |rest| && rest[i] == c.value && forall j :: 0 <= j < i ==> !Eligible(rest[j], prefix, suffix);
      assert all[i + 1] == c.value;
      forall j | 0 <= j < i + 1
        ensures !Eligible(all[j], prefix, suffix)
      {
        assert j > 0 ==> all[j] == rest[j - 1];
      }
    }
  }

  lemma CandidateUnique(
    snaps: seq<SnapshotInfo>, prefix: string, suffix: string, a: Option<SnapshotInfo>, b: Option<SnapshotInfo>)
    requires IsCandidate(snaps, prefix, suffix, a) && IsCandidate(snaps, prefix, suffix, b)
    ensures a == b
  {
    hide Eligible;
  }

  lemma {:induction false} LastFullIs(d: seq<Backup>)
    ensures IsLastFull(d, LastFull(d))
  {
    if d != [] && !IsFull(d[0]) {
      LastFullIs(d[1..]);
      LastFullCons(d[0], d[1..], LastFull(d[1..]));
      assert d == [d[0]] + d[1..];
    }
  }

  lemma LastFullCons(x: Backup, rest: seq<Backup>, f: Option<SnapshotInfo>)
    requires IsLastFull(rest, f) && x.source.name != ""
    ensures IsLastFull([x] + rest, f)
  {
    var all := [x] + rest;
    if f.Some? {
      var i :| 0 <= i < |rest| && rest[i].source.name == "" && rest[i].base == f.value
        && forall j :: 0 <= j < i ==> rest[j].source.name != "";
      assert all[i + 1] == rest[i];
      forall j | 0 <= j < i + 1
        ensures all[j].source.name != ""
      {
        assert j > 0 ==> all[j] == rest[j - 1];
      }
    }
  }

  lemma LastFullUnique(d: seq<Backup>, f: Option<SnapshotInfo>, g: Option<SnapshotInfo>)
    requires IsLastFull(d, f) && IsLastFull(d, g)
    ensures f == g
  {
  }

  // Agreement of neighbours is agreement with the first.
  lemma ComparablesAreFulls(o: Options, dests: seq<seq<Backup>>)
    requires AgeOptions(o) && dests != []
    ensures Comparable(o, dests[0]) == LastFull(dests[0])
    ensures ComparablesAgree(o, dests) <==> FullsAgree(dests, LastFull(dests[0]))
  {
    hide LastFull, IsLastFull;
    LastFullIs(dests[0]);
    if ComparablesAgree(o, dests) {
      forall d: seq<Backup> | d in dests
        ensures exists g :: IsLastFull(d, g) && EqualOptions(LastFull(dests[0]), g)
      {
        var i :| 0 <= i < |dests| && dests[i] == d;
        ComparablesEqualFirst(o, dests, i);
        LastFullIs(d);
      }
    }
    if FullsAgree(dests, LastFull(dests[0])) {
      forall i | 0 <= i < |dests|
        ensures EqualOptions(LastFull(dests[0]), LastFull(dests[i]))
      {
        assert dests[i] in dests;
        LastFullOf(dests[i]);
      }
    }
  }

  lemma LastFullOf(d: seq<Backup>)
    ensures forall g :: IsLastFull(d, g) <==> g == LastFull(d)
  {
    LastFullIs(d);
    forall g | IsLastFull(d, g)
      ensures g == LastFull(d)
    {
      LastFullUnique(d, g, LastFull(d));
    }
  }

  lemma HeadsAgreeIff(dests: seq<seq<Backup>>)
    requires dests != [] && forall d: seq<Backup> :: d in dests ==> d != []
    ensures LastBackupsAgree(dests) <==> HeadsAgree(dests)
  {
    assert dests[0] in dests;
    if LastBackupsAgree(dests) {
      forall a: seq<Backup> | a in dests
        ensures Equal(a[0].base, dests[0][0].base)
      {
        var i :| 0 <= i < |dests| && dests[i] == a;
        LastBackupsEqualFirst(dests, i);
      }
    }
    if HeadsAgree(dests) {
      forall i | 1 <= i < |dests|
        ensures EqualOptions(LastBackup(dests[i - 1]), LastBackup(dests[i]))
      {
        assert dests[i - 1] in dests && dests[i] in dests;
      }
    }
  }

  lemma BrokenIff(dests: seq<seq<Backup>>)
    ensures FirstBrokenChain(dests).Some? <==> SomeChainBroken(dests)
  {
    hide BrokenLink, Restorable;
    forall d: seq<Backup> | d in dests
      ensures BrokenLink(d).Some? <==> d != [] && !Restorable(d, d[0])
    {
      BrokenIffHere(d);
    }
  }

  lemma BrokenIffHere(d: seq<Backup>)
    ensures BrokenLink(d).Some? <==> d != [] && !Restorable(d, d[0])
  {
    hide Restorable;
    if d != [] {
      BrokenLinkIsExact(d);
    }
  }

  lemma PresenceIs(s: SnapshotInfo, snaps: seq<SnapshotInfo>)
    ensures PresenceOf(s, snaps).Present? <==> OnPool(s, snaps)
    ensures PresenceOf(s, snaps).OnlyBookmark? <==> !OnPool(s, snaps) && Bookmarked(s, snaps)
  {
  }

  lemma FutureIff(snaps: seq<SnapshotInfo>, dests: seq<seq<Backup>>)
    requires snaps != []
    ensures LastBackupsOnPool(snaps, dests) <==> !FromTheFuture(snaps, dests)
  {
    forall s: SnapshotInfo
      ensures PresenceOf(s, snaps).Absent? <==> forall x :: x in snaps ==> x.name != s.name || x.time != s.time
    {
      assert PresenceOf(s, snaps).Absent? <==> forall x :: x in snaps ==> !Equal(x, s);
    }
  }

  // ---- --fullIfOlderThan ----

  // What a run reads off the pool and the destinations.
  datatype Read = Read(full: Option<SnapshotInfo>, incr: Option<SnapshotInfo>, last: Option<SnapshotInfo>)

  ghost predicate Reads(o: Options, snaps: seq<SnapshotInfo>, dests: seq<seq<Backup>>, x: Read)
    requires dests != []
  {
    && IsCandidate(snaps, o.prefix, o.fullSuffix, x.full) && IsCandidate(snaps, o.prefix, o.incrementalSuffix, x.incr)
    && FullsAgree(dests, x.last)
  }

  // Nothing to complete, nothing from the future.
  predicate Ready(snaps: seq<SnapshotInfo>, dests: seq<seq<Backup>>, completable: bool) {
    snaps != [] && !(completable && PartialSet(dests).Some?) && !FromTheFuture(snaps, dests)
  }

  predicate FullDue(o: Options, snaps: seq<SnapshotInfo>, x: Read)
    requires snaps != []
  {
    x.last.Some? && Elapsed(o, snaps, x.last.value)
  }

  // There is a full to continue from, no full takes its place, and all chains are whole.
  ghost predicate Continuing(o: Options, snaps: seq<SnapshotInfo>, dests: seq<seq<Backup>>, x: Read)
    requires snaps != []
  {
    && x.last.Some? && !SomeChainBroken(dests)
    && (FullDue(o, snaps, x) ==> x.full.Some? && !NewerThanSome(x.full, dests))
    && x.incr.Some? && dests != [] && HeadsAgree(dests)
  }

  predicate FullBecause(r: Result<Plan, PlanError>, reason: Reason) {
    r.Ok? && r.value.action.Full? && r.value.reason == reason
  }

  predicate NothingBecause(r: Result<Plan, PlanError>, reason: Reason) {
    r.Ok? && r.value.action.Noop? && r.value.reason == reason
  }

  lemma ReadIs(o: Options, snaps: seq<SnapshotInfo>, dests: seq<seq<Backup>>, x: Read)
    requires AgeOptions(o) && dests != [] && Reads(o, snaps, dests, x)
    ensures ComparablesAgree(o, dests) && x.last == Comparable(o, dests[0])
    ensures x.full == NewestMatching(snaps, o.prefix, o.fullSuffix)
    ensures x.incr == NewestMatching(snaps, o.prefix, o.incrementalSuffix)
  {
    hide ComparablesAgree, IsCandidate, IsLastFull, LastFull, Comparable, NewestMatching;
    CandidateIs(snaps, o.prefix, o.fullSuffix);
    CandidateUnique(snaps, o.prefix, o.fullSuffix, x.full, NewestMatching(snaps, o.prefix, o.fullSuffix));
    CandidateIs(snaps, o.prefix, o.incrementalSuffix);
    CandidateUnique(snaps, o.prefix, o.incrementalSuffix, x.incr, NewestMatching(snaps, o.prefix, o.incrementalSuffix));
    LastFullOf(dests[0]);
    ComparablesAreFulls(o, dests);
  }

  // The exits of the planner, in order.
  ghost function AgeExit(o: Options, snaps: seq<SnapshotInfo>, dests: seq<seq<Backup>>, x: Read)
    : (r: Result<(Action, Reason), PlanError>)
    requires snaps != [] && dests != []
  {
    var newer := NewerThanSome(x.full, dests);
    if x.last.None? then if x.full.None? then Err(NoFullCandidate) else Ok((Full, NoPreviousFull))
    else if FullDue(o, snaps, x) && x.full.None? then Err(NoFullCandidate)
    else if FullDue(o, snaps, x) && newer then Ok((Full, WindowElapsed))
    else if SomeChainBroken(dests) then Ok((if newer then Full else Noop, BrokenChain))
    else if x.incr.None? then Err(NoIncrementalCandidate)
    else if !HeadsAgree(dests) then Err(LastBackupsDiffer)
    else assert dests[0] in dests; FromHead(o, snaps, dests, x, dests[0][0].base)
  }

  ghost function FromHead(o: Options, snaps: seq<SnapshotInfo>, dests: seq<seq<Backup>>, x: Read, head: SnapshotInfo)
    : (r: Result<(Action, Reason), PlanError>)
    requires x.incr.Some?
  {
    if x.incr.value.time <= head.time then Ok((Noop, NothingNewer))
    else if Available(o, head, snaps) then
      if OneKindOfStream(o, dests) then Ok((Incremental, NewerCandidate)) else Err(MixedChain)
    else if x.full.None? then Err(NoFullCandidate)
    else Ok((if x.full.value.time > head.time then Full else Noop, SourcePruned))
  }

  predicate Exits(r: Result<Plan, PlanError>, exit: Result<(Action, Reason), PlanError>) {
    match exit
    case Err(e) => r == Err(e)
    case Ok((action, reason)) => r.Ok? && r.value.action == action && r.value.reason == reason
  }

  // What an incremental starts from: the newest backup's snapshot, as itself or as a bookmark.
  predicate StartsFrom(r: Result<Plan, PlanError>, snaps: seq<SnapshotInfo>, head: SnapshotInfo) {
    r.Ok? && r.value.source == head.(bookmark := !OnPool(head, snaps))
  }

  // A plan that sends no full says whether one is due.
  predicate Tells(r: Result<Plan, PlanError>, due: bool) {
    r.Ok? ==> r.value.fullDue == (due && !r.value.action.Full?)
  }

  lemma FromHeadExit(
    o: Options, snaps: seq<SnapshotInfo>, dests: seq<seq<Backup>>, x: Read, head: SnapshotInfo, due: bool)
    requires x.incr.Some?
    ensures var r := PlanFromLast(o, snaps, x.full, x.incr.value, head, SameStreamKind(o, dests), due);
      && Exits(r, FromHead(o, snaps, dests, x, head))
      && (IsPlannedFull(r) ==> Some(r.value.base) == x.full)
      && (IsIncremental(r) ==> Some(r.value.base) == x.incr && StartsFrom(r, snaps, head))
      && Tells(r, due)
  {
    hide PresenceOf;
    PresenceIs(head, snaps);
  }

  lemma ByAgeExit(o: Options, snaps: seq<SnapshotInfo>, dests: seq<seq<Backup>>, x: Read)
    requires AgeOptions(o) && dests != [] && snaps != [] && Reads(o, snaps, dests, x)
    ensures ComparablesAgree(o, dests)
    ensures var r := PlanFullIfOlder(o, snaps, x.full, x.incr, dests);
      && Exits(r, AgeExit(o, snaps, dests, x))
      && (IsPlannedFull(r) ==> Some(r.value.base) == x.full)
      && (IsIncremental(r) ==> Some(r.value.base) == x.incr && dests[0] != [] && StartsFrom(r, snaps, dests[0][0].base))
      && Tells(r, FullDue(o, snaps, x))
  {
    hide ComparablesAgree, Reads, Comparable, LastFull, SomeChainBroken, FromHead, PlanFromLast;
    hide FirstBrokenChain, LastBackupsAgree, HeadsAgree, SameStreamKind, Behind;
    ReadIs(o, snaps, dests, x);
    BrokenIff(dests);
    if x.last.Some? {
      NoDestinationIsEmpty(o, dests);
      HeadsAgreeIff(dests);
      assert dests[0] in dests;
      if x.incr.Some? {
        FromHeadExit(o, snaps, dests, x, dests[0][0].base, FullDue(o, snaps, x));
      }
    }
  }

  lemma AgeExits(o: Options, snaps: seq<SnapshotInfo>, dests: seq<seq<Backup>>, completable: bool, x: Read)
    requires AgeOptions(o) && dests != [] && Ready(snaps, dests, completable) && Reads(o, snaps, dests, x)
    ensures var r := PlanSmart(o, snaps, dests, completable);
      && Exits(r, AgeExit(o, snaps, dests, x))
      && (IsPlannedFull(r) ==> Some(r.value.base) == x.full)
      && (IsIncremental(r) ==> Some(r.value.base) == x.incr && dests[0] != [] && StartsFrom(r, snaps, dests[0][0].base))
      && Tells(r, FullDue(o, snaps, x))
  {
    hide ComparablesAgree, NewestMatching, PartialSet, Reads, LastBackupsOnPool, FromTheFuture, PlanFullIfOlder;
    hide AgeExit, StartsFrom, Comparable;
    ReadIs(o, snaps, dests, x);
    FutureIff(snaps, dests);
    ByAgeExit(o, snaps, dests, x);
  }

  // Fulls: the first one; one when the last is too old; one for a broken chain; one for a source
  // that is gone.
  lemma FullIff(o: Options, snaps: seq<SnapshotInfo>, dests: seq<seq<Backup>>, completable: bool, x: Read)
    requires AgeOptions(o) && dests != [] && Ready(snaps, dests, completable) && Reads(o, snaps, dests, x)
    ensures var r := PlanSmart(o, snaps, dests, completable);
      && (FullBecause(r, NoPreviousFull) <==> x.last.None? && x.full.Some?)
      && (FullBecause(r, WindowElapsed) <==> FullDue(o, snaps, x) && NewerThanSome(x.full, dests))
      && (FullBecause(r, BrokenChain) <==>
          x.last.Some? && !FullDue(o, snaps, x) && SomeChainBroken(dests) && NewerThanSome(x.full, dests))
      && (FullBecause(r, SourcePruned) <==>
          && Continuing(o, snaps, dests, x) && dests[0] != [] && x.incr.value.time > dests[0][0].base.time
          && !Available(o, dests[0][0].base, snaps) && x.full.Some? && x.full.value.time > dests[0][0].base.time)
      && (IsPlannedFull(r) ==> Some(r.value.base) == x.full)
      && (IsPlannedFull(r) ==>
          FullBecause(r, NoPreviousFull) || FullBecause(r, WindowElapsed) || FullBecause(r, BrokenChain)
          || FullBecause(r, SourcePruned))
  {
    hide PlanSmart, Reads, SomeChainBroken, HeadsAgree, Available, OneKindOfStream, StartsFrom;
    AgeExits(o, snaps, dests, completable, x);
    HeadsThere(dests);
  }

  // An incremental: a newer candidate, a source that is there, one stream kind.
  lemma IncrementalIff(o: Options, snaps: seq<SnapshotInfo>, dests: seq<seq<Backup>>, completable: bool, x: Read)
    requires AgeOptions(o) && dests != [] && Ready(snaps, dests, completable) && Reads(o, snaps, dests, x)
    ensures var r := PlanSmart(o, snaps, dests, completable);
      && (IsIncremental(r) <==>
          && Continuing(o, snaps, dests, x) && dests[0] != [] && x.incr.value.time > dests[0][0].base.time
          && Available(o, dests[0][0].base, snaps) && OneKindOfStream(o, dests))
      && (IsIncremental(r) ==> Some(r.value.base) == x.incr && dests[0] != [] && StartsFrom(r, snaps, dests[0][0].base))
      && Tells(r, FullDue(o, snaps, x))
  {
    hide PlanSmart, Reads, SomeChainBroken, HeadsAgree, NewerThanSome, FullDue, Available, OneKindOfStream, StartsFrom;
    AgeExits(o, snaps, dests, completable, x);
    HeadsThere(dests);
  }

  // Nothing: a broken chain, or a source that is gone, with no newer full to take its place, or
  // nothing newer to send.
  lemma NothingIff(o: Options, snaps: seq<SnapshotInfo>, dests: seq<seq<Backup>>, completable: bool, x: Read)
    requires AgeOptions(o) && dests != [] && Ready(snaps, dests, completable) && Reads(o, snaps, dests, x)
    ensures var r := PlanSmart(o, snaps, dests, completable);
      && (NothingBecause(r, BrokenChain) <==>
          && x.last.Some? && SomeChainBroken(dests) && !NewerThanSome(x.full, dests)
          && (FullDue(o, snaps, x) ==> x.full.Some?))
      && (NothingBecause(r, NothingNewer) <==>
          Continuing(o, snaps, dests, x) && dests[0] != [] && x.incr.value.time <= dests[0][0].base.time)
      && (NothingBecause(r, SourcePruned) <==>
          && Continuing(o, snaps, dests, x) && dests[0] != [] && x.incr.value.time > dests[0][0].base.time
          && !Available(o, dests[0][0].base, snaps) && x.full.Some? && x.full.value.time <= dests[0][0].base.time)
      && (r.Ok? && r.value.action.Noop? ==>
          NothingBecause(r, BrokenChain) || NothingBecause(r, NothingNewer) || NothingBecause(r, SourcePruned))
  {
    hide PlanSmart, Reads, SomeChainBroken, HeadsAgree, NewerThanSome, FullDue, Available, OneKindOfStream, StartsFrom;
    AgeExits(o, snaps, dests, completable, x);
    HeadsThere(dests);
  }

  lemma HeadsThere(dests: seq<seq<Backup>>)
    requires dests != []
    ensures HeadsAgree(dests) ==> dests[0] != []
  {
    assert dests[0] in dests;
  }

  // ---- What stops a run ----

  // Before anything else: no snapshots, a set to complete, a backup from the future, and last
  // fulls that differ.
  lemma StopsIff(o: Options, snaps: seq<SnapshotInfo>, dests: seq<seq<Backup>>, completable: bool)
    requires AgeOptions(o) && dests != []
    ensures var r := PlanSmart(o, snaps, dests, completable);
      && (r == Err(NoSnapshots) <==> snaps == [])
      && (r.Ok? && r.value.reason.CompletePartial? <==> snaps != [] && completable && PartialSet(dests).Some?)
      && (r == Err(LastBackupInFuture) <==>
          snaps != [] && !(completable && PartialSet(dests).Some?) && FromTheFuture(snaps, dests))
      && (r == Err(OutOfSync) <==> Ready(snaps, dests, completable) && !exists f :: FullsAgree(dests, f))
  {
    hide ComparablesAgree, PartialSet, LastBackupsOnPool, FromTheFuture, PlanFullIfOlder, FullsAgree, Comparable;
    hide LastFull, NewestMatching, Exits;
    if snaps != [] {
      FutureIff(snaps, dests);
      AgreeIff(o, dests);
      if Ready(snaps, dests, completable) && ComparablesAgree(o, dests) {
        var x := ReadOf(o, snaps, dests);
        AgeExits(o, snaps, dests, completable, x);
        NeverOutOfSync(o, snaps, dests, x, PlanSmart(o, snaps, dests, completable));
      }
    }
  }

  lemma AgreeIff(o: Options, dests: seq<seq<Backup>>)
    requires AgeOptions(o) && dests != []
    ensures ComparablesAgree(o, dests) <==> exists f :: FullsAgree(dests, f)
  {
    hide ComparablesAgree, LastFull, IsLastFull;
    ComparablesAreFulls(o, dests);
    LastFullOf(dests[0]);
  }

  // There is always something to go by, unless last fulls differ.
  lemma ReadOf(o: Options, snaps: seq<SnapshotInfo>, dests: seq<seq<Backup>>) returns (x: Read)
    requires AgeOptions(o) && dests != [] && ComparablesAgree(o, dests)
    ensures Reads(o, snaps, dests, x)
  {
    hide ComparablesAgree, LastFull, FullsAgree, IsCandidate, NewestMatching;
    x := Read(
      NewestMatching(snaps, o.prefix, o.fullSuffix), NewestMatching(snaps, o.prefix, o.incrementalSuffix),
      LastFull(dests[0]));
    CandidateIs(snaps, o.prefix, o.fullSuffix);
    CandidateIs(snaps, o.prefix, o.incrementalSuffix);
    ComparablesAreFulls(o, dests);
  }

  lemma NeverOutOfSync(
    o: Options, snaps: seq<SnapshotInfo>, dests: seq<seq<Backup>>, x: Read, r: Result<Plan, PlanError>)
    requires snaps != [] && dests != [] && Exits(r, AgeExit(o, snaps, dests, x))
    ensures r != Err(OutOfSync) && r != Err(NoSnapshots) && r != Err(LastBackupInFuture)
    ensures r.Ok? ==> !r.value.reason.CompletePartial?
  {
    hide SomeChainBroken, HeadsAgree, NewerThanSome, FullDue, Available, OneKindOfStream;
  }

  // ---- Completing a set ----

  // The same sets, in the same order.
  predicate Alike(a: seq<Backup>, b: seq<Backup>) {
    |a| == |b| && forall i :: 0 <= i < |a| ==>
      && a[i].base.name == b[i].base.name && a[i].base.time == b[i].base.time
      && a[i].source.name == b[i].source.name && a[i].source.time == b[i].source.time
  }

  // The i-th destination is the first of those with the most sets, every other has its sets or all but
  // the newest, and some lack that.
  predicate IsAhead(dests: seq<seq<Backup>>, i: nat)
    requires i < |dests|
  {
    && dests[i] != []
    && (forall j :: 0 <= j < |dests| ==> |dests[j]| <= |dests[i]| && (j < i ==> |dests[j]| < |dests[i]|))
    && (forall d: seq<Backup> :: d in dests ==> Alike(d, dests[i]) || Alike(d, dests[i][1..]))
    && exists d: seq<Backup> :: d in dests && !Alike(d, dests[i])
  }

  // Some destinations lack a set exactly when one is ahead, and it is that one's newest.
  lemma PartialIff(dests: seq<seq<Backup>>)
    requires dests != []
    ensures PartialSet(dests).Some? <==> exists i: nat :: i < |dests| && IsAhead(dests, i)
    ensures forall i: nat :: i < |dests| && IsAhead(dests, i) ==> PartialSet(dests) == Some(dests[i][0])
  {
    hide Alike, SameSets, Leader;
    forall a: seq<Backup>, b: seq<Backup>
      ensures Alike(a, b) <==> SameSets(a, b)
    {
      AlikeIff(a, b);
    }
    var l := FirstLongest(dests);
    forall i: nat | i < |dests| && IsAhead(dests, i)
      ensures i == l
    {
    }
    if PartialSet(dests).Some? {
      assert IsAhead(dests, l);
    }
  }

  lemma AlikeIff(a: seq<Backup>, b: seq<Backup>)
    ensures Alike(a, b) <==> SameSets(a, b)
  {
  }

  lemma {:induction false} FirstLongest(dests: seq<seq<Backup>>) returns (l: nat)
    requires dests != []
    ensures l < |dests| && Leader(dests) == dests[l]
    ensures forall j :: 0 <= j < |dests| ==> |dests[j]| <= |dests[l]| && (j < l ==> |dests[j]| < |dests[l]|)
    decreases |dests|
  {
    l := |dests| - 1;
    if l > 0 {
      var k := FirstLongest(dests[..l]);
      if |dests[l]| <= |dests[k]| {
        l := k;
      }
    }
  }

  // What is planned then is that set.
  lemma CompletionIs(o: Options, snaps: seq<SnapshotInfo>, dests: seq<seq<Backup>>, i: nat)
    requires !o.full && snaps != [] && i < |dests| && IsAhead(dests, i)
    ensures var r, m := PlanSmart(o, snaps, dests, true), dests[i][0];
      && r.Ok? && r.value.reason.CompletePartial? && r.value.base == m.base
      && (r.value.action.Full? <==> m.source.name == "")
      && (r.value.action.Incremental? <==> m.source.name != "")
      && (m.source.name != "" ==> r.value.source == m.source)
  {
    hide IsAhead, PartialSet;
    PartialIff(dests);
  }

  // ---- --full ----

  // The destination has a full of the snapshot.
  predicate HasFull(d: seq<Backup>, s: SnapshotInfo) {
    exists b: Backup :: b in d && b.source.name == "" && b.base.name == s.name && b.base.time == s.time
  }

  lemma ExplicitFullIff(
    o: Options, snaps: seq<SnapshotInfo>, dests: seq<seq<Backup>>, completable: bool, full: Option<SnapshotInfo>)
    requires o.full && dests != [] && snaps != [] && IsCandidate(snaps, o.prefix, o.fullSuffix, full)
    ensures var r := PlanSmart(o, snaps, dests, completable);
      var had, lacked :=
        full.Some? && exists d: seq<Backup> :: d in dests && HasFull(d, full.value),
        full.Some? && exists d: seq<Backup> :: d in dests && !HasFull(d, full.value);
      && (r == Err(NoFullCandidate) <==> full.None?)
      && (NothingBecause(r, AlreadyBackedUp) <==> full.Some? && !lacked)
      && (r == Err(OutOfSync) <==> had && lacked && !o.resume)
      && (FullBecause(r, ExplicitFull) <==> lacked && (had ==> o.resume))
      && (IsPlannedFull(r) ==> Some(r.value.base) == full)
  {
    hide IsCandidate, NewestMatching;
    CandidateIs(snaps, o.prefix, o.fullSuffix);
    CandidateUnique(snaps, o.prefix, o.fullSuffix, full, NewestMatching(snaps, o.prefix, o.fullSuffix));
    if full.Some? {
      forall d: seq<Backup>
        ensures HasFullOf(d, full.value) <==> HasFull(d, full.value)
      {
        HasFullIff(d, full.value);
      }
      assert dests[0] in dests;
    }
  }

  lemma HasFullIff(d: seq<Backup>, s: SnapshotInfo)
    ensures HasFullOf(d, s) <==> HasFull(d, s)
  {
    if HasFullOf(d, s) {
      var b: Backup :| b in d && IsFull(b) && Equal(b.base, s);
      assert b in d && b.source.name == "";
    }
    if HasFull(d, s) {
      var b: Backup :| b in d && b.source.name == "" && b.base.name == s.name && b.base.time == s.time;
      assert IsFull(b) && Equal(b.base, s);
    }
  }

  // ---- --increment ----

  // Every destination is empty, or all have a backup of one snapshot.
  predicate AllAtOneSnapshot(dests: seq<seq<Backup>>) {
    (forall d: seq<Backup> :: d in dests ==> d == []) || HeadsAgree(dests)
  }

  lemma ExplicitIncrementalIff(
    o: Options, snaps: seq<SnapshotInfo>, dests: seq<seq<Backup>>, completable: bool, incr: Option<SnapshotInfo>)
    requires o.incremental && ValidOptions(o) && dests != [] && Ready(snaps, dests, completable)
    requires IsCandidate(snaps, o.prefix, o.incrementalSuffix, incr)
    ensures var r := PlanSmart(o, snaps, dests, completable);
      var newer := incr.Some? && HeadsAgree(dests) && dests[0] != [] && incr.value.time > dests[0][0].base.time;
      && (r == Err(OutOfSync) <==> !AllAtOneSnapshot(dests))
      && (r == Err(NoIncrementalCandidate) <==> AllAtOneSnapshot(dests) && incr.None?)
      && (r == Err(NothingToIncrement) <==> incr.Some? && forall d: seq<Backup> :: d in dests ==> d == [])
      && (NothingBecause(r, NothingNewer) <==> incr.Some? && HeadsAgree(dests) && !newer)
      && (r == Err(ChainIsBroken) <==> newer && SomeChainBroken(dests))
      && (r == Err(MixedChain) <==> newer && !SomeChainBroken(dests) && !OneKindOfStream(o, dests))
      && (IsIncremental(r) <==> newer && !SomeChainBroken(dests) && OneKindOfStream(o, dests))
      && (IsIncremental(r) ==>
          Some(r.value.base) == incr && HeadsAgree(dests) && dests[0] != [] && r.value.source == dests[0][0].base)
  {
    hide IsCandidate, NewestMatching, PartialSet, LastBackupsOnPool, FromTheFuture, SomeChainBroken, FirstBrokenChain;
    hide ComparablesAgree, AllAtOneSnapshot, HeadsAgree, Comparable;
    CandidateIs(snaps, o.prefix, o.incrementalSuffix);
    CandidateUnique(snaps, o.prefix, o.incrementalSuffix, incr, NewestMatching(snaps, o.prefix, o.incrementalSuffix));
    FutureIff(snaps, dests);
    BrokenIff(dests);
    OneSnapshotIff(o, dests);
  }

  lemma OneSnapshotIff(o: Options, dests: seq<seq<Backup>>)
    requires o.incremental && ValidOptions(o) && dests != []
    ensures ComparablesAgree(o, dests) <==> AllAtOneSnapshot(dests)
    ensures Comparable(o, dests[0]) == if dests[0] == [] then None else Some(dests[0][0].base)
    ensures AllAtOneSnapshot(dests) ==> (HeadsAgree(dests) <==> dests[0] != [])
    ensures HeadsAgree(dests) ==> AllAtOneSnapshot(dests)
    ensures (forall d: seq<Backup> :: d in dests ==> d == []) <==> AllAtOneSnapshot(dests) && dests[0] == []
  {
    assert dests[0] in dests;
    if ComparablesAgree(o, dests) {
      forall d: seq<Backup> | d in dests
        ensures EqualOptions(LastBackup(dests[0]), LastBackup(d))
      {
        var i :| 0 <= i < |dests| && dests[i] == d;
        ComparablesEqualFirst(o, dests, i);
      }
    }
    if AllAtOneSnapshot(dests) {
      forall i | 1 <= i < |dests|
        ensures EqualOptions(Comparable(o, dests[i - 1]), Comparable(o, dests[i]))
      {
        assert dests[i - 1] in dests && dests[i] in dests;
      }
    }
  }

  // ---- The clock ----

  const Day := 86_400

  // What is dated more than a day after now changes nothing, wherever it is listed.
  lemma FutureSnapshotIgnored(
    now: int, o: Options, a: seq<SnapshotInfo>, s: SnapshotInfo, b: seq<SnapshotInfo>, dests: seq<seq<Backup>>,
    completable: bool)
    requires dests != [] && s.time > now + Day
    ensures PlanSmartAt(now, o, a + [s] + b, dests, completable) == PlanSmartAt(now, o, a + b, dests, completable)
  {
    hide PlanSmart;
    SnapshotsWithout(a, s, b, now + FutureSlack);
  }

  lemma SnapshotsWithout(a: seq<SnapshotInfo>, s: SnapshotInfo, b: seq<SnapshotInfo>, limit: int)
    requires s.time > limit
    ensures KeptSnapshots(a + [s] + b, limit) == KeptSnapshots(a + b, limit)
  {
    hide KeptSnapshots;
    KeptSnapshotsAppend(a + [s], b, limit);
    KeptSnapshotsAppend(a, [s], limit);
    KeptSnapshotsAppend(a, b, limit);
    SnapshotTooNew(s, limit);
  }

  lemma SnapshotTooNew(s: SnapshotInfo, limit: int)
    requires s.time > limit
    ensures KeptSnapshots([s], limit) == []
  {
    assert [s][1..] == [];
  }

  lemma {:induction false} KeptSnapshotsAppend(a: seq<SnapshotInfo>, b: seq<SnapshotInfo>, limit: int)
    ensures KeptSnapshots(a + b, limit) == KeptSnapshots(a, limit) + KeptSnapshots(b, limit)
  {
    if a == [] {
      assert a + b == b;
    } else {
      assert (a + b)[0] == a[0] && (a + b)[1..] == a[1..] + b;
      KeptSnapshotsAppend(a[1..], b, limit);
    }
  }

  lemma FutureBackupIgnored(
    now: int, o: Options, snaps: seq<SnapshotInfo>, dests: seq<seq<Backup>>, k: nat, a: seq<Backup>, m: Backup,
    b: seq<Backup>, completable: bool)
    requires k < |dests| && dests[k] == a + [m] + b && m.base.time > now + Day
    ensures PlanSmartAt(now, o, snaps, dests, completable) == PlanSmartAt(now, o, snaps, dests[k := a + b], completable)
  {
    hide PlanSmart, KeptBackups;
    var limit, fewer := now + FutureSlack, dests[k := a + b];
    BackupsWithout(a, m, b, limit);
    assert KeptDestinations(dests, limit) == KeptDestinations(fewer, limit);
  }

  lemma BackupsWithout(a: seq<Backup>, m: Backup, b: seq<Backup>, limit: int)
    requires m.base.time > limit
    ensures KeptBackups(a + [m] + b, limit) == KeptBackups(a + b, limit)
  {
    hide KeptBackups;
    KeptAppend(a + [m], b, limit);
    KeptAppend(a, [m], limit);
    KeptAppend(a, b, limit);
    BackupTooNew(m, limit);
  }

  lemma BackupTooNew(m: Backup, limit: int)
    requires m.base.time > limit
    ensures KeptBackups([m], limit) == []
  {
    assert [m][1..] == [];
  }

  // And nothing else is ignored.
  lemma PresentCounts(now: int, o: Options, snaps: seq<SnapshotInfo>, dests: seq<seq<Backup>>, completable: bool)
    requires dests != [] && forall s :: s in snaps ==> s.time <= now + Day
    requires forall d: seq<Backup>, b: Backup :: d in dests && b in d ==> b.base.time <= now + Day
    ensures PlanSmartAt(now, o, snaps, dests, completable) == PlanSmart(o, snaps, dests, completable)
  {
    hide PlanSmart, KeptBackups;
    var limit := now + FutureSlack;
    AllSnapshotsKept(snaps, limit);
    forall i | 0 <= i < |dests|
      ensures KeptBackups(dests[i], limit) == dests[i]
    {
      KeepsAll(dests[i], limit);
    }
    assert KeptDestinations(dests, limit) == dests;
  }

  lemma {:induction false} AllSnapshotsKept(snaps: seq<SnapshotInfo>, limit: int)
    requires forall s :: s in snaps ==> s.time <= limit
    ensures KeptSnapshots(snaps, limit) == snaps
  {
    if snaps != [] {
      assert snaps == [snaps[0]] + snaps[1..];
      AllSnapshotsKept(snaps[1..], limit);
    }
  }
}
