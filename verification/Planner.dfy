// The smart backup planner: what one run sends, as a function of the pool's snapshots and of the
// backups at each destination.
module Planner {
  import opened Common

  // A snapshot or bookmark. Times are whole seconds.
  datatype SnapshotInfo = SnapshotInfo(name: string, time: int, bookmark: bool)

  // A backup set at a destination: a full when its source has no name.
  datatype Backup = Backup(base: SnapshotInfo, source: SnapshotInfo, raw: bool)

  const NoSnapshot := SnapshotInfo("", 0, false)

  // SnapshotInfo.Equal: by name and creation time.
  predicate Equal(a: SnapshotInfo, b: SnapshotInfo) {
    a.name == b.name && a.time == b.time
  }

  // snapshotID: what Equal compares.
  function Id(s: SnapshotInfo): (id: (string, int))
    ensures forall t: SnapshotInfo :: Equal(s, t) <==> id == (t.name, t.time)
  {
    (s.name, s.time)
  }

  predicate DistinctNames(snaps: seq<SnapshotInfo>) {
    forall i, j :: 0 <= i < j < |snaps| ==> snaps[i].name != snaps[j].name
  }

  predicate SnapsNewestFirst(snaps: seq<SnapshotInfo>) {
    forall i, j :: 0 <= i < j < |snaps| ==> snaps[i].time >= snaps[j].time
  }

  // Snapshot names tell their time.
  predicate Dated(snaps: seq<SnapshotInfo>, timeOf: string -> int) {
    forall s :: s in snaps ==> s.time == timeOf(s.name)
  }

  predicate EqualOptions(a: Option<SnapshotInfo>, b: Option<SnapshotInfo>) {
    match (a, b)
    case (None, None) => true
    case (Some(x), Some(y)) => Equal(x, y)
    case _ => false
  }

  predicate IsFull(b: Backup) {
    b.source.name == ""
  }

  // -1 minute: --fullIfOlderThan is not set.
  const NotSet := -60
  const FutureSlack := 24 * 3600
  const FullWindowSlack := 10 * 60

  datatype Options = Options(
    full: bool, incremental: bool, fullIfOlderThan: int,
    prefix: string, fullSuffix: string, incrementalSuffix: string,
    resume: bool, raw: bool, replication: bool, intermediary: bool)

  // What the command line accepts: exactly one smart option.
  predicate ValidOptions(o: Options) {
    || (o.full && !o.incremental && o.fullIfOlderThan == NotSet)
    || (!o.full && o.incremental && o.fullIfOlderThan == NotSet)
    || (!o.full && !o.incremental && o.fullIfOlderThan != NotSet)
  }

  // --fullIfOlderThan.
  predicate AgeOptions(o: Options) {
    !o.full && !o.incremental && o.fullIfOlderThan != NotSet
  }

  datatype Action = Full | Incremental | Noop

  datatype Reason =
    | NoPreviousFull | WindowElapsed | SourcePruned | NewerCandidate | NothingNewer
    | ExplicitFull | ExplicitIncremental | AlreadyBackedUp | CompletePartial | BrokenChain

  datatype Plan = Plan(action: Action, base: SnapshotInfo, source: SnapshotInfo, reason: Reason, fullDue: bool)

  datatype PlanError =
    | NoSnapshots | NoFullCandidate | NoIncrementalCandidate | OutOfSync | LastBackupInFuture
    | NothingToIncrement | ChainIsBroken | MixedChain | NoSmartOption | LastBackupsDiffer

  function Nothing(reason: Reason, source: SnapshotInfo, fullDue: bool): (p: Plan) {
    Plan(Noop, NoSnapshot, source, reason, fullDue)
  }

  // ---- Candidates ----

  predicate HasPrefix(s: string, prefix: string) {
    prefix <= s
  }

  predicate HasSuffix(s: string, suffix: string) {
    |suffix| <= |s| && s[|s| - |suffix|..] == suffix
  }

  predicate SnapshotMatches(s: SnapshotInfo, prefix: string, suffix: string) {
    !s.bookmark && HasPrefix(s.name, prefix) && HasSuffix(s.name, suffix)
  }

  // The first match of a newest-first list.
  function NewestMatching(snaps: seq<SnapshotInfo>, prefix: string, suffix: string): (r: Option<SnapshotInfo>)
    ensures r.Some? ==> r.value in snaps && SnapshotMatches(r.value, prefix, suffix)
  {
    if snaps == [] then None
    else if SnapshotMatches(snaps[0], prefix, suffix) then Some(snaps[0])
    else NewestMatching(snaps[1..], prefix, suffix)
  }

  // How a snapshot is on the pool: as itself, only as a bookmark, or not at all.
  datatype Presence = Absent | OnlyBookmark | Present

  function PresenceOf(s: SnapshotInfo, snaps: seq<SnapshotInfo>): (r: Presence)
    ensures r.Present? <==> exists x :: x in snaps && Equal(x, s) && !x.bookmark
    ensures r.Absent? <==> forall x :: x in snaps ==> !Equal(x, s)
  {
    if snaps == [] then Absent
    else
      var rest := PresenceOf(s, snaps[1..]);
      assert snaps == [snaps[0]] + snaps[1..];
      if !Equal(snaps[0], s) then rest
      else if !snaps[0].bookmark then Present
      else if rest.Present? then Present else OnlyBookmark
  }

  // validateSnapShotExistsFromSnaps: whether the snapshot is there, and the snapshot with its
  // bookmark flag as found. A snapshot is preferred to a bookmark whatever the listing order.
  method ValidateSnapshotExists(s: SnapshotInfo, snaps: seq<SnapshotInfo>, includeBookmarks: bool)
    returns (found: bool, updated: SnapshotInfo)
    ensures found <==> PresenceOf(s, snaps).Present? || (includeBookmarks && PresenceOf(s, snaps).OnlyBookmark?)
    ensures updated == if found then s.(bookmark := PresenceOf(s, snaps).OnlyBookmark?) else s
  {
    found := false;
    for i := 0 to |snaps|
      invariant forall k :: 0 <= k < i && Equal(snaps[k], s) ==> snaps[k].bookmark
      invariant found <==> includeBookmarks && exists k :: 0 <= k < i && Equal(snaps[k], s)
    {
      if Equal(snaps[i], s) {
        if !snaps[i].bookmark {
          return true, s.(bookmark := false);
        }
        found := found || includeBookmarks;
      }
    }
    updated := if found then s.(bookmark := true) else s;
  }

  // ---- Chains ----

  function FirstBackupOf(backups: seq<Backup>, s: SnapshotInfo, fullOnly: bool): (r: Option<Backup>)
    ensures r.Some? ==> r.value in backups && Equal(r.value.base, s) && (fullOnly ==> IsFull(r.value))
    ensures r.None? ==> forall b: Backup :: b in backups && (fullOnly ==> IsFull(b)) ==> !Equal(b.base, s)
  {
    if backups == [] then None
    else if Equal(backups[0].base, s) && (fullOnly ==> IsFull(backups[0])) then Some(backups[0])
    else
      assert backups == [backups[0]] + backups[1..];
      FirstBackupOf(backups[1..], s, fullOnly)
  }

  // The backup an incremental from s restores onto: the first full of s, else the first backup.
  function ParentOf(backups: seq<Backup>, s: SnapshotInfo): (r: Option<Backup>)
    ensures r.Some? ==> r.value in backups && Equal(r.value.base, s)
    ensures r.None? ==> forall b: Backup :: b in backups ==> !Equal(b.base, s)
  {
    var full := FirstBackupOf(backups, s, true);
    if full.Some? then full else FirstBackupOf(backups, s, false)
  }

  // Walks from m towards a full. The result is the snapshot whose backup is missing, or none.
  function MissingFrom(backups: seq<Backup>, m: Backup, steps: nat): (r: Option<SnapshotInfo>)
    requires steps <= |backups|
    decreases |backups| - steps
  {
    if IsFull(m) then None
    else
      match ParentOf(backups, m.source)
      case None => Some(m.source)
      case Some(parent) =>
        if steps >= |backups| then Some(m.source) else MissingFrom(backups, parent, steps + 1)
  }

  // The missing link of the newest backup's chain; a loop of links counts as one.
  function BrokenLink(backups: seq<Backup>): (r: Option<SnapshotInfo>) {
    if backups == [] then None else MissingFrom(backups, backups[0], 0)
  }

  function FirstBrokenChain(dests: seq<seq<Backup>>): (r: Option<SnapshotInfo>)
    ensures r.Some? <==> exists b: seq<Backup> :: b in dests && BrokenLink(b).Some?
  {
    if dests == [] then None
    else
      assert dests == [dests[0]] + dests[1..];
      if BrokenLink(dests[0]).Some? then BrokenLink(dests[0]) else FirstBrokenChain(dests[1..])
  }

  // No destination's newest backup was sent with the other --raw setting.
  predicate SameStreamKind(o: Options, dests: seq<seq<Backup>>) {
    forall b: seq<Backup> :: b in dests && b != [] ==> b[0].raw == o.raw
  }

  // ---- Sets at some destinations only ----

  predicate SameSets(a: seq<Backup>, b: seq<Backup>) {
    |a| == |b| && forall i :: 0 <= i < |a| ==> Equal(a[i].base, b[i].base) && Equal(a[i].source, b[i].source)
  }

  // The first of the longest lists.
  function Leader(dests: seq<seq<Backup>>): (r: seq<Backup>)
    ensures dests != [] ==> r in dests
    ensures forall b: seq<Backup> :: b in dests ==> |b| <= |r|
  {
    if dests == [] then []
    else
      var init, last := dests[..|dests| - 1], dests[|dests| - 1];
      assert dests == init + [last];
      if init != [] && |last| <= |Leader(init)| then Leader(init) else last
  }

  // The newest set of the leader when every other destination has the leader's sets, or lacks
  // just that one, and some destination lacks it.
  function PartialSet(dests: seq<seq<Backup>>): (r: Option<Backup>) {
    var leader := Leader(dests);
    if leader == [] then None
    else if exists b: seq<Backup> :: b in dests && !SameSets(b, leader) && !SameSets(b, leader[1..]) then None
    else if forall b: seq<Backup> :: b in dests ==> SameSets(b, leader) then None
    else Some(leader[0])
  }

  // ---- The last backups ----

  function LastBackup(backups: seq<Backup>): (r: Option<SnapshotInfo>) {
    if backups == [] then None else Some(backups[0].base)
  }

  function LastFull(backups: seq<Backup>): (r: Option<SnapshotInfo>)
    ensures r.Some? <==> exists b: Backup :: b in backups && IsFull(b)
    ensures r.Some? ==> exists b: Backup :: b in backups && IsFull(b) && b.base == r.value
  {
    if backups == [] then None
    else
      assert backups == [backups[0]] + backups[1..];
      if IsFull(backups[0]) then Some(backups[0].base) else LastFull(backups[1..])
  }

  // What destinations are compared by: the last backup for --increment, the last full for
  // --fullIfOlderThan.
  function Comparable(o: Options, backups: seq<Backup>): (r: Option<SnapshotInfo>) {
    if o.fullIfOlderThan != NotSet && LastFull(backups).Some? then LastFull(backups)
    else if o.incremental then LastBackup(backups) else None
  }

  predicate LastBackupsOnPool(snaps: seq<SnapshotInfo>, dests: seq<seq<Backup>>)
    requires snaps != []
  {
    forall b: seq<Backup> :: b in dests && b != [] && b[0].base.time > snaps[0].time ==>
      !PresenceOf(b[0].base, snaps).Absent?
  }

  predicate ComparablesAgree(o: Options, dests: seq<seq<Backup>>) {
    forall i :: 1 <= i < |dests| ==> EqualOptions(Comparable(o, dests[i - 1]), Comparable(o, dests[i]))
  }

  predicate LastBackupsAgree(dests: seq<seq<Backup>>) {
    forall i :: 1 <= i < |dests| ==> EqualOptions(LastBackup(dests[i - 1]), LastBackup(dests[i]))
  }

  // The last backup of the destination furthest behind.
  function Behind(dests: seq<seq<Backup>>): (r: SnapshotInfo)
    requires dests != [] && forall b: seq<Backup> :: b in dests ==> b != []
    ensures exists b: seq<Backup> :: b in dests && b[0].base == r
    ensures forall b: seq<Backup> :: b in dests ==> r.time <= b[0].base.time
  {
    var init := dests[..|dests| - 1];
    assert dests == init + [dests[|dests| - 1]];
    assert dests[|dests| - 1] in dests && forall b: seq<Backup> :: b in init ==> b in dests;
    var last := dests[|dests| - 1][0].base;
    if init == [] then last
    else
      var behind := Behind(init);
      if last.time < behind.time then last else behind
  }

  // When the comparables agree and one destination has a full, no destination is empty: the scan
  // for the one furthest behind never meets a missing last backup.
  lemma {:induction false} NoneIsEmpty(o: Options, dests: seq<seq<Backup>>, i: nat)
    requires ComparablesAgree(o, dests) && i < |dests|
    requires !o.incremental && Comparable(o, dests[0]).Some?
    ensures Comparable(o, dests[i]).Some? && Equal(Comparable(o, dests[i]).value, Comparable(o, dests[0]).value)
    ensures dests[i] != []
  {
    if i > 0 {
      NoneIsEmpty(o, dests, i - 1);
      assert EqualOptions(Comparable(o, dests[i - 1]), Comparable(o, dests[i]));
    }
  }

  lemma NoDestinationIsEmpty(o: Options, dests: seq<seq<Backup>>)
    requires dests != [] && ComparablesAgree(o, dests)
    requires !o.incremental && Comparable(o, dests[0]).Some?
    ensures forall b: seq<Backup> :: b in dests ==> b != []
  {
    forall b: seq<Backup> | b in dests
      ensures b != []
    {
      var i :| 0 <= i < |dests| && dests[i] == b;
      NoneIsEmpty(o, dests, i);
    }
  }

  predicate FullWindowElapsed(age: int, window: int) {
    age > if window > 3600 then window - FullWindowSlack else window
  }

  predicate NeedsSnapshotSource(o: Options) {
    o.replication || o.intermediary
  }

  predicate HasFullOf(backups: seq<Backup>, s: SnapshotInfo) {
    exists b: Backup :: b in backups && IsFull(b) && Equal(b.base, s)
  }

  // ---- The plan ----

  function PlanFull(o: Options, fullBase: Option<SnapshotInfo>, dests: seq<seq<Backup>>): (r: Result<Plan, PlanError>) {
    if fullBase.None? then Err(NoFullCandidate)
    else
      var have := exists b: seq<Backup> :: b in dests && HasFullOf(b, fullBase.value);
      var missing := exists b: seq<Backup> :: b in dests && !HasFullOf(b, fullBase.value);
      if have && !missing then Ok(Nothing(AlreadyBackedUp, NoSnapshot, false))
      else if have && !o.resume then Err(OutOfSync)
      else Ok(Plan(Full, fullBase.value, NoSnapshot, ExplicitFull, false))
  }

  function PlanPartial(partial: Backup): (r: Plan) {
    if IsFull(partial) then Plan(Full, partial.base, NoSnapshot, CompletePartial, false)
    else Plan(Incremental, partial.base, partial.source, CompletePartial, false)
  }

  function PlanIncremental(
    o: Options, incrBase: Option<SnapshotInfo>, dests: seq<seq<Backup>>): (r: Result<Plan, PlanError>)
    requires dests != []
  {
    var last := Comparable(o, dests[0]);
    if incrBase.None? then Err(NoIncrementalCandidate)
    else if last.None? then Err(NothingToIncrement)
    else if incrBase.value.time <= last.value.time then Ok(Nothing(NothingNewer, NoSnapshot, false))
    else if FirstBrokenChain(dests).Some? then Err(ChainIsBroken)
    else if !SameStreamKind(o, dests) then Err(MixedChain)
    else Ok(Plan(Incremental, incrBase.value, last.value, ExplicitIncremental, false))
  }

  // An incremental from the last backup, or, when that is gone from the pool, a full.
  function PlanFromLast(
    o: Options, snaps: seq<SnapshotInfo>, fullBase: Option<SnapshotInfo>, incrBase: SnapshotInfo, last: SnapshotInfo,
    sameKind: bool, fullDue: bool): (r: Result<Plan, PlanError>)
  {
    if incrBase.time <= last.time then Ok(Nothing(NothingNewer, NoSnapshot, fullDue))
    else
      var presence := PresenceOf(last, snaps);
      var source := if presence.Absent? then last else last.(bookmark := presence.OnlyBookmark?);
      if presence.Absent? || (presence.OnlyBookmark? && NeedsSnapshotSource(o)) then
        if fullBase.None? then Err(NoFullCandidate)
        else if fullBase.value.time <= source.time then Ok(Nothing(SourcePruned, source, fullDue))
        else Ok(Plan(Full, fullBase.value, source, SourcePruned, false))
      else if !sameKind then Err(MixedChain)
      else Ok(Plan(Incremental, incrBase, source, NewerCandidate, fullDue))
  }

  // From what the destinations agree to be the last backup.
  function PlanContinue(
    o: Options, snaps: seq<SnapshotInfo>, fullBase: Option<SnapshotInfo>, incrBase: Option<SnapshotInfo>,
    dests: seq<seq<Backup>>, fullDue: bool): (r: Result<Plan, PlanError>)
    requires dests != [] && forall b: seq<Backup> :: b in dests ==> b != []
  {
    if incrBase.None? then Err(NoIncrementalCandidate)
    else if !LastBackupsAgree(dests) then Err(LastBackupsDiffer)
    else
      assert dests[0] in dests;
      PlanFromLast(o, snaps, fullBase, incrBase.value, dests[0][0].base, SameStreamKind(o, dests), fullDue)
  }

  function PlanByAge(
    o: Options, snaps: seq<SnapshotInfo>, fullBase: Option<SnapshotInfo>, incrBase: Option<SnapshotInfo>,
    dests: seq<seq<Backup>>, lastFull: SnapshotInfo): (r: Result<Plan, PlanError>)
    requires snaps != [] && dests != [] && forall b: seq<Backup> :: b in dests ==> b != []
  {
    var ageExceeded := FullWindowElapsed(snaps[0].time - lastFull.time, o.fullIfOlderThan);
    if ageExceeded && fullBase.None? then Err(NoFullCandidate)
    else
      var newer := fullBase.Some? && fullBase.value.time > Behind(dests).time;
      var missing := FirstBrokenChain(dests);
      if ageExceeded && newer then Ok(Plan(Full, fullBase.value, NoSnapshot, WindowElapsed, false))
      else if missing.Some? && !newer then Ok(Nothing(BrokenChain, missing.value, ageExceeded))
      else if missing.Some? then Ok(Plan(Full, fullBase.value, missing.value, BrokenChain, false))
      else PlanContinue(o, snaps, fullBase, incrBase, dests, ageExceeded)
  }

  // The --fullIfOlderThan plan of destinations whose last fulls agree.
  function PlanFullIfOlder(
    o: Options, snaps: seq<SnapshotInfo>, fullBase: Option<SnapshotInfo>, incrBase: Option<SnapshotInfo>,
    dests: seq<seq<Backup>>): (r: Result<Plan, PlanError>)
    requires snaps != [] && dests != [] && !o.incremental && ComparablesAgree(o, dests)
  {
    if Comparable(o, dests[0]).None? then
      if fullBase.None? then Err(NoFullCandidate)
      else Ok(Plan(Full, fullBase.value, NoSnapshot, NoPreviousFull, false))
    else
      NoDestinationIsEmpty(o, dests);
      PlanByAge(o, snaps, fullBase, incrBase, dests, Comparable(o, dests[0]).value)
  }

  // planSmart. Each destination's backups are newest-first; there is at least one destination.
  function PlanSmart(
    o: Options, snaps: seq<SnapshotInfo>, dests: seq<seq<Backup>>, completable: bool): (r: Result<Plan, PlanError>)
    requires dests != []
  {
    if snaps == [] then Err(NoSnapshots)
    else
      var fullBase := NewestMatching(snaps, o.prefix, o.fullSuffix);
      var incrBase := NewestMatching(snaps, o.prefix, o.incrementalSuffix);
      if o.full then PlanFull(o, fullBase, dests)
      else if completable && PartialSet(dests).Some? then Ok(PlanPartial(PartialSet(dests).value))
      else if !LastBackupsOnPool(snaps, dests) then Err(LastBackupInFuture)
      else if !ComparablesAgree(o, dests) then Err(OutOfSync)
      else if o.incremental then PlanIncremental(o, incrBase, dests)
      else if o.fullIfOlderThan == NotSet then Err(NoSmartOption)
      else PlanFullIfOlder(o, snaps, fullBase, incrBase, dests)
  }

  // ---- Clocks ----

  function KeptSnapshots(snaps: seq<SnapshotInfo>, limit: int): (r: seq<SnapshotInfo>)
    ensures forall s :: s in r <==> s in snaps && s.time <= limit
  {
    if snaps == [] then []
    else
      assert snaps == [snaps[0]] + snaps[1..];
      (if snaps[0].time <= limit then [snaps[0]] else []) + KeptSnapshots(snaps[1..], limit)
  }

  function KeptBackups(backups: seq<Backup>, limit: int): (r: seq<Backup>)
    ensures forall b :: b in r <==> b in backups && b.base.time <= limit
  {
    if backups == [] then []
    else
      assert backups == [backups[0]] + backups[1..];
      (if backups[0].base.time <= limit then [backups[0]] else []) + KeptBackups(backups[1..], limit)
  }

  function KeptDestinations(dests: seq<seq<Backup>>, limit: int): (r: seq<seq<Backup>>)
    ensures |r| == |dests| && forall i :: 0 <= i < |dests| ==> r[i] == KeptBackups(dests[i], limit)
  {
    seq(|dests|, i requires 0 <= i < |dests| => KeptBackups(dests[i], limit))
  }

  // planSmartAt: what is dated more than a day after now is ignored.
  function PlanSmartAt(
    now: int, o: Options, snaps: seq<SnapshotInfo>, dests: seq<seq<Backup>>, completable: bool)
    : (r: Result<Plan, PlanError>)
    requires dests != []
  {
    var limit := now + FutureSlack;
    PlanSmart(o, KeptSnapshots(snaps, limit), KeptDestinations(dests, limit), completable)
  }

  // manifestFor, with the stream kind the run was sent with.
  function BackupFor(p: Plan, raw: bool): (b: Backup) {
    Backup(p.base, if p.action.Incremental? then p.source else NoSnapshot, raw)
  }
}
