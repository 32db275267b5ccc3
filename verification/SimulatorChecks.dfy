// The checks a simulation is judged by. Each finds nothing exactly when its property holds.
module SimulatorChecks {
  import opened Common
  import opened Planner
  import opened PlannerFacts
  import opened Simulator
  import PlanRules

  datatype Check = ChainLinks | SourcePresent | NoDuplicateSend | NoOrphanFull
  datatype Violation = Violation(check: Check, what: SnapshotInfo)

  // ---- What each check judges ----

  // Every incremental at a destination has a backup of its source there.
  predicate Linked(d: seq<Backup>) {
    forall m: Backup :: m in d && !IsFull(m) ==> ParentOf(d, m.source).Some?
  }

  predicate SourceOnPool(o: Options, st: Step) {
    IsIncremental(st.plan) ==>
      var presence := PresenceOf(st.plan.value.source, st.snaps);
      presence.Present? || (presence.OnlyBookmark? && !NeedsSnapshotSource(o))
  }

  // An incremental's source was there as a snapshot, or, without -R and -I, as a bookmark.
  lemma SourceOnPoolIff(o: Options, st: Step)
    ensures SourceOnPool(o, st) <==> (IsIncremental(st.plan) ==> PlanRules.Available(o, st.plan.value.source, st.snaps))
  {
    if IsIncremental(st.plan) {
      PlanRules.PresenceIs(st.plan.value.source, st.snaps);
    }
  }

  // What a send is judged by: completing a partial set sends nothing.
  predicate Judged(st: Step) {
    Sends(st) && !st.plan.value.reason.CompletePartial?
  }

  predicate HasBase(d: seq<Backup>, s: SnapshotInfo) {
    exists m: Backup :: m in d && Equal(m.base, s)
  }

  // The i-th send, unless an explicit full, is not of a snapshot the destination had or was sent before.
  predicate SentOnce(steps: seq<Step>, initial: seq<Backup>, i: nat)
    requires i < |steps|
  {
    Judged(steps[i]) && !steps[i].plan.value.reason.ExplicitFull? ==>
      var base := steps[i].plan.value.base;
      !HasBase(initial, base) && forall j :: 0 <= j < i && Judged(steps[j]) ==> !Equal(steps[j].plan.value.base, base)
  }

  predicate NothingSentTwice(steps: seq<Step>, initial: seq<Backup>) {
    forall i: nat :: i < |steps| ==> SentOnce(steps, initial, i)
  }

  // i is the last send before j.
  predicate SentBefore(steps: seq<Step>, i: nat, j: nat) {
    i < j <= |steps| && Sends(steps[i]) && forall k :: i < k < j ==> !Sends(steps[k])
  }

  // The incremental sent next after a full continues from it.
  ghost predicate FullsContinued(steps: seq<Step>) {
    forall i: nat, j: nat ::
      j < |steps| && SentBefore(steps, i, j) && IsPlannedFull(steps[i].plan) && IsIncremental(steps[j].plan) ==>
      Equal(steps[j].plan.value.source, steps[i].plan.value.base)
  }

  // ---- The checks ----

  // parentOf: a scan that returns at the first full.
  method FindParent(backups: seq<Backup>, source: SnapshotInfo) returns (parent: Option<Backup>)
    ensures parent == ParentOf(backups, source)
  {
    parent := None;
    for i := 0 to |backups|
      invariant FirstBackupOf(backups, source, true) == FirstBackupOf(backups[i..], source, true)
      invariant FirstBackupOf(backups, source, false) ==
        if parent.Some? then parent else FirstBackupOf(backups[i..], source, false)
    {
      assert backups[i..][0] == backups[i] && backups[i..][1..] == backups[i + 1..];
      if Equal(backups[i].base, source) {
        if IsFull(backups[i]) {
          return Some(backups[i]);
        }
        if parent.None? {
          parent := Some(backups[i]);
        }
      }
    }
  }

  method CheckChainLinks(manifests: Destinations) returns (found: seq<Violation>)
    ensures found == [] <==> forall d: seq<Backup> :: d in manifests ==> Linked(d)
  {
    found := [];
    for d := 0 to |manifests|
      invariant found == [] <==> forall k :: 0 <= k < d ==> Linked(manifests[k])
    {
      var broken := UnlinkedIn(manifests[d]);
      found := found + broken;
    }
  }

  method UnlinkedIn(d: seq<Backup>) returns (found: seq<Violation>)
    ensures found == [] <==> Linked(d)
  {
    found := [];
    for i := |d| downto 0
      invariant found == [] <==> forall k :: i <= k < |d| && !IsFull(d[k]) ==> ParentOf(d, d[k].source).Some?
    {
      if !IsFull(d[i]) {
        var parent := FindParent(d, d[i].source);
        if parent.None? {
          found := found + [Violation(ChainLinks, d[i].source)];
        }
      }
    }
  }

  method CheckSourcePresent(o: Options, steps: seq<Step>) returns (found: seq<Violation>)
    ensures found == [] <==> forall i :: 0 <= i < |steps| ==> SourceOnPool(o, steps[i])
  {
    found := [];
    for i := 0 to |steps|
      invariant found == [] <==> forall k :: 0 <= k < i ==> SourceOnPool(o, steps[k])
    {
      if IsIncremental(steps[i].plan) {
        var ok, _ := ValidateSnapshotExists(steps[i].plan.value.source, steps[i].snaps, !NeedsSnapshotSource(o));
        if !ok {
          found := found + [Violation(SourcePresent, steps[i].plan.value.source)];
        }
      }
    }
  }

  function BaseIds(d: seq<Backup>): (ids: set<(string, int)>) {
    set m: Backup | m in d :: Id(m.base)
  }

  // What is known to be backed up at a destination before step i.
  ghost predicate Known(ids: set<(string, int)>, initial: seq<Backup>, steps: seq<Step>, i: nat)
    requires i <= |steps|
  {
    forall s: SnapshotInfo ::
      Id(s) in ids <==>
        HasBase(initial, s) || exists j :: 0 <= j < i && Judged(steps[j]) && Equal(steps[j].plan.value.base, s)
  }

  lemma KnownFirst(d: seq<Backup>, steps: seq<Step>)
    ensures Known(BaseIds(d), d, steps, 0)
  {
    forall s: SnapshotInfo
      ensures Id(s) in BaseIds(d) <==> HasBase(d, s)
    {
      if HasBase(d, s) {
        var m: Backup :| m in d && Equal(m.base, s);
        assert Id(m.base) == Id(s);
      }
    }
  }

  lemma KnownNext(ids: set<(string, int)>, d: seq<Backup>, steps: seq<Step>, i: nat)
    requires i < |steps| && Known(ids, d, steps, i)
    ensures Known(if Judged(steps[i]) then ids + {Id(steps[i].plan.value.base)} else ids, d, steps, i + 1)
  {
  }

  lemma KnownDecides(ids: set<(string, int)>, d: seq<Backup>, steps: seq<Step>, i: nat)
    requires i < |steps| && Known(ids, d, steps, i)
    ensures SentOnce(steps, d, i) <==>
      (Judged(steps[i]) && !steps[i].plan.value.reason.ExplicitFull? ==> Id(steps[i].plan.value.base) !in ids)
  {
  }

  method CheckNoDuplicateSend(initial: Destinations, steps: seq<Step>) returns (found: seq<Violation>)
    ensures found == [] <==> forall d: seq<Backup> :: d in initial ==> NothingSentTwice(steps, d)
  {
    found := [];
    for d := 0 to |initial|
      invariant found == [] <==> forall k :: 0 <= k < d ==> NothingSentTwice(steps, initial[k])
    {
      var twice := SentTwiceTo(initial[d], steps);
      found := found + twice;
    }
  }

  method SentTwiceTo(initial: seq<Backup>, steps: seq<Step>) returns (found: seq<Violation>)
    ensures found == [] <==> NothingSentTwice(steps, initial)
  {
    found := [];
    var backedUp := BaseIds(initial);
    KnownFirst(initial, steps);
    for i := 0 to |steps|
      invariant Known(backedUp, initial, steps, i)
      invariant found == [] <==> forall k: nat :: k < i ==> SentOnce(steps, initial, k)
    {
      KnownNext(backedUp, initial, steps, i);
      KnownDecides(backedUp, initial, steps, i);
      if Judged(steps[i]) {
        var p := steps[i].plan.value;
        if Id(p.base) in backedUp && !p.reason.ExplicitFull? {
          found := found + [Violation(NoDuplicateSend, p.base)];
        }
        backedUp := backedUp + {Id(p.base)};
      }
    }
  }

  method CheckNoOrphanFull(steps: seq<Step>) returns (found: seq<Violation>)
    ensures found == [] <==> FullsContinued(steps)
  {
    found := [];
    var full: Option<Plan> := None;
    ghost var last: int := -1;
    for i := 0 to |steps|
      invariant -1 <= last < i
      invariant forall k :: last < k < i ==> !Sends(steps[k])
      invariant last >= 0 ==> Sends(steps[last])
      invariant full.Some? <==> last >= 0 && IsPlannedFull(steps[last].plan)
      invariant full.Some? ==> full.value == steps[last].plan.value
      invariant found == [] <==> FullsContinued(steps[..i])
    {
      FullsContinuedNext(steps, i, last);
      if Sends(steps[i]) {
        var p := steps[i].plan.value;
        if p.action.Full? {
          full := Some(p);
        } else {
          if full.Some? && !Equal(p.source, full.value.base) {
            found := found + [Violation(NoOrphanFull, p.source)];
          }
          full := None;
        }
        last := i;
      }
    }
    assert steps[..|steps|] == steps;
  }

  lemma FullsContinuedNext(steps: seq<Step>, i: nat, last: int)
    requires i < |steps| && -1 <= last < i && (forall k :: last < k < i ==> !Sends(steps[k]))
    requires last >= 0 ==> Sends(steps[last])
    ensures FullsContinued(steps[..i + 1]) <==>
      && FullsContinued(steps[..i])
      && (last >= 0 && IsPlannedFull(steps[last].plan) && IsIncremental(steps[i].plan) ==>
        Equal(steps[i].plan.value.source, steps[last].plan.value.base))
  {
    var before, through := steps[..i], steps[..i + 1];
    forall x: nat, y: nat | y < i
      ensures SentBefore(before, x, y) <==> SentBefore(through, x, y)
    {
    }
    forall x: nat
      ensures SentBefore(through, x, i) <==> x == last
    {
      assert last >= 0 ==> through[last] == steps[last];
    }
    if FullsContinued(through) && last >= 0 {
      assert SentBefore(through, last, i);
    }
  }
}
