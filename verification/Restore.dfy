// receive --auto: which backups a restore to a snapshot takes, given what the target holds.
module Restore {
  import opened Common
  import opened Planner
  import opened Links

  datatype RestoreError = NotFound | OtherGuid | FormsLoop | NoParent | MixesKinds

  predicate Holds(local: seq<SnapshotInfo>, s: SnapshotInfo) {
    PresenceOf(s, local).Present?
  }

  // Linked manifests: a parent is a backup of its child's source, and only incrementals have one.
  predicate WellLinked(nodes: set<Node>)
    reads nodes
  {
    forall n :: n in nodes && n.parent != null ==>
      n.parent in nodes && !IsFull(n.backup) && Equal(n.backup.source, n.parent.backup.base)
  }

  // ---- The walk ----

  // What the walk ends at after n: a full, a source that is there, or a parent whose snapshot is there.
  predicate Ends(n: Node, local: seq<SnapshotInfo>, sources: seq<SnapshotInfo>, guids: SnapshotInfo -> bool)
    reads n
  {
    || IsFull(n.backup)
    || Holds(sources, n.backup.source)
    || (
      && n.parent != null && n.backup.raw == n.parent.backup.raw
      && Holds(local, n.parent.backup.base) && guids(n.parent.backup.base))
  }

  // The walk goes on from n to its parent.
  predicate GoesOn(n: Node, local: seq<SnapshotInfo>, sources: seq<SnapshotInfo>)
    reads n
  {
    && !IsFull(n.backup) && !Holds(sources, n.backup.source)
    && n.parent != null && n.backup.raw == n.parent.backup.raw && !Holds(local, n.parent.backup.base)
  }

  // jobs, newest first, is what restoring `job` takes.
  predicate IsPlanFor(
    job: Node, jobs: seq<Node>, nodes: set<Node>, local: seq<SnapshotInfo>, sources: seq<SnapshotInfo>,
    guids: SnapshotInfo -> bool)
    reads nodes
  {
    && (forall n :: n in jobs ==> n in nodes && !Holds(local, n.backup.base))
    && (if Holds(local, job.backup.base) then jobs == [] && guids(job.backup.base)
        else
          && jobs != [] && jobs[0] == job
          && (forall i :: 0 <= i < |jobs| - 1 ==> GoesOn(jobs[i], local, sources) && jobs[i].parent == jobs[i + 1])
          && Ends(jobs[|jobs| - 1], local, sources, guids))
  }

  // Where the walk stands: `jobs` leads from `job` to `at`.
  predicate Reached(
    job: Node, jobs: seq<Node>, at: Node, nodes: set<Node>, local: seq<SnapshotInfo>, sources: seq<SnapshotInfo>)
    reads nodes
  {
    && at in nodes
    && (forall n :: n in jobs ==> n in nodes && !Holds(local, n.backup.base))
    && (if jobs == [] then at == job else jobs[0] == job && Follows(jobs[|jobs| - 1], at, sources))
    && (forall i :: 0 <= i < |jobs| - 1 ==> GoesOn(jobs[i], local, sources) && jobs[i].parent == jobs[i + 1])
  }

  predicate Follows(n: Node, at: Node, sources: seq<SnapshotInfo>)
    reads n
  {
    !IsFull(n.backup) && !Holds(sources, n.backup.source) && n.parent == at && n.backup.raw == at.backup.raw
  }

  // Every plan for the job goes through what the walk has reached.
  lemma {:induction false} PlanExtends(
    job: Node, jobs: seq<Node>, at: Node, plan: seq<Node>, nodes: set<Node>, local: seq<SnapshotInfo>,
    sources: seq<SnapshotInfo>,
    guids: SnapshotInfo -> bool, i: nat)
    requires Reached(job, jobs, at, nodes, local, sources) && IsPlanFor(job, plan, nodes, local, sources, guids)
    requires !Holds(local, job.backup.base) && !Holds(local, at.backup.base) && i <= |jobs|
    ensures i < |plan| && plan[i] == (jobs + [at])[i]
  {
    hide PresenceOf;
    if i > 0 {
      PlanExtends(job, jobs, at, plan, nodes, local, sources, guids, i - 1);
      var n := plan[i - 1];
      assert n == jobs[i - 1];
      assert Ends(plan[|plan| - 1], local, sources, guids);
    }
  }

  // A plan repeats nothing: each backup determines the next, and only the last ends it.
  lemma {:induction false} PlanRepeatsNothing(
    job: Node, plan: seq<Node>, nodes: set<Node>, local: seq<SnapshotInfo>, sources: seq<SnapshotInfo>,
    guids: SnapshotInfo -> bool,
    i: nat, j: nat)
    requires IsPlanFor(job, plan, nodes, local, sources, guids) && i < j < |plan|
    ensures plan[i] != plan[j]
    decreases |plan| - j
  {
    if j + 1 < |plan| {
      PlanRepeatsNothing(job, plan, nodes, local, sources, guids, i + 1, j + 1);
      assert plan[i].parent == plan[i + 1] && plan[j].parent == plan[j + 1];
    } else {
      assert GoesOn(plan[i], local, sources) && Ends(plan[j], local, sources, guids);
    }
  }

  lemma NoPlan(
    job: Node, jobs: seq<Node>, at: Node, nodes: set<Node>, local: seq<SnapshotInfo>, sources: seq<SnapshotInfo>,
    guids: SnapshotInfo -> bool)
    requires Reached(job, jobs, at, nodes, local, sources) && !Holds(local, job.backup.base)
    requires !Holds(local, at.backup.base)
    requires at in jobs || (!GoesOn(at, local, sources) && !Ends(at, local, sources, guids))
    ensures forall plan: seq<Node> :: !IsPlanFor(job, plan, nodes, local, sources, guids)
  {
    forall plan: seq<Node>
      ensures !IsPlanFor(job, plan, nodes, local, sources, guids)
    {
      if IsPlanFor(job, plan, nodes, local, sources, guids) {
        PlanExtends(job, jobs, at, plan, nodes, local, sources, guids, |jobs|);
        if at in jobs {
          var i :| 0 <= i < |jobs| && jobs[i] == at;
          PlanExtends(job, jobs, at, plan, nodes, local, sources, guids, i);
          PlanRepeatsNothing(job, plan, nodes, local, sources, guids, i, |jobs|);
        }
        assert false;
      }
    }
  }

  // The walk has reached a snapshot that is there.
  lemma ReachedLocal(
    job: Node, jobs: seq<Node>, at: Node, nodes: set<Node>, local: seq<SnapshotInfo>, sources: seq<SnapshotInfo>,
    guids: SnapshotInfo -> bool)
    requires Reached(job, jobs, at, nodes, local, sources) && Holds(local, at.backup.base)
    ensures if guids(at.backup.base) then IsPlanFor(job, jobs, nodes, local, sources, guids)
      else forall plan: seq<Node> :: !IsPlanFor(job, plan, nodes, local, sources, guids)
  {
    if jobs != [] {
      var n := |jobs| - 1;
      assert jobs[0] in jobs && jobs[n] in jobs;
      if !guids(at.backup.base) {
        var before, last := jobs[..n], jobs[n];
        if n > 0 {
          assert GoesOn(jobs[n - 1], local, sources);
        }
        NoPlan(job, before, last, nodes, local, sources, guids);
      }
    }
  }

  lemma ReachedEnd(
    job: Node, jobs: seq<Node>, at: Node, nodes: set<Node>, local: seq<SnapshotInfo>, sources: seq<SnapshotInfo>,
    guids: SnapshotInfo -> bool)
    requires Reached(job, jobs, at, nodes, local, sources) && !Holds(local, at.backup.base)
    requires Ends(at, local, sources, guids)
    ensures IsPlanFor(job, jobs + [at], nodes, local, sources, guids)
  {
    var all := jobs + [at];
    assert jobs != [] ==> jobs[0] in jobs;
    forall i | 0 <= i < |all| - 1
      ensures GoesOn(all[i], local, sources) && all[i].parent == all[i + 1]
    {
      assert all[i] == jobs[i];
    }
  }

  lemma ReachedNext(
    job: Node, jobs: seq<Node>, at: Node, next: Node, nodes: set<Node>, local: seq<SnapshotInfo>,
    sources: seq<SnapshotInfo>)
    requires Reached(job, jobs, at, nodes, local, sources) && !Holds(local, at.backup.base)
    requires Follows(at, next, sources) && next in nodes
    ensures Reached(job, jobs + [at], next, nodes, local, sources)
  {
    var all := jobs + [at];
    forall i | 0 <= i < |all| - 1
      ensures GoesOn(all[i], local, sources) && all[i].parent == all[i + 1]
    {
      assert all[i] == jobs[i];
    }
  }

  // The walk goes over an incremental, whose source is not there, of a snapshot that is not, to its
  // parent of the same kind.
  predicate GoesOver(n: Node, next: Node, local: seq<SnapshotInfo>, sources: seq<SnapshotInfo>)
    reads n, next
  {
    && n.parent == next && next.backup.raw == n.backup.raw
    && n.backup.source.name != "" && !HasSnapshot(sources, n.backup.source) && !HasSnapshot(local, n.backup.base)
  }

  // The walk came so over jobs to a backup.
  predicate CameTo(
    job: Node, older jobs: seq<Node>, older at: Node, nodes: set<Node>, local: seq<SnapshotInfo>,
    sources: seq<SnapshotInfo>)
    reads nodes
  {
    && at in nodes && (forall i :: 0 <= i < |jobs| ==> jobs[i] in nodes)
    && (if jobs == [] then at == job else jobs[0] == job)
    && forall i :: 0 <= i < |jobs| ==>
      GoesOver(jobs[i], if i + 1 < |jobs| then jobs[i + 1] else at, local, sources)
  }

  // Why it fails there: the snapshot is there under another guid, it came here before, or an
  // incremental from a snapshot that is not there has no backup of it, or one of the other kind.
  predicate FailsAt(
    at: Node, jobs: seq<Node>, local: seq<SnapshotInfo>, sources: seq<SnapshotInfo>, guids: SnapshotInfo -> bool,
    e: RestoreError)
    reads at, at.parent
  {
    var b := at.backup;
    var needs := !HasSnapshot(local, b.base) && at !in jobs && b.source.name != "" && !HasSnapshot(sources, b.source);
    match e
    case NotFound => false
    case OtherGuid => HasSnapshot(local, b.base) && !guids(b.base)
    case FormsLoop => !HasSnapshot(local, b.base) && at in jobs
    case NoParent => needs && at.parent == null
    case MixesKinds => needs && at.parent != null && at.parent.backup.raw != b.raw
  }

  ghost predicate WalkFails(
    job: Node, nodes: set<Node>, local: seq<SnapshotInfo>, sources: seq<SnapshotInfo>, guids: SnapshotInfo -> bool,
    e: RestoreError)
    requires WellLinked(nodes)
    reads nodes
  {
    exists jobs: seq<Node>, at: Node ::
      CameTo(job, jobs, at, nodes, local, sources) && FailsAt(at, jobs, local, sources, guids, e)
  }

  lemma Fails(
    job: Node, jobs: seq<Node>, at: Node, nodes: set<Node>, local: seq<SnapshotInfo>, sources: seq<SnapshotInfo>,
    guids: SnapshotInfo -> bool, e: RestoreError)
    requires WellLinked(nodes) && Reached(job, jobs, at, nodes, local, sources)
    requires FailsAt(at, jobs, local, sources, guids, e)
    ensures WalkFails(job, nodes, local, sources, guids, e)
  {
    hide FailsAt, GoesOver, Reached;
    ReachedOver(job, jobs, at, nodes, local, sources);
    assert CameTo(job, jobs, at, nodes, local, sources);
  }

  lemma ReachedOver(
    job: Node, jobs: seq<Node>, at: Node, nodes: set<Node>, local: seq<SnapshotInfo>, sources: seq<SnapshotInfo>)
    requires WellLinked(nodes) && Reached(job, jobs, at, nodes, local, sources)
    ensures at in nodes && (if jobs == [] then at == job else jobs[0] == job)
    ensures forall i :: 0 <= i < |jobs| ==> jobs[i] in nodes
    ensures forall i :: 0 <= i < |jobs| ==>
      GoesOver(jobs[i], if i + 1 < |jobs| then jobs[i + 1] else at, local, sources)
  {
    hide Holds, HasSnapshot;
    forall i | 0 <= i < |jobs|
      ensures jobs[i] in nodes && GoesOver(jobs[i], if i + 1 < |jobs| then jobs[i + 1] else at, local, sources)
    {
      assert jobs[i] in jobs;
      HoldsIff(sources, jobs[i].backup.source);
      HoldsIff(local, jobs[i].backup.base);
      if i + 1 < |jobs| {
        assert GoesOn(jobs[i], local, sources) && jobs[i].parent == jobs[i + 1];
      }
    }
  }

  // The chain walk of AutoRestore. It ends on every linking, looping ones too; it succeeds exactly
  // when there is a plan, and then returns it.
  method WalkChain(
    job: Node, nodes: set<Node>, local: seq<SnapshotInfo>, sources: seq<SnapshotInfo>, guids: SnapshotInfo -> bool)
    returns (r: Result<seq<Node>, RestoreError>)
    requires job in nodes && WellLinked(nodes)
    ensures r.Ok? ==> IsPlanFor(job, r.value, nodes, local, sources, guids)
    ensures r.Err? ==> forall plan: seq<Node> :: !IsPlanFor(job, plan, nodes, local, sources, guids)
    ensures r.Err? ==> WalkFails(job, nodes, local, sources, guids, r.error)
  {
    hide Reached, IsPlanFor, PresenceOf, WalkFails, HasSnapshot;
    var at: Node, jobs: seq<Node> := job, [];
    var inChain: set<Node> := {};
    ReachedStart(job, nodes, local, sources);
    while true
      invariant at in nodes && Reached(job, jobs, at, nodes, local, sources)
      invariant inChain <= nodes && forall n :: n in inChain <==> n in jobs
      invariant !Holds(local, job.backup.base) || at == job
      decreases nodes - inChain
    {
      var there, _ := ValidateSnapshotExists(at.backup.base, local, false);
      HoldsIff(local, at.backup.base);
      if there {
        ReachedLocal(job, jobs, at, nodes, local, sources, guids);
        if !guids(at.backup.base) {
          Fails(job, jobs, at, nodes, local, sources, guids, OtherGuid);
        }
        return if guids(at.backup.base) then Ok(jobs) else Err(OtherGuid);
      }
      if at in inChain {
        NoPlan(job, jobs, at, nodes, local, sources, guids);
        Fails(job, jobs, at, nodes, local, sources, guids, FormsLoop);
        return Err(FormsLoop);
      }
      inChain := inChain + {at};
      var sourceThere, _ := ValidateSnapshotExists(at.backup.source, sources, false);
      HoldsIff(sources, at.backup.source);
      if IsFull(at.backup) || sourceThere {
        ReachedEnd(job, jobs, at, nodes, local, sources, guids);
        return Ok(jobs + [at]);
      }
      if at.parent == null {
        NoPlan(job, jobs, at, nodes, local, sources, guids);
        Fails(job, jobs, at, nodes, local, sources, guids, NoParent);
        return Err(NoParent);
      }
      if at.backup.raw != at.parent.backup.raw {
        NoPlan(job, jobs, at, nodes, local, sources, guids);
        Fails(job, jobs, at, nodes, local, sources, guids, MixesKinds);
        return Err(MixesKinds);
      }
      ReachedNext(job, jobs, at, at.parent, nodes, local, sources);
      jobs := jobs + [at];
      at := at.parent;
    }
  }

  lemma ReachedStart(job: Node, nodes: set<Node>, local: seq<SnapshotInfo>, sources: seq<SnapshotInfo>)
    requires job in nodes
    ensures Reached(job, [], job, nodes, local, sources)
  {
  }

  // ---- What a plan means ----

  // Each link's base is the next link's source, kinds agree, no base is there already, and the
  // oldest link is a full or starts at a snapshot that is there.
  lemma PlanProperties(
    job: Node, jobs: seq<Node>, nodes: set<Node>, local: seq<SnapshotInfo>, sources: seq<SnapshotInfo>,
    guids: SnapshotInfo -> bool)
    requires WellLinked(nodes) && IsPlanFor(job, jobs, nodes, local, sources, guids) && jobs != []
    ensures jobs[0] == job
    ensures forall i :: 0 <= i < |jobs| ==> !Holds(local, jobs[i].backup.base)
    ensures forall i :: 0 <= i < |jobs| - 1 ==>
      && Equal(jobs[i].backup.source, jobs[i + 1].backup.base) && !IsFull(jobs[i].backup)
      && jobs[i].backup.raw == jobs[i + 1].backup.raw
    ensures var oldest := jobs[|jobs| - 1].backup;
      IsFull(oldest) || Holds(sources, oldest.source) || Holds(local, oldest.source)
  {
    var n := jobs[|jobs| - 1];
    forall i | 0 <= i < |jobs|
      ensures !Holds(local, jobs[i].backup.base) && jobs[i] in nodes
    {
      assert jobs[i] in jobs;
    }
    forall i | 0 <= i < |jobs| - 1
      ensures Equal(jobs[i].backup.source, jobs[i + 1].backup.base) && jobs[i].backup.raw == jobs[i + 1].backup.raw
      ensures !IsFull(jobs[i].backup)
    {
      assert GoesOn(jobs[i], local, sources) && jobs[i].parent == jobs[i + 1];
    }
    if !IsFull(n.backup) && !Holds(sources, n.backup.source) {
      assert n.parent in nodes && Equal(n.backup.source, n.parent.backup.base);
    }
  }

  // ---- The backup that applies ----

  // n is of a snapshot that is there, or starts at one.
  predicate Touches(n: Node, local: seq<SnapshotInfo>) {
    Holds(local, n.backup.base) || (!IsFull(n.backup) && Holds(local, n.backup.source))
  }

  predicate IsPath(b: Node, older path: seq<Node>, nodes: set<Node>)
    reads nodes
  {
    && path != [] && path[0] == b
    && (forall i :: 0 <= i < |path| ==> path[i] in nodes)
    && forall i :: 0 <= i < |path| - 1 ==> !IsFull(path[i].backup) && path[i].parent == path[i + 1]
  }

  // The chain of b's parents reaches what is there.
  ghost predicate Reaches(b: Node, nodes: set<Node>, local: seq<SnapshotInfo>)
    reads nodes
  {
    exists path: seq<Node> :: IsPath(b, path, nodes) && Touches(path[|path| - 1], local)
  }

  // A set of nodes no walk leaves, none of which touches what is there.
  predicate DeadEnd(around: set<Node>, nodes: set<Node>, local: seq<SnapshotInfo>)
    reads nodes
  {
    around <= nodes && forall n :: n in around ==>
      !Touches(n, local) && (IsFull(n.backup) || n.parent == null || n.parent in around)
  }

  lemma {:induction false} StaysInside(
    b: Node, path: seq<Node>, around: set<Node>, nodes: set<Node>, local: seq<SnapshotInfo>, i: nat)
    requires IsPath(b, path, nodes) && DeadEnd(around, nodes, local) && b in around && i < |path|
    ensures path[i] in around
  {
    if i > 0 {
      StaysInside(b, path, around, nodes, local, i - 1);
      assert path[i - 1].parent == path[i];
    }
  }

  lemma DeadEndReachesNothing(b: Node, around: set<Node>, nodes: set<Node>, local: seq<SnapshotInfo>)
    requires DeadEnd(around, nodes, local) && b in around
    ensures !Reaches(b, nodes, local)
  {
    forall path: seq<Node> | IsPath(b, path, nodes)
      ensures !Touches(path[|path| - 1], local)
    {
      StaysInside(b, path, around, nodes, local, |path| - 1);
    }
  }

  lemma PathMore(b: Node, path: seq<Node>, next: Node, nodes: set<Node>)
    requires IsPath(b, path, nodes) && next in nodes && path[|path| - 1].parent == next
    requires !IsFull(path[|path| - 1].backup)
    ensures IsPath(b, path + [next], nodes)
  {
    var all := path + [next];
    forall i | 0 <= i < |all| - 1
      ensures !IsFull(all[i].backup) && all[i].parent == all[i + 1]
    {
      assert all[i] == path[i];
    }
  }

  method ReachesLocal(b: Node, nodes: set<Node>, local: seq<SnapshotInfo>) returns (yes: bool)
    requires b in nodes && WellLinked(nodes)
    ensures yes <==> Reaches(b, nodes, local)
  {
    hide PresenceOf;
    var seen: set<Node> := {};
    var p: Node? := b;
    ghost var path: seq<Node> := [b];
    assert IsPath(b, path, nodes) by {
      PathStart(b, nodes);
    }
    while p != null && p !in seen
      invariant p != null ==> p in nodes && IsPath(b, path, nodes) && path[|path| - 1] == p
      invariant seen <= nodes && (b in seen || p == b)
      invariant forall n :: n in seen ==>
        !Touches(n, local) && !IsFull(n.backup) && (n.parent == null || n.parent in seen || n.parent == p)
      decreases nodes - seen
    {
      seen := seen + {p};
      var baseThere, _ := ValidateSnapshotExists(p.backup.base, local, false);
      if baseThere {
        assert Touches(path[|path| - 1], local);
        return true;
      }
      if IsFull(p.backup) {
        DeadEndReachesNothing(b, seen, nodes, local);
        return false;
      }
      var sourceThere, _ := ValidateSnapshotExists(p.backup.source, local, false);
      if sourceThere {
        assert Touches(path[|path| - 1], local);
        return true;
      }
      if p.parent != null {
        PathMore(b, path, p.parent, nodes);
        path := path + [p.parent];
      }
      p := p.parent;
    }
    DeadEndReachesNothing(b, seen, nodes, local);
    return false;
  }

  lemma PathStart(b: Node, nodes: set<Node>)
    requires b in nodes
    ensures IsPath(b, [b], nodes)
  {
  }

  // The first backup that reaches what is there; else the first full; else the first.
  ghost predicate Applies(backups: seq<Node>, b: Node, nodes: set<Node>, local: seq<SnapshotInfo>)
    reads nodes
  {
    exists i :: 0 <= i < |backups| && backups[i] == b &&
      if exists n :: n in backups && Reaches(n, nodes, local) then
        Reaches(b, nodes, local) && forall k :: 0 <= k < i ==> !Reaches(backups[k], nodes, local)
      else if exists n :: n in backups && IsFull(n.backup) then
        IsFull(b.backup) && forall k :: 0 <= k < i ==> !IsFull(backups[k].backup)
      else i == 0
  }

  method BackupThatApplies(backups: seq<Node>, nodes: set<Node>, local: seq<SnapshotInfo>) returns (b: Node?)
    requires WellLinked(nodes) && forall n :: n in backups ==> n in nodes
    ensures b == null <==> backups == []
    ensures b != null ==> b in backups && Applies(backups, b, nodes, local)
  {
    hide Reaches;
    for i := 0 to |backups|
      invariant forall k :: 0 <= k < i ==> !Reaches(backups[k], nodes, local)
    {
      var yes := ReachesLocal(backups[i], nodes, local);
      if yes {
        return backups[i];
      }
    }
    for i := 0 to |backups|
      invariant forall k :: 0 <= k < i ==> !IsFull(backups[k].backup)
    {
      if IsFull(backups[i].backup) {
        return backups[i];
      }
    }
    if backups == [] {
      return null;
    }
    return backups[0];
  }

  // The target has the snapshot itself.
  predicate HasSnapshot(local: seq<SnapshotInfo>, s: SnapshotInfo) {
    exists x :: x in local && x.name == s.name && x.time == s.time && !x.bookmark
  }

  // From b along parents, before any full is passed, to a backup whose snapshot the target has, or to
  // an incremental whose source it has.
  predicate LeadsTo(b: Node, older path: seq<Node>, nodes: set<Node>, local: seq<SnapshotInfo>)
    reads nodes
  {
    && path != [] && path[0] == b && (forall i :: 0 <= i < |path| ==> path[i] in nodes)
    && (forall i :: 0 <= i < |path| - 1 ==> path[i].backup.source.name != "" && path[i].parent == path[i + 1])
    && var last := path[|path| - 1].backup;
       HasSnapshot(local, last.base) || (last.source.name != "" && HasSnapshot(local, last.source))
  }

  ghost predicate LeadsToLocal(b: Node, nodes: set<Node>, local: seq<SnapshotInfo>)
    reads nodes
  {
    exists path: seq<Node> :: LeadsTo(b, path, nodes, local)
  }

  lemma HoldsIff(local: seq<SnapshotInfo>, s: SnapshotInfo)
    ensures Holds(local, s) <==> HasSnapshot(local, s)
  {
  }

  lemma LeadsIff(b: Node, path: seq<Node>, nodes: set<Node>, local: seq<SnapshotInfo>)
    ensures LeadsTo(b, path, nodes, local) <==> IsPath(b, path, nodes) && Touches(path[|path| - 1], local)
  {
    hide Holds, HasSnapshot;
    if path != [] {
      var last := path[|path| - 1].backup;
      HoldsIff(local, last.base);
      HoldsIff(local, last.source);
    }
  }

  lemma ReachesIff(b: Node, nodes: set<Node>, local: seq<SnapshotInfo>)
    ensures Reaches(b, nodes, local) <==> LeadsToLocal(b, nodes, local)
  {
    hide Touches;
    if Reaches(b, nodes, local) {
      var path: seq<Node> :| IsPath(b, path, nodes) && Touches(path[|path| - 1], local);
      LeadsIff(b, path, nodes, local);
    }
    if LeadsToLocal(b, nodes, local) {
      var path: seq<Node> :| LeadsTo(b, path, nodes, local);
      LeadsIff(b, path, nodes, local);
    }
  }

  // What applies leads to what is there if any backup does, and is the first that does.
  lemma AppliesLeads(backups: seq<Node>, b: Node, nodes: set<Node>, local: seq<SnapshotInfo>)
    requires Applies(backups, b, nodes, local) && exists n :: n in backups && LeadsToLocal(n, nodes, local)
    ensures LeadsToLocal(b, nodes, local)
    ensures exists i :: (
      && 0 <= i < |backups| && backups[i] == b
      && forall k :: 0 <= k < i ==> !LeadsToLocal(backups[k], nodes, local))
  {
    hide Reaches, LeadsToLocal;
    forall n: Node
      ensures Reaches(n, nodes, local) <==> LeadsToLocal(n, nodes, local)
    {
      ReachesIff(n, nodes, local);
    }
  }

  // When none does, it is the first full, and without a full the first.
  lemma AppliesElse(backups: seq<Node>, b: Node, nodes: set<Node>, local: seq<SnapshotInfo>)
    requires Applies(backups, b, nodes, local) && forall n :: n in backups ==> !LeadsToLocal(n, nodes, local)
    ensures (forall n :: n in backups ==> n.backup.source.name != "") ==> b == backups[0]
    ensures (exists n :: n in backups && n.backup.source.name == "") ==> b.backup.source.name == "" && exists i :: (
      && 0 <= i < |backups| && backups[i] == b
      && forall k :: 0 <= k < i ==> backups[k].backup.source.name != "")
  {
    hide Reaches, LeadsToLocal;
    forall n: Node
      ensures Reaches(n, nodes, local) <==> LeadsToLocal(n, nodes, local)
    {
      ReachesIff(n, nodes, local);
    }
  }

  // ---- What is walked ----

  // From the job along parents: none of the snapshots is there, each but the last is an incremental
  // whose source is not there and whose parent has its kind, and the last is a full, starts at a
  // source that is there, or has a parent of its kind whose snapshot is there under the same guid.
  predicate RestoresJob(
    job: Node, jobs: seq<Node>, nodes: set<Node>, local: seq<SnapshotInfo>, sources: seq<SnapshotInfo>,
    guids: SnapshotInfo -> bool)
    reads nodes
  {
    && jobs != [] && jobs[0] == job
    && (forall i :: 0 <= i < |jobs| ==> jobs[i] in nodes && !HasSnapshot(local, jobs[i].backup.base))
    && (forall i :: 0 <= i < |jobs| - 1 ==>
      && jobs[i].parent == jobs[i + 1] && jobs[i].backup.raw == jobs[i + 1].backup.raw
      && jobs[i].backup.source.name != "" && !HasSnapshot(sources, jobs[i].backup.source))
    && var last := jobs[|jobs| - 1];
       || last.backup.source.name == ""
       || HasSnapshot(sources, last.backup.source)
       || (last.parent != null && last.parent in nodes && last.parent.backup.raw == last.backup.raw
           && HasSnapshot(local, last.parent.backup.base) && guids(last.parent.backup.base))
  }

  // A plan is nothing, for a snapshot that is there under the same guid, or such a walk.
  lemma PlanIff(
    job: Node, jobs: seq<Node>, nodes: set<Node>, local: seq<SnapshotInfo>, sources: seq<SnapshotInfo>,
    guids: SnapshotInfo -> bool)
    requires WellLinked(nodes)
    ensures IsPlanFor(job, jobs, nodes, local, sources, guids) <==>
      if HasSnapshot(local, job.backup.base) then jobs == [] && guids(job.backup.base)
      else RestoresJob(job, jobs, nodes, local, sources, guids)
  {
    hide Holds, HasSnapshot;
    forall snaps: seq<SnapshotInfo>, s: SnapshotInfo
      ensures Holds(snaps, s) <==> HasSnapshot(snaps, s)
    {
      HoldsIff(snaps, s);
    }
    if jobs != [] {
      if RestoresJob(job, jobs, nodes, local, sources, guids) && !HasSnapshot(local, job.backup.base) {
        WalkIsPlan(job, jobs, nodes, local, sources, guids);
      }
      if IsPlanFor(job, jobs, nodes, local, sources, guids) {
        PlanIsWalk(job, jobs, nodes, local, sources, guids);
      }
    }
  }

  lemma WalkIsPlan(
    job: Node, jobs: seq<Node>, nodes: set<Node>, local: seq<SnapshotInfo>, sources: seq<SnapshotInfo>,
    guids: SnapshotInfo -> bool)
    requires forall snaps: seq<SnapshotInfo>, s: SnapshotInfo :: Holds(snaps, s) <==> HasSnapshot(snaps, s)
    requires RestoresJob(job, jobs, nodes, local, sources, guids)
    ensures IsPlanFor(job, jobs, nodes, local, sources, guids)
  {
    hide Holds, HasSnapshot;
    forall i | 0 <= i < |jobs| - 1
      ensures GoesOn(jobs[i], local, sources) && jobs[i].parent == jobs[i + 1]
    {
      assert !HasSnapshot(local, jobs[i + 1].backup.base);
    }
  }

  lemma PlanIsWalk(
    job: Node, jobs: seq<Node>, nodes: set<Node>, local: seq<SnapshotInfo>, sources: seq<SnapshotInfo>,
    guids: SnapshotInfo -> bool)
    requires forall snaps: seq<SnapshotInfo>, s: SnapshotInfo :: Holds(snaps, s) <==> HasSnapshot(snaps, s)
    requires WellLinked(nodes) && jobs != [] && IsPlanFor(job, jobs, nodes, local, sources, guids)
    ensures RestoresJob(job, jobs, nodes, local, sources, guids)
  {
    hide Holds, HasSnapshot;
    assert jobs[|jobs| - 1] in jobs;
    forall i | 0 <= i < |jobs|
      ensures jobs[i] in nodes && !HasSnapshot(local, jobs[i].backup.base)
    {
      assert jobs[i] in jobs;
    }
    forall i | 0 <= i < |jobs| - 1
      ensures jobs[i].parent == jobs[i + 1] && jobs[i].backup.raw == jobs[i + 1].backup.raw
      ensures jobs[i].backup.source.name != "" && !HasSnapshot(sources, jobs[i].backup.source)
    {
      assert GoesOn(jobs[i], local, sources);
    }
  }

  // A restore takes the chain from what is there whenever one exists: without --origin, if some
  // backup of the snapshot leads to the target's snapshots, so does the one walked, and the walk
  // ends at one of them.
  lemma PrefersLocalChain(
    backups: seq<Node>, b: Node, jobs: seq<Node>, nodes: set<Node>, local: seq<SnapshotInfo>,
    guids: SnapshotInfo -> bool)
    requires WellLinked(nodes) && Applies(backups, b, nodes, local)
    requires exists n :: n in backups && LeadsToLocal(n, nodes, local)
    requires IsPlanFor(b, jobs, nodes, local, local, guids)
    ensures LeadsToLocal(b, nodes, local)
    ensures jobs != [] ==> var oldest := jobs[|jobs| - 1].backup;
      oldest.source.name != "" && HasSnapshot(local, oldest.source)
  {
    hide Reaches, LeadsToLocal, Applies, HasSnapshot;
    AppliesLeads(backups, b, nodes, local);
    if jobs != [] {
      ReachesIff(b, nodes, local);
      WalksToLocal(b, jobs, nodes, local, guids);
      HoldsIff(local, jobs[|jobs| - 1].backup.source);
    }
  }

  lemma WalksToLocal(
    b: Node, jobs: seq<Node>, nodes: set<Node>, local: seq<SnapshotInfo>, guids: SnapshotInfo -> bool)
    requires WellLinked(nodes) && Reaches(b, nodes, local) && IsPlanFor(b, jobs, nodes, local, local, guids)
    requires jobs != []
    ensures var oldest := jobs[|jobs| - 1].backup; !IsFull(oldest) && Holds(local, oldest.source)
  {
    var path: seq<Node> :| IsPath(b, path, nodes) && Touches(path[|path| - 1], local);
    FollowsPath(b, path, jobs, nodes, local, guids, |jobs| - 1);
    PlanProperties(b, jobs, nodes, local, local, guids);
  }

  // The walk follows a path that touches what is there, and does not pass a full.
  lemma {:induction false} FollowsPath(
    b: Node, path: seq<Node>, jobs: seq<Node>, nodes: set<Node>, local: seq<SnapshotInfo>, guids: SnapshotInfo -> bool,
    i: nat)
    requires IsPath(b, path, nodes) && Touches(path[|path| - 1], local)
    requires IsPlanFor(b, jobs, nodes, local, local, guids) && i < |jobs|
    ensures i < |path| && path[i] == jobs[i]
    ensures !IsFull(jobs[i].backup)
  {
    hide PresenceOf;
    if i > 0 {
      FollowsPath(b, path, jobs, nodes, local, guids, i - 1);
      assert GoesOn(jobs[i - 1], local, local) && jobs[i - 1].parent == jobs[i];
      assert jobs[i - 1] in jobs;
    }
    assert jobs[i] in jobs;
  }
}
