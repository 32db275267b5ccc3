// What smart runs leave restorable, receive --auto restores: the whole chain, into an empty target.
module RestoreTheorem {
  import opened Common
  import opened Planner
  import opened Chains
  import opened BackupRuns
  import opened Links
  import opened Restore

  // ---- Reading and linking a destination ----

  // The nodes of a listing of one dataset, linked.
  predicate LinkedListing(nodes: seq<Node>, listing: seq<Backup>, volume: string)
    reads nodes
  {
    && Backups(nodes) == SortOldest(listing)
    && (forall n :: n in nodes ==> n.volume == volume)
    && forall n :: n in nodes ==>
      n.parent == if IsFull(n.backup) then null else Indexed(nodes, n.volume, n.backup.source)
  }

  method ReadAndLink(listing: seq<Backup>, volume: string) returns (nodes: seq<Node>)
    ensures fresh(nodes) && LinkedListing(nodes, listing, volume)
  {
    var sorted := SortOldest(listing);
    nodes := [];
    for i := 0 to |sorted|
      invariant fresh(nodes) && |nodes| == i
      invariant forall k :: 0 <= k < i ==>
        nodes[k].backup == sorted[k] && nodes[k].volume == volume && nodes[k].parent == null
    {
      var n := new Node(volume, sorted[i]);
      nodes := nodes + [n];
    }
    LinkManifests(nodes);
  }

  function NodeSet(nodes: seq<Node>): (r: set<Node>)
  {
    set n | n in nodes
  }

  lemma ListingWellLinked(nodes: seq<Node>, listing: seq<Backup>, volume: string)
    requires LinkedListing(nodes, listing, volume)
    ensures WellLinked(NodeSet(nodes))
  {
  }

  // ---- Chains of nodes ----

  // A node's parent is the parent the planner finds for its backup.
  lemma ParentNode(nodes: seq<Node>, listing: seq<Backup>, volume: string, n: Node)
    requires LinkedListing(nodes, listing, volume) && DistinctSets(listing) && n in nodes && !IsFull(n.backup)
    ensures ParentOf(SortNewest(listing), n.backup.source) == if n.parent == null then None else Some(n.parent.backup)
  {
    ReadersAgree(listing, nodes, volume, n.backup.source);
  }

  lemma NextOfChain(nodes: seq<Node>, listing: seq<Backup>, volume: string, n: Node, chain: seq<Backup>)
    requires LinkedListing(nodes, listing, volume) && DistinctSets(listing) && n in nodes
    requires Restores(SortNewest(listing), chain) && |chain| > 1 && chain[0] == n.backup
    ensures !IsFull(n.backup) && n.parent != null && n.parent in nodes && n.parent.backup == chain[1]
    ensures Restores(SortNewest(listing), chain[1..])
  {
    hide LinkedListing, Restores, SortNewest, ParentOf;
    RestoresTail(SortNewest(listing), chain);
    ParentNode(nodes, listing, volume, n);
    ParentListed(nodes, listing, volume, n);
  }

  // A chain of one kind, as nodes, is the plan of its first backup into an empty target.
  lemma {:induction false} ChainIsPlan(
    nodes: seq<Node>, listing: seq<Backup>, volume: string, n: Node, chain: seq<Backup>, guids: SnapshotInfo -> bool)
    returns (jobs: seq<Node>)
    requires LinkedListing(nodes, listing, volume) && DistinctSets(listing) && n in nodes
    requires Restores(SortNewest(listing), chain) && chain[0] == n.backup
    requires forall b: Backup :: b in chain ==> b.raw == n.backup.raw
    ensures IsPlanFor(n, jobs, NodeSet(nodes), [], [], guids) && Backups(jobs) == chain
    decreases |chain|
  {
    hide LinkedListing, DistinctSets, IsPlanFor, SortNewest, ParentOf;
    if |chain| == 1 {
      jobs := [n];
      FullIsPlan(n, NodeSet(nodes), guids);
    } else {
      NextOfChain(nodes, listing, volume, n, chain);
      var rest := ChainIsPlan(nodes, listing, volume, n.parent, chain[1..], guids);
      jobs := [n] + rest;
      PlanPrepend(n, rest, NodeSet(nodes), guids);
      assert Backups(jobs) == [n.backup] + Backups(rest);
    }
  }

  lemma FullIsPlan(n: Node, nodes: set<Node>, guids: SnapshotInfo -> bool)
    requires n in nodes && IsFull(n.backup)
    ensures IsPlanFor(n, [n], nodes, [], [], guids)
  {
  }

  lemma ParentListed(nodes: seq<Node>, listing: seq<Backup>, volume: string, n: Node)
    requires LinkedListing(nodes, listing, volume) && n in nodes && n.parent != null
    ensures n.parent in nodes
  {
  }

  lemma PlanPrepend(n: Node, rest: seq<Node>, nodes: set<Node>, guids: SnapshotInfo -> bool)
    requires n in nodes && !IsFull(n.backup) && n.parent != null && n.parent.backup.raw == n.backup.raw
    requires IsPlanFor(n.parent, rest, nodes, [], [], guids)
    ensures IsPlanFor(n, [n] + rest, nodes, [], [], guids)
  {
    var jobs := [n] + rest;
    forall i | 0 <= i < |jobs| - 1
      ensures GoesOn(jobs[i], [], []) && jobs[i].parent == jobs[i + 1]
    {
      if i > 0 {
        assert jobs[i] == rest[i - 1] && jobs[i + 1] == rest[i];
      }
    }
    assert jobs[|jobs| - 1] == rest[|rest| - 1];
  }

  // There is one plan at most.
  lemma {:induction false} PlansAgree(
    job: Node, a: seq<Node>, b: seq<Node>, nodes: set<Node>, local: seq<SnapshotInfo>, sources: seq<SnapshotInfo>,
    guids: SnapshotInfo -> bool, i: nat)
    requires IsPlanFor(job, a, nodes, local, sources, guids) && IsPlanFor(job, b, nodes, local, sources, guids)
    requires i < |a|
    ensures i < |b| && a[i] == b[i]
  {
    hide PresenceOf;
    if i > 0 {
      PlansAgree(job, a, b, nodes, local, sources, guids, i - 1);
      assert GoesOn(a[i - 1], local, sources) && Ends(b[|b| - 1], local, sources, guids);
    }
  }

  lemma PlanIsUnique(
    job: Node, a: seq<Node>, b: seq<Node>, nodes: set<Node>, local: seq<SnapshotInfo>, sources: seq<SnapshotInfo>,
    guids: SnapshotInfo -> bool)
    requires IsPlanFor(job, a, nodes, local, sources, guids) && IsPlanFor(job, b, nodes, local, sources, guids)
    ensures a == b
  {
    if a != [] {
      PlansAgree(job, a, b, nodes, local, sources, guids, |a| - 1);
    }
    if b != [] {
      PlansAgree(job, b, a, nodes, local, sources, guids, |b| - 1);
    }
    forall i | 0 <= i < |a|
      ensures a[i] == b[i]
    {
      PlansAgree(job, a, b, nodes, local, sources, guids, i);
    }
  }

  // ---- receive --auto ----

  function Named(nodes: seq<Node>, name: string): (r: seq<Node>)
    ensures forall n :: n in r ==> n in nodes && n.backup.base.name == name
    ensures forall n :: n in nodes && n.backup.base.name == name ==> n in r
  {
    if nodes == [] then []
    else
      assert nodes == [nodes[0]] + nodes[1..];
      (if nodes[0].backup.base.name == name then [nodes[0]] else []) + Named(nodes[1..], name)
  }

  // The snapshot wanted: the one named, or, without a name, the last backup's.
  function Wanted(d: seq<Backup>, name: string): (r: string) {
    if name == "" && d != [] then d[|d| - 1].base.name else name
  }

  // AutoRestore up to its first receive: the backups of the snapshot, the one that applies, its chain.
  method AutoRestore(
    nodes: seq<Node>, name: string, local: seq<SnapshotInfo>, sources: seq<SnapshotInfo>, guids: SnapshotInfo -> bool)
    returns (job: Node?, r: Result<seq<Node>, RestoreError>)
    requires WellLinked(NodeSet(nodes))
    ensures job == null <==> forall n :: n in nodes ==> n.backup.base.name != Wanted(Backups(nodes), name)
    ensures job == null ==> r == Err(NotFound)
    ensures job != null ==>
      job in nodes && Applies(Named(nodes, Wanted(Backups(nodes), name)), job, NodeSet(nodes), sources)
    ensures job != null && r.Ok? ==> IsPlanFor(job, r.value, NodeSet(nodes), local, sources, guids)
    ensures job != null && r.Err? ==>
      forall plan: seq<Node> :: !IsPlanFor(job, plan, NodeSet(nodes), local, sources, guids)
  {
    hide Applies;
    if nodes == [] {
      return null, Err(NotFound);
    }
    var matches := Named(nodes, Wanted(Backups(nodes), name));
    job := BackupThatApplies(matches, NodeSet(nodes), sources);
    if job == null {
      return null, Err(NotFound);
    }
    r := WalkChain(job, NodeSet(nodes), local, sources, guids);
  }

  // ---- Into an empty target ----

  function FirstNamed(d: seq<Backup>, name: string, fullOnly: bool): (r: Option<Backup>)
    ensures r.Some? ==> r.value in d && r.value.base.name == name
    ensures r.None? ==> forall b: Backup :: b in d && b.base.name == name ==> fullOnly && !IsFull(b)
  {
    if d == [] then None
    else if d[0].base.name == name && (fullOnly ==> IsFull(d[0])) then Some(d[0])
    else
      assert d == [d[0]] + d[1..];
      FirstNamed(d[1..], name, fullOnly)
  }

  // The backup of a snapshot that an empty target takes: the first full of it, else the first.
  function Chosen(d: seq<Backup>, name: string): (r: Option<Backup>)
    ensures r.None? <==> forall b: Backup :: b in d ==> b.base.name != name
    ensures r.Some? ==> r.value in d && r.value.base.name == name
  {
    var full := FirstNamed(d, name, true);
    if full.Some? then full else FirstNamed(d, name, false)
  }

  lemma {:induction false} FirstNamedIs(nodes: seq<Node>, name: string)
    requires Named(nodes, name) != []
    ensures FirstNamed(Backups(nodes), name, false) == Some(Named(nodes, name)[0].backup)
  {
    hide Named, FirstNamed, Backups;
    NamedCons(nodes, name);
    FirstNamedCons(nodes, name, false);
    if nodes[0].backup.base.name != name {
      FirstNamedIs(nodes[1..], name);
    }
  }

  // The first full of the nodes is at i.
  predicate FirstFullAt(nodes: seq<Node>, i: nat) reads nodes {
    i < |nodes| && IsFull(nodes[i].backup) && forall k :: 0 <= k < i ==> !IsFull(nodes[k].backup)
  }

  lemma FirstFullCons(n: Node, rest: seq<Node>, i: nat)
    requires FirstFullAt([n] + rest, i)
    ensures if IsFull(n.backup) then i == 0 else i > 0 && FirstFullAt(rest, i - 1)
    ensures ([n] + rest)[i] == if i == 0 then n else rest[i - 1]
  {
    var all := [n] + rest;
    assert all[0] == n;
    forall k | 0 <= k < i - 1
      ensures !IsFull(rest[k].backup)
    {
      assert rest[k] == all[k + 1];
    }
  }

  lemma {:induction false} FirstFullNamedIs(nodes: seq<Node>, name: string, i: nat)
    requires FirstFullAt(Named(nodes, name), i)
    ensures FirstNamed(Backups(nodes), name, true) == Some(Named(nodes, name)[i].backup)
  {
    hide Named, FirstNamed, Backups, IsFull;
    NamedCons(nodes, name);
    FirstNamedCons(nodes, name, true);
    var rest := Named(nodes[1..], name);
    if nodes[0].backup.base.name != name {
      FirstFullNamedIs(nodes[1..], name, i);
    } else {
      FirstFullCons(nodes[0], rest, i);
      if !IsFull(nodes[0].backup) {
        FirstFullNamedIs(nodes[1..], name, i - 1);
      }
    }
  }

  lemma NamedCons(nodes: seq<Node>, name: string)
    requires Named(nodes, name) != []
    ensures nodes != []
    ensures Named(nodes, name) ==
      if nodes[0].backup.base.name == name then [nodes[0]] + Named(nodes[1..], name) else Named(nodes[1..], name)
  {
  }

  lemma FirstNamedCons(nodes: seq<Node>, name: string, fullOnly: bool)
    requires nodes != []
    ensures FirstNamed(Backups(nodes), name, fullOnly) ==
      if nodes[0].backup.base.name == name && (fullOnly ==> IsFull(nodes[0].backup)) then Some(nodes[0].backup)
      else FirstNamed(Backups(nodes[1..]), name, fullOnly)
  {
    assert Backups(nodes)[1..] == Backups(nodes[1..]);
  }

  lemma EmptyReachesNothing(b: Node, nodes: set<Node>)
    ensures !Reaches(b, nodes, [])
  {
  }

  lemma {:induction false} NoFullNamed(nodes: seq<Node>, name: string)
    requires forall n :: n in Named(nodes, name) ==> !IsFull(n.backup)
    ensures FirstNamed(Backups(nodes), name, true).None?
  {
    if nodes != [] {
      NoFullNamed(nodes[1..], name);
      FirstNamedCons(nodes, name, true);
    }
  }

  // What applies to an empty target is what is chosen.
  lemma AppliesToEmpty(nodes: seq<Node>, name: string, job: Node, set_: set<Node>)
    requires Applies(Named(nodes, name), job, set_, [])
    ensures Chosen(Backups(nodes), name) == Some(job.backup)
  {
    hide Reaches, FirstNamed;
    var ms := Named(nodes, name);
    forall n
      ensures !Reaches(n, set_, [])
    {
      EmptyReachesNothing(n, set_);
    }
    if exists n :: n in ms && IsFull(n.backup) {
      var i :| 0 <= i < |ms| && ms[i] == job && IsFull(job.backup) && forall k :: 0 <= k < i ==> !IsFull(ms[k].backup);
      FirstFullNamedIs(nodes, name, i);
    } else {
      NoFullNamed(nodes, name);
      FirstNamedIs(nodes, name);
    }
  }

  // Whatever the listing order and however many backups of the snapshot there are: when the one an
  // empty target takes restores in one kind, as the planner's reader finds it, it is restored along
  // exactly that chain.
  method RestoreRestorable(
    listing: seq<Backup>, volume: string, name: string, ghost m: Backup, ghost chain: seq<Backup>,
    guids: SnapshotInfo -> bool)
    returns (jobs: seq<Node>)
    requires DistinctSets(listing) && Chosen(SortOldest(listing), Wanted(SortOldest(listing), name)) == Some(m)
    requires RestoresInKind(SortNewest(listing), chain, m)
    ensures Backups(jobs) == chain
  {
    hide RestoresInKind, Indexed, Applies, IsPlanFor, Chosen;
    var nodes := ReadAndLink(listing, volume);
    ListingWellLinked(nodes, listing, volume);
    var job, r := AutoRestore(nodes, name, [], [], guids);
    ChosenIsListed(nodes, Wanted(Backups(nodes), name));
    AppliesToEmpty(nodes, Wanted(Backups(nodes), name), job, NodeSet(nodes));
    ghost var plan := PlanForIt(nodes, listing, volume, job, m, chain, guids);
    jobs := r.value;
    PlanIsUnique(job, jobs, plan, NodeSet(nodes), [], [], guids);
  }

  lemma ChosenIsListed(nodes: seq<Node>, name: string)
    requires Chosen(Backups(nodes), name).Some?
    ensures exists n :: n in nodes && n.backup.base.name == name
  {
    var m := Chosen(Backups(nodes), name).value;
    var i :| 0 <= i < |nodes| && Backups(nodes)[i] == m;
    assert nodes[i] in nodes;
  }

  lemma PlanForIt(
    nodes: seq<Node>, listing: seq<Backup>, volume: string, job: Node, m: Backup, chain: seq<Backup>,
    guids: SnapshotInfo -> bool)
    returns (plan: seq<Node>)
    requires LinkedListing(nodes, listing, volume) && DistinctSets(listing) && job in nodes && job.backup == m
    requires RestoresInKind(SortNewest(listing), chain, m)
    ensures IsPlanFor(job, plan, NodeSet(nodes), [], [], guids) && Backups(plan) == chain
  {
    hide LinkedListing, IsPlanFor;
    plan := ChainIsPlan(nodes, listing, volume, job, chain, guids);
  }

  lemma {:induction false} SortedStays(d: seq<Backup>)
    requires NewestFirst(d)
    ensures SortNewest(d) == d
  {
    if d != [] {
      SortedStays(d[1..]);
      assert d == [d[0]] + d[1..];
    }
  }

  // The only backup of its name is the one an empty target takes.
  lemma OnlyOneChosen(d: seq<Backup>, m: Backup)
    requires m in d && forall b: Backup :: b in d && b.base.name == m.base.name ==> b == m
    ensures Chosen(SortOldest(d), m.base.name) == Some(m)
  {
    SortOldestHolds(d);
  }

  // Names that tell their time leave no other backup of the name just sent.
  lemma SentNameIsNew(s: Store, r: Run, t: Store, k: DestId, timeOf: string -> int)
    requires BackupRuns.Inv(s) && RunStep(s, r, t) && k in r.wrote && NewIncremental(s, r)
    requires forall b: Backup :: b in t[k] ==> b.base.time == timeOf(b.base.name)
    ensures SetOf(s, r).Some?
    ensures forall b: Backup :: b in t[k] && b.base.name == SetOf(s, r).value.base.name ==> b == SetOf(s, r).value
  {
    hide SetOf, PlanOf, KeptBackups, BrokenLink, ParentOf;
    assert Publishes(s, r, t, k);
    var m := SetOf(s, r).value;
    NewIncrementalContinues(s, r, k);
    FreshBase(s[k], Limit(r), m);
    assert m in t[k];
  }

  // Whatever smart runs came before, what one that sent an incremental left at a destination
  // restores into an empty target: receive --auto finds the whole chain, down to a full.
  method RestoreAfterIncremental(
    ghost states: seq<Store>, ghost runs: seq<Run>, ghost n: nat, ghost k: DestId, ghost timeOf: string -> int,
    d: seq<Backup>, m: Backup, volume: string, guids: SnapshotInfo -> bool)
    returns (jobs: seq<Node>)
    requires History(states, runs) && AllFit(states, runs) && n < |runs|
    requires BackupRuns.Inv(states[0]) && OneKind(states[0])
    requires ValidRun(states[n], runs[n]) && NewIncremental(states[n], runs[n]) && k in runs[n].wrote
    requires k in states[n + 1] && d == states[n + 1][k] && SetOf(states[n], runs[n]) == Some(m)
    requires forall b: Backup :: b in d ==> b.base.time == timeOf(b.base.name)
    ensures RestoresInKind(d, Backups(jobs), m)
  {
    hide NewIncremental, SetOf, RestoresInKind, Sane, KeptBackups, AllFit, RunStep, Chosen;
    WroteIsChosen(states[n], runs[n], states[n + 1], k);
    IncrementalsStayRestorable(states, runs, n, k);
    IncrementalsKeepOneKind(states, runs, n, k);
    InvAlways(states, runs, n);
    InvAlways(states, runs, n + 1);
    SentNameIsNew(states[n], runs[n], states[n + 1], k, timeOf);
    ghost var chain: seq<Backup> :| RestoresInKind(d, chain, m);
    SaneListing(d);
    OnlyOneChosen(d, m);
    SaneName(d, m);
    jobs := RestoreRestorable(d, volume, m.base.name, m, chain, guids);
  }

  lemma SaneName(d: seq<Backup>, m: Backup)
    requires Sane(d) && m in d
    ensures m.base.name != ""
  {
  }

  lemma SaneListing(d: seq<Backup>)
    requires Sane(d)
    ensures DistinctSets(d) && SortNewest(d) == d
  {
    SortedStays(d);
  }
}
