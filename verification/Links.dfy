// Parent links: linkManifests on the manifests a restore reads, chainDepth's index, and how both
// agree with the planner's scan for a parent.
module Links {
  import opened Common
  import opened Planner
  import opened Chains

  // A manifest as it is read back. parent is set by linking.
  class Node {
    const volume: string
    const backup: Backup
    var parent: Node?

    constructor (volume: string, backup: Backup)
      ensures this.volume == volume && this.backup == backup && parent == null
    {
      this.volume, this.backup, this.parent := volume, backup, null;
    }
  }

  // ---- Linking ----

  predicate BackupOf(n: Node, volume: string, s: SnapshotInfo) {
    n.volume == volume && Equal(n.backup.base, s)
  }

  // The parent the index holds after the nodes: the last full of the snapshot, else its first backup.
  function Indexed(nodes: seq<Node>, volume: string, s: SnapshotInfo): (p: Node?)
    ensures p != null ==> p in nodes && BackupOf(p, volume, s)
  {
    if nodes == [] then null
    else
      var init, last := nodes[..|nodes| - 1], nodes[|nodes| - 1];
      var before := Indexed(init, volume, s);
      if BackupOf(last, volume, s) && (IsFull(last.backup) || before == null) then last else before
  }

  type Key = (string, string, int)

  function KeyOf(volume: string, s: SnapshotInfo): (k: Key) {
    (volume, s.name, s.time)
  }

  ghost predicate IsIndex(byId: map<Key, Node>, nodes: seq<Node>) {
    forall volume: string, s: SnapshotInfo ::
      && (KeyOf(volume, s) in byId <==> Indexed(nodes, volume, s) != null)
      && (KeyOf(volume, s) in byId ==> byId[KeyOf(volume, s)] == Indexed(nodes, volume, s))
  }

  lemma IndexMore(byId: map<Key, Node>, nodes: seq<Node>, n: Node)
    requires IsIndex(byId, nodes)
    ensures var key := KeyOf(n.volume, n.backup.base);
      IsIndex(if IsFull(n.backup) || key !in byId then byId[key := n] else byId, nodes + [n])
  {
    var key, more := KeyOf(n.volume, n.backup.base), nodes + [n];
    var after := if IsFull(n.backup) || key !in byId then byId[key := n] else byId;
    assert more[..|more| - 1] == nodes;
    assert key in byId <==> Indexed(nodes, n.volume, n.backup.base) != null;
    forall volume: string, s: SnapshotInfo
      ensures KeyOf(volume, s) in after <==> Indexed(more, volume, s) != null
      ensures KeyOf(volume, s) in after ==> after[KeyOf(volume, s)] == Indexed(more, volume, s)
    {
      assert KeyOf(volume, s) in byId <==> Indexed(nodes, volume, s) != null;
    }
  }

  // linkManifests: every incremental gets the parent of its source, or none.
  method LinkManifests(nodes: seq<Node>)
    requires forall n :: n in nodes ==> n.parent == null
    modifies nodes
    ensures forall n :: n in nodes ==>
      n.parent == if IsFull(n.backup) then null else Indexed(nodes, n.volume, n.backup.source)
  {
    var byId: map<Key, Node> := map[];
    for i := 0 to |nodes|
      invariant IsIndex(byId, nodes[..i])
      invariant forall n :: n in nodes ==> n.parent == null
    {
      var n := nodes[i];
      var key := KeyOf(n.volume, n.backup.base);
      IndexMore(byId, nodes[..i], n);
      assert nodes[..i + 1] == nodes[..i] + [n];
      if IsFull(n.backup) {
        byId := byId[key := n];
      } else if key !in byId {
        byId := byId[key := n];
      }
    }
    assert nodes[..|nodes|] == nodes;
    for i := 0 to |nodes|
      invariant forall n :: n in nodes[..i] ==>
        n.parent == if IsFull(n.backup) then null else Indexed(nodes, n.volume, n.backup.source)
      invariant forall n :: n in nodes && n !in nodes[..i] ==> n.parent == null
    {
      var n := nodes[i];
      assert nodes[..i + 1] == nodes[..i] + [n];
      if !IsFull(n.backup) {
        var key := KeyOf(n.volume, n.backup.source);
        assert key in byId <==> Indexed(nodes, n.volume, n.backup.source) != null;
        if key in byId {
          n.parent := byId[key];
        }
      }
    }
  }

  // A parent is found exactly when some node is a backup of the snapshot, a full exactly when one is.
  lemma {:induction false} IndexedExactly(nodes: seq<Node>, volume: string, s: SnapshotInfo)
    ensures Indexed(nodes, volume, s) != null <==> exists n :: n in nodes && BackupOf(n, volume, s)
    ensures (Indexed(nodes, volume, s) != null && IsFull(Indexed(nodes, volume, s).backup))
      <==> exists n :: n in nodes && BackupOf(n, volume, s) && IsFull(n.backup)
  {
    if nodes != [] {
      var init, last := nodes[..|nodes| - 1], nodes[|nodes| - 1];
      IndexedExactly(init, volume, s);
      assert nodes == init + [last];
    }
  }

  // ---- Two orders of one listing ----

  // The backups of s in a list, fulls or incrementals.
  function Select(d: seq<Backup>, s: SnapshotInfo, full: bool): (r: seq<Backup>) {
    if d == [] then []
    else (if Equal(d[0].base, s) && IsFull(d[0]) == full then [d[0]] else []) + Select(d[1..], s, full)
  }

  predicate NewerFirst(a: Backup, b: Backup) {
    a.base.time > b.base.time || (a.base.time == b.base.time && IsFull(a) && !IsFull(b))
  }

  // Stable insertion: x goes before what it ties with.
  function InsertNewest(x: Backup, d: seq<Backup>): (r: seq<Backup>) {
    if d == [] || !NewerFirst(d[0], x) then [x] + d else [d[0]] + InsertNewest(x, d[1..])
  }

  function InsertOldest(x: Backup, d: seq<Backup>): (r: seq<Backup>) {
    if d == [] || !NewerFirst(x, d[0]) then [x] + d else [d[0]] + InsertOldest(x, d[1..])
  }

  // sortBackupsNewestFirst, as the planner reads a destination.
  function SortNewest(listing: seq<Backup>): (r: seq<Backup>) {
    if listing == [] then [] else InsertNewest(listing[0], SortNewest(listing[1..]))
  }

  // readAndSortManifests, as a restore reads it.
  function SortOldest(listing: seq<Backup>): (r: seq<Backup>) {
    if listing == [] then [] else InsertOldest(listing[0], SortOldest(listing[1..]))
  }

  lemma {:induction false} SelectInsertNewest(x: Backup, d: seq<Backup>, s: SnapshotInfo, full: bool)
    ensures Select(InsertNewest(x, d), s, full) == Select([x] + d, s, full)
  {
    assert ([x] + d)[0] == x && ([x] + d)[1..] == d;
    if d != [] && NewerFirst(d[0], x) {
      var r := InsertNewest(x, d);
      assert r[0] == d[0] && r[1..] == InsertNewest(x, d[1..]);
      assert ([x] + d[1..])[0] == x && ([x] + d[1..])[1..] == d[1..];
      SelectInsertNewest(x, d[1..], s, full);
    }
  }

  lemma {:induction false} SelectInsertOldest(x: Backup, d: seq<Backup>, s: SnapshotInfo, full: bool)
    ensures Select(InsertOldest(x, d), s, full) == Select([x] + d, s, full)
  {
    assert ([x] + d)[0] == x && ([x] + d)[1..] == d;
    if d != [] && NewerFirst(x, d[0]) {
      var r := InsertOldest(x, d);
      assert r[0] == d[0] && r[1..] == InsertOldest(x, d[1..]);
      assert ([x] + d[1..])[0] == x && ([x] + d[1..])[1..] == d[1..];
      SelectInsertOldest(x, d[1..], s, full);
    }
  }

  // Both sorts keep the listing's order among the backups of one snapshot and kind.
  lemma {:induction false} SortsAreStable(listing: seq<Backup>, s: SnapshotInfo, full: bool)
    ensures Select(SortNewest(listing), s, full) == Select(listing, s, full)
    ensures Select(SortOldest(listing), s, full) == Select(listing, s, full)
  {
    if listing != [] {
      var x, rest := listing[0], listing[1..];
      SortsAreStable(rest, s, full);
      SelectInsertNewest(x, SortNewest(rest), s, full);
      SelectInsertOldest(x, SortOldest(rest), s, full);
      assert ([x] + SortNewest(rest))[1..] == SortNewest(rest) && ([x] + SortOldest(rest))[1..] == SortOldest(rest);
    }
  }

  // The newest-first order is the one the planner assumes.
  lemma {:induction false} InsertKeepsOrder(x: Backup, d: seq<Backup>)
    requires NewestFirst(d)
    ensures NewestFirst(InsertNewest(x, d))
    ensures forall b: Backup :: b in InsertNewest(x, d) <==> b == x || b in d
  {
    if d != [] && NewerFirst(d[0], x) {
      InsertKeepsOrder(x, d[1..]);
      var rest, r := InsertNewest(x, d[1..]), InsertNewest(x, d);
      assert d == [d[0]] + d[1..];
      forall i, j | 0 <= i < j < |r|
        ensures Precedes(r[i], r[j])
      {
        assert r[j] == rest[j - 1] && rest[j - 1] in rest;
        if i > 0 {
          assert r[i] == rest[i - 1];
        } else if rest[j - 1] != x {
          var k :| 0 <= k < |d[1..]| && d[1..][k] == rest[j - 1];
          assert Precedes(d[0], d[k + 1]);
        }
      }
    } else {
      InsertFront(x, d);
    }
  }

  lemma InsertFront(x: Backup, d: seq<Backup>)
    requires NewestFirst(d) && (d == [] || !NewerFirst(d[0], x))
    ensures NewestFirst([x] + d)
  {
    var r := [x] + d;
    forall i, j | 0 <= i < j < |r|
      ensures Precedes(r[i], r[j])
    {
      assert r[j] == d[j - 1];
      if i > 0 {
        assert r[i] == d[i - 1];
      } else if j > 1 {
        assert Precedes(d[0], d[j - 1]);
      }
    }
  }

  lemma {:induction false} SortNewestInOrder(listing: seq<Backup>)
    ensures NewestFirst(SortNewest(listing))
    ensures forall b: Backup :: b in SortNewest(listing) <==> b in listing
  {
    if listing != [] {
      SortNewestInOrder(listing[1..]);
      InsertKeepsOrder(listing[0], SortNewest(listing[1..]));
      assert listing == [listing[0]] + listing[1..];
    }
  }

  lemma {:induction false} InsertOldestHolds(x: Backup, d: seq<Backup>)
    ensures forall b: Backup :: b in InsertOldest(x, d) <==> b == x || b in d
  {
    if d != [] && NewerFirst(x, d[0]) {
      InsertOldestHolds(x, d[1..]);
      assert d == [d[0]] + d[1..];
    }
  }

  lemma {:induction false} SortOldestHolds(listing: seq<Backup>)
    ensures forall b: Backup :: b in SortOldest(listing) <==> b in listing
  {
    if listing != [] {
      SortOldestHolds(listing[1..]);
      InsertOldestHolds(listing[0], SortOldest(listing[1..]));
      assert listing == [listing[0]] + listing[1..];
    }
  }

  predicate OldestFirst(d: seq<Backup>) {
    forall i, j :: 0 <= i < j < |d| ==> d[i].base.time <= d[j].base.time
  }

  lemma {:induction false} InsertOldestInOrder(x: Backup, d: seq<Backup>)
    requires OldestFirst(d)
    ensures OldestFirst(InsertOldest(x, d)) && |InsertOldest(x, d)| == |d| + 1
  {
    var r := InsertOldest(x, d);
    if d != [] && NewerFirst(x, d[0]) {
      InsertOldestInOrder(x, d[1..]);
      InsertOldestHolds(x, d[1..]);
      var rest := InsertOldest(x, d[1..]);
      forall i, j | 0 <= i < j < |r|
        ensures r[i].base.time <= r[j].base.time
      {
        assert r[j] == rest[j - 1] && rest[j - 1] in rest;
        assert i > 0 ==> r[i] == rest[i - 1];
      }
    } else {
      forall i, j | 0 <= i < j < |r|
        ensures r[i].base.time <= r[j].base.time
      {
        assert r[j] == d[j - 1] && (i > 0 ==> r[i] == d[i - 1]);
      }
    }
  }

  lemma {:induction false} SortOldestInOrder(listing: seq<Backup>)
    ensures OldestFirst(SortOldest(listing)) && |SortOldest(listing)| == |listing|
  {
    if listing != [] {
      SortOldestInOrder(listing[1..]);
      InsertOldestInOrder(listing[0], SortOldest(listing[1..]));
    }
  }

  // The last backup a restore lists, its latest, is newest.
  lemma LatestIsNewest(listing: seq<Backup>)
    ensures |SortOldest(listing)| == |listing|
    ensures forall b: Backup :: b in listing ==> b.base.time <= SortOldest(listing)[|listing| - 1].base.time
  {
    hide SortOldest;
    var d := SortOldest(listing);
    SortOldestInOrder(listing);
    SortOldestHolds(listing);
    forall b: Backup | b in d
      ensures b.base.time <= d[|d| - 1].base.time
    {
      var i :| 0 <= i < |d| && d[i] == b;
    }
  }

  // ---- Both readers find the same parent ----

  lemma {:induction false} FirstIsSelected(d: seq<Backup>, s: SnapshotInfo)
    ensures FirstBackupOf(d, s, true) == if Select(d, s, true) == [] then None else Some(Select(d, s, true)[0])
    ensures Select(d, s, true) == [] ==>
      FirstBackupOf(d, s, false) == if Select(d, s, false) == [] then None else Some(Select(d, s, false)[0])
  {
    if d != [] {
      FirstIsSelected(d[1..], s);
    }
  }

  function Backups(nodes: seq<Node>): (r: seq<Backup>)
    ensures |r| == |nodes| && forall i :: 0 <= i < |nodes| ==> r[i] == nodes[i].backup
  {
    seq(|nodes|, i requires 0 <= i < |nodes| => nodes[i].backup)
  }

  lemma {:induction false} SelectAppend(d: seq<Backup>, b: Backup, s: SnapshotInfo, full: bool)
    ensures Select(d + [b], s, full) == Select(d, s, full) + if Equal(b.base, s) && IsFull(b) == full then [b] else []
  {
    if d == [] {
      assert d + [b] == [b] && [b][1..] == [];
    } else {
      assert (d + [b])[0] == d[0] && (d + [b])[1..] == d[1..] + [b];
      SelectAppend(d[1..], b, s, full);
    }
  }

  // The index holds the last full, else the first incremental.
  lemma {:induction false} IndexedIsSelected(nodes: seq<Node>, volume: string, s: SnapshotInfo)
    requires forall n :: n in nodes ==> n.volume == volume
    ensures var p := Indexed(nodes, volume, s);
      var fulls, incrementals := Select(Backups(nodes), s, true), Select(Backups(nodes), s, false);
      if fulls != [] then p != null && p.backup == fulls[|fulls| - 1]
      else if incrementals != [] then p != null && p.backup == incrementals[0] else p == null
  {
    if nodes != [] {
      var init, last := nodes[..|nodes| - 1], nodes[|nodes| - 1];
      IndexedIsSelected(init, volume, s);
      assert Backups(nodes) == Backups(init) + [last.backup];
      SelectAppend(Backups(init), last.backup, s, true);
      SelectAppend(Backups(init), last.backup, s, false);
    }
  }

  lemma {:induction false} SelectedFrom(d: seq<Backup>, s: SnapshotInfo, full: bool)
    ensures forall b: Backup :: b in Select(d, s, full) ==> b in d && Equal(b.base, s) && IsFull(b) == full
  {
    if d != [] {
      SelectedFrom(d[1..], s, full);
    }
  }

  lemma LaterAreOthers(d: seq<Backup>)
    requires DistinctSets(d) && d != []
    ensures forall b: Backup :: b in d[1..] ==> !SameObject(d[0], b)
  {
    forall b: Backup | b in d[1..]
      ensures !SameObject(d[0], b)
    {
      var k :| 0 <= k < |d[1..]| && d[1..][k] == b;
      assert d[k + 1] == b;
    }
  }

  // A destination has one full of a snapshot at most: its object name says the snapshot.
  lemma {:induction false} OneFull(d: seq<Backup>, s: SnapshotInfo)
    requires DistinctSets(d)
    ensures |Select(d, s, true)| <= 1
  {
    if d != [] {
      OneFull(d[1..], s);
      SelectedFrom(d[1..], s, true);
      LaterAreOthers(d);
      var rest := Select(d[1..], s, true);
      assert rest != [] ==> rest[0] in rest;
    }
  }

  // What a restore links as the parent of s is what the planner finds: for any listing of one
  // dataset, each reader sorting it its own way.
  lemma ReadersAgree(listing: seq<Backup>, nodes: seq<Node>, volume: string, s: SnapshotInfo)
    requires DistinctSets(listing) && Backups(nodes) == SortOldest(listing)
    requires forall n :: n in nodes ==> n.volume == volume
    ensures var p := Indexed(nodes, volume, s);
      ParentOf(SortNewest(listing), s) == if p == null then None else Some(p.backup)
  {
    hide Select, SortNewest, SortOldest, ParentOf, Indexed;
    SortsAreStable(listing, s, true);
    SortsAreStable(listing, s, false);
    ParentIsSelected(SortNewest(listing), s);
    IndexedIsSelected(nodes, volume, s);
    OneFull(listing, s);
  }

  lemma ParentIsSelected(d: seq<Backup>, s: SnapshotInfo)
    ensures var fulls, incrementals := Select(d, s, true), Select(d, s, false);
      ParentOf(d, s) ==
        if fulls != [] then Some(fulls[0]) else if incrementals != [] then Some(incrementals[0]) else None
  {
    hide Select, FirstBackupOf;
    FirstIsSelected(d, s);
  }

  // ---- chainDepth ----

  ghost predicate IsParentMap(parents: map<(string, int), Backup>, d: seq<Backup>) {
    forall s: SnapshotInfo :: ParentOf(d, s) == if Id(s) in parents then Some(parents[Id(s)]) else None
  }

  lemma {:induction false} FirstAppend(d: seq<Backup>, b: Backup, s: SnapshotInfo, fullOnly: bool)
    ensures FirstBackupOf(d + [b], s, fullOnly) ==
      if FirstBackupOf(d, s, fullOnly).Some? then FirstBackupOf(d, s, fullOnly)
      else if Equal(b.base, s) && (fullOnly ==> IsFull(b)) then Some(b) else None
  {
    if d == [] {
      assert d + [b] == [b];
    } else {
      assert (d + [b])[0] == d[0] && (d + [b])[1..] == d[1..] + [b];
      FirstAppend(d[1..], b, s, fullOnly);
    }
  }

  lemma ParentMapMore(parents: map<(string, int), Backup>, d: seq<Backup>, b: Backup)
    requires IsParentMap(parents, d)
    ensures var id := Id(b.base);
      IsParentMap(if id !in parents || (IsFull(b) && !IsFull(parents[id])) then parents[id := b] else parents, d + [b])
  {
    var id := Id(b.base);
    var after := if id !in parents || (IsFull(b) && !IsFull(parents[id])) then parents[id := b] else parents;
    forall s: SnapshotInfo
      ensures ParentOf(d + [b], s) == if Id(s) in after then Some(after[Id(s)]) else None
    {
      FirstAppend(d, b, s, true);
      FirstAppend(d, b, s, false);
      assert ParentOf(d, s) == if Id(s) in parents then Some(parents[Id(s)]) else None;
    }
  }

  // The incrementals from m on, as far as the backups go.
  function DepthFrom(d: seq<Backup>, m: Option<Backup>, depth: nat): (r: nat)
    decreases |d| - depth
  {
    if m.None? || IsFull(m.value) || depth >= |d| then depth
    else DepthFrom(d, ParentOf(d, m.value.source), depth + 1)
  }

  method ChainDepth(d: seq<Backup>) returns (depth: nat)
    ensures depth == if d == [] then 0 else DepthFrom(d, Some(d[0]), 0)
  {
    if d == [] {
      return 0;
    }
    var parents: map<(string, int), Backup> := map[];
    for i := 0 to |d|
      invariant IsParentMap(parents, d[..i])
    {
      var b := d[i];
      ParentMapMore(parents, d[..i], b);
      assert d[..i + 1] == d[..i] + [b];
      if Id(b.base) !in parents || (IsFull(b) && !IsFull(parents[Id(b.base)])) {
        parents := parents[Id(b.base) := b];
      }
    }
    assert d[..|d|] == d;
    depth := 0;
    var m := Some(d[0]);
    while m.Some? && !IsFull(m.value) && depth < |d|
      invariant depth <= |d|
      invariant DepthFrom(d, m, depth) == DepthFrom(d, Some(d[0]), 0)
      decreases |d| - depth
    {
      depth := depth + 1;
      var id := Id(m.value.source);
      assert ParentOf(d, m.value.source) == if id in parents then Some(parents[id]) else None;
      m := if id in parents then Some(parents[id]) else None;
    }
  }

  // It counts the incrementals of the chain that restores the newest backup.
  lemma {:induction false} DepthIsChainLength(d: seq<Backup>, chain: seq<Backup>, depth: nat)
    requires Restores(d, chain) && depth + |chain| <= |d| + 1
    ensures DepthFrom(d, Some(chain[0]), depth) == depth + |chain| - 1
    decreases |chain|
  {
    if |chain| > 1 {
      RestoresTail(d, chain);
      DepthIsChainLength(d, chain[1..], depth + 1);
    }
  }
}
