// Chains of backups at one destination: which backups restoring one takes, and how the chains
// change when a set is added.
module Chains {
  import opened Common
  import opened Planner

  // ---- The order backups are read in ----

  // Newest base first; of the backups of one time, fulls first.
  predicate Precedes(a: Backup, b: Backup) {
    a.base.time > b.base.time || (a.base.time == b.base.time && (IsFull(a) || !IsFull(b)))
  }

  predicate NewestFirst(d: seq<Backup>) {
    forall i, j :: 0 <= i < j < |d| ==> Precedes(d[i], d[j])
  }

  lemma HeadIsNewest(d: seq<Backup>)
    requires NewestFirst(d) && d != []
    ensures forall b: Backup :: b in d ==> b.base.time <= d[0].base.time
  {
    forall b: Backup | b in d
      ensures b.base.time <= d[0].base.time
    {
      var n :| 0 <= n < |d| && d[n] == b;
      assert n > 0 ==> Precedes(d[0], d[n]);
    }
  }

  // One manifest object name: the snapshot names of the set.
  predicate SameObject(a: Backup, b: Backup) {
    a.base.name == b.base.name && a.source.name == b.source.name
  }

  predicate DistinctSets(d: seq<Backup>) {
    forall i, j :: 0 <= i < j < |d| ==> !SameObject(d[i], d[j])
  }

  function InsertAt(d: seq<Backup>, i: nat, m: Backup): (r: seq<Backup>)
    requires i <= |d|
    ensures forall b: Backup :: b in r <==> b in d || b == m
  {
    d[..i] + [m] + d[i..]
  }

  // ---- Restore chains ----

  // chain restores its first backup: each incremental is followed by the backup it restores onto,
  // and the last is a full.
  predicate Restores(d: seq<Backup>, chain: seq<Backup>) {
    && chain != []
    && IsFull(chain[|chain| - 1])
    && forall i :: 0 <= i < |chain| - 1 ==> !IsFull(chain[i]) && ParentOf(d, chain[i].source) == Some(chain[i + 1])
  }

  ghost predicate Restorable(d: seq<Backup>, m: Backup) {
    exists chain: seq<Backup> :: Restores(d, chain) && chain[0] == m
  }

  lemma RestoresPrepend(d: seq<Backup>, m: Backup, chain: seq<Backup>)
    requires Restores(d, chain) && !IsFull(m) && ParentOf(d, m.source) == Some(chain[0])
    ensures Restores(d, [m] + chain)
  {
    var longer := [m] + chain;
    forall i | 0 <= i < |longer| - 1
      ensures !IsFull(longer[i]) && ParentOf(d, longer[i].source) == Some(longer[i + 1])
    {
      if i > 0 {
        assert longer[i] == chain[i - 1] && longer[i + 1] == chain[i];
      }
    }
  }

  lemma RestoresTail(d: seq<Backup>, chain: seq<Backup>)
    requires Restores(d, chain) && |chain| > 1
    ensures Restores(d, chain[1..]) && !IsFull(chain[0]) && ParentOf(d, chain[0].source) == Some(chain[1])
  {
    var rest := chain[1..];
    forall i | 0 <= i < |rest| - 1
      ensures !IsFull(rest[i]) && ParentOf(d, rest[i].source) == Some(rest[i + 1])
    {
      assert rest[i] == chain[i + 1] && rest[i + 1] == chain[i + 2];
    }
  }

  // A walk that misses nothing visits a chain.
  lemma {:induction false} WalkRestores(d: seq<Backup>, m: Backup, steps: nat)
    requires steps <= |d| && MissingFrom(d, m, steps).None?
    ensures Restorable(d, m)
    decreases |d| - steps
  {
    if IsFull(m) {
      assert Restores(d, [m]);
    } else {
      var parent := ParentOf(d, m.source).value;
      WalkRestores(d, parent, steps + 1);
      var chain: seq<Backup> :| Restores(d, chain) && chain[0] == parent;
      RestoresPrepend(d, m, chain);
      assert ([m] + chain)[0] == m;
    }
  }

  lemma {:induction false} RestoresWalks(d: seq<Backup>, chain: seq<Backup>, steps: nat)
    requires Restores(d, chain) && steps + |chain| <= |d| + 1
    ensures MissingFrom(d, chain[0], steps).None?
    decreases |chain|
  {
    if |chain| > 1 {
      RestoresTail(d, chain);
      RestoresWalks(d, chain[1..], steps + 1);
    }
  }

  // A chain repeats no backup: the walk is determined, and only its last backup is a full.
  lemma {:induction false} ChainRepeatsNothing(d: seq<Backup>, chain: seq<Backup>, i: nat, j: nat)
    requires Restores(d, chain) && i < j < |chain|
    ensures chain[i] != chain[j]
    decreases |chain| - j
  {
    if j + 1 < |chain| {
      ChainRepeatsNothing(d, chain, i + 1, j + 1);
      assert ParentOf(d, chain[i].source) == Some(chain[i + 1]) && ParentOf(d, chain[j].source) == Some(chain[j + 1]);
    }
  }

  lemma {:induction false} DistinctFit(s: seq<Backup>, d: seq<Backup>)
    requires forall i, j :: 0 <= i < j < |s| ==> s[i] != s[j]
    requires forall x: Backup :: x in s ==> x in d
    ensures |s| <= |d|
  {
    if s != [] {
      var last := s[|s| - 1];
      assert last in s;
      var k :| 0 <= k < |d| && d[k] == last;
      var init, rest := s[..|s| - 1], d[..k] + d[k + 1..];
      forall x: Backup | x in init
        ensures x in rest
      {
        var i :| 0 <= i < |init| && init[i] == x;
        assert x != last && x in d;
        var n :| 0 <= n < |d| && d[n] == x;
        assert rest[if n < k then n else n - 1] == x;
      }
      DistinctFit(init, rest);
    }
  }

  // brokenLink is exact: it finds nothing missing exactly when the newest backup can be restored.
  lemma BrokenLinkIsExact(d: seq<Backup>)
    requires d != []
    ensures BrokenLink(d).None? <==> Restorable(d, d[0])
  {
    if BrokenLink(d).None? {
      WalkRestores(d, d[0], 0);
    }
    if Restorable(d, d[0]) {
      var chain: seq<Backup> :| Restores(d, chain) && chain[0] == d[0];
      forall i, j | 0 <= i < j < |chain|
        ensures chain[i] != chain[j]
      {
        ChainRepeatsNothing(d, chain, i, j);
      }
      forall x: Backup | x in chain
        ensures x in d
      {
        var i :| 0 <= i < |chain| && chain[i] == x;
        assert i > 0 ==> ParentOf(d, chain[i - 1].source) == Some(chain[i]);
      }
      DistinctFit(chain, d);
      RestoresWalks(d, chain, 0);
    }
  }

  // ---- Parents after a set is added ----

  lemma {:induction false} FirstSkips(d: seq<Backup>, i: nat, m: Backup, s: SnapshotInfo, fullOnly: bool)
    requires i <= |d| && (Equal(m.base, s) ==> fullOnly && !IsFull(m))
    ensures FirstBackupOf(InsertAt(d, i, m), s, fullOnly) == FirstBackupOf(d, s, fullOnly)
  {
    var r := InsertAt(d, i, m);
    if i == 0 {
      assert r[0] == m && r[1..] == d;
    } else {
      assert r[0] == d[0] && r[1..] == InsertAt(d[1..], i - 1, m);
      FirstSkips(d[1..], i - 1, m, s, fullOnly);
    }
  }

  lemma {:induction false} FirstFinds(d: seq<Backup>, i: nat, m: Backup, s: SnapshotInfo, fullOnly: bool)
    requires i <= |d| && Equal(m.base, s) && (fullOnly ==> IsFull(m))
    requires FirstBackupOf(d, s, fullOnly).None?
    ensures FirstBackupOf(InsertAt(d, i, m), s, fullOnly) == Some(m)
  {
    var r := InsertAt(d, i, m);
    if i == 0 {
      assert r[0] == m;
    } else {
      assert r[0] == d[0] && r[1..] == InsertAt(d[1..], i - 1, m);
      FirstFinds(d[1..], i - 1, m, s, fullOnly);
    }
  }

  // Only the children of m's own snapshot can get another parent.
  lemma ParentUnchanged(d: seq<Backup>, i: nat, m: Backup, s: SnapshotInfo)
    requires i <= |d| && !Equal(m.base, s)
    ensures ParentOf(InsertAt(d, i, m), s) == ParentOf(d, s)
  {
    FirstSkips(d, i, m, s, true);
    FirstSkips(d, i, m, s, false);
  }

  // The parent of a snapshot equal to the newest backup's base: that backup, or a full.
  lemma NewestIsParent(d: seq<Backup>)
    requires d != []
    ensures ParentOf(d, d[0].base).Some?
    ensures var p := ParentOf(d, d[0].base).value; p == d[0] || IsFull(p)
  {
  }

  lemma {:induction false} FirstOfEqual(d: seq<Backup>, s: SnapshotInfo, t: SnapshotInfo, fullOnly: bool)
    requires Equal(s, t)
    ensures FirstBackupOf(d, s, fullOnly) == FirstBackupOf(d, t, fullOnly)
  {
    if d != [] {
      FirstOfEqual(d[1..], s, t, fullOnly);
    }
  }

  lemma ParentOfEqual(d: seq<Backup>, s: SnapshotInfo, t: SnapshotInfo)
    requires Equal(s, t)
    ensures ParentOf(d, s) == ParentOf(d, t)
  {
    FirstOfEqual(d, s, t, true);
    FirstOfEqual(d, s, t, false);
  }

  // ---- Ignoring what is dated in the future ----

  lemma {:induction false} FirstOfKept(d: seq<Backup>, limit: int, s: SnapshotInfo, fullOnly: bool)
    requires s.time <= limit
    ensures FirstBackupOf(KeptBackups(d, limit), s, fullOnly) == FirstBackupOf(d, s, fullOnly)
  {
    if d != [] {
      FirstOfKept(d[1..], limit, s, fullOnly);
      var rest := KeptBackups(d[1..], limit);
      if d[0].base.time <= limit {
        assert KeptBackups(d, limit)[0] == d[0] && KeptBackups(d, limit)[1..] == rest;
      } else {
        assert KeptBackups(d, limit) == rest;
      }
    }
  }

  lemma ParentOfKept(d: seq<Backup>, limit: int, s: SnapshotInfo)
    requires s.time <= limit
    ensures ParentOf(KeptBackups(d, limit), s) == ParentOf(d, s)
  {
    FirstOfKept(d, limit, s, true);
    FirstOfKept(d, limit, s, false);
  }

  lemma {:induction false} KeptInOrder(d: seq<Backup>, limit: int)
    requires NewestFirst(d)
    ensures NewestFirst(KeptBackups(d, limit))
  {
    if d != [] {
      hide NewestFirst, Precedes;
      TailInOrder(d);
      KeptInOrder(d[1..], limit);
      if d[0].base.time <= limit {
        ConsInOrder(d[0], KeptBackups(d[1..], limit));
      }
    }
  }

  lemma TailInOrder(d: seq<Backup>)
    requires NewestFirst(d) && d != []
    ensures NewestFirst(d[1..]) && forall b: Backup :: b in d[1..] ==> Precedes(d[0], b)
  {
  }

  lemma ConsInOrder(x: Backup, d: seq<Backup>)
    requires NewestFirst(d) && forall b: Backup :: b in d ==> Precedes(x, b)
    ensures NewestFirst([x] + d)
  {
    hide Precedes;
    var r := [x] + d;
    forall i, j | 0 <= i < j < |r|
      ensures Precedes(r[i], r[j])
    {
      assert r[j] == d[j - 1] && d[j - 1] in d;
      assert i > 0 ==> r[i] == d[i - 1];
    }
  }

  lemma {:induction false} KeptAppend(a: seq<Backup>, b: seq<Backup>, limit: int)
    ensures KeptBackups(a + b, limit) == KeptBackups(a, limit) + KeptBackups(b, limit)
  {
    if a == [] {
      assert a + b == b;
    } else {
      assert (a + b)[0] == a[0] && (a + b)[1..] == a[1..] + b;
      KeptAppend(a[1..], b, limit);
    }
  }

  lemma KeptInserted(d: seq<Backup>, i: nat, m: Backup, limit: int) returns (k: nat)
    requires i <= |d| && m.base.time <= limit
    ensures k <= |KeptBackups(d, limit)|
    ensures KeptBackups(InsertAt(d, i, m), limit) == InsertAt(KeptBackups(d, limit), k, m)
    ensures k == |KeptBackups(d[..i], limit)|
    ensures KeptBackups(d, limit) == KeptBackups(d[..i], limit) + KeptBackups(d[i..], limit)
  {
    var front, back := KeptBackups(d[..i], limit), KeptBackups(d[i..], limit);
    k := |front|;
    assert d == d[..i] + d[i..];
    KeptAppend(d[..i], d[i..], limit);
    KeptAppend(d[..i] + [m], d[i..], limit);
    KeptAppend(d[..i], [m], limit);
    KeptOne(m, limit);
    hide KeptBackups;
    assert (front + back)[..k] == front && (front + back)[k..] == back;
  }

  lemma KeptOne(m: Backup, limit: int)
    requires m.base.time <= limit
    ensures KeptBackups([m], limit) == [m]
  {
    assert [m][1..] == [];
  }

  // ---- A set that continues the newest backup ----

  // m is newer than what d keeps, and an unbroken chain of d leads to its source.
  predicate ContinuesKept(d: seq<Backup>, limit: int, m: Backup) {
    var kept := KeptBackups(d, limit);
    && kept != [] && Equal(kept[0].base, m.source) && kept[0].base.time < m.base.time <= limit
    && BrokenLink(kept).None?
  }

  // A chain of what is kept is one of the whole list.
  lemma KeptChain(d: seq<Backup>, limit: int, chain: seq<Backup>)
    requires Restores(KeptBackups(d, limit), chain)
    ensures Restores(d, chain)
  {
    var kept := KeptBackups(d, limit);
    forall n | 0 <= n < |chain| - 1
      ensures !IsFull(chain[n]) && ParentOf(d, chain[n].source) == Some(chain[n + 1])
    {
      assert ParentOf(kept, chain[n].source) == Some(chain[n + 1]);
      assert chain[n + 1] in kept;
      ParentOfKept(d, limit, chain[n].source);
    }
  }

  lemma {:induction false} KeepsAll(d: seq<Backup>, limit: int)
    requires forall b: Backup :: b in d ==> b.base.time <= limit
    ensures KeptBackups(d, limit) == d
  {
    if d != [] {
      assert d == [d[0]] + d[1..];
      KeepsAll(d[1..], limit);
    }
  }

  lemma KeptTwice(d: seq<Backup>, limit: int)
    ensures KeptBackups(KeptBackups(d, limit), limit) == KeptBackups(d, limit)
  {
    KeepsAll(KeptBackups(d, limit), limit);
  }

  lemma {:induction false} ChainSurvives(d: seq<Backup>, limit: int, i: nat, m: Backup, chain: seq<Backup>)
    requires i <= |d| && Restores(KeptBackups(d, limit), chain)
    requires forall b: Backup :: b in KeptBackups(d, limit) ==> b.base.time < m.base.time <= limit
    ensures Restores(InsertAt(d, i, m), chain)
  {
    var kept, r := KeptBackups(d, limit), InsertAt(d, i, m);
    forall n | 0 <= n < |chain| - 1
      ensures !IsFull(chain[n]) && ParentOf(r, chain[n].source) == Some(chain[n + 1])
    {
      var s := chain[n].source;
      assert chain[n + 1] in kept && Equal(chain[n + 1].base, s);
      ParentOfKept(d, limit, s);
      ParentUnchanged(d, i, m, s);
    }
  }

  // The sent incremental can be restored at the destination, from whatever is there.
  lemma SentRestores(d: seq<Backup>, limit: int, i: nat, m: Backup)
    requires i <= |d| && NewestFirst(d) && ContinuesKept(d, limit, m) && !IsFull(m)
    ensures Restorable(InsertAt(d, i, m), m)
    ensures ParentOf(InsertAt(d, i, m), m.source) == ParentOf(KeptBackups(d, limit), m.source)
  {
    hide BrokenLink, KeptBackups, Restores;
    var kept, r := KeptBackups(d, limit), InsertAt(d, i, m);
    KeptInOrder(d, limit);
    HeadIsNewest(kept);
    var chain := ParentChain(kept, m.source);
    ChainSurvives(d, limit, i, m, chain);
    ParentOfKept(d, limit, m.source);
    ParentUnchanged(d, i, m, m.source);
    SentRestoresBy(r, m, chain);
  }

  lemma SentRestoresBy(r: seq<Backup>, m: Backup, chain: seq<Backup>)
    requires Restores(r, chain) && !IsFull(m) && ParentOf(r, m.source) == Some(chain[0])
    ensures Restorable(r, m)
  {
    RestoresPrepend(r, m, chain);
    assert ([m] + chain)[0] == m;
  }

  lemma ParentChain(kept: seq<Backup>, s: SnapshotInfo) returns (chain: seq<Backup>)
    requires kept != [] && Equal(kept[0].base, s) && BrokenLink(kept).None?
    ensures Restores(kept, chain) && ParentOf(kept, s) == Some(chain[0])
  {
    ParentOfEqual(kept, kept[0].base, s);
    NewestIsParent(kept);
    var p := ParentOf(kept, s).value;
    if p == kept[0] {
      WalkRestores(kept, p, 0);
      chain :| Restores(kept, chain) && chain[0] == p;
    } else {
      chain := [p];
    }
  }

  lemma OrderAfterInsert(d: seq<Backup>, k: nat, m: Backup)
    requires 0 < k <= |d| && NewestFirst(InsertAt(d, k, m))
    ensures Precedes(d[0], m)
  {
    var r := InsertAt(d, k, m);
    assert r[0] == d[0] && r[k] == m;
  }

  // It is the newest backup the planner then considers.
  lemma SentIsNewest(d: seq<Backup>, limit: int, i: nat, m: Backup)
    requires i <= |d| && NewestFirst(d) && ContinuesKept(d, limit, m)
    requires NewestFirst(InsertAt(d, i, m))
    ensures KeptBackups(InsertAt(d, i, m), limit) == [m] + KeptBackups(d, limit)
  {
    hide BrokenLink, KeptBackups, NewestFirst, InsertAt;
    KeptInOrder(InsertAt(d, i, m), limit);
    var k := KeptInserted(d, i, m, limit);
    if k > 0 {
      OrderAfterInsert(KeptBackups(d, limit), k, m);
      assert false;
    }
    InsertFirst(KeptBackups(d, limit), m);
  }

  lemma InsertFirst(d: seq<Backup>, m: Backup)
    ensures InsertAt(d, 0, m) == [m] + d
  {
  }
}
