// How recording a backup changes which set some destinations lack.
module PartialSets {
  import opened Common
  import opened Planner
  import opened Chains
  import opened Simulator

  // ---- Lists of the same sets ----

  lemma SameSetsSymmetric(a: seq<Backup>, b: seq<Backup>)
    requires SameSets(a, b)
    ensures SameSets(b, a)
  {
  }

  lemma SameSetsTransitive(a: seq<Backup>, b: seq<Backup>, c: seq<Backup>)
    requires SameSets(a, b) && SameSets(b, c)
    ensures SameSets(a, c)
  {
  }

  lemma SameTail(a: seq<Backup>, b: seq<Backup>)
    requires SameSets(a, b) && a != []
    ensures SameSets(a[1..], b[1..])
  {
    forall i | 0 <= i < |a[1..]|
      ensures Equal(a[1..][i].base, b[1..][i].base) && Equal(a[1..][i].source, b[1..][i].source)
    {
      assert a[1..][i] == a[i + 1] && b[1..][i] == b[i + 1];
    }
  }

  lemma SameCons(x: Backup, y: Backup, a: seq<Backup>, b: seq<Backup>)
    requires SameSets(a, b) && Equal(x.base, y.base) && Equal(x.source, y.source)
    ensures SameSets([x] + a, [y] + b)
  {
  }

  predicate AllSame(dests: Destinations) {
    forall a: seq<Backup>, b: seq<Backup> :: a in dests && b in dests ==> SameSets(a, b)
  }

  lemma AllSameNoPartial(dests: Destinations)
    requires AllSame(dests)
    ensures PartialSet(dests).None?
  {
    hide SameSets, Leader;
  }

  // ---- Recording a set keeps lists alike ----

  lemma {:induction false} OthersSame(a: seq<Backup>, b: seq<Backup>, m: Backup)
    requires SameSets(a, b)
    ensures SameSets(Others(a, m), Others(b, m))
  {
    if a != [] {
      SameTail(a, b);
      OthersSame(a[1..], b[1..], m);
      SameCons(a[0], b[0], Others(a[1..], m), Others(b[1..], m));
    }
  }

  lemma InsertedSame(a: seq<Backup>, b: seq<Backup>, i: nat, m: Backup)
    requires SameSets(a, b) && i <= |a|
    ensures SameSets(InsertAt(a, i, m), InsertAt(b, i, m))
  {
    InsertedAt(a, i, m);
    InsertedAt(b, i, m);
  }

  lemma InsertedAt(d: seq<Backup>, i: nat, m: Backup)
    requires i <= |d|
    ensures |InsertAt(d, i, m)| == |d| + 1
    ensures forall k :: 0 <= k < i ==> InsertAt(d, i, m)[k] == d[k]
    ensures InsertAt(d, i, m)[i] == m
    ensures forall k :: i < k <= |d| ==> InsertAt(d, i, m)[k] == d[k - 1]
  {
  }

  lemma AddedSame(a: seq<Backup>, b: seq<Backup>, m: Backup)
    requires SameSets(a, b)
    ensures SameSets(AddManifest(a, m), AddManifest(b, m))
  {
    hide Others;
    OthersSame(a, b, m);
    var x, y, t := Others(a, m), Others(b, m), m.base.time;
    NotOlderIs(y, t, NotOlder(x, t));
    InsertedSame(x, y, NotOlder(x, t), m);
  }

  // Everything a run sends is recorded at every destination.
  predicate RecordedAll(dests: Destinations, m: Backup, r: Destinations) {
    |r| == |dests| && forall i :: 0 <= i < |dests| ==> r[i] == AddManifest(dests[i], m)
  }

  // ---- Completing the set ----

  // With the lacking set recorded everywhere, all destinations have the same sets.
  lemma CompletionAligns(dests: Destinations, m: Backup, r: Destinations)
    requires PartialSet(dests).Some? && SameObject(PartialSet(dests).value, m) && RecordedAll(dests, m, r)
    ensures AllSame(r)
  {
    hide SameSets, Leader, AddManifest;
    var leader := Leader(dests);
    forall i | 0 <= i < |r|
      ensures SameSets(r[i], AddManifest(leader, m))
    {
      assert dests[i] in dests;
      AddedLikeLeader(dests[i], leader, m);
    }
    forall a: seq<Backup>, b: seq<Backup> | a in r && b in r
      ensures SameSets(a, b)
    {
      SameSetsSymmetric(b, AddManifest(leader, m));
      SameSetsTransitive(a, AddManifest(leader, m), b);
    }
  }

  lemma AddedLikeLeader(d: seq<Backup>, leader: seq<Backup>, m: Backup)
    requires leader != [] && SameObject(leader[0], m) && (SameSets(d, leader) || SameSets(d, leader[1..]))
    ensures SameSets(AddManifest(d, m), AddManifest(leader, m))
  {
    hide SameSets;
    assert Others(leader, m) == Others(leader[1..], m);
    if SameSets(d, leader) {
      AddedSame(d, leader, m);
    } else {
      AddedSame(d, leader[1..], m);
    }
  }

  // ---- Recording a new set ----

  predicate IsNew(m: Backup, dests: Destinations) {
    forall d: seq<Backup>, b: Backup :: d in dests && b in d ==> !SameObject(b, m)
  }

  lemma NewIsInserted(d: seq<Backup>, m: Backup)
    requires forall b: Backup :: b in d ==> !SameObject(b, m)
    ensures AddManifest(d, m) == InsertAt(d, NotOlder(d, m.base.time), m)
  {
    OthersAll(d, m);
  }

  // Lists that are alike with the new set are alike without it.
  lemma SameWithout(a: seq<Backup>, i: nat, b: seq<Backup>, j: nat, m: Backup)
    requires i <= |a| && j <= |b| && SameSets(InsertAt(a, i, m), InsertAt(b, j, m))
    requires forall x: Backup :: x in a || x in b ==> !SameObject(x, m)
    ensures SameSets(a, b)
  {
    hide InsertAt;
    InsertedAt(a, i, m);
    InsertedAt(b, j, m);
    var x, y := InsertAt(a, i, m), InsertAt(b, j, m);
    assert SameObject(y[i], m) && SameObject(x[j], m);
    assert i < |b| ==> b[i] in b;
    assert j < |a| ==> a[j] in a;
    assert i == j;
    forall k | 0 <= k < |a|
      ensures Equal(a[k].base, b[k].base) && Equal(a[k].source, b[k].source)
    {
      var l := if k < i then k else k + 1;
      assert a[k] == x[l] && b[k] == y[l];
    }
  }

  // A list that lags behind with the new set lagged behind without it.
  lemma BehindWithout(a: seq<Backup>, i: nat, b: seq<Backup>, j: nat, m: Backup)
    requires i <= |a| && j <= |b| && SameSets(InsertAt(b, j, m), InsertAt(a, i, m)[1..])
    requires forall x: Backup :: x in a || x in b ==> !SameObject(x, m)
    ensures a != [] && i > 0 && SameSets(b, a[1..])
  {
    var x, y := InsertAt(a, i, m), InsertAt(b, j, m);
    InsertedAt(b, j, m);
    assert SameObject(x[j + 1], m) && a[j] in a;
    assert x[1..] == InsertAt(a[1..], i - 1, m);
    SameWithout(b, j, a[1..], i - 1, m);
  }

  lemma {:induction false} LeaderAt(dests: Destinations, r: Destinations) returns (i: nat)
    requires dests != [] && |r| == |dests| && forall k :: 0 <= k < |r| ==> |r[k]| == |dests[k]| + 1
    ensures i < |dests| && Leader(dests) == dests[i] && Leader(r) == r[i]
    decreases |dests|
  {
    i := |dests| - 1;
    if i > 0 {
      var k := LeaderAt(dests[..i], r[..i]);
      if |dests[i]| <= |Leader(dests[..i])| {
        i := k;
      }
    }
  }

  lemma NewAdds(dests: Destinations, m: Backup, r: Destinations, i: nat)
    requires IsNew(m, dests) && RecordedAll(dests, m, r) && i < |dests|
    ensures r[i] == InsertAt(dests[i], NotOlder(dests[i], m.base.time), m) && |r[i]| == |dests[i]| + 1
  {
    hide AddManifest;
    assert dests[i] in dests;
    NewIsInserted(dests[i], m);
    InsertedAt(dests[i], NotOlder(dests[i], m.base.time), m);
  }

  // Compared with destination l, destination i is where it was before the new set.
  lemma WasThere(dests: Destinations, m: Backup, r: Destinations, l: nat, i: nat)
    requires IsNew(m, dests) && RecordedAll(dests, m, r) && l < |dests| && i < |dests| && r[l] != []
    ensures SameSets(r[i], r[l]) ==> SameSets(dests[i], dests[l])
    ensures SameSets(r[i], r[l][1..]) ==>
      dests[l] != [] && r[l][0] == dests[l][0] && SameSets(dests[i], dests[l][1..])
  {
    hide AddManifest, SameSets, NotOlder;
    NewAdds(dests, m, r, l);
    NewAdds(dests, m, r, i);
    assert dests[l] in dests && dests[i] in dests;
    var p, q := NotOlder(dests[l], m.base.time), NotOlder(dests[i], m.base.time);
    if SameSets(r[i], r[l]) {
      SameWithout(dests[i], q, dests[l], p, m);
    }
    if SameSets(r[i], r[l][1..]) {
      BehindWithout(dests[l], p, dests[i], q, m);
    }
  }

  // Every destination has the leader's sets or lacks the newest, and one lacks it.
  predicate Lacking(dests: Destinations, leader: seq<Backup>)
    requires leader != []
  {
    && (forall b: seq<Backup> :: b in dests ==> SameSets(b, leader) || SameSets(b, leader[1..]))
    && exists b: seq<Backup> :: b in dests && !SameSets(b, leader)
  }

  lemma PartialWhen(dests: Destinations)
    ensures PartialSet(dests) ==
      var leader := Leader(dests);
      if leader != [] && Lacking(dests, leader) then Some(leader[0]) else None
  {
    hide SameSets, Leader;
  }

  lemma LackingBefore(dests: Destinations, m: Backup, r: Destinations, l: nat)
    requires IsNew(m, dests) && RecordedAll(dests, m, r) && l < |dests| && r[l] != [] && Lacking(r, r[l])
    ensures dests[l] != [] && r[l][0] == dests[l][0] && Lacking(dests, dests[l])
  {
    hide AddManifest, SameSets, IsNew;
    var late: seq<Backup> :| late in r && !SameSets(late, r[l]);
    var j :| 0 <= j < |r| && r[j] == late;
    WasThere(dests, m, r, l, j);
    forall b: seq<Backup> | b in dests
      ensures SameSets(b, dests[l]) || SameSets(b, dests[l][1..])
    {
      var i :| 0 <= i < |dests| && dests[i] == b;
      assert r[i] in r;
      WasThere(dests, m, r, l, i);
    }
    ShorterDiffers(dests[j], dests[l]);
    assert dests[j] in dests;
  }

  // A new set recorded everywhere leaves no set lacking that was not lacking before.
  lemma NewKeepsPartial(dests: Destinations, m: Backup, r: Destinations)
    requires dests != [] && IsNew(m, dests) && RecordedAll(dests, m, r)
    ensures PartialSet(r).Some? ==> PartialSet(dests) == PartialSet(r)
  {
    hide PartialSet, Lacking, Leader, IsNew, AddManifest;
    forall k | 0 <= k < |r|
      ensures |r[k]| == |dests[k]| + 1
    {
      NewAdds(dests, m, r, k);
    }
    var l := LeaderAt(dests, r);
    PartialWhen(dests);
    PartialWhen(r);
    if Lacking(r, r[l]) {
      LackingBefore(dests, m, r, l);
    }
  }

  lemma ShorterDiffers(b: seq<Backup>, leader: seq<Backup>)
    requires leader != [] && SameSets(b, leader[1..])
    ensures !SameSets(b, leader)
  {
  }

  // A new set in front of every list leaves none lacking.
  lemma NewestLeavesNone(dests: Destinations, m: Backup, r: Destinations)
    requires dests != [] && IsNew(m, dests) && |r| == |dests|
    requires forall i :: 0 <= i < |r| ==> r[i] == [m] + dests[i]
    ensures PartialSet(r).None?
  {
    hide SameSets;
    var leader := Leader(r);
    var l :| 0 <= l < |r| && r[l] == leader;
    assert leader[1..] == dests[l] && dests[l] in dests;
    forall b: seq<Backup> | b in r
      ensures !SameSets(b, leader[1..])
    {
      NotWithoutIt(b, dests[l], m);
    }
  }

  lemma NotWithoutIt(b: seq<Backup>, d: seq<Backup>, m: Backup)
    requires b != [] && b[0] == m && forall x: Backup :: x in d ==> !SameObject(x, m)
    ensures !SameSets(b, d)
  {
    if |b| == |d| {
      assert d[0] in d;
    }
  }
}
