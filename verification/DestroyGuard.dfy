// The guard refuses no restore without a reason: what it refuses can destroy something.
module DestroyGuard {
  import opened Common
  import opened Planner
  import opened Destroy

  // The chain can be received: a full needs a target without snapshots, an incremental its source,
  // and no name may be taken.
  predicate CanBeReceived(chain: seq<Received>, d: Dataset)
    requires chain != []
  {
    if FullStream(chain[0]) then d.snaps == [] else Applicable(chain, d)
  }

  // Some target that looks as the guard saw it, and some run of the chain into it after which
  // something other than the chain's source is gone.
  ghost predicate CanLose(chain: seq<Received>, t: Target)
    requires chain != []
  {
    exists d: Dataset, states: seq<Dataset> ::
      && Describes(t, d) && IsRun(chain, states) && states[0] == d
      && !KeepsOthers(d, states[|states| - 1], chain[0].source)
  }

  // ---- A replaced dataset ----

  lemma LosesReplaced(chain: seq<Received>, t: Target, d: Dataset)
    requires IsChain(chain) && Describes(t, d) && FullStream(chain[0]) && t.present && d.snaps == []
    ensures CanLose(chain, t)
  {
    var after := Dataset(true, [chain[0].base], d.below, d.generation + 1);
    assert Receives(d, chain[0], after);
    var states := [d, after];
    assert IsRun(chain, states);
  }

  // ---- A newer or tied snapshot ----

  function Swapped(snaps: seq<SnapshotInfo>, i: nat, j: nat): (r: seq<SnapshotInfo>)
    requires i < |snaps| && j < |snaps|
  {
    snaps[i := snaps[j]][j := snaps[i]]
  }

  lemma SwapKeeps(t: Target, d: Dataset, i: nat, j: nat)
    requires Describes(t, d) && i < |d.snaps| && j < |d.snaps| && d.snaps[i].time == d.snaps[j].time
    ensures Describes(t, d.(snaps := Swapped(d.snaps, i, j)))
  {
    var a, b := d.snaps, Swapped(d.snaps, i, j);
    forall s
      ensures s in a <==> s in b
    {
      if s in a {
        var k :| 0 <= k < |a| && a[k] == s;
        assert b[if k == i then j else if k == j then i else k] == s;
      }
      if s in b {
        var k :| 0 <= k < |b| && b[k] == s;
        assert a[if k == i then j else if k == j then i else k] == s;
      }
    }
  }

  // The source may be created before a snapshot that is not older.
  lemma SourceFirst(t: Target, d: Dataset, source: SnapshotInfo, s: SnapshotInfo) returns (e: Dataset, k: nat, j: nat)
    requires Describes(t, d) && s in d.snaps && s.name != source.name && s.time >= source.time
    requires exists x :: x in d.snaps && Equal(x, source)
    ensures Describes(t, e) && e == d.(snaps := e.snaps) && k < j < |e.snaps|
    ensures Equal(e.snaps[k], source) && e.snaps[j] == s
    ensures forall x :: x in e.snaps ==> x in d.snaps
  {
    k :| k < |d.snaps| && Equal(d.snaps[k], source);
    j :| j < |d.snaps| && d.snaps[j] == s;
    e := d;
    if j < k {
      SwapKeeps(t, d, j, k);
      e := d.(snaps := Swapped(d.snaps, j, k));
      k, j := j, k;
      forall x | x in e.snaps
        ensures x in d.snaps
      {
        assert SnapshotOf(t.local, x);
      }
    }
  }

  lemma LosesNewer(chain: seq<Received>, t: Target, d: Dataset, s: SnapshotInfo)
    requires IsChain(chain) && Describes(t, d) && !FullStream(chain[0]) && Applicable(chain, d)
    requires SnapshotOf(t.local, s) && s.name != chain[0].source.name && s.time >= chain[0].source.time
    ensures CanLose(chain, t)
  {
    hide Describes;
    assert s in d.snaps by { SeenIsThere(t, d, s); }
    var b := chain[0];
    var e, k, j := SourceFirst(t, d, b.source, s);
    var after := e.(snaps := e.snaps[..k + 1] + [b.base]);
    BaseIsNew(chain, d);
    DescribedIsValid(t, e);
    assert Receives(e, b, after) by {
      assert after.snaps[k] == e.snaps[k];
      assert forall i :: 0 <= i <= k ==> after.snaps[i] == e.snaps[i];
    }
    assert s !in after.snaps by {
      assert forall i :: 0 <= i <= k ==> e.snaps[i].name != e.snaps[j].name;
    }
    assert IsRun(chain, [e, after]);
  }

  lemma SeenIsThere(t: Target, d: Dataset, s: SnapshotInfo)
    requires Describes(t, d)
    ensures SnapshotOf(t.local, s) <==> s in d.snaps
  {
  }

  lemma DescribedIsValid(t: Target, d: Dataset)
    requires Describes(t, d)
    ensures ValidDataset(d) && InOrder(d.snaps) && t.present == d.present
  {
  }

  lemma BaseIsNew(chain: seq<Received>, d: Dataset)
    requires Applicable(chain, d)
    ensures forall x :: x in d.snaps ==> x.name != chain[0].base.name
  {
    var all := d.snaps + Bases(chain);
    forall x | x in d.snaps
      ensures x.name != chain[0].base.name
    {
      var i :| 0 <= i < |d.snaps| && d.snaps[i] == x;
      assert all[i] == x && all[|d.snaps|] == chain[0].base;
    }
  }

  // ---- What a replication stream drops ----

  predicate NothingNewer(chain: seq<Received>, d: Dataset)
    requires chain != []
  {
    forall s :: s in d.snaps && s.name != chain[0].source.name ==> s.time < chain[0].source.time
  }

  // All that a replication step leaves: its source, its base, and no dataset below.
  function Bare(chain: seq<Received>, d: Dataset, r: nat): (e: Dataset)
    requires r < |chain| && d.snaps != []
  {
    var grown := Grown(chain, d, r).snaps;
    d.(snaps := [grown[|grown| - 1], chain[r].base], below := {})
  }

  lemma LastGrown(chain: seq<Received>, d: Dataset, r: nat)
    requires IsChain(chain) && Applicable(chain, d) && ValidDataset(d) && InOrder(d.snaps) && NothingNewer(chain, d)
    requires r < |chain|
    ensures d.snaps != []
    ensures var grown := Grown(chain, d, r).snaps;
      && |grown| == |d.snaps| + r
      && Equal(grown[|grown| - 1], chain[r].source)
      && (r == 0 ==> grown[|grown| - 1].name == chain[0].source.name)
      && (r > 0 ==> grown[|grown| - 1] == chain[r - 1].base)
      && grown + [chain[r].base] == (d.snaps + Bases(chain))[..|d.snaps| + r + 1]
  {
    var i: nat :| i < |d.snaps| && Equal(d.snaps[i], chain[0].source);
    SourceIsLast(d, chain[0].source, i);
    assert Grown(chain, d, r).snaps + [chain[r].base] == d.snaps + Bases(chain)[..r + 1];
  }

  lemma BareReceived(chain: seq<Received>, d: Dataset, r: nat)
    requires IsChain(chain) && Applicable(chain, d) && ValidDataset(d) && InOrder(d.snaps) && NothingNewer(chain, d)
    requires r < |chain| && chain[r].replication
    ensures d.snaps != [] && Receives(Grown(chain, d, r), chain[r], Bare(chain, d, r))
  {
    LastGrown(chain, d, r);
    var before, bare := Grown(chain, d, r), Bare(chain, d, r);
    var k, all := |before.snaps| - 1, d.snaps + Bases(chain);
    assert all[k] == before.snaps[k] && all[k + 1] == chain[r].base;
    assert bare.snaps[0] == before.snaps[k] && bare.snaps[1] == chain[r].base;
    assert before.snaps[k] in bare.snaps;
  }

  // It drops what is older than the source.
  lemma BareDrops(chain: seq<Received>, d: Dataset, r: nat, s: SnapshotInfo)
    requires IsChain(chain) && Applicable(chain, d) && ValidDataset(d) && InOrder(d.snaps) && NothingNewer(chain, d)
    requires r < |chain| && s in d.snaps && s.name != chain[0].source.name && d.snaps != []
    ensures s !in Bare(chain, d, r).snaps
  {
    LastGrown(chain, d, r);
    var all := d.snaps + Bases(chain);
    var i: nat :| i < |d.snaps| && d.snaps[i] == s;
    assert all[i] == s && all[|d.snaps| + r] == chain[r].base;
    assert r > 0 ==> all[|d.snaps| + r - 1] == chain[r - 1].base;
  }

  lemma BareRun(chain: seq<Received>, t: Target, d: Dataset, r: nat)
    requires IsChain(chain) && Describes(t, d) && Applicable(chain, d) && NothingNewer(chain, d)
    requires r < |chain| && chain[r].replication
    requires d.below != {} || exists s :: s in d.snaps && s.name != chain[0].source.name
    ensures CanLose(chain, t)
  {
    hide Receives, Grown, Bare, Applicable, InOrder, DistinctNames;
    DescribedIsValid(t, d);
    BareReceived(chain, d, r);
    var grown := seq(r + 1, n requires 0 <= n < r + 1 => Grown(chain, d, n));
    var states := grown + [Bare(chain, d, r)];
    forall i | 0 <= i < |states| - 1
      ensures Receives(states[i], chain[i], states[i + 1])
    {
      if i < r {
        GrowsBy(chain, d, i);
      }
    }
    GrownFirst(chain, d);
    assert IsRun(chain, states);
    BareLoses(chain, d, r);
  }

  lemma BareLoses(chain: seq<Received>, d: Dataset, r: nat)
    requires IsChain(chain) && Applicable(chain, d) && ValidDataset(d) && InOrder(d.snaps) && NothingNewer(chain, d)
    requires r < |chain| && d.snaps != []
    requires d.below != {} || exists s :: s in d.snaps && s.name != chain[0].source.name
    ensures !KeepsOthers(d, Bare(chain, d, r), chain[0].source)
  {
    hide Applicable, InOrder, DistinctNames;
    if s :| s in d.snaps && s.name != chain[0].source.name {
      BareDrops(chain, d, r, s);
    } else {
      var x :| x in d.below;
      assert x !in Bare(chain, d, r).below;
    }
  }

  lemma LosesUnderReplication(chain: seq<Received>, t: Target, d: Dataset)
    requires IsChain(chain) && Describes(t, d) && !FullStream(chain[0]) && Applicable(chain, d)
    requires NothingNewer(chain, d) && ReplicationIncremental(chain)
    requires (exists s :: SnapshotOf(t.local, s) && s.name != chain[0].source.name)
      || t.below.None? || t.below.value != []
    ensures CanLose(chain, t)
  {
    hide CanLose, DistinctNames, InOrder;
    var r: nat :| r < |chain| && chain[r].replication;
    if s :| SnapshotOf(t.local, s) && s.name != chain[0].source.name {
      BareRun(chain, t, d, r);
    } else {
      var e := d.(below := {if t.below.None? then "child" else t.below.value[0]});
      BareRun(chain, t, e, r);
    }
  }

  // ---- The guard is exact ----

  // For a chain that can be received: the guard refuses exactly when some run into some target that
  // looks so destroys something, other than the snapshot the chain starts from.
  lemma GuardIsExact(chain: seq<Received>, t: Target, d: Dataset)
    requires IsChain(chain) && Describes(t, d) && CanBeReceived(chain, d)
    ensures MayDestroy(chain, t) <==> CanLose(chain, t)
  {
    hide KeepsOthers, Applicable, DistinctNames, InOrder;
    if CanLose(chain, t) && !MayDestroy(chain, t) {
      var e: Dataset, states: seq<Dataset> :|
        && Describes(t, e) && IsRun(chain, states) && states[0] == e
        && !KeepsOthers(e, states[|states| - 1], chain[0].source);
      GuardKeepsOthers(chain, t, states, |states| - 1);
      assert false;
    }
    if MayDestroy(chain, t) {
      RefusedCanLose(chain, t, d);
    }
  }

  lemma RefusedCanLose(chain: seq<Received>, t: Target, d: Dataset)
    requires IsChain(chain) && Describes(t, d) && CanBeReceived(chain, d) && MayDestroy(chain, t)
    ensures CanLose(chain, t)
  {
    hide CanLose, DistinctNames, InOrder;
    if FullStream(chain[0]) {
      NoSnapshots(t, d);
      LosesReplaced(chain, t, d);
    } else if s :| SnapshotOf(t.local, s) && s.name != chain[0].source.name && s.time >= chain[0].source.time {
      LosesNewer(chain, t, d, s);
    } else {
      forall s | s in d.snaps && s.name != chain[0].source.name
        ensures s.time < chain[0].source.time
      {
        SeenIsThere(t, d, s);
      }
      LosesUnderReplication(chain, t, d);
    }
  }

  lemma NoSnapshots(t: Target, d: Dataset)
    requires Describes(t, d) && d.snaps == []
    ensures forall s :: !SnapshotOf(t.local, s)
  {
    forall s
      ensures !SnapshotOf(t.local, s)
    {
      SeenIsThere(t, d, s);
    }
  }

  // A target that is not there is never refused.
  lemma AbsentIsNeverRefused(chain: seq<Received>, t: Target, d: Dataset)
    requires chain != [] && Describes(t, d) && !t.present
    ensures !MayDestroy(chain, t)
  {
    NoSnapshots(t, d);
  }
}
