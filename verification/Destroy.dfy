// receive -F: what zfs destroys, and the guard that refuses a restore that would.
module Destroy {
  import opened Common
  import opened Planner

  // A backup as it is received.
  datatype Received = Received(base: SnapshotInfo, source: SnapshotInfo, replication: bool)

  predicate FullStream(b: Received) {
    b.source.name == ""
  }

  // ---- The guard ----

  // What the guard knows of the target. below is none when the datasets could not be listed.
  datatype Target = Target(present: bool, local: seq<SnapshotInfo>, below: Option<seq<string>>)

  predicate SnapshotOf(local: seq<SnapshotInfo>, s: SnapshotInfo) {
    s in local && !s.bookmark
  }

  predicate ReplicationIncremental(chain: seq<Received>) {
    exists b :: b in chain && b.replication && !FullStream(b)
  }

  // What a forced receive of the chain may destroy, as the guard judges it.
  ghost predicate MayDestroy(chain: seq<Received>, t: Target)
    requires chain != []
  {
    var source := chain[0].source;
    || (FullStream(chain[0]) && t.present && forall s :: s in t.local ==> s.bookmark)
    || (!FullStream(chain[0]) && exists s :: SnapshotOf(t.local, s) && s.name != source.name && s.time >= source.time)
    || (ReplicationIncremental(chain) && (
        || (exists s :: SnapshotOf(t.local, s) && s.name != source.name && s.time < source.time)
        || (t.present && (t.below.None? || t.below.value != []))))
  }

  method SnapshotsNotOlder(
    snaps: seq<SnapshotInfo>, source: SnapshotInfo)
    returns (newer: seq<string>, tied: seq<string>)
    ensures newer != [] <==> exists s :: s in snaps && s.name != source.name && s.time > source.time
    ensures tied != [] <==> exists s :: s in snaps && s.name != source.name && s.time == source.time
  {
    newer, tied := [], [];
    for i := 0 to |snaps|
      invariant newer != [] <==> exists k :: 0 <= k < i && snaps[k].name != source.name && snaps[k].time > source.time
      invariant tied != [] <==> exists k :: 0 <= k < i && snaps[k].name != source.name && snaps[k].time == source.time
    {
      var s := snaps[i];
      if s.name != source.name {
        if s.time > source.time {
          newer := newer + [s.name];
        } else if s.time == source.time {
          tied := tied + [s.name];
        }
      }
    }
  }

  method ReplicationLoss(snaps: seq<SnapshotInfo>, source: SnapshotInfo, t: Target) returns (loss: seq<string>)
    ensures loss != [] <==>
      || (exists s :: s in snaps && s.name != source.name && s.time < source.time)
      || (t.present && (t.below.None? || t.below.value != []))
  {
    var older: seq<string> := [];
    for i := 0 to |snaps|
      invariant older != [] <==> exists k :: 0 <= k < i && snaps[k].name != source.name && snaps[k].time < source.time
    {
      if snaps[i].name != source.name && snaps[i].time < source.time {
        older := older + [snaps[i].name];
      }
    }
    loss := older;
    if t.present {
      loss := loss + (if t.below.None? then ["unknown"] else t.below.value);
    }
  }

  // refuseDestroy: whether the receive is refused.
  method RefuseDestroy(force: bool, allowDestroy: bool, chain: seq<Received>, t: Target) returns (refused: bool)
    ensures refused <==> force && !allowDestroy && chain != [] && MayDestroy(chain, t)
  {
    if !force || allowDestroy || chain == [] {
      return false;
    }
    var snaps: seq<SnapshotInfo> := [];
    for i := 0 to |t.local|
      invariant forall s :: s in snaps <==> SnapshotOf(t.local[..i], s)
    {
      assert t.local[..i + 1] == t.local[..i] + [t.local[i]];
      if !t.local[i].bookmark {
        snaps := snaps + [t.local[i]];
      }
    }
    assert t.local[..|t.local|] == t.local;
    var source := chain[0].source;
    var loss: seq<string> := [];
    if FullStream(chain[0]) {
      if t.present && |snaps| == 0 {
        loss := ["replaced"];
      }
      assert |snaps| == 0 <==> forall s :: s in t.local ==> s.bookmark by {
        assert |snaps| != 0 ==> snaps[0] in snaps;
        assert forall s :: s in t.local && !s.bookmark ==> s in snaps;
      }
    } else {
      var newer, tied := SnapshotsNotOlder(snaps, source);
      loss := newer + tied;
    }
    if ReplicationIncremental(chain) {
      var more := ReplicationLoss(snaps, source, t);
      loss := loss + more;
    }
    return loss != [];
  }

  // ---- zfs receive -F ----

  // A dataset as zfs has it: its snapshots from the oldest to the newest, the datasets below it,
  // and a generation that a replaced dataset does not keep.
  datatype Dataset = Dataset(present: bool, snaps: seq<SnapshotInfo>, below: set<string>, generation: nat)

  // Creation order; times are whole seconds, so neighbours may tie.
  predicate InOrder(snaps: seq<SnapshotInfo>) {
    forall i, j :: 0 <= i < j < |snaps| ==> snaps[i].time <= snaps[j].time
  }

  predicate ValidDataset(d: Dataset) {
    DistinctNames(d.snaps) && (!d.present ==> d.snaps == [] && d.below == {})
  }

  predicate EndsWith(snaps: seq<SnapshotInfo>, base: SnapshotInfo) {
    snaps != [] && Equal(snaps[|snaps| - 1], base)
  }

  // A full stream creates the dataset, or replaces one without snapshots; any other is refused.
  predicate ReceivesFull(d: Dataset, b: Received, after: Dataset) {
    d.snaps == [] && after.present && EndsWith(after.snaps, b.base) && after.generation == d.generation + 1
  }

  // An incremental needs its source; what is newer than the source is destroyed. A replication
  // stream also destroys any snapshot or dataset that the sender lacks, other than the source.
  predicate ReceivesIncremental(d: Dataset, b: Received, after: Dataset) {
    && d.present && after.present && after.generation == d.generation && EndsWith(after.snaps, b.base)
    && exists k :: 0 <= k < |d.snaps| && Equal(d.snaps[k], b.source) &&
        if b.replication then d.snaps[k] in after.snaps
        else after.below == d.below && forall i :: 0 <= i <= k ==> d.snaps[i] in after.snaps
  }

  predicate Receives(d: Dataset, b: Received, after: Dataset) {
    && ValidDataset(after)
    && if FullStream(b) then ReceivesFull(d, b, after) else ReceivesIncremental(d, b, after)
  }

  // The steps of a chain, as far as they succeed.
  predicate IsRun(chain: seq<Received>, states: seq<Dataset>) {
    && 1 <= |states| <= |chain| + 1
    && ValidDataset(states[0])
    && forall i :: 0 <= i < |states| - 1 ==> Receives(states[i], chain[i], states[i + 1])
  }

  // The links of a chain: each later backup is an incremental from the one before.
  predicate IsChain(chain: seq<Received>) {
    chain != [] && forall i :: 1 <= i < |chain| ==> !FullStream(chain[i]) && Equal(chain[i].source, chain[i - 1].base)
  }

  // What the guard was shown is the target before the first step.
  ghost predicate Describes(t: Target, d: Dataset) {
    && t.present == d.present && InOrder(d.snaps) && ValidDataset(d)
    && (forall s :: s in d.snaps ==> SnapshotOf(t.local, s))
    && (forall s :: SnapshotOf(t.local, s) ==> s in d.snaps)
    && (t.below.Some? ==> forall x :: x in d.below ==> x in t.below.value)
  }

  // Nothing the target had is gone.
  predicate Keeps(before: Dataset, after: Dataset) {
    before.present ==>
      && after.present && after.generation == before.generation && before.below <= after.below
      && forall s :: s in before.snaps ==> s in after.snaps
  }

  // The same, but for the snapshot the chain starts from.
  predicate KeepsOthers(before: Dataset, after: Dataset, source: SnapshotInfo) {
    before.present ==>
      && after.present && after.generation == before.generation && before.below <= after.below
      && forall s :: s in before.snaps && !Equal(s, source) ==> s in after.snaps
  }

  // ---- The guard is sound ----

  // What a chain the guard passes starts from.
  lemma PassedTarget(chain: seq<Received>, t: Target, d: Dataset)
    requires IsChain(chain) && Describes(t, d) && !MayDestroy(chain, t) && d.present
    ensures FullStream(chain[0]) ==> d.snaps != []
    ensures !FullStream(chain[0]) ==> forall s :: s in d.snaps && s.name != chain[0].source.name ==>
      s.time < chain[0].source.time
    ensures ReplicationIncremental(chain) ==> d.below == {}
    ensures ReplicationIncremental(chain) && !FullStream(chain[0]) ==> forall s :: s in d.snaps ==>
      s.name == chain[0].source.name
  {
    if FullStream(chain[0]) {
      var s :| s in t.local && !s.bookmark;
      assert SnapshotOf(t.local, s);
    }
    forall s | s in d.snaps
      ensures SnapshotOf(t.local, s)
    {
    }
  }

  // Nothing of the target is newer than the chain's source.
  lemma SourceIsLast(d: Dataset, source: SnapshotInfo, k: nat)
    requires DistinctNames(d.snaps) && InOrder(d.snaps) && k < |d.snaps| && Equal(d.snaps[k], source)
    requires forall s :: s in d.snaps && s.name != source.name ==> s.time < source.time
    ensures k == |d.snaps| - 1
  {
    var last := d.snaps[|d.snaps| - 1];
    assert last in d.snaps;
  }

  // The first step destroys nothing.
  lemma FirstStepKeeps(chain: seq<Received>, t: Target, d: Dataset, after: Dataset)
    requires IsChain(chain) && Describes(t, d) && !MayDestroy(chain, t) && Receives(d, chain[0], after)
    ensures Keeps(d, after)
  {
    if d.present {
      PassedTarget(chain, t, d);
      var b := chain[0];
      if !FullStream(b) {
        var k: nat :| k < |d.snaps| && Equal(d.snaps[k], b.source) &&
          if b.replication then d.snaps[k] in after.snaps
          else after.below == d.below && forall i :: 0 <= i <= k ==> d.snaps[i] in after.snaps;
        SourceIsLast(d, b.source, k);
        if b.replication {
          assert ReplicationIncremental(chain);
          OnlySource(d, b.source, k);
        }
      }
    }
  }

  lemma OnlySource(d: Dataset, source: SnapshotInfo, k: nat)
    requires DistinctNames(d.snaps) && k < |d.snaps| && Equal(d.snaps[k], source)
    requires forall s :: s in d.snaps ==> s.name == source.name
    ensures forall s :: s in d.snaps ==> s == d.snaps[k]
  {
    forall s | s in d.snaps
      ensures s == d.snaps[k]
    {
      var i :| 0 <= i < |d.snaps| && d.snaps[i] == s;
    }
  }

  // A later step continues from the newest snapshot: without replication it destroys nothing.
  lemma LaterStepKeeps(d: Dataset, previous: Received, b: Received, after: Dataset)
    requires ValidDataset(d) && EndsWith(d.snaps, previous.base) && !FullStream(b) && Equal(b.source, previous.base)
    requires Receives(d, b, after) && !b.replication
    ensures Keeps(d, after)
  {
    var last := |d.snaps| - 1;
    var k :| 0 <= k < |d.snaps| && Equal(d.snaps[k], b.source) &&
      after.below == d.below && forall i :: 0 <= i <= k ==> d.snaps[i] in after.snaps;
    assert k == last by {
      assert d.snaps[k].name == d.snaps[last].name;
    }
  }

  lemma {:induction false} RunEnds(chain: seq<Received>, states: seq<Dataset>, i: nat)
    requires IsChain(chain) && IsRun(chain, states) && 1 <= i < |states|
    ensures ValidDataset(states[i]) && EndsWith(states[i].snaps, chain[i - 1].base) && states[i].present
  {
    assert Receives(states[i - 1], chain[i - 1], states[i]);
  }

  predicate LaterReplication(chain: seq<Received>) {
    exists i :: 1 <= i < |chain| && chain[i].replication
  }

  // If the guard passes, no step of the chain destroys anything the target had, other than the
  // snapshot the chain starts from.
  lemma {:induction false} GuardKeepsOthers(chain: seq<Received>, t: Target, states: seq<Dataset>, n: nat)
    requires IsChain(chain) && IsRun(chain, states) && Describes(t, states[0]) && !MayDestroy(chain, t) && n < |states|
    ensures KeepsOthers(states[0], states[n], chain[0].source)
  {
    if n == 1 {
      FirstStepKeeps(chain, t, states[0], states[1]);
    } else if n > 1 {
      GuardKeepsOthers(chain, t, states, n - 1);
      RunEnds(chain, states, n - 1);
      var b := chain[n - 1];
      assert Receives(states[n - 1], b, states[n]);
      if !b.replication {
        LaterStepKeeps(states[n - 1], chain[n - 2], b, states[n]);
      } else if states[0].present {
        assert b in chain;
        PassedTarget(chain, t, states[0]);
        assert Receives(states[0], chain[0], states[1]);
        NothingElse(chain, states[0]);
      }
    }
  }

  // With a replication step the guard passes only a target that has the source alone.
  lemma NothingElse(chain: seq<Received>, d: Dataset)
    requires chain != [] && !FullStream(chain[0]) && DistinctNames(d.snaps)
    requires forall s :: s in d.snaps ==> s.name == chain[0].source.name
    requires exists s :: s in d.snaps && Equal(s, chain[0].source)
    ensures forall s :: s in d.snaps ==> Equal(s, chain[0].source)
  {
    var k: nat :| k < |d.snaps| && Equal(d.snaps[k], chain[0].source);
    OnlySource(d, chain[0].source, k);
  }

  // Without a later replication step it keeps the source too.
  lemma {:induction false} GuardKeepsAll(chain: seq<Received>, t: Target, states: seq<Dataset>, n: nat)
    requires IsChain(chain) && IsRun(chain, states) && Describes(t, states[0]) && !MayDestroy(chain, t) && n < |states|
    requires !LaterReplication(chain)
    ensures Keeps(states[0], states[n])
  {
    if n == 1 {
      FirstStepKeeps(chain, t, states[0], states[1]);
    } else if n > 1 {
      GuardKeepsAll(chain, t, states, n - 1);
      RunEnds(chain, states, n - 1);
      assert Receives(states[n - 1], chain[n - 1], states[n]);
      LaterStepKeeps(states[n - 1], chain[n - 2], chain[n - 1], states[n]);
    }
  }

  // ---- The one snapshot the guard does not protect ----

  function Bases(chain: seq<Received>): (r: seq<SnapshotInfo>)
    ensures |r| == |chain| && forall i :: 0 <= i < |chain| ==> r[i] == chain[i].base
  {
    seq(|chain|, i requires 0 <= i < |chain| => chain[i].base)
  }

  // The chain can be received: its source is there, and no name is taken.
  predicate Applicable(chain: seq<Received>, d: Dataset) {
    && chain != [] && !FullStream(chain[0]) && d.present
    && (exists s :: s in d.snaps && Equal(s, chain[0].source))
    && DistinctNames(d.snaps + Bases(chain))
  }

  // The target after n steps that destroyed nothing.
  function Grown(chain: seq<Received>, d: Dataset, n: nat): (r: Dataset)
    requires n <= |chain|
  {
    d.(snaps := d.snaps + Bases(chain)[..n])
  }

  lemma GrownFirst(chain: seq<Received>, d: Dataset)
    ensures Grown(chain, d, 0) == d
  {
    assert d.snaps + Bases(chain)[..0] == d.snaps;
  }

  lemma DistinctPrefix(a: seq<SnapshotInfo>, b: seq<SnapshotInfo>, n: nat)
    requires DistinctNames(a + b) && n <= |b|
    ensures DistinctNames(a + b[..n])
  {
    var all, part := a + b, a + b[..n];
    forall i, j | 0 <= i < j < |part|
      ensures part[i].name != part[j].name
    {
      assert part[i] == all[i] && part[j] == all[j];
    }
  }

  lemma GrowsBy(chain: seq<Received>, d: Dataset, n: nat)
    requires IsChain(chain) && Applicable(chain, d) && ValidDataset(d) && n < |chain|
    requires InOrder(d.snaps)
    requires forall s :: s in d.snaps && s.name != chain[0].source.name ==> s.time < chain[0].source.time
    ensures Receives(Grown(chain, d, n), chain[n], Grown(chain, d, n + 1))
  {
    var before, after, b := Grown(chain, d, n), Grown(chain, d, n + 1), chain[n];
    DistinctPrefix(d.snaps, Bases(chain), n + 1);
    assert after.snaps == before.snaps + [b.base];
    var k := |before.snaps| - 1;
    if n == 0 {
      var i: nat :| i < |d.snaps| && Equal(d.snaps[i], b.source);
      SourceIsLast(d, b.source, i);
      assert before.snaps == d.snaps;
    } else {
      assert before.snaps[k] == chain[n - 1].base;
    }
    assert Equal(before.snaps[k], b.source);
    assert forall i :: 0 <= i <= k ==> before.snaps[i] == after.snaps[i];
  }

  // A replication stream whose sender has nothing but its two snapshots.
  lemma LosesSource(chain: seq<Received>, d: Dataset, r: nat)
    requires IsChain(chain) && Applicable(chain, d) && 1 <= r < |chain| && chain[r].replication
    ensures var bare := d.(snaps := [chain[r - 1].base, chain[r].base]);
      Receives(Grown(chain, d, r), chain[r], bare) && !Keeps(d, bare)
  {
    var before, bare := Grown(chain, d, r), d.(snaps := [chain[r - 1].base, chain[r].base]);
    var all, n := d.snaps + Bases(chain), |d.snaps|;
    assert all[n + r - 1] == chain[r - 1].base && all[n + r] == chain[r].base;
    assert before.snaps[n + r - 1] == chain[r - 1].base;
    var i: nat :| i < |d.snaps| && Equal(d.snaps[i], chain[0].source);
    assert all[i] == d.snaps[i];
    assert d.snaps[i] in d.snaps && d.snaps[i] !in bare.snaps;
  }

  lemma SourceCanBeLost(chain: seq<Received>, t: Target, d: Dataset)
    requires IsChain(chain) && Describes(t, d) && !MayDestroy(chain, t) && Applicable(chain, d)
    requires LaterReplication(chain)
    ensures exists states: seq<Dataset> :: IsRun(chain, states) && states[0] == d && !Keeps(d, states[|states| - 1])
  {
    hide Receives, Keeps, MayDestroy, Grown, ReplicationIncremental, DistinctNames, InOrder;
    PassedTarget(chain, t, d);
    var r: nat :| 1 <= r < |chain| && chain[r].replication;
    var grown := seq(r + 1, n requires 0 <= n < r + 1 => Grown(chain, d, n));
    var states := grown + [d.(snaps := [chain[r - 1].base, chain[r].base])];
    forall i | 0 <= i < |states| - 1
      ensures Receives(states[i], chain[i], states[i + 1])
    {
      if i < r {
        GrowsBy(chain, d, i);
      } else {
        LosesSource(chain, d, r);
      }
    }
    LosesSource(chain, d, r);
    GrownFirst(chain, d);
    assert IsRun(chain, states);
  }

  // For a chain that applies: the guard protects everything in every run exactly when no step
  // after the first is a replication stream.
  lemma GuardSoundIff(chain: seq<Received>, t: Target, d: Dataset)
    requires IsChain(chain) && Describes(t, d) && !MayDestroy(chain, t) && Applicable(chain, d)
    ensures (forall states: seq<Dataset> :: IsRun(chain, states) && states[0] == d ==> Keeps(d, states[|states| - 1]))
      <==> !LaterReplication(chain)
  {
    if LaterReplication(chain) {
      SourceCanBeLost(chain, t, d);
    } else {
      forall states: seq<Dataset> | IsRun(chain, states) && states[0] == d
        ensures Keeps(d, states[|states| - 1])
      {
        GuardKeepsAll(chain, t, states, |states| - 1);
      }
    }
  }

  // A chain that starts with a full: the guard protects everything in every run.
  lemma FullChainKeepsAll(chain: seq<Received>, t: Target, states: seq<Dataset>)
    requires IsChain(chain) && FullStream(chain[0]) && IsRun(chain, states) && Describes(t, states[0])
    requires !MayDestroy(chain, t)
    ensures Keeps(states[0], states[|states| - 1])
  {
    if states[0].present {
      PassedTarget(chain, t, states[0]);
      assert |states| > 1 ==> Receives(states[0], chain[0], states[1]);
    }
  }

  // ---- An example ----

  const Three := [
    Received(SnapshotInfo("b", 2, false), SnapshotInfo("a", 1, false), false),
    Received(SnapshotInfo("c", 3, false), SnapshotInfo("b", 2, false), true)]

  // A plain incremental from a and a replication incremental after it, into a target that has a
  // alone: the guard passes, and a can be destroyed.
  lemma GuardMissesSource()
    ensures var a := SnapshotInfo("a", 1, false);
      var t, d := Target(true, [a], Some([])), Dataset(true, [a], {}, 0);
      && IsChain(Three) && Describes(t, d) && !MayDestroy(Three, t)
      && exists states: seq<Dataset> :: IsRun(Three, states) && states[0] == d && !Keeps(d, states[|states| - 1])
  {
    var a := SnapshotInfo("a", 1, false);
    var t, d := Target(true, [a], Some([])), Dataset(true, [a], {}, 0);
    assert a in d.snaps && Equal(a, Three[0].source);
    assert d.snaps + Bases(Three) == [a, Three[0].base, Three[1].base];
    assert Three[1].replication;
    SourceCanBeLost(Three, t, d);
  }
}
