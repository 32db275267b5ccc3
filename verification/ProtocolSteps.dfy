// Every step of the protocol keeps the invariant; so every run does.
module ProtocolSteps {
  import opened Common
  import opened Manifests
  import opened Resume
  import opened Protocol
  import opened ProtocolInvariant

  // ---- Lists of recorded volumes ----

  lemma {:induction false} RecordedIn(cuts: seq<Cut>, v: VolumeInfo)
    ensures v in RecordedInfos(cuts) <==> exists i :: 0 <= i < |cuts| && cuts[i].recorded && cuts[i].info == v
  {
    if cuts != [] {
      var init := cuts[..|cuts| - 1];
      RecordedIn(init, v);
      assert cuts == init + [cuts[|cuts| - 1]];
      if v in RecordedInfos(cuts) && v !in RecordedInfos(init) {
        assert cuts[|cuts| - 1].info == v;
      }
      if i :| 0 <= i < |cuts| && cuts[i].recorded && cuts[i].info == v {
        assert i < |init| ==> init[i] == cuts[i];
      }
    }
  }

  lemma {:induction false} RecordedUnchanged(a: seq<Cut>, b: seq<Cut>)
    requires |a| == |b|
    requires forall i :: 0 <= i < |a| ==> a[i].info == b[i].info && a[i].recorded == b[i].recorded
    ensures RecordedInfos(a) == RecordedInfos(b)
  {
    if a != [] {
      RecordedUnchanged(a[..|a| - 1], b[..|b| - 1]);
    }
  }

  lemma {:induction false} RecordedAll(cuts: seq<Cut>)
    requires AllRecorded(cuts)
    ensures |RecordedInfos(cuts)| == |cuts|
    ensures forall i :: 0 <= i < |cuts| ==> RecordedInfos(cuts)[i] == cuts[i].info
  {
    if cuts != [] {
      RecordedAll(cuts[..|cuts| - 1]);
    }
  }

  lemma {:induction false} RecordedAscending(cuts: seq<Cut>)
    requires forall i, j :: 0 <= i < j < |cuts| ==> cuts[i].info.number < cuts[j].info.number
    ensures Ascending(RecordedInfos(cuts))
  {
    if cuts != [] {
      var init := cuts[..|cuts| - 1];
      RecordedAscending(init);
      forall k | 0 <= k < |RecordedInfos(init)|
        ensures RecordedInfos(init)[k].number < cuts[|cuts| - 1].info.number
      {
        RecordedIn(init, RecordedInfos(init)[k]);
        assert RecordedInfos(init)[k] in RecordedInfos(init);
      }
    }
  }

  // Whatever subset of the cut volumes is recorded, the manifest saved for it is genuine, and
  // the one saved when all are recorded and the stream ended is genuine as a final one.
  lemma ListedGenuine(w: World, run: Run, send: Send, final: bool)
    requires SendGenuine(w, run, send)
    requires final ==> send.ended && AllRecorded(send.cuts)
    ensures Genuine(w, ManifestOf(run, ListedVolumes(send), final))
  {
    var plains, blobs :| SendBy(w, run, send, plains, blobs);
    var m := ManifestOf(run, ListedVolumes(send), final);
    RecordedAscending(send.cuts);
    forall v | v in m.volumes
      ensures IsPart(w, m.job, m.compressor, plains, blobs, v)
    {
      RecordedIn(send.cuts, v);
    }
    forall i, j | 0 <= i < j < |m.volumes|
      ensures m.volumes[i].number < m.volumes[j].number
    {
      if j >= |send.kept| {
        RecordedIn(send.cuts, m.volumes[j]);
        assert m.volumes[j] in RecordedInfos(send.cuts);
      }
    }
    if final {
      RecordedAll(send.cuts);
      assert send.stream[..send.position] == send.stream;
    }
    assert GenuineBy(w, m, plains, blobs);
  }

  lemma CutDescribes(w: World, run: Run, send: Send, i: nat)
    requires SendGenuine(w, run, send) && i < |send.cuts|
    ensures Describes(w, send.cuts[i].info, send.cuts[i].blob)
  {
    var plains, blobs :| SendBy(w, run, send, plains, blobs);
    assert IsPart(w, run.job, run.compressor, plains, blobs, send.cuts[i].info);
  }

  // A volume the run has listed is stored at every destination as recorded.
  lemma ListedHeld(w: World, s: State, run: Run, send: Send, d: Dest)
    requires SendOk(w, s, run, send) && d in run.dests
    ensures Holds(w, s, d, ListedVolumes(send))
  {
    hide SendGenuine, SavingOk, PublishingOk, RecordedInfos;
    forall v | v in ListedVolumes(send)
      ensures (d, v.name) in s.objects && s.objects[(d, v.name)].VolumeData?
      ensures Describes(w, v, s.objects[(d, v.name)].bytes)
    {
      if v !in send.kept {
        RecordedIn(send.cuts, v);
        var i :| 0 <= i < |send.cuts| && send.cuts[i].recorded && send.cuts[i].info == v;
        assert CutStored(s, run, send.cuts[i]);
        CutDescribes(w, run, send, i);
        var p :| 0 <= p < |run.dests| && run.dests[p] == d;
      }
    }
  }

  // ---- Steps that only decide ----

  lemma StartKeeps(w: World, s: State, run: Run, t: State)
    requires Inv(w, s) && StartStep(s, run, t)
    ensures Inv(w, t)
  {
    forall j
      ensures JobOk(w, t, j)
    {
      FrameJob(w, s, t, j);
    }
    forall ds | ds in t.sends
      ensures t.sends[ds].job.dataset == ds && RunOk(w, t, t.sends[ds])
    {
      if ds != run.job.dataset {
        FrameRun(w, s, t, s.sends[ds]);
      }
    }
    forall id | id in t.cleans
      ensures CleanOk(t, t.cleans[id])
    {
      FrameClean(s, t, s.cleans[id]);
    }
  }

  lemma StopKeeps(w: World, s: State, ds: string, t: State)
    requires Inv(w, s) && StopStep(s, ds, t)
    ensures Inv(w, t)
  {
    forall j
      ensures JobOk(w, t, j)
    {
      FrameJob(w, s, t, j);
    }
    hide JobOk;
    forall r | r in t.sends
      ensures RunOk(w, t, t.sends[r])
    {
      FrameRun(w, s, t, s.sends[r]);
    }
    forall id | id in t.cleans
      ensures CleanOk(t, t.cleans[id])
    {
      FrameClean(s, t, s.cleans[id]);
    }
  }

  // A step that changes neither objects nor caches.
  lemma DecisionKeeps(w: World, s: State, ds: string, t: State)
    requires Inv(w, s)
    requires ds in s.sends && !s.sends[ds].phase.Copying?
    requires exists phase :: t == WithPhase(s, ds, phase)
    requires RunOk(w, t, t.sends[ds])
    ensures Inv(w, t)
  {
    FrameJob(w, s, t, s.sends[ds].job);
    SendStepKeeps(w, s, t, ds);
  }

  // What is known of a send's parts does not depend on the fields that track its progress.
  lemma GenuineElsewhere(w: World, run: Run, run': Run, send: Send, send': Send)
    requires SendGenuine(w, run, send)
    requires run' == run.(phase := run'.phase)
    requires send' == send.(saving := send'.saving, publishing := send'.publishing)
    ensures SendGenuine(w, run', send')
  {
    var plains, blobs :| SendBy(w, run, send, plains, blobs);
    assert SendBy(w, run', send', plains, blobs);
  }

  // Where the kept and the cut volumes are does not depend on manifests, caches or phases.
  lemma StoredElsewhere(w: World, s: State, t: State, run: Run, run': Run, send: Send)
    requires forall d :: d in run.dests ==> Holds(w, s, d, send.kept)
    requires forall i :: 0 <= i < |send.cuts| ==> CutStored(s, run, send.cuts[i])
    requires t.objects == s.objects && run' == run.(phase := run'.phase)
    ensures forall d :: d in run'.dests ==> Holds(w, t, d, send.kept)
    ensures forall i :: 0 <= i < |send.cuts| ==> CutStored(t, run', send.cuts[i])
  {
    forall d | d in run'.dests
      ensures Holds(w, t, d, send.kept)
    {
      assert Holds(w, s, d, send.kept);
    }
    forall i | 0 <= i < |send.cuts|
      ensures CutStored(t, run', send.cuts[i])
    {
      assert CutStored(s, run, send.cuts[i]);
    }
  }

  lemma SendElsewhere(w: World, s: State, t: State, run: Run, run': Run, send: Send)
    requires SendOk(w, s, run, send)
    requires t.objects == s.objects && t.caches == s.caches
    requires run' == run.(phase := run'.phase)
    ensures SendOk(w, t, run', send)
  {
    hide SendGenuine;
    GenuineElsewhere(w, run, run', send, send);
    StoredElsewhere(w, s, t, run, run', send);
    assert SavingOk(t, run', send) && PublishingOk(t, run', send);
  }

  // A step that only changes what a send has decided.
  lemma SendDecisionKeeps(w: World, s: State, ds: string, send': Send, t: State)
    requires Inv(w, s) && ds in s.sends && !s.sends[ds].phase.Copying?
    requires t == WithSend(s, ds, send')
    requires SendOk(w, s, s.sends[ds], send')
    ensures Inv(w, t)
  {
    assert RunOk(w, s, s.sends[ds]);
    SendElsewhere(w, s, t, s.sends[ds], t.sends[ds], send');
    DecisionKeeps(w, s, ds, t);
  }

  lemma SendAnewKeeps(w: World, s: State, ds: string, t: State)
    requires Inv(w, s) && SendAnewStep(s, ds, t)
    ensures Inv(w, t)
  {
    assert RunOk(w, s, s.sends[ds]);
    DecisionKeeps(w, s, ds, t);
  }

  // A volume the cache of d records in the same place, and d lists, is at d as recorded.
  lemma ResumedVolume(w: World, s: State, run: Run, sizers: set<Dest>, v: VolumeInfo, n: nat, d: Dest)
    requires CacheOk(w, s, d, run.job)
    requires VerifiedAt(v, n, ListingOf(s, d, sizers))
    requires CachedAs(v, n, CachedVolumes(s, d, run.job))
    ensures (d, run.job) in s.caches
    ensures (d, v.name) in s.objects && s.objects[(d, v.name)].VolumeData?
    ensures Describes(w, v, s.objects[(d, v.name)].bytes)
    ensures v.name in NamesOf(s.caches[(d, run.job)].volumes)
  {
    var m := s.caches[(d, run.job)];
    GenuineNames(w, m);
    ByNumberOfAscending(m.volumes);
    assert m.volumes[n] in m.volumes;
  }

  lemma ResumedAt(w: World, s: State, run: Run, sizers: set<Dest>, keep: nat, d: Dest, n: nat)
    requires JobOk(w, s, run.job) && Resumable(s, run) && d in run.dests && n < keep
    requires var m := s.caches[(run.dests[0], run.job)];
             IsResumePoint(m.volumes, Listings(s, run.dests, sizers), OtherCaches(s, run.dests[1..], run.job), keep)
    ensures (d, run.job) in s.caches
    ensures var v := s.caches[(run.dests[0], run.job)].volumes[n];
            && (d, v.name) in s.objects && s.objects[(d, v.name)].VolumeData?
            && Describes(w, v, s.objects[(d, v.name)].bytes)
            && v.name in NamesOf(s.caches[(d, run.job)].volumes)
  {
    var v := s.caches[(run.dests[0], run.job)].volumes[n];
    var listings := Listings(s, run.dests, sizers);
    var others := OtherCaches(s, run.dests[1..], run.job);
    var p :| 0 <= p < |run.dests| && run.dests[p] == d;
    assert VerifiedEverywhere(v, n, listings) && CachedEverywhere(v, n, others);
    assert listings[p] == ListingOf(s, d, sizers) && listings[p] in listings;
    assert CacheOk(w, s, d, run.job);
    if p > 0 {
      assert others[p - 1] == CachedVolumes(s, d, run.job) && others[p - 1] in others;
    } else {
      GenuineNames(w, s.caches[(d, run.job)]);
      ByNumberOfAscending(s.caches[(d, run.job)].volumes);
    }
    ResumedVolume(w, s, run, sizers, v, n, d);
  }

  // What a resume keeps is stored at every destination as recorded: the cache of each says so.
  lemma ResumedHeld(w: World, s: State, run: Run, sizers: set<Dest>, keep: nat, d: Dest)
    requires JobOk(w, s, run.job) && Resumable(s, run) && d in run.dests
    requires var m := s.caches[(run.dests[0], run.job)];
             IsResumePoint(m.volumes, Listings(s, run.dests, sizers), OtherCaches(s, run.dests[1..], run.job), keep)
    ensures Holds(w, s, d, s.caches[(run.dests[0], run.job)].volumes[..keep])
  {
    var m := s.caches[(run.dests[0], run.job)];
    forall v | v in m.volumes[..keep]
      ensures (d, v.name) in s.objects && s.objects[(d, v.name)].VolumeData?
      ensures Describes(w, v, s.objects[(d, v.name)].bytes)
    {
      var n :| 0 <= n < keep && m.volumes[..keep][n] == v;
      ResumedAt(w, s, run, sizers, keep, d, n);
    }
  }

  lemma KeptParts(w: World, m: Manifest, run: Run, keep: nat)
    requires Genuine(w, m) && m.job == run.job && m.compressor == run.compressor && keep <= |m.volumes|
    requires forall n :: 0 <= n < keep ==> m.volumes[n].number == n + 1
    ensures exists plains, blobs :: KeptBy(w, run, m.volumes[..keep], plains, blobs)
  {
    var plains, blobs :| GenuineBy(w, m, plains, blobs);
    if keep > 0 {
      assert m.volumes[keep - 1] in m.volumes;
      assert keep <= |plains|;
    }
    var plains', blobs' := plains[..keep], blobs[..keep];
    forall i | 0 <= i < keep
      ensures IsPart(w, run.job, run.compressor, plains', blobs', m.volumes[..keep][i])
    {
      assert m.volumes[i] in m.volumes;
      assert plains'[..i + 1] == plains[..i + 1];
    }
    assert KeptBy(w, run, m.volumes[..keep], plains', blobs');
  }

  lemma ResumeKeeps(w: World, s: State, ds: string, sizers: set<Dest>, keep: nat, t: State)
    requires Inv(w, s) && ResumeStep(s, ds, sizers, keep, t)
    ensures Inv(w, t)
  {
    var run := s.sends[ds];
    assert RunOk(w, s, run);
    var m := s.caches[(run.dests[0], run.job)];
    var listings := Listings(s, run.dests, sizers);
    assert JobOk(w, s, run.job) && CacheOk(w, s, run.dests[0], run.job);
    forall n | 0 <= n < keep
      ensures m.volumes[n].number == n + 1
    {
      assert VerifiedEverywhere(m.volumes[n], n, listings);
      assert listings[0] in listings;
    }
    KeptParts(w, m, run, keep);
    forall d | d in run.dests
      ensures Holds(w, t, d, m.volumes[..keep])
    {
      ResumedHeld(w, s, run, sizers, keep, d);
    }
    var run' := t.sends[ds];
    var plains, blobs :| KeptBy(w, run, m.volumes[..keep], plains, blobs);
    assert KeptBy(w, run', m.volumes[..keep], plains, blobs);
    DecisionKeeps(w, s, ds, t);
  }

  lemma ReuploadKeeps(w: World, s: State, ds: string, sizers: set<Dest>, t: State)
    requires Inv(w, s) && ReuploadStep(s, ds, sizers, t)
    ensures Inv(w, t)
  {
    var run := s.sends[ds];
    assert RunOk(w, s, run);
    var m := s.caches[(run.dests[0], run.job)];
    assert JobOk(w, s, run.job) && CacheOk(w, s, run.dests[0], run.job);
    forall d | d in run.dests
      ensures Holds(w, t, d, m.volumes)
    {
      ResumedHeld(w, s, run, sizers, |m.volumes|, d);
      assert m.volumes[..|m.volumes|] == m.volumes;
    }
    DecisionKeeps(w, s, ds, t);
  }

  lemma CopyFromKeeps(w: World, s: State, ds: string, from: Dest, t: State)
    requires Inv(w, s) && CopyFromStep(w, s, ds, from, t)
    ensures Inv(w, t)
  {
    var run := s.sends[ds];
    assert RunOk(w, s, run);
    assert JobOk(w, s, run.job) && PublishedOk(w, s, from, run.job);
    DecisionKeeps(w, s, ds, t);
  }

  // ---- Steps of the stream ----

  lemma {:induction false} SkipIsLength(
    w: World, run: Run, kept: seq<VolumeInfo>, plains: seq<Bytes>, blobs: seq<Bytes>, n: nat)
    requires KeptBy(w, run, kept, plains, blobs) && n <= |kept|
    ensures StreamBytes(kept[..n]) == |Concat(plains[..n])|
  {
    if n > 0 {
      SkipIsLength(w, run, kept, plains, blobs, n - 1);
      assert kept[..n][..n - 1] == kept[..n - 1];
      assert plains[..n][..n - 1] == plains[..n - 1];
      assert kept[..n][n - 1] == kept[n - 1];
      assert IsPart(w, run.job, run.compressor, plains, blobs, kept[n - 1]);
    }
  }

  lemma OpenStreamKeeps(w: World, s: State, ds: string, stream: Bytes, t: State)
    requires Sound(w) && Inv(w, s) && OpenStreamStep(w, s, ds, stream, t)
    ensures Inv(w, t)
  {
    var run := s.sends[ds];
    assert RunOk(w, s, run);
    var kept := if run.phase.Rewriting? then run.phase.kept else [];
    OpenedSendOk(w, s, run, kept, stream);
    SendDecisionKeeps(w, s, ds, t.sends[ds].phase.send, t);
  }

  lemma OpenedSendOk(w: World, s: State, run: Run, kept: seq<VolumeInfo>, stream: Bytes)
    requires Sound(w) && RunOk(w, s, run)
    requires (run.phase.Discarding? && kept == []) || (run.phase.Rewriting? && kept == run.phase.kept)
    requires run.phase.todo == []
    requires StreamBytes(kept) <= |stream|
    requires kept != [] ==> w.sha(stream[..StreamBytes(kept)]) == kept[|kept| - 1].streamSha256
    ensures SendOk(w, s, run, Send(stream, kept, [], StreamBytes(kept), false, None, None))
  {
    hide SendGenuine;
    var send := Send(stream, kept, [], StreamBytes(kept), false, None, None);
    OpenedGenuine(w, s, run, kept, stream);
    assert ListedVolumes(send) == kept;
    assert SavingOk(s, run, send) && PublishingOk(s, run, send);
  }

  // Injective hash: the bytes a resume skips are the ones the kept volumes hold.
  lemma OpenedGenuine(w: World, s: State, run: Run, kept: seq<VolumeInfo>, stream: Bytes)
    requires Sound(w)
    requires kept == [] || KeptOk(w, s, run, kept)
    requires StreamBytes(kept) <= |stream|
    requires kept != [] ==> w.sha(stream[..StreamBytes(kept)]) == kept[|kept| - 1].streamSha256
    ensures SendGenuine(w, run, Send(stream, kept, [], StreamBytes(kept), false, None, None))
  {
    var send := Send(stream, kept, [], StreamBytes(kept), false, None, None);
    if kept == [] {
      assert Concat([]) == stream[..0];
      assert SendBy(w, run, send, [], []);
    } else {
      var plains, blobs :| KeptBy(w, run, kept, plains, blobs);
      KeptIsPrefix(w, run, kept, plains, blobs, stream);
      assert SendBy(w, run, send, plains, blobs);
    }
  }

  lemma KeptIsPrefix(w: World, run: Run, kept: seq<VolumeInfo>, plains: seq<Bytes>, blobs: seq<Bytes>, stream: Bytes)
    requires Sound(w) && kept != [] && KeptBy(w, run, kept, plains, blobs) && StreamBytes(kept) <= |stream|
    requires w.sha(stream[..StreamBytes(kept)]) == kept[|kept| - 1].streamSha256
    ensures stream[..StreamBytes(kept)] == Concat(plains)
  {
    SkipIsLength(w, run, kept, plains, blobs, |kept|);
    assert kept[..|kept|] == kept && plains[..|plains|] == plains;
    assert IsPart(w, run.job, run.compressor, plains, blobs, kept[|kept| - 1]);
  }

  lemma CutVolumeKeeps(w: World, s: State, ds: string, blob: Bytes, length: nat, t: State)
    requires Inv(w, s) && CutVolumeStep(w, s, ds, blob, length, t)
    ensures Inv(w, t)
  {
    assert RunOk(w, s, s.sends[ds]);
    CutSendOk(w, s, s.sends[ds], s.sends[ds].phase.send, t.sends[ds].phase.send, blob, length);
    SendDecisionKeeps(w, s, ds, t.sends[ds].phase.send, t);
  }

  lemma CutSendOk(w: World, s: State, run: Run, send: Send, send': Send, blob: Bytes, length: nat)
    requires SendOk(w, s, run, send) && !send.ended && send.position + length <= |send.stream|
    requires var end := send.position + length;
             var plain := send.stream[send.position..end];
             && w.decode(blob) == Some(plain)
             && send' == send.(
                  cuts := send.cuts + [Cut(NextInfo(w, run, send, blob, end), blob, plain, 0, false)], position := end)
    ensures SendOk(w, s, run, send')
  {
    hide SendGenuine, NextInfo;
    CutGenuine(w, run, send, send', blob, length);
    assert send'.cuts[..|send.cuts|] == send.cuts;
    assert ListedVolumes(send') == ListedVolumes(send);
    // Nothing is saved as final, or published, before the stream ended.
    assert SavingOk(s, run, send') && PublishingOk(s, run, send');
  }

  lemma CutGenuine(w: World, run: Run, send: Send, send': Send, blob: Bytes, length: nat)
    requires SendGenuine(w, run, send) && !send.ended && send.position + length <= |send.stream|
    requires var end := send.position + length;
             var plain := send.stream[send.position..end];
             && w.decode(blob) == Some(plain)
             && send' == send.(
                  cuts := send.cuts + [Cut(NextInfo(w, run, send, blob, end), blob, plain, 0, false)], position := end)
    ensures SendGenuine(w, run, send')
  {
    hide SendBy;
    var plains, blobs :| SendBy(w, run, send, plains, blobs);
    CutExtends(w, run, send, send', plains, blobs, blob, length);
  }

  lemma CutExtends(
    w: World, run: Run, send: Send, send': Send, plains: seq<Bytes>, blobs: seq<Bytes>, blob: Bytes, length: nat)
    requires SendBy(w, run, send, plains, blobs) && !send.ended
    requires send.position + length <= |send.stream|
    requires var end := send.position + length;
             var plain := send.stream[send.position..end];
             && w.decode(blob) == Some(plain)
             && send' == send.(
                  cuts := send.cuts + [Cut(NextInfo(w, run, send, blob, end), blob, plain, 0, false)], position := end)
    ensures SendBy(w, run, send', plains + [send.stream[send.position..send.position + length]], blobs + [blob])
  {
    hide IsPart, Concat;
    var end := send.position + length;
    var plain := send.stream[send.position..end];
    var plains', blobs' := plains + [plain], blobs + [blob];
    ConcatNext(send.stream, send.position, end, plains);
    NextIsPart(w, run, send, plains, blobs, blob, end);
    forall i | 0 <= i < |send.kept|
      ensures IsPart(w, run.job, run.compressor, plains', blobs', send.kept[i])
    {
      PartExtends(w, run, plains, blobs, plain, blob, send.kept[i]);
    }
    forall i | 0 <= i < |send.cuts|
      ensures IsPart(w, run.job, run.compressor, plains', blobs', send.cuts[i].info)
    {
      PartExtends(w, run, plains, blobs, plain, blob, send.cuts[i].info);
    }
  }

  lemma NextIsPart(w: World, run: Run, send: Send, plains: seq<Bytes>, blobs: seq<Bytes>, blob: Bytes, end: nat)
    requires send.position <= end <= |send.stream| && |plains| == |blobs| == |send.kept| + |send.cuts|
    requires Concat(plains + [send.stream[send.position..end]]) == send.stream[..end]
    ensures IsPart(
      w, run.job, run.compressor, plains + [send.stream[send.position..end]], blobs + [blob],
        NextInfo(w, run, send, blob, end))
  {
    var plains' := plains + [send.stream[send.position..end]];
    assert plains'[..|plains'|] == plains';
  }

  lemma ConcatNext(stream: Bytes, from: nat, to: nat, plains: seq<Bytes>)
    requires from <= to <= |stream| && Concat(plains) == stream[..from]
    ensures Concat(plains + [stream[from..to]]) == stream[..to]
  {
    assert (plains + [stream[from..to]])[..|plains|] == plains;
    assert stream[..from] + stream[from..to] == stream[..to];
  }

  lemma PartExtends(
    w: World, run: Run, plains: seq<Bytes>, blobs: seq<Bytes>, plain: Bytes, blob: Bytes, v: VolumeInfo)
    requires IsPart(w, run.job, run.compressor, plains, blobs, v)
    ensures IsPart(w, run.job, run.compressor, plains + [plain], blobs + [blob], v)
  {
    assert (plains + [plain])[..v.number] == plains[..v.number];
  }

  lemma EndStreamKeeps(w: World, s: State, ds: string, t: State)
    requires Inv(w, s) && EndStreamStep(w, s, ds, t)
    ensures Inv(w, t)
  {
    assert RunOk(w, s, s.sends[ds]);
    EndSendOk(w, s, s.sends[ds], s.sends[ds].phase.send);
    SendDecisionKeeps(w, s, ds, t.sends[ds].phase.send, t);
  }

  lemma EndSendOk(w: World, s: State, run: Run, send: Send)
    requires SendOk(w, s, run, send) && !send.ended
    requires send.position == |send.stream| && w.whole(run.job, send.stream)
    ensures SendOk(w, s, run, send.(ended := true))
  {
    var send' := send.(ended := true);
    var plains, blobs :| SendBy(w, run, send, plains, blobs);
    assert SendBy(w, run, send', plains, blobs);
    assert ListedVolumes(send') == ListedVolumes(send);
    assert SavingOk(s, run, send') && PublishingOk(s, run, send');
  }

  lemma RecordKeeps(w: World, s: State, ds: string, i: nat, t: State)
    requires Inv(w, s) && RecordStep(s, ds, i, t)
    ensures Inv(w, t)
  {
    assert RunOk(w, s, s.sends[ds]);
    RecordSendOk(w, s, s.sends[ds], s.sends[ds].phase.send, t.sends[ds].phase.send, i);
    SendDecisionKeeps(w, s, ds, t.sends[ds].phase.send, t);
  }

  lemma RecordSendOk(w: World, s: State, run: Run, send: Send, send': Send, i: nat)
    requires SendOk(w, s, run, send) && run.dests != [] && i < |send.cuts| && send.cuts[i].reached == |run.dests|
    requires send.saving.None? && send.publishing.None?
    requires send'.cuts == send.cuts[i := send.cuts[i].(recorded := true)]
    requires send' == send.(cuts := send'.cuts, saving := send'.saving)
    requires send'.saving == Some(Save(ManifestOf(run, ListedVolumes(send'), false), run.dests))
    ensures SendOk(w, s, run, send')
  {
    hide SendGenuine;
    SameParts(w, run, run, send, send');
    forall v | v in ListedVolumes(send)
      ensures v in ListedVolumes(send')
    {
      StillListed(send, send', i, v);
    }
    forall k | 0 <= k < |send'.cuts|
      ensures CutStored(s, run, send'.cuts[k])
    {
      assert CutStored(s, run, send.cuts[k]);
    }
    assert SavingOk(s, run, send') && PublishingOk(s, run, send');
  }

  lemma StillListed(send: Send, send': Send, i: nat, v: VolumeInfo)
    requires i < |send.cuts| && v in ListedVolumes(send)
    requires send'.kept == send.kept && send'.cuts == send.cuts[i := send.cuts[i].(recorded := true)]
    ensures v in ListedVolumes(send')
  {
    if v !in send.kept {
      RecordedIn(send.cuts, v);
      RecordedIn(send'.cuts, v);
      var k :| 0 <= k < |send.cuts| && send.cuts[k].recorded && send.cuts[k].info == v;
      assert send'.cuts[k].recorded && send'.cuts[k].info == v;
    }
  }

  lemma FinaliseKeeps(w: World, s: State, ds: string, t: State)
    requires Inv(w, s) && FinaliseStep(s, ds, t)
    ensures Inv(w, t)
  {
    assert RunOk(w, s, s.sends[ds]);
    FinalSendOk(w, s, s.sends[ds], s.sends[ds].phase.send, t.sends[ds].phase.send);
    SendDecisionKeeps(w, s, ds, t.sends[ds].phase.send, t);
  }

  lemma FinalSendOk(w: World, s: State, run: Run, send: Send, send': Send)
    requires SendOk(w, s, run, send) && run.dests != []
    requires send.ended && AllRecorded(send.cuts) && send.publishing.None?
    requires send' == send.(saving := Some(Save(ManifestOf(run, ListedVolumes(send), true), run.dests)))
    ensures SendOk(w, s, run, send')
  {
    hide SendGenuine;
    GenuineElsewhere(w, run, run, send, send');
    assert ListedVolumes(send') == ListedVolumes(send);
    assert SavingOk(s, run, send') && PublishingOk(s, run, send');
  }
}
