// The steps that write a cache or an object keep the invariant, and the theorems about all runs.
module ProtocolWrites {
  import opened Common
  import opened Manifests
  import opened Protocol
  import opened ProtocolInvariant
  import opened ProtocolSteps

  // ---- Caches ----

  lemma CacheWriteJob(w: World, s: State, t: State, d: Dest, job: JobId, m: Manifest)
    requires JobOk(w, s, job)
    requires t.objects == s.objects && t.caches == s.caches[(d, job) := m]
    requires m.job == job && Genuine(w, m) && TrueAt(w, s, d, m.volumes)
    ensures JobOk(w, t, job)
    ensures forall j :: j != job ==> SameFor(s, t, j)
  {
    forall x
      ensures PublishedOk(w, t, x, job) && CacheOk(w, t, x, job)
    {
      assert PublishedOk(w, s, x, job) && CacheOk(w, s, x, job);
    }
  }

  lemma CacheDropJob(w: World, s: State, t: State, d: Dest, job: JobId)
    requires JobOk(w, s, job)
    requires t.objects == s.objects && t.caches == s.caches - {(d, job)}
    ensures JobOk(w, t, job)
    ensures forall j :: j != job ==> SameFor(s, t, j)
  {
    forall x
      ensures PublishedOk(w, t, x, job) && CacheOk(w, t, x, job)
    {
      assert PublishedOk(w, s, x, job) && CacheOk(w, s, x, job);
    }
  }

  lemma DiscardOneKeeps(w: World, s: State, ds: string, t: State)
    requires Inv(w, s) && DiscardOneStep(s, ds, t)
    ensures Inv(w, t)
  {
    var run := s.sends[ds];
    assert RunOk(w, s, run) && JobOk(w, s, run.job);
    CacheDropJob(w, s, t, run.phase.todo[0], run.job);
    SendStepKeeps(w, s, t, ds);
  }

  lemma RewriteOneKeeps(w: World, s: State, ds: string, t: State)
    requires Inv(w, s) && RewriteOneStep(s, ds, t)
    ensures Inv(w, t)
  {
    var run, run' := s.sends[ds], t.sends[ds];
    var kept := run.phase.kept;
    var m := ManifestOf(run, kept, false);
    assert RunOk(w, s, run) && JobOk(w, s, run.job);
    var plains, blobs :| KeptBy(w, run, kept, plains, blobs);
    assert KeptBy(w, run', kept, plains, blobs);
    assert GenuineBy(w, m, plains, blobs);
    var d := run.phase.todo[0];
    assert Holds(w, s, d, kept);
    CacheWriteJob(w, s, t, d, run.job, m);
    forall x | x in run'.dests
      ensures Holds(w, t, x, kept)
    {
      assert Holds(w, s, x, kept);
    }
    SendStepKeeps(w, s, t, ds);
  }

  lemma SaveOneKeeps(w: World, s: State, ds: string, t: State)
    requires Inv(w, s) && SaveOneStep(s, ds, t)
    ensures Inv(w, t)
  {
    var run, send := s.sends[ds], s.sends[ds].phase.send;
    var save := send.saving.value;
    assert RunOk(w, s, run) && JobOk(w, s, run.job);
    var d := save.todo[0];
    ListedHeld(w, s, run, send, d);
    ListedGenuine(w, run, send, save.manifest.final);
    CacheWriteJob(w, s, t, d, run.job, save.manifest);
    SavedSendOk(w, s, t, run, t.sends[ds], send, t.sends[ds].phase.send);
    SendStepKeeps(w, s, t, ds);
  }

  lemma SavedSendOk(w: World, s: State, t: State, run: Run, run': Run, send: Send, send': Send)
    requires SendOk(w, s, run, send) && run.dests != []
    requires run' == run.(phase := run'.phase)
    requires send.saving.Some?
    requires var save := send.saving.value;
             var rest := save.todo[1..];
             && t.objects == s.objects && t.caches == s.caches[(save.todo[0], run.job) := save.manifest]
             && send' == send.(
                  saving := if rest == [] then None else Some(save.(todo := rest)),
                  publishing := if rest == [] && save.manifest.final then Some(run.dests) else send.publishing)
    ensures SendOk(w, t, run', send')
  {
    hide SendGenuine;
    GenuineElsewhere(w, run, run', send, send');
    StoredElsewhere(w, s, t, run, run', send);
    assert ListedVolumes(send') == ListedVolumes(send);
    assert SavingOk(t, run', send') && PublishingOk(t, run', send');
  }

  lemma CopyCacheKeeps(w: World, s: State, ds: string, t: State)
    requires Inv(w, s) && CopyCacheStep(s, ds, t)
    ensures Inv(w, t)
  {
    var run := s.sends[ds];
    var m := run.phase.manifest;
    assert RunOk(w, s, run) && JobOk(w, s, run.job);
    assert Holds(w, s, run.phase.todo[0], m.volumes);
    CacheWriteJob(w, s, t, run.phase.todo[0], run.job, m);
    forall d | d in run.phase.todo[1..]
      ensures Holds(w, t, d, m.volumes)
    {
      assert Holds(w, s, d, m.volumes);
    }
    SendStepKeeps(w, s, t, ds);
  }

  // A reader's download fills a cache entry only for a published set, so it can touch no run
  // that is still writing the volumes of that set there.
  lemma SyncKeeps(w: World, s: State, dest: Dest, job: JobId, t: State)
    requires Inv(w, s) && SyncStep(s, dest, job, t)
    ensures Inv(w, t)
  {
    var m := PublishedManifest(s, dest, job);
    assert JobOk(w, s, job) && PublishedOk(w, s, dest, job);
    CacheWriteJob(w, s, t, dest, job, m);
    forall j
      ensures JobOk(w, t, j)
    {
      if j != job {
        FrameJob(w, s, t, j);
      }
    }
    forall r | r in t.sends
      ensures RunOk(w, t, t.sends[r])
    {
      assert RunOk(w, s, s.sends[r]);
      if s.sends[r].job != job {
        FrameRun(w, s, t, s.sends[r]);
      } else {
        SyncedRun(w, s, t, s.sends[r], dest);
      }
    }
    forall id | id in t.cleans
      ensures CleanOk(t, t.cleans[id])
    {
      SameObjectsClean(s, t, s.cleans[id]);
    }
  }

  lemma SyncedRun(w: World, s: State, t: State, run: Run, dest: Dest)
    requires RunOk(w, s, run) && HasManifest(s, dest, run.job) && (dest, run.job) !in s.caches
    requires t.objects == s.objects
    requires forall d :: d != dest ==>
               ((d, run.job) in s.caches <==> (d, run.job) in t.caches)
               && ((d, run.job) in s.caches ==> s.caches[(d, run.job)] == t.caches[(d, run.job)])
    ensures RunOk(w, t, run)
  {
    match run.phase
    case Checking =>
    case Discarding(todo) =>
    case Rewriting(kept, todo) =>
      forall d | d in run.dests
        ensures Holds(w, t, d, kept)
      {
        assert Holds(w, s, d, kept);
      }
    case Sending(send) =>
      SyncedSend(w, s, t, run, send, dest);
    case Copying(m, todo, uploaded) =>
      forall d | d in todo
        ensures Holds(w, t, d, m.volumes)
      {
        assert Holds(w, s, d, m.volumes);
      }
  }

  lemma SyncedSend(w: World, s: State, t: State, run: Run, send: Send, dest: Dest)
    requires SendOk(w, s, run, send) && HasManifest(s, dest, run.job) && (dest, run.job) !in s.caches
    requires t.objects == s.objects
    requires forall d :: d != dest ==>
               ((d, run.job) in s.caches <==> (d, run.job) in t.caches)
               && ((d, run.job) in s.caches ==> s.caches[(d, run.job)] == t.caches[(d, run.job)])
    ensures SendOk(w, t, run, send)
  {
    hide SendGenuine;
    // While a send has published nothing, dest is not one of its destinations; once it
    // publishes, every cache of its destinations is filled.
    assert dest !in run.dests;
    StoredElsewhere(w, s, t, run, run, send);
    assert SavingOk(t, run, send) && PublishingOk(t, run, send);
  }

  lemma SameObjectsClean(s: State, t: State, c: CleanRun)
    requires CleanOk(s, c) && t.objects == s.objects
    ensures CleanOk(t, c)
  {
    if c.deletes.Some? {
      forall n | n in c.deletes.value && Published(t, c.dest, n.job)
        ensures n !in NamesOf(PublishedManifest(t, c.dest, n.job).volumes)
      {
        assert Published(s, c.dest, n.job);
      }
    }
  }

  // ---- Objects ----

  // Writing a volume that no cache of the destination lists, where the set is not published.
  lemma VolumeWriteJob(w: World, s: State, t: State, d: Dest, job: JobId, name: ObjectName, data: Stored)
    requires JobOk(w, s, job) && name.VolumeObject? && name.job == job
    requires t.caches == s.caches && t.objects == s.objects[(d, name) := data]
    requires !HasManifest(s, d, job)
    requires (d, job) in s.caches ==> forall v :: v in s.caches[(d, job)].volumes ==> v.name != name
    ensures JobOk(w, t, job)
    ensures forall j :: j != job ==> SameFor(s, t, j)
  {
    forall x
      ensures PublishedOk(w, t, x, job) && CacheOk(w, t, x, job)
    {
      assert PublishedOk(w, s, x, job) && CacheOk(w, s, x, job);
      assert Published(t, x, job) == Published(s, x, job);
    }
  }

  // A listed volume is not the one being uploaded.
  lemma OthersListed(w: World, s: State, run: Run, send: Send, i: nat, v: VolumeInfo)
    requires SendOk(w, s, run, send) && i < |send.cuts| && send.cuts[i].reached < |run.dests|
    requires v in ListedVolumes(send)
    ensures v.name != send.cuts[i].info.name
  {
    hide SendGenuine;
    if v in send.kept {
      var a :| 0 <= a < |send.kept| && send.kept[a] == v;
      KeptNamesDiffer(w, run, send, a, i);
    } else {
      RecordedIn(send.cuts, v);
      var k :| 0 <= k < |send.cuts| && send.cuts[k].recorded && send.cuts[k].info == v;
      assert CutStored(s, run, send.cuts[k]);
      CutNamesDiffer(w, run, send, k, i);
    }
  }

  lemma UploadKeeps(w: World, s: State, ds: string, i: nat, ok: bool, bytes: Bytes, t: State)
    requires Inv(w, s) && UploadStep(s, ds, i, ok, bytes, t)
    ensures Inv(w, t)
  {
    var run, send := s.sends[ds], s.sends[ds].phase.send;
    var c := send.cuts[i];
    var d := run.dests[c.reached];
    assert RunOk(w, s, run) && JobOk(w, s, run.job);
    assert CutStored(s, run, c);
    CutName(w, run, send, i);
    assert c in send.cuts;
    assert send.publishing.None?;
    forall v | v in ListedVolumes(send)
      ensures v.name != c.info.name
    {
      OthersListed(w, s, run, send, i, v);
    }
    VolumeWriteJob(w, s, t, d, run.job, c.info.name, t.objects[(d, c.info.name)]);
    UploadedSendOk(w, s, t, run, t.sends[ds], send, t.sends[ds].phase.send, i, ok);
    SendStepKeeps(w, s, t, ds);
  }

  // The write of one volume at the next destination leaves the other volumes where they are.
  lemma UploadedCut(s: State, t: State, run: Run, run': Run, c: Cut, other: Cut)
    requires Distinct(run.dests) && c.reached < |run.dests| && CutStored(s, run, other)
    requires other == c || other.info.name != c.info.name
    requires run' == run.(phase := run'.phase)
    requires var key := (run.dests[c.reached], c.info.name);
             key in t.objects && t.objects == s.objects[key := t.objects[key]]
    ensures CutStored(t, run', other)
  {
  }

  lemma UploadedSendOk(
    w: World, s: State, t: State, run: Run, run': Run, send: Send, send': Send, i: nat, ok: bool)
    requires SendOk(w, s, run, send) && Distinct(run.dests) && i < |send.cuts| && send.cuts[i].reached < |run.dests|
    requires send.publishing.None?
    requires run' == run.(phase := run'.phase)
    requires var c := send.cuts[i];
             var key := (run.dests[c.reached], c.info.name);
             && t.caches == s.caches && key in t.objects && t.objects == s.objects[key := t.objects[key]]
             && (ok ==> t.objects[key] == VolumeData(c.blob))
             && send' == if ok then send.(cuts := send.cuts[i := c.(reached := c.reached + 1)]) else send
    ensures SendOk(w, t, run', send')
  {
    hide SendGenuine;
    UploadedGenuine(w, run, run', send, send', i, ok);
    CutName(w, run, send, i);
    RecordedUnchanged(send.cuts, send'.cuts);
    assert ListedVolumes(send') == ListedVolumes(send);
    UploadedKept(w, s, t, run, run', send, i);
    UploadedCuts(w, s, t, run, run', send, send', i, ok);
    assert CutStored(s, run, send.cuts[i]);
    UploadedSaving(s, t, run, run', send, send', i);
    assert PublishingOk(t, run', send');
  }

  lemma UploadedKept(w: World, s: State, t: State, run: Run, run': Run, send: Send, i: nat)
    requires SendOk(w, s, run, send) && i < |send.cuts| && send.cuts[i].reached < |run.dests|
    requires run' == run.(phase := run'.phase)
    requires var key := (run.dests[send.cuts[i].reached], send.cuts[i].info.name);
             key in t.objects && t.objects == s.objects[key := t.objects[key]]
    ensures forall d :: d in run'.dests ==> Holds(w, t, d, send.kept)
  {
    forall v | v in send.kept
      ensures v.name != send.cuts[i].info.name
    {
      OthersListed(w, s, run, send, i, v);
    }
    forall d | d in run'.dests
      ensures Holds(w, t, d, send.kept)
    {
      assert Holds(w, s, d, send.kept);
    }
  }

  lemma UploadedCuts(
    w: World, s: State, t: State, run: Run, run': Run, send: Send, send': Send, i: nat, ok: bool)
    requires SendOk(w, s, run, send) && Distinct(run.dests) && i < |send.cuts| && send.cuts[i].reached < |run.dests|
    requires run' == run.(phase := run'.phase)
    requires var c := send.cuts[i];
             var key := (run.dests[c.reached], c.info.name);
             && key in t.objects && t.objects == s.objects[key := t.objects[key]]
             && (ok ==> t.objects[key] == VolumeData(c.blob))
             && send' == if ok then send.(cuts := send.cuts[i := c.(reached := c.reached + 1)]) else send
    ensures forall k :: 0 <= k < |send'.cuts| ==> CutStored(t, run', send'.cuts[k])
  {
    hide SendGenuine;
    forall k | 0 <= k < |send'.cuts|
      ensures CutStored(t, run', send'.cuts[k])
    {
      assert CutStored(s, run, send.cuts[k]);
      if k != i {
        CutNamesDiffer(w, run, send, i, k);
      }
      UploadedCut(s, t, run, run', send.cuts[i], send.cuts[k]);
    }
  }

  lemma UploadedGenuine(w: World, run: Run, run': Run, send: Send, send': Send, i: nat, ok: bool)
    requires SendGenuine(w, run, send) && i < |send.cuts|
    requires run' == run.(phase := run'.phase)
    requires var c := send.cuts[i];
             send' == if ok then send.(cuts := send.cuts[i := c.(reached := c.reached + 1)]) else send
    ensures SendGenuine(w, run', send')
  {
    hide SendGenuine;
    SameParts(w, run, run', send, send');
  }

  // Volumes of one run have names of their own.
  lemma CutNamesDiffer(w: World, run: Run, send: Send, a: nat, b: nat)
    requires SendGenuine(w, run, send) && a < |send.cuts| && b < |send.cuts| && a != b
    ensures send.cuts[a].info.name != send.cuts[b].info.name
  {
    var plains, blobs :| SendBy(w, run, send, plains, blobs);
    assert IsPart(w, run.job, run.compressor, plains, blobs, send.cuts[a].info);
    assert IsPart(w, run.job, run.compressor, plains, blobs, send.cuts[b].info);
  }

  lemma KeptNamesDiffer(w: World, run: Run, send: Send, a: nat, b: nat)
    requires SendGenuine(w, run, send) && a < |send.kept| && b < |send.cuts|
    ensures send.kept[a].name != send.cuts[b].info.name
  {
    var plains, blobs :| SendBy(w, run, send, plains, blobs);
    assert IsPart(w, run.job, run.compressor, plains, blobs, send.kept[a]);
    assert IsPart(w, run.job, run.compressor, plains, blobs, send.cuts[b].info);
  }

  lemma KeptNames(w: World, run: Run, send: Send)
    requires SendGenuine(w, run, send)
    ensures forall v :: v in send.kept ==> v.name.VolumeObject?
  {
    var plains, blobs :| SendBy(w, run, send, plains, blobs);
  }

  lemma CutName(w: World, run: Run, send: Send, b: nat)
    requires SendGenuine(w, run, send) && b < |send.cuts|
    ensures send.cuts[b].info.name.VolumeObject? && send.cuts[b].info.name.job == run.job
  {
    var plains, blobs :| SendBy(w, run, send, plains, blobs);
    assert IsPart(w, run.job, run.compressor, plains, blobs, send.cuts[b].info);
  }

  // A volume still on its way rules out that the final manifest is being saved.
  lemma UploadedSaving(s: State, t: State, run: Run, run': Run, send: Send, send': Send, i: nat)
    requires SavingOk(s, run, send) && t.caches == s.caches
    requires run' == run.(phase := run'.phase)
    requires i < |send.cuts| && CutStored(s, run, send.cuts[i]) && send.cuts[i].reached < |run.dests|
    requires send' == send.(cuts := send'.cuts) && ListedVolumes(send') == ListedVolumes(send)
    ensures SavingOk(t, run', send')
  {
    assert send.cuts[i] in send.cuts;
  }

  // Writing a manifest, or the torn start of one, touches no volume.
  lemma ManifestWriteJob(w: World, s: State, t: State, d: Dest, job: JobId, data: Stored)
    requires JobOk(w, s, job)
    requires t.caches == s.caches && t.objects == s.objects[(d, ManifestObject(job)) := data]
    requires data.ManifestData? ==>
               var m := data.manifest;
               && m.job == job && m.final && Genuine(w, m) && Holds(w, s, d, m.volumes)
    ensures JobOk(w, t, job)
    ensures forall j :: j != job ==> SameFor(s, t, j)
  {
    if data.ManifestData? {
      GenuineNames(w, data.manifest);
    }
    forall x
      ensures PublishedOk(w, t, x, job) && CacheOk(w, t, x, job)
    {
      assert PublishedOk(w, s, x, job) && CacheOk(w, s, x, job);
      if x != d {
        assert Published(t, x, job) == Published(s, x, job);
      }
      if Published(s, x, job) {
        GenuineNames(w, PublishedManifest(s, x, job));
      }
      if (x, job) in s.caches {
        GenuineNames(w, s.caches[(x, job)]);
      }
    }
  }

  lemma PublishKeeps(w: World, s: State, ds: string, ok: bool, t: State)
    requires Inv(w, s) && PublishStep(s, ds, ok, t)
    ensures Inv(w, t)
  {
    var run, send := s.sends[ds], s.sends[ds].phase.send;
    var d := send.publishing.value[0];
    assert RunOk(w, s, run) && JobOk(w, s, run.job);
    ListedHeld(w, s, run, send, d);
    ListedGenuine(w, run, send, true);
    ManifestWriteJob(w, s, t, d, run.job, t.objects[(d, ManifestObject(run.job))]);
    PublishedSendOk(w, s, t, run, t.sends[ds], send, t.sends[ds].phase.send, d);
    SendStepKeeps(w, s, t, ds);
  }

  lemma PublishedSendOk(w: World, s: State, t: State, run: Run, run': Run, send: Send, send': Send, d: Dest)
    requires SendOk(w, s, run, send) && send.publishing.Some?
    requires run' == run.(phase := run'.phase)
    requires t.caches == s.caches && (d, ManifestObject(run.job)) in t.objects
    requires t.objects == s.objects[(d, ManifestObject(run.job)) := t.objects[(d, ManifestObject(run.job))]]
    requires send'.publishing.Some? && send' == send.(publishing := send'.publishing)
    requires forall x :: x in send'.publishing.value ==> x in send.publishing.value
    ensures SendOk(w, t, run', send')
  {
    hide SendGenuine;
    GenuineElsewhere(w, run, run', send, send');
    assert ListedVolumes(send') == ListedVolumes(send);
    KeptNames(w, run, send);
    forall x | x in run'.dests
      ensures Holds(w, t, x, send'.kept)
    {
      assert Holds(w, s, x, send.kept);
    }
    forall k | 0 <= k < |send'.cuts|
      ensures CutStored(t, run', send'.cuts[k])
    {
      CutName(w, run, send, k);
      assert CutStored(s, run, send.cuts[k]);
    }
    assert SavingOk(t, run', send') && PublishingOk(t, run', send');
  }

  lemma CopyUploadKeeps(w: World, s: State, ds: string, ok: bool, t: State)
    requires Inv(w, s) && CopyUploadStep(s, ds, ok, t)
    ensures Inv(w, t)
  {
    var run := s.sends[ds];
    var m := run.phase.manifest;
    var d := run.phase.todo[0];
    assert RunOk(w, s, run) && JobOk(w, s, run.job);
    assert Holds(w, s, d, m.volumes);
    GenuineNames(w, m);
    ManifestWriteJob(w, s, t, d, run.job, t.objects[(d, ManifestObject(run.job))]);
    forall x | x in run.phase.todo
      ensures Holds(w, t, x, m.volumes)
    {
      assert Holds(w, s, x, m.volumes);
    }
    SendStepKeeps(w, s, t, ds);
  }
}
