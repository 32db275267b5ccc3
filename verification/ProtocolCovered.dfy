// When cleans find complete copies: always, unless one particular crash happens.
module ProtocolCovered {
  import opened Manifests
  import opened Resume
  import opened Protocol
  import opened ProtocolInvariant
  import opened ProtocolTheorems

  // Between the upload of a copied manifest and the write of its cached copy.
  ghost predicate InWindow(s: State, d: Dest, j: JobId) {
    && j.dataset in s.sends
    && var run := s.sends[j.dataset];
    && run.job == j && run.phase.Copying? && run.phase.uploaded
    && run.phase.todo != [] && run.phase.todo[0] == d
  }

  // The cached copy of a published manifest lists every volume the manifest lists.
  ghost predicate CoveredOk(s: State, d: Dest, j: JobId) {
    Published(s, d, j) && (d, j) in s.caches && !InWindow(s, d, j) ==>
      NamesOf(PublishedManifest(s, d, j).volumes) <= NamesOf(s.caches[(d, j)].volumes)
  }

  ghost predicate Covered(s: State) {
    forall d, j :: CoveredOk(s, d, j)
  }

  // The one way to lose the cached copy of a manifest that was just copied to a destination: the
  // run dies between the upload and the cache write, and the copy an earlier attempt cached
  // there lists fewer volumes.
  ghost predicate LosesCacheWrite(s: State, step: Step) {
    && step.Stop? && step.dataset in s.sends
    && var run := s.sends[step.dataset];
    && run.phase.Copying? && run.phase.uploaded && run.phase.todo != []
    && var key := (run.phase.todo[0], run.job);
    && key in s.caches
    && !(NamesOf(run.phase.manifest.volumes) <= NamesOf(s.caches[key].volumes))
  }

  // What CoveredOk looks at is the same in both states.
  ghost predicate SameCopy(s: State, t: State, d: Dest, j: JobId) {
    && Published(s, d, j) == Published(t, d, j)
    && (Published(s, d, j) ==> PublishedManifest(s, d, j) == PublishedManifest(t, d, j))
    && ((d, j) in t.caches ==> (d, j) in s.caches && t.caches[(d, j)] == s.caches[(d, j)])
    && (InWindow(s, d, j) ==> InWindow(t, d, j))
  }

  lemma SameCopies(s: State, t: State)
    requires Covered(s) && forall d, j :: SameCopy(s, t, d, j)
    ensures Covered(t)
  {
    forall d, j
      ensures CoveredOk(t, d, j)
    {
      assert CoveredOk(s, d, j) && SameCopy(s, t, d, j);
    }
  }

  // A step that leaves manifests and caches alone, and ends no window.
  lemma QuietStep(s: State, t: State)
    requires Covered(s) && t.objects == s.objects && t.caches == s.caches
    requires forall d, j :: InWindow(s, d, j) ==> InWindow(t, d, j)
    ensures Covered(t)
  {
    forall d, j
      ensures SameCopy(s, t, d, j)
    {
    }
    SameCopies(s, t);
  }

  // A step of a send that is not copying starts or ends no window.
  lemma OutsideWindows(s: State, t: State, ds: string)
    requires ds in s.sends && ds in t.sends && t.sends == s.sends[ds := t.sends[ds]]
    requires !s.sends[ds].phase.Copying?
    ensures forall d, j :: InWindow(s, d, j) ==> InWindow(t, d, j)
  {
  }

  lemma DecisionCovered(s: State, t: State, ds: string)
    requires Covered(s) && ds in s.sends && ds in t.sends && t.sends == s.sends[ds := t.sends[ds]]
    requires !s.sends[ds].phase.Copying? && t.objects == s.objects && t.caches == s.caches
    ensures Covered(t)
  {
    OutsideWindows(s, t, ds);
    QuietStep(s, t);
  }

  // Writing or dropping the copy of one set.
  lemma CacheCovered(s: State, t: State, d: Dest, j: JobId)
    requires Covered(s) && t.objects == s.objects
    requires forall k :: k != (d, j) && k in t.caches ==> k in s.caches && t.caches[k] == s.caches[k]
    requires CoveredOk(t, d, j)
    requires forall x, i :: (x, i) != (d, j) && InWindow(s, x, i) ==> InWindow(t, x, i)
    ensures Covered(t)
  {
    forall x, i
      ensures CoveredOk(t, x, i)
    {
      if (x, i) != (d, j) {
        assert CoveredOk(s, x, i);
        assert Published(s, x, i) == Published(t, x, i);
      }
    }
  }

  // Writing an object of one job at one destination.
  lemma ObjectCovered(s: State, t: State, d: Dest, j: JobId, n: ObjectName)
    requires Covered(s) && t.caches == s.caches && n.job == j
    requires forall k :: k != (d, n) ==> (k in s.objects <==> k in t.objects)
    requires forall k :: k != (d, n) && k in s.objects ==> t.objects[k] == s.objects[k]
    requires n.ManifestObject? ==> CoveredOk(t, d, j)
    requires forall x, i :: InWindow(s, x, i) ==> InWindow(t, x, i)
    ensures Covered(t)
  {
    forall x, i
      ensures CoveredOk(t, x, i)
    {
      if n != ManifestObject(i) || x != d {
        assert CoveredOk(s, x, i);
        assert (x, ManifestObject(i)) != (d, n);
        assert Published(s, x, i) == Published(t, x, i);
      } else {
        assert i == j && x == d;
      }
    }
  }

  // ---- Steps ----

  lemma StartCovered(s: State, run: Run, t: State)
    requires Covered(s) && StartStep(s, run, t)
    ensures Covered(t)
  {
    QuietStep(s, t);
  }

  lemma StopCovered(w: World, s: State, ds: string, t: State)
    requires Inv(w, s) && Covered(s) && StopStep(s, ds, t) && !LosesCacheWrite(s, Stop(ds))
    ensures Covered(t)
  {
    hide JobOk;
    var run := s.sends[ds];
    assert RunOk(w, s, run);
    forall d, j
      ensures CoveredOk(t, d, j)
    {
      assert CoveredOk(s, d, j);
      assert Published(s, d, j) == Published(t, d, j);
    }
  }

  lemma DiscardCovered(s: State, ds: string, t: State)
    requires Covered(s) && DiscardOneStep(s, ds, t)
    ensures Covered(t)
  {
    var run := s.sends[ds];
    OutsideWindows(s, t, ds);
    CacheCovered(s, t, run.phase.todo[0], run.job);
  }

  lemma RewriteCovered(w: World, s: State, ds: string, t: State)
    requires Inv(w, s) && Covered(s) && RewriteOneStep(s, ds, t)
    ensures Covered(t)
  {
    hide JobOk;
    var run := s.sends[ds];
    assert RunOk(w, s, run);
    assert run.phase.todo[0] in run.dests;
    OutsideWindows(s, t, ds);
    CacheCovered(s, t, run.phase.todo[0], run.job);
  }

  lemma SaveCovered(w: World, s: State, ds: string, t: State)
    requires Inv(w, s) && Covered(s) && SaveOneStep(s, ds, t)
    ensures Covered(t)
  {
    hide JobOk, SendGenuine;
    var run, send := s.sends[ds], s.sends[ds].phase.send;
    assert RunOk(w, s, run) && SavingOk(s, run, send) && PublishingOk(s, run, send);
    assert send.saving.value.todo[0] in run.dests;
    OutsideWindows(s, t, ds);
    CacheCovered(s, t, send.saving.value.todo[0], run.job);
  }

  lemma UploadCovered(w: World, s: State, ds: string, i: nat, ok: bool, bytes: Bytes, t: State)
    requires Inv(w, s) && Covered(s) && UploadStep(s, ds, i, ok, bytes, t)
    ensures Covered(t)
  {
    hide JobOk;
    var run, send := s.sends[ds], s.sends[ds].phase.send;
    assert RunOk(w, s, run) && SendGenuine(w, run, send);
    var c := send.cuts[i];
    var plains, blobs :| SendBy(w, run, send, plains, blobs);
    assert IsPart(w, run.job, run.compressor, plains, blobs, c.info);
    OutsideWindows(s, t, ds);
    ObjectCovered(s, t, run.dests[c.reached], run.job, c.info.name);
  }

  lemma PublishCovered(w: World, s: State, ds: string, ok: bool, t: State)
    requires Inv(w, s) && Covered(s) && PublishStep(s, ds, ok, t)
    ensures Covered(t)
  {
    hide JobOk, SendGenuine;
    var run, send := s.sends[ds], s.sends[ds].phase.send;
    assert RunOk(w, s, run) && PublishingOk(s, run, send);
    var d := send.publishing.value[0];
    assert d in run.dests;
    OutsideWindows(s, t, ds);
    ObjectCovered(s, t, d, run.job, ManifestObject(run.job));
  }

  lemma CopyUploadCovered(w: World, s: State, ds: string, ok: bool, t: State)
    requires Inv(w, s) && Covered(s) && CopyUploadStep(s, ds, ok, t)
    ensures Covered(t)
  {
    hide JobOk;
    var run := s.sends[ds];
    var d := run.phase.todo[0];
    assert run.job.dataset == ds;
    assert ok ==> InWindow(t, d, run.job);
    ObjectCovered(s, t, d, run.job, ManifestObject(run.job));
  }

  lemma CopyCacheCovered(w: World, s: State, ds: string, t: State)
    requires Inv(w, s) && Covered(s) && CopyCacheStep(s, ds, t)
    ensures Covered(t)
  {
    hide JobOk;
    var run := s.sends[ds];
    assert run.job.dataset == ds && RunOk(w, s, run);
    CacheCovered(s, t, run.phase.todo[0], run.job);
  }

  lemma SyncCovered(s: State, dest: Dest, job: JobId, t: State)
    requires Covered(s) && SyncStep(s, dest, job, t)
    ensures Covered(t)
  {
    CacheCovered(s, t, dest, job);
  }

  lemma DeleteCovered(w: World, s: State, id: nat, name: ObjectName, t: State)
    requires Inv(w, s) && Covered(s) && CleanDeleteStep(s, id, name, t)
    ensures Covered(t)
  {
    hide JobOk;
    assert CleanOk(s, s.cleans[id]);
    ObjectCovered(s, t, s.cleans[id].dest, name.job, name);
  }

  lemma ForgetCovered(s: State, id: nat, job: JobId, t: State)
    requires Covered(s) && CleanForgetStep(s, id, job, t)
    ensures Covered(t)
  {
    CacheCovered(s, t, s.cleans[id].dest, job);
  }

  lemma CleanCovered(s: State, t: State)
    requires Covered(s) && t == s.(cleans := t.cleans)
    ensures Covered(t)
  {
    QuietStep(s, t);
  }

  predicate ChangesOnlyRun(step: Step) {
    || step.SendAnew? || step.Resume? || step.Reupload? || step.CopyFrom? || step.OpenStream?
    || step.CutVolume? || step.EndStream? || step.Record? || step.Finalise?
  }

  lemma ChangesOnlyRunShape(w: World, s: State, step: Step, t: State)
    requires Next(w, s, step, t) && ChangesOnlyRun(step)
    ensures step.dataset in s.sends && step.dataset in t.sends && !s.sends[step.dataset].phase.Copying?
    ensures t.sends == s.sends[step.dataset := t.sends[step.dataset]]
    ensures t.objects == s.objects && t.caches == s.caches
  {
    hide IsResumePoint;
  }

  predicate Cleans(step: Step) {
    || step.CleanStart? || step.CleanLock? || step.CleanDecide? || step.CleanDelete? || step.CleanForget?
    || step.CleanEnd?
  }

  lemma CleansCovered(w: World, s: State, step: Step, t: State)
    requires Inv(w, s) && Covered(s) && Next(w, s, step, t) && Cleans(step)
    ensures Covered(t)
  {
    hide Inv, Covered, Deletable, ReadUnderLocks, CleanDeleteStep, CleanForgetStep, StartStep, StopStep, SendAnewStep;
    hide ResumeStep, ReuploadStep, CopyFromStep, DiscardOneStep, RewriteOneStep, OpenStreamStep, CutVolumeStep;
    hide EndStreamStep, UploadStep, RecordStep, SaveOneStep, FinaliseStep, PublishStep, CopyUploadStep;
    hide CopyCacheStep, SyncStep;
    match step
    case CleanDelete(id, name) => DeleteCovered(w, s, id, name, t);
    case CleanForget(id, job) => ForgetCovered(s, id, job, t);
    case CleanStart(id, dest) => CleanCovered(s, t);
    case CleanLock(id, dataset) => CleanCovered(s, t);
    case CleanDecide(id, view, cleanLocal, chosen) => CleanCovered(s, t);
    case CleanEnd(id) => CleanCovered(s, t);
  }

  // Every step but that crash keeps the copies complete.
  lemma NextCovered(w: World, s: State, step: Step, t: State)
    requires Inv(w, s) && Covered(s) && Next(w, s, step, t) && !LosesCacheWrite(s, step)
    ensures Covered(t)
  {
    hide Inv, Covered, LosesCacheWrite;
    hide StartStep, StopStep, SendAnewStep, ResumeStep, ReuploadStep, CopyFromStep, DiscardOneStep;
    hide RewriteOneStep, OpenStreamStep, CutVolumeStep, EndStreamStep, UploadStep, RecordStep, SaveOneStep;
    hide FinaliseStep, PublishStep, CopyUploadStep, CopyCacheStep, SyncStep, CleanStartStep, CleanLockStep;
    hide CleanDecideStep, CleanDeleteStep, CleanForgetStep, CleanEndStep;
    if ChangesOnlyRun(step) {
      ChangesOnlyRunShape(w, s, step, t);
      DecisionCovered(s, t, step.dataset);
    } else if Cleans(step) {
      CleansCovered(w, s, step, t);
    } else {
      match step
      case Start(run) => StartCovered(s, run, t);
      case Stop(dataset) => StopCovered(w, s, dataset, t);
      case DiscardOne(dataset) => DiscardCovered(s, dataset, t);
      case RewriteOne(dataset) => RewriteCovered(w, s, dataset, t);
      case SaveOne(dataset) => SaveCovered(w, s, dataset, t);
      case Upload(dataset, i, ok, bytes) => UploadCovered(w, s, dataset, i, ok, bytes, t);
      case Publish(dataset, ok) => PublishCovered(w, s, dataset, ok, t);
      case CopyUpload(dataset, ok) => CopyUploadCovered(w, s, dataset, ok, t);
      case CopyCache(dataset) => CopyCacheCovered(w, s, dataset, t);
      case Sync(dest, job) => SyncCovered(s, dest, job, t);
      case _ =>
    }
  }

  // A clean locks only datasets that are not being sent, so no window is open for them.
  lemma CoveredDecides(w: World, s: State, step: Step)
    requires Inv(w, s) && Covered(s)
    ensures DecidesOnComplete(s, step)
  {
    hide JobOk, RunOk, CleanOk;
    if step.CleanDecide? && step.id in s.cleans {
      forall ds | ds in s.cleans[step.id].locked
        ensures CopiesComplete(s, s.cleans[step.id].dest, ds)
      {
        forall j: JobId | j.dataset == ds
          ensures CoveredOk(s, s.cleans[step.id].dest, j) && !InWindow(s, s.cleans[step.id].dest, j)
        {
        }
      }
    }
  }

  lemma {:induction false} CoveredAlong(w: World, states: seq<State>, steps: seq<Step>, k: nat)
    requires Sound(w) && Behaviour(w, states, steps) && k < |states|
    requires forall i :: 0 <= i < |steps| ==> !LosesCacheWrite(states[i], steps[i])
    ensures Inv(w, states[k]) && Covered(states[k])
  {
    hide Inv, Next, LosesCacheWrite, DecidesOnComplete;
    if k == 0 {
      InitHolds(w, states[0]);
    } else {
      CoveredAlong(w, states, steps, k - 1);
      CoveredDecides(w, states[k - 1], steps[k - 1]);
      NextKeeps(w, states[k - 1], steps[k - 1], states[k]);
      NextCovered(w, states[k - 1], steps[k - 1], states[k]);
    }
  }

  // Without that crash every clean decides on complete copies, so integrity and cache truth hold
  // throughout.
  lemma OnlyThatCrashMatters(w: World, states: seq<State>, steps: seq<Step>)
    requires Sound(w) && Behaviour(w, states, steps)
    requires forall i :: 0 <= i < |steps| ==> !LosesCacheWrite(states[i], steps[i])
    ensures forall i :: 0 <= i < |steps| ==> DecidesOnComplete(states[i], steps[i])
    ensures forall k :: 0 <= k < |states| ==> Integrity(w, states[k]) && CacheTruth(w, states[k])
  {
    hide Next, LosesCacheWrite, DecidesOnComplete, Integrity, CacheTruth, Inv, Covered;
    forall i | 0 <= i < |steps|
      ensures DecidesOnComplete(states[i], steps[i])
    {
      CoveredAlong(w, states, steps, i);
      CoveredDecides(w, states[i], steps[i]);
    }
    PublishedManifestsRestore(w, states, steps);
  }
}
