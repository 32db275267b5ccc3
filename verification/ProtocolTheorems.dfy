// Clean keeps the invariant too, so the published manifests of every run restore; and exactly
// when a clean would break one.
module ProtocolTheorems {
  import opened Common
  import opened Manifests
  import opened Protocol
  import opened ProtocolInvariant
  import opened ProtocolSteps
  import opened ProtocolWrites

  // ---- Clean ----

  // The cached copies that a clean of dataset ds at d goes by list all that the manifests list.
  ghost predicate CopiesComplete(s: State, d: Dest, ds: string) {
    forall j: JobId :: j.dataset == ds && Published(s, d, j) && (d, j) in s.caches ==>
      NamesOf(PublishedManifest(s, d, j).volumes) <= NamesOf(s.caches[(d, j)].volumes)
  }

  // A clean that decides finds complete copies of every dataset it locked. Comparing each cached
  // copy with its object before the decision would tell.
  ghost predicate DecidesOnComplete(s: State, step: Step) {
    step.CleanDecide? && step.id in s.cleans ==>
      forall ds :: ds in s.cleans[step.id].locked ==> CopiesComplete(s, s.cleans[step.id].dest, ds)
  }

  // A change of the cleans alone.
  lemma CleansOnlyKeeps(w: World, s: State, t: State)
    requires Inv(w, s) && t == s.(cleans := t.cleans)
    requires LocksOk(t) && forall id :: id in t.cleans ==> CleanOk(t, t.cleans[id])
    ensures Inv(w, t)
  {
    forall j
      ensures JobOk(w, t, j)
    {
      FrameJob(w, s, t, j);
    }
    forall r | r in t.sends
      ensures RunOk(w, t, t.sends[r])
    {
      FrameRun(w, s, t, s.sends[r]);
    }
  }

  // ... that keeps what each clean has left to delete.
  lemma CleansSameKeeps(w: World, s: State, t: State)
    requires Inv(w, s) && t == s.(cleans := t.cleans) && LocksOk(t)
    requires forall id :: id in t.cleans ==>
               || (t.cleans[id].deletes.None? && t.cleans[id].local == {})
               || (id in s.cleans && t.cleans[id] == s.cleans[id])
    ensures Inv(w, t)
  {
    forall id | id in t.cleans
      ensures CleanOk(t, t.cleans[id])
    {
      if id in s.cleans && t.cleans[id] == s.cleans[id] {
        SameObjectsClean(s, t, s.cleans[id]);
      }
    }
    CleansOnlyKeeps(w, s, t);
  }

  lemma CleanStartKeeps(w: World, s: State, id: nat, dest: Dest, t: State)
    requires Inv(w, s) && CleanStartStep(s, id, dest, t)
    ensures Inv(w, t)
  {
    CleansSameKeeps(w, s, t);
  }

  lemma CleanLockKeeps(w: World, s: State, id: nat, ds: string, t: State)
    requires Inv(w, s) && CleanLockStep(s, id, ds, t)
    ensures Inv(w, t)
  {
    assert CleanOk(s, s.cleans[id]);
    forall k | k in t.cleans
      ensures CleanOk(t, t.cleans[k])
    {
      SameObjectsClean(s, t, s.cleans[k]);
    }
    CleansOnlyKeeps(w, s, t);
  }

  lemma CleanEndKeeps(w: World, s: State, id: nat, t: State)
    requires Inv(w, s) && CleanEndStep(s, id, t)
    ensures Inv(w, t)
  {
    CleansSameKeeps(w, s, t);
  }

  // The heart of clean's safety: a volume it may delete is in no published manifest, because the
  // manifest it goes by lists at least what the published one lists.
  lemma DeletableUnlisted(s: State, c: CleanRun, view: View, cleanLocal: bool, n: ObjectName)
    requires ReadUnderLocks(s, c, view) && CopiesComplete(s, c.dest, n.job.dataset)
    requires Deletable(view, n, c.locked, cleanLocal)
    ensures Published(s, c.dest, n.job) ==> n !in NamesOf(PublishedManifest(s, c.dest, n.job).volumes)
  {
    if Published(s, c.dest, n.job) {
      assert ManifestObject(n.job).job.dataset in c.locked;
      assert ManifestObject(n.job) in view.objects;
      assert Protects(view, n.job, c.locked, cleanLocal);
    }
  }

  lemma CleanDecideKeeps(w: World, s: State, id: nat, view: View, cleanLocal: bool, chosen: set<ObjectName>, t: State)
    requires Inv(w, s) && CleanDecideStep(s, id, view, cleanLocal, chosen, t)
    requires DecidesOnComplete(s, CleanDecide(id, view, cleanLocal, chosen))
    ensures Inv(w, t)
  {
    var c := s.cleans[id];
    forall n | n in chosen
      ensures n.VolumeObject? && n.job.dataset in c.locked
      ensures Published(t, c.dest, n.job) ==> n !in NamesOf(PublishedManifest(t, c.dest, n.job).volumes)
    {
      DeletableUnlisted(s, c, view, cleanLocal, n);
      assert Published(t, c.dest, n.job) == Published(s, c.dest, n.job);
    }
    forall k | k in t.cleans
      ensures CleanOk(t, t.cleans[k])
    {
      if k != id {
        SameObjectsClean(s, t, s.cleans[k]);
      }
    }
    CleansOnlyKeeps(w, s, t);
  }

  lemma CleanDeleteKeeps(w: World, s: State, id: nat, name: ObjectName, t: State)
    requires Inv(w, s) && CleanDeleteStep(s, id, name, t)
    ensures Inv(w, t)
  {
    var c := s.cleans[id];
    assert CleanOk(s, c);
    assert forall j :: j != name.job ==> SameFor(s, t, j);
    forall j
      ensures JobOk(w, t, j)
    {
      assert JobOk(w, s, j);
      if j != name.job {
        FrameJob(w, s, t, j);
      } else {
        DeletedJob(w, s, t, c.dest, name);
      }
    }
    forall r | r in t.sends
      ensures RunOk(w, t, t.sends[r])
    {
      FrameRun(w, s, t, s.sends[r]);
    }
    forall k | k in t.cleans
      ensures CleanOk(t, t.cleans[k])
    {
      assert CleanOk(s, s.cleans[k]);
      if k != id {
        FrameClean(s, t, s.cleans[k]);
      } else {
        forall n | n in t.cleans[id].deletes.value && Published(t, c.dest, n.job)
          ensures n !in NamesOf(PublishedManifest(t, c.dest, n.job).volumes)
        {
          assert Published(s, c.dest, n.job);
        }
      }
    }
  }

  lemma DeletedJob(w: World, s: State, t: State, d: Dest, name: ObjectName)
    requires JobOk(w, s, name.job) && name.VolumeObject?
    requires t.caches == s.caches && t.objects == s.objects - {(d, name)} && t.sends == s.sends
    requires Published(s, d, name.job) ==> name !in NamesOf(PublishedManifest(s, d, name.job).volumes)
    ensures JobOk(w, t, name.job)
  {
    forall x
      ensures PublishedOk(w, t, x, name.job) && CacheOk(w, t, x, name.job)
    {
      assert PublishedOk(w, s, x, name.job) && CacheOk(w, s, x, name.job);
      assert Published(t, x, name.job) == Published(s, x, name.job);
    }
  }

  lemma CleanForgetKeeps(w: World, s: State, id: nat, job: JobId, t: State)
    requires Inv(w, s) && CleanForgetStep(s, id, job, t)
    ensures Inv(w, t)
  {
    var c := s.cleans[id];
    assert CleanOk(s, c) && JobOk(w, s, job);
    CacheDropJob(w, s, t, c.dest, job);
    forall j
      ensures JobOk(w, t, j)
    {
      if j != job {
        FrameJob(w, s, t, j);
      }
    }
    forall r | r in t.sends
      ensures RunOk(w, t, t.sends[r])
    {
      FrameRun(w, s, t, s.sends[r]);
    }
    forall k | k in t.cleans
      ensures CleanOk(t, t.cleans[k])
    {
      assert CleanOk(s, s.cleans[k]);
      SameObjectsClean(s, t, s.cleans[k]);
      if k == id {
        SameObjectsClean(s, t, t.cleans[id]) by {
          assert CleanOk(s, t.cleans[id]);
        }
      }
    }
  }

  // ---- All steps, all runs ----

  lemma InitHolds(w: World, s: State)
    requires Init(s)
    ensures Inv(w, s)
  {
    forall j
      ensures JobOk(w, s, j)
    {
    }
  }

  // Every step keeps the invariant; the proof of each step is its own lemma.
  predicate Decides(step: Step) {
    step.Start? || step.Stop? || step.SendAnew? || step.Resume? || step.Reupload? || step.CopyFrom? || step.DiscardOne?
      || step.RewriteOne?
  }

  lemma DecisionsKeep(w: World, s: State, step: Step, t: State)
    requires Sound(w) && Inv(w, s) && Next(w, s, step, t) && DecidesOnComplete(s, step) && Decides(step)
    ensures Inv(w, t)
  {
    hide Inv, Sound, DecidesOnComplete;
    hide StartStep, StopStep, SendAnewStep, ResumeStep, ReuploadStep, CopyFromStep, DiscardOneStep;
    hide RewriteOneStep, OpenStreamStep, CutVolumeStep, EndStreamStep, UploadStep, RecordStep, SaveOneStep;
    hide FinaliseStep, PublishStep, CopyUploadStep, CopyCacheStep, SyncStep, CleanStartStep, CleanLockStep;
    hide CleanDecideStep, CleanDeleteStep, CleanForgetStep, CleanEndStep;
    match step
    case Start(run) => StartKeeps(w, s, run, t);
    case Stop(dataset) => StopKeeps(w, s, dataset, t);
    case SendAnew(dataset) => SendAnewKeeps(w, s, dataset, t);
    case Resume(dataset, sizers, keep) => ResumeKeeps(w, s, dataset, sizers, keep, t);
    case Reupload(dataset, sizers) => ReuploadKeeps(w, s, dataset, sizers, t);
    case CopyFrom(dataset, from) => CopyFromKeeps(w, s, dataset, from, t);
    case DiscardOne(dataset) => DiscardOneKeeps(w, s, dataset, t);
    case RewriteOne(dataset) => RewriteOneKeeps(w, s, dataset, t);
  }

  predicate Sends(step: Step) {
    step.OpenStream? || step.CutVolume? || step.EndStream? || step.Upload? || step.Record? || step.SaveOne?
      || step.Finalise? || step.Publish?
  }

  lemma SendsKeep(w: World, s: State, step: Step, t: State)
    requires Sound(w) && Inv(w, s) && Next(w, s, step, t) && DecidesOnComplete(s, step) && Sends(step)
    ensures Inv(w, t)
  {
    hide Inv, Sound, DecidesOnComplete;
    hide StartStep, StopStep, SendAnewStep, ResumeStep, ReuploadStep, CopyFromStep, DiscardOneStep;
    hide RewriteOneStep, OpenStreamStep, CutVolumeStep, EndStreamStep, UploadStep, RecordStep, SaveOneStep;
    hide FinaliseStep, PublishStep, CopyUploadStep, CopyCacheStep, SyncStep, CleanStartStep, CleanLockStep;
    hide CleanDecideStep, CleanDeleteStep, CleanForgetStep, CleanEndStep;
    match step
    case OpenStream(dataset, stream) => OpenStreamKeeps(w, s, dataset, stream, t);
    case CutVolume(dataset, blob, length) => CutVolumeKeeps(w, s, dataset, blob, length, t);
    case EndStream(dataset) => EndStreamKeeps(w, s, dataset, t);
    case Upload(dataset, volume, ok, bytes) => UploadKeeps(w, s, dataset, volume, ok, bytes, t);
    case Record(dataset, volume) => RecordKeeps(w, s, dataset, volume, t);
    case SaveOne(dataset) => SaveOneKeeps(w, s, dataset, t);
    case Finalise(dataset) => FinaliseKeeps(w, s, dataset, t);
    case Publish(dataset, ok) => PublishKeeps(w, s, dataset, ok, t);
  }

  predicate CopiesOrCleans(step: Step) {
    step.CopyUpload? || step.CopyCache? || step.Sync? || step.CleanStart? || step.CleanLock? || step.CleanDecide?
      || step.CleanDelete? || step.CleanForget? || step.CleanEnd?
  }

  lemma CopiesAndCleansKeep(w: World, s: State, step: Step, t: State)
    requires Sound(w) && Inv(w, s) && Next(w, s, step, t) && DecidesOnComplete(s, step) && CopiesOrCleans(step)
    ensures Inv(w, t)
  {
    hide Inv, Sound, DecidesOnComplete;
    hide StartStep, StopStep, SendAnewStep, ResumeStep, ReuploadStep, CopyFromStep, DiscardOneStep;
    hide RewriteOneStep, OpenStreamStep, CutVolumeStep, EndStreamStep, UploadStep, RecordStep, SaveOneStep;
    hide FinaliseStep, PublishStep, CopyUploadStep, CopyCacheStep, SyncStep, CleanStartStep, CleanLockStep;
    hide CleanDecideStep, CleanDeleteStep, CleanForgetStep, CleanEndStep;
    match step
    case CopyUpload(dataset, ok) => CopyUploadKeeps(w, s, dataset, ok, t);
    case CopyCache(dataset) => CopyCacheKeeps(w, s, dataset, t);
    case Sync(dest, job) => SyncKeeps(w, s, dest, job, t);
    case CleanStart(id, dest) => CleanStartKeeps(w, s, id, dest, t);
    case CleanLock(id, dataset) => CleanLockKeeps(w, s, id, dataset, t);
    case CleanDecide(id, view, cleanLocal, chosen) => CleanDecideKeeps(w, s, id, view, cleanLocal, chosen, t);
    case CleanDelete(id, name) => CleanDeleteKeeps(w, s, id, name, t);
    case CleanForget(id, job) => CleanForgetKeeps(w, s, id, job, t);
    case CleanEnd(id) => CleanEndKeeps(w, s, id, t);
  }

  lemma NextKeeps(w: World, s: State, step: Step, t: State)
    requires Sound(w) && Inv(w, s) && Next(w, s, step, t) && DecidesOnComplete(s, step)
    ensures Inv(w, t)
  {
    hide Inv, Sound, DecidesOnComplete, Next;
    if Decides(step) {
      DecisionsKeep(w, s, step, t);
    } else if Sends(step) {
      SendsKeep(w, s, step, t);
    } else {
      CopiesAndCleansKeep(w, s, step, t);
    }
  }

  // A run of the whole system: any interleaving of sends, resumes, copies, readers and cleans.
  ghost predicate Behaviour(w: World, states: seq<State>, steps: seq<Step>) {
    && |states| == |steps| + 1
    && Init(states[0])
    && forall i :: 0 <= i < |steps| ==> Next(w, states[i], steps[i], states[i + 1])
  }

  lemma {:induction false} InvAlong(w: World, states: seq<State>, steps: seq<Step>, k: nat)
    requires Sound(w) && Behaviour(w, states, steps) && k < |states|
    requires forall i :: 0 <= i < k ==> DecidesOnComplete(states[i], steps[i])
    ensures Inv(w, states[k])
  {
    if k == 0 {
      InitHolds(w, states[0]);
    } else {
      InvAlong(w, states, steps, k - 1);
      NextKeeps(w, states[k - 1], steps[k - 1], states[k]);
    }
  }

  // In every state of every behaviour, all crashes included, in which every clean decides on
  // complete copies: each published manifest lists volumes that are stored there as recorded and
  // decode to one whole stream, and each cache records only what is stored or absent.
  lemma PublishedManifestsRestore(w: World, states: seq<State>, steps: seq<Step>)
    requires Sound(w) && Behaviour(w, states, steps)
    requires forall i :: 0 <= i < |steps| ==> DecidesOnComplete(states[i], steps[i])
    ensures forall k :: 0 <= k < |states| ==> Integrity(w, states[k]) && CacheTruth(w, states[k])
  {
    forall k | 0 <= k < |states|
      ensures Integrity(w, states[k]) && CacheTruth(w, states[k])
    {
      InvAlong(w, states, steps, k);
      InvGivesIntegrity(w, states[k]);
    }
  }

  // ---- When a clean would lose a volume ----

  // What a clean of d reads.
  function ViewOf(s: State, d: Dest): (view: View)
    ensures forall n :: n in view.objects <==> (d, n) in s.objects
    ensures forall n :: n in view.objects ==> view.objects[n] == s.objects[(d, n)]
    ensures forall j :: j in view.caches <==> (d, j) in s.caches
    ensures forall j :: j in view.caches ==> view.caches[j] == s.caches[(d, j)]
  {
    View(
      map k | k in s.objects && k.0 == d :: k.1 := s.objects[k],
      map k | k in s.caches && k.0 == d :: k.1 := s.caches[k])
  }

  // A clean of dataset ds at d may delete a volume of a published manifest.
  ghost predicate CleanWouldBreak(s: State, d: Dest, ds: string, cleanLocal: bool) {
    exists n: ObjectName ::
      && Deletable(ViewOf(s, d), n, {ds}, cleanLocal)
      && Published(s, d, n.job)
      && n in NamesOf(PublishedManifest(s, d, n.job).volumes)
  }

  lemma CompleteCopiesProtect(s: State, d: Dest, ds: string, cleanLocal: bool)
    requires CopiesComplete(s, d, ds)
    ensures !CleanWouldBreak(s, d, ds, cleanLocal)
  {
    var view := ViewOf(s, d);
    forall n: ObjectName | Deletable(view, n, {ds}, cleanLocal) && Published(s, d, n.job)
      ensures n !in NamesOf(PublishedManifest(s, d, n.job).volumes)
    {
      assert ManifestObject(n.job) in view.objects;
      assert Protects(view, n.job, {ds}, cleanLocal);
    }
  }

  lemma StaleCopyExposes(w: World, s: State, d: Dest, j: JobId, n: ObjectName, cleanLocal: bool)
    requires forall x :: PublishedOk(w, s, d, x) && CacheOk(w, s, d, x)
    requires Published(s, d, j) && (d, j) in s.caches
    requires n in NamesOf(PublishedManifest(s, d, j).volumes) && n !in NamesOf(s.caches[(d, j)].volumes)
    ensures n.job == j && Deletable(ViewOf(s, d), n, {j.dataset}, cleanLocal)
  {
    var view := ViewOf(s, d);
    assert PublishedOk(w, s, d, j);
    GenuineNames(w, PublishedManifest(s, d, j));
    assert (d, n) in s.objects && n in view.objects;
    assert ManifestObject(j) in view.objects;
    assert Known(view, j.dataset);
    forall other: JobId | other.dataset in {j.dataset} && Protects(view, other, {j.dataset}, cleanLocal)
      ensures n !in NamesOf(Decoded(view, other).value.volumes)
    {
      OtherJobsNames(w, s, d, other);
      assert other == j ==> Decoded(view, j) == Some(s.caches[(d, j)]);
    }
  }

  // What a view decodes is the cached copy, else the published manifest.
  lemma DecodedIs(s: State, d: Dest, j: JobId)
    ensures Decoded(ViewOf(s, d), j) ==
      if (d, j) in s.caches then Some(s.caches[(d, j)])
      else if Published(s, d, j) then Some(PublishedManifest(s, d, j)) else None
  {
    hide ViewOf;
  }

  lemma DecodedGenuine(w: World, s: State, d: Dest, j: JobId)
    requires PublishedOk(w, s, d, j) && CacheOk(w, s, d, j)
    requires Decoded(ViewOf(s, d), j).Some?
    ensures Decoded(ViewOf(s, d), j).value.job == j && Genuine(w, Decoded(ViewOf(s, d), j).value)
  {
    hide Genuine, Holds, TrueAt, Decoded, ViewOf, Published, PublishedManifest;
    DecodedIs(s, d, j);
  }

  // The manifest a clean goes by for a job lists volumes of that job only.
  lemma OtherJobsNames(w: World, s: State, d: Dest, j: JobId)
    requires PublishedOk(w, s, d, j) && CacheOk(w, s, d, j)
    ensures Decoded(ViewOf(s, d), j).Some? ==>
              forall n :: n in NamesOf(Decoded(ViewOf(s, d), j).value.volumes) ==> n.job == j
  {
    hide PublishedOk, CacheOk, ViewOf, Decoded, Genuine;
    if Decoded(ViewOf(s, d), j).Some? {
      DecodedGenuine(w, s, d, j);
      GenuineNames(w, Decoded(ViewOf(s, d), j).value);
    }
  }

  // Whatever state a crash left: a clean is safe exactly when every cached copy is complete,
  // which is what comparing it with the object before the clean would tell.
  lemma CleanBreaksIffCopyStale(w: World, s: State, d: Dest, ds: string, cleanLocal: bool)
    requires forall j :: PublishedOk(w, s, d, j) && CacheOk(w, s, d, j)
    ensures CleanWouldBreak(s, d, ds, cleanLocal) <==> !CopiesComplete(s, d, ds)
  {
    if CopiesComplete(s, d, ds) {
      CompleteCopiesProtect(s, d, ds, cleanLocal);
    } else {
      var j: JobId :| j.dataset == ds && Published(s, d, j) && (d, j) in s.caches
        && !(NamesOf(PublishedManifest(s, d, j).volumes) <= NamesOf(s.caches[(d, j)].volumes));
      var n :| n in NamesOf(PublishedManifest(s, d, j).volumes) && n !in NamesOf(s.caches[(d, j)].volumes);
      StaleCopyExposes(w, s, d, j, n, cleanLocal);
    }
  }

  // In every reachable state, whatever crashed before: as long as cleans decided on complete
  // copies, the next one is safe exactly when its copies are complete.
  lemma ReachableCleanBreaksIff(
    w: World, states: seq<State>, steps: seq<Step>, k: nat, d: Dest, ds: string, cleanLocal: bool)
    requires Sound(w) && Behaviour(w, states, steps) && k < |states|
    requires forall i :: 0 <= i < k ==> DecidesOnComplete(states[i], steps[i])
    ensures CleanWouldBreak(states[k], d, ds, cleanLocal) <==> !CopiesComplete(states[k], d, ds)
  {
    hide Next, DecidesOnComplete, CleanWouldBreak, CopiesComplete, PublishedOk, CacheOk, RunOk, CleanOk;
    InvAlong(w, states, steps, k);
    forall j
      ensures PublishedOk(w, states[k], d, j) && CacheOk(w, states[k], d, j)
    {
      assert JobOk(w, states[k], j);
    }
    CleanBreaksIffCopyStale(w, states[k], d, ds, cleanLocal);
  }
}
