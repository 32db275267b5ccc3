// The invariant every step of the protocol keeps, and what follows from it: whatever sends,
// resumes, crashes and manifest copies happened, and whatever cleans that decided on complete
// copies, a published manifest restores.
module ProtocolInvariant {
  import opened Common
  import opened Manifests
  import opened Protocol

  ghost predicate Published(s: State, d: Dest, j: JobId) {
    HasManifest(s, d, j) && s.objects[(d, ManifestObject(j))].ManifestData?
  }

  ghost function PublishedManifest(s: State, d: Dest, j: JobId): Manifest
    requires Published(s, d, j)
  {
    s.objects[(d, ManifestObject(j))].manifest
  }

  // Each of the volumes is absent from d, or stored there byte for byte as recorded.
  ghost predicate TrueAt(w: World, s: State, d: Dest, volumes: seq<VolumeInfo>) {
    forall v :: v in volumes && (d, v.name) in s.objects ==>
      s.objects[(d, v.name)].VolumeData? && Describes(w, v, s.objects[(d, v.name)].bytes)
  }

  ghost predicate PublishedOk(w: World, s: State, d: Dest, j: JobId) {
    Published(s, d, j) ==>
      var m := PublishedManifest(s, d, j);
      m.job == j && m.final && Genuine(w, m) && Holds(w, s, d, m.volumes)
  }

  ghost predicate CacheOk(w: World, s: State, d: Dest, j: JobId) {
    (d, j) in s.caches ==>
      var m := s.caches[(d, j)];
      m.job == j && Genuine(w, m) && TrueAt(w, s, d, m.volumes)
  }

  ghost predicate JobOk(w: World, s: State, j: JobId) {
    && (forall d :: PublishedOk(w, s, d, j))
    && (forall d :: CacheOk(w, s, d, j))
  }

  ghost predicate Unpublished(s: State, run: Run) {
    forall d :: d in run.dests ==> !HasManifest(s, d, run.job)
  }

  ghost predicate KeptBy(w: World, run: Run, kept: seq<VolumeInfo>, plains: seq<Bytes>, blobs: seq<Bytes>) {
    && |kept| == |plains|
    && Decodes(w, plains, blobs)
    && forall i :: 0 <= i < |kept| ==>
         kept[i].number == i + 1 && IsPart(w, run.job, run.compressor, plains, blobs, kept[i])
  }

  ghost predicate KeptOk(w: World, s: State, run: Run, kept: seq<VolumeInfo>) {
    && (exists plains, blobs :: KeptBy(w, run, kept, plains, blobs))
    && forall d :: d in run.dests ==> Holds(w, s, d, kept)
  }

  // The parts of the stream this run accounts for: the kept volumes, then the ones it cut.
  ghost predicate SendBy(w: World, run: Run, send: Send, plains: seq<Bytes>, blobs: seq<Bytes>) {
    var k := |send.kept|;
    && |plains| == k + |send.cuts|
    && Decodes(w, plains, blobs)
    && (forall i :: 0 <= i < k ==>
          send.kept[i].number == i + 1 && IsPart(w, run.job, run.compressor, plains, blobs, send.kept[i]))
    && (forall i :: 0 <= i < |send.cuts| ==>
          && send.cuts[i].info.number == k + i + 1
          && send.cuts[i].blob == blobs[k + i]
          && IsPart(w, run.job, run.compressor, plains, blobs, send.cuts[i].info))
    && send.position <= |send.stream|
    && Concat(plains) == send.stream[..send.position]
    && (send.ended ==> send.position == |send.stream| && w.whole(run.job, send.stream))
  }

  ghost predicate SendGenuine(w: World, run: Run, send: Send) {
    exists plains, blobs :: SendBy(w, run, send, plains, blobs)
  }

  // What a send accounts for does not depend on where its volumes have got to.
  lemma SameParts(w: World, run: Run, run': Run, send: Send, send': Send)
    requires SendGenuine(w, run, send) && run'.job == run.job && run'.compressor == run.compressor
    requires send'.kept == send.kept && |send'.cuts| == |send.cuts|
    requires forall k :: 0 <= k < |send.cuts| ==>
      send'.cuts[k].info == send.cuts[k].info && send'.cuts[k].blob == send.cuts[k].blob
    requires send'.stream == send.stream && send'.position == send.position && send'.ended == send.ended
    ensures SendGenuine(w, run', send')
  {
    hide IsPart, Decodes, Concat;
    var plains, blobs :| SendBy(w, run, send, plains, blobs);
    assert SendBy(w, run', send', plains, blobs);
  }

  // Volume c is at the first c.reached destinations; it is in the manifest only if at all.
  ghost predicate CutStored(s: State, run: Run, c: Cut) {
    && c.reached <= |run.dests|
    && (c.recorded ==> c.reached == |run.dests|)
    && forall p :: 0 <= p < c.reached ==>
         (run.dests[p], c.info.name) in s.objects && s.objects[(run.dests[p], c.info.name)] == VolumeData(c.blob)
  }

  ghost predicate SavingOk(s: State, run: Run, send: Send) {
    send.saving.Some? ==>
      var save := send.saving.value;
      && save.todo != [] && (forall d :: d in save.todo ==> d in run.dests)
      && save.manifest == ManifestOf(run, ListedVolumes(send), save.manifest.final)
      && send.publishing.None?
      && (save.manifest.final ==>
            && send.ended && AllRecorded(send.cuts)
            && forall d :: d in run.dests && d !in save.todo ==>
                 (d, run.job) in s.caches && s.caches[(d, run.job)] == save.manifest)
  }

  ghost predicate PublishingOk(s: State, run: Run, send: Send) {
    && (send.publishing.None? ==> Unpublished(s, run))
    && (send.publishing.Some? ==>
          && send.ended && AllRecorded(send.cuts)
          && (forall d :: d in send.publishing.value ==> d in run.dests)
          && forall d :: d in run.dests ==>
               (d, run.job) in s.caches && s.caches[(d, run.job)] == ManifestOf(run, ListedVolumes(send), true))
  }

  ghost predicate SendOk(w: World, s: State, run: Run, send: Send) {
    && SendGenuine(w, run, send)
    && (forall d :: d in run.dests ==> Holds(w, s, d, send.kept))
    && (forall i :: 0 <= i < |send.cuts| ==> CutStored(s, run, send.cuts[i]))
    && (forall d :: d in run.dests && (d, run.job) in s.caches ==>
          forall v :: v in s.caches[(d, run.job)].volumes ==> v in ListedVolumes(send))
    && SavingOk(s, run, send)
    && PublishingOk(s, run, send)
  }

  ghost predicate RunOk(w: World, s: State, run: Run) {
    && run.dests != [] && Distinct(run.dests)
    && match run.phase
       case Checking => true
       case Discarding(todo) =>
         && Unpublished(s, run)
         && forall d :: d in run.dests && d !in todo ==> (d, run.job) !in s.caches
       case Rewriting(kept, todo) =>
         && Unpublished(s, run)
         && KeptOk(w, s, run, kept)
         && (forall d :: d in todo ==> d in run.dests)
         && forall d :: d in run.dests && d !in todo ==>
              (d, run.job) in s.caches && s.caches[(d, run.job)] == ManifestOf(run, kept, false)
       case Sending(send) => SendOk(w, s, run, send)
       case Copying(m, todo, uploaded) =>
         && m.job == run.job && m.final && Genuine(w, m)
         && (forall d :: d in todo ==> Holds(w, s, d, m.volumes))
         && (uploaded ==> todo != [] && Published(s, todo[0], run.job) && PublishedManifest(s, todo[0], run.job) == m)
  }

  // What is left to delete is of locked datasets, and no published manifest lists it.
  ghost predicate CleanOk(s: State, c: CleanRun) {
    && (c.deletes.Some? ==> forall n :: n in c.deletes.value ==>
          && n.VolumeObject? && n.job.dataset in c.locked
          && (Published(s, c.dest, n.job) ==> n !in NamesOf(PublishedManifest(s, c.dest, n.job).volumes)))
    && forall j :: j in c.local ==> j.dataset in c.locked
  }

  ghost predicate LocksOk(s: State) {
    && (forall id, ds :: id in s.cleans && ds in s.cleans[id].locked ==> ds !in s.sends)
    && (forall a, b :: a in s.cleans && b in s.cleans && a != b ==> s.cleans[a].locked !! s.cleans[b].locked)
  }

  ghost predicate Inv(w: World, s: State) {
    && (forall j :: JobOk(w, s, j))
    && (forall ds :: ds in s.sends ==> s.sends[ds].job.dataset == ds && RunOk(w, s, s.sends[ds]))
    && (forall id :: id in s.cleans ==> CleanOk(s, s.cleans[id]))
    && LocksOk(s)
  }

  // ---- Frames: a step about one job changes nothing for the others ----

  ghost predicate SameFor(s: State, t: State, j: JobId) {
    && (forall d, n: ObjectName :: n.job == j ==> (
          && ((d, n) in s.objects <==> (d, n) in t.objects)
          && ((d, n) in s.objects ==> s.objects[(d, n)] == t.objects[(d, n)])))
    && (forall d ::
          && ((d, j) in s.caches <==> (d, j) in t.caches)
          && ((d, j) in s.caches ==> s.caches[(d, j)] == t.caches[(d, j)]))
  }

  // The names a genuine manifest lists are volumes of its own job.
  lemma GenuineNames(w: World, m: Manifest)
    requires Genuine(w, m)
    ensures forall v :: v in m.volumes ==> v.name.VolumeObject? && v.name.job == m.job && v.name.number == v.number
    ensures Ascending(m.volumes)
  {
    var plains, blobs :| GenuineBy(w, m, plains, blobs);
  }

  lemma FrameJob(w: World, s: State, t: State, j: JobId)
    requires JobOk(w, s, j) && SameFor(s, t, j)
    ensures JobOk(w, t, j)
  {
    forall d
      ensures PublishedOk(w, t, d, j) && CacheOk(w, t, d, j)
    {
      assert PublishedOk(w, s, d, j) && CacheOk(w, s, d, j);
      assert ManifestObject(j).job == j;
      assert Published(s, d, j) == Published(t, d, j);
      if Published(t, d, j) {
        GenuineNames(w, PublishedManifest(t, d, j));
      }
      if (d, j) in t.caches {
        GenuineNames(w, t.caches[(d, j)]);
      }
    }
  }

  lemma FrameHolds(w: World, s: State, t: State, d: Dest, j: JobId, volumes: seq<VolumeInfo>)
    requires SameFor(s, t, j) && Holds(w, s, d, volumes)
    requires forall v :: v in volumes ==> v.name.job == j
    ensures Holds(w, t, d, volumes)
  {
  }

  lemma FrameRun(w: World, s: State, t: State, run: Run)
    requires RunOk(w, s, run) && SameFor(s, t, run.job)
    ensures RunOk(w, t, run)
  {
    assert ManifestObject(run.job).job == run.job;
    match run.phase
    case Checking =>
    case Discarding(todo) =>
    case Rewriting(kept, todo) =>
      var plains, blobs :| KeptBy(w, run, kept, plains, blobs);
      forall d | d in run.dests
        ensures Holds(w, t, d, kept)
      {
        FrameHolds(w, s, t, d, run.job, kept);
      }
    case Sending(send) =>
      FrameSend(w, s, t, run, send);
    case Copying(m, todo, uploaded) =>
      GenuineNames(w, m);
      forall d | d in todo
        ensures Holds(w, t, d, m.volumes)
      {
        FrameHolds(w, s, t, d, run.job, m.volumes);
      }
  }

  lemma FrameSend(w: World, s: State, t: State, run: Run, send: Send)
    requires SendOk(w, s, run, send) && SameFor(s, t, run.job)
    ensures SendOk(w, t, run, send)
  {
    var plains, blobs :| SendBy(w, run, send, plains, blobs);
    assert ManifestObject(run.job).job == run.job;
    forall d | d in run.dests
      ensures Holds(w, t, d, send.kept)
    {
      FrameHolds(w, s, t, d, run.job, send.kept);
    }
    forall i | 0 <= i < |send.cuts|
      ensures CutStored(t, run, send.cuts[i])
    {
      assert CutStored(s, run, send.cuts[i]);
    }
  }

  lemma FrameClean(s: State, t: State, c: CleanRun)
    requires CleanOk(s, c)
    requires forall j: JobId :: j.dataset in c.locked ==> SameFor(s, t, j)
    ensures CleanOk(t, c)
  {
    if c.deletes.Some? {
      forall n | n in c.deletes.value && Published(t, c.dest, n.job)
        ensures n !in NamesOf(PublishedManifest(t, c.dest, n.job).volumes)
      {
        assert SameFor(s, t, n.job);
        assert ManifestObject(n.job).job == n.job;
        assert Published(s, c.dest, n.job);
      }
    }
  }

  // A step of one send: only its own job has to be looked at.
  lemma SendStepKeeps(w: World, s: State, t: State, ds: string)
    requires Inv(w, s)
    requires ds in s.sends && ds in t.sends && t.sends == s.sends[ds := t.sends[ds]] && t.cleans == s.cleans
    requires t.sends[ds].job == s.sends[ds].job
    requires forall j :: j != s.sends[ds].job ==> SameFor(s, t, j)
    requires JobOk(w, t, s.sends[ds].job) && RunOk(w, t, t.sends[ds])
    ensures Inv(w, t)
  {
    var job := s.sends[ds].job;
    forall j
      ensures JobOk(w, t, j)
    {
      if j != job {
        FrameJob(w, s, t, j);
      }
    }
    forall r | r in t.sends
      ensures t.sends[r].job.dataset == r && RunOk(w, t, t.sends[r])
    {
      if r != ds {
        FrameRun(w, s, t, s.sends[r]);
      }
    }
    forall id | id in t.cleans
      ensures CleanOk(t, t.cleans[id])
    {
      FrameClean(s, t, s.cleans[id]);
    }
  }

  // ---- Reading back ----

  // The stream a restore of the listed volumes from d produces, if every volume decodes.
  ghost function Restored(w: World, s: State, d: Dest, volumes: seq<VolumeInfo>): Option<Bytes> {
    if volumes == [] then Some([])
    else
      var rest := Restored(w, s, d, volumes[..|volumes| - 1]);
      var name := volumes[|volumes| - 1].name;
      if rest.None? || (d, name) !in s.objects || !s.objects[(d, name)].VolumeData? then None
      else
        match w.decode(s.objects[(d, name)].bytes)
        case None => None
        case Some(plain) => Some(rest.value + plain)
  }

  lemma {:induction false} RestoredPrefix(
    w: World, s: State, d: Dest, m: Manifest, plains: seq<Bytes>, blobs: seq<Bytes>, n: nat)
    requires Sound(w) && GenuineBy(w, m, plains, blobs) && m.final
    requires Holds(w, s, d, m.volumes) && n <= |m.volumes|
    ensures Restored(w, s, d, m.volumes[..n]) == Some(Concat(plains[..n]))
  {
    if n > 0 {
      RestoredPrefix(w, s, d, m, plains, blobs, n - 1);
      var v := m.volumes[n - 1];
      assert v in m.volumes;
      AscendingIsContiguous(m.volumes, n - 1, |m.volumes|);
      assert w.sha(s.objects[(d, v.name)].bytes) == w.sha(blobs[n - 1]);
      assert m.volumes[..n][..n - 1] == m.volumes[..n - 1];
      assert plains[..n][..n - 1] == plains[..n - 1];
    }
  }

  // Every manifest at a destination lists volumes that are all there, with the recorded size
  // and hash, and that decode in order to one whole stream of its job.
  ghost predicate Integrity(w: World, s: State) {
    forall d, j :: Published(s, d, j) ==>
      var m := PublishedManifest(s, d, j);
      && m.job == j
      && Holds(w, s, d, m.volumes)
      && Restored(w, s, d, m.volumes).Some?
      && w.whole(j, Restored(w, s, d, m.volumes).value)
  }

  // Every volume a cache records is absent from its destination or there as recorded.
  ghost predicate CacheTruth(w: World, s: State) {
    forall d, j :: (d, j) in s.caches ==> TrueAt(w, s, d, s.caches[(d, j)].volumes)
  }

  lemma InvGivesIntegrity(w: World, s: State)
    requires Sound(w) && Inv(w, s)
    ensures Integrity(w, s) && CacheTruth(w, s)
  {
    forall d, j | Published(s, d, j)
      ensures var m := PublishedManifest(s, d, j);
              && m.job == j && Holds(w, s, d, m.volumes)
              && Restored(w, s, d, m.volumes).Some? && w.whole(j, Restored(w, s, d, m.volumes).value)
    {
      assert JobOk(w, s, j) && PublishedOk(w, s, d, j);
      var m := PublishedManifest(s, d, j);
      var plains, blobs :| GenuineBy(w, m, plains, blobs);
      RestoredPrefix(w, s, d, m, plains, blobs, |m.volumes|);
      assert m.volumes[..|m.volumes|] == m.volumes && plains[..|plains|] == plains;
    }
    forall d, j | (d, j) in s.caches
      ensures TrueAt(w, s, d, s.caches[(d, j)].volumes)
    {
      assert JobOk(w, s, j) && CacheOk(w, s, d, j);
    }
  }
}
