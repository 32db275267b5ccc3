// The send / resume / publish / clean protocol as a state machine. The state is what survives a
// crash (the objects at each destination and the local manifest caches) and what the running
// sends and cleans have decided. Every step is one write, so a run can stop between any two.
module Protocol {
  import opened Common
  import opened Manifests
  import opened Resume

  type Dest = string

  // An object at a destination. Torn is what an upload that was cut short leaves under a
  // manifest's name; a volume cut short is VolumeData with other bytes.
  datatype Stored = VolumeData(bytes: Bytes) | ManifestData(manifest: Manifest) | Torn

  // A volume this run cut: its record, the bytes to store, the part of the stream it holds, how
  // many destinations have it (they are fed in order), and whether it is in the manifest.
  datatype Cut = Cut(info: VolumeInfo, blob: Bytes, plain: Bytes, reached: nat, recorded: bool)

  // A saveManifest in progress: the manifest, and the destinations whose cache lacks it.
  datatype Save = Save(manifest: Manifest, todo: seq<Dest>)

  datatype Send = Send(
    stream: Bytes, kept: seq<VolumeInfo>, cuts: seq<Cut>, position: nat, ended: bool,
    saving: Option<Save>, publishing: Option<seq<Dest>>)

  datatype Phase =
    | Checking
    | Discarding(todo: seq<Dest>)
    | Rewriting(kept: seq<VolumeInfo>, todo: seq<Dest>)
    | Sending(send: Send)
    | Copying(manifest: Manifest, todo: seq<Dest>, uploaded: bool)

  datatype Run = Run(
    job: JobId, compressor: string, identity: string, dests: seq<Dest>,
    resume: bool, completePartial: bool, phase: Phase)

  // A clean of one destination: the datasets it locked and, once decided, what is left to delete.
  datatype CleanRun = CleanRun(
    dest: Dest, locked: set<string>, deletes: Option<set<ObjectName>>, local: set<JobId>)

  datatype State = State(
    objects: map<(Dest, ObjectName), Stored>,
    caches: map<(Dest, JobId), Manifest>,
    sends: map<string, Run>,
    cleans: map<nat, CleanRun>)

  // What a clean read of its destination and of the cache of it.
  datatype View = View(objects: map<ObjectName, Stored>, caches: map<JobId, Manifest>)

  datatype Step =
    | Start(run: Run)
    | Stop(dataset: string)
    | SendAnew(dataset: string)
    | Resume(dataset: string, sizers: set<Dest>, keep: nat)
    | Reupload(dataset: string, sizers: set<Dest>)
    | CopyFrom(dataset: string, from: Dest)
    | DiscardOne(dataset: string)
    | RewriteOne(dataset: string)
    | OpenStream(dataset: string, stream: Bytes)
    | CutVolume(dataset: string, blob: Bytes, length: nat)
    | EndStream(dataset: string)
    | Upload(dataset: string, volume: nat, ok: bool, bytes: Bytes)
    | Record(dataset: string, volume: nat)
    | SaveOne(dataset: string)
    | Finalise(dataset: string)
    | Publish(dataset: string, ok: bool)
    | CopyUpload(dataset: string, ok: bool)
    | CopyCache(dataset: string)
    | Sync(dest: Dest, job: JobId)
    | CleanStart(id: nat, dest: Dest)
    | CleanLock(id: nat, dataset: string)
    | CleanDecide(id: nat, view: View, cleanLocal: bool, chosen: set<ObjectName>)
    | CleanDelete(id: nat, name: ObjectName)
    | CleanForget(id: nat, job: JobId)
    | CleanEnd(id: nat)

  ghost predicate Init(s: State) {
    s == State(map[], map[], map[], map[])
  }

  // ---- Sends ----

  function RecordedInfos(cuts: seq<Cut>): (r: seq<VolumeInfo>) {
    if cuts == [] then []
    else
      var last := cuts[|cuts| - 1];
      RecordedInfos(cuts[..|cuts| - 1]) + (if last.recorded then [last.info] else [])
  }

  // jobInfo.Volumes, in the order saveManifest sorts it.
  function ListedVolumes(send: Send): (r: seq<VolumeInfo>) {
    send.kept + RecordedInfos(send.cuts)
  }

  predicate AllRecorded(cuts: seq<Cut>) {
    forall c :: c in cuts ==> c.recorded
  }

  function ManifestOf(run: Run, volumes: seq<VolumeInfo>, final: bool): (m: Manifest) {
    Manifest(run.job, run.compressor, run.identity, volumes, final)
  }

  predicate HasManifest(s: State, d: Dest, job: JobId) {
    (d, ManifestObject(job)) in s.objects
  }

  function Missing(s: State, job: JobId, dests: seq<Dest>): (r: seq<Dest>)
    ensures forall d :: d in r <==> d in dests && !HasManifest(s, d, job)
  {
    if dests == [] then []
    else (if HasManifest(s, dests[0], job) then [] else [dests[0]]) + Missing(s, job, dests[1..])
  }

  function ListingOf(s: State, d: Dest, sizers: set<Dest>): (r: Listing) {
    Listed(
      map k | k in s.objects && k.0 == d && s.objects[k].VolumeData? :: k.1 := |s.objects[k].bytes|,
      d in sizers, {})
  }

  function Listings(s: State, dests: seq<Dest>, sizers: set<Dest>): (r: seq<Listing>) {
    seq(|dests|, i requires 0 <= i < |dests| => ListingOf(s, dests[i], sizers))
  }

  function CachedVolumes(s: State, d: Dest, job: JobId): (r: Option<seq<VolumeInfo>>) {
    if (d, job) in s.caches then Some(s.caches[(d, job)].volumes) else None
  }

  function OtherCaches(s: State, dests: seq<Dest>, job: JobId): (r: seq<Option<seq<VolumeInfo>>>) {
    seq(|dests|, i requires 0 <= i < |dests| => CachedVolumes(s, dests[i], job))
  }

  ghost predicate Holds(w: World, s: State, d: Dest, volumes: seq<VolumeInfo>) {
    forall v :: v in volumes ==>
      && (d, v.name) in s.objects
      && s.objects[(d, v.name)].VolumeData?
      && Describes(w, v, s.objects[(d, v.name)].bytes)
  }

  function WithPhase(s: State, dataset: string, phase: Phase): (r: State)
    requires dataset in s.sends
  {
    s.(sends := s.sends[dataset := s.sends[dataset].(phase := phase)])
  }

  function WithSend(s: State, dataset: string, send: Send): (r: State)
    requires dataset in s.sends
  {
    WithPhase(s, dataset, Sending(send))
  }

  predicate Locked(s: State, dataset: string) {
    || dataset in s.sends
    || exists id :: id in s.cleans && dataset in s.cleans[id].locked
  }

  predicate IsSending(s: State, dataset: string) {
    dataset in s.sends && s.sends[dataset].phase.Sending?
  }

  // A --resume that finds what an interrupted attempt cached for the first destination.
  predicate Resumable(s: State, run: Run) {
    && run.resume
    && run.dests != []
    && (run.dests[0], run.job) in s.caches
    && var m := s.caches[(run.dests[0], run.job)];
       && m.compressor == run.compressor
       && m.identity == run.identity
  }

  ghost predicate StartStep(s: State, run: Run, t: State) {
    && !Locked(s, run.job.dataset)
    && run.dests != [] && Distinct(run.dests)
    && run.phase == Checking
    && t == s.(sends := s.sends[run.job.dataset := run])
  }

  // The end of a run: done, refused, failed or killed. Its lock is free again.
  ghost predicate StopStep(s: State, dataset: string, t: State) {
    && dataset in s.sends
    && t == s.(sends := s.sends - {dataset})
  }

  // No destination has the set's manifest: a fresh attempt, or a resume with nothing to keep.
  ghost predicate SendAnewStep(s: State, dataset: string, t: State) {
    && dataset in s.sends && s.sends[dataset].phase == Checking
    && (forall d :: d in s.sends[dataset].dests ==> !HasManifest(s, d, s.sends[dataset].job))
    && t == WithPhase(s, dataset, Discarding(s.sends[dataset].dests))
  }

  ghost predicate ResumeStep(s: State, dataset: string, sizers: set<Dest>, keep: nat, t: State) {
    && dataset in s.sends && s.sends[dataset].phase == Checking
    && var run := s.sends[dataset];
    && (forall d :: d in run.dests ==> !HasManifest(s, d, run.job))
    && Resumable(s, run)
    && var m := s.caches[(run.dests[0], run.job)];
    && IsResumePoint(
         m.volumes, Listings(s, run.dests, sizers), OtherCaches(s, run.dests[1..], run.job), keep)
    && keep > 0
    && !(m.final && keep == |m.volumes|)
    && t == WithPhase(s, dataset, Rewriting(m.volumes[..keep], run.dests))
  }

  // Every volume is there and the cached manifest is final: only its upload is missing.
  ghost predicate ReuploadStep(s: State, dataset: string, sizers: set<Dest>, t: State) {
    && dataset in s.sends && s.sends[dataset].phase == Checking
    && var run := s.sends[dataset];
    && (forall d :: d in run.dests ==> !HasManifest(s, d, run.job))
    && Resumable(s, run)
    && var m := s.caches[(run.dests[0], run.job)];
    && m.volumes != [] && m.final
    && IsResumePoint(
         m.volumes, Listings(s, run.dests, sizers), OtherCaches(s, run.dests[1..], run.job), |m.volumes|)
    && t == WithPhase(s, dataset, Copying(m, run.dests, false))
  }

  // Some destinations have the manifest: verify the volumes at the others, then copy it there.
  ghost predicate CopyFromStep(w: World, s: State, dataset: string, from: Dest, t: State) {
    && dataset in s.sends && s.sends[dataset].phase == Checking
    && var run := s.sends[dataset];
    && (run.resume || run.completePartial)
    && from in run.dests && HasManifest(s, from, run.job)
    && s.objects[(from, ManifestObject(run.job))].ManifestData?
    && var m := s.objects[(from, ManifestObject(run.job))].manifest;
    && (forall d :: d in Missing(s, run.job, run.dests) ==> Holds(w, s, d, m.volumes))
    && t == WithPhase(s, dataset, Copying(m, Missing(s, run.job, run.dests), false))
  }

  ghost predicate DiscardOneStep(s: State, dataset: string, t: State) {
    && dataset in s.sends && s.sends[dataset].phase.Discarding? && s.sends[dataset].phase.todo != []
    && var run := s.sends[dataset];
    && t == WithPhase(s, dataset, Discarding(run.phase.todo[1..])).(
              caches := s.caches - {(run.phase.todo[0], run.job)})
  }

  ghost predicate RewriteOneStep(s: State, dataset: string, t: State) {
    && dataset in s.sends && s.sends[dataset].phase.Rewriting? && s.sends[dataset].phase.todo != []
    && var run := s.sends[dataset];
    && t == WithPhase(s, dataset, Rewriting(run.phase.kept, run.phase.todo[1..])).(
              caches := s.caches[(run.phase.todo[0], run.job) := ManifestOf(run, run.phase.kept, false)])
  }

  // One cache of a saveManifest; after the last one of a final manifest, its upload starts.
  ghost predicate SaveOneStep(s: State, dataset: string, t: State) {
    && IsSending(s, dataset)
    && var run, send := s.sends[dataset], s.sends[dataset].phase.send;
    && send.saving.Some? && send.saving.value.todo != []
    && var save := send.saving.value;
    && var rest := save.todo[1..];
    && t == WithSend(s, dataset, send.(
              saving := if rest == [] then None else Some(save.(todo := rest)),
              publishing := if rest == [] && save.manifest.final then Some(run.dests) else send.publishing)).(
              caches := s.caches[(save.todo[0], run.job) := save.manifest])
  }

  ghost predicate CopyCacheStep(s: State, dataset: string, t: State) {
    && dataset in s.sends && s.sends[dataset].phase.Copying?
    && var run := s.sends[dataset];
    && run.phase.uploaded && run.phase.todo != []
    && t == WithPhase(s, dataset, Copying(run.phase.manifest, run.phase.todo[1..], false)).(
              caches := s.caches[(run.phase.todo[0], run.job) := run.phase.manifest])
  }

  // Any reader (list, plan, a smart send) downloads a manifest the cache lacks.
  ghost predicate SyncStep(s: State, dest: Dest, job: JobId, t: State) {
    && HasManifest(s, dest, job) && (dest, job) !in s.caches
    && s.objects[(dest, ManifestObject(job))].ManifestData?
    && t == s.(caches := s.caches[(dest, job) := s.objects[(dest, ManifestObject(job))].manifest])
  }

  // The record of the next volume of a run, when its part of the stream is stored as blob.
  function NextInfo(w: World, run: Run, send: Send, blob: Bytes, end: nat): (v: VolumeInfo)
    requires send.position <= end <= |send.stream|
  {
    var number := |send.kept| + |send.cuts| + 1;
    VolumeInfo(
      number, VolumeObject(run.job, run.compressor, number), |blob|, w.sha(blob),
      end - send.position, w.sha(send.stream[..end]))
  }

  // The stream may be any bytes; a resume accepts it only if the hash of what it skips matches.
  ghost predicate OpenStreamStep(w: World, s: State, dataset: string, stream: Bytes, t: State) {
    && dataset in s.sends
    && var run := s.sends[dataset];
    && (run.phase.Discarding? || run.phase.Rewriting?) && run.phase.todo == []
    && var kept := if run.phase.Rewriting? then run.phase.kept else [];
    && StreamBytes(kept) <= |stream|
    && (kept != [] ==> w.sha(stream[..StreamBytes(kept)]) == kept[|kept| - 1].streamSha256)
    && t == WithSend(s, dataset, Send(stream, kept, [], StreamBytes(kept), false, None, None))
  }

  ghost predicate CutVolumeStep(w: World, s: State, dataset: string, blob: Bytes, length: nat, t: State) {
    && IsSending(s, dataset)
    && var run, send := s.sends[dataset], s.sends[dataset].phase.send;
    && !send.ended && send.position + length <= |send.stream|
    && var end := send.position + length;
    && var plain := send.stream[send.position..end];
    && w.decode(blob) == Some(plain)
    && t == WithSend(s, dataset, send.(
              cuts := send.cuts + [Cut(NextInfo(w, run, send, blob, end), blob, plain, 0, false)],
              position := end))
  }

  // zfs send exited cleanly and every byte of it is in a volume.
  ghost predicate EndStreamStep(w: World, s: State, dataset: string, t: State) {
    && IsSending(s, dataset)
    && var run, send := s.sends[dataset], s.sends[dataset].phase.send;
    && !send.ended && send.position == |send.stream| && w.whole(run.job, send.stream)
    && t == WithSend(s, dataset, send.(ended := true))
  }

  ghost predicate RecordStep(s: State, dataset: string, i: nat, t: State) {
    && IsSending(s, dataset)
    && var run, send := s.sends[dataset], s.sends[dataset].phase.send;
    && i < |send.cuts| && !send.cuts[i].recorded && send.cuts[i].reached == |run.dests|
    && send.saving.None? && send.publishing.None?
    && var next := send.(cuts := send.cuts[i := send.cuts[i].(recorded := true)]);
    && t == WithSend(s, dataset, next.(
              saving := Some(Save(ManifestOf(run, ListedVolumes(next), false), run.dests))))
  }

  ghost predicate FinaliseStep(s: State, dataset: string, t: State) {
    && IsSending(s, dataset)
    && var run, send := s.sends[dataset], s.sends[dataset].phase.send;
    && send.ended && AllRecorded(send.cuts)
    && send.saving.None? && send.publishing.None?
    && t == WithSend(s, dataset, send.(
              saving := Some(Save(ManifestOf(run, ListedVolumes(send), true), run.dests))))
  }

  // An upload stores the volume, or, cut short, leaves any bytes under its name.
  ghost predicate UploadStep(s: State, dataset: string, i: nat, ok: bool, bytes: Bytes, t: State) {
    && IsSending(s, dataset)
    && var run, send := s.sends[dataset], s.sends[dataset].phase.send;
    && i < |send.cuts| && send.cuts[i].reached < |run.dests|
    && var c := send.cuts[i];
    && t == WithSend(s, dataset, if ok then send.(cuts := send.cuts[i := c.(reached := c.reached + 1)]) else send).(
              objects := s.objects[(run.dests[c.reached], c.info.name) := VolumeData(if ok then c.blob else bytes)])
  }

  ghost predicate PublishStep(s: State, dataset: string, ok: bool, t: State) {
    && IsSending(s, dataset)
    && var run, send := s.sends[dataset], s.sends[dataset].phase.send;
    && send.publishing.Some? && send.publishing.value != []
    && var todo := send.publishing.value;
    && t == WithSend(s, dataset, if ok then send.(publishing := Some(todo[1..])) else send).(
              objects := s.objects[(todo[0], ManifestObject(run.job)) :=
                if ok then ManifestData(ManifestOf(run, ListedVolumes(send), true)) else Torn])
  }

  ghost predicate CopyUploadStep(s: State, dataset: string, ok: bool, t: State) {
    && dataset in s.sends && s.sends[dataset].phase.Copying?
    && var run := s.sends[dataset];
    && !run.phase.uploaded && run.phase.todo != []
    && t == WithPhase(s, dataset, if ok then run.phase.(uploaded := true) else run.phase).(
              objects := s.objects[(run.phase.todo[0], ManifestObject(run.job)) :=
                if ok then ManifestData(run.phase.manifest) else Torn])
  }

  // ---- Clean ----

  // The manifest clean goes by for a set whose manifest object is listed: the cached copy when
  // there is one, else the object.
  function Decoded(view: View, job: JobId): (r: Option<Manifest>) {
    if job in view.caches then Some(view.caches[job])
    else if ManifestObject(job) in view.objects && view.objects[ManifestObject(job)].ManifestData?
      then Some(view.objects[ManifestObject(job)].manifest)
    else None
  }

  predicate LocalOnly(view: View, job: JobId) {
    job in view.caches && ManifestObject(job) !in view.objects
  }

  // A manifest that keeps its volumes: one at the destination, or the state of an interrupted
  // send that this clean does not delete.
  predicate Protects(view: View, job: JobId, locked: set<string>, cleanLocal: bool) {
    && Decoded(view, job).Some?
    && (LocalOnly(view, job) && cleanLocal ==> job.dataset !in locked)
  }

  ghost predicate Known(view: View, dataset: string) {
    exists job :: (job in view.caches || ManifestObject(job) in view.objects) && job.dataset == dataset
  }

  function NamesOf(volumes: seq<VolumeInfo>): (r: set<ObjectName>) {
    set v | v in volumes :: v.name
  }

  // A listed volume of a dataset that was locked before this read, and that no protecting
  // manifest of a locked dataset lists.
  ghost predicate Deletable(view: View, name: ObjectName, locked: set<string>, cleanLocal: bool) {
    && name in view.objects && name.VolumeObject?
    && name.job.dataset in locked
    && Known(view, name.job.dataset)
    && forall job: JobId :: job.dataset in locked && Protects(view, job, locked, cleanLocal) ==>
         name !in NamesOf(Decoded(view, job).value.volumes)
  }

  // What clean read, under its locks: it may be out of date for the datasets it did not lock.
  ghost predicate ReadUnderLocks(s: State, c: CleanRun, view: View) {
    && (forall n: ObjectName :: n.job.dataset in c.locked ==>
          (n in view.objects <==> (c.dest, n) in s.objects)
          && (n in view.objects ==> view.objects[n] == s.objects[(c.dest, n)]))
    && (forall j: JobId :: j.dataset in c.locked ==>
          (j in view.caches <==> (c.dest, j) in s.caches)
          && (j in view.caches ==> view.caches[j] == s.caches[(c.dest, j)]))
  }

  ghost predicate CleanStartStep(s: State, id: nat, dest: Dest, t: State) {
    && id !in s.cleans
    && t == s.(cleans := s.cleans[id := CleanRun(dest, {}, None, {})])
  }

  ghost predicate CleanLockStep(s: State, id: nat, dataset: string, t: State) {
    && id in s.cleans && s.cleans[id].deletes.None? && !Locked(s, dataset)
    && t == s.(cleans := s.cleans[id := s.cleans[id].(locked := s.cleans[id].locked + {dataset})])
  }

  // The decision. A manifest that does not decode stops the clean; `chosen` may leave out
  // volumes the clean spares for other reasons (other prefixes, nested destinations).
  ghost predicate CleanDecideStep(s: State, id: nat, view: View, cleanLocal: bool, chosen: set<ObjectName>, t: State) {
    && id in s.cleans && s.cleans[id].deletes.None?
    && var c := s.cleans[id];
    && ReadUnderLocks(s, c, view)
    && (forall job :: ManifestObject(job) in view.objects ==> Decoded(view, job).Some?)
    && (forall n :: n in chosen ==> Deletable(view, n, c.locked, cleanLocal))
    && t == s.(cleans := s.cleans[id := c.(
              deletes := Some(chosen),
              local :=
                if cleanLocal then set j | j in view.caches && LocalOnly(view, j) && j.dataset in c.locked else {})])
  }

  ghost predicate CleanDeleteStep(s: State, id: nat, name: ObjectName, t: State) {
    && id in s.cleans && s.cleans[id].deletes.Some? && name in s.cleans[id].deletes.value
    && var c := s.cleans[id];
    && t == s.(objects := s.objects - {(c.dest, name)},
               cleans := s.cleans[id := c.(deletes := Some(c.deletes.value - {name}))])
  }

  // Local manifests go only once every delete succeeded.
  ghost predicate CleanForgetStep(s: State, id: nat, job: JobId, t: State) {
    && id in s.cleans && s.cleans[id].deletes == Some({}) && job in s.cleans[id].local
    && var c := s.cleans[id];
    && t == s.(caches := s.caches - {(c.dest, job)},
               cleans := s.cleans[id := c.(local := c.local - {job})])
  }

  ghost predicate CleanEndStep(s: State, id: nat, t: State) {
    && id in s.cleans
    && t == s.(cleans := s.cleans - {id})
  }

  ghost predicate Next(w: World, s: State, step: Step, t: State) {
    match step
    case Start(run) => StartStep(s, run, t)
    case Stop(dataset) => StopStep(s, dataset, t)
    case SendAnew(dataset) => SendAnewStep(s, dataset, t)
    case Resume(dataset, sizers, keep) => ResumeStep(s, dataset, sizers, keep, t)
    case Reupload(dataset, sizers) => ReuploadStep(s, dataset, sizers, t)
    case CopyFrom(dataset, from) => CopyFromStep(w, s, dataset, from, t)
    case DiscardOne(dataset) => DiscardOneStep(s, dataset, t)
    case RewriteOne(dataset) => RewriteOneStep(s, dataset, t)
    case OpenStream(dataset, stream) => OpenStreamStep(w, s, dataset, stream, t)
    case CutVolume(dataset, blob, length) => CutVolumeStep(w, s, dataset, blob, length, t)
    case EndStream(dataset) => EndStreamStep(w, s, dataset, t)
    case Upload(dataset, volume, ok, bytes) => UploadStep(s, dataset, volume, ok, bytes, t)
    case Record(dataset, volume) => RecordStep(s, dataset, volume, t)
    case SaveOne(dataset) => SaveOneStep(s, dataset, t)
    case Finalise(dataset) => FinaliseStep(s, dataset, t)
    case Publish(dataset, ok) => PublishStep(s, dataset, ok, t)
    case CopyUpload(dataset, ok) => CopyUploadStep(s, dataset, ok, t)
    case CopyCache(dataset) => CopyCacheStep(s, dataset, t)
    case Sync(dest, job) => SyncStep(s, dest, job, t)
    case CleanStart(id, dest) => CleanStartStep(s, id, dest, t)
    case CleanLock(id, dataset) => CleanLockStep(s, id, dataset, t)
    case CleanDecide(id, view, cleanLocal, chosen) => CleanDecideStep(s, id, view, cleanLocal, chosen, t)
    case CleanDelete(id, name) => CleanDeleteStep(s, id, name, t)
    case CleanForget(id, job) => CleanForgetStep(s, id, job, t)
    case CleanEnd(id) => CleanEndStep(s, id, t)
  }
}
