// The protocol never gets stuck: whatever crashed before, a send, a resume and a copy can be carried
// through.
module ProtocolProgress {
  import opened Common
  import opened Manifests
  import opened Resume
  import opened Protocol
  import opened ProtocolPaths

  type Objects = map<(Dest, ObjectName), Stored>
  type Caches = map<(Dest, JobId), Manifest>

  // Everything else as in s: the run, the objects and the caches.
  function At(s: State, run: Run, objects: Objects, caches: Caches): (t: State) {
    State(objects, caches, s.sends[run.job.dataset := run], s.cleans)
  }

  function Done(s: State, objects: Objects, caches: Caches): (t: State) {
    State(objects, caches, s.sends, s.cleans)
  }

  lemma Rephased(s: State, run: Run, objects: Objects, caches: Caches, phase: Phase)
    ensures run.job.dataset in At(s, run, objects, caches).sends
    ensures WithPhase(At(s, run, objects, caches), run.job.dataset, phase) ==
      At(s, run.(phase := phase), objects, caches)
  {
    var ds := run.job.dataset;
    assert s.sends[ds := run][ds := run.(phase := phase)] == s.sends[ds := run.(phase := phase)];
  }

  // ---- One object or one cache at every destination ----

  function StoredAt(objects: Objects, dests: seq<Dest>, name: ObjectName, x: Stored): (r: Objects)
    ensures forall d :: d in dests ==> (d, name) in r && r[(d, name)] == x
    ensures forall k :: k in r <==> k in objects || (k.1 == name && k.0 in dests)
    ensures forall k :: k in objects && !(k.1 == name && k.0 in dests) ==> r[k] == objects[k]
    decreases |dests|
  {
    if dests == [] then objects else StoredAt(objects[(dests[0], name) := x], dests[1..], name, x)
  }

  function CachedAt(caches: Caches, dests: seq<Dest>, job: JobId, m: Manifest): (r: Caches)
    ensures forall d :: d in dests ==> (d, job) in r && r[(d, job)] == m
    ensures forall k :: k in r <==> k in caches || (k.1 == job && k.0 in dests)
    ensures forall k :: k in caches && !(k.1 == job && k.0 in dests) ==> r[k] == caches[k]
    decreases |dests|
  {
    if dests == [] then caches else CachedAt(caches[(dests[0], job) := m], dests[1..], job, m)
  }

  function Forgotten(caches: Caches, dests: seq<Dest>, job: JobId): (r: Caches) {
    if dests == [] then caches else Forgotten(caches - {(dests[0], job)}, dests[1..], job)
  }

  // ---- Starting and stopping ----

  lemma Starts(w: World, s: State, run: Run)
    requires !Locked(s, run.job.dataset) && run.dests != [] && Distinct(run.dests) && run.phase == Checking
    ensures Leads(w, s, At(s, run, s.objects, s.caches))
  {
    hide Leads;
    LeadsNowhere(w, s);
    assert Next(w, s, Start(run), At(s, run, s.objects, s.caches));
    LeadsOn(w, s, s, Start(run), At(s, run, s.objects, s.caches));
  }

  lemma Stops(w: World, s: State, run: Run, objects: Objects, caches: Caches)
    requires Leads(w, s, At(s, run, objects, caches)) && run.job.dataset !in s.sends
    ensures Leads(w, s, Done(s, objects, caches))
  {
    hide Leads;
    var ds := run.job.dataset;
    assert s.sends[ds := run] - {ds} == s.sends;
    assert Next(w, At(s, run, objects, caches), Stop(ds), Done(s, objects, caches));
    LeadsOn(w, s, At(s, run, objects, caches), Stop(ds), Done(s, objects, caches));
  }

  // ---- Before the stream ----

  lemma {:induction false} Discards(w: World, s: State, run: Run, todo: seq<Dest>, objects: Objects, caches: Caches)
    requires Leads(w, s, At(s, run.(phase := Discarding(todo)), objects, caches))
    ensures Leads(w, s, At(s, run.(phase := Discarding([])), objects, Forgotten(caches, todo, run.job)))
    decreases |todo|
  {
    hide Leads, At;
    if todo != [] {
      var after := caches - {(todo[0], run.job)};
      DiscardsOne(w, s, run, todo, objects, caches);
      LeadsOn(w, s, At(s, run.(phase := Discarding(todo)), objects, caches), DiscardOne(run.job.dataset),
        At(s, run.(phase := Discarding(todo[1..])), objects, after));
      Discards(w, s, run, todo[1..], objects, after);
    }
  }

  lemma DiscardsOne(w: World, s: State, run: Run, todo: seq<Dest>, objects: Objects, caches: Caches)
    requires todo != []
    ensures Next(w, At(s, run.(phase := Discarding(todo)), objects, caches), DiscardOne(run.job.dataset),
      At(s, run.(phase := Discarding(todo[1..])), objects, caches - {(todo[0], run.job)}))
  {
    Rephased(s, run.(phase := Discarding(todo)), objects, caches, Discarding(todo[1..]));
  }

  lemma {:induction false} Rewrites(
    w: World, s: State, run: Run, kept: seq<VolumeInfo>, todo: seq<Dest>, objects: Objects, caches: Caches)
    requires Leads(w, s, At(s, run.(phase := Rewriting(kept, todo)), objects, caches))
    ensures Leads(w, s, At(s, run.(phase := Rewriting(kept, [])), objects,
      CachedAt(caches, todo, run.job, ManifestOf(run, kept, false))))
    decreases |todo|
  {
    hide Leads, At;
    if todo != [] {
      var after := caches[(todo[0], run.job) := ManifestOf(run, kept, false)];
      RewritesOne(w, s, run, kept, todo, objects, caches);
      LeadsOn(w, s, At(s, run.(phase := Rewriting(kept, todo)), objects, caches), RewriteOne(run.job.dataset),
        At(s, run.(phase := Rewriting(kept, todo[1..])), objects, after));
      Rewrites(w, s, run, kept, todo[1..], objects, after);
    }
  }

  lemma RewritesOne(
    w: World, s: State, run: Run, kept: seq<VolumeInfo>, todo: seq<Dest>, objects: Objects, caches: Caches)
    requires todo != []
    ensures Next(w, At(s, run.(phase := Rewriting(kept, todo)), objects, caches), RewriteOne(run.job.dataset),
      At(s, run.(phase := Rewriting(kept, todo[1..])), objects,
        caches[(todo[0], run.job) := ManifestOf(run, kept, false)]))
  {
    Rephased(s, run.(phase := Rewriting(kept, todo)), objects, caches, Rewriting(kept, todo[1..]));
    assert ManifestOf(run.(phase := Rewriting(kept, todo)), kept, false) == ManifestOf(run, kept, false);
  }

  // ---- The stream ----

  // A send of one more volume, in its stages: reached counts the destinations that have it.
  function Rest(stream: Bytes, kept: seq<VolumeInfo>, c: Cut, ended: bool): (send: Send) {
    Send(stream, kept, [c], |stream|, ended, None, None)
  }

  function RunAt(run: Run, send: Send): (r: Run) {
    run.(phase := Sending(send))
  }

  // The volume that holds the rest of the stream.
  function LastVolume(w: World, run: Run, kept: seq<VolumeInfo>, stream: Bytes, blob: Bytes): (c: Cut)
    requires StreamBytes(kept) <= |stream|
  {
    var number := |kept| + 1;
    var info := VolumeInfo(
      number, VolumeObject(run.job, run.compressor, number), |blob|, w.sha(blob), |stream| - StreamBytes(kept),
      w.sha(stream));
    Cut(info, blob, stream[StreamBytes(kept)..], 0, false)
  }

  // The stream may go on from what is kept.
  predicate Continues(w: World, kept: seq<VolumeInfo>, stream: Bytes) {
    && StreamBytes(kept) <= |stream|
    && (kept != [] ==> w.sha(stream[..StreamBytes(kept)]) == kept[|kept| - 1].streamSha256)
  }

  lemma Opens(w: World, s: State, run: Run, kept: seq<VolumeInfo>, stream: Bytes, objects: Objects, caches: Caches)
    requires (run.phase == Discarding([]) && kept == []) || run.phase == Rewriting(kept, [])
    requires Continues(w, kept, stream) && Leads(w, s, At(s, run, objects, caches))
    ensures Leads(w, s,
      At(s, RunAt(run, Send(stream, kept, [], StreamBytes(kept), false, None, None)), objects, caches))
  {
    hide Leads;
    var send := Send(stream, kept, [], StreamBytes(kept), false, None, None);
    Rephased(s, run, objects, caches, Sending(send));
    assert Next(w, At(s, run, objects, caches), OpenStream(run.job.dataset, stream),
      At(s, RunAt(run, send), objects, caches));
    LeadsOn(w, s, At(s, run, objects, caches), OpenStream(run.job.dataset, stream),
      At(s, RunAt(run, send), objects, caches));
  }

  lemma Cuts(
    w: World, s: State, run: Run, kept: seq<VolumeInfo>, stream: Bytes, blob: Bytes, objects: Objects, caches: Caches)
    requires Continues(w, kept, stream) && w.decode(blob) == Some(stream[StreamBytes(kept)..])
    requires w.whole(run.job, stream)
    requires Leads(w, s,
      At(s, RunAt(run, Send(stream, kept, [], StreamBytes(kept), false, None, None)), objects, caches))
    ensures Leads(w, s,
      At(s, RunAt(run, Rest(stream, kept, LastVolume(w, run, kept, stream, blob), true)), objects, caches))
  {
    hide Leads, Next, At, LastVolume;
    var send := Send(stream, kept, [], StreamBytes(kept), false, None, None);
    var c, length := LastVolume(w, run, kept, stream, blob), |stream| - StreamBytes(kept);
    var open := Rest(stream, kept, c, false);
    CutsOne(w, s, run, kept, stream, blob, objects, caches);
    LeadsOn(w, s, At(s, RunAt(run, send), objects, caches), CutVolume(run.job.dataset, blob, length),
      At(s, RunAt(run, open), objects, caches));
    Ends(w, s, run, stream, kept, c, objects, caches);
    LeadsOn(w, s, At(s, RunAt(run, open), objects, caches), EndStream(run.job.dataset),
      At(s, RunAt(run, Rest(stream, kept, c, true)), objects, caches));
  }

  lemma Ends(
    w: World, s: State, run: Run, stream: Bytes, kept: seq<VolumeInfo>, c: Cut, objects: Objects, caches: Caches)
    requires w.whole(run.job, stream)
    ensures Next(w, At(s, RunAt(run, Rest(stream, kept, c, false)), objects, caches), EndStream(run.job.dataset),
      At(s, RunAt(run, Rest(stream, kept, c, true)), objects, caches))
  {
    Rephased(s, RunAt(run, Rest(stream, kept, c, false)), objects, caches, Sending(Rest(stream, kept, c, true)));
  }

  lemma CutsOne(
    w: World, s: State, run: Run, kept: seq<VolumeInfo>, stream: Bytes, blob: Bytes, objects: Objects, caches: Caches)
    requires Continues(w, kept, stream) && w.decode(blob) == Some(stream[StreamBytes(kept)..])
    ensures Next(w,
      At(s, RunAt(run, Send(stream, kept, [], StreamBytes(kept), false, None, None)), objects, caches),
      CutVolume(run.job.dataset, blob, |stream| - StreamBytes(kept)),
      At(s, RunAt(run, Rest(stream, kept, LastVolume(w, run, kept, stream, blob), false)), objects, caches))
  {
    var send := Send(stream, kept, [], StreamBytes(kept), false, None, None);
    var c := LastVolume(w, run, kept, stream, blob);
    Rephased(s, RunAt(run, send), objects, caches, Sending(Rest(stream, kept, c, false)));
    assert stream[..|stream|] == stream && [] + [c] == [c];
    assert stream[StreamBytes(kept)..|stream|] == stream[StreamBytes(kept)..];
    assert NextInfo(w, RunAt(run, send), send, blob, |stream|) == c.info;
  }

  // ---- The volume at every destination ----

  lemma {:induction false} Uploads(
    w: World, s: State, run: Run, stream: Bytes, kept: seq<VolumeInfo>, c: Cut, objects: Objects, caches: Caches)
    requires c.reached <= |run.dests| && !c.recorded
    requires Leads(w, s, At(s, RunAt(run, Rest(stream, kept, c, true)), objects, caches))
    ensures Leads(w, s, At(s, RunAt(run, Rest(stream, kept, c.(reached := |run.dests|), true)),
      StoredAt(objects, run.dests[c.reached..], c.info.name, VolumeData(c.blob)), caches))
    decreases |run.dests| - c.reached
  {
    hide Leads, At, Next, StoredAt;
    if c.reached < |run.dests| {
      var more, after := c.(reached := c.reached + 1),
        objects[(run.dests[c.reached], c.info.name) := VolumeData(c.blob)];
      UploadsOne(w, s, run, stream, kept, c, objects, caches);
      LeadsOn(w, s, At(s, RunAt(run, Rest(stream, kept, c, true)), objects, caches),
        Upload(run.job.dataset, 0, true, []), At(s, RunAt(run, Rest(stream, kept, more, true)), after, caches));
      Uploads(w, s, run, stream, kept, more, after, caches);
      StoredNext(objects, run.dests[c.reached..], c.info.name, VolumeData(c.blob));
      assert run.dests[c.reached..][1..] == run.dests[more.reached..];
      assert more.(reached := |run.dests|) == c.(reached := |run.dests|);
    } else {
      StoredNone(objects, c.info.name, VolumeData(c.blob));
      assert run.dests[c.reached..] == [] && c.(reached := |run.dests|) == c;
    }
  }

  lemma StoredNext(objects: Objects, dests: seq<Dest>, name: ObjectName, x: Stored)
    requires dests != []
    ensures StoredAt(objects, dests, name, x) == StoredAt(objects[(dests[0], name) := x], dests[1..], name, x)
  {
  }

  lemma StoredNone(objects: Objects, name: ObjectName, x: Stored)
    ensures StoredAt(objects, [], name, x) == objects
  {
  }

  lemma UploadsOne(
    w: World, s: State, run: Run, stream: Bytes, kept: seq<VolumeInfo>, c: Cut, objects: Objects, caches: Caches)
    requires c.reached < |run.dests|
    ensures Next(w, At(s, RunAt(run, Rest(stream, kept, c, true)), objects, caches),
      Upload(run.job.dataset, 0, true, []),
      At(s, RunAt(run, Rest(stream, kept, c.(reached := c.reached + 1), true)),
        objects[(run.dests[c.reached], c.info.name) := VolumeData(c.blob)], caches))
  {
    var more := c.(reached := c.reached + 1);
    Rephased(s, RunAt(run, Rest(stream, kept, c, true)), objects, caches, Sending(Rest(stream, kept, more, true)));
    assert [c][0 := more] == [more];
  }

  // ---- The manifest in every cache ----

  function Saving(send: Send, m: Manifest, todo: seq<Dest>): (r: Send) {
    send.(saving := Some(Save(m, todo)))
  }

  function Saved(send: Send, m: Manifest, dests: seq<Dest>): (r: Send) {
    send.(saving := None, publishing := if m.final then Some(dests) else None)
  }

  lemma {:induction false} Saves(
    w: World, s: State, run: Run, send: Send, m: Manifest, todo: seq<Dest>, objects: Objects, caches: Caches)
    requires todo != [] && send.publishing.None?
    requires Leads(w, s, At(s, RunAt(run, Saving(send, m, todo)), objects, caches))
    ensures Leads(w, s, At(s, RunAt(run, Saved(send, m, run.dests)), objects, CachedAt(caches, todo, run.job, m)))
    decreases |todo|
  {
    hide Leads, At, Next, CachedAt, Saving, Saved;
    var after := caches[(todo[0], run.job) := m];
    SavesOne(w, s, run, send, m, todo, objects, caches);
    CachedNext(caches, todo, run.job, m);
    if |todo| == 1 {
      assert todo[1..] == [];
      LeadsOn(w, s, At(s, RunAt(run, Saving(send, m, todo)), objects, caches), SaveOne(run.job.dataset),
        At(s, RunAt(run, Saved(send, m, run.dests)), objects, after));
    } else {
      LeadsOn(w, s, At(s, RunAt(run, Saving(send, m, todo)), objects, caches), SaveOne(run.job.dataset),
        At(s, RunAt(run, Saving(send, m, todo[1..])), objects, after));
      Saves(w, s, run, send, m, todo[1..], objects, after);
    }
  }

  lemma CachedNext(caches: Caches, dests: seq<Dest>, job: JobId, m: Manifest)
    requires dests != []
    ensures CachedAt(caches, dests, job, m) == CachedAt(caches[(dests[0], job) := m], dests[1..], job, m)
    ensures |dests| == 1 ==> CachedAt(caches, dests, job, m) == caches[(dests[0], job) := m]
  {
  }

  lemma SavesOne(
    w: World, s: State, run: Run, send: Send, m: Manifest, todo: seq<Dest>, objects: Objects, caches: Caches)
    requires todo != [] && send.publishing.None?
    ensures Next(w, At(s, RunAt(run, Saving(send, m, todo)), objects, caches), SaveOne(run.job.dataset),
      At(s, RunAt(run, if todo[1..] == [] then Saved(send, m, run.dests) else Saving(send, m, todo[1..])), objects,
        caches[(todo[0], run.job) := m]))
  {
    hide Next;
    if todo[1..] == [] {
      SavesLast(s, run, send, m, todo, objects, caches);
    } else {
      SavesMore(s, run, send, m, todo, objects, caches);
    }
    IsSaveOne(w, At(s, RunAt(run, Saving(send, m, todo)), objects, caches), run.job.dataset,
      At(s, RunAt(run, if todo[1..] == [] then Saved(send, m, run.dests) else Saving(send, m, todo[1..])), objects,
        caches[(todo[0], run.job) := m]));
  }

  lemma IsSaveOne(w: World, a: State, dataset: string, b: State)
    requires SaveOneStep(a, dataset, b)
    ensures Next(w, a, SaveOne(dataset), b)
  {
  }

  lemma SavesLast(
    s: State, run: Run, send: Send, m: Manifest, todo: seq<Dest>, objects: Objects, caches: Caches)
    requires todo != [] && todo[1..] == [] && send.publishing.None?
    ensures SaveOneStep(At(s, RunAt(run, Saving(send, m, todo)), objects, caches), run.job.dataset,
      At(s, RunAt(run, Saved(send, m, run.dests)), objects, caches[(todo[0], run.job) := m]))
  {
    Rephased(s, RunAt(run, Saving(send, m, todo)), objects, caches, Sending(Saved(send, m, run.dests)));
  }

  lemma SavesMore(
    s: State, run: Run, send: Send, m: Manifest, todo: seq<Dest>, objects: Objects, caches: Caches)
    requires todo != [] && todo[1..] != [] && send.publishing.None?
    ensures SaveOneStep(At(s, RunAt(run, Saving(send, m, todo)), objects, caches), run.job.dataset,
      At(s, RunAt(run, Saving(send, m, todo[1..])), objects, caches[(todo[0], run.job) := m]))
  {
    Rephased(s, RunAt(run, Saving(send, m, todo)), objects, caches, Sending(Saving(send, m, todo[1..])));
  }

  // ---- Recording and publishing ----

  // The one new volume, stored everywhere and in the manifest.
  function Recorded(stream: Bytes, kept: seq<VolumeInfo>, c: Cut): (send: Send) {
    Rest(stream, kept, c.(recorded := true), true)
  }

  lemma Lists(stream: Bytes, kept: seq<VolumeInfo>, c: Cut)
    ensures ListedVolumes(Recorded(stream, kept, c)) == kept + [c.info]
    ensures AllRecorded(Recorded(stream, kept, c).cuts)
  {
    var last := c.(recorded := true);
    assert [last][..0] == [] && RecordedInfos([]) == [];
    assert RecordedInfos([last]) == [] + [last.info] == [c.info];
  }

  lemma Records(
    w: World, s: State, run: Run, stream: Bytes, kept: seq<VolumeInfo>, c: Cut, objects: Objects, caches: Caches)
    requires c.reached == |run.dests| && !c.recorded
    ensures Next(w, At(s, RunAt(run, Rest(stream, kept, c, true)), objects, caches), Record(run.job.dataset, 0),
      At(s, RunAt(run, Saving(Recorded(stream, kept, c), ManifestOf(run, kept + [c.info], false), run.dests)),
        objects, caches))
  {
    var send := Rest(stream, kept, c, true);
    var next := Saving(Recorded(stream, kept, c), ManifestOf(run, kept + [c.info], false), run.dests);
    Lists(stream, kept, c);
    Rephased(s, RunAt(run, send), objects, caches, Sending(next));
    assert [c][0 := c.(recorded := true)] == [c.(recorded := true)];
  }

  lemma Finalises(
    w: World, s: State, run: Run, stream: Bytes, kept: seq<VolumeInfo>, c: Cut, objects: Objects, caches: Caches)
    ensures Next(w, At(s, RunAt(run, Recorded(stream, kept, c)), objects, caches), Finalise(run.job.dataset),
      At(s, RunAt(run, Saving(Recorded(stream, kept, c), ManifestOf(run, kept + [c.info], true), run.dests)),
        objects, caches))
  {
    var send := Recorded(stream, kept, c);
    Lists(stream, kept, c);
    Rephased(s, RunAt(run, send), objects, caches,
      Sending(Saving(send, ManifestOf(run, kept + [c.info], true), run.dests)));
  }

  function Publishing(send: Send, todo: seq<Dest>): (r: Send) {
    send.(publishing := Some(todo))
  }

  lemma {:induction false} PublishesAll(
    w: World, s: State, run: Run, send: Send, m: Manifest, todo: seq<Dest>, objects: Objects, caches: Caches)
    requires m == ManifestOf(run, ListedVolumes(send), true)
    requires Leads(w, s, At(s, RunAt(run, Publishing(send, todo)), objects, caches))
    ensures Leads(w, s, At(s, RunAt(run, Publishing(send, [])),
      StoredAt(objects, todo, ManifestObject(run.job), ManifestData(m)), caches))
    decreases |todo|
  {
    hide Leads, At, Next, StoredAt, Publishing;
    if todo == [] {
      StoredNone(objects, ManifestObject(run.job), ManifestData(m));
    } else {
      var after := objects[(todo[0], ManifestObject(run.job)) := ManifestData(m)];
      PublishesOne(w, s, run, send, m, todo, objects, caches);
      LeadsOn(w, s, At(s, RunAt(run, Publishing(send, todo)), objects, caches), Publish(run.job.dataset, true),
        At(s, RunAt(run, Publishing(send, todo[1..])), after, caches));
      PublishesAll(w, s, run, send, m, todo[1..], after, caches);
      StoredNext(objects, todo, ManifestObject(run.job), ManifestData(m));
    }
  }

  lemma PublishesOne(
    w: World, s: State, run: Run, send: Send, m: Manifest, todo: seq<Dest>, objects: Objects, caches: Caches)
    requires todo != [] && m == ManifestOf(run, ListedVolumes(send), true)
    ensures Next(w, At(s, RunAt(run, Publishing(send, todo)), objects, caches), Publish(run.job.dataset, true),
      At(s, RunAt(run, Publishing(send, todo[1..])),
        objects[(todo[0], ManifestObject(run.job)) := ManifestData(m)], caches))
  {
    Rephased(s, RunAt(run, Publishing(send, todo)), objects, caches, Sending(Publishing(send, todo[1..])));
    assert ListedVolumes(Publishing(send, todo)) == ListedVolumes(send);
  }

  // ---- A send carried through ----

  // At every destination there is the final manifest of the kept volumes and the one with the rest of
  // the stream, and that volume; nothing else changed but this job's caches.
  function Published(s: State, run: Run, kept: seq<VolumeInfo>, c: Cut): (objects: Objects) {
    StoredAt(
      StoredAt(s.objects, run.dests, c.info.name, VolumeData(c.blob)), run.dests, ManifestObject(run.job),
      ManifestData(ManifestOf(run, kept + [c.info], true)))
  }

  lemma FromOpen(
    w: World, s: State, run: Run, kept: seq<VolumeInfo>, stream: Bytes, blob: Bytes, caches: Caches)
    returns (after: Caches)
    requires run.dests != [] && run.job.dataset !in s.sends
    requires (run.phase == Discarding([]) && kept == []) || run.phase == Rewriting(kept, [])
    requires Continues(w, kept, stream) && w.decode(blob) == Some(stream[StreamBytes(kept)..])
    requires w.whole(run.job, stream)
    requires Leads(w, s, At(s, run, s.objects, caches))
    ensures Leads(w, s, Done(s, Published(s, run, kept, LastVolume(w, run, kept, stream, blob)), after))
    ensures forall k: (Dest, JobId) :: k.1 != run.job ==>
      (k in after <==> k in caches) && (k in caches ==> after[k] == caches[k])
  {
    hide Leads, At, Next, Done, Rest, Recorded, Saving, Saved, Publishing, LastVolume;
    var c := LastVolume(w, run, kept, stream, blob);
    assert c.reached == 0 && !c.recorded by { IsNew(w, run, kept, stream, blob); }
    Opens(w, s, run, kept, stream, s.objects, caches);
    Cuts(w, s, run, kept, stream, blob, s.objects, caches);
    Uploads(w, s, run, stream, kept, c, s.objects, caches);
    assert run.dests[0..] == run.dests;
    var full, stored := c.(reached := |run.dests|), StoredAt(s.objects, run.dests, c.info.name, VolumeData(c.blob));
    after := FromUploaded(w, s, run, stream, kept, full, stored, caches);
    assert full.info == c.info && full.blob == c.blob;
  }

  lemma IsNew(w: World, run: Run, kept: seq<VolumeInfo>, stream: Bytes, blob: Bytes)
    requires StreamBytes(kept) <= |stream|
    ensures var c := LastVolume(w, run, kept, stream, blob); c.reached == 0 && !c.recorded
  {
  }

  lemma FromUploaded(
    w: World, s: State, run: Run, stream: Bytes, kept: seq<VolumeInfo>, c: Cut, objects: Objects, caches: Caches)
    returns (after: Caches)
    requires run.dests != [] && run.job.dataset !in s.sends && c.reached == |run.dests| && !c.recorded
    requires Leads(w, s, At(s, RunAt(run, Rest(stream, kept, c, true)), objects, caches))
    ensures Leads(w, s, Done(s, StoredAt(objects, run.dests, ManifestObject(run.job),
      ManifestData(ManifestOf(run, kept + [c.info], true))), after))
    ensures forall k: (Dest, JobId) :: k.1 != run.job ==>
      (k in after <==> k in caches) && (k in caches ==> after[k] == caches[k])
  {
    hide Leads, At, Next, Done, Rest, Recorded, Saving, Saved, Publishing;
    var ds, send := run.job.dataset, Recorded(stream, kept, c);
    var part, m := ManifestOf(run, kept + [c.info], false), ManifestOf(run, kept + [c.info], true);
    var saved := CachedAt(caches, run.dests, run.job, part);
    after := CachedAt(saved, run.dests, run.job, m);
    Records(w, s, run, stream, kept, c, objects, caches);
    LeadsOn(w, s, At(s, RunAt(run, Rest(stream, kept, c, true)), objects, caches), Record(ds, 0),
      At(s, RunAt(run, Saving(send, part, run.dests)), objects, caches));
    Plain(stream, kept, c, run.dests, part, m);
    Saves(w, s, run, send, part, run.dests, objects, caches);
    Finalises(w, s, run, stream, kept, c, objects, saved);
    LeadsOn(w, s, At(s, RunAt(run, send), objects, saved), Finalise(ds),
      At(s, RunAt(run, Saving(send, m, run.dests)), objects, saved));
    Saves(w, s, run, send, m, run.dests, objects, saved);
    Lists(stream, kept, c);
    PublishesAll(w, s, run, send, m, run.dests, objects, after);
    Stops(w, s, RunAt(run, Publishing(send, [])),
      StoredAt(objects, run.dests, ManifestObject(run.job), ManifestData(m)), after);
  }

  lemma Plain(stream: Bytes, kept: seq<VolumeInfo>, c: Cut, dests: seq<Dest>, part: Manifest, m: Manifest)
    requires !part.final && m.final
    ensures var send := Recorded(stream, kept, c);
      send.publishing.None? && Saved(send, part, dests) == send && Saved(send, m, dests) == Publishing(send, dests)
  {
  }

  // A job without a manifest at its destinations can be sent, whatever earlier attempts left: there is
  // a way on from here to a final manifest of the whole stream at every destination.
  lemma SendCanFinish(w: World, s: State, run: Run, stream: Bytes, blob: Bytes) returns (after: Caches)
    requires !Locked(s, run.job.dataset) && run.dests != [] && Distinct(run.dests) && run.phase == Checking
    requires forall d :: d in run.dests ==> !HasManifest(s, d, run.job)
    requires w.whole(run.job, stream) && w.decode(blob) == Some(stream)
    ensures Leads(w, s, Done(s, Published(s, run, [], LastVolume(w, run, [], stream, blob)), after))
  {
    hide Leads, At, Next, Done, Published, LastVolume;
    var discarding := run.(phase := Discarding(run.dests));
    Starts(w, s, run);
    SendsAnew(w, s, run);
    LeadsOn(w, s, At(s, run, s.objects, s.caches), SendAnew(run.job.dataset),
      At(s, discarding, s.objects, s.caches));
    Discards(w, s, run, run.dests, s.objects, s.caches);
    assert stream[0..] == stream && StreamBytes([]) == 0;
    after := FromOpen(w, s, run.(phase := Discarding([])), [], stream, blob, Forgotten(s.caches, run.dests, run.job));
    Rerun(w, s, run, Discarding([]), [], stream, blob);
  }

  // What is published does not depend on the phase.
  lemma Rerun(w: World, s: State, run: Run, phase: Phase, kept: seq<VolumeInfo>, stream: Bytes, blob: Bytes)
    requires StreamBytes(kept) <= |stream|
    ensures Published(s, run.(phase := phase), kept, LastVolume(w, run.(phase := phase), kept, stream, blob)) ==
      Published(s, run, kept, LastVolume(w, run, kept, stream, blob))
  {
    hide StoredAt;
  }

  lemma SendsAnew(w: World, s: State, run: Run)
    requires run.phase == Checking && forall d :: d in run.dests ==> !HasManifest(s, d, run.job)
    ensures Next(w, At(s, run, s.objects, s.caches), SendAnew(run.job.dataset),
      At(s, run.(phase := Discarding(run.dests)), s.objects, s.caches))
  {
    Rephased(s, run, s.objects, s.caches, Discarding(run.dests));
  }

  // An interrupted attempt can be resumed where every destination stands: with the stream it was
  // sending, the kept volumes and the rest are published.
  lemma ResumeCanFinish(
    w: World, s: State, run: Run, sizers: set<Dest>, keep: nat, stream: Bytes, blob: Bytes) returns (after: Caches)
    requires !Locked(s, run.job.dataset) && run.dests != [] && Distinct(run.dests) && run.phase == Checking
    requires forall d :: d in run.dests ==> !HasManifest(s, d, run.job)
    requires run.resume && (run.dests[0], run.job) in s.caches
    requires var m := s.caches[(run.dests[0], run.job)];
      && m.compressor == run.compressor && m.identity == run.identity
      && IsResumePoint(m.volumes, Listings(s, run.dests, sizers), OtherCaches(s, run.dests[1..], run.job), keep)
      && 0 < keep <= |m.volumes| && !(m.final && keep == |m.volumes|)
      && Continues(w, m.volumes[..keep], stream)
      && w.decode(blob) == Some(stream[StreamBytes(m.volumes[..keep])..])
    requires w.whole(run.job, stream)
    ensures var kept := s.caches[(run.dests[0], run.job)].volumes[..keep];
      Leads(w, s, Done(s, Published(s, run, kept, LastVolume(w, run, kept, stream, blob)), after))
  {
    hide Leads, At, Next, Done, Published, LastVolume, IsResumePoint;
    var kept := s.caches[(run.dests[0], run.job)].volumes[..keep];
    var rewriting := run.(phase := Rewriting(kept, run.dests));
    Starts(w, s, run);
    Resumes(w, s, run, sizers, keep);
    LeadsOn(w, s, At(s, run, s.objects, s.caches), Resume(run.job.dataset, sizers, keep),
      At(s, rewriting, s.objects, s.caches));
    Rewrites(w, s, run, kept, run.dests, s.objects, s.caches);
    after := FromOpen(w, s, run.(phase := Rewriting(kept, [])), kept, stream, blob,
      CachedAt(s.caches, run.dests, run.job, ManifestOf(run, kept, false)));
    Rerun(w, s, run, Rewriting(kept, []), kept, stream, blob);
  }

  lemma Resumes(w: World, s: State, run: Run, sizers: set<Dest>, keep: nat)
    requires run.phase == Checking && run.dests != [] && forall d :: d in run.dests ==> !HasManifest(s, d, run.job)
    requires run.resume && (run.dests[0], run.job) in s.caches
    requires var m := s.caches[(run.dests[0], run.job)];
      && m.compressor == run.compressor && m.identity == run.identity
      && IsResumePoint(m.volumes, Listings(s, run.dests, sizers), OtherCaches(s, run.dests[1..], run.job), keep)
      && 0 < keep <= |m.volumes| && !(m.final && keep == |m.volumes|)
    ensures var kept := s.caches[(run.dests[0], run.job)].volumes[..keep];
      Next(w, At(s, run, s.objects, s.caches), Resume(run.job.dataset, sizers, keep),
        At(s, run.(phase := Rewriting(kept, run.dests)), s.objects, s.caches))
  {
    hide IsResumePoint;
    var a, kept := At(s, run, s.objects, s.caches), s.caches[(run.dests[0], run.job)].volumes[..keep];
    Rephased(s, run, s.objects, s.caches, Rewriting(kept, run.dests));
    assert Listings(a, run.dests, sizers) == Listings(s, run.dests, sizers);
    assert OtherCaches(a, run.dests[1..], run.job) == OtherCaches(s, run.dests[1..], run.job);
  }

  // An attempt of another identity or compressor, or a run without --resume, resumes nothing.
  lemma OthersResumeNothing(w: World, s: State, run: Run, t: State, sizers: set<Dest>, keep: nat)
    requires run.job.dataset in s.sends && s.sends[run.job.dataset] == run && run.dests != []
    requires (run.dests[0], run.job) in s.caches ==>
      var m := s.caches[(run.dests[0], run.job)];
      !run.resume || m.compressor != run.compressor || m.identity != run.identity
    ensures !Next(w, s, Resume(run.job.dataset, sizers, keep), t) && !Next(w, s, Reupload(run.job.dataset, sizers), t)
  {
  }

  // ---- A copy carried through ----

  lemma {:induction false} Copies(
    w: World, s: State, run: Run, m: Manifest, todo: seq<Dest>, objects: Objects, caches: Caches)
    requires Leads(w, s, At(s, run.(phase := Copying(m, todo, false)), objects, caches))
    ensures Leads(w, s, At(s, run.(phase := Copying(m, [], false)),
      StoredAt(objects, todo, ManifestObject(run.job), ManifestData(m)), CachedAt(caches, todo, run.job, m)))
    decreases |todo|
  {
    hide Leads, At, Next, StoredAt, CachedAt;
    if todo == [] {
      StoredNone(objects, ManifestObject(run.job), ManifestData(m));
      CachedNone(caches, run.job, m);
    } else {
      var stored, cached :=
        objects[(todo[0], ManifestObject(run.job)) := ManifestData(m)], caches[(todo[0], run.job) := m];
      CopiesOne(w, s, run, m, todo, objects, caches);
      LeadsOn(w, s, At(s, run.(phase := Copying(m, todo, false)), objects, caches), CopyUpload(run.job.dataset, true),
        At(s, run.(phase := Copying(m, todo, true)), stored, caches));
      LeadsOn(w, s, At(s, run.(phase := Copying(m, todo, true)), stored, caches), CopyCache(run.job.dataset),
        At(s, run.(phase := Copying(m, todo[1..], false)), stored, cached));
      Copies(w, s, run, m, todo[1..], stored, cached);
      StoredNext(objects, todo, ManifestObject(run.job), ManifestData(m));
      CachedNext(caches, todo, run.job, m);
    }
  }

  lemma CachedNone(caches: Caches, job: JobId, m: Manifest)
    ensures CachedAt(caches, [], job, m) == caches
  {
  }

  lemma CopiesOne(w: World, s: State, run: Run, m: Manifest, todo: seq<Dest>, objects: Objects, caches: Caches)
    requires todo != []
    ensures var stored := objects[(todo[0], ManifestObject(run.job)) := ManifestData(m)];
      && Next(w, At(s, run.(phase := Copying(m, todo, false)), objects, caches), CopyUpload(run.job.dataset, true),
           At(s, run.(phase := Copying(m, todo, true)), stored, caches))
      && Next(w, At(s, run.(phase := Copying(m, todo, true)), stored, caches), CopyCache(run.job.dataset),
           At(s, run.(phase := Copying(m, todo[1..], false)), stored, caches[(todo[0], run.job) := m]))
  {
    var stored := objects[(todo[0], ManifestObject(run.job)) := ManifestData(m)];
    Rephased(s, run.(phase := Copying(m, todo, false)), objects, caches, Copying(m, todo, true));
    Rephased(s, run.(phase := Copying(m, todo, true)), stored, caches, Copying(m, todo[1..], false));
  }

  // A manifest that some destinations lack can be copied to them once they hold its volumes.
  lemma CopyCanFinish(w: World, s: State, run: Run, from: Dest, m: Manifest)
    requires !Locked(s, run.job.dataset) && Distinct(run.dests) && run.phase == Checking
    requires (run.resume || run.completePartial) && from in run.dests
    requires HasManifest(s, from, run.job) && s.objects[(from, ManifestObject(run.job))] == ManifestData(m)
    requires forall d :: d in run.dests && !HasManifest(s, d, run.job) ==> Holds(w, s, d, m.volumes)
    ensures var todo := Missing(s, run.job, run.dests);
      Leads(w, s, Done(s, StoredAt(s.objects, todo, ManifestObject(run.job), ManifestData(m)),
        CachedAt(s.caches, todo, run.job, m)))
  {
    hide Leads, At, Next, Done, StoredAt, CachedAt, Holds;
    var todo := Missing(s, run.job, run.dests);
    Starts(w, s, run);
    CopiesFrom(w, s, run, from, m);
    LeadsOn(w, s, At(s, run, s.objects, s.caches), CopyFrom(run.job.dataset, from),
      At(s, run.(phase := Copying(m, todo, false)), s.objects, s.caches));
    Copies(w, s, run, m, todo, s.objects, s.caches);
    Stops(w, s, run.(phase := Copying(m, [], false)),
      StoredAt(s.objects, todo, ManifestObject(run.job), ManifestData(m)), CachedAt(s.caches, todo, run.job, m));
  }

  lemma CopiesFrom(w: World, s: State, run: Run, from: Dest, m: Manifest)
    requires run.phase == Checking && (run.resume || run.completePartial) && from in run.dests
    requires HasManifest(s, from, run.job) && s.objects[(from, ManifestObject(run.job))] == ManifestData(m)
    requires forall d :: d in run.dests && !HasManifest(s, d, run.job) ==> Holds(w, s, d, m.volumes)
    ensures Next(w, At(s, run, s.objects, s.caches), CopyFrom(run.job.dataset, from),
      At(s, run.(phase := Copying(m, Missing(s, run.job, run.dests), false)), s.objects, s.caches))
  {
    var a := At(s, run, s.objects, s.caches);
    Rephased(s, run, s.objects, s.caches, Copying(m, Missing(s, run.job, run.dests), false));
    SameMissing(s, a, run.job, run.dests);
    forall d | d in Missing(s, run.job, run.dests)
      ensures Holds(w, a, d, m.volumes)
    {
      assert Holds(w, s, d, m.volumes);
    }
  }

  lemma {:induction false} SameMissing(s: State, a: State, job: JobId, dests: seq<Dest>)
    requires a.objects == s.objects
    ensures Missing(a, job, dests) == Missing(s, job, dests)
  {
    if dests != [] {
      SameMissing(s, a, job, dests[1..]);
    }
  }

  // A final manifest that an interrupted attempt cached, with all its volumes in place, can be
  // uploaded.
  lemma ReuploadCanFinish(w: World, s: State, run: Run, sizers: set<Dest>)
    requires !Locked(s, run.job.dataset) && run.dests != [] && Distinct(run.dests) && run.phase == Checking
    requires forall d :: d in run.dests ==> !HasManifest(s, d, run.job)
    requires run.resume && (run.dests[0], run.job) in s.caches
    requires var m := s.caches[(run.dests[0], run.job)];
      && m.compressor == run.compressor && m.identity == run.identity && m.final && m.volumes != []
      && IsResumePoint(
           m.volumes, Listings(s, run.dests, sizers), OtherCaches(s, run.dests[1..], run.job), |m.volumes|)
    ensures var m := s.caches[(run.dests[0], run.job)];
      Leads(w, s, Done(s, StoredAt(s.objects, run.dests, ManifestObject(run.job), ManifestData(m)),
        CachedAt(s.caches, run.dests, run.job, m)))
  {
    hide Leads, At, Next, Done, StoredAt, CachedAt, IsResumePoint;
    var m := s.caches[(run.dests[0], run.job)];
    Starts(w, s, run);
    Reuploads(w, s, run, sizers);
    LeadsOn(w, s, At(s, run, s.objects, s.caches), Reupload(run.job.dataset, sizers),
      At(s, run.(phase := Copying(m, run.dests, false)), s.objects, s.caches));
    Copies(w, s, run, m, run.dests, s.objects, s.caches);
    Stops(w, s, run.(phase := Copying(m, [], false)),
      StoredAt(s.objects, run.dests, ManifestObject(run.job), ManifestData(m)),
      CachedAt(s.caches, run.dests, run.job, m));
  }

  lemma Reuploads(w: World, s: State, run: Run, sizers: set<Dest>)
    requires run.phase == Checking && run.dests != [] && forall d :: d in run.dests ==> !HasManifest(s, d, run.job)
    requires run.resume && (run.dests[0], run.job) in s.caches
    requires var m := s.caches[(run.dests[0], run.job)];
      && m.compressor == run.compressor && m.identity == run.identity && m.final && m.volumes != []
      && IsResumePoint(
           m.volumes, Listings(s, run.dests, sizers), OtherCaches(s, run.dests[1..], run.job), |m.volumes|)
    ensures var m := s.caches[(run.dests[0], run.job)];
      Next(w, At(s, run, s.objects, s.caches), Reupload(run.job.dataset, sizers),
        At(s, run.(phase := Copying(m, run.dests, false)), s.objects, s.caches))
  {
    hide IsResumePoint;
    var a, m := At(s, run, s.objects, s.caches), s.caches[(run.dests[0], run.job)];
    Rephased(s, run, s.objects, s.caches, Copying(m, run.dests, false));
    assert Listings(a, run.dests, sizers) == Listings(s, run.dests, sizers);
    assert OtherCaches(a, run.dests[1..], run.job) == OtherCaches(s, run.dests[1..], run.job);
  }

  // ---- What can go wrong ----

  // Any run can end at any point.
  lemma CanStop(w: World, s: State, dataset: string)
    requires dataset in s.sends
    ensures Next(w, s, Stop(dataset), s.(sends := s.sends - {dataset}))
  {
  }

  // An upload can be cut short with any bytes under its name.
  lemma CanTearVolume(w: World, s: State, dataset: string, i: nat, bytes: Bytes)
    requires IsSending(s, dataset) && i < |s.sends[dataset].phase.send.cuts|
    requires s.sends[dataset].phase.send.cuts[i].reached < |s.sends[dataset].dests|
    ensures var c := s.sends[dataset].phase.send.cuts[i];
      Next(w, s, Upload(dataset, i, false, bytes),
        s.(objects := s.objects[(s.sends[dataset].dests[c.reached], c.info.name) := VolumeData(bytes)]))
  {
    assert s.sends[dataset := s.sends[dataset]] == s.sends;
  }

  // So can the upload of a manifest.
  lemma CanTearManifest(w: World, s: State, dataset: string)
    requires IsSending(s, dataset) && s.sends[dataset].phase.send.publishing.Some?
    requires s.sends[dataset].phase.send.publishing.value != []
    ensures var d := s.sends[dataset].phase.send.publishing.value[0];
      Next(w, s, Publish(dataset, false), s.(objects := s.objects[(d, ManifestObject(s.sends[dataset].job)) := Torn]))
  {
    assert s.sends[dataset := s.sends[dataset]] == s.sends;
  }

  lemma CanTearCopy(w: World, s: State, dataset: string)
    requires dataset in s.sends && s.sends[dataset].phase.Copying? && !s.sends[dataset].phase.uploaded
    requires s.sends[dataset].phase.todo != []
    ensures var d := s.sends[dataset].phase.todo[0];
      Next(w, s, CopyUpload(dataset, false),
        s.(objects := s.objects[(d, ManifestObject(s.sends[dataset].job)) := Torn]))
  {
    assert s.sends[dataset := s.sends[dataset]] == s.sends;
  }

  // Any reader fills a cache that lacks a manifest.
  lemma CanSync(w: World, s: State, dest: Dest, job: JobId, m: Manifest)
    requires HasManifest(s, dest, job) && (dest, job) !in s.caches
    requires s.objects[(dest, ManifestObject(job))] == ManifestData(m)
    ensures Next(w, s, Sync(dest, job), s.(caches := s.caches[(dest, job) := m]))
  {
  }
}
