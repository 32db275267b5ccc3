// Cleans that decide on incomplete copies, which the integrity theorem leaves out, are real: a
// behaviour in which a crash leaves such a copy and a clean deletes a volume of a published manifest.
module StaleCopy {
  import opened Common
  import opened Manifests
  import opened Protocol
  import opened ProtocolPaths
  import opened ProtocolInvariant
  import opened ProtocolTheorems

  // Volumes are stored as they are, the hash is the content, and every stream is whole.
  const W := World((b: Bytes) => Some(b), (b: Bytes) => b, (j: JobId, b: Bytes) => true)

  const J := JobId("d", "", "s", false)
  const Stream: Bytes := [1, 2]
  const V1 := VolumeInfo(1, VolumeObject(J, "", 1), 1, [1], 1, [1])
  const V2 := VolumeInfo(2, VolumeObject(J, "", 2), 1, [2], 1, [1, 2])
  const C1 := Cut(V1, [1], [1], 0, false)
  const C2 := Cut(V2, [2], [2], 0, false)
  const Whole := Manifest(J, "", "", [V1, V2], true)

  type Objects = map<(Dest, ObjectName), Stored>
  type Caches = map<(Dest, JobId), Manifest>

  // A send to one destination.
  function Solo(d: Dest, phase: Phase): (r: Run) {
    Run(J, "", "", [d], false, false, phase)
  }

  function Idle(objects: Objects, caches: Caches): (s: State) {
    State(objects, caches, map[], map[])
  }

  function Running(objects: Objects, caches: Caches, run: Run): (s: State) {
    State(objects, caches, map["d" := run], map[])
  }

  function Send2(cuts: seq<Cut>, position: nat): (send: Send) {
    Send(Stream, [], cuts, position, false, None, None)
  }

  // ---- Steps of a send to one destination ----

  lemma Starts(s: State, objects: Objects, caches: Caches, run: Run)
    requires Leads(W, s, Idle(objects, caches)) && run.phase == Checking && run.job == J && run.dests != []
    requires Distinct(run.dests)
    ensures Leads(W, s, Running(objects, caches, run))
  {
    assert Next(W, Idle(objects, caches), Start(run), Running(objects, caches, run)) by {
      assert map[]["d" := run] == map["d" := run];
    }
    LeadsOn(W, s, Idle(objects, caches), Start(run), Running(objects, caches, run));
  }

  lemma Stops(s: State, objects: Objects, caches: Caches, run: Run)
    requires Leads(W, s, Running(objects, caches, run))
    ensures Leads(W, s, Idle(objects, caches))
  {
    assert Next(W, Running(objects, caches, run), Stop("d"), Idle(objects, caches)) by {
      assert map["d" := run] - {"d"} == map[];
    }
    LeadsOn(W, s, Running(objects, caches, run), Stop("d"), Idle(objects, caches));
  }

  lemma Rephase(objects: Objects, caches: Caches, run: Run, phase: Phase)
    ensures WithPhase(Running(objects, caches, run), "d", phase) == Running(objects, caches, run.(phase := phase))
  {
    assert map["d" := run]["d" := run.(phase := phase)] == map["d" := run.(phase := phase)];
  }

  // The stream is opened: nothing is at d yet but what was there.
  lemma Opens(s: State, objects: Objects, caches: Caches, d: Dest)
    requires Leads(W, s, Running(objects, caches, Solo(d, Checking))) && (d, ManifestObject(J)) !in objects
    ensures Leads(W, s, Running(objects, caches - {(d, J)}, Solo(d, Sending(Send2([], 0)))))
  {
    hide Leads;
    var checking, discarding :=
      Running(objects, caches, Solo(d, Checking)), Running(objects, caches, Solo(d, Discarding([d])));
    var after := caches - {(d, J)};
    var discarded, reading :=
      Running(objects, after, Solo(d, Discarding([]))), Running(objects, after, Solo(d, Sending(Send2([], 0))));
    Rephase(objects, caches, Solo(d, Checking), Discarding([d]));
    assert Next(W, checking, SendAnew("d"), discarding);
    LeadsOn(W, s, checking, SendAnew("d"), discarding);
    Rephase(objects, caches, Solo(d, Discarding([d])), Discarding([]));
    assert [d][1..] == [];
    assert Next(W, discarding, DiscardOne("d"), discarded);
    LeadsOn(W, s, discarding, DiscardOne("d"), discarded);
    Rephase(objects, after, Solo(d, Discarding([])), Sending(Send2([], 0)));
    assert Next(W, discarded, OpenStream("d", Stream), reading);
    LeadsOn(W, s, discarded, OpenStream("d", Stream), reading);
  }

  // Both volumes are cut.
  lemma Cuts(s: State, objects: Objects, caches: Caches, d: Dest)
    requires Leads(W, s, Running(objects, caches, Solo(d, Sending(Send2([], 0)))))
    ensures Leads(W, s, Running(objects, caches, Solo(d, Sending(Send2([C1, C2], 2)))))
  {
    hide Leads;
    var a, b, c :=
      Solo(d, Sending(Send2([], 0))), Solo(d, Sending(Send2([C1], 1))), Solo(d, Sending(Send2([C1, C2], 2)));
    Rephase(objects, caches, a, b.phase);
    assert Stream[0..1] == [1] && Stream[..1] == [1] && [] + [C1] == [C1];
    assert Next(W, Running(objects, caches, a), CutVolume("d", [1], 1), Running(objects, caches, b));
    LeadsOn(W, s, Running(objects, caches, a), CutVolume("d", [1], 1), Running(objects, caches, b));
    Rephase(objects, caches, b, c.phase);
    assert Stream[1..2] == [2] && Stream[..2] == [1, 2] && [C1] + [C2] == [C1, C2];
    assert Next(W, Running(objects, caches, b), CutVolume("d", [2], 1), Running(objects, caches, c));
    LeadsOn(W, s, Running(objects, caches, b), CutVolume("d", [2], 1), Running(objects, caches, c));
  }

  function Stored1(objects: Objects, d: Dest): (r: Objects) {
    objects[(d, V1.name) := VolumeData([1])]
  }

  function Stored2(objects: Objects, d: Dest): (r: Objects) {
    Stored1(objects, d)[(d, V2.name) := VolumeData([2])]
  }

  const U1 := C1.(reached := 1)
  const U2 := C2.(reached := 1)
  const R1 := U1.(recorded := true)
  const R2 := U2.(recorded := true)

  // Both are uploaded.
  lemma Uploads(s: State, objects: Objects, caches: Caches, d: Dest)
    requires Leads(W, s, Running(objects, caches, Solo(d, Sending(Send2([C1, C2], 2)))))
    ensures Leads(W, s, Running(Stored2(objects, d), caches, Solo(d, Sending(Send2([U1, U2], 2)))))
  {
    hide Leads;
    var a, b, c :=
      Solo(d, Sending(Send2([C1, C2], 2))), Solo(d, Sending(Send2([U1, C2], 2))), Solo(d, Sending(Send2([U1, U2], 2)));
    Rephase(objects, caches, a, b.phase);
    assert [C1, C2][0 := U1] == [U1, C2] && [U1, C2][1 := U2] == [U1, U2];
    assert Next(W, Running(objects, caches, a), Upload("d", 0, true, []), Running(Stored1(objects, d), caches, b));
    LeadsOn(W, s, Running(objects, caches, a), Upload("d", 0, true, []), Running(Stored1(objects, d), caches, b));
    Rephase(Stored1(objects, d), caches, b, c.phase);
    assert Next(W, Running(Stored1(objects, d), caches, b), Upload("d", 1, true, []),
      Running(Stored2(objects, d), caches, c));
    LeadsOn(W, s, Running(Stored1(objects, d), caches, b), Upload("d", 1, true, []),
      Running(Stored2(objects, d), caches, c));
  }

  const Part1 := Manifest(J, "", "", [V1], false)
  const Part2 := Manifest(J, "", "", [V1, V2], false)

  lemma Listed(send: Send)
    requires send.kept == []
    ensures send.cuts == [R1, U2] ==> ListedVolumes(send) == [V1]
    ensures send.cuts == [R1, R2] ==> ListedVolumes(send) == [V1, V2]
  {
    assert RecordedInfos([]) == [];
    assert [R1][..0] == [] && RecordedInfos([R1]) == [V1];
    assert [R1, U2][..1] == [R1] && RecordedInfos([R1, U2]) == [V1];
    assert [R1, R2][..1] == [R1] && RecordedInfos([R1, R2]) == [V1] + [V2];
    assert [] + [V1] == [V1] && [] + ([V1] + [V2]) == [V1, V2];
  }

  // A volume is recorded and the manifest saved in the one cache.
  lemma Saves(s: State, objects: Objects, caches: Caches, d: Dest, send: Send, manifest: Manifest)
    requires send.saving.None? && send.publishing.None?
    requires Leads(W, s, Running(objects, caches, Solo(d, Sending(send.(saving := Some(Save(manifest, [d])))))))
    ensures Leads(W, s, Running(objects, caches[(d, J) := manifest],
      Solo(d, Sending(send.(publishing := if manifest.final then Some([d]) else None)))))
  {
    hide Leads;
    var a := Solo(d, Sending(send.(saving := Some(Save(manifest, [d])))));
    var b := Solo(d, Sending(send.(publishing := if manifest.final then Some([d]) else None)));
    assert [d][1..] == [];
    Rephase(objects, caches, a, b.phase);
    assert Next(W, Running(objects, caches, a), SaveOne("d"), Running(objects, caches[(d, J) := manifest], b));
    LeadsOn(W, s, Running(objects, caches, a), SaveOne("d"), Running(objects, caches[(d, J) := manifest], b));
  }

  lemma Records1(s: State, objects: Objects, caches: Caches, d: Dest)
    requires Leads(W, s, Running(objects, caches, Solo(d, Sending(Send2([U1, U2], 2)))))
    ensures Leads(W, s, Running(objects, caches[(d, J) := Part1], Solo(d, Sending(Send2([R1, U2], 2)))))
  {
    hide Leads;
    var send := Send2([R1, U2], 2);
    var a, b := Solo(d, Sending(Send2([U1, U2], 2))), Solo(d, Sending(send.(saving := Some(Save(Part1, [d])))));
    Listed(send);
    assert [U1, U2][0 := R1] == [R1, U2];
    Rephase(objects, caches, a, b.phase);
    assert Next(W, Running(objects, caches, a), Record("d", 0), Running(objects, caches, b));
    LeadsOn(W, s, Running(objects, caches, a), Record("d", 0), Running(objects, caches, b));
    Saves(s, objects, caches, d, send, Part1);
  }

  lemma Records2(s: State, objects: Objects, caches: Caches, d: Dest)
    requires Leads(W, s, Running(objects, caches, Solo(d, Sending(Send2([R1, U2], 2)))))
    ensures Leads(W, s, Running(objects, caches[(d, J) := Part2], Solo(d, Sending(Send2([R1, R2], 2)))))
  {
    hide Leads;
    var send := Send2([R1, R2], 2);
    var a, b := Solo(d, Sending(Send2([R1, U2], 2))), Solo(d, Sending(send.(saving := Some(Save(Part2, [d])))));
    Listed(send);
    assert [R1, U2][1 := R2] == [R1, R2];
    Rephase(objects, caches, a, b.phase);
    assert Next(W, Running(objects, caches, a), Record("d", 1), Running(objects, caches, b));
    LeadsOn(W, s, Running(objects, caches, a), Record("d", 1), Running(objects, caches, b));
    Saves(s, objects, caches, d, send, Part2);
  }

  // An interrupted attempt: both volumes stored, the first recorded.
  lemma Attempt(s: State, objects: Objects, caches: Caches, d: Dest)
    requires Leads(W, s, Idle(objects, caches)) && (d, ManifestObject(J)) !in objects
    ensures Leads(W, s,
      Running(Stored2(objects, d), (caches - {(d, J)})[(d, J) := Part1], Solo(d, Sending(Send2([R1, U2], 2)))))
  {
    hide Leads;
    Starts(s, objects, caches, Solo(d, Checking));
    Opens(s, objects, caches, d);
    Cuts(s, objects, caches - {(d, J)}, d);
    Uploads(s, objects, caches - {(d, J)}, d);
    Records1(s, Stored2(objects, d), caches - {(d, J)}, d);
  }

  // An attempt that ends well.
  lemma Publishes(s: State, objects: Objects, caches: Caches, d: Dest)
    requires Leads(W, s, Running(objects, caches, Solo(d, Sending(Send2([R1, R2], 2)))))
    ensures Leads(W, s, Idle(objects[(d, ManifestObject(J)) := ManifestData(Whole)], caches[(d, J) := Whole]))
  {
    hide Leads;
    var ended := Send2([R1, R2], 2).(ended := true);
    var a, b, c :=
      Solo(d, Sending(Send2([R1, R2], 2))), Solo(d, Sending(ended)),
      Solo(d, Sending(ended.(saving := Some(Save(Whole, [d])))));
    Listed(ended);
    Rephase(objects, caches, a, b.phase);
    assert Next(W, Running(objects, caches, a), EndStream("d"), Running(objects, caches, b));
    LeadsOn(W, s, Running(objects, caches, a), EndStream("d"), Running(objects, caches, b));
    Rephase(objects, caches, b, c.phase);
    assert Next(W, Running(objects, caches, b), Finalise("d"), Running(objects, caches, c));
    LeadsOn(W, s, Running(objects, caches, b), Finalise("d"), Running(objects, caches, c));
    Saves(s, objects, caches, d, ended, Whole);
    PublishesOne(s, objects, caches[(d, J) := Whole], d, ended);
  }

  lemma PublishesOne(s: State, objects: Objects, caches: Caches, d: Dest, ended: Send)
    requires ended == Send2([R1, R2], 2).(ended := true)
    requires Leads(W, s, Running(objects, caches, Solo(d, Sending(ended.(publishing := Some([d]))))))
    ensures Leads(W, s, Idle(objects[(d, ManifestObject(J)) := ManifestData(Whole)], caches))
  {
    hide Leads;
    var a, b := Solo(d, Sending(ended.(publishing := Some([d])))), Solo(d, Sending(ended.(publishing := Some([]))));
    var after := objects[(d, ManifestObject(J)) := ManifestData(Whole)];
    Listed(ended.(publishing := Some([d])));
    assert [d][1..] == [];
    Rephase(objects, caches, a, b.phase);
    assert Next(W, Running(objects, caches, a), Publish("d", true), Running(after, caches, b));
    LeadsOn(W, s, Running(objects, caches, a), Publish("d", true), Running(after, caches, b));
    Stops(s, after, caches, b);
  }

  // ---- The copy that crashes ----

  function Both(phase: Phase): (r: Run) {
    Run(J, "", "", ["A", "B"], true, false, phase)
  }

  // Volumes at B as the manifest at A records them.
  predicate LagsBehind(objects: Objects) {
    && ("A", ManifestObject(J)) in objects && objects[("A", ManifestObject(J))] == ManifestData(Whole)
    && ("B", ManifestObject(J)) !in objects
    && ("B", V1.name) in objects && objects[("B", V1.name)] == VolumeData([1])
    && ("B", V2.name) in objects && objects[("B", V2.name)] == VolumeData([2])
  }

  lemma CopiesAndCrashes(s: State, objects: Objects, caches: Caches)
    requires Leads(W, s, Idle(objects, caches)) && LagsBehind(objects)
    ensures Leads(W, s, Idle(objects[("B", ManifestObject(J)) := ManifestData(Whole)], caches))
  {
    hide Leads, Next, Running;
    var a, b, c := Both(Checking), Both(Copying(Whole, ["B"], false)), Both(Copying(Whole, ["B"], true));
    var after := objects[("B", ManifestObject(J)) := ManifestData(Whole)];
    Starts(s, objects, caches, a);
    CopyStarts(objects, caches);
    LeadsOn(W, s, Running(objects, caches, a), CopyFrom("d", "A"), Running(objects, caches, b));
    CopyUploads(objects, caches);
    LeadsOn(W, s, Running(objects, caches, b), CopyUpload("d", true), Running(after, caches, c));
    Stops(s, after, caches, c);
  }

  lemma CopyStarts(objects: Objects, caches: Caches)
    requires LagsBehind(objects)
    ensures Next(W, Running(objects, caches, Both(Checking)), CopyFrom("d", "A"),
      Running(objects, caches, Both(Copying(Whole, ["B"], false))))
  {
    var a, b := Both(Checking), Both(Copying(Whole, ["B"], false));
    MissingAtB(Running(objects, caches, a));
    Rephase(objects, caches, a, b.phase);
    assert Holds(W, Running(objects, caches, a), "B", Whole.volumes);
  }

  lemma CopyUploads(objects: Objects, caches: Caches)
    ensures Next(W, Running(objects, caches, Both(Copying(Whole, ["B"], false))), CopyUpload("d", true),
      Running(objects[("B", ManifestObject(J)) := ManifestData(Whole)], caches, Both(Copying(Whole, ["B"], true))))
  {
    var b, c := Both(Copying(Whole, ["B"], false)), Both(Copying(Whole, ["B"], true));
    Rephase(objects, caches, b, c.phase);
  }

  lemma MissingAtB(s: State)
    requires HasManifest(s, "A", J) && !HasManifest(s, "B", J)
    ensures Missing(s, J, ["A", "B"]) == ["B"]
  {
    assert ["A", "B"][1..] == ["B"] && ["B"][1..] == [];
    assert Missing(s, J, ["B"]) == ["B"] + Missing(s, J, []);
  }

  // ---- The clean ----

  function Cleaning(
    objects: Objects, caches: Caches, locked: set<string>, deletes: Option<set<ObjectName>>): (s: State)
  {
    State(objects, caches, map[], map[0 := CleanRun("B", locked, deletes, {})])
  }

  // The manifest at B lists both volumes, the copy cached for B the first.
  predicate Stale(objects: Objects, caches: Caches) {
    && ("B", ManifestObject(J)) in objects && objects[("B", ManifestObject(J))] == ManifestData(Whole)
    && ("B", V2.name) in objects
    && ("B", J) in caches && caches[("B", J)] == Part1
    && (forall k :: k in caches && k.0 == "B" ==> k.1 == J)
    && forall k :: k in objects && k.0 == "B" && k.1.ManifestObject? ==> k.1.job == J
  }

  lemma CleanStarts(s: State, objects: Objects, caches: Caches)
    requires Leads(W, s, Idle(objects, caches))
    ensures Leads(W, s, Cleaning(objects, caches, {"d"}, None))
  {
    hide Leads;
    var a, b := Cleaning(objects, caches, {}, None), Cleaning(objects, caches, {"d"}, None);
    assert map[][0 := CleanRun("B", {}, None, {})] == map[0 := CleanRun("B", {}, None, {})];
    assert Next(W, Idle(objects, caches), CleanStart(0, "B"), a);
    LeadsOn(W, s, Idle(objects, caches), CleanStart(0, "B"), a);
    assert {} + {"d"} == {"d"};
    assert a.cleans[0 := b.cleans[0]] == b.cleans;
    assert Next(W, a, CleanLock(0, "d"), b);
    LeadsOn(W, s, a, CleanLock(0, "d"), b);
  }

  lemma V2IsDeletable(objects: Objects, caches: Caches)
    requires Stale(objects, caches)
    ensures Deletable(ViewOf(Cleaning(objects, caches, {"d"}, None), "B"), V2.name, {"d"}, false)
  {
    hide ViewOf;
    var view := ViewOf(Cleaning(objects, caches, {"d"}, None), "B");
    assert ManifestObject(J) in view.objects;
    forall job: JobId | job.dataset in {"d"} && Protects(view, job, {"d"}, false)
      ensures V2.name !in NamesOf(Decoded(view, job).value.volumes)
    {
      assert job == J && Decoded(view, job) == Some(Part1);
    }
  }

  // The clean goes by the cached copy, and deletes the second volume.
  lemma CleanDeletes(s: State, objects: Objects, caches: Caches)
    requires Leads(W, s, Cleaning(objects, caches, {"d"}, None)) && Stale(objects, caches)
    ensures Leads(W, s, Cleaning(objects - {("B", V2.name)}, caches, {"d"}, Some({})))
  {
    hide Leads, Deletable, ViewOf, Next, Stale;
    var a, b := Cleaning(objects, caches, {"d"}, None), Cleaning(objects, caches, {"d"}, Some({V2.name}));
    var c := Cleaning(objects - {("B", V2.name)}, caches, {"d"}, Some({}));
    var view := ViewOf(a, "B");
    V2IsDeletable(objects, caches);
    DecidesSo(objects, caches, view);
    LeadsOn(W, s, a, CleanDecide(0, view, false, {V2.name}), b);
    DeletesIt(objects, caches);
    LeadsOn(W, s, b, CleanDelete(0, V2.name), c);
  }

  lemma DeletesIt(objects: Objects, caches: Caches)
    ensures Next(W, Cleaning(objects, caches, {"d"}, Some({V2.name})), CleanDelete(0, V2.name),
      Cleaning(objects - {("B", V2.name)}, caches, {"d"}, Some({})))
  {
    var b, c :=
      Cleaning(objects, caches, {"d"}, Some({V2.name})), Cleaning(objects - {("B", V2.name)}, caches, {"d"}, Some({}));
    assert {V2.name} - {V2.name} == {};
    assert b.cleans[0 := c.cleans[0]] == c.cleans;
  }

  lemma DecidesSo(objects: Objects, caches: Caches, view: View)
    requires Stale(objects, caches) && view == ViewOf(Cleaning(objects, caches, {"d"}, None), "B")
    requires Deletable(view, V2.name, {"d"}, false)
    ensures Next(W, Cleaning(objects, caches, {"d"}, None), CleanDecide(0, view, false, {V2.name}),
      Cleaning(objects, caches, {"d"}, Some({V2.name})))
  {
    hide Deletable, ViewOf;
    var a, b := Cleaning(objects, caches, {"d"}, None), Cleaning(objects, caches, {"d"}, Some({V2.name}));
    assert a.cleans[0 := b.cleans[0]] == b.cleans;
    assert ReadUnderLocks(a, a.cleans[0], view);
    forall job | ManifestObject(job) in view.objects
      ensures Decoded(view, job).Some?
    {
      assert ("B", ManifestObject(job)) in objects;
    }
  }

  // ---- The behaviour ----

  lemma SetIsBroken(objects: Objects, caches: Caches, locked: set<string>, deletes: Option<set<ObjectName>>)
    requires ("B", ManifestObject(J)) in objects && objects[("B", ManifestObject(J))] == ManifestData(Whole)
    requires ("B", V2.name) !in objects
    ensures !Integrity(W, Cleaning(objects, caches, locked, deletes))
  {
    var s := Cleaning(objects, caches, locked, deletes);
    assert Published(s, "B", J) && PublishedManifest(s, "B", J) == Whole;
    assert V2 in Whole.volumes;
  }

  // What the whole set at A and the interrupted attempt at B leave.
  const Objects1: Objects := Stored2(map[], "A")[("A", ManifestObject(J)) := ManifestData(Whole)]
  const Caches1: Caches := (map[] - {("A", J)})[("A", J) := Part1][("A", J) := Part2][("A", J) := Whole]
  const Objects2: Objects := Stored2(Objects1, "B")
  const Caches2: Caches := (Caches1 - {("B", J)})[("B", J) := Part1]
  const Objects3: Objects := Objects2[("B", ManifestObject(J)) := ManifestData(Whole)]

  lemma TwoAttempts()
    ensures Leads(W, Idle(map[], map[]), Idle(Objects2, Caches2))
  {
    hide Leads;
    var s := Idle(map[], map[]);
    LeadsNowhere(W, s);
    Attempt(s, map[], map[], "A");
    var k: Caches := (map[] - {("A", J)})[("A", J) := Part1];
    Records2(s, Stored2(map[], "A"), k, "A");
    Publishes(s, Stored2(map[], "A"), k[("A", J) := Part2], "A");
    NotAtB();
    Attempt(s, Objects1, Caches1, "B");
    Stops(s, Objects2, Caches2, Solo("B", Sending(Send2([R1, U2], 2))));
  }

  lemma NotAtB()
    ensures ("B", ManifestObject(J)) !in Objects1
  {
  }

  lemma LeavesStale()
    ensures LagsBehind(Objects2) && Stale(Objects3, Caches2)
  {
    NotAtB();
    assert ("A", ManifestObject(J)) in Objects1;
  }

  lemma Story()
    ensures exists t: State :: Leads(W, Idle(map[], map[]), t) && !Integrity(W, t)
  {
    hide Leads, Integrity, LagsBehind, Stale;
    var s := Idle(map[], map[]);
    TwoAttempts();
    LeavesStale();
    CopiesAndCrashes(s, Objects2, Caches2);
    CleanStarts(s, Objects3, Caches2);
    CleanDeletes(s, Objects3, Caches2);
    SetIsBroken(Objects3 - {("B", V2.name)}, Caches2, {"d"}, Some({}));
  }

  // A set sent to A; an attempt at B that stored both volumes and recorded one; a copy of A's
  // manifest to B that dies before it is cached; a clean of B. The manifest at B then lists a
  // volume that is gone.
  lemma IntegrityCanFail()
    ensures Sound(W)
    ensures exists states: seq<State>, steps: seq<Step> ::
      Behaviour(W, states, steps) && !Integrity(W, states[|states| - 1])
  {
    hide Next, Integrity;
    Story();
    var t: State :| Leads(W, Idle(map[], map[]), t) && !Integrity(W, t);
    var states: seq<State>, steps: seq<Step> :|
      Path(W, states, steps) && states[0] == Idle(map[], map[]) && states[|states| - 1] == t;
    assert Behaviour(W, states, steps);
  }
}
