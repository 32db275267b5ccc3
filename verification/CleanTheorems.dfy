// What clean never does, whatever it reads.
module CleanTheorems {
  import opened Common
  import opened Clean

  // ---- Safety of the decision ----

  // The volumes of a manifest carry its dataset's name, with the separators in use.
  predicate CarriesOwnName(m: ReadManifest, seps: seq<string>) {
    forall vol :: vol in m.volumes ==> ParseVolume(vol, seps).Some? && ParseVolume(vol, seps).value.0 == m.dataset
  }

  predicate CarryOwnNames(s: Scope) {
    forall m :: m in s.live ==> CarriesOwnName(m, s.seps)
  }

  // The objects of the manifests read are manifest objects.
  predicate ReadAsManifests(s: Scope) {
    forall m :: m in s.live && m.object_ != "" ==> IsManifestObject(m.object_, s.cfg)
  }

  // What is deleted is a volume of a dataset this run knows and locked, or the manifest object of
  // a broken set that --force removes.
  lemma DeletesOnlyLocked(obj: string, s: Scope, objects: seq<string>)
    requires Deleted(obj, s, objects)
    ensures
      || (obj in objects && ParseVolume(obj, s.seps).Some? && !IsManifestObject(obj, s.cfg)
          && ParseVolume(obj, s.seps).value.0 in s.datasets - s.busy)
      || (exists m :: m in s.live && m.object_ == obj && Forced(m, s, objects))
  {
    hide IsManifestObject, ParseVolume, NestedUnder;
  }

  // A manifest that stays: it is not a broken set that --force removes.
  predicate StaysWhole(m: ReadManifest, s: Scope, objects: seq<string>) {
    m in s.live && !Forced(m, s, objects)
  }

  // No volume that a staying manifest lists is deleted as a volume.
  lemma KeepsListedVolumes(m: ReadManifest, vol: string, s: Scope, objects: seq<string>)
    requires CarryOwnNames(s) && StaysWhole(m, s, objects) && vol in m.volumes
    ensures !(vol in objects && Candidate(vol, s) && !Kept(vol, s, objects))
  {
    hide IsManifestObject, ParseVolume, NestedUnder, Forced;
    assert CarriesOwnName(m, s.seps);
  }

  // Nor is it deleted as a manifest, unless its name is a manifest's.
  lemma ListedNeverDeleted(m: ReadManifest, vol: string, s: Scope, objects: seq<string>)
    requires CarryOwnNames(s) && ReadAsManifests(s) && StaysWhole(m, s, objects) && vol in m.volumes
    requires s.cfg.force ==> !IsManifestObject(vol, s.cfg)
    ensures !Deleted(vol, s, objects)
  {
    hide IsManifestObject, ParseVolume, NestedUnder, Candidate, Kept, CarriesOwnName;
    KeepsListedVolumes(m, vol, s, objects);
  }

  // Without --force no manifest is deleted, so a second read finds the same ones.
  lemma ManifestsStay(obj: string, s: Scope, objects: seq<string>)
    requires !s.cfg.force && IsManifestObject(obj, s.cfg)
    ensures !Deleted(obj, s, objects)
  {
    hide IsManifestObject, ParseVolume, NestedUnder;
  }

  // ---- Safety of a run ----

  // What every read of the destination gives: manifests are manifest objects, and volumes carry
  // their dataset's name.
  ghost predicate HonestReads(cfg: Config, read: nat -> Option<View>) {
    forall k: nat, busy: set<string> :: read(k).Some? ==>
      CarryOwnNames(ScopeOf(cfg, read(k).value, busy)) && ReadAsManifests(ScopeOf(cfg, read(k).value, busy))
  }

  // Clean is safe, whether it succeeds or fails half way: each object that disappears is a volume
  // of a dataset that was locked before the deciding read and is not busy, or the manifest object of
  // a broken set under --force; and none of them is a volume that a manifest which stays lists.
  method RunSafely(
    site: Site, cfg: Config, read: nat -> Option<View>, free: (nat, string) -> bool, reached: set<string>,
    removable: set<string>)
    returns (error: Option<CleanError>, settled: Option<Settled>, rounds: nat)
    requires HonestReads(cfg, read)
    modifies site
    ensures 1 <= rounds <= ReadRounds && (settled.None? ==> site.objects == old(site.objects))
    ensures settled.Some? ==> forall x :: x in old(site.objects) && x !in site.objects ==>
      var s := ScopeOf(cfg, settled.value.view, settled.value.busy);
      || (ParseVolume(x, s.seps).Some? && ParseVolume(x, s.seps).value.0 !in settled.value.busy
          && TriedBefore(ParseVolume(x, s.seps).value.0, rounds, read, free, true))
      || (cfg.force && exists m :: m in s.live && m.object_ == x && Forced(m, s, settled.value.view.objects))
    ensures settled.Some? ==> forall m, vol ::
      var s := ScopeOf(cfg, settled.value.view, settled.value.busy);
      (StaysWhole(m, s, settled.value.view.objects) && vol in m.volumes && vol in old(site.objects)) ==>
        IsManifestObject(vol, cfg) || vol in site.objects
  {
    hide ScopeOf, Deleted, Datasets, IsManifestObject, CarryOwnNames, ReadAsManifests, StaysWhole, Forced;
    error, settled, rounds := site.Run(cfg, read, free, reached, removable);
    if settled.Some? {
      var v, busy := settled.value.view, settled.value.busy;
      ghost var s := ScopeOf(cfg, v, busy);
      ScopeIs(cfg, v, busy);
      assert CarryOwnNames(s) && ReadAsManifests(s);
      forall x | x in old(site.objects) && x !in site.objects
        ensures (ParseVolume(x, s.seps).Some? && ParseVolume(x, s.seps).value.0 !in busy
            && TriedBefore(ParseVolume(x, s.seps).value.0, rounds, read, free, true))
          || (cfg.force && exists m :: m in s.live && m.object_ == x && Forced(m, s, v.objects))
      {
        DeletesOnlyLocked(x, s, v.objects);
        ForcedNeedsForce(s, v.objects);
      }
      forall m, vol |
        StaysWhole(m, s, v.objects) && vol in m.volumes && !IsManifestObject(vol, cfg) && vol in old(site.objects)
        ensures vol in site.objects
      {
        ListedNeverDeleted(m, vol, s, v.objects);
      }
    }
  }

  lemma ForcedNeedsForce(s: Scope, objects: seq<string>)
    ensures forall m :: Forced(m, s, objects) ==> s.cfg.force
  {
  }

  lemma ScopeIs(cfg: Config, v: View, busy: set<string>)
    ensures var s := ScopeOf(cfg, v, busy); s.cfg == cfg && s.busy == busy && s.datasets == Datasets(v)
  {
    hide NestedRoots, OtherSets, Separators, Live, Datasets;
  }

  // ---- Idempotence ----

  function Without(objects: seq<string>, gone: set<string>): (r: seq<string>)
    ensures forall x :: x in r <==> x in objects && x !in gone
  {
    if objects == [] then []
    else
      assert objects == [objects[0]] + objects[1..];
      (if objects[0] in gone then [] else [objects[0]]) + Without(objects[1..], gone)
  }

  function Remaining(v: View, gone: set<string>): (r: View) {
    v.(objects := Without(v.objects, gone))
  }

  // A volume of a judged dataset that no manifest lists.
  predicate Orphaned(obj: string, s: Scope) {
    && !(OwnPrefix(s.cfg) <= obj) && !IsManifestObject(obj, s.cfg) && !NamedBy(obj, s.live)
    && ParseVolume(obj, s.seps).Some? && ParseVolume(obj, s.seps).value.0 in s.datasets - s.busy
  }

  // Clean leaves an orphan below a nested destination, or of a set that another prefix has a
  // manifest of.
  predicate Protected(obj: string, s: Scope)
    requires ParseVolume(obj, s.seps).Some?
  {
    NestedUnder(obj, s.roots).Some? || ParseVolume(obj, s.seps).value.1 + BackupSetName(obj) in s.other
  }

  // Without --force and --cleanLocal a second clean, with nothing in between and the same busy
  // datasets, deletes exactly the orphans whose protection the first took away.
  lemma SecondDeletesIff(cfg: Config, v: View, busy: set<string>, gone: set<string>, obj: string)
    requires !cfg.force && !cfg.cleanLocal
    requires forall x :: x in gone <==> Deleted(x, ScopeOf(cfg, v, busy), v.objects)
    ensures var s, t := ScopeOf(cfg, v, busy), ScopeOf(cfg, Remaining(v, gone), busy);
      && t == s.(roots := t.roots, other := t.other)
      && (Deleted(obj, t, Remaining(v, gone).objects) <==>
          obj in v.objects && Orphaned(obj, s) && Protected(obj, s) && !Protected(obj, t))
      && (Deleted(obj, t, Remaining(v, gone).objects) ==> obj !in gone)
  {
    hide NestedRoots, Without, NestedUnder, ParseVolume, OtherSets, IsManifestObject, Separators, Live;
    SameLive(cfg, v, busy, gone);
    KeptUnforced(obj, ScopeOf(cfg, v, busy), v.objects, Remaining(v, gone).objects);
  }

  // A manifest of a busy dataset lists a volume of a dataset that is not, below a nested
  // destination.
  predicate ListsStray(m: ReadManifest, vol: string, s: Scope) {
    && m in s.live && m.dataset in s.busy && vol in m.volumes && NestedUnder(vol, s.roots).Some?
    && ParseVolume(vol, s.seps).Some? && ParseVolume(vol, s.seps).value.0 in s.datasets - s.busy
  }

  predicate NoStrays(s: Scope, objects: seq<string>) {
    forall m, vol :: m in s.live && vol in objects ==> !ListsStray(m, vol, s)
  }

  // Volumes that carry their dataset's name are no strays, and without a busy dataset none is.
  lemma OwnNamesAreNoStrays(s: Scope, objects: seq<string>)
    requires forall m :: m in s.live && m.dataset in s.busy ==> CarriesOwnName(m, s.seps)
    ensures NoStrays(s, objects)
  {
    hide ParseVolume, NestedUnder;
  }

  // What a clean without --force deletes: volumes outside every nested destination.
  lemma OrphansAreOutside(obj: string, s: Scope, objects: seq<string>)
    requires !s.cfg.force && NoStrays(s, objects) && Deleted(obj, s, objects)
    ensures obj in objects && NestedUnder(obj, s.roots).None? && ParseVolume(obj, s.seps).Some?
  {
    hide IsManifestObject, ParseVolume, NestedUnder;
    if m :| m in s.live && obj in m.volumes {
      assert m.dataset in s.busy && !ListsStray(m, obj, s);
    }
  }

  lemma {:induction false} SameRoots(objects: seq<string>, gone: set<string>, own: string)
    requires forall x :: x in gone ==> NestedRoot(x, own).None?
    ensures NestedRoots(Without(objects, gone), own) == NestedRoots(objects, own)
  {
    hide NestedRoot;
    if objects != [] {
      SameRoots(objects[1..], gone, own);
      var rest := Without(objects[1..], gone);
      if objects[0] !in gone {
        assert Without(objects, gone)[0] == objects[0] && Without(objects, gone)[1..] == rest;
      } else {
        assert Without(objects, gone) == rest;
      }
    }
  }

  // A deleted volume is not under a nested root, so it is not what makes one.
  lemma OrphanMakesNoRoot(obj: string, objects: seq<string>, own: string)
    requires obj in objects && NestedUnder(obj, NestedRoots(objects, own)).None?
    ensures NestedRoot(obj, own).None?
  {
    hide NestedRoot, NestedRoots, NestedUnder;
  }

  lemma SameNestedSets(objects: seq<string>, gone: set<string>, roots: seq<string>, seps: seq<string>)
    requires forall x :: x in gone ==> NestedUnder(x, roots).None?
    ensures NestedSets(Without(objects, gone), roots, seps) == NestedSets(objects, roots, seps)
  {
    hide NestedSetOf, Without;
  }

  lemma SameOtherSets(cfg: Config, objects: seq<string>, gone: set<string>, roots: seq<string>, seps: seq<string>)
    requires forall x :: x in gone ==> NestedUnder(x, roots).None? && ParseVolume(x, seps).Some?
    ensures OtherSets(cfg, Without(objects, gone), roots, seps) == OtherSets(cfg, objects, roots, seps)
  {
    hide NestedSets, Without, NestedUnder, ParseVolume, IsManifestObject;
    SameNestedSets(objects, gone, roots, seps);
    assert forall x :: x in gone ==> OtherSetsOf(x, cfg, seps) == {};
  }

  // The second clean decides with what the first decided with.
  lemma SameScope(cfg: Config, v: View, busy: set<string>, gone: set<string>)
    requires var s := ScopeOf(cfg, v, busy);
      forall x :: x in gone ==> x in v.objects && NestedUnder(x, s.roots).None? && ParseVolume(x, s.seps).Some?
    ensures ScopeOf(cfg, Remaining(v, gone), busy) == ScopeOf(cfg, v, busy)
  {
    hide NestedRoots, NestedRoot, Without, NestedUnder, ParseVolume, OtherSets, IsManifestObject, Separators, Live;
    var own := OwnPrefix(cfg);
    forall x | x in gone
      ensures NestedRoot(x, own).None?
    {
      OrphanMakesNoRoot(x, v.objects, own);
    }
    SameRoots(v.objects, gone, own);
    SameOtherSets(cfg, v.objects, gone, NestedRoots(v.objects, own), Separators(cfg, v));
    SameLive(cfg, v, busy, gone);
  }

  lemma SameLive(cfg: Config, v: View, busy: set<string>, gone: set<string>)
    ensures Live(cfg, Remaining(v, gone), busy) == Live(cfg, v, busy)
    ensures Separators(cfg, Remaining(v, gone)) == Separators(cfg, v)
  {
  }

  // Clean is idempotent: without --force and --cleanLocal, a second clean with nothing in between
  // and the same busy datasets deletes nothing. With a stray it can: `CleanStray.SecondCleanDeletes`.
  lemma CleanTwice(cfg: Config, v: View, busy: set<string>, gone: set<string>, obj: string)
    requires !cfg.force && !cfg.cleanLocal && NoStrays(ScopeOf(cfg, v, busy), v.objects)
    requires forall x :: x in gone <==> Deleted(x, ScopeOf(cfg, v, busy), v.objects)
    ensures !Deleted(obj, ScopeOf(cfg, Remaining(v, gone), busy), Remaining(v, gone).objects)
  {
    hide ScopeOf, Candidate, NoStrays;
    var s := ScopeOf(cfg, v, busy);
    ScopeIs(cfg, v, busy);
    forall x | x in gone
      ensures x in v.objects && NestedUnder(x, s.roots).None? && ParseVolume(x, s.seps).Some?
    {
      OrphansAreOutside(x, s, v.objects);
    }
    SameScope(cfg, v, busy, gone);
    SecondDeletesIff(cfg, v, busy, gone, obj);
  }

  lemma KeptUnforced(obj: string, s: Scope, a: seq<string>, b: seq<string>)
    requires !s.cfg.force
    ensures Kept(obj, s, a) <==> Kept(obj, s, b)
  {
  }
}
