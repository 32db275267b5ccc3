// clean: which objects of a destination it deletes, and in what order it locks, reads and deletes.
module Clean {
  import opened Common
  import opened Text
  import opened Names

  const DefaultSeparator := "|"

  datatype Config = Config(prefix: string, separator: string, force: bool, cleanLocal: bool)

  // A manifest that was read: its object at the destination ("" when it is only cached), its copy
  // in the cache, and what it says. A foreign one is cached for another manifest prefix.
  datatype ReadManifest = ReadManifest(
    object_: string, path: string, dataset: string, separator: string, volumes: seq<string>, foreign: bool)

  // One read of the destination and of the cache.
  datatype View = View(manifests: seq<ReadManifest>, localOnly: seq<ReadManifest>, objects: seq<string>)

  function Datasets(v: View): (r: set<string>) {
    (set m | m in v.manifests :: m.dataset) + (set m | m in v.localOnly && !m.foreign :: m.dataset)
  }

  // ---- Names ----

  function LeadingOther(s: string): (n: nat)
    ensures n <= |s|
  {
    if s == "" || InDatasetName(s[0]) then 0 else 1 + LeadingOther(s[1..])
  }

  // isManifestObject: the prefix, then the separator or a run of other symbols that comes again.
  predicate IsManifestObject(name: string, cfg: Config) {
    cfg.prefix <= name &&
    var rest := name[|cfg.prefix|..];
    rest != "" && (
      || (cfg.separator != "" && cfg.separator <= rest)
      || (var n := LeadingOther(rest);
          var marker := LastIndex(rest[n..], ".manifest");
          n > 0 && marker.Some? && Contains(rest[n..][..marker.value], rest[..n])))
  }

  function OwnPrefix(cfg: Config): (p: string) {
    cfg.prefix + if cfg.separator == "" then DefaultSeparator else cfg.separator
  }

  // The dataset and separator of a volume written with one of the separators, the first that reads it.
  function ParseVolume(name: string, seps: seq<string>): (r: Option<(string, string)>)
    ensures r.Some? ==> r.value.1 in seps && ParseVolumeName(name, r.value.1).Some?
    ensures r.Some? ==> ParseVolumeName(name, r.value.1).value.0.volume == r.value.0
  {
    if seps == [] then None
    else
      var p := ParseVolumeName(name, seps[0]);
      if p.Some? then Some((p.value.0.volume, seps[0])) else ParseVolume(name, seps[1..])
  }

  function BackupSetName(volume: string): (r: string) {
    match LastIndex(volume, Marker)
    case None => volume
    case Some(i) => volume[..i]
  }

  function AddSeparator(seps: seq<string>, sep: string): (r: seq<string>) {
    if sep in seps then seps else seps + [sep]
  }

  function AddSeparators(seps: seq<string>, ms: seq<ReadManifest>): (r: seq<string>)
    decreases |ms|
  {
    if ms == [] then seps else AddSeparators(AddSeparator(seps, ms[0].separator), ms[1..])
  }

  function Separators(cfg: Config, v: View): (r: seq<string>) {
    AddSeparators(AddSeparators(AddSeparator([DefaultSeparator], cfg.separator), v.manifests), v.localOnly)
  }

  // ---- Other destinations and other jobs ----

  // The directory of a nested destination that an object is the manifest of.
  function NestedRoot(obj: string, own: string): (r: Option<string>)
    ensures r.Some? ==> r.value <= obj
  {
    if own <= obj then None
    else
      match Index(obj, "/" + own)
      case None => None
      case Some(i) => if Contains(obj[i..], ".manifest") then Some(obj[..i + 1]) else None
  }

  function NestedRoots(objects: seq<string>, own: string): (r: seq<string>)
    ensures forall obj, root :: obj in objects && NestedRoot(obj, own) == Some(root) ==> root in r
  {
    if objects == [] then []
    else
      assert objects == [objects[0]] + objects[1..];
      (match NestedRoot(objects[0], own) case None => [] case Some(root) => [root]) + NestedRoots(objects[1..], own)
  }

  function NestedUnder(obj: string, roots: seq<string>): (r: Option<string>)
    ensures r.None? ==> forall root :: root in roots ==> !(root <= obj)
    ensures r.Some? ==> r.value in roots && r.value <= obj
  {
    if roots == [] then None
    else
      assert roots == [roots[0]] + roots[1..] && roots[0] in roots;
      if roots[0] <= obj then Some(roots[0]) else NestedUnder(obj, roots[1..])
  }

  function LastParts(head: string, sep: string, n: nat): (r: string)
    requires sep != "" && n <= |Split(head, sep)|
  {
    var parts := Split(head, sep);
    sep + Join(parts[|parts| - n..], sep)
  }

  // The sets that a manifest of another prefix may be for, every way its name can be read.
  function OtherSetsOf(obj: string, cfg: Config, seps: seq<string>): (r: set<string>) {
    var idx := LastIndex(obj, ".manifest");
    if idx.None? || IsManifestObject(obj, cfg) || ParseVolume(obj, seps).Some? then {}
    else
      var head := obj[..idx.value];
      (set sep | sep in seps && sep != "" && |Split(head, sep)| >= 3 :: LastParts(head, sep, 2)) +
      (set sep | sep in seps && sep != "" && |Split(head, sep)| >= 5 && Split(head, sep)[|Split(head, sep)| - 2] == "to"
        :: LastParts(head, sep, 4))
  }

  // The root and set of a volume below a nested destination.
  function NestedSetOf(obj: string, roots: seq<string>, seps: seq<string>): (r: Option<string>)
    ensures r.Some? ==> NestedUnder(obj, roots).Some?
  {
    match NestedUnder(obj, roots)
    case None => None
    case Some(root) =>
      var rel := obj[|root|..];
      match ParseVolume(rel, seps)
      case None => None
      case Some(parsed) => Some(root + parsed.1 + BackupSetName(rel))
  }

  function NestedSets(objects: seq<string>, roots: seq<string>, seps: seq<string>): (r: set<string>) {
    set obj | obj in objects && NestedSetOf(obj, roots, seps).Some? :: NestedSetOf(obj, roots, seps).value
  }

  // A nested destination's manifest of a set it has volumes of.
  predicate IsNestedOwn(obj: string, cfg: Config, nested: set<string>, roots: seq<string>, seps: seq<string>) {
    match NestedUnder(obj, roots)
    case None => false
    case Some(root) => exists key :: key in OtherSetsOf(obj, cfg, seps) && root + key in nested
  }

  // The sets of other prefixes' manifests at the destination.
  function OtherSets(cfg: Config, objects: seq<string>, roots: seq<string>, seps: seq<string>): (r: set<string>) {
    var nested := NestedSets(objects, roots, seps);
    set obj, key |
      obj in objects && !IsNestedOwn(obj, cfg, nested, roots, seps) && key in OtherSetsOf(obj, cfg, seps) :: key
  }

  // ---- The decision ----

  // The manifests that stay, among those only in the cache.
  predicate StaysLocal(m: ReadManifest, cfg: Config, busy: set<string>) {
    !cfg.cleanLocal || m.foreign || m.dataset in busy
  }

  function Live(cfg: Config, v: View, busy: set<string>): (r: seq<ReadManifest>)
    ensures forall m :: m in r <==> m in v.manifests || (m in v.localOnly && StaysLocal(m, cfg, busy))
  {
    v.manifests + LocalOf(v.localOnly, cfg, busy, true)
  }

  function LocalOf(ms: seq<ReadManifest>, cfg: Config, busy: set<string>, stays: bool): (r: seq<ReadManifest>)
    ensures forall m :: m in r <==> m in ms && StaysLocal(m, cfg, busy) == stays
  {
    if ms == [] then []
    else
      assert ms == [ms[0]] + ms[1..];
      (if StaysLocal(ms[0], cfg, busy) == stays then [ms[0]] else []) + LocalOf(ms[1..], cfg, busy, stays)
  }

  predicate NamedBy(obj: string, ms: seq<ReadManifest>) {
    exists m :: m in ms && obj in m.volumes
  }

  // What a decision is made with.
  datatype Scope = Scope(
    cfg: Config, live: seq<ReadManifest>, datasets: set<string>, busy: set<string>, seps: seq<string>,
    roots: seq<string>,
    other: set<string>)

  function ScopeOf(cfg: Config, v: View, busy: set<string>): (s: Scope) {
    var seps := Separators(cfg, v);
    var roots := NestedRoots(v.objects, OwnPrefix(cfg));
    Scope(cfg, Live(cfg, v, busy), Datasets(v), busy, seps, roots, OtherSets(cfg, v.objects, roots, seps))
  }

  // A volume that clean may judge.
  predicate Candidate(obj: string, s: Scope) {
    && !(OwnPrefix(s.cfg) <= obj) && !IsManifestObject(obj, s.cfg)
    && (NestedUnder(obj, s.roots).None? || NamedBy(obj, s.live))
    && ParseVolume(obj, s.seps).Some?
    && var (dataset, sep) := ParseVolume(obj, s.seps).value;
       && dataset in s.datasets && dataset !in s.busy
       && (sep + BackupSetName(obj) !in s.other || NamedBy(obj, s.live))
  }

  // A broken set at the destination that --force removes.
  predicate Forced(m: ReadManifest, s: Scope, objects: seq<string>) {
    s.cfg.force && m.object_ != "" && m.dataset !in s.busy && exists v :: v in m.volumes && v !in objects
  }

  // The volumes that a judged manifest keeps.
  predicate Kept(obj: string, s: Scope, objects: seq<string>) {
    exists m :: m in s.live && m.dataset !in s.busy && !Forced(m, s, objects) && obj in m.volumes
  }

  predicate Deleted(obj: string, s: Scope, objects: seq<string>) {
    || (obj in objects && Candidate(obj, s) && !Kept(obj, s, objects))
    || exists m :: m in s.live && Forced(m, s, objects) && m.object_ == obj
  }

  // Clean from its last read on: none when the destination lists no manifest.
  method Decide(cfg: Config, v: View, busy: set<string>) returns (r: Option<(seq<string>, seq<string>)>)
    ensures r.None? <==> v.manifests == [] && v.objects != []
    ensures r.Some? ==> forall obj :: obj in r.value.0 <==> Deleted(obj, ScopeOf(cfg, v, busy), v.objects)
    ensures r.Some? ==> forall path :: path in r.value.1 <==>
      || (exists m :: m in v.localOnly && !StaysLocal(m, cfg, busy) && m.path == path)
      || (exists m :: m in Live(cfg, v, busy) && Forced(m, ScopeOf(cfg, v, busy), v.objects) && m.path == path)
  {
    if v.manifests == [] && v.objects != [] {
      return None;
    }
    hide Live, LocalOf;
    var s := ScopeOf(cfg, v, busy);
    var dropped := LocalOf(v.localOnly, cfg, busy, false);
    var keep, forced := Judge(s, v.objects);
    var deletes := OrphansAmong(s, v.objects, keep);
    r := Some((deletes + ObjectsOf(forced), PathsOf(dropped) + PathsOf(forced)));
  }

  function ObjectsOf(ms: seq<ReadManifest>): (r: seq<string>)
    ensures forall x :: x in r <==> exists m :: m in ms && m.object_ == x
  {
    if ms == [] then []
    else
      assert ms == [ms[0]] + ms[1..];
      [ms[0].object_] + ObjectsOf(ms[1..])
  }

  function PathsOf(ms: seq<ReadManifest>): (r: seq<string>)
    ensures forall x :: x in r <==> exists m :: m in ms && m.path == x
  {
    if ms == [] then []
    else
      assert ms == [ms[0]] + ms[1..];
      [ms[0].path] + PathsOf(ms[1..])
  }

  // The keep set and the forced manifests.
  method Judge(s: Scope, objects: seq<string>) returns (keep: set<string>, forced: seq<ReadManifest>)
    ensures forall obj :: obj in keep <==> Kept(obj, s, objects)
    ensures forall m :: m in forced <==> m in s.live && Forced(m, s, objects)
  {
    keep, forced := {}, [];
    for i := 0 to |s.live|
      invariant forall obj :: obj in keep <==>
        exists m :: m in s.live[..i] && m.dataset !in s.busy && !Forced(m, s, objects) && obj in m.volumes
      invariant forall m :: m in forced <==> m in s.live[..i] && Forced(m, s, objects)
    {
      hide Forced;
      var m := s.live[i];
      assert s.live[..i + 1] == s.live[..i] + [m];
      var missing := MissesVolume(m, objects);
      ForcedIff(m, s, objects);
      if m.dataset !in s.busy {
        if !missing || !s.cfg.force || m.object_ == "" {
          keep := keep + (set vol | vol in m.volumes);
        } else {
          forced := forced + [m];
        }
      }
    }
    assert s.live[..|s.live|] == s.live;
  }

  lemma ForcedIff(m: ReadManifest, s: Scope, objects: seq<string>)
    ensures Forced(m, s, objects) <==>
      s.cfg.force && m.object_ != "" && m.dataset !in s.busy && exists v :: v in m.volumes && v !in objects
  {
  }

  method MissesVolume(m: ReadManifest, objects: seq<string>) returns (missing: bool)
    ensures missing <==> exists v :: v in m.volumes && v !in objects
  {
    missing := false;
    for k := 0 to |m.volumes|
      invariant !missing
      invariant forall j :: 0 <= j < k ==> m.volumes[j] in objects
    {
      if m.volumes[k] !in objects {
        missing := true;
        break;
      }
    }
  }

  method OrphansAmong(s: Scope, objects: seq<string>, keep: set<string>) returns (deletes: seq<string>)
    ensures forall obj :: obj in deletes <==> obj in objects && Candidate(obj, s) && obj !in keep
  {
    hide Candidate;
    deletes := [];
    for i := 0 to |objects|
      invariant forall obj :: obj in deletes <==> obj in objects[..i] && Candidate(obj, s) && obj !in keep
    {
      assert objects[..i + 1] == objects[..i] + [objects[i]];
      if Candidate(objects[i], s) && objects[i] !in keep {
        deletes := deletes + [objects[i]];
      }
    }
    assert objects[..|objects|] == objects;
  }

  // ---- Locks and reads ----

  const ReadRounds := 3

  datatype CleanError = ReadFailed | KeepsChanging | NoManifests | DeleteFailed

  // What a read made under the locks settled on.
  datatype Settled = Settled(view: View, busy: set<string>, locked: set<string>)

  // A dataset was tried in a round before the given one, and its lock was free or not.
  ghost predicate TriedBefore(
    d: string, round: nat, read: nat -> Option<View>, free: (nat, string) -> bool, was: bool)
  {
    exists k: nat :: 1 <= k < round && read(k).Some? && d in Datasets(read(k).value) && free(k, d) == was
  }

  // Reads until a read names no dataset that was not locked, or found busy, before it. read(k) is
  // the k-th read; free(k, d) says whether d's lock is free when round k tries it.
  method LockAndRead(read: nat -> Option<View>, free: (nat, string) -> bool)
    returns (r: Result<Settled, CleanError>, rounds: nat)
    ensures 1 <= rounds <= ReadRounds
    ensures r.Ok? ==>
      && read(rounds) == Some(r.value.view)
      && Datasets(r.value.view) <= r.value.locked + r.value.busy && r.value.locked !! r.value.busy
      && (forall d :: d in r.value.locked ==> TriedBefore(d, rounds, read, free, true))
      && (forall d :: d in r.value.busy ==> TriedBefore(d, rounds, read, free, false))
    ensures r.Err? ==> r.error == (if read(rounds).None? then ReadFailed else KeepsChanging)
    ensures r == Err(KeepsChanging) ==> rounds == ReadRounds
  {
    hide Datasets;
    var busy, locked: set<string> := {}, {};
    rounds := 1;
    while true
      invariant 1 <= rounds <= ReadRounds
      invariant locked !! busy
      invariant forall d :: d in locked ==> TriedBefore(d, rounds, read, free, true)
      invariant forall d :: d in busy ==> TriedBefore(d, rounds, read, free, false)
      decreases ReadRounds - rounds
    {
      if read(rounds).None? {
        return Err(ReadFailed), rounds;
      }
      var view := read(rounds).value;
      var names := Datasets(view) - locked - busy;
      if names == {} {
        forall d | d in Datasets(view)
          ensures d in locked + busy
        {
          assert d !in names;
        }
        return Ok(Settled(view, busy, locked)), rounds;
      }
      if rounds == ReadRounds {
        return Err(KeepsChanging), rounds;
      }
      ghost var round := rounds;
      forall d | d in names
        ensures TriedBefore(d, round + 1, read, free, free(round, d))
      {
        assert 1 <= round < round + 1 && read(round).Some?;
      }
      TriedLater(locked, busy, rounds, read, free);
      locked, busy := locked + (set d | d in names && free(rounds, d)), busy + (set d | d in names && !free(rounds, d));
      rounds := rounds + 1;
    }
  }

  lemma TriedLater(
    locked: set<string>, busy: set<string>, round: nat, read: nat -> Option<View>, free: (nat, string) -> bool)
    requires forall d :: d in locked ==> TriedBefore(d, round, read, free, true)
    requires forall d :: d in busy ==> TriedBefore(d, round, read, free, false)
    ensures forall d :: d in locked ==> TriedBefore(d, round + 1, read, free, true)
    ensures forall d :: d in busy ==> TriedBefore(d, round + 1, read, free, false)
  {
    hide Datasets;
  }

  // ---- Deleting ----

  // A destination and the cache of its manifests.
  class Site {
    var objects: set<string>
    var cache: set<string>

    // Deletes objects, then, once all are gone, cached manifests. reached are the deletes that go
    // through: the workers stop at the first that fails. Removing a cached file may fail too.
    method Apply(
      deletes: seq<string>, localDeletes: seq<string>, reached: set<string>, removable: set<string>)
      returns (ok: bool)
      modifies this
      ensures objects == old(objects) - ((set x | x in deletes) * reached)
      ensures cache <= old(cache) && forall path :: path in old(cache) && path !in cache ==> path in localDeletes
      ensures (exists x :: x in deletes && x !in reached) ==> !ok && cache == old(cache)
      ensures ok ==> cache == old(cache) - (set path | path in localDeletes)
      ensures ok <==>
        (forall x :: x in deletes ==> x in reached) && (forall path :: path in localDeletes ==> path in removable)
    {
      objects := objects - ((set x | x in deletes) * reached);
      if exists x :: x in deletes && x !in reached {
        return false;
      }
      for i := 0 to |localDeletes|
        invariant objects == old(objects) - ((set x | x in deletes) * reached)
        invariant cache == old(cache) - (set path | path in localDeletes[..i])
        invariant forall path :: path in localDeletes[..i] ==> path in removable
      {
        assert localDeletes[..i + 1] == localDeletes[..i] + [localDeletes[i]];
        if localDeletes[i] !in removable {
          return false;
        }
        cache := cache - {localDeletes[i]};
      }
      assert localDeletes[..|localDeletes|] == localDeletes;
      return true;
    }

    // Clean: whatever disappears, also when it fails half way, is what the decision deletes, made on
    // a read that every dataset it names was locked, or found busy, before. Cached manifests go only
    // once all of it is gone.
    method Run(
      cfg: Config, read: nat -> Option<View>, free: (nat, string) -> bool, reached: set<string>, removable: set<string>)
      returns (error: Option<CleanError>, settled: Option<Settled>, rounds: nat)
      modifies this
      ensures 1 <= rounds <= ReadRounds && objects <= old(objects)
      ensures settled.None? ==> error.Some? && objects == old(objects) && cache == old(cache)
      ensures settled.Some? ==>
        && read(rounds) == Some(settled.value.view)
        && Datasets(settled.value.view) - settled.value.busy <= settled.value.locked
        && (forall d :: d in settled.value.locked ==> TriedBefore(d, rounds, read, free, true))
        && (forall d :: d in settled.value.busy ==> TriedBefore(d, rounds, read, free, false))
      ensures settled.Some? ==> forall x :: x in old(objects) - objects ==>
        Deleted(x, ScopeOf(cfg, settled.value.view, settled.value.busy), settled.value.view.objects)
      ensures settled.Some? && (error.None? || cache != old(cache)) ==> forall x ::
        Deleted(x, ScopeOf(cfg, settled.value.view, settled.value.busy), settled.value.view.objects) ==> x !in objects
    {
      hide ScopeOf, Deleted, Datasets, Live, Forced, StaysLocal, TriedBefore;
      var r;
      r, rounds := LockAndRead(read, free);
      if r.Err? {
        return Some(r.error), None, rounds;
      }
      var view, busy := r.value.view, r.value.busy;
      var decision := Decide(cfg, view, busy);
      if decision.None? {
        return Some(NoManifests), None, rounds;
      }
      var ok := Apply(decision.value.0, decision.value.1, reached, removable);
      assert cache != old(cache) || ok ==> forall x :: x in decision.value.0 ==> x in reached;
      return if ok then None else Some(DeleteFailed), Some(r.value), rounds;
    }
  }
}
