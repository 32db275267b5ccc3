// What clean deletes by its names is what the protocol lets a clean delete.
module CleanRefines {
  import opened Common
  import opened Manifests
  import opened Text
  import opened Names
  import Clean
  import Protocol

  // ---- Names of the protocol's objects ----

  function SetOf(job: JobId): (r: SetName) {
    SetName(job.dataset, job.source, job.base)
  }

  // The object name, with the default separator.
  function NameOf(n: ObjectName, prefix: string): (r: string) {
    match n
    case VolumeObject(job, compressor, number) =>
      VolumeName(SetOf(job), Clean.DefaultSeparator, compressor, job.pgp, number)
    case ManifestObject(job) => ManifestName(SetOf(job), prefix, Clean.DefaultSeparator, job.pgp)
  }

  // A volume whose parts do not hold the separator, as zfs and the program name them.
  predicate WellNamed(n: ObjectName) {
    n.VolumeObject? ==>
      && SeparatorFits(SetOf(n.job), Clean.DefaultSeparator, '|') && ValidSet(SetOf(n.job))
      && ValidCompressor(n.compressor) && 1 <= n.number <= MaxNumber
  }

  // ---- What a clean read ----

  // The decoded manifest of a job, as clean holds it.
  ghost predicate IsRead(m: Clean.ReadManifest, job: JobId, manifest: Manifest, prefix: string) {
    && m.dataset == job.dataset && m.separator == Clean.DefaultSeparator && !m.foreign
    && forall v :: v in manifest.volumes ==> NameOf(v.name, prefix) in m.volumes
  }

  // Every object listed is one of the destination's.
  ghost predicate ListsObjects(cfg: Clean.Config, v: Clean.View, pv: Protocol.View) {
    forall x :: x in v.objects ==> exists n :: n in pv.objects && WellNamed(n) && NameOf(n, cfg.prefix) == x
  }

  // Every manifest read is of a job that the destination or the cache has one of.
  ghost predicate IsOfJob(m: Clean.ReadManifest, pv: Protocol.View) {
    && m.separator == Clean.DefaultSeparator
    && exists job :: (job in pv.caches || ManifestObject(job) in pv.objects) && job.dataset == m.dataset
  }

  ghost predicate ReadsNoOthers(v: Clean.View, pv: Protocol.View) {
    (forall m :: m in v.manifests ==> IsOfJob(m, pv)) && (forall m :: m in v.localOnly ==> IsOfJob(m, pv))
  }

  // Every manifest of the destination is read, and every one only in the cache.
  ghost predicate ReadsAtDestination(cfg: Clean.Config, v: Clean.View, pv: Protocol.View, job: JobId) {
    ManifestObject(job) in pv.objects ==>
      && Protocol.Decoded(pv, job).Some?
      && exists m :: m in v.manifests && IsRead(m, job, Protocol.Decoded(pv, job).value, cfg.prefix)
  }

  ghost predicate ReadsLocal(cfg: Clean.Config, v: Clean.View, pv: Protocol.View, job: JobId) {
    Protocol.LocalOnly(pv, job) ==> exists m :: m in v.localOnly && IsRead(m, job, pv.caches[job], cfg.prefix)
  }

  // v is a read of the destination and cache that pv describes: one manifest prefix, the default
  // separator, every manifest decoded.
  ghost predicate Reads(cfg: Clean.Config, v: Clean.View, pv: Protocol.View) {
    && cfg.separator == Clean.DefaultSeparator
    && ListsObjects(cfg, v, pv)
    && ReadsNoOthers(v, pv)
    && forall job :: ReadsAtDestination(cfg, v, pv, job) && ReadsLocal(cfg, v, pv, job)
  }

  // ---- Reading the names ----

  lemma {:induction false} OneSeparator(seps: seq<string>, ms: seq<Clean.ReadManifest>)
    requires seps == [Clean.DefaultSeparator] && forall m :: m in ms ==> m.separator == Clean.DefaultSeparator
    ensures Clean.AddSeparators(seps, ms) == seps
    decreases |ms|
  {
    if ms != [] {
      assert ms[0] in ms;
      OneSeparator(seps, ms[1..]);
    }
  }

  lemma SeparatorsAre(cfg: Clean.Config, v: Clean.View, pv: Protocol.View)
    requires Reads(cfg, v, pv)
    ensures Clean.Separators(cfg, v) == [Clean.DefaultSeparator]
  {
    hide ListsObjects, ReadsAtDestination, ReadsLocal;
    OneSeparator([Clean.DefaultSeparator], v.manifests);
    OneSeparator([Clean.DefaultSeparator], v.localOnly);
  }

  // A volume name is read as one of its dataset.
  lemma ReadsDataset(n: ObjectName, prefix: string)
    requires n.VolumeObject? && WellNamed(n)
    ensures Clean.ParseVolume(NameOf(n, prefix), [Clean.DefaultSeparator]) ==
      Some((n.job.dataset, Clean.DefaultSeparator))
  {
    hide VolumeName, ParseVolumeName;
    RoundTrip(SetOf(n.job), Clean.DefaultSeparator, '|', n.compressor, n.job.pgp, n.number);
  }

  // A manifest name is taken for a manifest, never for a volume.
  lemma ReadsManifest(job: JobId, cfg: Clean.Config)
    requires cfg.separator == Clean.DefaultSeparator
    ensures Clean.IsManifestObject(NameOf(ManifestObject(job), cfg.prefix), cfg)
  {
    hide Join, ManifestName, Clean.IsManifestObject, NameParts, ManifestExtensions;
    var sep := Clean.DefaultSeparator;
    ManifestNameForm(SetOf(job), cfg.prefix, sep, job.pgp);
    Regrouped(cfg.prefix, sep, Join(NameParts(SetOf(job)), sep), ManifestExtensions(job.pgp));
    StartsAsManifest(cfg, Join(NameParts(SetOf(job)), sep) + ManifestExtensions(job.pgp));
  }

  lemma Regrouped(a: string, b: string, c: string, d: string)
    ensures a + b + c + d == a + (b + (c + d))
  {
  }

  lemma StartsAsManifest(cfg: Clean.Config, rest: string)
    requires cfg.separator == Clean.DefaultSeparator
    ensures Clean.IsManifestObject(cfg.prefix + (cfg.separator + rest), cfg)
  {
    var name := cfg.prefix + (cfg.separator + rest);
    assert name[|cfg.prefix|..] == cfg.separator + rest;
  }

  // ---- The refinement ----

  // The datasets clean knows are those the protocol's clean knows.
  lemma KnownDataset(cfg: Clean.Config, v: Clean.View, pv: Protocol.View, ds: string)
    requires Reads(cfg, v, pv) && ds in Clean.Datasets(v)
    ensures Protocol.Known(pv, ds)
  {
    hide ListsObjects, ReadsAtDestination, ReadsLocal;
    var m :| (m in v.manifests || m in v.localOnly) && m.dataset == ds;
    assert IsOfJob(m, pv);
  }

  // A manifest that protects its volumes in the protocol keeps them in clean.
  lemma ProtectedIsKept(
    cfg: Clean.Config, v: Clean.View, pv: Protocol.View, busy: set<string>, locked: set<string>, job: JobId,
    n: ObjectName)
    requires Reads(cfg, v, pv) && !cfg.force && locked !! busy
    requires job.dataset in locked && Protocol.Protects(pv, job, locked, cfg.cleanLocal)
    requires n in Protocol.NamesOf(Protocol.Decoded(pv, job).value.volumes)
    ensures Clean.Kept(NameOf(n, cfg.prefix), Clean.ScopeOf(cfg, v, busy), v.objects)
  {
    hide NameOf, ListsObjects, ReadsNoOthers, Reads, Protocol.LocalOnly;
    var m := ReadManifestOf(cfg, v, pv, busy, locked, job);
    var info :| info in Protocol.Decoded(pv, job).value.volumes && info.name == n;
    LiveKeeps(cfg, v, busy, m, NameOf(n, cfg.prefix));
  }

  lemma ReadManifestOf(
    cfg: Clean.Config, v: Clean.View, pv: Protocol.View, busy: set<string>, locked: set<string>, job: JobId)
    returns (m: Clean.ReadManifest)
    requires Reads(cfg, v, pv) && job.dataset in locked && Protocol.Protects(pv, job, locked, cfg.cleanLocal)
    ensures IsRead(m, job, Protocol.Decoded(pv, job).value, cfg.prefix)
    ensures m in Clean.Live(cfg, v, busy)
  {
    hide IsRead, ListsObjects, ReadsNoOthers;
    assert ReadsAtDestination(cfg, v, pv, job) && ReadsLocal(cfg, v, pv, job);
    if ManifestObject(job) in pv.objects {
      m :| m in v.manifests && IsRead(m, job, Protocol.Decoded(pv, job).value, cfg.prefix);
    } else {
      m :| m in v.localOnly && IsRead(m, job, pv.caches[job], cfg.prefix);
    }
  }

  lemma LiveKeeps(cfg: Clean.Config, v: Clean.View, busy: set<string>, m: Clean.ReadManifest, x: string)
    requires !cfg.force && m in Clean.Live(cfg, v, busy) && m.dataset !in busy && x in m.volumes
    ensures Clean.Kept(x, Clean.ScopeOf(cfg, v, busy), v.objects)
  {
    hide Clean.Live, Clean.NestedRoots, Clean.OtherSets, Clean.Separators;
  }

  // Every object clean deletes without --force is the name of a volume that the protocol lets a
  // clean with these locks delete.
  lemma DeletedIsDeletable(
    cfg: Clean.Config, v: Clean.View, pv: Protocol.View, busy: set<string>, locked: set<string>, x: string)
    requires Reads(cfg, v, pv) && !cfg.force
    requires Clean.Datasets(v) - busy <= locked && locked !! busy
    requires Clean.Deleted(x, Clean.ScopeOf(cfg, v, busy), v.objects)
    ensures exists n :: Protocol.Deletable(pv, n, locked, cfg.cleanLocal) && NameOf(n, cfg.prefix) == x
  {
    hide NameOf, Reads, Clean.ScopeOf, Protocol.Deletable, Clean.Deleted;
    var n := VolumeDeleted(cfg, v, pv, busy, x);
    KnownDataset(cfg, v, pv, n.job.dataset);
    forall job: JobId | job.dataset in locked && Protocol.Protects(pv, job, locked, cfg.cleanLocal)
      ensures n !in Protocol.NamesOf(Protocol.Decoded(pv, job).value.volumes)
    {
      if n in Protocol.NamesOf(Protocol.Decoded(pv, job).value.volumes) {
        ProtectedIsKept(cfg, v, pv, busy, locked, job, n);
        assert false;
      }
    }
    IsDeletable(pv, n, locked, cfg.cleanLocal);
  }

  lemma IsDeletable(pv: Protocol.View, n: ObjectName, locked: set<string>, cleanLocal: bool)
    requires n in pv.objects && n.VolumeObject? && n.job.dataset in locked && Protocol.Known(pv, n.job.dataset)
    requires forall job: JobId :: job.dataset in locked && Protocol.Protects(pv, job, locked, cleanLocal) ==>
      n !in Protocol.NamesOf(Protocol.Decoded(pv, job).value.volumes)
    ensures Protocol.Deletable(pv, n, locked, cleanLocal)
  {
  }

  // What clean deletes without --force is a volume of a dataset that is not busy, listed by no
  // manifest clean keeps.
  lemma VolumeDeleted(cfg: Clean.Config, v: Clean.View, pv: Protocol.View, busy: set<string>, x: string)
    returns (n: ObjectName)
    requires Reads(cfg, v, pv) && !cfg.force && Clean.Deleted(x, Clean.ScopeOf(cfg, v, busy), v.objects)
    ensures n in pv.objects && n.VolumeObject? && NameOf(n, cfg.prefix) == x
    ensures n.job.dataset in Clean.Datasets(v) - busy
    ensures !Clean.Kept(x, Clean.ScopeOf(cfg, v, busy), v.objects)
  {
    hide NameOf, Clean.IsManifestObject, Clean.NestedUnder, Clean.Kept, Clean.Datasets, Clean.NestedRoots;
    hide Clean.OtherSets, Clean.Separators, Clean.Live, ReadsNoOthers, ReadsAtDestination, ReadsLocal;
    hide Clean.ParseVolume;
    n :| n in pv.objects && WellNamed(n) && NameOf(n, cfg.prefix) == x;
    SeparatorsAre(cfg, v, pv);
    if n.ManifestObject? {
      ReadsManifest(n.job, cfg);
      assert false;
    }
    ReadsDataset(n, cfg.prefix);
  }
}
