// A clean can be carried through, beside the sends of other datasets.
module ProtocolCleanProgress {
  import opened Common
  import opened Manifests
  import opened Protocol
  import opened ProtocolPaths
  import opened ProtocolProgress

  function Cleaning(s: State, id: nat, c: CleanRun, objects: Objects, caches: Caches): (t: State) {
    State(objects, caches, s.sends, s.cleans[id := c])
  }

  function Without(objects: Objects, dest: Dest, names: seq<ObjectName>): (r: Objects)
    ensures forall k :: k in r <==> k in objects && !(k.0 == dest && k.1 in names)
    ensures forall k :: k in r ==> r[k] == objects[k]
    decreases |names|
  {
    if names == [] then objects else Without(objects - {(dest, names[0])}, dest, names[1..])
  }

  function WithoutCaches(caches: Caches, dest: Dest, jobs: seq<JobId>): (r: Caches)
    ensures forall k :: k in r <==> k in caches && !(k.0 == dest && k.1 in jobs)
    ensures forall k :: k in r ==> r[k] == caches[k]
    decreases |jobs|
  {
    if jobs == [] then caches else WithoutCaches(caches - {(dest, jobs[0])}, dest, jobs[1..])
  }

  function SetOf<T>(d: seq<T>): (r: set<T>) {
    set x | x in d
  }

  lemma {:induction false} Locks(
    w: World, s: State, id: nat, dest: Dest, locked: set<string>, datasets: seq<string>)
    requires Distinct(datasets) && forall d :: d in datasets ==> !Locked(s, d) && d !in locked
    requires id !in s.cleans
    requires Leads(w, s, Cleaning(s, id, CleanRun(dest, locked, None, {}), s.objects, s.caches))
    ensures Leads(w, s, Cleaning(s, id, CleanRun(dest, locked + SetOf(datasets), None, {}), s.objects, s.caches))
    decreases |datasets|
  {
    hide Leads, Next, Cleaning;
    if datasets == [] {
      assert locked + SetOf(datasets) == locked;
    } else {
      LocksOne(w, s, id, dest, locked, datasets[0]);
      LeadsOn(w, s, Cleaning(s, id, CleanRun(dest, locked, None, {}), s.objects, s.caches), CleanLock(id, datasets[0]),
        Cleaning(s, id, CleanRun(dest, locked + {datasets[0]}, None, {}), s.objects, s.caches));
      DistinctRest(datasets);
      Locks(w, s, id, dest, locked + {datasets[0]}, datasets[1..]);
      assert datasets == [datasets[0]] + datasets[1..];
      assert (locked + {datasets[0]}) + SetOf(datasets[1..]) == locked + SetOf(datasets);
    }
  }

  lemma DistinctRest<T>(d: seq<T>)
    requires Distinct(d) && d != []
    ensures Distinct(d[1..]) && d[0] !in d[1..]
  {
    forall i | 0 <= i < |d[1..]|
      ensures d[1..][i] != d[0]
    {
      assert d[1..][i] == d[i + 1];
    }
  }

  lemma LocksOne(w: World, s: State, id: nat, dest: Dest, locked: set<string>, dataset: string)
    requires !Locked(s, dataset) && dataset !in locked && id !in s.cleans
    ensures Next(w, Cleaning(s, id, CleanRun(dest, locked, None, {}), s.objects, s.caches), CleanLock(id, dataset),
      Cleaning(s, id, CleanRun(dest, locked + {dataset}, None, {}), s.objects, s.caches))
  {
    var a := Cleaning(s, id, CleanRun(dest, locked, None, {}), s.objects, s.caches);
    var b := Cleaning(s, id, CleanRun(dest, locked + {dataset}, None, {}), s.objects, s.caches);
    assert a.cleans[id := b.cleans[id]] == b.cleans;
    assert !Locked(a, dataset);
  }

  lemma {:induction false} Deletes(
    w: World, s: State, id: nat, c: CleanRun, names: seq<ObjectName>, objects: Objects, caches: Caches)
    requires Distinct(names) && c.deletes == Some(SetOf(names))
    requires Leads(w, s, Cleaning(s, id, c, objects, caches))
    ensures Leads(w, s, Cleaning(s, id, c.(deletes := Some({})), Without(objects, c.dest, names), caches))
    decreases |names|
  {
    hide Leads, Next, Cleaning, Without;
    WithoutNext(objects, c.dest, names);
    if names == [] {
      assert SetOf(names) == {} && c.(deletes := Some({})) == c;
    } else {
      var rest := c.(deletes := Some(SetOf(names) - {names[0]}));
      DeletesOne(w, s, id, c, names[0], objects, caches);
      LeadsOn(w, s, Cleaning(s, id, c, objects, caches), CleanDelete(id, names[0]),
        Cleaning(s, id, rest, objects - {(c.dest, names[0])}, caches));
      DistinctRest(names);
      assert names == [names[0]] + names[1..];
      assert SetOf(names) - {names[0]} == SetOf(names[1..]);
      Deletes(w, s, id, rest, names[1..], objects - {(c.dest, names[0])}, caches);
      assert rest.(deletes := Some({})) == c.(deletes := Some({}));
    }
  }

  lemma WithoutNext(objects: Objects, dest: Dest, names: seq<ObjectName>)
    ensures Without(objects, dest, names) ==
      if names == [] then objects else Without(objects - {(dest, names[0])}, dest, names[1..])
  {
  }

  lemma DeletesOne(w: World, s: State, id: nat, c: CleanRun, name: ObjectName, objects: Objects, caches: Caches)
    requires c.deletes.Some? && name in c.deletes.value
    ensures Next(w, Cleaning(s, id, c, objects, caches), CleanDelete(id, name),
      Cleaning(s, id, c.(deletes := Some(c.deletes.value - {name})), objects - {(c.dest, name)}, caches))
  {
    var b := c.(deletes := Some(c.deletes.value - {name}));
    assert s.cleans[id := c][id := b] == s.cleans[id := b];
  }

  lemma {:induction false} Forgets(
    w: World, s: State, id: nat, c: CleanRun, jobs: seq<JobId>, objects: Objects, caches: Caches)
    requires Distinct(jobs) && c.deletes == Some({}) && c.local == SetOf(jobs)
    requires Leads(w, s, Cleaning(s, id, c, objects, caches))
    ensures Leads(w, s, Cleaning(s, id, c.(local := {}), objects, WithoutCaches(caches, c.dest, jobs)))
    decreases |jobs|
  {
    hide Leads, Next, Cleaning, WithoutCaches;
    WithoutCachesNext(caches, c.dest, jobs);
    if jobs == [] {
      assert SetOf(jobs) == {} && c.(local := {}) == c;
    } else {
      var rest := c.(local := SetOf(jobs) - {jobs[0]});
      ForgetsOne(w, s, id, c, jobs[0], objects, caches);
      LeadsOn(w, s, Cleaning(s, id, c, objects, caches), CleanForget(id, jobs[0]),
        Cleaning(s, id, rest, objects, caches - {(c.dest, jobs[0])}));
      DistinctRest(jobs);
      assert jobs == [jobs[0]] + jobs[1..];
      assert SetOf(jobs) - {jobs[0]} == SetOf(jobs[1..]);
      Forgets(w, s, id, rest, jobs[1..], objects, caches - {(c.dest, jobs[0])});
      assert rest.(local := {}) == c.(local := {});
    }
  }

  lemma WithoutCachesNext(caches: Caches, dest: Dest, jobs: seq<JobId>)
    ensures WithoutCaches(caches, dest, jobs) ==
      if jobs == [] then caches else WithoutCaches(caches - {(dest, jobs[0])}, dest, jobs[1..])
  {
  }

  lemma ForgetsOne(w: World, s: State, id: nat, c: CleanRun, job: JobId, objects: Objects, caches: Caches)
    requires c.deletes == Some({}) && job in c.local
    ensures Next(w, Cleaning(s, id, c, objects, caches), CleanForget(id, job),
      Cleaning(s, id, c.(local := c.local - {job}), objects, caches - {(c.dest, job)}))
  {
    var b := c.(local := c.local - {job});
    assert s.cleans[id := c][id := b] == s.cleans[id := b];
  }

  // Clean can lock any datasets that are free, and then delete all that is deletable, and, when asked
  // to, all that is only in the cache.
  lemma CleanCanFinish(
    w: World, s: State, id: nat, dest: Dest, datasets: seq<string>, view: View, cleanLocal: bool,
    names: seq<ObjectName>, jobs: seq<JobId>)
    requires id !in s.cleans && Distinct(datasets) && forall d :: d in datasets ==> !Locked(s, d)
    requires ReadUnderLocks(s, CleanRun(dest, SetOf(datasets), None, {}), view)
    requires forall j :: ManifestObject(j) in view.objects ==> Decoded(view, j).Some?
    requires Distinct(names) && forall n :: n in names ==> Deletable(view, n, SetOf(datasets), cleanLocal)
    requires Distinct(jobs) && forall j :: j in jobs <==>
      cleanLocal && j in view.caches && LocalOnly(view, j) && j.dataset in datasets
    ensures Leads(w, s, Done(s, Without(s.objects, dest, names), WithoutCaches(s.caches, dest, jobs)))
  {
    hide Leads, Next, Cleaning, Without, WithoutCaches, Done, ReadUnderLocks, Deletable, Decoded, Locked, SetOf;
    var locked := SetOf(datasets);
    var objects, caches := Without(s.objects, dest, names), WithoutCaches(s.caches, dest, jobs);
    Begins(w, s, id, dest);
    assert {} + SetOf(datasets) == locked;
    Locks(w, s, id, dest, {}, datasets);
    var c := CleanRun(dest, locked, Some(SetOf(names)), SetOf(jobs));
    Decides(w, s, id, dest, datasets, view, cleanLocal, names, jobs);
    LeadsOn(w, s, Cleaning(s, id, CleanRun(dest, locked, None, {}), s.objects, s.caches),
      CleanDecide(id, view, cleanLocal, SetOf(names)), Cleaning(s, id, c, s.objects, s.caches));
    Deletes(w, s, id, c, names, s.objects, s.caches);
    Forgets(w, s, id, c.(deletes := Some({})), jobs, objects, s.caches);
    Finishes(w, s, id, c.(deletes := Some({}), local := {}), objects, caches);
  }

  lemma Begins(w: World, s: State, id: nat, dest: Dest)
    requires id !in s.cleans
    ensures Leads(w, s, Cleaning(s, id, CleanRun(dest, {}, None, {}), s.objects, s.caches))
  {
    hide Leads;
    LeadsNowhere(w, s);
    assert Next(w, s, CleanStart(id, dest), Cleaning(s, id, CleanRun(dest, {}, None, {}), s.objects, s.caches));
    LeadsOn(w, s, s, CleanStart(id, dest), Cleaning(s, id, CleanRun(dest, {}, None, {}), s.objects, s.caches));
  }

  lemma Finishes(w: World, s: State, id: nat, c: CleanRun, objects: Objects, caches: Caches)
    requires id !in s.cleans && Leads(w, s, Cleaning(s, id, c, objects, caches))
    ensures Leads(w, s, Done(s, objects, caches))
  {
    hide Leads;
    assert s.cleans[id := c] - {id} == s.cleans;
    assert Next(w, Cleaning(s, id, c, objects, caches), CleanEnd(id), Done(s, objects, caches));
    LeadsOn(w, s, Cleaning(s, id, c, objects, caches), CleanEnd(id), Done(s, objects, caches));
  }

  lemma Decides(
    w: World, s: State, id: nat, dest: Dest, datasets: seq<string>, view: View, cleanLocal: bool,
    names: seq<ObjectName>, jobs: seq<JobId>)
    requires ReadUnderLocks(s, CleanRun(dest, SetOf(datasets), None, {}), view)
    requires forall j :: ManifestObject(j) in view.objects ==> Decoded(view, j).Some?
    requires forall n :: n in names ==> Deletable(view, n, SetOf(datasets), cleanLocal)
    requires forall j :: j in jobs <==> cleanLocal && j in view.caches && LocalOnly(view, j) && j.dataset in datasets
    ensures Next(w, Cleaning(s, id, CleanRun(dest, SetOf(datasets), None, {}), s.objects, s.caches),
      CleanDecide(id, view, cleanLocal, SetOf(names)),
      Cleaning(s, id, CleanRun(dest, SetOf(datasets), Some(SetOf(names)), SetOf(jobs)), s.objects, s.caches))
  {
    hide Deletable, Decoded, LocalOnly;
    var c := CleanRun(dest, SetOf(datasets), None, {});
    var d := CleanRun(dest, SetOf(datasets), Some(SetOf(names)), SetOf(jobs));
    assert s.cleans[id := c][id := d] == s.cleans[id := d];
    assert ReadUnderLocks(Cleaning(s, id, c, s.objects, s.caches), c, view);
    assert SetOf(jobs) ==
      if cleanLocal then set j | j in view.caches && LocalOnly(view, j) && j.dataset in SetOf(datasets) else {};
  }

  // What a clean decides to delete is a volume, of a dataset that was locked before the read and that
  // some manifest there is for, and of no manifest that keeps its volumes.
  lemma DecidesOnOrphans(
    w: World, s: State, id: nat, view: View, cleanLocal: bool, chosen: set<ObjectName>, t: State, n: ObjectName)
    requires Next(w, s, CleanDecide(id, view, cleanLocal, chosen), t) && n in chosen
    ensures id in s.cleans && n in view.objects && n.VolumeObject? && n.job.dataset in s.cleans[id].locked
    ensures exists j: JobId :: (j in view.caches || ManifestObject(j) in view.objects) && j.dataset == n.job.dataset
    ensures forall j: JobId, m: Manifest, v: VolumeInfo ::
      (j.dataset in s.cleans[id].locked && ManifestObject(j) in view.objects && Decoded(view, j) == Some(m)
        && v in m.volumes) ==> v.name != n
  {
    forall j: JobId, m: Manifest, v: VolumeInfo |
      j.dataset in s.cleans[id].locked && ManifestObject(j) in view.objects && Decoded(view, j) == Some(m)
      && v in m.volumes
      ensures v.name != n
    {
      assert Protects(view, j, s.cleans[id].locked, cleanLocal);
      assert v.name in NamesOf(m.volumes);
    }
  }
}
