// What clean leaves to other jobs and other destinations, and what it does delete, in terms of the
// names that jobs write.
module CleanOthers {
  import opened Common
  import opened Text
  import opened Names
  import opened Clean
  import opened CleanTheorems

  // The name of a set, as its volumes and manifests hold it.
  function SetText(set_: SetName, sep: string): (r: string) {
    Join(NameParts(set_), sep)
  }

  // The separator reads the set, and no other separator in use does.
  predicate ReadsAlone(set_: SetName, sep: string, c: char, seps: seq<string>) {
    && ValidSet(set_) && SeparatorFits(set_, sep, c) && sep in seps
    && forall x :: x in seps && x != sep && x != "" ==> !Contains(SetText(set_, sep), x)
  }

  // ---- Reading a volume ----

  lemma SplitsOff(head: string, tail: seq<string>)
    requires tail != [] && AllDotless(tail) && forall k :: 0 <= k < |tail| - 1 ==> tail[k] != "zstream"
    ensures BackupSetName(head + Marker + Join(tail, ".")) == head
  {
    hide AllDotless, Join, LastIndex;
    LastMarker(head, tail);
    assert (head + Marker + Join(tail, "."))[..|head|] == head;
  }

  lemma VolumeHead(set_: SetName, sep: string, compressor: string, pgp: bool, number: nat)
    requires ValidCompressor(compressor)
    ensures BackupSetName(VolumeName(set_, sep, compressor, pgp, number)) == SetText(set_, sep)
    ensures LastIndex(VolumeName(set_, sep, compressor, pgp, number), Marker) == Some(|SetText(set_, sep)|)
  {
    hide Join, VolumeName, LastIndex, BackupSetName, Digits;
    var tail := Tail(Extensions(compressor, pgp), number);
    VolumeNameForm(set_, sep, compressor, pgp, number);
    ExtensionsFit(compressor, pgp, number);
    SplitsOff(SetText(set_, sep), tail);
    LastMarker(SetText(set_, sep), tail);
  }

  // A separator that does not occur in the set's name reads nothing.
  lemma NotRead(set_: SetName, sep: string, compressor: string, pgp: bool, number: nat, x: string)
    requires ValidCompressor(compressor) && (x == "" || !Contains(SetText(set_, sep), x))
    ensures ParseVolumeName(VolumeName(set_, sep, compressor, pgp, number), x).None?
  {
    hide VolumeName, LastIndex, ParseExtensions, Index, SetText;
    VolumeHead(set_, sep, compressor, pgp, number);
    VolumeStarts(set_, sep, compressor, pgp, number);
  }

  lemma VolumeStarts(set_: SetName, sep: string, compressor: string, pgp: bool, number: nat)
    ensures var name, text := VolumeName(set_, sep, compressor, pgp, number), SetText(set_, sep);
      |text| <= |name| && name[..|text|] == text
  {
    hide Join, VolumeName, Digits;
    VolumeNameForm(set_, sep, compressor, pgp, number);
  }

  lemma {:induction false} ReadAs(
    set_: SetName, sep: string, c: char, seps: seq<string>, compressor: string, pgp: bool, number: nat)
    requires ReadsAlone(set_, sep, c, seps) && ValidCompressor(compressor) && 1 <= number <= MaxNumber
    ensures ParseVolume(VolumeName(set_, sep, compressor, pgp, number), seps) == Some((set_.volume, sep))
    decreases |seps|
  {
    hide VolumeName, ParseVolumeName, Contains, SetText, SeparatorFits;
    if seps[0] == sep {
      RoundTrip(set_, sep, c, compressor, pgp, number);
    } else {
      NotRead(set_, sep, compressor, pgp, number, seps[0]);
      ReadAs(set_, sep, c, seps[1..], compressor, pgp, number);
    }
  }

  // ---- Reading a manifest ----

  // The manifest's extensions are the last ".manifest" of its name.
  lemma LastManifest(head: string, pgp: bool)
    ensures LastIndex(head + ManifestExtensions(pgp), ".manifest") == Some(|head|)
  {
    hide LastIndex, OccursAt;
    var tail := ManifestExtensions(pgp);
    var name := head + tail;
    Occurs(head, pgp);
    forall j: nat | j > |head|
      ensures !OccursAt(name, ".manifest", j)
    {
      if OccursAt(name, ".manifest", j) {
        OccurrenceHas(name, ".manifest", j, 0);
        OccurrenceHas(name, ".manifest", j, 8);
        assert false;
      }
    }
    LastIndexIs(name, ".manifest", |head|);
  }

  lemma ManifestHead(set_: SetName, prefix: string, sep: string, pgp: bool)
    ensures var name, head := ManifestName(set_, prefix, sep, pgp), prefix + sep + SetText(set_, sep);
      LastIndex(name, ".manifest") == Some(|head|) && |head| <= |name| && name[..|head|] == head
  {
    hide Join, ManifestName, LastIndex;
    ManifestNameForm(set_, prefix, sep, pgp);
    LastManifest(prefix + sep + SetText(set_, sep), pgp);
  }

  lemma Occurs(head: string, pgp: bool)
    ensures OccursAt(head + ManifestExtensions(pgp), ".manifest", |head|)
  {
    var tail := ManifestExtensions(pgp);
    assert tail[..9] == ".manifest";
    assert (head + tail)[|head|..|head| + 9] == tail[..9];
  }

  // No separator reads a manifest's name as a volume's: that ends in a digit.
  lemma {:induction false} ManifestIsNotRead(set_: SetName, prefix: string, sep: string, pgp: bool, seps: seq<string>)
    ensures ParseVolume(ManifestName(set_, prefix, sep, pgp), seps).None?
    decreases |seps|
  {
    hide ManifestName, ParseVolumeName;
    if seps != [] {
      if ParseVolumeName(ManifestName(set_, prefix, sep, pgp), seps[0]).Some? {
        EndsInDigit(ManifestName(set_, prefix, sep, pgp), seps[0]);
        EndsInLetter(set_, prefix, sep, pgp);
        assert false;
      }
      ManifestIsNotRead(set_, prefix, sep, pgp, seps[1..]);
    }
  }

  lemma EndsInLetter(set_: SetName, prefix: string, sep: string, pgp: bool)
    ensures var name := ManifestName(set_, prefix, sep, pgp); name != "" && name[|name| - 1] > '9'
  {
    hide Join, ManifestName;
    ManifestNameForm(set_, prefix, sep, pgp);
    var tail := ManifestExtensions(pgp);
    assert tail[|tail| - 1] > '9';
  }

  lemma EndsInDigit(name: string, sep: string)
    requires ParseVolumeName(name, sep).Some?
    ensures name != "" && name[|name| - 1] <= '9'
  {
    hide ParseVolumeName, Join, Digits, ValidExtensions, NameParts;
    ParseIsExact(name, sep);
    var (set_, number) := ParseVolumeName(name, sep).value;
    var extensions: seq<string> :|
      ValidExtensions(extensions) && name == Join(NameParts(set_), sep) + Marker + Join(Tail(extensions, number), ".");
    TailEnds(extensions, number);
  }

  lemma TailEnds(extensions: seq<string>, number: nat)
    ensures var t := Join(Tail(extensions, number), "."); t != "" && '0' <= t[|t| - 1] <= '9'
  {
    hide Digits;
    JoinLast(extensions, "vol", Digits(number), ".");
    var t, d := Join(Tail(extensions, number), "."), Digits(number);
    assert t[|t| - 1] == d[|d| - 1];
  }

  // The first separator is the prefix's first, else the one after it.
  lemma FirstIn(prefix: string, sep: string, rest: string, c: char)
    requires c in sep && (|sep| == 1 || Free(prefix, c))
    ensures Index(prefix + sep + rest, sep) ==
      if Index(prefix, sep).Some? then Index(prefix, sep) else Some(|prefix|)
    ensures Index(prefix, sep).Some? ==> Index(prefix, sep).value + |sep| <= |prefix|
  {
    hide Index;
    if Free(prefix, c) {
      FreeHasNone(prefix, sep, c);
      FirstSeparator(prefix, sep, rest, c);
    } else {
      var all := prefix + sep + rest;
      Follows(prefix, sep, rest);
      forall j: nat | j < |prefix|
        ensures OccursAt(all, sep, j) <==> OccursAt(prefix, sep, j)
      {
        assert all[j..j + 1] == prefix[j..j + 1];
      }
    }
  }

  // Where the prefix ends does not matter: the parts of the set are the last ones.
  lemma {:induction false} SplitAfter(prefix: string, sep: string, rest: string, c: char)
    requires c in sep && (|sep| == 1 || Free(prefix, c))
    ensures Split(prefix + sep + rest, sep) == Split(prefix, sep) + Split(rest, sep)
    decreases |prefix|
  {
    hide OccursAt, Index, Split;
    var all := prefix + sep + rest;
    FirstIn(prefix, sep, rest, c);
    SplitsAt(prefix, sep);
    SplitsAt(all, sep);
    var i := Index(prefix, sep);
    if i.Some? {
      var tail := prefix[i.value + |sep|..];
      assert all[..i.value] == prefix[..i.value] && all[i.value + |sep|..] == tail + sep + rest;
      SplitAfter(tail, sep, rest, c);
    } else {
      assert all[..|prefix|] == prefix && all[|prefix| + |sep|..] == rest;
    }
  }

  lemma SplitsAt(s: string, sep: string)
    requires sep != ""
    ensures Index(s, sep).None? ==> Split(s, sep) == [s]
    ensures Index(s, sep).Some? ==> Index(s, sep).value + |sep| <= |s|
    ensures Index(s, sep).Some? ==>
      Split(s, sep) == [s[..Index(s, sep).value]] + Split(s[Index(s, sep).value + |sep|..], sep)
  {
    hide Index;
  }

  // The key that a set's manifest under any prefix is indexed by.
  lemma IndexesSet(set_: SetName, prefix: string, sep: string, c: char, pgp: bool, cfg: Config, seps: seq<string>)
    requires ReadsAlone(set_, sep, c, seps) && (|sep| == 1 || Free(prefix, c))
    requires !IsManifestObject(ManifestName(set_, prefix, sep, pgp), cfg)
    ensures sep + SetText(set_, sep) in OtherSetsOf(ManifestName(set_, prefix, sep, pgp), cfg, seps)
  {
    hide Join, Split, ManifestName, LastIndex, IsManifestObject, ParseVolume, Contains;
    ManifestHead(set_, prefix, sep, pgp);
    ManifestIsNotRead(set_, prefix, sep, pgp, seps);
    var head, parts := prefix + sep + SetText(set_, sep), NameParts(set_);
    SplitJoin(parts, sep, c);
    SplitAfter(prefix, sep, SetText(set_, sep), c);
    var all := Split(head, sep);
    assert all == Split(prefix, sep) + parts;
    assert all[|all| - |parts|..] == parts;
    assert LastParts(head, sep, |parts|) == sep + SetText(set_, sep);
    if set_.source != "" {
      assert all[|all| - 2] == parts[2] == "to";
    }
  }

  // ---- Other jobs' sets ----

  // A volume below a nested destination, as its directory and set.
  predicate BelowRoot(x: string, root: string, text: string, s: Scope) {
    && root in s.roots && root <= x && ParseVolume(x[|root|..], s.seps).Some?
    && text == root + ParseVolume(x[|root|..], s.seps).value.1 + BackupSetName(x[|root|..])
  }

  // No nested destination that the manifest is below has a volume.
  ghost predicate NotNestedOwn(name: string, s: Scope, objects: seq<string>) {
    forall root, x, other, text ::
      root in s.roots && root <= name && x in objects && BelowRoot(x, other, text, s) ==> !(root <= text)
  }

  lemma NestedKeyIs(x: string, s: Scope)
    requires NestedSetOf(x, s.roots, s.seps).Some?
    ensures NestedUnder(x, s.roots).Some?
    ensures BelowRoot(x, NestedUnder(x, s.roots).value, NestedSetOf(x, s.roots, s.seps).value, s)
  {
    hide NestedUnder, ParseVolume, BackupSetName;
  }

  lemma IsNotNestedOwn(name: string, cfg: Config, s: Scope, objects: seq<string>)
    requires NotNestedOwn(name, s, objects)
    ensures !IsNestedOwn(name, cfg, NestedSets(objects, s.roots, s.seps), s.roots, s.seps)
  {
    hide OtherSetsOf, ParseVolume, NestedUnder, BackupSetName, NestedSetOf;
    if IsNestedOwn(name, cfg, NestedSets(objects, s.roots, s.seps), s.roots, s.seps) {
      var root := NestedUnder(name, s.roots).value;
      var k :| k in OtherSetsOf(name, cfg, s.seps) && root + k in NestedSets(objects, s.roots, s.seps);
      var x :| x in objects && NestedSetOf(x, s.roots, s.seps) == Some(root + k);
      NestedKeyIs(x, s);
      assert false;
    }
  }

  lemma StaysIndexed(name: string, key: string, cfg: Config, v: View, busy: set<string>)
    requires name in v.objects && NotNestedOwn(name, ScopeOf(cfg, v, busy), v.objects)
    requires key in OtherSetsOf(name, cfg, Separators(cfg, v))
    ensures key in ScopeOf(cfg, v, busy).other
  {
    hide OtherSetsOf, Separators, NestedRoots, Live, NotNestedOwn, IsNestedOwn, NestedSets, Datasets;
    IsNotNestedOwn(name, cfg, ScopeOf(cfg, v, busy), v.objects);
  }

  // A volume that no manifest here lists, of a set that a manifest under another prefix is for, is
  // never deleted.
  lemma OtherPrefixSpared(
    set_: SetName, prefix: string, sep: string, c: char, pgp: (bool, bool), compressor: string, number: nat,
    cfg: Config, v: View, busy: set<string>)
    requires ValidCompressor(compressor) && 1 <= number <= MaxNumber
    requires ReadsAlone(set_, sep, c, Separators(cfg, v)) && (|sep| == 1 || Free(prefix, c))
    requires var m := ManifestName(set_, prefix, sep, pgp.0);
      m in v.objects && !IsManifestObject(m, cfg) && NotNestedOwn(m, ScopeOf(cfg, v, busy), v.objects)
    requires !NamedBy(VolumeName(set_, sep, compressor, pgp.1, number), Live(cfg, v, busy))
    ensures var x, s := VolumeName(set_, sep, compressor, pgp.1, number), ScopeOf(cfg, v, busy);
      && !Candidate(x, s)
      && (!cfg.force || (ReadAsManifests(s) && !IsManifestObject(x, cfg)) ==> !Deleted(x, s, v.objects))
  {
    hide ReadsAlone, ManifestName, VolumeName, IsManifestObject, NotNestedOwn, SetText, ParseVolume, Separators, Live;
    hide OtherSets, NestedRoots, NestedUnder, Kept, Datasets, BackupSetName;
    var m, x := ManifestName(set_, prefix, sep, pgp.0), VolumeName(set_, sep, compressor, pgp.1, number);
    IndexesSet(set_, prefix, sep, c, pgp.0, cfg, Separators(cfg, v));
    StaysIndexed(m, sep + SetText(set_, sep), cfg, v, busy);
    ReadAs(set_, sep, c, Separators(cfg, v), compressor, pgp.1, number);
    VolumeHead(set_, sep, compressor, pgp.1, number);
  }

  // ---- Nested destinations ----

  lemma OwnStarts(set_: SetName, cfg: Config, pgp: bool)
    ensures var sep := if cfg.separator == "" then DefaultSeparator else cfg.separator;
      var name := ManifestName(set_, cfg.prefix, sep, pgp);
      OwnPrefix(cfg) <= name && exists rest: string :: name == OwnPrefix(cfg) + rest + ManifestExtensions(pgp)
  {
    hide Join, ManifestName;
    var sep := if cfg.separator == "" then DefaultSeparator else cfg.separator;
    ManifestNameForm(set_, cfg.prefix, sep, pgp);
    assert OwnPrefix(cfg) + Join(NameParts(set_), sep) + ManifestExtensions(pgp)
      == cfg.prefix + sep + Join(NameParts(set_), sep) + ManifestExtensions(pgp);
  }

  // The directory of a manifest like this job's is below a nested root.
  lemma DirectoryIsNested(dir: string, own: string, rest: string, pgp: bool)
    requires var obj := dir + "/" + (own + rest + ManifestExtensions(pgp)); !(own <= obj)
    ensures var root := NestedRoot(dir + "/" + (own + rest + ManifestExtensions(pgp)), own);
      root.Some? && root.value <= dir + "/"
  {
    hide Index, OccursAt;
    var nested, tail := "/" + own, ManifestExtensions(pgp);
    var obj := dir + "/" + (own + rest + tail);
    assert obj == dir + nested + (rest + tail);
    Follows(dir, nested, rest + tail);
    var i := Index(obj, nested).value;
    assert i <= |dir|;
    var head := dir + nested + rest;
    assert obj == head + tail && obj[i..] == head[i..] + tail;
    Occurs(head[i..], pgp);
    assert obj[..i + 1] == (dir + "/")[..i + 1];
  }

  // A volume that no manifest here lists, below the directory of a nested destination's manifest, is
  // never deleted.
  lemma NestedSpared(
    set_: SetName, dir: string, pgp: bool, x: string, cfg: Config, v: View, busy: set<string>)
    requires var sep := if cfg.separator == "" then DefaultSeparator else cfg.separator;
      var m := dir + "/" + ManifestName(set_, cfg.prefix, sep, pgp);
      m in v.objects && !(OwnPrefix(cfg) <= m)
    requires dir + "/" <= x && !NamedBy(x, Live(cfg, v, busy))
    ensures var s := ScopeOf(cfg, v, busy);
      && !Candidate(x, s)
      && (!cfg.force || (ReadAsManifests(s) && !IsManifestObject(x, cfg)) ==> !Deleted(x, s, v.objects))
  {
    hide ManifestName, IsManifestObject, ParseVolume, Separators, Live, OtherSets, NestedRoots, NestedRoot, NestedUnder;
    hide Kept, Datasets, BackupSetName, OwnPrefix, ManifestExtensions;
    var sep := if cfg.separator == "" then DefaultSeparator else cfg.separator;
    var own, name := OwnPrefix(cfg), ManifestName(set_, cfg.prefix, sep, pgp);
    OwnStarts(set_, cfg, pgp);
    var rest: string :| name == own + rest + ManifestExtensions(pgp);
    DirectoryIsNested(dir, own, rest, pgp);
    var root := NestedRoot(dir + "/" + name, own).value;
    assert root in NestedRoots(v.objects, own) && root <= x;
  }

  // ---- What clean is for ----

  // Every manifest at the destination is this job's: what reads as one is one, or is a volume.
  predicate NoOtherManifests(cfg: Config, v: View) {
    forall x :: x in v.objects && Contains(x, ".manifest") ==>
      OwnPrefix(cfg) <= x || (!Contains(x, "/" + OwnPrefix(cfg)) && ParseVolume(x, Separators(cfg, v)).Some?)
  }

  lemma OwnIsManifest(x: string, cfg: Config)
    requires OwnPrefix(cfg) <= x && cfg.separator != ""
    ensures IsManifestObject(x, cfg)
  {
    hide LeadingOther, LastIndex, Contains;
    assert x[|cfg.prefix|..][..|cfg.separator|] == OwnPrefix(cfg)[|cfg.prefix|..];
  }

  lemma {:induction false} NoRoots(objects: seq<string>, own: string)
    requires forall x :: x in objects ==> NestedRoot(x, own).None?
    ensures NestedRoots(objects, own) == []
  {
    hide NestedRoot;
    if objects != [] {
      assert objects[0] in objects;
      NoRoots(objects[1..], own);
    }
  }

  lemma InTail(x: string, sub: string, i: nat)
    requires i <= |x| && Contains(x[i..], sub)
    ensures Contains(x, sub)
  {
    hide Index;
    var j := Index(x[i..], sub).value;
    assert x[i + j..i + j + |sub|] == x[i..][j..j + |sub|];
    assert OccursAt(x, sub, i + j);
  }

  lemma AloneHere(cfg: Config, v: View, busy: set<string>)
    requires cfg.separator != "" && NoOtherManifests(cfg, v)
    ensures ScopeOf(cfg, v, busy).roots == [] && ScopeOf(cfg, v, busy).other == {}
  {
    hide IsManifestObject, ParseVolume, Separators, Live, Index, LastIndex;
    var own, seps := OwnPrefix(cfg), Separators(cfg, v);
    forall x | x in v.objects
      ensures NestedRoot(x, own).None? && OtherSetsOf(x, cfg, seps) == {}
    {
      if own <= x {
        OwnIsManifest(x, cfg);
      } else if NestedRoot(x, own).Some? {
        InTail(x, ".manifest", Index(x, "/" + own).value);
        assert false;
      }
    }
    NoRoots(v.objects, own);
  }

  // The datasets that a manifest here, or one cached for this prefix, is for.
  lemma KnownIff(v: View, dataset: string)
    ensures dataset in Datasets(v) <==>
      exists m: ReadManifest ::
        m.dataset == dataset && (m in v.manifests || (m in v.localOnly && !m.foreign))
  {
  }

  // A volume of a dataset that no manifest here is for is another destination's.
  lemma UnknownSpared(x: string, dataset: string, sep: string, cfg: Config, v: View, busy: set<string>)
    requires ParseVolume(x, Separators(cfg, v)) == Some((dataset, sep))
    requires forall m :: m in v.manifests || (m in v.localOnly && !m.foreign) ==> m.dataset != dataset
    ensures !Candidate(x, ScopeOf(cfg, v, busy))
  {
    hide ParseVolume, Separators, OtherSets, NestedRoots, IsManifestObject, BackupSetName, Datasets, NestedUnder, Live;
    KnownIff(v, dataset);
  }

  // A set at the destination that lacks a volume, of a dataset that is not busy, under --force.
  predicate IsBroken(m: ReadManifest, cfg: Config, v: View, busy: set<string>) {
    cfg.force && m.object_ != "" && m.dataset !in busy && exists vol :: vol in m.volumes && vol !in v.objects
  }

  // The manifest of a broken set goes.
  lemma BrokenSetGoes(m: ReadManifest, cfg: Config, v: View, busy: set<string>)
    requires m in v.manifests && IsBroken(m, cfg, v, busy)
    ensures Deleted(m.object_, ScopeOf(cfg, v, busy), v.objects)
  {
    hide Separators, NestedRoots, OtherSets, Datasets;
    var s := ScopeOf(cfg, v, busy);
    ForcedIff(m, s, v.objects);
  }

  // What only the cache has goes with --cleanLocal, but for other prefixes' and busy datasets'.
  lemma LocalGoesIff(m: ReadManifest, cfg: Config, v: View, busy: set<string>)
    requires m in v.localOnly && m !in v.manifests
    ensures m in Live(cfg, v, busy) <==> !cfg.cleanLocal || m.foreign || m.dataset in busy
  {
  }

  // With this job's manifests alone, a volume of a known dataset that is not busy is deleted when no
  // manifest lists it but those of broken sets.
  lemma OrphanIsDeleted(
    set_: SetName, sep: string, c: char, pgp: bool, compressor: string, number: nat, cfg: Config, v: View,
    busy: set<string>)
    requires ValidCompressor(compressor) && 1 <= number <= MaxNumber
    requires cfg.separator != "" && NoOtherManifests(cfg, v) && ReadsAlone(set_, sep, c, Separators(cfg, v))
    requires set_.volume !in busy
    requires exists m: ReadManifest ::
      m.dataset == set_.volume && (m in v.manifests || (m in v.localOnly && !m.foreign))
    requires var x := VolumeName(set_, sep, compressor, pgp, number);
      && x in v.objects && !(cfg.prefix <= x)
      && forall m :: (m in v.manifests || m in v.localOnly) && x in m.volumes ==> IsBroken(m, cfg, v, busy)
    ensures Deleted(VolumeName(set_, sep, compressor, pgp, number), ScopeOf(cfg, v, busy), v.objects)
  {
    hide ReadsAlone, VolumeName, ParseVolume, Separators, OtherSets, NestedRoots, BackupSetName, Datasets;
    hide LeadingOther, LastIndex, Index, NoOtherManifests;
    var x, s := VolumeName(set_, sep, compressor, pgp, number), ScopeOf(cfg, v, busy);
    KnownIff(v, set_.volume);
    AloneHere(cfg, v, busy);
    ReadAs(set_, sep, c, Separators(cfg, v), compressor, pgp, number);
    PrefixOfPrefix(cfg.prefix, OwnPrefix(cfg), x);
    assert Candidate(x, s);
    forall m | m in s.live && x in m.volumes
      ensures Forced(m, s, v.objects)
    {
      assert IsBroken(m, cfg, v, busy);
      ForcedIff(m, s, v.objects);
    }
  }

  lemma PrefixOfPrefix(a: string, b: string, x: string)
    requires a <= b
    ensures b <= x ==> a <= x
  {
  }

  // ---- This job's manifests ----

  predicate AllOther(sep: string) {
    forall i :: 0 <= i < |sep| ==> !InDatasetName(sep[i])
  }

  lemma {:induction false} LeadingIs(sep: string, rest: string)
    requires AllOther(sep) && rest != "" && InDatasetName(rest[0])
    ensures LeadingOther(sep + rest) == |sep|
  {
    if sep == "" {
      assert sep + rest == rest;
    } else {
      assert (sep + rest)[1..] == sep[1..] + rest;
      LeadingIs(sep[1..], rest);
    }
  }

  // This job's manifests are known whatever separator of other symbols they were written with.
  lemma OwnWithAnySeparator(set_: SetName, sep: string, pgp: bool, cfg: Config)
    requires sep != "" && AllOther(sep) && ValidSet(set_) && InDatasetName(set_.volume[0])
    ensures IsManifestObject(ManifestName(set_, cfg.prefix, sep, pgp), cfg)
  {
    hide Join, ManifestName, LastIndex, Index, LeadingOther;
    ManifestNameForm(set_, cfg.prefix, sep, pgp);
    var text, tail := SetText(set_, sep), ManifestExtensions(pgp);
    var name := ManifestName(set_, cfg.prefix, sep, pgp);
    var more := TextStarts(set_, sep);
    assert name[|cfg.prefix|..] == sep + (text + tail);
    LeadingIs(sep, text + tail);
    assert (sep + (text + tail))[|sep|..] == text + tail && (sep + (text + tail))[..|sep|] == sep;
    LastManifest(text, pgp);
    assert (text + tail)[..|text|] == text;
    Follows(set_.volume, sep, more);
    assert OccursAt(text, sep, |set_.volume|);
  }

  lemma TextStarts(set_: SetName, sep: string) returns (more: string)
    requires ValidSet(set_)
    ensures SetText(set_, sep) == set_.volume + sep + more && SetText(set_, sep)[0] == set_.volume[0]
  {
    more := Join(NameParts(set_)[1..], sep);
  }

  // A longer prefix is another job's.
  lemma LongerPrefixIsOther(set_: SetName, more: string, sep: string, pgp: bool, cfg: Config)
    requires more != "" && InDatasetName(more[0]) && cfg.separator != "" && cfg.separator[0] != more[0]
    ensures !IsManifestObject(ManifestName(set_, cfg.prefix + more, sep, pgp), cfg)
  {
    hide Join, ManifestName, LastIndex, Index, ManifestExtensions, IsManifestObject;
    ManifestNameForm(set_, cfg.prefix + more, sep, pgp);
    var rest := sep + SetText(set_, sep) + ManifestExtensions(pgp);
    assert ManifestName(set_, cfg.prefix + more, sep, pgp) == cfg.prefix + (more + rest);
    NotManifest(cfg, more + rest);
  }

  lemma NotManifest(cfg: Config, rest: string)
    requires rest != "" && InDatasetName(rest[0]) && cfg.separator != "" && cfg.separator[0] != rest[0]
    ensures !IsManifestObject(cfg.prefix + rest, cfg)
  {
    hide LastIndex, Index;
    assert (cfg.prefix + rest)[|cfg.prefix|..] == rest;
  }
}
