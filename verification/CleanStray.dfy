// A listing that clean is not idempotent on: a busy dataset's manifest lists a volume of another
// dataset whose name reads as the manifest of a nested destination.
module CleanStray {
  import opened Common
  import opened Text
  import opened Names
  import opened Clean
  import opened CleanTheorems
  import CleanOthers
  import CleanRefines

  const Cfg := Config("manifests", "|", false, false)
  const First := ".zstream.vol1"

  // tank/manifests|a.manifest.zstream.vol1 and tank/data|b.zstream.vol1
  const Stray := FullName("tank/manifests", "a.manifest")
  const Orphan := FullName("tank/data", "b")

  const Busy := ReadManifest(OwnName("busy|a.manifest.gz"), "", "busy", "|", [Stray], false)
  const Data := ReadManifest(OwnName("tank/data|c.manifest.gz"), "", "tank/data", "|", [], false)
  const Named := ReadManifest(OwnName("tank/manifests|c.manifest.gz"), "", "tank/manifests", "|", [], false)

  const Listing := View(
    [Busy, Data, Named], [], [Busy.object_, Data.object_, Named.object_, Stray, Orphan])

  function OwnName(rest: string): (name: string) {
    Cfg.prefix + ("|" + rest)
  }

  // The first volume of a full, neither compressed nor encrypted.
  function FullName(dataset: string, base: string): (name: string) {
    dataset + "|" + base + First
  }

  // ---- Reading the names ----

  lemma ReadsAs(dataset: string, base: string)
    requires Free(dataset, '|') && Free(base, '|') && dataset != "" && base != "" && dataset[0] != '/'
    ensures ParseVolume(FullName(dataset, base), ["|"]) == Some((dataset, "|"))
  {
    hide ParseVolumeName, VolumeName, FullName, Join;
    var set_ := SetName(dataset, "", base);
    RoundTrip(set_, "|", '|', "", false, 1);
    IsVolumeName(set_);
  }

  lemma IsVolumeName(set_: SetName)
    requires set_.source == ""
    ensures VolumeName(set_, "|", "", false, 1) == FullName(set_.volume, set_.base)
  {
    hide Digits;
    assert NameParts(set_)[1..] == [set_.base];
    assert Join(NameParts(set_), "|") == set_.volume + "|" + set_.base;
    assert ["zstream"] + Extensions("", false) + ["vol"] == ["zstream", "vol"];
    assert ["zstream", "vol"][1..] == ["vol"] && Join(["vol"], ".") == "vol";
    assert Join(["zstream", "vol"], ".") == "zstream" + "." + "vol" == "zstream.vol";
    OneIs();
    var head := set_.volume + "|" + set_.base;
    assert head + "." + "zstream.vol" + "1" == head + First;
  }

  lemma OneIs()
    ensures Digits(1) == "1"
  {
    assert DigitChar(1) == '1';
  }

  // ---- Nested destinations ----

  // An object below a directory that reads as a manifest makes the directory a nested root.
  lemma MakesRoot(dir: string, own: string, rest: string)
    requires Free(dir, '/') && !(own <= dir + ("/" + own) + rest) && Contains("/" + own + rest, ".manifest")
    ensures NestedRoot(dir + ("/" + own) + rest, own) == Some(dir + "/")
  {
    hide Index, OccursAt;
    var nested := "/" + own;
    var name := dir + nested + rest;
    Follows(dir, nested, rest);
    var i := Index(name, nested).value;
    assert i <= |dir|;
    OccurrenceHas(name, nested, i, 0);
    assert i == |dir|;
    assert name[i..] == nested + rest && name[..i + 1] == dir + "/";
  }

  lemma MakesNoRoot(dir: string, own: string, rest: string)
    requires Free(dir, '/') && Free(rest, '/') && own != "" && rest != "" && rest[0] != own[0]
    ensures NestedRoot(dir + "/" + rest, own).None?
  {
    hide Index, OccursAt;
    var nested := "/" + own;
    var name := dir + "/" + rest;
    if Index(name, nested).Some? {
      var i := Index(name, nested).value;
      OccurrenceHas(name, nested, i, 0);
      OccurrenceHas(name, nested, i, 1);
      assert false;
    }
  }

  // ---- The two cleans ----

  lemma StrayRoot()
    ensures NestedRoot(Stray, "manifests|") == Some("tank/")
  {
    hide NestedRoot, Contains;
    var rest := "a.manifest" + First;
    Regroup("tank", "/manifests", "|", rest);
    assert "tank" + "/manifests" == "tank/manifests" && "/" + "manifests|" == "/manifests" + "|";
    assert "tank/manifests" + "|" + "a.manifest" + First == "tank/manifests" + "|" + rest;
    HoldsManifest();
    assert Stray[0] == 't' && "tank" + "/" == "tank/";
    MakesRoot("tank", "manifests|", rest);
  }

  lemma Regroup(a: string, b: string, c: string, d: string)
    ensures a + (b + c) + d == a + b + c + d
  {
  }

  lemma HoldsManifest()
    ensures Contains("/" + "manifests|" + ("a.manifest" + First), ".manifest")
  {
    hide Index, OccursAt;
    var a := "/" + "manifests|" + "a";
    assert "a.manifest" == "a" + ".manifest";
    assert "/" + "manifests|" + ("a.manifest" + First) == a + ".manifest" + First;
    Follows(a, ".manifest", First);
  }

  lemma OrphanRoot()
    ensures NestedRoot(Orphan, "manifests|").None?
  {
    hide NestedRoot;
    var rest := "data" + "|" + "b" + First;
    assert "tank/data" == "tank" + "/" + "data";
    assert Orphan == "tank" + "/" + rest;
    assert rest[0] == 'd' && Free(rest, '/');
    MakesNoRoot("tank", "manifests|", rest);
  }

  lemma StrayReads()
    ensures ParseVolume(Stray, ["|"]) == Some(("tank/manifests", "|"))
  {
    hide ParseVolume, FullName;
    ReadsAs("tank/manifests", "a.manifest");
  }

  lemma OrphanReads()
    ensures ParseVolume(Orphan, ["|"]) == Some(("tank/data", "|"))
  {
    hide ParseVolume, FullName;
    ReadsAs("tank/data", "b");
  }

  lemma SeparatorIs(gone: set<string>)
    ensures Separators(Cfg, Remaining(Listing, gone)) == Separators(Cfg, Listing) == ["|"]
  {
    CleanRefines.OneSeparator(["|"], Listing.manifests);
    CleanRefines.OneSeparator(["|"], Listing.localOnly);
  }

  // Names that start unlike the manifests' are neither manifests nor below their prefix.
  lemma NoManifest(name: string)
    requires name != "" && name[0] == 't'
    ensures !IsManifestObject(name, Cfg) && !("manifests|" <= name)
  {
    assert "manifests"[0] == 'm' && "manifests|"[0] == 'm';
  }

  lemma ScopeReads(busy: set<string>)
    ensures var s := ScopeOf(Cfg, Listing, busy);
      && s.cfg == Cfg && s.live == [Busy, Data, Named] && s.seps == ["|"] && s.busy == busy
      && s.datasets == {"busy", "tank/data", "tank/manifests"}
      && s.roots == NestedRoots(Listing.objects, "manifests|")
  {
    hide NestedRoots, OtherSets, Separators;
    SeparatorIs({});
    assert OwnPrefix(Cfg) == "manifests|";
  }

  // The first clean deletes the stray: its manifest is busy, its own dataset is not.
  lemma StrayDeleted()
    ensures Deleted(Stray, ScopeOf(Cfg, Listing, {"busy"}), Listing.objects)
  {
    hide ScopeOf, IsManifestObject, ParseVolume, NestedUnder, NestedRoots, Stray, Orphan, OwnName;
    var s := ScopeOf(Cfg, Listing, {"busy"});
    ScopeReads({"busy"});
    StartsT();
    NoManifest(Stray);
    StrayReads();
    assert Busy in s.live && Stray in Busy.volumes;
    assert Candidate(Stray, s);
  }

  lemma StartsT()
    ensures Stray != "" && Stray[0] == 't' && Orphan != "" && Orphan[0] == 't' && "tank/" <= Orphan
  {
    assert "tank/data" == "tank/" + "data";
  }

  // The orphan is spared: the stray makes tank/ a nested destination.
  lemma OrphanProtected()
    ensures var s := ScopeOf(Cfg, Listing, {"busy"});
      ParseVolume(Orphan, s.seps).Some? && Protected(Orphan, s)
  {
    hide ScopeOf, ParseVolume, NestedUnder, NestedRoots, NestedRoot, Stray, Orphan, OwnName;
    ScopeReads({"busy"});
    StartsT();
    OrphanReads();
    StrayRoot();
    RootProtects(Orphan, Listing.objects, "manifests|", Stray, "tank/");
  }

  lemma RootProtects(obj: string, objects: seq<string>, own: string, maker: string, root: string)
    requires maker in objects && NestedRoot(maker, own) == Some(root) && root <= obj
    ensures NestedUnder(obj, NestedRoots(objects, own)).Some?
  {
    hide NestedRoot, NestedRoots, NestedUnder;
    assert root in NestedRoots(objects, own);
  }

  lemma OrphanListedByNone()
    ensures Orphaned(Orphan, ScopeOf(Cfg, Listing, {"busy"}))
  {
    hide ScopeOf, IsManifestObject, ParseVolume, Stray, Orphan, NestedRoots, OwnName;
    ScopeReads({"busy"});
    StartsT();
    NoManifest(Orphan);
    OrphanReads();
    OrphanIsNoStray();
    assert OwnPrefix(Cfg) == "manifests|";
  }

  lemma OrphanIsNoStray()
    ensures Orphan != Stray
  {
    StrayRoot();
    OrphanRoot();
  }

  lemma IsManifestName(rest: string)
    ensures IsManifestObject(OwnName(rest), Cfg) && "manifests|" <= OwnName(rest)
  {
    assert OwnName(rest)[|Cfg.prefix|..] == "|" + rest;
    assert "manifests" + "|" == "manifests|";
  }

  lemma ManifestNames()
    ensures forall m :: m in Listing.manifests ==> IsManifestObject(m.object_, Cfg) && "manifests|" <= m.object_
  {
    hide IsManifestObject, OwnName;
    IsManifestName("busy|a.manifest.gz");
    IsManifestName("tank/data|c.manifest.gz");
    IsManifestName("tank/manifests|c.manifest.gz");
  }

  // What is left makes no nested destination and names no other prefix's set.
  lemma LeftMakesNone(x: string)
    requires x in Listing.objects && x != Stray
    ensures NestedRoot(x, "manifests|").None? && OtherSetsOf(x, Cfg, ["|"]) == {}
  {
    hide IsManifestObject, ParseVolume, Index, LastIndex, Stray, Orphan;
    ManifestNames();
    OrphanRoot();
    OrphanReads();
    assert Busy in Listing.manifests && Data in Listing.manifests && Named in Listing.manifests;
  }

  lemma OrphanExposed(gone: set<string>)
    requires Stray in gone
    ensures var t := ScopeOf(Cfg, Remaining(Listing, gone), {"busy"}); t.seps == ["|"] && t.roots == [] && t.other == {}
  {
    hide IsManifestObject, ParseVolume, NestedRoot, NestedRoots, OtherSetsOf, IsNestedOwn, Separators, Live;
    hide Stray, Orphan;
    var left := Without(Listing.objects, gone);
    SeparatorIs(gone);
    forall x | x in left
      ensures NestedRoot(x, "manifests|").None? && OtherSetsOf(x, Cfg, ["|"]) == {}
    {
      LeftMakesNone(x);
    }
    assert OwnPrefix(Cfg) == "manifests|";
    CleanOthers.NoRoots(left, "manifests|");
  }

  // The first clean deletes the stray, and with it what made tank/ a nested destination; the
  // second deletes an orphan below it.
  lemma SecondCleanDeletes(gone: set<string>)
    requires forall x :: x in gone <==> Deleted(x, ScopeOf(Cfg, Listing, {"busy"}), Listing.objects)
    ensures Orphan in Listing.objects && Orphan !in gone
    ensures Deleted(Orphan, ScopeOf(Cfg, Remaining(Listing, gone), {"busy"}), Remaining(Listing, gone).objects)
  {
    hide ScopeOf, Deleted, Orphaned, ParseVolume, Stray, Orphan;
    StrayDeleted();
    OrphanProtected();
    OrphanListedByNone();
    OrphanReads();
    OrphanExposed(gone);
    SecondDeletesIff(Cfg, Listing, {"busy"}, gone, Orphan);
  }
}
