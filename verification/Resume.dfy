// How a --resume decides which volumes of the interrupted attempt it keeps.
module Resume {
  import opened Common
  import opened Manifests

  // What listing a destination answers: an error, or the size of each object. `sizer` says
  // whether the backend can tell sizes; asking for those of `unsized` fails.
  datatype Listing = Failed | Listed(sizes: map<ObjectName, nat>, sizer: bool, unsized: set<ObjectName>)

  function InsertByNumber(v: VolumeInfo, sorted: seq<VolumeInfo>): (r: seq<VolumeInfo>)
    ensures multiset(r) == multiset([v]) + multiset(sorted)
  {
    if sorted == [] || v.number <= sorted[0].number then [v] + sorted
    else
      assert sorted == [sorted[0]] + sorted[1..];
      [sorted[0]] + InsertByNumber(v, sorted[1..])
  }

  function ByNumber(volumes: seq<VolumeInfo>): (r: seq<VolumeInfo>)
    ensures multiset(r) == multiset(volumes)
  {
    if volumes == [] then []
    else
      assert volumes == [volumes[0]] + volumes[1..];
      InsertByNumber(volumes[0], ByNumber(volumes[1..]))
  }

  predicate InOrder(volumes: seq<VolumeInfo>) {
    forall i, j :: 0 <= i < j < |volumes| ==> volumes[i].number <= volumes[j].number
  }

  lemma {:induction false} InsertByNumberHolds(v: VolumeInfo, sorted: seq<VolumeInfo>)
    ensures forall x: VolumeInfo :: x in InsertByNumber(v, sorted) ==> x == v || x in sorted
  {
    if sorted != [] && v.number > sorted[0].number {
      InsertByNumberHolds(v, sorted[1..]);
    }
  }

  lemma InOrderCons(x: VolumeInfo, d: seq<VolumeInfo>)
    requires InOrder(d) && forall y: VolumeInfo :: y in d ==> x.number <= y.number
    ensures InOrder([x] + d)
  {
    var r := [x] + d;
    forall i, j | 0 <= i < j < |r|
      ensures r[i].number <= r[j].number
    {
      assert r[j] == d[j - 1] && d[j - 1] in d;
      assert i > 0 ==> r[i] == d[i - 1];
    }
  }

  lemma FirstIsLeast(d: seq<VolumeInfo>)
    requires InOrder(d) && d != []
    ensures forall y: VolumeInfo :: y in d ==> d[0].number <= y.number
  {
  }

  lemma {:induction false} InsertByNumberInOrder(v: VolumeInfo, sorted: seq<VolumeInfo>)
    requires InOrder(sorted)
    ensures InOrder(InsertByNumber(v, sorted))
  {
    hide InOrder;
    if sorted == [] {
      OneInOrder(v);
    } else {
      FirstIsLeast(sorted);
      if v.number <= sorted[0].number {
        InOrderCons(v, sorted);
      } else {
        TailInOrder(sorted);
        InsertByNumberInOrder(v, sorted[1..]);
        InsertByNumberHolds(v, sorted[1..]);
        InOrderCons(sorted[0], InsertByNumber(v, sorted[1..]));
      }
    }
  }

  lemma OneInOrder(v: VolumeInfo)
    ensures InOrder([v] + [])
  {
  }

  lemma TailInOrder(d: seq<VolumeInfo>)
    requires InOrder(d) && d != []
    ensures InOrder(d[1..])
  {
  }

  lemma {:induction false} ByNumberInOrder(volumes: seq<VolumeInfo>)
    ensures InOrder(ByNumber(volumes))
  {
    if volumes != [] {
      ByNumberInOrder(volumes[1..]);
      InsertByNumberInOrder(volumes[0], ByNumber(volumes[1..]));
    }
  }

  // Sorting what is in order changes nothing.
  lemma {:induction false} ByNumberOfSorted(volumes: seq<VolumeInfo>)
    requires InOrder(volumes)
    ensures ByNumber(volumes) == volumes
  {
    if volumes != [] {
      ByNumberOfSorted(volumes[1..]);
      assert volumes == [volumes[0]] + volumes[1..];
    }
  }

  // The volumes of a saved manifest are already in order.
  lemma ByNumberOfAscending(volumes: seq<VolumeInfo>)
    requires Ascending(volumes)
    ensures ByNumber(volumes) == volumes
  {
    ByNumberOfSorted(volumes);
  }

  // Volume n (from 0) of the cache is the next number and is stored at the listed destination.
  predicate VerifiedAt(v: VolumeInfo, n: nat, listing: Listing) {
    && v.number == n + 1
    && listing.Listed?
    && v.name in listing.sizes
    && (listing.sizer ==> v.name !in listing.unsized && listing.sizes[v.name] == v.size)
  }

  // Its size is asked for, and cannot be told.
  predicate SizeFails(v: VolumeInfo, n: nat, listing: Listing) {
    && v.number == n + 1
    && listing.Listed? && v.name in listing.sizes && listing.sizer && v.name in listing.unsized
  }

  // Checking destination d fails: it cannot be listed, or the size of a volume cannot be told that
  // the destinations before hold, with all before it held everywhere so far.
  ghost predicate FailsAt(cached: seq<VolumeInfo>, listings: seq<Listing>, d: nat)
    requires d < |listings|
  {
    || listings[d].Failed?
    || exists n :: 0 <= n < |cached| && SizeFailsAt(cached, listings, d, n)
  }

  ghost predicate CheckFails(cached: seq<VolumeInfo>, listings: seq<Listing>) {
    exists d: nat :: d < |listings| && FailsAt(cached, listings, d)
  }

  ghost predicate SizeFailsAt(cached: seq<VolumeInfo>, listings: seq<Listing>, d: nat, n: nat)
    requires d < |listings| && n < |cached|
  {
    && (forall k :: 0 <= k <= n ==> VerifiedEverywhere(cached[k], k, listings[..d]))
    && FailsHere(cached, listings[d], n)
  }

  // The first volume a destination does not verify is one whose size it cannot tell.
  ghost predicate FailsHere(cached: seq<VolumeInfo>, listing: Listing, n: nat)
    requires n < |cached|
  {
    (forall k :: 0 <= k < n ==> VerifiedAt(cached[k], k, listing)) && SizeFails(cached[n], n, listing)
  }

  // The cache of another destination records the same volume at place n.
  predicate CachedAs(v: VolumeInfo, n: nat, theirs: Option<seq<VolumeInfo>>) {
    && theirs.Some?
    && var sorted := ByNumber(theirs.value);
       && n < |sorted|
       && sorted[n].number == v.number && sorted[n].name == v.name
       && sorted[n].size == v.size && sorted[n].sha256 == v.sha256
  }

  predicate VerifiedEverywhere(v: VolumeInfo, n: nat, listings: seq<Listing>) {
    forall l :: l in listings ==> VerifiedAt(v, n, l)
  }

  predicate CachedEverywhere(v: VolumeInfo, n: nat, others: seq<Option<seq<VolumeInfo>>>) {
    forall t :: t in others ==> CachedAs(v, n, t)
  }

  // keep is the length of the longest run of cached volumes that every destination holds.
  ghost predicate LongestVerified(cached: seq<VolumeInfo>, listings: seq<Listing>, keep: nat) {
    && keep <= |cached|
    && (forall n :: 0 <= n < keep ==> VerifiedEverywhere(cached[n], n, listings))
    && (keep < |cached| ==> !VerifiedEverywhere(cached[keep], keep, listings))
  }

  ghost predicate LongestCached(
    cached: seq<VolumeInfo>, others: seq<Option<seq<VolumeInfo>>>, keep: nat)
  {
    && keep <= |cached|
    && (forall n :: 0 <= n < keep ==> CachedEverywhere(cached[n], n, others))
    && (keep < |cached| ==> !CachedEverywhere(cached[keep], keep, others))
  }

  // What a resume keeps: the longest run that is stored at every destination and recorded by
  // the cache of every one of them.
  ghost predicate IsResumePoint(
    cached: seq<VolumeInfo>, listings: seq<Listing>, others: seq<Option<seq<VolumeInfo>>>, keep: nat)
  {
    && keep <= |cached|
    && (forall n :: 0 <= n < keep ==>
          VerifiedEverywhere(cached[n], n, listings) && CachedEverywhere(cached[n], n, others))
    && (keep < |cached| ==>
          !VerifiedEverywhere(cached[keep], keep, listings) || !CachedEverywhere(cached[keep], keep, others))
  }

  // The volumes that one more destination holds, among the first keep; none when it cannot tell.
  method VerifiedHere(cached: seq<VolumeInfo>, keep: nat, listing: Listing) returns (found: Option<nat>)
    requires keep <= |cached| && listing.Listed?
    ensures found.Some? ==>
      && found.value <= keep
      && (forall k :: 0 <= k < found.value ==> VerifiedAt(cached[k], k, listing))
      && (found.value < keep ==> !VerifiedAt(cached[found.value], found.value, listing))
    ensures found.None? <==> exists n :: 0 <= n < keep && FailsHere(cached, listing, n)
  {
    var n := 0;
    while n < keep
      invariant 0 <= n <= keep
      invariant forall k :: 0 <= k < n ==> VerifiedAt(cached[k], k, listing)
    {
      if SizeFails(cached[n], n, listing) {
        assert FailsHere(cached, listing, n);
        return None;
      }
      if !VerifiedAt(cached[n], n, listing) {
        return Some(n);
      }
      n := n + 1;
    }
    return Some(keep);
  }

  method VerifiedVolumes(cached: seq<VolumeInfo>, listings: seq<Listing>)
    returns (r: Result<seq<VolumeInfo>, string>)
    ensures r.Err? <==> CheckFails(ByNumber(cached), listings)
    ensures r.Ok? ==>
      exists keep: nat :: LongestVerified(ByNumber(cached), listings, keep) && r.value == ByNumber(cached)[..keep]
  {
    hide ByNumber, VerifiedAt, SizeFails;
    var sorted := ByNumber(cached);
    var keep: nat := |sorted|;
    for d := 0 to |listings|
      invariant forall k: nat :: k < d ==> !FailsAt(sorted, listings, k)
      invariant LongestVerified(sorted, listings[..d], keep)
    {
      if listings[d].Failed? {
        assert FailsAt(sorted, listings, d);
        return Err("could not list the volumes");
      }
      var found := VerifiedHere(sorted, keep, listings[d]);
      HereFails(sorted, listings, d, keep, found);
      if found.None? {
        return Err("could not stat a volume");
      }
      HereVerified(sorted, listings, d, keep, found.value);
      keep := found.value;
    }
    assert listings[..|listings|] == listings;
    return Ok(sorted[..keep]);
  }

  lemma HereFails(sorted: seq<VolumeInfo>, listings: seq<Listing>, d: nat, keep: nat, found: Option<nat>)
    requires d < |listings| && listings[d].Listed? && LongestVerified(sorted, listings[..d], keep)
    requires found.None? <==> exists n :: 0 <= n < keep && FailsHere(sorted, listings[d], n)
    ensures FailsAt(sorted, listings, d) <==> found.None?
  {
    hide FailsHere;
    if found.None? {
      var n :| 0 <= n < keep && FailsHere(sorted, listings[d], n);
      assert SizeFailsAt(sorted, listings, d, n);
    }
    forall n | 0 <= n < |sorted| && SizeFailsAt(sorted, listings, d, n)
      ensures n < keep
    {
    }
  }

  lemma HereVerified(sorted: seq<VolumeInfo>, listings: seq<Listing>, d: nat, keep: nat, found: nat)
    requires d < |listings| && LongestVerified(sorted, listings[..d], keep) && found <= keep
    requires forall k :: 0 <= k < found ==> VerifiedAt(sorted[k], k, listings[d])
    requires found < keep ==> !VerifiedAt(sorted[found], found, listings[d])
    ensures LongestVerified(sorted, listings[..d + 1], found)
  {
    hide VerifiedAt;
    assert listings[..d + 1] == listings[..d] + [listings[d]];
  }

  method CachedAtEveryDestination(cached: seq<VolumeInfo>, others: seq<Option<seq<VolumeInfo>>>)
    returns (kept: seq<VolumeInfo>)
    ensures exists keep: nat :: LongestCached(ByNumber(cached), others, keep) && kept == ByNumber(cached)[..keep]
  {
    hide CachedAs;
    var sorted := ByNumber(cached);
    var keep: nat := |sorted|;
    for d := 0 to |others|
      invariant LongestCached(sorted, others[..d], keep)
    {
      assert others[..d + 1] == others[..d] + [others[d]];
      keep := CachedHere(sorted, keep, others[d]);
    }
    assert others[..|others|] == others;
    kept := sorted[..keep];
  }

  // The volumes that one more cache records, among the first keep.
  method CachedHere(sorted: seq<VolumeInfo>, keep: nat, theirs: Option<seq<VolumeInfo>>) returns (found: nat)
    requires keep <= |sorted|
    ensures found <= keep && forall k :: 0 <= k < found ==> CachedAs(sorted[k], k, theirs)
    ensures found < keep ==> !CachedAs(sorted[found], found, theirs)
  {
    hide CachedAs;
    found := 0;
    while found < keep && CachedAs(sorted[found], found, theirs)
      invariant found <= keep
      invariant forall k :: 0 <= k < found ==> CachedAs(sorted[k], k, theirs)
    {
      found := found + 1;
    }
  }

  lemma ResumePointFromBoth(
    cached: seq<VolumeInfo>, listings: seq<Listing>, others: seq<Option<seq<VolumeInfo>>>, first: nat, keep: nat)
    requires LongestVerified(cached, listings, first)
    requires LongestCached(cached[..first], others, keep)
    ensures IsResumePoint(cached, listings, others, keep)
  {
    forall n | 0 <= n < keep
      ensures CachedEverywhere(cached[n], n, others)
    {
      assert cached[..first][n] == cached[n];
    }
    if keep < first {
      assert cached[..first][keep] == cached[keep];
    }
  }

  // verifiedVolumes, then cachedAtEveryDestination on what it returned: together they keep the
  // longest run both accept, whichever destination cuts it short.
  method KeptVolumes(
    cached: seq<VolumeInfo>, listings: seq<Listing>, others: seq<Option<seq<VolumeInfo>>>)
    returns (r: Result<seq<VolumeInfo>, string>)
    ensures r.Err? <==> CheckFails(ByNumber(cached), listings)
    ensures r.Ok? ==> exists keep: nat ::
      IsResumePoint(ByNumber(cached), listings, others, keep) && r.value == ByNumber(cached)[..keep]
  {
    hide ByNumber, IsResumePoint, VerifiedEverywhere, CachedEverywhere, CheckFails;
    r := VerifiedVolumes(cached, listings);
    if r.Ok? {
      ghost var sorted := ByNumber(cached);
      ghost var first: nat :| LongestVerified(sorted, listings, first) && r.value == sorted[..first];
      ByNumberInOrder(cached);
      ByNumberOfSorted(sorted[..first]);
      var kept := CachedAtEveryDestination(r.value, others);
      ghost var keep: nat :| LongestCached(sorted[..first], others, keep) && kept == sorted[..first][..keep];
      ResumePointFromBoth(sorted, listings, others, first, keep);
      assert sorted[..first][..keep] == sorted[..keep];
      r := Ok(kept);
    }
  }

  // ---- What is kept, volume by volume ----

  // The n-th cached volume (from 0) is number n + 1, is listed at every destination with the size
  // recorded wherever sizes are told, and is the n-th of every other cache, with the same name, size
  // and hash.
  ghost predicate StandsEverywhere(
    v: VolumeInfo, n: nat, listings: seq<Listing>, others: seq<Option<seq<VolumeInfo>>>)
  {
    && v.number == n + 1
    && (forall d :: 0 <= d < |listings| ==>
      && listings[d].Listed? && v.name in listings[d].sizes
      && (listings[d].sizer ==> listings[d].sizes[v.name] == v.size && v.name !in listings[d].unsized))
    && (forall d :: 0 <= d < |others| ==>
      && others[d].Some? && n < |ByNumber(others[d].value)|
      && var u := ByNumber(others[d].value)[n];
         u.number == v.number && u.name == v.name && u.size == v.size && u.sha256 == v.sha256)
  }

  // A volume is kept exactly when it and all before it stand everywhere.
  lemma KeptIff(
    cached: seq<VolumeInfo>, listings: seq<Listing>, others: seq<Option<seq<VolumeInfo>>>, keep: nat, n: nat)
    requires listings != [] && n < |cached| && IsResumePoint(cached, listings, others, keep)
    ensures n < keep <==> forall k :: 0 <= k <= n ==> StandsEverywhere(cached[k], k, listings, others)
  {
    hide ByNumber, StandsEverywhere, VerifiedEverywhere, CachedEverywhere;
    forall k | 0 <= k < |cached|
      ensures StandsEverywhere(cached[k], k, listings, others) <==>
        VerifiedEverywhere(cached[k], k, listings) && CachedEverywhere(cached[k], k, others)
    {
      StandsIff(cached[k], k, listings, others);
    }
  }

  lemma StandsIff(v: VolumeInfo, n: nat, listings: seq<Listing>, others: seq<Option<seq<VolumeInfo>>>)
    requires listings != []
    ensures StandsEverywhere(v, n, listings, others) <==>
      VerifiedEverywhere(v, n, listings) && CachedEverywhere(v, n, others)
  {
    hide ByNumber;
    assert listings[0] in listings;
    if VerifiedEverywhere(v, n, listings) && CachedEverywhere(v, n, others) {
      forall d | 0 <= d < |listings|
        ensures VerifiedAt(v, n, listings[d])
      {
        assert listings[d] in listings;
      }
      forall d | 0 <= d < |others|
        ensures CachedAs(v, n, others[d])
      {
        assert others[d] in others;
      }
    }
  }

  // Without sizes that cannot be told, only a failed listing fails the check.
  lemma FailsIffUnlisted(cached: seq<VolumeInfo>, listings: seq<Listing>)
    requires forall l :: l in listings && l.Listed? ==> l.unsized == {}
    ensures CheckFails(cached, listings) <==> exists l :: l in listings && l.Failed?
  {
    if l :| l in listings && l.Failed? {
      var d: nat :| d < |listings| && listings[d] == l;
      assert FailsAt(cached, listings, d);
    }
  }

  // Of a listing with sizes, one that cannot be told fails the check when it is asked for: of a volume
  // that the destinations before hold, with all before it held there and here.
  lemma FailsWhenAsked(cached: seq<VolumeInfo>, listings: seq<Listing>, d: nat, n: nat)
    requires d < |listings| && n < |cached| && listings[d].Listed? && listings[d].sizer
    requires cached[n].name in listings[d].sizes && cached[n].name in listings[d].unsized
    requires forall k :: 0 <= k <= n ==> cached[k].number == k + 1
    requires forall k, e :: 0 <= k <= n && 0 <= e <= d && !(k == n && e == d) ==>
      && listings[e].Listed? && cached[k].name in listings[e].sizes && cached[k].name !in listings[e].unsized
      && listings[e].sizes[cached[k].name] == cached[k].size
    ensures CheckFails(cached, listings)
  {
    hide ByNumber;
    forall k | 0 <= k <= n
      ensures VerifiedEverywhere(cached[k], k, listings[..d])
    {
      forall l | l in listings[..d]
        ensures VerifiedAt(cached[k], k, l)
      {
        var e: nat :| e < d && listings[e] == l;
      }
    }
    assert FailsHere(cached, listings[d], n);
    assert SizeFailsAt(cached, listings, d, n);
    assert FailsAt(cached, listings, d);
  }
}
