// The string operations that object names are built and read with.
module Text {
  import opened Common

  predicate OccursAt(s: string, sub: string, i: nat) {
    i + |sub| <= |s| && s[i..i + |sub|] == sub
  }

  function IndexFrom(s: string, sub: string, from: nat): (r: Option<nat>)
    requires from <= |s|
    ensures r.Some? ==> from <= r.value && OccursAt(s, sub, r.value) && forall j :: from <= j < r.value ==>
      !OccursAt(s, sub, j)
    ensures r.None? ==> forall j :: from <= j ==> !OccursAt(s, sub, j)
    decreases |s| - from
  {
    if OccursAt(s, sub, from) then Some(from)
    else if from == |s| then None
    else IndexFrom(s, sub, from + 1)
  }

  function Index(s: string, sub: string): (r: Option<nat>)
    ensures r.Some? ==> OccursAt(s, sub, r.value) && forall j: nat :: j < r.value ==> !OccursAt(s, sub, j)
    ensures r.None? ==> forall j: nat :: !OccursAt(s, sub, j)
  {
    IndexFrom(s, sub, 0)
  }

  function LastIndexUpTo(s: string, sub: string, to: nat): (r: Option<nat>)
    ensures r.Some? ==> r.value <= to && OccursAt(s, sub, r.value) && forall j: nat :: r.value < j <= to ==>
      !OccursAt(s, sub, j)
    ensures r.None? ==> forall j: nat :: j <= to ==> !OccursAt(s, sub, j)
  {
    if OccursAt(s, sub, to) then Some(to)
    else if to == 0 then None
    else LastIndexUpTo(s, sub, to - 1)
  }

  function LastIndex(s: string, sub: string): (r: Option<nat>)
    ensures r.Some? ==> OccursAt(s, sub, r.value) && forall j: nat :: r.value < j ==> !OccursAt(s, sub, j)
    ensures r.None? ==> forall j: nat :: !OccursAt(s, sub, j)
  {
    LastIndexUpTo(s, sub, |s|)
  }

  lemma LastIndexIs(s: string, sub: string, i: nat)
    requires OccursAt(s, sub, i) && forall j: nat :: i < j ==> !OccursAt(s, sub, j)
    ensures LastIndex(s, sub) == Some(i)
  {
    hide OccursAt;
  }

  predicate Contains(s: string, sub: string) {
    Index(s, sub).Some?
  }

  function Split(s: string, sep: string): (r: seq<string>)
    requires sep != ""
    ensures r != []
    decreases |s|
  {
    var i := Index(s, sep);
    if i.None? then [s] else [s[..i.value]] + Split(s[i.value + |sep|..], sep)
  }

  function Join(parts: seq<string>, sep: string): (r: string) {
    if parts == [] then "" else if |parts| == 1 then parts[0] else parts[0] + sep + Join(parts[1..], sep)
  }

  predicate Free(s: string, c: char) {
    forall i :: 0 <= i < |s| ==> s[i] != c
  }

  predicate AllFree(parts: seq<string>, c: char) {
    forall p :: p in parts ==> Free(p, c)
  }

  function FirstChar(s: string, c: char): (i: nat)
    requires c in s
    ensures i < |s| && s[i] == c && forall k :: 0 <= k < i ==> s[k] != c
  {
    if s[0] == c then 0 else 1 + FirstChar(s[1..], c)
  }

  lemma OccurrenceHas(s: string, sub: string, i: nat, f: nat)
    requires OccursAt(s, sub, i) && f < |sub|
    ensures i + f < |s| && s[i + f] == sub[f]
  {
    assert s[i..i + |sub|][f] == sub[f];
  }

  // The separator does not start inside a part that lacks one of its characters.
  lemma NotInside(part: string, sep: string, rest: string, c: char, j: nat)
    requires Free(part, c) && c in sep && j < |part|
    ensures !OccursAt(part + sep + rest, sep, j)
  {
    var f := FirstChar(sep, c);
    var s := part + sep + rest;
    if OccursAt(s, sep, j) {
      OccurrenceHas(s, sep, j, f);
      assert false;
    }
  }

  // The first occurrence of the separator after such a part is the one that follows the part,
  // whatever comes next.
  lemma FirstSeparator(part: string, sep: string, rest: string, c: char)
    requires Free(part, c) && c in sep
    ensures Index(part + sep + rest, sep) == Some(|part|)
  {
    hide Index, OccursAt;
    var s := part + sep + rest;
    Follows(part, sep, rest);
    forall j: nat | j < |part|
      ensures !OccursAt(s, sep, j)
    {
      NotInside(part, sep, rest, c, j);
    }
  }

  lemma Follows(part: string, sep: string, rest: string)
    ensures OccursAt(part + sep + rest, sep, |part|)
  {
    assert (part + sep + rest)[|part|..|part| + |sep|] == sep;
  }

  lemma FreeHasNone(part: string, sep: string, c: char)
    requires Free(part, c) && c in sep
    ensures Index(part, sep).None?
  {
  }

  // Splitting undoes joining when some character of the separator is in no part.
  lemma {:induction false} SplitJoin(parts: seq<string>, sep: string, c: char)
    requires parts != [] && c in sep && AllFree(parts, c)
    ensures sep != "" && Split(Join(parts, sep), sep) == parts
  {
    assert parts[0] in parts;
    if |parts| == 1 {
      FreeHasNone(parts[0], sep, c);
    } else {
      var rest := Join(parts[1..], sep);
      FirstSeparator(parts[0], sep, rest, c);
      SplitJoin(parts[1..], sep, c);
      var s := parts[0] + sep + rest;
      assert s[..|parts[0]|] == parts[0] && s[|parts[0]| + |sep|..] == rest;
      assert parts == [parts[0]] + parts[1..];
    }
  }

  // Joining undoes splitting.
  lemma {:induction false} JoinSplit(s: string, sep: string)
    requires sep != ""
    ensures Join(Split(s, sep), sep) == s
    decreases |s|
  {
    var i := Index(s, sep);
    if i.Some? {
      var rest := s[i.value + |sep|..];
      JoinSplit(rest, sep);
      hide Split, OccursAt;
      SplitOnce(s, sep);
      JoinOnce(s[..i.value], Split(rest, sep), sep);
      CutAround(s, sep, i.value);
    }
  }

  lemma SplitOnce(s: string, sep: string)
    requires sep != "" && Index(s, sep).Some?
    ensures Index(s, sep).value + |sep| <= |s|
    ensures var i := Index(s, sep).value; Split(s, sep) == [s[..i]] + Split(s[i + |sep|..], sep)
  {
  }

  lemma JoinOnce(part: string, parts: seq<string>, sep: string)
    requires parts != []
    ensures Join([part] + parts, sep) == part + sep + Join(parts, sep)
  {
    assert ([part] + parts)[1..] == parts;
  }

  lemma CutAround(s: string, sep: string, i: nat)
    requires OccursAt(s, sep, i)
    ensures s == s[..i] + sep + s[i + |sep|..]
  {
    assert s[i..i + |sep|] == sep;
  }
}
