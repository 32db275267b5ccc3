// Object names of backup volumes: how they are built, and how they are read back.
module Names {
  import opened Common
  import opened Text

  // A backup set: a full when it has no source.
  datatype SetName = SetName(volume: string, source: string, base: string)

  const Internal := "internal"
  const ZfsOnly := "zfs"
  const MaxNumber := 0x7fff_ffff_ffff_ffff

  // ---- Numbers ----

  function DigitChar(n: nat): (c: char)
    requires n < 10
    ensures '0' <= c <= '9' && (c - '0') as nat == n
  {
    '0' + n as char
  }

  function Digits(n: nat): (s: string)
    ensures s != ""
    ensures forall i :: 0 <= i < |s| ==> '0' <= s[i] <= '9'
  {
    if n < 10 then [DigitChar(n)] else Digits(n / 10) + [DigitChar(n % 10)]
  }

  predicate AllDigits(s: string) {
    forall i :: 0 <= i < |s| ==> '0' <= s[i] <= '9'
  }

  function Value(s: string): (n: nat)
    requires AllDigits(s)
  {
    if s == "" then 0 else 10 * Value(s[..|s| - 1]) + (s[|s| - 1] - '0') as nat
  }

  lemma {:induction false} ValueOfDigits(n: nat)
    ensures Value(Digits(n)) == n
  {
    var s := Digits(n);
    if n >= 10 {
      ValueOfDigits(n / 10);
      assert s[..|s| - 1] == Digits(n / 10);
    } else {
      assert s[..|s| - 1] == "";
    }
  }

  // A canonical number from 1 on.
  function ParseNumber(s: string): (r: Option<nat>)
    ensures r.Some? ==> Digits(r.value) == s && 1 <= r.value <= MaxNumber
  {
    if s == "" || !AllDigits(s) then None
    else
      var n := Value(s);
      if n < 1 || n > MaxNumber || Digits(n) != s then None else Some(n)
  }

  // ---- Building ----

  function NameParts(set_: SetName): (parts: seq<string>) {
    if set_.source == "" then [set_.volume, set_.base] else [set_.volume, set_.source, "to", set_.base]
  }

  function Extensions(compressor: string, pgp: bool): (r: seq<string>) {
    var key := if pgp then ["pgp"] else [];
    if compressor == Internal then ["gz"] + key
    else if compressor == "" || compressor == ZfsOnly then key
    else [compressor] + key
  }

  function VolumePrefix(set_: SetName, sep: string, compressor: string, pgp: bool): (name: string) {
    Join(NameParts(set_), sep) + "." + Join(["zstream"] + Extensions(compressor, pgp) + ["vol"], ".")
  }

  function VolumeName(set_: SetName, sep: string, compressor: string, pgp: bool, number: nat): (name: string) {
    VolumePrefix(set_, sep, compressor, pgp) + Digits(number)
  }

  // ---- Reading ----

  const Marker := ".zstream."

  predicate ValidExtensions(extensions: seq<string>) {
    || extensions == []
    || (|extensions| == 1 && extensions[0] != "")
    || (|extensions| == 2 && extensions[0] != "" && extensions[0] != "pgp" && extensions[1] == "pgp")
  }

  // The number in the extensions after the marker.
  function ParseExtensions(text: string): (r: Option<nat>) {
    var extensions := Split(text, ".");
    var last := extensions[|extensions| - 1];
    if !("vol" <= last) then None
    else if !ValidExtensions(extensions[..|extensions| - 1]) then None
    else ParseNumber(last[3..])
  }

  function ParseParts(parts: seq<string>): (r: Option<SetName>) {
    var named :=
      if |parts| == 2 then Some(SetName(parts[0], "", parts[1]))
      else if |parts| == 4 && parts[2] == "to" then Some(SetName(parts[0], parts[1], parts[3]))
      else None;
    if named.None? || named.value.volume == "" || named.value.base == "" || named.value.volume[0] == '/'
      || (|parts| == 4 && named.value.source == "")
    then None
    else named
  }

  // ParseBackupVolumeObjectName.
  function ParseVolumeName(name: string, sep: string): (r: Option<(SetName, nat)>) {
    if sep == "" then None
    else
      var at := LastIndex(name, Marker);
      if at.None? then None
      else
        var number := ParseExtensions(name[at.value + |Marker|..]);
        var set_ := ParseParts(Split(name[..at.value], sep));
        if number.None? || set_.None? then None else Some((set_.value, number.value))
  }

  // ---- Round trip ----

  // Some character of the separator is in no name, nor in "to".
  predicate SeparatorFits(set_: SetName, sep: string, c: char) {
    c in sep && Free(set_.volume, c) && Free(set_.source, c) && Free(set_.base, c) && Free("to", c)
  }

  predicate ValidSet(set_: SetName) {
    set_.volume != "" && set_.base != "" && set_.volume[0] != '/'
  }

  predicate ValidCompressor(compressor: string) {
    Free(compressor, '.') && compressor != "zstream" && compressor != "pgp"
  }

  // The extensions after the marker, the volume number last.
  function Tail(extensions: seq<string>, number: nat): (r: seq<string>)
    ensures |r| == |extensions| + 1
  {
    extensions + ["vol" + Digits(number)]
  }

  lemma {:induction false} JoinLast(parts: seq<string>, last: string, more: string, sep: string)
    ensures Join(parts + [last], sep) + more == Join(parts + [last + more], sep)
  {
    if parts == [] {
      assert parts + [last] == [last] && parts + [last + more] == [last + more];
    } else {
      JoinLast(parts[1..], last, more, sep);
      assert (parts + [last])[1..] == parts[1..] + [last];
      assert (parts + [last + more])[1..] == parts[1..] + [last + more];
    }
  }

  lemma JoinMarked(tail: seq<string>)
    requires tail != []
    ensures Join(["zstream"] + tail, ".") == Marker[1..] + Join(tail, ".")
  {
    assert (["zstream"] + tail)[1..] == tail;
    assert "zstream" + "." == Marker[1..];
  }

  lemma VolumeNameForm(set_: SetName, sep: string, compressor: string, pgp: bool, number: nat)
    ensures VolumeName(set_, sep, compressor, pgp, number)
      == Join(NameParts(set_), sep) + Marker + Join(Tail(Extensions(compressor, pgp), number), ".")
  {
    var extensions, head := Extensions(compressor, pgp), Join(NameParts(set_), sep);
    JoinLast(["zstream"] + extensions, "vol", Digits(number), ".");
    assert ["zstream"] + extensions + ["vol" + Digits(number)] == ["zstream"] + Tail(extensions, number);
    JoinMarked(Tail(extensions, number));
    var prefix, tail := Join(["zstream"] + extensions + ["vol"], "."), Join(Tail(extensions, number), ".");
    assert (head + "." + prefix) + Digits(number) == head + "." + (prefix + Digits(number));
    assert "." + Marker[1..] == Marker;
    assert head + "." + (Marker[1..] + tail) == head + ("." + Marker[1..]) + tail;
  }

  // A dotless part that starts "zstream." is "zstream", with more after it.
  lemma StartsMarked(part: string, rest: string)
    requires Free(part, '.') && (rest == "" || rest[0] == '.')
    requires "zstream." <= part + rest
    ensures part == "zstream" && rest != ""
  {
    var s, w := part + rest, "zstream.";
    assert forall i :: 0 <= i < 8 ==> s[i] == w[i];
    assert w[7] == '.' && forall i :: 0 <= i < 7 ==> w[i] != '.';
    assert |part| < 8 ==> s[|part|] == '.';
    assert |part| == 7;
    assert part == s[..7] == w[..7];
  }

  predicate AllDotless(parts: seq<string>) {
    AllFree(parts, '.')
  }

  // Dotless parts joined by dots hold the marker only around a part "zstream" in the middle.
  lemma {:induction false} NoMarker(parts: seq<string>, i: nat)
    requires parts != [] && AllDotless(parts)
    requires forall k :: 1 <= k < |parts| - 1 ==> parts[k] != "zstream"
    ensures !OccursAt(Join(parts, "."), Marker, i)
    decreases |parts|
  {
    var s, a := Join(parts, "."), parts[0];
    assert a in parts;
    if OccursAt(s, Marker, i) {
      OccurrenceHas(s, Marker, i, 0);
      if i > |a| {
        var rest := Join(parts[1..], ".");
        assert s == a + "." + rest;
        assert s[i..i + 9] == rest[i - |a| - 1..i - |a| - 1 + 9];
        NoMarker(parts[1..], i - |a| - 1);
      } else if i == |a| {
        NoMarkerHere(parts);
      }
    }
  }

  lemma MarkedRest(a: string, rest: string)
    requires OccursAt(a + "." + rest, Marker, |a|)
    ensures "zstream." <= rest
  {
    var s := a + "." + rest;
    assert s[|a|..|a| + 9] == Marker;
    assert forall i :: 0 <= i < 8 ==> rest[i] == s[|a|..|a| + 9][i + 1];
    assert forall i :: 0 <= i < 8 ==> "zstream."[i] == Marker[i + 1];
  }

  lemma NoMarkerHere(parts: seq<string>)
    requires |parts| >= 1 && AllDotless(parts)
    requires forall k :: 1 <= k < |parts| - 1 ==> parts[k] != "zstream"
    ensures !OccursAt(Join(parts, "."), Marker, |parts[0]|)
  {
    var s, a := Join(parts, "."), parts[0];
    if |parts| > 1 && OccursAt(s, Marker, |a|) {
      var rest := Join(parts[1..], ".");
      assert s == a + "." + rest;
      MarkedRest(a, rest);
      assert parts[1] in parts;
      var tail := if |parts| == 2 then "" else "." + Join(parts[2..], ".");
      assert parts[1..][1..] == parts[2..];
      assert rest == parts[1] + tail;
      StartsMarked(parts[1], tail);
    }
  }

  // After its first character a string holds what its rest holds.
  lemma InRest(s: string, sub: string, skip: nat, j: nat)
    requires skip <= |s| && skip <= j
    ensures OccursAt(s, sub, j) <==> OccursAt(s[skip..], sub, j - skip)
  {
    if j + |sub| <= |s| {
      assert s[skip..][j - skip..j - skip + |sub|] == s[j..j + |sub|];
    }
  }

  lemma RestAfterMarker(head: string, rest: string)
    ensures (head + Marker + rest)[|head| + 1..] == Marker[1..] + rest
  {
  }

  lemma MarkedParts(tail: seq<string>)
    requires tail != [] && AllDotless(tail) && forall k :: 0 <= k < |tail| - 1 ==> tail[k] != "zstream"
    ensures AllDotless(["zstream"] + tail)
    ensures forall k :: 1 <= k < |["zstream"] + tail| - 1 ==> (["zstream"] + tail)[k] != "zstream"
  {
  }

  lemma NoLaterMarker(head: string, tail: seq<string>, j: nat)
    requires tail != [] && AllDotless(tail) && j > |head|
    requires forall k :: 0 <= k < |tail| - 1 ==> tail[k] != "zstream"
    ensures !OccursAt(head + Marker + Join(tail, "."), Marker, j)
  {
    hide OccursAt, Join, AllDotless;
    var s := head + Marker + Join(tail, ".");
    MarkedParts(tail);
    NoMarker(["zstream"] + tail, j - |head| - 1);
    JoinMarked(tail);
    RestAfterMarker(head, Join(tail, "."));
    InRest(s, Marker, |head| + 1, j);
  }

  // The last marker in a volume name is the one after the set.
  lemma LastMarker(head: string, tail: seq<string>)
    requires tail != [] && AllDotless(tail) && forall k :: 0 <= k < |tail| - 1 ==> tail[k] != "zstream"
    ensures LastIndex(head + Marker + Join(tail, "."), Marker) == Some(|head|)
  {
    hide OccursAt, Join, AllDotless, LastIndex;
    Follows(head, Marker, Join(tail, "."));
    var name := head + Marker + Join(tail, ".");
    forall j: nat | j > |head|
      ensures !OccursAt(name, Marker, j)
    {
      NoLaterMarker(head, tail, j);
    }
    LastIndexIs(name, Marker, |head|);
  }

  lemma ExtensionsFit(compressor: string, pgp: bool, number: nat)
    requires ValidCompressor(compressor)
    ensures var extensions := Extensions(compressor, pgp);
      && ValidExtensions(extensions) && AllDotless(Tail(extensions, number))
      && forall k :: 0 <= k < |extensions| ==> extensions[k] != "zstream"
  {
    var last := "vol" + Digits(number);
    assert Free(last, '.');
  }

  lemma ParseTail(extensions: seq<string>, number: nat)
    requires ValidExtensions(extensions) && AllDotless(Tail(extensions, number)) && 1 <= number <= MaxNumber
    ensures ParseExtensions(Join(Tail(extensions, number), ".")) == Some(number)
  {
    hide Join, Split, Digits;
    var tail := Tail(extensions, number);
    SplitJoin(tail, ".", '.');
    assert tail[..|tail| - 1] == extensions;
    var last := tail[|tail| - 1];
    assert last[..3] == "vol" && last[3..] == Digits(number);
    ValueOfDigits(number);
  }

  lemma ParseJoined(set_: SetName, sep: string, c: char)
    requires SeparatorFits(set_, sep, c) && ValidSet(set_)
    ensures sep != "" && ParseParts(Split(Join(NameParts(set_), sep), sep)) == Some(set_)
  {
    hide Join, Split;
    SplitJoin(NameParts(set_), sep, c);
  }

  // Reading a built name gives back the set and the number.
  lemma RoundTrip(set_: SetName, sep: string, c: char, compressor: string, pgp: bool, number: nat)
    requires SeparatorFits(set_, sep, c) && ValidSet(set_) && ValidCompressor(compressor) && 1 <= number <= MaxNumber
    ensures ParseVolumeName(VolumeName(set_, sep, compressor, pgp, number), sep) == Some((set_, number))
  {
    hide Join, Split, LastIndex, VolumeName, Digits, ParseExtensions, ParseParts;
    var head, extensions := Join(NameParts(set_), sep), Extensions(compressor, pgp);
    var tail := Tail(extensions, number);
    VolumeNameForm(set_, sep, compressor, pgp, number);
    ExtensionsFit(compressor, pgp, number);
    LastMarker(head, tail);
    ParseTail(extensions, number);
    ParseJoined(set_, sep, c);
    var name := head + Marker + Join(tail, ".");
    assert name[..|head|] == head && name[|head| + |Marker|..] == Join(tail, ".");
  }

  // The extensions are told by the name too.
  lemma SameExtensions(head: string, a: seq<string>, b: seq<string>)
    requires a != [] && b != [] && AllDotless(a) && AllDotless(b)
    requires head + Marker + Join(a, ".") == head + Marker + Join(b, ".")
    ensures a == b
  {
    hide Join, Split;
    var s, t := head + Marker + Join(a, "."), head + Marker + Join(b, ".");
    assert Join(a, ".") == s[|head| + |Marker|..] == t[|head| + |Marker|..] == Join(b, ".");
    SplitJoin(a, ".", '.');
    SplitJoin(b, ".", '.');
  }

  // So two sets, two numbers or two kinds of coding never share an object name.
  lemma NamesAreDistinct(
    a: SetName, b: SetName, sep: string, c: char, compressors: (string, string), pgp: (bool, bool), m: nat, n: nat)
    requires SeparatorFits(a, sep, c) && SeparatorFits(b, sep, c) && ValidSet(a) && ValidSet(b)
    requires ValidCompressor(compressors.0) && ValidCompressor(compressors.1)
    requires 1 <= m <= MaxNumber && 1 <= n <= MaxNumber
    requires a != b || m != n || Extensions(compressors.0, pgp.0) != Extensions(compressors.1, pgp.1)
    ensures VolumeName(a, sep, compressors.0, pgp.0, m) != VolumeName(b, sep, compressors.1, pgp.1, n)
  {
    hide VolumeName, ParseVolumeName, Join, Digits, Extensions;
    RoundTrip(a, sep, c, compressors.0, pgp.0, m);
    RoundTrip(b, sep, c, compressors.1, pgp.1, n);
    if a == b && m == n {
      var x, y := Extensions(compressors.0, pgp.0), Extensions(compressors.1, pgp.1);
      ExtensionsFit(compressors.0, pgp.0, n);
      ExtensionsFit(compressors.1, pgp.1, n);
      VolumeNameForm(a, sep, compressors.0, pgp.0, n);
      VolumeNameForm(a, sep, compressors.1, pgp.1, n);
      if VolumeName(a, sep, compressors.0, pgp.0, n) == VolumeName(a, sep, compressors.1, pgp.1, n) {
        SameExtensions(Join(NameParts(a), sep), Tail(x, n), Tail(y, n));
        TailTells(x, y, n);
      }
    }
  }

  lemma TailTells(x: seq<string>, y: seq<string>, n: nat)
    requires Tail(x, n) == Tail(y, n)
    ensures x == y
  {
    assert x == Tail(x, n)[..|x|] && y == Tail(y, n)[..|y|];
  }

  // What is read is what was built: a name parses only if it is the set's parts, the marker, valid
  // extensions and the number, and the set and number are legal.
  lemma ParseIsExact(name: string, sep: string)
    requires ParseVolumeName(name, sep).Some?
    ensures var (set_, number) := ParseVolumeName(name, sep).value;
      && ValidSet(set_) && 1 <= number <= MaxNumber
      && exists extensions: seq<string> ::
        ValidExtensions(extensions) && name == Join(NameParts(set_), sep) + Marker + Join(Tail(extensions, number), ".")
  {
    hide Join, Split, Digits, ValidExtensions, Tail, NameParts;
    var (set_, number) := ParseVolumeName(name, sep).value;
    var at := LastIndex(name, Marker).value;
    var head, text := name[..at], name[at + |Marker|..];
    assert name == head + Marker + text;
    JoinSplit(head, sep);
    JoinSplit(text, ".");
    PartsOf(Split(head, sep));
    var all := Split(text, ".");
    var extensions := all[..|all| - 1];
    TailOf(all, number);
    assert ValidExtensions(extensions);
    assert name == Join(NameParts(set_), sep) + Marker + Join(Tail(extensions, number), ".");
  }

  lemma PartsOf(parts: seq<string>)
    requires ParseParts(parts).Some?
    ensures NameParts(ParseParts(parts).value) == parts
  {
    assert |parts| == 2 ==> parts == [parts[0], parts[1]];
    assert |parts| == 4 ==> parts == [parts[0], parts[1], parts[2], parts[3]];
  }

  lemma TailOf(all: seq<string>, number: nat)
    requires all != [] && "vol" <= all[|all| - 1] && all[|all| - 1][3..] == Digits(number)
    ensures Tail(all[..|all| - 1], number) == all
  {
    var last := all[|all| - 1];
    assert last == "vol" + last[3..];
    assert all == all[..|all| - 1] + [last];
  }

  // ---- Which separators are safe ----

  predicate Over(s: string, inName: char -> bool) {
    forall i :: 0 <= i < |s| ==> inName(s[i])
  }

  predicate SetOver(set_: SetName, inName: char -> bool) {
    ValidSet(set_) && Over(set_.volume, inName) && Over(set_.source, inName) && Over(set_.base, inName)
  }

  // No two sets over the alphabet share a volume name.
  ghost predicate KeepsApart(sep: string, inName: char -> bool) {
    forall a: SetName, b: SetName, n: nat ::
      SetOver(a, inName) && SetOver(b, inName) && a != b && 1 <= n <= MaxNumber ==>
        VolumeName(a, sep, "", false, n) != VolumeName(b, sep, "", false, n)
  }

  // An incremental a to b and the full of a snapshot whose name spells that out.
  lemma Collision(sep: string)
    ensures Join(NameParts(SetName("d", "a", "b")), sep) ==
      Join(NameParts(SetName("d", "", "a" + sep + "to" + sep + "b")), sep)
  {
    var parts := ["d", "a", "to", "b"];
    assert ["to", "b"][1..] == ["b"] && Join(["to", "b"], sep) == "to" + sep + "b";
    assert ["a", "to", "b"][1..] == ["to", "b"] && Join(["a", "to", "b"], sep) == "a" + sep + ("to" + sep + "b");
    assert parts[1..] == ["a", "to", "b"];
    var full := ["d", "a" + sep + "to" + sep + "b"];
    assert full[1..] == ["a" + sep + "to" + sep + "b"];
    assert "a" + sep + ("to" + sep + "b") == "a" + sep + "to" + sep + "b";
  }

  // A separator is safe exactly when one of its characters is in no dataset or snapshot name. The
  // check of --separator takes a space as such a character, and zfs allows one in names.
  lemma SeparatorSafeIff(sep: string, inName: char -> bool)
    requires Over("abdto", inName)
    ensures KeepsApart(sep, inName) <==> exists c :: c in sep && !inName(c)
  {
    hide VolumeName, Join;
    assert forall i :: 0 <= i < 5 ==> inName("abdto"[i]);
    assert inName('a') && inName('b') && inName('d') && inName('t') && inName('o') by {
      assert "abdto"[0] == 'a' && "abdto"[1] == 'b' && "abdto"[2] == 'd' && "abdto"[3] == 't' && "abdto"[4] == 'o';
    }
    if c :| c in sep && !inName(c) {
      forall a: SetName, b: SetName, n: nat | SetOver(a, inName) && SetOver(b, inName) && a != b && 1 <= n <= MaxNumber
        ensures VolumeName(a, sep, "", false, n) != VolumeName(b, sep, "", false, n)
      {
        ApartBy(a, b, sep, inName, c, n);
      }
    } else {
      CollidingSets(sep, inName);
    }
  }

  lemma ApartBy(a: SetName, b: SetName, sep: string, inName: char -> bool, c: char, n: nat)
    requires SetOver(a, inName) && SetOver(b, inName) && a != b && 1 <= n <= MaxNumber
    requires c in sep && !inName(c) && inName('t') && inName('o')
    ensures VolumeName(a, sep, "", false, n) != VolumeName(b, sep, "", false, n)
  {
    hide VolumeName;
    NamesAreDistinct(a, b, sep, c, ("", ""), (false, false), n, n);
  }

  lemma CollidingSets(sep: string, inName: char -> bool)
    requires inName('a') && inName('b') && inName('d') && inName('t') && inName('o')
    requires forall c :: c in sep ==> inName(c)
    ensures !KeepsApart(sep, inName)
  {
    hide Join, Digits;
    var a, b := SetName("d", "a", "b"), SetName("d", "", "a" + sep + "to" + sep + "b");
    Collision(sep);
    assert VolumeName(a, sep, "", false, 1) == VolumeName(b, sep, "", false, 1);
    var base := b.base;
    forall i | 0 <= i < |base|
      ensures inName(base[i])
    {
      assert base[i] in "a" || base[i] in sep || base[i] in "to" || base[i] in "b";
    }
    assert SetOver(a, inName) && SetOver(b, inName) && a != b;
  }

  // What the program takes for the characters of dataset and snapshot names.
  predicate InDatasetName(c: char) {
    'a' <= c <= 'z' || 'A' <= c <= 'Z' || '0' <= c <= '9' || c in "_-:./"
  }

  // The check of --separator: some character outside those.
  predicate SeparatorAccepted(sep: string) {
    exists i :: 0 <= i < |sep| && !InDatasetName(sep[i])
  }

  // What zfs allows in the names of datasets and snapshots: a space, too.
  predicate InZfsName(c: char) {
    InDatasetName(c) || c == ' '
  }

  // An accepted separator is safe exactly when it has a character that is neither in the check's
  // class nor a space.
  lemma AcceptedSafeIff(sep: string)
    requires SeparatorAccepted(sep)
    ensures KeepsApart(sep, InZfsName) <==> exists c :: c in sep && !InDatasetName(c) && c != ' '
  {
    hide KeepsApart;
    SeparatorSafeIff(sep, InZfsName);
  }

  lemma SpaceIsAcceptedButUnsafe()
    ensures SeparatorAccepted(" ") && !KeepsApart(" ", InZfsName)
  {
    hide KeepsApart;
    assert !InDatasetName(" "[0]);
    AcceptedSafeIff(" ");
  }

  // ---- Manifests ----

  function ManifestExtensions(pgp: bool): (r: string) {
    if pgp then ".manifest.gz.pgp" else ".manifest.gz"
  }

  // manifestObjectName: the prefix, the parts of the set, and the manifest's own compression.
  function ManifestName(set_: SetName, prefix: string, sep: string, pgp: bool): (name: string) {
    Join([prefix] + NameParts(set_), sep) + "." + Join(["manifest"] + Extensions(Internal, pgp), ".")
  }

  lemma ManifestNameForm(set_: SetName, prefix: string, sep: string, pgp: bool)
    ensures ManifestName(set_, prefix, sep, pgp) == prefix + sep + Join(NameParts(set_), sep) + ManifestExtensions(pgp)
  {
    var parts := NameParts(set_);
    assert ([prefix] + parts)[1..] == parts;
    if pgp {
      assert Extensions(Internal, true) == ["gz", "pgp"];
      assert ["gz", "pgp"][1..] == ["pgp"] && Join(["gz", "pgp"], ".") == "gz.pgp";
      assert (["manifest"] + ["gz", "pgp"])[1..] == ["gz", "pgp"];
      assert "." + Join(["manifest"] + ["gz", "pgp"], ".") == ".manifest.gz.pgp";
    } else {
      assert Extensions(Internal, false) == ["gz"];
      assert (["manifest"] + ["gz"])[1..] == ["gz"];
      assert "." + Join(["manifest"] + ["gz"], ".") == ".manifest.gz";
    }
  }

  // A manifest's name tells the set, and whether it is encrypted or signed.
  lemma ManifestNamesAreDistinct(
    a: SetName, b: SetName, prefix: string, sep: string, c: char, pgp: (bool, bool))
    requires SeparatorFits(a, sep, c) && SeparatorFits(b, sep, c) && ValidSet(a) && ValidSet(b)
    requires a != b || pgp.0 != pgp.1
    ensures ManifestName(a, prefix, sep, pgp.0) != ManifestName(b, prefix, sep, pgp.1)
  {
    hide Join, Split, ManifestName, ParseParts;
    ManifestNameForm(a, prefix, sep, pgp.0);
    ManifestNameForm(b, prefix, sep, pgp.1);
    var x, y := Join(NameParts(a), sep), Join(NameParts(b), sep);
    var s, t := prefix + sep + x + ManifestExtensions(pgp.0), prefix + sep + y + ManifestExtensions(pgp.1);
    if s == t {
      assert s[|s| - 1] == ManifestExtensions(pgp.0)[|ManifestExtensions(pgp.0)| - 1];
      assert t[|t| - 1] == ManifestExtensions(pgp.1)[|ManifestExtensions(pgp.1)| - 1];
      var from, to := |prefix| + |sep|, |s| - |ManifestExtensions(pgp.0)|;
      assert x == s[from..to] && y == t[from..to];
      ParseJoined(a, sep, c);
      ParseJoined(b, sep, c);
    }
  }

  // No manifest has the name of a volume: that ends in a digit.
  lemma ManifestIsNoVolume(
    a: SetName, b: SetName, prefix: string, sep: string, compressor: string, pgp: (bool, bool), n: nat)
    ensures ManifestName(a, prefix, sep, pgp.0) != VolumeName(b, sep, compressor, pgp.1, n)
  {
    hide Join, ManifestName;
    ManifestNameForm(a, prefix, sep, pgp.0);
    var s, t := ManifestName(a, prefix, sep, pgp.0), VolumeName(b, sep, compressor, pgp.1, n);
    assert s[|s| - 1] == ManifestExtensions(pgp.0)[|ManifestExtensions(pgp.0)| - 1];
    assert t[|t| - 1] == Digits(n)[|Digits(n)| - 1];
  }

  // The extensions a name may be read with: none empty, one for the compression at most, and the one
  // for encryption or signing last.
  lemma ReadExtensions(name: string, sep: string)
    requires ParseVolumeName(name, sep).Some?
    ensures var (set_, number) := ParseVolumeName(name, sep).value;
      exists extensions: seq<string> ::
        && |extensions| <= 2 && (forall x :: x in extensions ==> x != "")
        && (|extensions| == 2 ==> extensions[0] != "pgp" && extensions[1] == "pgp")
        && name == Join(NameParts(set_), sep) + Marker + Join(Tail(extensions, number), ".")
  {
    hide Join, ParseVolumeName, NameParts, Tail;
    ParseIsExact(name, sep);
  }

  // ---- How names look ----

  lemma FullLooks(volume: string, base: string)
    ensures VolumeName(SetName(volume, "", base), "|", Internal, true, 12) ==
      volume + "|" + base + ".zstream.gz.pgp.vol12"
    ensures ManifestName(SetName(volume, "", base), "manifests", "|", true) ==
      "manifests|" + volume + "|" + base + ".manifest.gz.pgp"
  {
    hide ManifestName, Digits;
    var set_ := SetName(volume, "", base);
    assert NameParts(set_)[1..] == [base];
    ManifestNameForm(set_, "manifests", "|", true);
    assert "manifests" + "|" == "manifests|";
    assert ("manifests|" + (volume + "|" + base)) + ".manifest.gz.pgp"
      == "manifests|" + volume + "|" + base + ".manifest.gz.pgp";
    VolumeLooks(set_, volume + "|" + base);
  }

  lemma IncrementalLooks(volume: string, source: string, base: string)
    requires source != ""
    ensures VolumeName(SetName(volume, source, base), "|", Internal, true, 12) ==
      volume + "|" + source + "|to|" + base + ".zstream.gz.pgp.vol12"
  {
    hide Digits;
    var set_ := SetName(volume, source, base);
    assert NameParts(set_)[1..] == [source, "to", base] && NameParts(set_)[1..][1..] == ["to", base];
    assert ["to", base][1..] == [base];
    assert Join(["to", base], "|") == "to" + "|" + base;
    assert "|" + ("to" + "|" + base) == "|to|" + base;
    assert Join(NameParts(set_), "|") == volume + "|" + source + "|to|" + base;
    VolumeLooks(set_, volume + "|" + source + "|to|" + base);
  }

  lemma VolumeLooks(set_: SetName, head: string)
    requires Join(NameParts(set_), "|") == head
    ensures VolumeName(set_, "|", Internal, true, 12) == head + ".zstream.gz.pgp.vol12"
  {
    hide Digits, NameParts, Join, VolumeName, Extensions;
    VolumeNameForm(set_, "|", Internal, true, 12);
    ExtensionsLook();
    MarkerLooks();
    assert head + Marker + "gz.pgp.vol12" == head + (Marker + "gz.pgp.vol12");
  }

  lemma MarkerLooks()
    ensures Marker + "gz.pgp.vol12" == ".zstream.gz.pgp.vol12"
  {
  }

  lemma ExtensionsLook()
    ensures Join(Tail(Extensions(Internal, true), 12), ".") == "gz.pgp.vol12"
  {
    hide Digits;
    TwelveIs();
    var tail := Tail(["gz", "pgp"], 12);
    assert Extensions(Internal, true) == ["gz", "pgp"];
    assert tail == ["gz", "pgp", "vol12"] && tail[1..] == ["pgp", "vol12"] && tail[1..][1..] == ["vol12"];
    assert "gz" + "." + ("pgp" + "." + "vol12") == "gz.pgp.vol12";
  }

  lemma TwelveIs()
    ensures "vol" + Digits(12) == "vol12"
  {
    assert Digits(1) == "1" && DigitChar(1) == '1' && DigitChar(2) == '2';
    assert Digits(12) == "1" + "2";
  }

  lemma DatasetNameLetters(c: char)
    ensures InDatasetName(c) <==>
      c in "abcdefghijklmnopqrstuvwxyz" || c in "ABCDEFGHIJKLMNOPQRSTUVWXYZ" || c in "0123456789" || c in "_-:./"
  {
    LettersBetween("abcdefghijklmnopqrstuvwxyz", c);
    LettersBetween("ABCDEFGHIJKLMNOPQRSTUVWXYZ", c);
    LettersBetween("0123456789", c);
  }

  // Consecutive letters.
  lemma LettersBetween(s: string, c: char)
    requires s != "" && forall i :: 0 <= i < |s| - 1 ==> s[i + 1] as int == s[i] as int + 1
    ensures c in s <==> s[0] <= c <= s[|s| - 1]
  {
    forall i | 0 <= i < |s|
      ensures s[i] as int == s[0] as int + i
    {
      LetterAt(s, i);
    }
    if s[0] <= c <= s[|s| - 1] {
      var i := c as int - s[0] as int;
      assert s[i] == c;
    }
  }

  lemma {:induction false} LetterAt(s: string, i: nat)
    requires i < |s| && forall j :: 0 <= j < |s| - 1 ==> s[j + 1] as int == s[j] as int + 1
    ensures s[i] as int == s[0] as int + i
  {
    if i > 0 {
      LetterAt(s, i - 1);
      assert s[i - 1 + 1] as int == s[i - 1] as int + 1;
    }
  }
}
