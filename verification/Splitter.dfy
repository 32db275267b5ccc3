// Cutting the zfs stream into volumes, from its start or after the volumes a resume keeps.
module Splitter {
  import opened Common
  import opened Manifests

  const KiB := 1024
  const MiB := 1024 * 1024
  const Chunk := 512 * KiB

  // A volume as the splitter hands it on: what was written to it, and what it records.
  datatype Cut = Cut(number: nat, plain: Bytes, streamBytes: nat, streamSha256: Bytes)

  // How many bytes a volume's file has once some of the stream was written to it. Without
  // compression and encryption these are the bytes themselves.
  type Counter = (nat, Bytes) -> nat

  function CutLimit(volsize: nat): (limit: int) {
    volsize * MiB - 50 * KiB
  }

  // ---- The volumes kept ----

  predicate Contiguous(volumes: seq<VolumeInfo>) {
    forall i :: 0 <= i < |volumes| ==> volumes[i].number == i + 1
  }

  // totalBytesStreamedAndVols: the volumes before the first out of order number, their bytes, and
  // the number that follows them.
  method TotalBytesStreamedAndVols(volumes: seq<VolumeInfo>) returns (total: nat, volnum: nat, kept: seq<VolumeInfo>)
    ensures kept <= volumes && Contiguous(kept)
    ensures |kept| < |volumes| ==> volumes[|kept|].number != |kept| + 1
    ensures total == StreamBytes(kept) && volnum == |kept| + 1
  {
    total, volnum := 0, 1;
    while volnum - 1 < |volumes| && volumes[volnum - 1].number == volnum
      invariant 1 <= volnum <= |volumes| + 1
      invariant Contiguous(volumes[..volnum - 1])
      invariant total == StreamBytes(volumes[..volnum - 1])
    {
      assert volumes[..volnum][..volnum - 1] == volumes[..volnum - 1];
      total := total + volumes[volnum - 1].streamBytes;
      volnum := volnum + 1;
    }
    kept := volumes[..volnum - 1];
  }

  // ---- The volumes cut ----

  function Plains(cuts: seq<Cut>): (r: seq<Bytes>)
    ensures |r| == |cuts| && forall i :: 0 <= i < |cuts| ==> r[i] == cuts[i].plain
  {
    seq(|cuts|, i requires 0 <= i < |cuts| => cuts[i].plain)
  }

  // What the first n volumes hold together.
  function Through(cuts: seq<Cut>, n: nat): (r: Bytes)
    requires n <= |cuts|
  {
    Concat(Plains(cuts)[..n])
  }

  // The volume was not over the limit at any earlier write.
  predicate Shortest(c: Cut, limit: int, count: Counter) {
    forall j :: 0 < j < |c.plain| && j % Chunk == 0 ==> count(c.number, c.plain[..j]) < limit
  }

  // It was cut because it reached the limit, at the end of a write.
  predicate Reached(c: Cut, limit: int, count: Counter) {
    |c.plain| > 0 && |c.plain| % Chunk == 0 && count(c.number, c.plain) >= limit
  }

  ghost predicate Records(w: World, c: Cut, before: Bytes) {
    c.streamBytes == |c.plain| && c.streamSha256 == w.sha(before + c.plain)
  }

  // The i-th cut is numbered on from `number`, records its size and the hash of the stream through
  // it, and was cut at its first write over the limit.
  ghost predicate Tile(
    w: World, cuts: seq<Cut>, i: nat, stream: Bytes, from: nat, number: nat, limit: int, count: Counter)
    requires from <= |stream| && i < |cuts|
  {
    && cuts[i].number == number + i
    && Records(w, cuts[i], stream[..from] + Through(cuts, i))
    && Shortest(cuts[i], limit, count)
  }

  ghost predicate Tiles(w: World, cuts: seq<Cut>, stream: Bytes, from: nat, number: nat, limit: int, count: Counter)
    requires from <= |stream|
  {
    forall i: nat :: i < |cuts| ==> Tile(w, cuts, i, stream, from, number, limit, count)
  }

  lemma ThroughPrefix(cuts: seq<Cut>, c: Cut, i: nat)
    requires i <= |cuts|
    ensures Through(cuts + [c], i) == Through(cuts, i)
  {
    assert Plains(cuts + [c])[..i] == Plains(cuts)[..i];
  }

  lemma ThroughAll(cuts: seq<Cut>, c: Cut)
    ensures Through(cuts + [c], |cuts| + 1) == Through(cuts, |cuts|) + c.plain
  {
    var all := Plains(cuts + [c]);
    assert all[..|cuts| + 1][..|cuts|] == Plains(cuts)[..|cuts|];
    assert all[..|cuts| + 1][|cuts|] == c.plain;
  }

  lemma TilesMore(
    w: World, cuts: seq<Cut>, c: Cut, stream: Bytes, from: nat, to: nat, number: nat, limit: int, count: Counter)
    requires from <= to <= to + |c.plain| <= |stream| && Tiles(w, cuts, stream, from, number, limit, count)
    requires Through(cuts, |cuts|) == stream[from..to] && c.plain == stream[to..to + |c.plain|]
    requires c.number == number + |cuts| && Shortest(c, limit, count)
    requires c.streamBytes == |c.plain| && c.streamSha256 == w.sha(stream[..to + |c.plain|])
    ensures Tiles(w, cuts + [c], stream, from, number, limit, count)
    ensures Through(cuts + [c], |cuts| + 1) == stream[from..to + |c.plain|]
  {
    hide Through, Shortest;
    var all := cuts + [c];
    ThroughAll(cuts, c);
    assert stream[from..to] + c.plain == stream[from..to + |c.plain|];
    assert (stream[..from] + stream[from..to]) + c.plain == stream[..to + |c.plain|];
    forall i: nat | i < |all|
      ensures Tile(w, all, i, stream, from, number, limit, count)
    {
      ThroughPrefix(cuts, c, i);
      if i < |cuts| {
        assert Tile(w, cuts, i, stream, from, number, limit, count);
      }
    }
  }

  // ---- The splitter ----

  // Where a stream that is read to `pos` stands when it is cut from `from` on.
  ghost predicate Cutting(
    w: World, sent: seq<Cut>, open: Option<Cut>, stream: Bytes, from: nat, last: nat, pos: nat, number: nat, limit: int,
    count: Counter)
  {
    && from <= last <= pos <= |stream|
    && Tiles(w, sent, stream, from, number, limit, count)
    && Through(sent, |sent|) == stream[from..last]
    && (forall i :: 0 <= i < |sent| ==> Reached(sent[i], limit, count))
    && (open.None? ==> sent == [] && pos == last)
    && (open.Some? ==>
      && open.value.number == number + |sent| && open.value.plain == stream[last..pos]
      && |open.value.plain| > 0 && |open.value.plain| % Chunk == 0 && Shortest(open.value, limit, count))
  }

  // What a run cuts: the whole rest of the stream, with every volume but the last over the limit.
  ghost predicate CutsRest(w: World, sent: seq<Cut>, stream: Bytes, from: nat, number: nat, limit: int, count: Counter)
  {
    && from <= |stream|
    && Tiles(w, sent, stream, from, number, limit, count)
    && Through(sent, |sent|) == stream[from..]
    && (forall i :: 0 <= i < |sent| - 1 ==> Reached(sent[i], limit, count))
    && (forall i :: 0 <= i < |sent| ==> sent[i].plain != [] || (|sent| == 1 && from == |stream| && number == 1))
    && (number == 1 ==> sent != [])
  }

  lemma CloseOpen(
    w: World, sent: seq<Cut>, open: Cut, stream: Bytes, from: nat, last: nat, pos: nat, number: nat, limit: int,
    count: Counter)
    requires Cutting(w, sent, Some(open), stream, from, last, pos, number, limit, count)
    requires count(open.number, open.plain) >= limit
    ensures var c := open.(streamBytes := pos - last, streamSha256 := w.sha(stream[..pos]));
      && Tiles(w, sent + [c], stream, from, number, limit, count)
      && Through(sent + [c], |sent| + 1) == stream[from..pos]
      && (forall i :: 0 <= i < |sent| + 1 ==> Reached((sent + [c])[i], limit, count))
  {
    hide Tiles, Through;
    var c := open.(streamBytes := pos - last, streamSha256 := w.sha(stream[..pos]));
    TilesMore(w, sent, c, stream, from, last, number, limit, count);
  }

  // A write extends the open volume, which was under the limit.
  lemma Extended(open: Cut, more: Bytes, limit: int, count: Counter)
    requires Shortest(open, limit, count) && |open.plain| % Chunk == 0 && |more| <= Chunk
    requires open.plain == [] || count(open.number, open.plain) < limit
    ensures Shortest(open.(plain := open.plain + more), limit, count)
  {
    var all := open.plain + more;
    forall j | 0 < j < |all| && j % Chunk == 0
      ensures count(open.number, all[..j]) < limit
    {
      if j < |open.plain| {
        assert all[..j] == open.plain[..j];
      } else {
        assert all[..j] == open.plain;
      }
    }
  }

  // The same once a volume is open that takes the next write.
  ghost predicate Writing(
    w: World, sent: seq<Cut>, open: Cut, stream: Bytes, from: nat, last: nat, pos: nat, number: nat, limit: int,
    count: Counter)
  {
    && from <= last <= pos <= |stream|
    && Tiles(w, sent, stream, from, number, limit, count)
    && Through(sent, |sent|) == stream[from..last]
    && (forall i :: 0 <= i < |sent| ==> Reached(sent[i], limit, count))
    && open.number == number + |sent| && open.plain == stream[last..pos]
    && |open.plain| % Chunk == 0 && Shortest(open, limit, count)
    && (open.plain != [] ==> count(open.number, open.plain) < limit)
    && (open.plain == [] ==> pos < |stream| || (sent == [] && number == 1 && from == |stream|))
  }

  function Closed(w: World, open: Cut, stream: Bytes, last: nat, pos: nat): (c: Cut)
    requires last <= pos <= |stream|
  {
    open.(streamBytes := pos - last, streamSha256 := w.sha(stream[..pos]))
  }

  lemma Starts(w: World, stream: Bytes, from: nat, number: nat, limit: int, count: Counter)
    requires from <= |stream|
    ensures Cutting(w, [], None, stream, from, from, from, number, limit, count)
  {
  }

  lemma WroteChunk(
    w: World, sent: seq<Cut>, open: Cut, stream: Bytes, from: nat, last: nat, pos: nat, number: nat, limit: int,
    count: Counter)
    requires Writing(w, sent, open, stream, from, last, pos, number, limit, count) && pos + Chunk <= |stream|
    ensures Cutting(w, sent, Some(open.(plain := open.plain + stream[pos..pos + Chunk])), stream, from, last,
      pos + Chunk, number, limit, count)
  {
    hide Tiles, Through, Shortest;
    assert stream[last..pos] + stream[pos..pos + Chunk] == stream[last..pos + Chunk];
    Extended(open, stream[pos..pos + Chunk], limit, count);
  }

  lemma WroteLast(
    w: World, sent: seq<Cut>, open: Cut, stream: Bytes, from: nat, last: nat, pos: nat, number: nat, limit: int,
    count: Counter)
    requires Writing(w, sent, open, stream, from, last, pos, number, limit, count) && |stream| < pos + Chunk
    ensures var c := Closed(w, open.(plain := open.plain + stream[pos..]), stream, last, |stream|);
      CutsRest(w, sent + [c], stream, from, number, limit, count)
  {
    hide Tiles, Through;
    assert stream[from..|stream|] == stream[from..] && stream[last..|stream|] == stream[last..];
    assert stream[last..pos] + stream[pos..] == stream[last..];
    Extended(open, stream[pos..], limit, count);
    var c := Closed(w, open.(plain := open.plain + stream[pos..]), stream, last, |stream|);
    TilesMore(w, sent, c, stream, from, last, number, limit, count);
  }

  lemma EndsAtCut(
    w: World, sent: seq<Cut>, stream: Bytes, from: nat, number: nat, limit: int, count: Counter)
    requires from <= |stream| && Tiles(w, sent, stream, from, number, limit, count)
    requires Through(sent, |sent|) == stream[from..|stream|]
    requires (forall i :: 0 <= i < |sent| ==> Reached(sent[i], limit, count)) && (number == 1 ==> sent != [])
    ensures CutsRest(w, sent, stream, from, number, limit, count)
  {
    hide Tiles, Through;
    assert stream[from..|stream|] == stream[from..];
  }

  lemma Opens(
    w: World, sent: seq<Cut>, stream: Bytes, from: nat, pos: nat, number: nat, limit: int, count: Counter)
    requires from <= pos <= |stream| && Tiles(w, sent, stream, from, number, limit, count)
    requires Through(sent, |sent|) == stream[from..pos]
    requires forall i :: 0 <= i < |sent| ==> Reached(sent[i], limit, count)
    requires pos < |stream| || (sent == [] && number == 1 && from == pos)
    ensures Writing(w, sent, Cut(number + |sent|, [], 0, []), stream, from, pos, pos, number, limit, count)
  {
    hide Tiles, Through;
  }

  // sendStream, from byte `from` of the stream on. A stream that does not end cleanly ends in a
  // read error.
  method CutRest(w: World, stream: Bytes, clean: bool, from: nat, number: nat, volsize: nat, count: Counter)
    returns (sent: seq<Cut>, ok: bool)
    requires from <= |stream| && number >= 1
    ensures ok <==> clean
    ensures ok ==> CutsRest(w, sent, stream, from, number, CutLimit(volsize), count)
    ensures Tiles(w, sent, stream, from, number, CutLimit(volsize), count) && Through(sent, |sent|) <= stream[from..]
  {
    hide Tiles, Through, Shortest, Reached;
    var limit := CutLimit(volsize);
    var pos, last: nat, open: Option<Cut> := from, from, None;
    sent := [];
    Starts(w, stream, from, number, limit, count);
    while true
      invariant Cutting(w, sent, open, stream, from, last, pos, number, limit, count)
      decreases |stream| - pos
    {
      if open.None? || count(open.value.number, open.value.plain) >= limit {
        var starting := open.None?;
        if open.Some? {
          CloseOpen(w, sent, open.value, stream, from, last, pos, number, limit, count);
          sent := sent + [Closed(w, open.value, stream, last, pos)];
          last := pos;
        }
        if (!starting || number > 1) && pos == |stream| {
          EndsAtCut(w, sent, stream, from, number, limit, count);
          return sent, clean;
        }
        Opens(w, sent, stream, from, pos, number, limit, count);
        open := Some(Cut(number + |sent|, [], 0, []));
      }
      assert Writing(w, sent, open.value, stream, from, last, pos, number, limit, count);
      if |stream| - pos < Chunk {
        WroteLast(w, sent, open.value, stream, from, last, pos, number, limit, count);
        if clean {
          open := Some(open.value.(plain := open.value.plain + stream[pos..]));
          sent := sent + [Closed(w, open.value, stream, last, |stream|)];
        }
        return sent, clean;
      }
      WroteChunk(w, sent, open.value, stream, from, last, pos, number, limit, count);
      open := Some(open.value.(plain := open.value.plain + stream[pos..pos + Chunk]));
      pos := pos + Chunk;
    }
  }

  // ---- Resuming ----

  // plains is what the volumes a resume keeps hold: the parts of an interrupted attempt's stream.
  ghost predicate KeptParts(w: World, kept: seq<VolumeInfo>, plains: seq<Bytes>) {
    && |plains| == |kept|
    && forall i :: 0 <= i < |kept| ==>
      kept[i].streamBytes == |plains[i]| && kept[i].streamSha256 == w.sha(Concat(plains[..i + 1]))
  }

  lemma {:induction false} KeptBytes(w: World, kept: seq<VolumeInfo>, plains: seq<Bytes>)
    requires KeptParts(w, kept, plains)
    ensures StreamBytes(kept) == |Concat(plains)|
  {
    if kept != [] {
      var n := |kept| - 1;
      forall i | 0 <= i < n
        ensures kept[..n][i].streamBytes == |plains[..n][i]|
        ensures kept[..n][i].streamSha256 == w.sha(Concat(plains[..n][..i + 1]))
      {
        assert plains[..n][..i + 1] == plains[..i + 1];
      }
      KeptBytes(w, kept[..n], plains[..n]);
    }
  }

  // The volumes of a genuine manifest before the first gap are such parts.
  lemma GenuineKept(w: World, m: Manifest, plains: seq<Bytes>, blobs: seq<Bytes>, kept: seq<VolumeInfo>)
    requires GenuineBy(w, m, plains, blobs) && kept <= m.volumes && Contiguous(kept)
    ensures |kept| <= |plains| && KeptParts(w, kept, plains[..|kept|])
  {
    if kept != [] {
      assert kept[|kept| - 1] in m.volumes;
    }
    forall i | 0 <= i < |kept|
      ensures kept[i].streamBytes == |plains[..|kept|][i]|
      ensures kept[i].streamSha256 == w.sha(Concat(plains[..|kept|][..i + 1]))
    {
      assert kept[i] in m.volumes;
      assert plains[..|kept|][..i + 1] == plains[..i + 1];
    }
  }

  // The stream starts with what the kept volumes recorded, as far as its hash tells.
  predicate StartsAsKept(w: World, kept: seq<VolumeInfo>, stream: Bytes) {
    var skip := StreamBytes(kept);
    skip <= |stream| && (skip > 0 ==> kept != [] && w.sha(stream[..skip]) == kept[|kept| - 1].streamSha256)
  }

  lemma KeptAreThePrefix(w: World, kept: seq<VolumeInfo>, plains: seq<Bytes>, stream: Bytes)
    requires Sound(w) && KeptParts(w, kept, plains) && StartsAsKept(w, kept, stream)
    ensures Concat(plains) == stream[..StreamBytes(kept)]
  {
    KeptBytes(w, kept, plains);
    if StreamBytes(kept) > 0 {
      assert plains[..|kept| - 1 + 1] == plains;
    }
  }

  // A resume goes on exactly when the stream starts with what the kept volumes hold; that may be all
  // of it.
  lemma StartsAsKeptIff(w: World, kept: seq<VolumeInfo>, plains: seq<Bytes>, stream: Bytes)
    requires Sound(w) && KeptParts(w, kept, plains)
    ensures StartsAsKept(w, kept, stream) <==> Concat(plains) <= stream
  {
    KeptBytes(w, kept, plains);
    if StartsAsKept(w, kept, stream) {
      KeptAreThePrefix(w, kept, plains, stream);
    }
    if Concat(plains) <= stream {
      assert stream[..StreamBytes(kept)] == Concat(plains);
      assert kept != [] ==> plains[..|kept| - 1 + 1] == plains;
    }
  }

  // sendStream: skip what the kept volumes hold, check that it is that, cut the rest.
  method SendStream(w: World, volumes: seq<VolumeInfo>, stream: Bytes, clean: bool, volsize: nat, count: Counter)
    returns (kept: seq<VolumeInfo>, sent: seq<Cut>, ok: bool)
    ensures kept <= volumes && Contiguous(kept) && (|kept| < |volumes| ==> volumes[|kept|].number != |kept| + 1)
    ensures ok <==> clean && StartsAsKept(w, kept, stream)
    ensures ok ==> CutsRest(w, sent, stream, StreamBytes(kept), |kept| + 1, CutLimit(volsize), count)
    ensures sent != [] ==> StartsAsKept(w, kept, stream)
    ensures StartsAsKept(w, kept, stream) ==>
      && Tiles(w, sent, stream, StreamBytes(kept), |kept| + 1, CutLimit(volsize), count)
      && Through(sent, |sent|) <= stream[StreamBytes(kept)..]
  {
    hide Tiles, Through, CutsRest;
    var skip, number;
    skip, number, kept := TotalBytesStreamedAndVols(volumes);
    if skip > 0 && (skip > |stream| || kept == [] || w.sha(stream[..skip]) != kept[|kept| - 1].streamSha256) {
      return kept, [], false;
    }
    sent, ok := CutRest(w, stream, clean, skip, number, volsize, count);
  }

  // Kept and new volumes together are the stream, contiguously numbered, each with the hash of
  // the stream through it; none is empty unless the stream is.
  lemma KeptAndCutAreTheStream(
    w: World, kept: seq<VolumeInfo>, plains: seq<Bytes>, sent: seq<Cut>, stream: Bytes, limit: int, count: Counter)
    requires Sound(w) && Contiguous(kept) && KeptParts(w, kept, plains) && StartsAsKept(w, kept, stream)
    requires CutsRest(w, sent, stream, StreamBytes(kept), |kept| + 1, limit, count)
    ensures Concat(plains + Plains(sent)) == stream
    ensures forall i :: 0 <= i < |sent| ==>
      && sent[i].number == |kept| + i + 1 && sent[i].streamBytes == |sent[i].plain|
      && sent[i].streamSha256 == w.sha(Concat(plains + Plains(sent)[..i + 1]))
    ensures forall i :: 0 <= i < |sent| && sent[i].plain == [] ==> stream == [] && kept == [] && |sent| == 1
  {
    hide KeptParts, StartsAsKept, Concat, Tiles, Reached;
    KeptAreThePrefix(w, kept, plains, stream);
    var skip, all := StreamBytes(kept), Plains(sent);
    ConcatAppend(plains, all);
    assert all[..|sent|] == all;
    assert stream[..skip] + stream[skip..] == stream;
    forall i: nat | i < |sent|
      ensures sent[i].number == |kept| + i + 1 && sent[i].streamBytes == |sent[i].plain|
      ensures sent[i].streamSha256 == w.sha(Concat(plains + all[..i + 1]))
    {
      CutHash(w, plains, sent, stream, skip, |kept| + 1, limit, count, i);
    }
    assert |kept| == 0 ==> kept == [];
  }

  // Every volume but the last is cut at the end of its first 512 KiB write with which its file has
  // volsize MiB but for 50 KiB, and the last before that.
  lemma CutAtLimit(
    w: World, sent: seq<Cut>, stream: Bytes, from: nat, number: nat, volsize: nat, count: Counter, i: nat, j: nat)
    requires CutsRest(w, sent, stream, from, number, CutLimit(volsize), count) && i < |sent|
    ensures i < |sent| - 1 ==>
      && sent[i].plain != [] && |sent[i].plain| % 524_288 == 0
      && count(sent[i].number, sent[i].plain) >= volsize * 1_048_576 - 51_200
    ensures 0 < j < |sent[i].plain| && j % 524_288 == 0 ==>
      count(sent[i].number, sent[i].plain[..j]) < volsize * 1_048_576 - 51_200
  {
    hide Records, Through;
    assert Tile(w, sent, i, stream, from, number, CutLimit(volsize), count);
    assert CutLimit(volsize) == volsize * 1_048_576 - 51_200;
  }

  lemma CutHash(
    w: World, plains: seq<Bytes>, sent: seq<Cut>, stream: Bytes, skip: nat, number: nat, limit: int, count: Counter,
    i: nat)
    requires skip <= |stream| && Concat(plains) == stream[..skip] && i < |sent|
    requires Tiles(w, sent, stream, skip, number, limit, count)
    ensures sent[i].number == number + i && sent[i].streamBytes == |sent[i].plain|
    ensures sent[i].streamSha256 == w.sha(Concat(plains + Plains(sent)[..i + 1]))
  {
    hide Shortest;
    var all := Plains(sent);
    assert Tile(w, sent, i, stream, skip, number, limit, count);
    ConcatAppend(plains, all[..i + 1]);
    assert all[..i + 1][..i] == all[..i];
    assert Concat(plains) + (Through(sent, i) + sent[i].plain) == (stream[..skip] + Through(sent, i)) + sent[i].plain;
  }

  // ---- Without compression and encryption ----

  ghost predicate Uncoded(count: Counter) {
    forall n: nat, p: Bytes :: count(n, p) == |p|
  }

  // Every volume but the last that a run cuts holds exactly volsize MiB; the last holds no more.
  lemma UncodedVolumes(
    w: World, sent: seq<Cut>, stream: Bytes, from: nat, number: nat, volsize: nat, count: Counter, i: nat)
    requires volsize >= 1 && Uncoded(count) && i < |sent|
    requires CutsRest(w, sent, stream, from, number, CutLimit(volsize), count)
    ensures i < |sent| - 1 ==> |sent[i].plain| == volsize * MiB
    ensures |sent[i].plain| <= volsize * MiB
  {
    hide Through, Shortest, Reached, Records, Uncoded, CutLimit;
    assert Tile(w, sent, i, stream, from, number, CutLimit(volsize), count);
    UncodedVolume(sent[i], volsize, count);
  }

  lemma UncodedVolume(c: Cut, volsize: nat, count: Counter)
    requires volsize >= 1 && Uncoded(count) && Shortest(c, CutLimit(volsize), count)
    ensures |c.plain| <= volsize * MiB
    ensures Reached(c, CutLimit(volsize), count) ==> |c.plain| == volsize * MiB
  {
    hide Shortest, Reached, Uncoded;
    WholeWrites(volsize);
    if |c.plain| > volsize * MiB {
      UnderLimit(c, volsize * MiB, CutLimit(volsize), count);
      assert false;
    }
    if Reached(c, CutLimit(volsize), count) {
      ReachedBytes(c, CutLimit(volsize), count);
      ReachedLength(|c.plain|, volsize);
    }
  }

  lemma WholeWrites(volsize: nat)
    ensures volsize * MiB == 2 * volsize * Chunk && (volsize * MiB) % Chunk == 0
  {
    assert MiB == 1_048_576 && Chunk == 524_288;
    assert (volsize * 1_048_576) % 524_288 == 0;
  }

  lemma ReachedBytes(c: Cut, limit: int, count: Counter)
    requires Uncoded(count) && Reached(c, limit, count)
    ensures |c.plain| % Chunk == 0 && |c.plain| >= limit
  {
  }

  lemma UnderLimit(c: Cut, j: nat, limit: int, count: Counter)
    requires Uncoded(count) && Shortest(c, limit, count) && 0 < j < |c.plain| && j % Chunk == 0
    ensures j < limit
  {
    assert |c.plain[..j]| == j;
  }

  lemma ReachedLength(n: nat, volsize: nat)
    requires n % Chunk == 0 && n >= CutLimit(volsize) && n <= volsize * MiB && volsize >= 1
    ensures n == volsize * MiB
  {
    var k := n / Chunk;
    assert n == k * Chunk && volsize * MiB == 2 * volsize * Chunk;
  }
}
