// What a backup set is made of: the volumes a stream is cut into, the manifest that lists
// them, and what it means for a manifest to describe a stream that zfs really sent.
module Manifests {
  import opened Common

  newtype Byte = x: int | 0 <= x < 256
  type Bytes = seq<Byte>

  // What the name of a manifest object identifies: the dataset, the snapshots, and whether the
  // set is encrypted or signed. The names in the Names module are the strings for these.
  datatype JobId = JobId(dataset: string, source: string, base: string, pgp: bool)

  datatype ObjectName =
    | VolumeObject(job: JobId, compressor: string, number: nat)
    | ManifestObject(job: JobId)

  datatype VolumeInfo = VolumeInfo(
    number: nat, name: ObjectName, size: nat, sha256: Bytes, streamBytes: nat, streamSha256: Bytes)

  // `identity` stands for everything a resume compares besides the compressor: guids, keys and
  // the zfs send command line. `final` is set once the manifest has an end time.
  datatype Manifest = Manifest(
    job: JobId, compressor: string, identity: string, volumes: seq<VolumeInfo>, final: bool)

  // The code this project does not model: reading a stored volume back (decrypt, decompress),
  // the hash, and which byte streams zfs send emits up to a clean end for a job. Encoding is
  // not a function: one stream part has many encodings (session keys), all decoding to it.
  datatype World = World(
    decode: Bytes -> Option<Bytes>, sha: Bytes -> Bytes, whole: (JobId, Bytes) -> bool)

  // SHA-256 taken as collision free.
  ghost predicate Sound(w: World) {
    forall a, b :: w.sha(a) == w.sha(b) ==> a == b
  }

  function Concat(parts: seq<Bytes>): (r: Bytes) {
    if parts == [] then [] else Concat(parts[..|parts| - 1]) + parts[|parts| - 1]
  }

  lemma {:induction false} ConcatAppend(a: seq<Bytes>, b: seq<Bytes>)
    ensures Concat(a + b) == Concat(a) + Concat(b)
  {
    if b == [] {
      assert a + b == a;
    } else {
      var init, last := b[..|b| - 1], b[|b| - 1];
      ConcatAppend(a, init);
      assert (a + b)[..|a + b| - 1] == a + init;
      assert Concat(a + b) == Concat(a + init) + last;
      assert (Concat(a) + Concat(init)) + last == Concat(a) + (Concat(init) + last);
    }
  }

  // How much of the stream the volumes hold, as they record it.
  function StreamBytes(volumes: seq<VolumeInfo>): (n: nat) {
    if volumes == [] then 0 else StreamBytes(volumes[..|volumes| - 1]) + volumes[|volumes| - 1].streamBytes
  }

  // Volume v records the stored bytes b.
  ghost predicate Describes(w: World, v: VolumeInfo, b: Bytes) {
    |b| == v.size && w.sha(b) == v.sha256
  }

  // Volume v is the record of part v.number of a stream cut into `plains`, stored as `blobs`.
  ghost predicate IsPart(
    w: World, job: JobId, compressor: string, plains: seq<Bytes>, blobs: seq<Bytes>, v: VolumeInfo)
  {
    && |plains| == |blobs|
    && 1 <= v.number <= |plains|
    && v.name == VolumeObject(job, compressor, v.number)
    && Describes(w, v, blobs[v.number - 1])
    && v.streamBytes == |plains[v.number - 1]|
    && v.streamSha256 == w.sha(Concat(plains[..v.number]))
  }

  ghost predicate Decodes(w: World, plains: seq<Bytes>, blobs: seq<Bytes>) {
    && |plains| == |blobs|
    && forall i :: 0 <= i < |blobs| ==> w.decode(blobs[i]) == Some(plains[i])
  }

  ghost predicate Ascending(volumes: seq<VolumeInfo>) {
    forall i, j :: 0 <= i < j < |volumes| ==> volumes[i].number < volumes[j].number
  }

  ghost predicate GenuineBy(w: World, m: Manifest, plains: seq<Bytes>, blobs: seq<Bytes>) {
    && Decodes(w, plains, blobs)
    && Ascending(m.volumes)
    && (forall v :: v in m.volumes ==> IsPart(w, m.job, m.compressor, plains, blobs, v))
    && (m.final ==> |m.volumes| == |plains| && w.whole(m.job, Concat(plains)))
  }

  // The manifest lists parts of one cutting of a stream; a final one lists all of them, and the
  // stream is one that zfs sent to its clean end.
  ghost predicate Genuine(w: World, m: Manifest) {
    exists plains, blobs :: GenuineBy(w, m, plains, blobs)
  }

  // Ascending numbers from 1..n, n of them, are 1..n.
  lemma {:induction false} AscendingIsContiguous(volumes: seq<VolumeInfo>, i: nat, n: nat)
    requires Ascending(volumes) && |volumes| == n && i < n
    requires forall v :: v in volumes ==> 1 <= v.number <= n
    ensures volumes[i].number == i + 1
  {
    AtLeastIndex(volumes, i);
    AtMostIndex(volumes, i, n);
  }

  lemma {:induction false} AtLeastIndex(volumes: seq<VolumeInfo>, i: nat)
    requires Ascending(volumes) && i < |volumes|
    requires forall v :: v in volumes ==> 1 <= v.number
    ensures volumes[i].number >= i + 1
  {
    assert volumes[i] in volumes;
    if i > 0 {
      AtLeastIndex(volumes, i - 1);
    }
  }

  lemma {:induction false} AtMostIndex(volumes: seq<VolumeInfo>, i: nat, n: nat)
    requires Ascending(volumes) && |volumes| == n && i < n
    requires forall v :: v in volumes ==> v.number <= n
    ensures volumes[i].number <= i + 1
    decreases n - i
  {
    assert volumes[i] in volumes;
    if i < n - 1 {
      AtMostIndex(volumes, i + 1, n);
    }
  }
}
