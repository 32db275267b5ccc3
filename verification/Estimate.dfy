// Whether the manifest of a send can fit its limit, judged before the send.
module Estimate {
  import opened Common
  import opened Manifests
  import opened Splitter
  import opened Names

  // The bytes after which a volume is cut.
  function VolumeBytes(volsize: nat): (n: nat)
    requires volsize >= 1
  {
    volsize * MiB - 50 * KiB
  }

  function EstimatedVolumes(streamBytes: nat, volsize: nat): (n: nat)
    requires volsize >= 1
  {
    streamBytes / VolumeBytes(volsize) + 1
  }

  // What a manifest costs without volumes, and per volume.
  datatype Cost = Cost(base: nat, perVolume: nat)

  // The parts of that cost the volumes do not change: the JSON of the job, and of a volume but for
  // its numbers.
  datatype Job = Job(base: nat, fixed: nat)

  // manifestCost: every volume is counted with the last one's number, in its name and by itself,
  // and with the bytes of a volume, as its size and as its part of the stream.
  function CostAt(job: Job, streamBytes: nat, volsize: nat): (cost: Cost)
    requires volsize >= 1
    ensures cost.perVolume >= 1
  {
    var volumes := EstimatedVolumes(streamBytes, volsize);
    Cost(job.base, job.fixed + 2 * |Digits(volumes)| + 2 * |Digits(VolumeBytes(volsize))|)
  }

  predicate Fits(cost: Cost, volumes: nat, limit: nat) {
    cost.base + cost.perVolume * volumes <= limit
  }

  // A --volsize passes at a given cost.
  predicate SizeFits(cost: Cost, streamBytes: nat, volsize: nat, limit: nat)
    requires volsize >= 1
  {
    Fits(cost, EstimatedVolumes(streamBytes, volsize), limit)
  }

  // checkManifestFits: none when it fits, else the --volsize advised.
  function CheckManifestFits(job: Job, streamBytes: nat, volsize: nat, limit: nat): (advised: Option<nat>)
    requires volsize >= 1
  {
    var cost := CostAt(job, streamBytes, volsize);
    if SizeFits(cost, streamBytes, volsize, limit) then None else Some(Advised(cost, streamBytes, limit))
  }

  function Advised(cost: Cost, streamBytes: nat, limit: nat): (volsize: nat)
    requires cost.perVolume >= 1
    ensures volsize >= 1
  {
    var maxVolumes := RoomFor(cost, limit);
    AdvisedSize(streamBytes / ((if maxVolumes > 2 then maxVolumes else 2) - 1))
  }

  // The size in MiB whose volumes take more than the given bytes.
  function AdvisedSize(bytes: nat): (volsize: nat)
    ensures volsize >= 1 && VolumeBytes(volsize) > bytes
  {
    (bytes + 50 * KiB) / MiB + 1
  }

  function RoomFor(cost: Cost, limit: nat): (n: nat)
    requires cost.perVolume >= 1
  {
    (limit - if cost.base < limit then cost.base else limit) / cost.perVolume
  }

  // ---- The estimate is high enough ----

  lemma {:induction false} CutLengths(sent: seq<Cut>, size: nat, n: nat)
    requires n <= |sent| && forall i :: 0 <= i < n ==> |sent[i].plain| == size
    ensures |Through(sent, n)| == n * size
  {
    if n > 0 {
      CutLengths(sent, size, n - 1);
      assert Plains(sent)[..n][..n - 1] == Plains(sent)[..n - 1];
    } else {
      assert Plains(sent)[..0] == [];
    }
  }

  lemma Times(x: nat, y: nat, b: nat)
    requires x <= y
    ensures x * b <= y * b
  {
  }

  lemma DivideIff(a: nat, b: nat, n: nat)
    requires b > 0
    ensures n <= a / b <==> n * b <= a
  {
    var q := a / b;
    if n <= q {
      Times(n, q, b);
    } else {
      Times(q + 1, n, b);
    }
  }

  // An uncompressed, unencrypted stream is never cut into more volumes than estimated.
  lemma EstimateCoversCut(w: World, sent: seq<Cut>, stream: Bytes, streamBytes: nat, volsize: nat, count: Counter)
    requires volsize >= 1 && Uncoded(count) && |stream| <= streamBytes
    requires CutsRest(w, sent, stream, 0, 1, CutLimit(volsize), count)
    ensures |sent| <= EstimatedVolumes(streamBytes, volsize)
  {
    hide Through, Tiles;
    var n := |sent| - 1;
    forall i | 0 <= i < n
      ensures |sent[i].plain| == volsize * MiB
    {
      UncodedVolumes(w, sent, stream, 0, 1, volsize, count, i);
    }
    CutLengths(sent, volsize * MiB, n);
    LastAdds(sent);
    assert |Through(sent, |sent|)| == |stream|;
    assert n * VolumeBytes(volsize) <= n * (volsize * MiB);
    DivideIff(streamBytes, VolumeBytes(volsize), n);
  }

  lemma LastAdds(sent: seq<Cut>)
    requires sent != []
    ensures |Through(sent, |sent| - 1)| <= |Through(sent, |sent|)|
  {
    var n := |sent|;
    assert Plains(sent)[..n][..n - 1] == Plains(sent)[..n - 1];
  }

  // ---- Which sizes fit ----

  lemma RoomFits(cost: Cost, volumes: nat, limit: nat)
    requires cost.perVolume >= 1 && cost.base <= limit
    ensures Fits(cost, volumes, limit) <==> volumes <= RoomFor(cost, limit)
  {
    DivideIff(limit - cost.base, cost.perVolume, volumes);
  }

  lemma VolumesAtMost(streamBytes: nat, volsize: nat, n: nat)
    requires volsize >= 1
    ensures EstimatedVolumes(streamBytes, volsize) <= n <==> streamBytes < n * VolumeBytes(volsize)
  {
    DivideIff(streamBytes, VolumeBytes(volsize), n);
  }

  // A size fits exactly when the volumes there is room for hold the stream.
  lemma SizeFitsIff(cost: Cost, streamBytes: nat, volsize: nat, limit: nat)
    requires cost.perVolume >= 1 && cost.base <= limit && volsize >= 1
    ensures SizeFits(cost, streamBytes, volsize, limit) <==> streamBytes < RoomFor(cost, limit) * VolumeBytes(volsize)
  {
    hide RoomFor, VolumeBytes, Fits, EstimatedVolumes;
    RoomFits(cost, EstimatedVolumes(streamBytes, volsize), limit);
    VolumesAtMost(streamBytes, volsize, RoomFor(cost, limit));
  }

  // At one cost, a larger size fits whenever a smaller one does.
  lemma FitsIsMonotone(cost: Cost, streamBytes: nat, small: nat, large: nat, limit: nat)
    requires cost.perVolume >= 1 && cost.base <= limit && 1 <= small <= large
    requires SizeFits(cost, streamBytes, small, limit)
    ensures SizeFits(cost, streamBytes, large, limit)
  {
    hide RoomFor, SizeFits;
    SizeFitsIff(cost, streamBytes, small, limit);
    SizeFitsIff(cost, streamBytes, large, limit);
    assert RoomFor(cost, limit) * VolumeBytes(small) <= RoomFor(cost, limit) * VolumeBytes(large);
  }

  // ---- The advice at the cost it was computed with ----

  lemma LessThanParts(streamBytes: nat, parts: nat, size: nat)
    requires parts >= 1 && size > streamBytes / parts
    ensures streamBytes < parts * size
  {
    var q := streamBytes / parts;
    assert streamBytes < (q + 1) * parts <= size * parts;
  }

  // With room for two volumes the advised size fits, with a volume to spare.
  lemma AdviceFits(cost: Cost, streamBytes: nat, limit: nat)
    requires cost.perVolume >= 1 && cost.base <= limit && RoomFor(cost, limit) >= 2
    ensures SizeFits(cost, streamBytes, Advised(cost, streamBytes, limit), limit)
    ensures streamBytes < (RoomFor(cost, limit) - 1) * VolumeBytes(Advised(cost, streamBytes, limit))
  {
    hide RoomFor, SizeFits;
    var room, advised := RoomFor(cost, limit), Advised(cost, streamBytes, limit);
    LessThanParts(streamBytes, room - 1, VolumeBytes(advised));
    assert (room - 1) * VolumeBytes(advised) <= room * VolumeBytes(advised);
    SizeFitsIff(cost, streamBytes, advised, limit);
  }

  predicate SmallestThatFits(cost: Cost, streamBytes: nat, volsize: nat, limit: nat)
    requires volsize >= 1
  {
    && SizeFits(cost, streamBytes, volsize, limit)
    && forall v :: 1 <= v < volsize ==> !SizeFits(cost, streamBytes, v, limit)
  }

  // It is the smallest size that fits exactly when the stream fills every volume there is room for
  // at the size below.
  lemma AdviceSmallestIff(cost: Cost, streamBytes: nat, limit: nat)
    requires cost.perVolume >= 1 && cost.base <= limit && RoomFor(cost, limit) >= 2
    ensures var advised := Advised(cost, streamBytes, limit);
      SmallestThatFits(cost, streamBytes, advised, limit) <==>
        advised == 1 || streamBytes >= RoomFor(cost, limit) * VolumeBytes(advised - 1)
  {
    hide RoomFor, SizeFits, Advised, VolumeBytes;
    var advised := Advised(cost, streamBytes, limit);
    AdviceFits(cost, streamBytes, limit);
    if advised > 1 {
      SizeFitsIff(cost, streamBytes, advised - 1, limit);
      forall v | 1 <= v < advised && SizeFits(cost, streamBytes, v, limit)
        ensures SizeFits(cost, streamBytes, advised - 1, limit)
      {
        FitsIsMonotone(cost, streamBytes, v, advised - 1, limit);
      }
    }
  }

  // ---- The advice followed ----

  lemma {:induction false} MoreDigits(a: nat, b: nat)
    requires a <= b
    ensures |Digits(a)| <= |Digits(b)|
    decreases b
  {
    if b >= 10 && a >= 10 {
      MoreDigits(a / 10, b / 10);
    }
  }

  // What a volume costs more at another size: its bytes may take more digits, twice, and its number
  // fewer, twice.
  function Growth(streamBytes: nat, volsize: nat, other: nat): (extra: int)
    requires volsize >= 1 && other >= 1
  {
    2 * (|Digits(VolumeBytes(other))| - |Digits(VolumeBytes(volsize))|)
    - 2 * (|Digits(EstimatedVolumes(streamBytes, volsize))| - |Digits(EstimatedVolumes(streamBytes, other))|)
  }

  // What the limit leaves when that many volumes are listed.
  function Spare(cost: Cost, volumes: nat, limit: nat): (bytes: int) {
    limit - cost.base - cost.perVolume * volumes
  }

  // The advice leaves the cost of a volume to spare. A run with the advised size computes the cost
  // again, and passes exactly when what its volumes cost more fits into what is spare.
  lemma FollowedAdviceIff(job: Job, streamBytes: nat, volsize: nat, limit: nat)
    requires volsize >= 1 && job.base <= limit
    requires CheckManifestFits(job, streamBytes, volsize, limit).Some?
    ensures var cost, advised :=
        CostAt(job, streamBytes, volsize), CheckManifestFits(job, streamBytes, volsize, limit).value;
      var volumes := EstimatedVolumes(streamBytes, advised);
      && (RoomFor(cost, limit) >= 2 ==> Spare(cost, volumes, limit) >= cost.perVolume)
      && (CheckManifestFits(job, streamBytes, advised, limit).None? <==>
          Growth(streamBytes, volsize, advised) * volumes <= Spare(cost, volumes, limit))
  {
    hide RoomFor, Advised, Digits, EstimatedVolumes, VolumeBytes;
    var cost := CostAt(job, streamBytes, volsize);
    var advised := Advised(cost, streamBytes, limit);
    var volumes := EstimatedVolumes(streamBytes, advised);
    if RoomFor(cost, limit) >= 2 {
      AdviceFits(cost, streamBytes, limit);
      VolumesAtMost(streamBytes, advised, RoomFor(cost, limit) - 1);
      RoomFits(cost, volumes + 1, limit);
      assert cost.perVolume * (volumes + 1) == cost.perVolume * volumes + cost.perVolume;
    }
    GrownCost(cost.perVolume, Growth(streamBytes, volsize, advised), volumes);
  }

  lemma GrownCost(perVolume: int, extra: int, volumes: nat)
    ensures (perVolume + extra) * volumes == perVolume * volumes + extra * volumes
  {
  }

  // It passes whenever its volume bytes are written with as many digits as before.
  lemma FollowedAdvicePasses(job: Job, streamBytes: nat, volsize: nat, limit: nat)
    requires volsize >= 1 && job.base <= limit && RoomFor(CostAt(job, streamBytes, volsize), limit) >= 2
    requires CheckManifestFits(job, streamBytes, volsize, limit).Some?
    requires var advised := CheckManifestFits(job, streamBytes, volsize, limit).value;
      advised >= 1 && |Digits(VolumeBytes(advised))| <= |Digits(VolumeBytes(volsize))|
    ensures CheckManifestFits(job, streamBytes, CheckManifestFits(job, streamBytes, volsize, limit).value, limit).None?
  {
    hide RoomFor, Advised, Digits;
    var cost := CostAt(job, streamBytes, volsize);
    var advised := Advised(cost, streamBytes, limit);
    AdviceFits(cost, streamBytes, limit);
    if advised <= volsize {
      FitsIsMonotone(cost, streamBytes, advised, volsize, limit);
    }
    FewerVolumes(streamBytes, volsize, advised);
    MoreDigits(EstimatedVolumes(streamBytes, advised), EstimatedVolumes(streamBytes, volsize));
    CheaperFits(CostAt(job, streamBytes, advised), cost, EstimatedVolumes(streamBytes, advised), limit);
  }

  lemma FewerVolumes(streamBytes: nat, small: nat, large: nat)
    requires 1 <= small <= large
    ensures EstimatedVolumes(streamBytes, large) <= EstimatedVolumes(streamBytes, small)
  {
    hide VolumeBytes;
    var n := EstimatedVolumes(streamBytes, small);
    VolumesAtMost(streamBytes, small, n);
    VolumesAtMost(streamBytes, large, n);
    LargerBytes(small, large);
    assert n * VolumeBytes(small) <= n * VolumeBytes(large);
  }

  lemma LargerBytes(small: nat, large: nat)
    requires 1 <= small <= large
    ensures VolumeBytes(small) <= VolumeBytes(large)
  {
  }

  lemma CheaperFits(cheap: Cost, cost: Cost, volumes: nat, limit: nat)
    requires cheap.base == cost.base && cheap.perVolume <= cost.perVolume && Fits(cost, volumes, limit)
    ensures Fits(cheap, volumes, limit)
  {
    assert cheap.perVolume * volumes <= cost.perVolume * volumes;
  }

  // ---- Two streams ----

  lemma {:induction false} DigitsOf(n: nat, k: nat, power: nat)
    requires k >= 1 && power == Power(k - 1) && power <= n < 10 * power
    ensures |Digits(n)| == k
    decreases k
  {
    if k > 1 {
      DigitsOf(n / 10, k - 1, Power(k - 2));
    }
  }

  function Power(k: nat): (r: nat)
    ensures r >= 1
  {
    if k == 0 then 1 else 10 * Power(k - 1)
  }

  lemma SevenDigits(n: nat)
    requires 1_000_000 <= n < 10_000_000
    ensures |Digits(n)| == 7
  {
    assert Power(6) == 1_000_000 by {
      assert Power(3) == 1000;
      assert Power(6) == 1000 * Power(3);
    }
    DigitsOf(n, 7, 1_000_000);
  }

  const Limit := 0x4000_0000
  const SmallJob := Job(500, 400)

  // What the check says, from the number of volumes and how many digits the numbers have.
  lemma CheckIs(streamBytes: nat, volsize: nat, volumes: nat, digits: nat, cost: Cost)
    requires volsize >= 1 && EstimatedVolumes(streamBytes, volsize) == volumes
    requires |Digits(volumes)| == 7 && |Digits(VolumeBytes(volsize))| == digits
    requires cost == Cost(500, 414 + 2 * digits)
    ensures CheckManifestFits(SmallJob, streamBytes, volsize, Limit) ==
      if 500 + cost.perVolume * volumes <= Limit then None else Some(Advised(cost, streamBytes, Limit))
  {
    hide Digits, EstimatedVolumes, VolumeBytes, Advised;
  }

  lemma VolumesAre(streamBytes: nat, volsize: nat, size: nat, volumes: nat)
    requires volsize >= 1 && size == VolumeBytes(volsize) && volumes >= 1
    requires (volumes - 1) * size <= streamBytes < volumes * size
    ensures EstimatedVolumes(streamBytes, volsize) == volumes
  {
    hide VolumeBytes;
    VolumesAtMost(streamBytes, volsize, volumes);
    VolumesAtMost(streamBytes, volsize, volumes - 1);
  }

  // 2_520_517 volumes of 2 MiB: at 1 MiB the check advises 2 MiB, where each volume's bytes take a digit
  // more, twice, and the check refuses again.
  const Refused := 5_156_856_797_184

  lemma AdviceCanBeRefused()
    ensures Refused == 2_520_517 * VolumeBytes(2)
    ensures CheckManifestFits(SmallJob, Refused, 1, Limit) == Some(2)
    ensures CheckManifestFits(SmallJob, Refused, 2, Limit).Some?
  {
    hide Digits, CheckManifestFits, EstimatedVolumes;
    VolumesAre(Refused, 1, 997_376, 5_170_424);
    SevenDigits(5_170_424);
    SixDigits(997_376);
    CheckIs(Refused, 1, 5_170_424, 6, Cost(500, 426));
    VolumesAre(Refused, 2, 2_045_952, 2_520_518);
    SevenDigits(2_520_518);
    SevenDigits(2_045_952);
    CheckIs(Refused, 2, 2_520_518, 7, Cost(500, 428));
  }

  lemma SixDigits(n: nat)
    requires 100_000 <= n < 1_000_000
    ensures |Digits(n)| == 6
  {
    assert Power(5) == 100_000 by {
      assert Power(3) == 1000;
    }
    DigitsOf(n, 6, 100_000);
  }

  // 2_508_740 volumes of 3 MiB: at 2 MiB the check advises 4 MiB, and 3 MiB passes.
  const Advisable := 7_763_366_174_720

  lemma AdviceNotSmallest()
    ensures Advisable == 2_508_740 * VolumeBytes(3)
    ensures CheckManifestFits(SmallJob, Advisable, 2, Limit) == Some(4)
    ensures CheckManifestFits(SmallJob, Advisable, 3, Limit).None?
  {
    hide Digits, CheckManifestFits, EstimatedVolumes;
    VolumesAre(Advisable, 2, 2_045_952, 3_794_501);
    SevenDigits(3_794_501);
    SevenDigits(2_045_952);
    CheckIs(Advisable, 2, 3_794_501, 7, Cost(500, 428));
    VolumesAre(Advisable, 3, 3_094_528, 2_508_741);
    SevenDigits(2_508_741);
    SevenDigits(3_094_528);
    CheckIs(Advisable, 3, 2_508_741, 7, Cost(500, 428));
  }
}
