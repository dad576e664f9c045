/** Reducing raw PCM to one peak per bucket of a waveform. */
module Peaks {
  import Buckets

  const PCM_FULL_SCALE := 32767

  /** `readInt16LE`: the two bytes at `2 * k`, low byte first, as a signed number. */
  function SampleAt(pcm: seq<bv8>, k: nat): (r: int)
    requires 2 * k + 1 < |pcm|
    ensures -32768 <= r <= 32767
  {
    var unsigned := pcm[2 * k] as int + 256 * (pcm[2 * k + 1] as int);
    if unsigned >= 32768 then unsigned - 65536 else unsigned
  }

  /** The absolute value, with the one value beyond full scale cut down to it. */
  function Loudness(pcm: seq<bv8>, k: nat): (r: nat)
    requires 2 * k + 1 < |pcm|
    ensures r <= PCM_FULL_SCALE
  {
    var sample := SampleAt(pcm, k);
    var size := if sample < 0 then -sample else sample;
    if size < PCM_FULL_SCALE then size else PCM_FULL_SCALE
  }

  function PerBucket(total: nat, buckets: nat): (r: real)
    requires total > 0 && buckets > 0
    ensures r > 0.0
  {
    total as real / buckets as real
  }

  function BucketOf(index: nat, total: nat, buckets: nat): int
    requires total > 0 && buckets > 0
  {
    Buckets.Slot(index as real, PerBucket(total, buckets), buckets)
  }

  /** The samples fall into the buckets in order, and every sample into one of them. */
  lemma BucketsAreOrdered(i: nat, j: nat, total: nat, buckets: nat)
    requires i <= j < total && buckets > 0
    ensures 0 <= BucketOf(i, total, buckets) <= BucketOf(j, total, buckets) < buckets
  {
    var width := PerBucket(total, buckets);
    Buckets.SlotExact(i as real, width, buckets, 0);
    Buckets.SlotExact(j as real, width, buckets, 0);
    Buckets.SlotIsMonotone(i as real, j as real, width, buckets);
  }

  lemma WidthsFillTheSpan(total: nat, buckets: nat)
    requires total > 0 && buckets > 0
    ensures buckets as real * PerBucket(total, buckets) == total as real
    ensures total >= buckets ==> PerBucket(total, buckets) >= 1.0
  {
    Buckets.Quotient(total as real, buckets as real, PerBucket(total, buckets));
    var width := PerBucket(total, buckets);
    if width < 1.0 {
      Buckets.Scaled(width, 1.0, buckets as real);
    }
  }

  /** With at least as many samples as buckets no bucket is empty. */
  lemma NoBucketIsEmpty(k: nat, total: nat, buckets: nat) returns (index: nat)
    requires k < buckets <= total
    ensures index < total && BucketOf(index, total, buckets) == k
  {
    hide Buckets.Edge, PerBucket;
    var width := PerBucket(total, buckets);
    var start, end := Buckets.Edge(k, width), Buckets.Edge(k + 1, width);
    EdgesInside(k, total, buckets);
    index := if start == start.Floor as real then start.Floor else start.Floor + 1;
    assert start <= index as real < end;
    Buckets.SlotExact(index as real, width, buckets, k);
  }

  lemma EdgesInside(k: nat, total: nat, buckets: nat)
    requires k < buckets <= total
    ensures var start, end :=
      Buckets.Edge(k, PerBucket(total, buckets)), Buckets.Edge(k + 1, PerBucket(total, buckets));
      0.0 <= start && start + 1.0 <= end <= total as real
  {
    WidthsFillTheSpan(total, buckets);
    OneStep(k as real, (k + 1) as real, buckets as real, PerBucket(total, buckets));
  }

  lemma OneStep(k: real, next: real, n: real, width: real)
    requires 0.0 <= k && next == k + 1.0 && next <= n && width >= 1.0
    ensures 0.0 <= k * width && k * width + 1.0 <= next * width <= n * width
  {
    Buckets.Scaled(0.0, k, width);
    Buckets.Scaled(next, n, width);
    assert next * width == k * width + width;
  }

  /** The loudest of the first `n` samples that fall into bucket `b`; 0 when none does. */
  function Loudest(pcm: seq<bv8>, n: nat, b: int, buckets: nat): (r: nat)
    requires n <= |pcm| / 2 && buckets > 0
    ensures r <= PCM_FULL_SCALE
  {
    if n == 0 then 0
    else
      var before := Loudest(pcm, n - 1, b, buckets);
      if BucketOf(n - 1, |pcm| / 2, buckets) == b && Loudness(pcm, n - 1) > before then Loudness(pcm, n - 1) else before
  }

  ghost predicate InBucket(pcm: seq<bv8>, b: int, buckets: nat, k: int)
    requires buckets > 0
  {
    0 <= k < |pcm| / 2 && BucketOf(k, |pcm| / 2, buckets) == b
  }

  /** It bounds every sample of the bucket and, unless the bucket is empty, one of them reaches it. */
  lemma {:induction false} LoudestExact(pcm: seq<bv8>, n: nat, b: int, buckets: nat)
    requires n <= |pcm| / 2 && buckets > 0
    ensures forall k | 0 <= k < n && InBucket(pcm, b, buckets, k) :: Loudness(pcm, k) <= Loudest(pcm, n, b, buckets)
    ensures (exists k :: 0 <= k < n && InBucket(pcm, b, buckets, k)) ==>
      exists k :: 0 <= k < n && InBucket(pcm, b, buckets, k) && Loudness(pcm, k) == Loudest(pcm, n, b, buckets)
    ensures (forall k | 0 <= k < n :: !InBucket(pcm, b, buckets, k)) ==> Loudest(pcm, n, b, buckets) == 0
  {
    if n > 0 {
      LoudestExact(pcm, n - 1, b, buckets);
      if InBucket(pcm, b, buckets, n - 1) && Loudness(pcm, n - 1) <= Loudest(pcm, n - 1, b, buckets)
        && forall k | 0 <= k < n - 1 :: !InBucket(pcm, b, buckets, k) {
        assert Loudness(pcm, n - 1) == Loudest(pcm, n, b, buckets);
      }
    }
  }

  /** `new Array(buckets)` throws for a length that is negative or beyond 32 bits. */
  const ARRAY_LIMIT := 0x1_0000_0000

  datatype PeaksResult = RangeError | Peaks(values: seq<real>)

  method PeaksFromPcm(pcm: seq<bv8>, buckets: int) returns (r: PeaksResult)
    ensures r.RangeError? <==> buckets < 0 || buckets >= ARRAY_LIMIT
    ensures r.Peaks? ==> |r.values| == buckets
    ensures r.Peaks? ==> forall b | 0 <= b < buckets ::
      r.values[b] == Loudest(pcm, |pcm| / 2, b, buckets) as real / PCM_FULL_SCALE as real
  {
    if buckets < 0 || buckets >= ARRAY_LIMIT {
      return RangeError;
    }
    var peaks := new nat[buckets](_ => 0);
    var total := |pcm| / 2;
    if total == 0 || buckets <= 0 {
      return Peaks(seq(buckets, _ => 0.0));
    }
    for index := 0 to total
      invariant forall b | 0 <= b < buckets :: peaks[b] == Loudest(pcm, index, b, buckets)
    {
      BucketsAreOrdered(index, index, total, buckets);
      var bucket := BucketOf(index, total, buckets);
      var sample := Loudness(pcm, index);
      if sample > peaks[bucket] {
        peaks[bucket] := sample;
      }
    }
    return Peaks(seq(buckets, b requires 0 <= b < buckets reads peaks => peaks[b] as real / PCM_FULL_SCALE as real));
  }

  /** Every peak is a fraction of full scale, and the largest is that of the loudest sample. */
  lemma PeaksSpanTheSignal(pcm: seq<bv8>, buckets: nat, k: nat)
    requires buckets > 0 && k < |pcm| / 2
    ensures forall b | 0 <= b < buckets ::
      0.0 <= Loudest(pcm, |pcm| / 2, b, buckets) as real / PCM_FULL_SCALE as real <= 1.0
    ensures (forall j | 0 <= j < |pcm| / 2 :: Loudness(pcm, j) <= Loudness(pcm, k)) ==>
      && (forall b | 0 <= b < buckets :: Loudest(pcm, |pcm| / 2, b, buckets) <= Loudness(pcm, k))
      && 0 <= BucketOf(k, |pcm| / 2, buckets) < buckets
      && Loudest(pcm, |pcm| / 2, BucketOf(k, |pcm| / 2, buckets), buckets) == Loudness(pcm, k)
  {
    var total := |pcm| / 2;
    BucketsAreOrdered(k, k, total, buckets);
    LoudestExact(pcm, total, BucketOf(k, total, buckets), buckets);
    if forall j | 0 <= j < total :: Loudness(pcm, j) <= Loudness(pcm, k) {
      forall b | 0 <= b < buckets ensures Loudest(pcm, total, b, buckets) <= Loudness(pcm, k) {
        LoudestExact(pcm, total, b, buckets);
      }
      assert InBucket(pcm, BucketOf(k, total, buckets), buckets, k);
    }
  }
}
