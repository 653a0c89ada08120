/** The spike payload of one tick: a scalar derived from the analyser's
    average frequency, and a coarse profile of bucket means over the
    normalised frequency frame. */
module Spike {
  import opened Frame

  /** Width of one bucket: `FFT_SIZE / 64` bins (see `SpikeSizesAgree`). */
  const SliceSize: nat := 64

  /** Buckets in the profile: the loop walks `BinCount` bins in steps of
      `SliceSize`, which gives 32 buckets, not 64. */
  const BucketCount: nat := 32

  lemma SpikeSizesAgree()
    ensures SliceSize == FftSize / 64
    ensures BucketCount == BinCount / SliceSize
    ensures BucketCount * SliceSize == BinCount
  {
  }

  /** Average frequency above which the scalar leaves zero. */
  const ScalarFloor: real := 100.0

  /** Divisor rescaling the excess over the floor. */
  const ScalarScale: real := 50.0

  /** `max(avg - 100, 0) / 50`. */
  function Scalar(avg: real): (r: real)
    ensures r >= 0.0
    ensures avg <= ScalarFloor ==> r == 0.0
    ensures avg > ScalarFloor ==> r * ScalarScale + ScalarFloor == avg
  {
    (if avg - ScalarFloor > 0.0 then avg - ScalarFloor else 0.0) / ScalarScale
  }

  /** The scalar never decreases as the average frequency grows. */
  lemma ScalarMonotone(a: real, b: real)
    requires a <= b
    ensures Scalar(a) <= Scalar(b)
  {
  }

  /** Over the analyser's byte range the scalar stays within [0, 3.1]. */
  lemma ScalarBounded(avg: real)
    requires 0.0 <= avg <= 255.0
    ensures 0.0 <= Scalar(avg) <= 3.1
  {
  }

  /** Cuts a sequence into consecutive slices of `SliceSize` elements. */
  function Slices(s: seq<real>): (r: seq<seq<real>>)
    requires |s| % SliceSize == 0
    ensures |r| == |s| / SliceSize
    ensures forall k :: 0 <= k < |r| ==> r[k] == s[k * SliceSize .. k * SliceSize + SliceSize]
    decreases |s|
  {
    if |s| == 0 then [] else [s[..SliceSize]] + Slices(s[SliceSize..])
  }

  /** Joins a sequence of slices back together in order. */
  function Flatten(ss: seq<seq<real>>): seq<real>
  {
    if |ss| == 0 then [] else ss[0] + Flatten(ss[1..])
  }

  /** The slices are contiguous, in order, non-overlapping and cover the
      whole sequence: joining them gives the sequence back. */
  lemma {:induction false} SlicesPartition(s: seq<real>)
    requires |s| % SliceSize == 0
    ensures Flatten(Slices(s)) == s
    decreases |s|
  {
    if |s| > 0 {
      var r := Slices(s);
      assert r[1..] == Slices(s[SliceSize..]);
      SlicesPartition(s[SliceSize..]);
      assert s == s[..SliceSize] + s[SliceSize..];
    }
  }

  /** Every bin `j` of a frame belongs to exactly one bucket, the one
      numbered `j / SliceSize`, where it sits at offset `j % SliceSize`. */
  lemma BucketOfBin(s: seq<real>, j: nat, k: nat)
    requires |s| == BinCount
    requires j < BinCount
    ensures j / SliceSize < BucketCount
    ensures Slices(s)[j / SliceSize][j % SliceSize] == s[j]
    ensures k * SliceSize <= j < k * SliceSize + SliceSize <==> k == j / SliceSize
  {
    var b := j / SliceSize;
    assert b * SliceSize + j % SliceSize == j;
    assert Slices(s)[b] == s[b * SliceSize .. b * SliceSize + SliceSize];
  }

  /** The spike profile: entry `k` is the mean of the `k`-th slice of the
      first `BinCount` normalised samples. */
  function Profile(freq: seq<real>): (r: seq<real>)
    requires |freq| >= BinCount
    ensures |r| == BucketCount
    ensures forall k :: 0 <= k < BucketCount ==>
              r[k] == Mean(freq[k * SliceSize .. k * SliceSize + SliceSize])
  {
    var slices := Slices(freq[..BinCount]);
    assert forall k :: 0 <= k < BucketCount ==>
             slices[k] == freq[k * SliceSize .. k * SliceSize + SliceSize];
    seq(BucketCount, k requires 0 <= k < BucketCount => Mean(slices[k]))
  }

  /** `updateSpike`'s profile loop as written: normalise every byte, then for
      each start `i = 0, 64, ..., 1984` add up bins `i .. i + 63` and push
      the sum divided by the slice size. */
  method ComputeProfile(bins: seq<Byte>) returns (spikeData: seq<real>)
    requires |bins| >= BinCount
    ensures spikeData == Profile(Normalize(bins))
  {
    var freqData := Normalize(bins);
    spikeData := [];
    var i := 0;
    while i < BinCount
      invariant 0 <= i <= BinCount && i % SliceSize == 0
      invariant |spikeData| == i / SliceSize
      invariant forall k :: 0 <= k < |spikeData| ==>
                  spikeData[k] == Mean(freqData[k * SliceSize .. k * SliceSize + SliceSize])
    {
      var sum := SliceSum(freqData, i);
      spikeData := spikeData + [sum / SliceSize as real];
      i := i + SliceSize;
    }
    ghost var expected := Profile(freqData);
    assert forall k :: 0 <= k < BucketCount ==> spikeData[k] == expected[k];
  }

  /** The inner loop of the profile: the running sum of bins
      `i .. i + SliceSize - 1`. */
  method SliceSum(freqData: seq<real>, i: nat) returns (sum: real)
    requires i + SliceSize <= |freqData|
    ensures sum == Sum(freqData[i .. i + SliceSize])
  {
    sum := 0.0;
    var j := i;
    while j < i + SliceSize
      invariant i <= j <= i + SliceSize
      invariant sum == Sum(freqData[i..j])
    {
      assert freqData[i..j + 1] == freqData[i..j] + [freqData[j]];
      SumSnoc(freqData[i..j], freqData[j]);
      sum := sum + freqData[j];
      j := j + 1;
    }
  }

  /** The profile reads no bin at or beyond `BinCount`: it depends only on
      the first `BinCount` samples. */
  lemma ProfileReadsOnlyFrame(freq: seq<real>, other: seq<real>)
    requires |freq| >= BinCount && |other| >= BinCount
    requires freq[..BinCount] == other[..BinCount]
    ensures Profile(freq) == Profile(other)
  {
    var p, q := Profile(freq), Profile(other);
    forall k | 0 <= k < BucketCount
      ensures p[k] == q[k]
    {
      var lo := k * SliceSize;
      assert lo + SliceSize <= BinCount;
      assert freq[lo .. lo + SliceSize] == freq[..BinCount][lo .. lo + SliceSize];
      assert other[lo .. lo + SliceSize] == other[..BinCount][lo .. lo + SliceSize];
    }
  }

  /** Unit-interval samples give a unit-interval profile. */
  lemma ProfileInUnit(freq: seq<real>)
    requires |freq| >= BinCount
    requires InUnit(freq)
    ensures InUnit(Profile(freq))
  {
    var p := Profile(freq);
    forall k | 0 <= k < BucketCount
      ensures 0.0 <= p[k] <= 1.0
    {
      MeanInUnit(freq[k * SliceSize .. k * SliceSize + SliceSize]);
    }
  }

  /** A frame that is constant `c` on its first `BinCount` samples has a
      profile that is `c` in every bucket. */
  lemma ProfileOfConstant(freq: seq<real>, c: real)
    requires |freq| >= BinCount
    requires forall i :: 0 <= i < BinCount ==> freq[i] == c
    ensures Profile(freq) == seq(BucketCount, _ => c)
  {
    var p := Profile(freq);
    forall k | 0 <= k < BucketCount
      ensures p[k] == c
    {
      MeanConstant(freq[k * SliceSize .. k * SliceSize + SliceSize], c);
    }
  }

  /** Silence (all-zero bytes) gives an all-zero profile; a saturated frame
      (all bytes 255) gives an all-one profile. */
  lemma ProfileExtremes()
    ensures Profile(Normalize(seq(BinCount, _ => 0))) == seq(BucketCount, _ => 0.0)
    ensures Profile(Normalize(seq(BinCount, _ => 255))) == seq(BucketCount, _ => 1.0)
  {
    ProfileOfConstant(Normalize(seq(BinCount, _ => 0)), 0.0);
    ProfileOfConstant(Normalize(seq(BinCount, _ => 255)), 1.0);
  }

  /** Down-sampling preserves total mass: the profile's sum times the slice
      size is the sum of the first `BinCount` samples. */
  lemma ProfileTotal(freq: seq<real>)
    requires |freq| >= BinCount
    ensures Sum(Profile(freq)) * SliceSize as real == Sum(freq[..BinCount])
  {
    var s := freq[..BinCount];
    var slices := Slices(s);
    var means := Profile(freq);
    ProfileMeansOfSlices(freq);
    SlicesTotal(slices, means, BucketCount);
    assert slices[..BucketCount] == slices;
    assert means[..BucketCount] == means;
    SlicesPartition(s);
  }

  /** Helper for `ProfileTotal`: the profile's entries are the means of the
      slices of the frame's first `BinCount` samples. */
  lemma ProfileMeansOfSlices(freq: seq<real>)
    requires |freq| >= BinCount
    ensures |Slices(freq[..BinCount])| == BucketCount
    ensures forall k :: 0 <= k < BucketCount ==>
              |Slices(freq[..BinCount])[k]| == SliceSize
              && Profile(freq)[k] == Mean(Slices(freq[..BinCount])[k])
  {
    var slices := Slices(freq[..BinCount]);
    forall k | 0 <= k < BucketCount
      ensures |slices[k]| == SliceSize && Profile(freq)[k] == Mean(slices[k])
    {
      assert slices[k] == freq[k * SliceSize .. k * SliceSize + SliceSize];
    }
  }

  /** Helper for `ProfileTotal`: for the first `n` buckets, the means times
      the slice size add up to the sum of the first `n` slices. */
  lemma {:induction false} SlicesTotal(slices: seq<seq<real>>, means: seq<real>, n: nat)
    requires n <= |slices| == |means|
    requires forall k :: 0 <= k < |slices| ==> |slices[k]| == SliceSize
    requires forall k :: 0 <= k < |slices| ==> means[k] == Mean(slices[k])
    ensures Sum(means[..n]) * SliceSize as real == Sum(Flatten(slices[..n]))
    decreases n
  {
    if n > 0 {
      var prev := slices[..n - 1];
      var last := slices[n - 1];
      SlicesTotal(slices, means, n - 1);
      assert means[..n] == means[..n - 1] + [means[n - 1]];
      SumSnoc(means[..n - 1], means[n - 1]);
      assert slices[..n] == prev + [last];
      FlattenSnoc(prev, last);
      SumConcat(Flatten(prev), last);
      assert means[n - 1] * SliceSize as real == Sum(last);
      assert Sum(means[..n]) * SliceSize as real
          == Sum(means[..n - 1]) * SliceSize as real + means[n - 1] * SliceSize as real;
    }
  }

  /** Flattening after appending one slice appends that slice. */
  lemma {:induction false} FlattenSnoc(ss: seq<seq<real>>, t: seq<real>)
    ensures Flatten(ss + [t]) == Flatten(ss) + t
    decreases |ss|
  {
    if |ss| == 0 {
      assert ss + [t] == [t];
    } else {
      assert (ss + [t])[1..] == ss[1..] + [t];
      FlattenSnoc(ss[1..], t);
    }
  }
}
