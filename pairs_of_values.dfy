/** Pairs-of-values analysis: every R, G and B sample falls into the bucket
    floor(v / 2) of its pair of values (2k, 2k + 1); the mean relative
    deviation of the occupied buckets from an even spread is the score. */
module PairsOfValues {
  import opened Pixels
  import opened Results
  import opened Sums

  /** The pairs of values a byte can fall into. */
  const Buckets: nat := 128

  /** counts[k] is the number of samples v with floor(v / 2) == k. */
  function PairCounts(samples: seq<Byte>): (counts: seq<nat>)
    ensures |counts| == Buckets
  {
    if samples == [] then seq(Buckets, _ => 0)
    else
      var init, v := samples[..|samples| - 1], samples[|samples| - 1];
      var c := PairCounts(init);
      c[v / 2 := c[v / 2] + 1]
  }

  lemma PairCountsStep(samples: seq<Byte>, v: Byte)
    ensures PairCounts(samples + [v]) == PairCounts(samples)[v / 2 := PairCounts(samples)[v / 2] + 1]
  {
    assert (samples + [v])[..|samples|] == samples;
  }

  /** Bucket k counts exactly the samples equal to 2k or 2k + 1. */
  lemma {:induction false} PairCountsCountValues(samples: seq<Byte>, k: nat)
    requires k < Buckets
    ensures PairCounts(samples)[k] == multiset(samples)[2 * k] + multiset(samples)[2 * k + 1]
  {
    if samples != [] {
      var init := samples[..|samples| - 1];
      assert samples == init + [samples[|samples| - 1]];
      PairCountsCountValues(init, k);
    }
  }

  /** The buckets add up to the number of samples (`totalPixels`). */
  lemma {:induction false} PairCountsTotal(samples: seq<Byte>)
    ensures Total(PairCounts(samples)) == |samples|
  {
    if samples == [] {
      TotalOfZeros(Buckets);
    } else {
      var init, v := samples[..|samples| - 1], samples[|samples| - 1];
      PairCountsTotal(init);
      TotalUpdate(PairCounts(init), v / 2, 1);
    }
  }

  /** How many of the first n buckets hold a sample: the keys the sparse
      pair table has. */
  function UsedBuckets(counts: seq<nat>, n: nat): (used: nat)
    requires n <= |counts|
    ensures used <= n
  {
    if n == 0 then 0
    else UsedBuckets(counts, n - 1) + (if counts[n - 1] > 0 then 1 else 0)
  }

  /** A bucket holding a sample is a key. */
  lemma {:induction false} OccupiedBucketIsUsed(counts: seq<nat>, n: nat, k: nat)
    requires k < n <= |counts| && counts[k] > 0
    ensures UsedBuckets(counts, n) > 0
  {
    if k < n - 1 {
      OccupiedBucketIsUsed(counts, n - 1, k);
    }
  }

  /** Empty buckets are no keys. */
  lemma {:induction false} EmptyBucketsAreUnused(n: nat)
    requires n <= Buckets
    ensures UsedBuckets(PairCounts([]), n) == 0
  {
    if n > 0 {
      EmptyBucketsAreUnused(n - 1);
    }
  }

  /** The pair table has a key exactly when there is a sample. */
  lemma UsedBucketsOfSamples(samples: seq<Byte>)
    ensures UsedBuckets(PairCounts(samples), Buckets) > 0 <==> samples != []
  {
    if samples == [] {
      EmptyBucketsAreUnused(Buckets);
    } else {
      var v := samples[0];
      PairCountsCountValues(samples, v / 2);
      assert v in multiset(samples);
      OccupiedBucketIsUsed(PairCounts(samples), Buckets, v / 2);
    }
  }

  /** The sum, over the occupied buckets among the first n, of each count's
      distance from the expected count, relative to the expected count. */
  function DeviationSum(counts: seq<nat>, n: nat, expected: real): (d: real)
    requires n <= |counts| && expected > 0.0
    ensures d >= 0.0
  {
    if n == 0 then 0.0
    else
      var c := counts[n - 1];
      DeviationSum(counts, n - 1, expected) + (if c > 0 then Abs(c as real - expected) / expected else 0.0)
  }

  /** The mean relative deviation of the occupied buckets from the even
      spread `totalPixels / pairCount`; 0 when there is no sample. */
  function Deviation(samples: seq<Byte>): (d: real)
    ensures d >= 0.0
  {
    var counts := PairCounts(samples);
    var pairCount := UsedBuckets(counts, Buckets);
    if pairCount == 0 then 0.0
    else
      UsedBucketsOfSamples(samples);
      var expected := |samples| as real / pairCount as real;
      DeviationSum(counts, Buckets, expected) / pairCount as real
  }

  /** A quarter point of confidence per hundredth of deviation, capped at
      100. */
  function PairsConfidence(deviation: real): (c: real)
    requires deviation >= 0.0
    ensures 0.0 <= c <= 100.0
    ensures c == 100.0 <==> deviation >= 4.0
    ensures c > 40.0 <==> deviation > 1.6
  {
    Min(100.0, deviation * 25.0)
  }

  function PairsResult(pixels: seq<Byte>): (r: AnalyzerResult)
    requires IsPixelBuffer(pixels)
    ensures r.methodName == PairsMethod && r.detail.PairsDetail?
    ensures r.detail.totalPairs <= Buckets && r.detail.deviation >= 0.0
    ensures 0.0 <= r.confidence <= 100.0
  {
    var samples := ColourSamples(pixels);
    var deviation := Deviation(samples);
    var confidence := PairsConfidence(deviation);
    AnalyzerResult(
      PairsMethod, confidence,
      if confidence > 40.0 then "Unusual pair distribution detected" else "Normal pair distribution",
      PairsDetail(UsedBuckets(PairCounts(samples), Buckets), deviation))
  }

  /** An image without pixels has no pair and no deviation. */
  lemma PairsOfEmptyBuffer()
    ensures PairsResult([]).detail == PairsDetail(0, 0.0)
    ensures PairsResult([]).confidence == 0.0
  {
    EmptyBucketsAreUnused(Buckets);
  }

  /** Every occupied bucket at distance 0 from the expected count adds
      nothing. */
  lemma {:induction false} FlatBucketsDeviateNothing(counts: seq<nat>, n: nat, c: nat, e: real)
    requires n <= |counts| && c > 0 && e == c as real
    requires forall k | 0 <= k < n :: counts[k] == 0 || counts[k] == c
    ensures DeviationSum(counts, n, e) == 0.0
  {
    if n > 0 {
      FlatBucketsDeviateNothing(counts, n - 1, c, e);
    }
  }

  /** Buckets holding 0 or c samples sum to c per occupied bucket. */
  lemma {:induction false} FlatBucketsTotal(counts: seq<nat>, n: nat, c: nat)
    requires n <= |counts|
    requires forall k | 0 <= k < n :: counts[k] == 0 || counts[k] == c
    ensures Total(counts[..n]) == c * UsedBuckets(counts, n)
  {
    if n > 0 {
      assert counts[..n][..n - 1] == counts[..n - 1];
      FlatBucketsTotal(counts, n - 1, c);
    }
  }

  /** c samples in each of u buckets average c per bucket. */
  lemma EvenMean(total: nat, used: nat, c: nat)
    requires used > 0 && total == c * used
    ensures total as real / used as real == c as real
  {
    assert total as real == c as real * used as real;
  }

  /** A table whose occupied buckets all hold c samples has deviation 0:
      its expected count is c. */
  lemma FlatTableHasNoDeviation(counts: seq<nat>, total: nat, used: nat, c: nat)
    requires |counts| == Buckets && c > 0 && total > 0 && used > 0
    requires total == Total(counts) && used == UsedBuckets(counts, Buckets)
    requires forall k | 0 <= k < Buckets :: counts[k] == 0 || counts[k] == c
    ensures DeviationSum(counts, Buckets, total as real / used as real) / used as real == 0.0
  {
    FlatBucketsTotal(counts, Buckets, c);
    assert counts[..Buckets] == counts;
    EvenMean(total, used, c);
    FlatBucketsDeviateNothing(counts, Buckets, c, total as real / used as real);
  }

  /** An even spread over the occupied pairs (each holding the same number
      of samples) has deviation 0. */
  lemma FlatPairsHaveNoDeviation(samples: seq<Byte>, c: nat)
    requires c > 0
    requires forall k | 0 <= k < Buckets :: PairCounts(samples)[k] == 0 || PairCounts(samples)[k] == c
    ensures Deviation(samples) == 0.0
  {
    var counts := PairCounts(samples);
    var pairCount := UsedBuckets(counts, Buckets);
    if pairCount > 0 {
      UsedBucketsOfSamples(samples);
      PairCountsTotal(samples);
      FlatTableHasNoDeviation(counts, |samples|, pairCount, c);
    }
  }

  /** The sum of count / e over the first n buckets. */
  function RatioSum(counts: seq<nat>, n: nat, e: real): real
    requires n <= |counts| && e > 0.0
  {
    if n == 0 then 0.0 else RatioSum(counts, n - 1, e) + counts[n - 1] as real / e
  }

  /** Division distributes over a sum. */
  lemma DivAdd(a: real, b: real, e: real)
    requires e > 0.0
    ensures (a + b) / e == a / e + b / e
  {
    var x, y := (a + b) / e, a / e + b / e;
    assert x * e == a + b;
    assert y * e == (a / e) * e + (b / e) * e == a + b;
    assert (x - y) * e == 0.0;
  }

  /** The deviation of an occupied bucket is at most its count over e, plus
      one. */
  lemma TermBound(c: real, e: real)
    requires c > 0.0 && e > 0.0
    ensures Abs(c - e) / e <= c / e + 1.0
  {
    var d := c + e - Abs(c - e);
    assert d >= 0.0;
    DivAdd(Abs(c - e), d, e);
    DivAdd(c, e, e);
    assert Abs(c - e) + d == c + e;
    assert e / e == 1.0;
    assert d / e >= 0.0;
  }

  /** The deviation sum is at most the ratio sum plus one per occupied
      bucket. */
  predicate WithinBound(counts: seq<nat>, n: nat, e: real)
    requires n <= |counts| && e > 0.0
  {
    DeviationSum(counts, n, e) <= RatioSum(counts, n, e) + UsedBuckets(counts, n) as real
  }

  /** An occupied bucket keeps the bound. */
  lemma OccupiedBucketStep(counts: seq<nat>, n: nat, e: real)
    requires 0 < n <= |counts| && e > 0.0 && counts[n - 1] > 0
    requires WithinBound(counts, n - 1, e)
    ensures WithinBound(counts, n, e)
  {
    TermBound(counts[n - 1] as real, e);
  }

  /** An empty bucket keeps the bound. */
  lemma EmptyBucketStep(counts: seq<nat>, n: nat, e: real)
    requires 0 < n <= |counts| && e > 0.0 && counts[n - 1] == 0
    requires WithinBound(counts, n - 1, e)
    ensures WithinBound(counts, n, e)
  {
  }

  lemma {:induction false} DeviationSumBound(counts: seq<nat>, n: nat, e: real)
    requires n <= |counts| && e > 0.0
    ensures WithinBound(counts, n, e)
  {
    if n > 0 {
      DeviationSumBound(counts, n - 1, e);
      if counts[n - 1] > 0 {
        OccupiedBucketStep(counts, n, e);
      } else {
        EmptyBucketStep(counts, n, e);
      }
    }
  }

  /** The ratio sum is the total count over e. */
  lemma {:induction false} RatioSumIsTotalRatio(counts: seq<nat>, n: nat, e: real)
    requires n <= |counts| && e > 0.0
    ensures RatioSum(counts, n, e) == Total(counts[..n]) as real / e
  {
    if n > 0 {
      RatioSumIsTotalRatio(counts, n - 1, e);
      assert counts[..n][..n - 1] == counts[..n - 1];
      DivAdd(Total(counts[..n - 1]) as real, counts[n - 1] as real, e);
    }
  }

  /** Dividing the total by the mean count gives back the number of
      occupied buckets. */
  lemma TotalOverMean(total: real, used: real)
    requires total > 0.0 && used > 0.0
    ensures total / used > 0.0 && total / (total / used) == used
  {
  }

  /** The mean relative deviation of a table holding `total` samples in
      `used` occupied buckets is at most 2. */
  lemma TableDeviationAtMostTwo(counts: seq<nat>, total: nat, used: nat)
    requires |counts| == Buckets && total > 0 && used > 0
    requires total == Total(counts) && used == UsedBuckets(counts, Buckets)
    ensures DeviationSum(counts, Buckets, total as real / used as real) / used as real <= 2.0
  {
    var e := total as real / used as real;
    TotalOverMean(total as real, used as real);
    assert counts[..Buckets] == counts;
    DeviationSumBound(counts, Buckets, e);
    RatioSumIsTotalRatio(counts, Buckets, e);
    DivExceeds(DeviationSum(counts, Buckets, e), used as real, 2.0);
  }

  /** The deviation never exceeds 2: the occupied buckets together hold
      exactly pairCount times the expected count. */
  lemma DeviationAtMostTwo(samples: seq<Byte>)
    ensures Deviation(samples) <= 2.0
  {
    var counts := PairCounts(samples);
    var pairCount := UsedBuckets(counts, Buckets);
    if pairCount > 0 {
      UsedBucketsOfSamples(samples);
      PairCountsTotal(samples);
      TableDeviationAtMostTwo(counts, |samples|, pairCount);
    }
  }

  /** So the confidence of this analyzer never exceeds 50: the cap at 100
      is never reached. */
  lemma PairsConfidenceAtMostHalf(pixels: seq<Byte>)
    requires IsPixelBuffer(pixels)
    ensures PairsResult(pixels).confidence <= 50.0
  {
    DeviationAtMostTwo(ColourSamples(pixels));
  }

  /** A pair table of 128 empty buckets. */
  method EmptyPairTable() returns (pairs: array<nat>)
    ensures fresh(pairs) && pairs[..] == PairCounts([])
  {
    pairs := new nat[Buckets](_ => 0);
  }

  /** One sample goes into the bucket of its pair. */
  method CountPairSample(pairs: array<nat>, value: Byte, ghost s: seq<Byte>)
    requires pairs.Length == Buckets && pairs[..] == PairCounts(s)
    modifies pairs
    ensures pairs[..] == PairCounts(s + [value])
  {
    PairCountsStep(s, value);
    var pair := value / 2;
    pairs[pair] := pairs[pair] + 1;
  }

  /** One iteration of the counting loop: the R, G and B samples of a
      pixel go into their buckets in that order. */
  method CountPairPixel(pairs: array<nat>, red: Byte, green: Byte, blue: Byte, ghost s: seq<Byte>)
    requires pairs.Length == Buckets && pairs[..] == PairCounts(s)
    modifies pairs
    ensures pairs[..] == PairCounts(s + [red, green, blue])
  {
    CountPairSample(pairs, red, s);
    CountPairSample(pairs, green, s + [red]);
    CountPairSample(pairs, blue, s + [red] + [green]);
    AppendThree(s, red, green, blue);
  }

  /** The counting loop: the R, G and B samples of every pixel go into
      their buckets, and each is counted in `totalPixels`. */
  method CountPairs(pixels: seq<Byte>) returns (pairs: array<nat>, totalPixels: nat)
    requires IsPixelBuffer(pixels)
    ensures fresh(pairs)
    ensures pairs[..] == PairCounts(ColourSamples(pixels)) && totalPixels == |ColourSamples(pixels)|
  {
    pairs := EmptyPairTable();
    totalPixels := 0;
    var i := 0;
    assert pixels[..i] == [];
    ghost var done: seq<Byte> := [];
    while i < |pixels|
      invariant 0 <= i <= |pixels| && i % 4 == 0
      invariant pairs.Length == Buckets
      invariant done == ColourSamples(pixels[..i])
      invariant pairs[..] == PairCounts(done) && totalPixels == |done|
    {
      NextPixelFits(|pixels|, i);
      CountPairPixel(pairs, pixels[i], pixels[i + 1], pixels[i + 2], done);
      ColourSamplesStep(pixels, i);
      done := ColourSamples(pixels[..i + 4]);
      totalPixels := totalPixels + 3;
      i := i + 4;
    }
    assert pixels[..i] == pixels;
  }

  /** `Object.keys(pairs).length`: the occupied buckets. */
  method CountKeys(pairs: array<nat>) returns (pairCount: nat)
    requires pairs.Length == Buckets
    ensures pairCount == UsedBuckets(pairs[..], Buckets)
  {
    pairCount := 0;
    var k := 0;
    while k < Buckets
      invariant 0 <= k <= Buckets
      invariant pairCount == UsedBuckets(pairs[..], k)
    {
      if pairs[k] > 0 {
        pairCount := pairCount + 1;
      }
      k := k + 1;
    }
  }

  /** The loop over the table's values: each occupied bucket adds its
      relative distance from the expected count. */
  method SumDeviations(pairs: array<nat>, expected: real) returns (deviation: real)
    requires pairs.Length == Buckets && expected > 0.0
    ensures deviation == DeviationSum(pairs[..], Buckets, expected)
  {
    deviation := 0.0;
    var k := 0;
    while k < Buckets
      invariant 0 <= k <= Buckets
      invariant deviation == DeviationSum(pairs[..], k, expected)
    {
      var count := pairs[k];
      if count > 0 {
        deviation := deviation + Abs(count as real - expected) / expected;
      }
      k := k + 1;
    }
  }

  method PairsOfValuesAnalysis(pixels: seq<Byte>) returns (r: AnalyzerResult)
    requires IsPixelBuffer(pixels)
    ensures r == PairsResult(pixels)
  {
    var pairs, totalPixels := CountPairs(pixels);
    var deviation := 0.0;
    var pairCount := CountKeys(pairs);
    if pairCount > 0 {
      UsedBucketsOfSamples(ColourSamples(pixels));
      var expected := totalPixels as real / pairCount as real;
      deviation := SumDeviations(pairs, expected);
      deviation := deviation / pairCount as real;
    }
    var confidence := PairsConfidence(deviation);
    r := AnalyzerResult(
      PairsMethod, confidence,
      if confidence > 40.0 then "Unusual pair distribution detected" else "Normal pair distribution",
      PairsDetail(pairCount, deviation));
  }
}
