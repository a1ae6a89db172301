/** The chi-square pairs-of-values test: every R, G, B sample is tallied
    as even or odd within its pair bucket floor(v/2)*2, and buckets with more
    than five samples contribute the classical chi-square term against the
    hypothesis that even and odd are equally frequent. */
module ChiSquare {
  import opened Pixels
  import opened Results
  import opened Sums

  /** The key of the pair bucket a sample lands in. */
  function PairKey(v: Byte): (key: Byte)
    ensures key % 2 == 0 && key <= v <= key + 1
    ensures v % 2 == 0 <==> v == key
  {
    (v / 2) * 2
  }

  /** The even and odd tallies of the 128 pair buckets after the samples s
      have been read in order: sample v raises the even tally (v even) or
      the odd tally (v odd) of bucket PairKey(v) / 2, whose key is PairKey(v). */
  function EvenTallies(s: seq<Byte>): (t: seq<int>)
    ensures |t| == 128
  {
    if s == [] then seq(128, _ => 0)
    else
      var t, v := EvenTallies(s[..|s| - 1]), s[|s| - 1];
      if v % 2 == 0 then t[PairKey(v) / 2 := t[PairKey(v) / 2] + 1] else t
  }

  function OddTallies(s: seq<Byte>): (t: seq<int>)
    ensures |t| == 128
  {
    if s == [] then seq(128, _ => 0)
    else
      var t, v := OddTallies(s[..|s| - 1]), s[|s| - 1];
      if v % 2 == 1 then t[PairKey(v) / 2 := t[PairKey(v) / 2] + 1] else t
  }

  /** Reading one more sample, in the terms of the recursive definitions:
      an even sample raises its bucket's even tally... */
  lemma EvenTalliesStep(s: seq<Byte>, v: Byte)
    ensures EvenTallies(s + [v])
         == if v % 2 == 0 then EvenTallies(s)[PairKey(v) / 2 := EvenTallies(s)[PairKey(v) / 2] + 1]
            else EvenTallies(s)
  {
    assert (s + [v])[..|s|] == s;
  }

  /** ... and an odd sample its odd tally. */
  lemma OddTalliesStep(s: seq<Byte>, v: Byte)
    ensures OddTallies(s + [v])
         == if v % 2 == 1 then OddTallies(s)[PairKey(v) / 2 := OddTallies(s)[PairKey(v) / 2] + 1]
            else OddTallies(s)
  {
    assert (s + [v])[..|s|] == s;
  }

  /** What the tallies count: the even tally of the bucket with key 2k is the
      number of samples equal to 2k, its odd tally the number equal to 2k + 1. */
  lemma {:induction false} TalliesCountValues(s: seq<Byte>, k: nat)
    requires k < 128
    ensures EvenTallies(s)[k] == multiset(s)[2 * k]
    ensures OddTallies(s)[k] == multiset(s)[2 * k + 1]
  {
    if s != [] {
      var t, v := s[..|s| - 1], s[|s| - 1];
      assert s == t + [v];
      TalliesCountValues(t, k);
    }
  }

  /** Every sample is tallied exactly once: the even and odd tallies of all
      buckets sum to the number of samples. */
  lemma {:induction false} TalliesCountEverySample(s: seq<Byte>)
    ensures Total(EvenTallies(s)) + Total(OddTallies(s)) == |s|
  {
    if s == [] {
      TotalOfZeros(128);
    } else {
      var t, v := s[..|s| - 1], s[|s| - 1];
      TalliesCountEverySample(t);
      if v % 2 == 0 {
        TotalUpdate(EvenTallies(t), PairKey(v) / 2, 1);
      } else {
        TotalUpdate(OddTallies(t), PairKey(v) / 2, 1);
      }
    }
  }

  /** The chi-square contribution of one bucket with tallies e and o, whose
      expected tally under the null hypothesis is (e + o) / 2. */
  function PairTerm(e: int, o: int): (t: real)
    requires e + o > 0
    ensures t >= 0.0
  {
    var expected := (e + o) as real / 2.0;
    (e as real - expected) * (e as real - expected) / expected
      + (o as real - expected) * (o as real - expected) / expected
  }

  /** An independent closed form: a bucket contributes its squared even/odd
      imbalance over its size, so it is never negative and is zero exactly
      when the bucket is balanced. */
  lemma PairTermIsSquaredImbalance(e: int, o: int)
    requires e + o > 0
    ensures PairTerm(e, o) == ((e - o) * (e - o)) as real / (e + o) as real
    ensures PairTerm(e, o) >= 0.0
    ensures PairTerm(e, o) == 0.0 <==> e == o
  {
    var n := (e + o) as real;
    var d := (e - o) as real;
    var expected := n / 2.0;
    assert e as real - expected == d / 2.0;
    assert o as real - expected == -d / 2.0;
    assert (d / 2.0) * (d / 2.0) / expected == d * d / (2.0 * n);
    assert (-d / 2.0) * (-d / 2.0) / expected == d * d / (2.0 * n);
    assert d * d / (2.0 * n) + d * d / (2.0 * n) == d * d / n;
    assert ((e - o) * (e - o)) as real == d * d;
    if e != o {
      assert d * d > 0.0;
    }
  }

  /** Sum of the terms of the first n buckets holding more than five
      samples; never negative, since no term is. */
  function ChiSum(even: seq<int>, odd: seq<int>, n: nat): (sum: real)
    requires n <= |even| && n <= |odd|
    ensures sum >= 0.0
  {
    if n == 0 then 0.0
    else
      ChiSum(even, odd, n - 1)
        + (if even[n - 1] + odd[n - 1] > 5 then PairTerm(even[n - 1], odd[n - 1]) else 0.0)
  }

  /** Number of the first n buckets holding more than five samples. */
  function ValidPairs(even: seq<int>, odd: seq<int>, n: nat): (valid: nat)
    requires n <= |even| && n <= |odd|
    ensures valid <= n
  {
    if n == 0 then 0
    else ValidPairs(even, odd, n - 1) + (if even[n - 1] + odd[n - 1] > 5 then 1 else 0)
  }

  /** r is the mean of the terms of the qualifying buckets among 128: r
      times their number gives their sum. */
  predicate IsMeanTerm(r: real, even: seq<int>, odd: seq<int>)
    requires |even| == 128 && |odd| == 128
  {
    ValidPairs(even, odd, 128) > 0 ==> r * ValidPairs(even, odd, 128) as real == ChiSum(even, odd, 128)
  }

  /** The mean term over the qualifying buckets of 128 tallies; with no
      qualifying bucket the (then zero) sum itself. */
  function MeanTerm(even: seq<int>, odd: seq<int>): (r: real)
    requires |even| == 128 && |odd| == 128
    ensures IsMeanTerm(r, even, odd)
  {
    var sum := ChiSum(even, odd, 128);
    var valid := ValidPairs(even, odd, 128);
    if valid > 0 then sum / valid as real else sum
  }

  /** The normalised statistic: the mean term over qualifying buckets. */
  function Statistic(s: seq<Byte>): (r: real)
    ensures IsMeanTerm(r, EvenTallies(s), OddTallies(s))
  {
    MeanTerm(EvenTallies(s), OddTallies(s))
  }

  /** The affine map of the statistic onto [0, 100]: 0.5 maps to 0. */
  function Confidence(statistic: real): (c: real)
    ensures 0.0 <= c <= 100.0
    ensures statistic <= 0.5 ==> c == 0.0
    ensures statistic >= 2.5 ==> c == 100.0
  {
    Min(100.0, Max(0.0, (statistic - 0.5) * 50.0))
  }

  function ChiSquareResult(pixels: seq<Byte>): (r: AnalyzerResult)
    requires IsPixelBuffer(pixels)
    ensures r.methodName == ChiSquareMethod && r.detail.ChiSquareDetail?
    ensures 0.0 <= r.confidence <= 100.0
  {
    var chi := Statistic(ColourSamples(pixels));
    var confidence := Confidence(chi);
    AnalyzerResult(
      ChiSquareMethod, confidence,
      if confidence > 50.0 then "Anomalous LSB distribution detected" else "Normal LSB distribution",
      ChiSquareDetail(chi))
  }

  /** Buckets with at most five samples contribute nothing. */
  lemma {:induction false} SparseBucketsContributeNothing(even: seq<int>, odd: seq<int>, n: nat)
    requires n <= |even| && n <= |odd|
    requires forall k | 0 <= k < n :: even[k] + odd[k] <= 5
    ensures ChiSum(even, odd, n) == 0.0 && ValidPairs(even, odd, n) == 0
  {
    if n > 0 {
      SparseBucketsContributeNothing(even, odd, n - 1);
    }
  }

  /** Balanced buckets (even tally equal to odd tally) contribute nothing. */
  lemma {:induction false} BalancedBucketsContributeNothing(even: seq<int>, odd: seq<int>, n: nat)
    requires n <= |even| && n <= |odd|
    requires forall k | 0 <= k < n :: even[k] == odd[k]
    ensures ChiSum(even, odd, n) == 0.0
  {
    if n > 0 {
      BalancedBucketsContributeNothing(even, odd, n - 1);
      if even[n - 1] + odd[n - 1] > 5 {
        PairTermIsSquaredImbalance(even[n - 1], odd[n - 1]);
      }
    }
  }

  /** When every bucket is one-sided (all even or all odd), each qualifying
      bucket contributes its size, which exceeds five. */
  lemma {:induction false} OneSidedBucketsContributeTheirSize(even: seq<int>, odd: seq<int>, n: nat)
    requires n <= |even| && n <= |odd|
    requires forall k | 0 <= k < n :: even[k] == 0 || odd[k] == 0
    ensures ChiSum(even, odd, n) >= 6.0 * ValidPairs(even, odd, n) as real
  {
    if n > 0 {
      OneSidedBucketsContributeTheirSize(even, odd, n - 1);
      var e, o := even[n - 1], odd[n - 1];
      if e + o > 5 {
        OneSidedTerm(e, o);
        var v := ValidPairs(even, odd, n - 1);
        assert ValidPairs(even, odd, n) == v + 1;
        assert 6.0 * (v + 1) as real == 6.0 * v as real + 6.0;
      } else {
        assert ValidPairs(even, odd, n) == ValidPairs(even, odd, n - 1);
      }
    }
  }

  /** A one-sided bucket contributes its size. */
  lemma OneSidedTerm(e: int, o: int)
    requires e == 0 || o == 0
    requires e + o > 5
    ensures PairTerm(e, o) == (e + o) as real
  {
    PairTermIsSquaredImbalance(e, o);
    var x := (e + o) as real;
    assert ((e - o) * (e - o)) as real == x * x;
    assert x * x / x == x;
  }

  /** A bucket with more than five samples is counted as valid. */
  lemma {:induction false} QualifyingBucketIsValid(even: seq<int>, odd: seq<int>, n: nat, k: nat)
    requires k < n <= |even| && n <= |odd|
    requires even[k] + odd[k] > 5
    ensures ValidPairs(even, odd, n) > 0
  {
    if k < n - 1 {
      QualifyingBucketIsValid(even, odd, n - 1, k);
    }
  }

  /** The statistic is never negative, since the summed terms are not. */
  lemma StatisticNonnegative(s: seq<Byte>)
    ensures Statistic(s) >= 0.0
  {
  }

  /** An empty buffer has statistic 0 and confidence 0. */
  lemma ChiSquareOfEmptyBuffer()
    ensures ChiSquareResult([]).detail.score == 0.0
    ensures ChiSquareResult([]).confidence == 0.0
  {
    assert ColourSamples([]) == [];
    SparseBucketsContributeNothing(EvenTallies([]), OddTallies([]), 128);
  }

  /** Under the null hypothesis of LSB embedding (every bucket's even and
      odd tallies equal) the statistic is 0 and the confidence 0. */
  lemma ChiSquareOfBalancedPairs(pixels: seq<Byte>)
    requires IsPixelBuffer(pixels)
    requires forall k | 0 <= k < 128 :: EvenTallies(ColourSamples(pixels))[k] == OddTallies(ColourSamples(pixels))[k]
    ensures ChiSquareResult(pixels).detail.score == 0.0
    ensures ChiSquareResult(pixels).confidence == 0.0
  {
    var s := ColourSamples(pixels);
    BalancedBucketsContributeNothing(EvenTallies(s), OddTallies(s), 128);
  }

  /** Samples that all share the least significant bit b leave one side of
      every bucket empty. */
  lemma ForcedLsbLeavesBucketsOneSided(s: seq<Byte>, b: nat, k: nat)
    requires b < 2 && k < 128
    requires forall j | 0 <= j < |s| :: s[j] % 2 == b
    ensures EvenTallies(s)[k] == 0 || OddTallies(s)[k] == 0
  {
    TalliesCountValues(s, k);
    if b == 0 {
      assert 2 * k + 1 !in s;
    } else {
      assert 2 * k !in s;
    }
  }

  /** One-sided tallies with at least one qualifying bucket give a mean term
      of at least 6. */
  lemma OneSidedMeanTerm(even: seq<int>, odd: seq<int>, k: nat)
    requires |even| == 128 && |odd| == 128 && k < 128
    requires forall j | 0 <= j < 128 :: even[j] == 0 || odd[j] == 0
    requires even[k] + odd[k] > 5
    ensures ValidPairs(even, odd, 128) > 0
    ensures ChiSum(even, odd, 128) / ValidPairs(even, odd, 128) as real >= 6.0
  {
    OneSidedBucketsContributeTheirSize(even, odd, 128);
    QualifyingBucketIsValid(even, odd, 128, k);
    var sum, valid := ChiSum(even, odd, 128), ValidPairs(even, odd, 128) as real;
    DivBelow(sum, valid, 6.0);
  }

  /** Samples that all share the least significant bit b, with some value
      occurring more than five times, have a statistic of at least 6. */
  lemma ForcedLsbStatistic(s: seq<Byte>, b: nat, v: Byte)
    requires b < 2
    requires forall j | 0 <= j < |s| :: s[j] % 2 == b
    requires multiset(s)[v] > 5
    ensures Statistic(s) >= 6.0
  {
    var even, odd := EvenTallies(s), OddTallies(s);
    forall k | 0 <= k < 128
      ensures even[k] == 0 || odd[k] == 0
    {
      ForcedLsbLeavesBucketsOneSided(s, b, k);
    }
    TalliesCountValues(s, v / 2);
    OneSidedMeanTerm(even, odd, v / 2);
  }

  /** When every colour sample has the same least significant bit b and some
      value occurs more than five times, every qualifying bucket is one-sided,
      the statistic is at least 6 and the confidence saturates at 100. */
  lemma ChiSquareDetectsForcedLsb(pixels: seq<Byte>, b: nat, v: Byte)
    requires IsPixelBuffer(pixels) && b < 2
    requires forall j | 0 <= j < |ColourSamples(pixels)| :: ColourSamples(pixels)[j] % 2 == b
    requires multiset(ColourSamples(pixels))[v] > 5
    ensures ChiSquareResult(pixels).detail.score >= 6.0
    ensures ChiSquareResult(pixels).confidence == 100.0
  {
    ForcedLsbStatistic(ColourSamples(pixels), b, v);
  }

  /** The forEach body: tally one sample into its pair bucket. */
  method TallySample(even: array<int>, odd: array<int>, value: Byte, ghost s: seq<Byte>)
    requires even != odd && even.Length == 128 && odd.Length == 128
    requires even[..] == EvenTallies(s) && odd[..] == OddTallies(s)
    modifies even, odd
    ensures even[..] == EvenTallies(s + [value]) && odd[..] == OddTallies(s + [value])
  {
    EvenTalliesStep(s, value);
    OddTalliesStep(s, value);
    var pair := PairKey(value);
    if value % 2 == 0 {
      even[pair / 2] := even[pair / 2] + 1;
    } else {
      odd[pair / 2] := odd[pair / 2] + 1;
    }
  }

  /** One iteration of the counting loop: the R, G and B samples of a
      pixel go through the forEach body in that order. */
  method TallyPixel(even: array<int>, odd: array<int>, red: Byte, green: Byte, blue: Byte, ghost s: seq<Byte>)
    requires even != odd && even.Length == 128 && odd.Length == 128
    requires even[..] == EvenTallies(s) && odd[..] == OddTallies(s)
    modifies even, odd
    ensures even[..] == EvenTallies(s + [red, green, blue])
    ensures odd[..] == OddTallies(s + [red, green, blue])
  {
    TallySample(even, odd, red, s);
    TallySample(even, odd, green, s + [red]);
    TallySample(even, odd, blue, s + [red] + [green]);
    AppendThree(s, red, green, blue);
  }

  /** The counting loop: tallies every R, G, B sample into its pair bucket. */
  method TallyPairs(pixels: seq<Byte>) returns (even: array<int>, odd: array<int>, totalPairs: nat)
    requires IsPixelBuffer(pixels)
    ensures fresh(even) && fresh(odd)
    ensures even[..] == EvenTallies(ColourSamples(pixels)) && odd[..] == OddTallies(ColourSamples(pixels))
    ensures totalPairs == |ColourSamples(pixels)|
  {
    even := new int[128](_ => 0);
    odd := new int[128](_ => 0);
    totalPairs := 0;
    var i := 0;
    assert even[..] == EvenTallies([]) && odd[..] == OddTallies([]);
    assert pixels[..i] == [];
    ghost var done: seq<Byte> := [];
    while i < |pixels|
      invariant 0 <= i <= |pixels| && i % 4 == 0
      invariant done == ColourSamples(pixels[..i])
      invariant even[..] == EvenTallies(done) && odd[..] == OddTallies(done)
      invariant totalPairs == 3 * (i / 4)
    {
      NextPixelFits(|pixels|, i);
      TallyPixel(even, odd, pixels[i], pixels[i + 1], pixels[i + 2], done);
      ColourSamplesStep(pixels, i);
      done := ColourSamples(pixels[..i + 4]);
      totalPairs := totalPairs + 3;
      i := i + 4;
    }
    assert pixels[..i] == pixels;
  }

  /** The accumulation loop over the buckets: the sum of the terms of the
      buckets with more than five samples, and how many there are. */
  method SumTerms(even: array<int>, odd: array<int>) returns (chiSquare: real, validPairs: nat)
    requires even.Length == 128 && odd.Length == 128
    ensures chiSquare == ChiSum(even[..], odd[..], 128)
    ensures validPairs == ValidPairs(even[..], odd[..], 128)
  {
    chiSquare := 0.0;
    validPairs := 0;
    var k := 0;
    while k < 128
      invariant 0 <= k <= 128
      invariant chiSquare == ChiSum(even[..], odd[..], k)
      invariant validPairs == ValidPairs(even[..], odd[..], k)
    {
      var e, o := even[k], odd[k];
      if e + o > 5 {
        var expected := (e + o) as real / 2.0;
        if expected > 0.0 {
          ghost var before := chiSquare;
          chiSquare := chiSquare + (e as real - expected) * (e as real - expected) / expected;
          chiSquare := chiSquare + (o as real - expected) * (o as real - expected) / expected;
          validPairs := validPairs + 1;
          assert chiSquare == before + PairTerm(e, o);
        }
      }
      k := k + 1;
    }
  }

  method ChiSquareTest(pixels: seq<Byte>) returns (r: AnalyzerResult)
    requires IsPixelBuffer(pixels)
    ensures r == ChiSquareResult(pixels)
  {
    var even, odd, totalPairs := TallyPairs(pixels);
    var chiSquare, validPairs := SumTerms(even, odd);
    if validPairs > 0 {
      chiSquare := chiSquare / validPairs as real;
    }
    var confidence := Confidence(chiSquare);
    r := AnalyzerResult(
      ChiSquareMethod, confidence,
      if confidence > 50.0 then "Anomalous LSB distribution detected" else "Normal LSB distribution",
      ChiSquareDetail(chiSquare));
  }
}
