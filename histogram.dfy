/** Histogram analysis: a 256-bin histogram per colour channel, then a count
    of the adjacent bin pairs (2k, 2k + 1) whose two counts differ by more
    than half their mean, among pairs whose mean exceeds 5. */
module HistogramAnalysis {
  import opened Pixels
  import opened Results
  import opened Sums

  /** Number of bin pairs examined per channel: i = 0, 2, ..., 252. */
  const PairsPerChannel: nat := 127

  /** The most anomalies three channels can show. */
  const MaxAnomalies: nat := 381

  /** bins[v] is the number of samples equal to v. */
  function Histogram(samples: seq<Byte>): (bins: seq<int>)
    ensures |bins| == 256
  {
    if samples == [] then seq(256, _ => 0)
    else
      var init, v := samples[..|samples| - 1], samples[|samples| - 1];
      var h := Histogram(init);
      h[v := h[v] + 1]
  }

  lemma HistogramStep(samples: seq<Byte>, v: Byte)
    ensures Histogram(samples + [v]) == Histogram(samples)[v := Histogram(samples)[v] + 1]
  {
    assert (samples + [v])[..|samples|] == samples;
  }

  /** Bin v counts exactly the occurrences of v. */
  lemma {:induction false} HistogramCounts(samples: seq<Byte>, v: Byte)
    ensures Histogram(samples)[v] == multiset(samples)[v]
  {
    if samples != [] {
      var init := samples[..|samples| - 1];
      assert samples == init + [samples[|samples| - 1]];
      HistogramCounts(init, v);
    }
  }

  /** The bins of a histogram add up to the number of samples. */
  lemma {:induction false} HistogramTotal(samples: seq<Byte>)
    ensures Total(Histogram(samples)) == |samples|
  {
    if samples == [] {
      TotalOfZeros(256);
    } else {
      var init, v := samples[..|samples| - 1], samples[|samples| - 1];
      HistogramTotal(init);
      TotalUpdate(Histogram(init), v, 1);
    }
  }

  /** Each channel's 256 bins add up to the number of pixels. */
  lemma ChannelHistogramTotal(pixels: seq<Byte>, c: nat)
    requires IsPixelBuffer(pixels) && c < 3
    ensures Total(Histogram(Channel(pixels, c))) == |pixels| / 4
  {
    HistogramTotal(Channel(pixels, c));
  }

  /** The pair test: the mean of the two counts exceeds 5 and their
      difference exceeds half the mean. */
  predicate IsAnomalousPair(a: int, b: int)
    ensures IsAnomalousPair(a, b) ==> a + b > 10 && a != b
  {
    var diff := Abs((a - b) as real);
    var avg := (a + b) as real / 2.0;
    avg > 5.0 && diff / avg > 0.5
  }

  /** The same test on whole numbers: a + b > 10 and 4 |a - b| > a + b. */
  lemma AnomalousPairByCounts(a: int, b: int)
    ensures IsAnomalousPair(a, b) <==> a + b > 10 && 4 * (if a >= b then a - b else b - a) > a + b
  {
    var d := if a >= b then a - b else b - a;
    var avg := (a + b) as real / 2.0;
    assert Abs((a - b) as real) == d as real;
    if avg > 0.0 {
      DivExceeds(d as real, avg, 0.5);
    }
  }


  /** Two equal bins are never an anomaly. */
  lemma BalancedPairIsNormal(a: int)
    ensures !IsAnomalousPair(a, a)
  {
    AnomalousPairByCounts(a, a);
  }

  /** A pair with more than ten samples all in one bin is an anomaly. */
  lemma OneSidedPairIsAnomalous(a: int)
    requires a > 10
    ensures IsAnomalousPair(a, 0) && IsAnomalousPair(0, a)
  {
    AnomalousPairByCounts(a, 0);
    AnomalousPairByCounts(0, a);
  }

  /** How many of the first n bin pairs (2k, 2k + 1) are anomalous. */
  function AnomalyCount(bins: seq<int>, n: nat): (count: nat)
    requires 2 * n <= |bins|
    ensures count <= n
  {
    if n == 0 then 0
    else
      var i := 2 * (n - 1);
      AnomalyCount(bins, n - 1) + (if IsAnomalousPair(bins[i], bins[i + 1]) then 1 else 0)
  }

  /** A histogram whose paired bins are all equal has no anomaly. */
  lemma {:induction false} BalancedHistogramHasNoAnomaly(bins: seq<int>, n: nat)
    requires 2 * n <= |bins|
    requires forall k | 0 <= k < n :: bins[2 * k] == bins[2 * k + 1]
    ensures AnomalyCount(bins, n) == 0
  {
    if n > 0 {
      BalancedHistogramHasNoAnomaly(bins, n - 1);
      BalancedPairIsNormal(bins[2 * (n - 1)]);
    }
  }

  /** A histogram whose every pair has more than ten samples in its even
      bin and none in its odd bin has all n pairs anomalous. */
  lemma {:induction false} OneSidedHistogramIsAllAnomalies(bins: seq<int>, n: nat)
    requires 2 * n <= |bins|
    requires forall k | 0 <= k < n :: bins[2 * k] > 10 && bins[2 * k + 1] == 0
    ensures AnomalyCount(bins, n) == n
  {
    if n > 0 {
      OneSidedHistogramIsAllAnomalies(bins, n - 1);
      OneSidedPairIsAnomalous(bins[2 * (n - 1)]);
    }
  }

  /** The anomalies of the three channels together. */
  function Anomalies(pixels: seq<Byte>): (anomalies: nat)
    requires IsPixelBuffer(pixels)
    ensures anomalies <= MaxAnomalies
  {
    AnomalyCount(Histogram(Channel(pixels, 0)), PairsPerChannel)
      + AnomalyCount(Histogram(Channel(pixels, 1)), PairsPerChannel)
      + AnomalyCount(Histogram(Channel(pixels, 2)), PairsPerChannel)
  }

  /** Twice the share of the 381 pairs that are anomalous, as a percentage
      capped at 100. */
  function HistogramConfidence(anomalies: nat): (c: real)
    requires anomalies <= MaxAnomalies
    ensures 0.0 <= c <= 100.0
    ensures c == 100.0 <==> 2 * anomalies >= MaxAnomalies
    ensures anomalies == 0 <==> c == 0.0
  {
    Min(100.0, (anomalies as real / MaxAnomalies as real) * 200.0)
  }

  function HistogramResult(pixels: seq<Byte>): (r: AnalyzerResult)
    requires IsPixelBuffer(pixels)
    ensures r.methodName == HistogramMethod && r.detail.HistogramDetail?
    ensures r.detail.anomalies <= MaxAnomalies
    ensures 0.0 <= r.confidence <= 100.0
  {
    var anomalies := Anomalies(pixels);
    var confidence := HistogramConfidence(anomalies);
    AnalyzerResult(
      HistogramMethod, confidence,
      if confidence > 40.0 then "Histogram anomalies detected" else "Normal histogram distribution",
      HistogramDetail(anomalies))
  }

  /** An image without pixels shows no anomaly. */
  lemma HistogramOfEmptyBuffer()
    ensures HistogramResult([]).detail.anomalies == 0
    ensures HistogramResult([]).confidence == 0.0
  {
    var zeros := Histogram([]);
    assert forall k | 0 <= k < PairsPerChannel :: zeros[2 * k] == zeros[2 * k + 1];
    BalancedHistogramHasNoAnomaly(zeros, PairsPerChannel);
  }

  /** A histogram of 256 empty bins. */
  method EmptyHistogram() returns (bins: array<int>)
    ensures fresh(bins) && bins[..] == Histogram([])
  {
    bins := new int[256](_ => 0);
  }

  /** One sample goes into its bin. */
  method CountSample(bins: array<int>, value: Byte, ghost s: seq<Byte>)
    requires bins.Length == 256 && bins[..] == Histogram(s)
    modifies bins
    ensures bins[..] == Histogram(s + [value])
  {
    HistogramStep(s, value);
    bins[value] := bins[value] + 1;
  }

  /** One iteration of the counting loop: the pixel at offset i adds one
      to a bin of each channel's histogram. */
  method CountPixel(red: array<int>, green: array<int>, blue: array<int>, pixels: seq<Byte>, i: nat)
    requires IsPixelBuffer(pixels) && i % 4 == 0 && i + 4 <= |pixels|
    requires red != green && green != blue && red != blue
    requires red.Length == 256 && green.Length == 256 && blue.Length == 256
    requires red[..] == Histogram(Channel(pixels[..i], 0))
    requires green[..] == Histogram(Channel(pixels[..i], 1))
    requires blue[..] == Histogram(Channel(pixels[..i], 2))
    modifies red, green, blue
    ensures red[..] == Histogram(Channel(pixels[..i + 4], 0))
    ensures green[..] == Histogram(Channel(pixels[..i + 4], 1))
    ensures blue[..] == Histogram(Channel(pixels[..i + 4], 2))
  {
    ChannelStep(pixels, i);
    CountSample(red, pixels[i], Channel(pixels[..i], 0));
    CountSample(green, pixels[i + 1], Channel(pixels[..i], 1));
    CountSample(blue, pixels[i + 2], Channel(pixels[..i], 2));
  }

  /** The counting loop: every pixel's R, G and B samples go into the red,
      green and blue histograms. */
  method BuildHistograms(pixels: seq<Byte>) returns (red: array<int>, green: array<int>, blue: array<int>)
    requires IsPixelBuffer(pixels)
    ensures fresh(red) && fresh(green) && fresh(blue)
    ensures red[..] == Histogram(Channel(pixels, 0))
    ensures green[..] == Histogram(Channel(pixels, 1))
    ensures blue[..] == Histogram(Channel(pixels, 2))
  {
    red := EmptyHistogram();
    green := EmptyHistogram();
    blue := EmptyHistogram();
    var i := 0;
    assert pixels[..i] == [];
    while i < |pixels|
      invariant 0 <= i <= |pixels| && i % 4 == 0
      invariant red[..] == Histogram(Channel(pixels[..i], 0))
      invariant green[..] == Histogram(Channel(pixels[..i], 1))
      invariant blue[..] == Histogram(Channel(pixels[..i], 2))
    {
      NextPixelFits(|pixels|, i);
      CountPixel(red, green, blue, pixels, i);
      i := i + 4;
    }
    assert pixels[..i] == pixels;
  }

  /** The anomaly loop over one channel: i = 0, 2, ..., 252. */
  method CountAnomalies(bins: array<int>) returns (anomalies: nat)
    requires bins.Length == 256
    ensures anomalies == AnomalyCount(bins[..], PairsPerChannel)
  {
    anomalies := 0;
    var i := 0;
    while i < 254
      invariant 0 <= i <= 254 && i % 2 == 0
      invariant anomalies == AnomalyCount(bins[..], i / 2)
    {
      var diff := Abs((bins[i] - bins[i + 1]) as real);
      var avg := (bins[i] + bins[i + 1]) as real / 2.0;
      if avg > 5.0 && diff / avg > 0.5 {
        anomalies := anomalies + 1;
      }
      i := i + 2;
    }
  }

  method HistogramAnalysis(pixels: seq<Byte>) returns (r: AnalyzerResult)
    requires IsPixelBuffer(pixels)
    ensures r == HistogramResult(pixels)
  {
    var red, green, blue := BuildHistograms(pixels);
    var anomalies := 0;
    var a := CountAnomalies(red);
    anomalies := anomalies + a;
    a := CountAnomalies(green);
    anomalies := anomalies + a;
    a := CountAnomalies(blue);
    anomalies := anomalies + a;
    assert anomalies == Anomalies(pixels);
    var confidence := HistogramConfidence(anomalies);
    r := AnalyzerResult(
      HistogramMethod, confidence,
      if confidence > 40.0 then "Histogram anomalies detected" else "Normal histogram distribution",
      HistogramDetail(anomalies));
  }
}
