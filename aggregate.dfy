/** Combining the analyzers: the weighted mean of their confidences, the
    verdict the mean earns, the embedding method named for a detection, and
    the tally of verdicts over a batch of images. */
module Aggregate {
  import opened Results

  /** The weight of each analyzer in the overall confidence. */
  const Weights: map<string, real> := map[
    ChiSquareMethod := 0.3, RsMethod := 0.25, HistogramMethod := 0.2, PatternMethod := 0.15, PairsMethod := 0.1]

  /** The weight of a result's analyzer; an analyzer without a weight of
      its own counts 0.1. */
  function Weight(methodName: string): (w: real)
    ensures w > 0.0
    ensures methodName !in Weights ==> w == 0.1
  {
    if methodName in Weights then Weights[methodName] else 0.1
  }

  /** The weights of the five analyzers add up to 1. */
  lemma FiveWeightsSumToOne()
    ensures Weight(ChiSquareMethod) + Weight(RsMethod) + Weight(HistogramMethod)
          + Weight(PatternMethod) + Weight(PairsMethod) == 1.0
  {
  }

  /** The sum of confidence times weight over the results. */
  function WeightedSum(results: seq<AnalyzerResult>): (sum: real)
    ensures (forall i | 0 <= i < |results| :: results[i].confidence >= 0.0) ==> sum >= 0.0
  {
    if results == [] then 0.0
    else
      var last := results[|results| - 1];
      WeightedSum(results[..|results| - 1]) + last.confidence * Weight(last.methodName)
  }

  /** The sum of the weights of the results. */
  function TotalWeight(results: seq<AnalyzerResult>): (w: real)
    ensures w >= 0.0
    ensures w > 0.0 <==> results != []
  {
    if results == [] then 0.0
    else TotalWeight(results[..|results| - 1]) + Weight(results[|results| - 1].methodName)
  }

  /** The weighted mean of the confidences; 0 for no result. */
  function OverallConfidence(results: seq<AnalyzerResult>): (c: real)
    ensures results == [] ==> c == 0.0
  {
    var totalWeight := TotalWeight(results);
    if totalWeight > 0.0 then WeightedSum(results) / totalWeight else 0.0
  }

  /** The weighted sum is at least lo times the total weight. */
  predicate WeightedAtLeast(results: seq<AnalyzerResult>, lo: real) {
    lo * TotalWeight(results) <= WeightedSum(results)
  }

  /** The weighted sum is at most hi times the total weight. */
  predicate WeightedAtMost(results: seq<AnalyzerResult>, hi: real) {
    WeightedSum(results) <= hi * TotalWeight(results)
  }

  /** Both bounds hold of the empty sums. */
  lemma NoWeights(sum: real, total: real, lo: real, hi: real)
    requires sum == 0.0 && total == 0.0
    ensures lo * total <= sum <= hi * total
  {
  }

  /** One more result of confidence c >= lo and positive weight w keeps the
      lower bound. */
  lemma LowerStep(sum: real, total: real, c: real, w: real, lo: real, sum': real, total': real)
    requires w > 0.0 && lo <= c && lo * total <= sum
    requires sum' == sum + c * w && total' == total + w
    ensures lo * total' <= sum'
  {
    assert lo * w <= c * w;
  }

  /** One more result of confidence c <= hi and positive weight w keeps the
      upper bound. */
  lemma UpperStep(sum: real, total: real, c: real, w: real, hi: real, sum': real, total': real)
    requires w > 0.0 && c <= hi && sum <= hi * total
    requires sum' == sum + c * w && total' == total + w
    ensures sum' <= hi * total'
  {
    assert c * w <= hi * w;
  }

  /** Appending a result adds its weighted confidence and its weight. */
  lemma SumsOfAppend(init: seq<AnalyzerResult>, r: AnalyzerResult)
    ensures WeightedSum(init + [r]) == WeightedSum(init) + r.confidence * Weight(r.methodName)
    ensures TotalWeight(init + [r]) == TotalWeight(init) + Weight(r.methodName)
  {
    assert (init + [r])[..|init|] == init;
  }

  lemma AtLeastStep(results: seq<AnalyzerResult>, lo: real)
    requires results != [] && lo <= results[|results| - 1].confidence
    requires WeightedAtLeast(results[..|results| - 1], lo)
    ensures WeightedAtLeast(results, lo)
  {
    var init, last := results[..|results| - 1], results[|results| - 1];
    LowerStep(WeightedSum(init), TotalWeight(init), last.confidence, Weight(last.methodName), lo,
      WeightedSum(results), TotalWeight(results));
  }

  lemma AtMostStep(results: seq<AnalyzerResult>, hi: real)
    requires results != [] && results[|results| - 1].confidence <= hi
    requires WeightedAtMost(results[..|results| - 1], hi)
    ensures WeightedAtMost(results, hi)
  {
    var init, last := results[..|results| - 1], results[|results| - 1];
    UpperStep(WeightedSum(init), TotalWeight(init), last.confidence, Weight(last.methodName), hi,
      WeightedSum(results), TotalWeight(results));
  }

  /** Confidences all at least lo weigh at least lo per unit of weight. */
  lemma {:induction false} WeightedSumAtLeast(results: seq<AnalyzerResult>, lo: real)
    requires forall i | 0 <= i < |results| :: lo <= results[i].confidence
    ensures WeightedAtLeast(results, lo)
  {
    if results == [] {
      NoWeights(WeightedSum(results), TotalWeight(results), lo, lo);
    } else {
      WeightedSumAtLeast(results[..|results| - 1], lo);
      AtLeastStep(results, lo);
    }
  }

  /** Confidences all at most hi weigh at most hi per unit of weight. */
  lemma {:induction false} WeightedSumAtMost(results: seq<AnalyzerResult>, hi: real)
    requires forall i | 0 <= i < |results| :: results[i].confidence <= hi
    ensures WeightedAtMost(results, hi)
  {
    if results == [] {
      NoWeights(WeightedSum(results), TotalWeight(results), hi, hi);
    } else {
      WeightedSumAtMost(results[..|results| - 1], hi);
      AtMostStep(results, hi);
    }
  }

  /** Dividing the bound by the total weight. */
  lemma MeanWithin(sum: real, total: real, lo: real, hi: real)
    requires total > 0.0 && lo * total <= sum <= hi * total
    ensures lo <= sum / total <= hi
  {
    DivBelow(sum, total, lo);
    DivExceeds(sum, total, hi);
  }

  /** The overall confidence is a mean: it lies between the lowest and the
      highest confidence of the results. */
  lemma OverallWithin(results: seq<AnalyzerResult>, lo: real, hi: real)
    requires results != []
    requires forall i | 0 <= i < |results| :: lo <= results[i].confidence <= hi
    ensures lo <= OverallConfidence(results) <= hi
  {
    WeightedSumAtLeast(results, lo);
    WeightedSumAtMost(results, hi);
    MeanWithin(WeightedSum(results), TotalWeight(results), lo, hi);
  }

  /** Results that all report the same confidence give it as the overall
      confidence. */
  lemma OverallOfAgreement(results: seq<AnalyzerResult>, c: real)
    requires results != []
    requires forall i | 0 <= i < |results| :: results[i].confidence == c
    ensures OverallConfidence(results) == c
  {
    OverallWithin(results, c, c);
  }

  /** For the five analyzers, one result each, the overall confidence is
      0.3 chi-square + 0.25 RS + 0.2 histogram + 0.15 pattern + 0.1 pairs. */
  lemma OverallOfFive(chi: AnalyzerResult, rs: AnalyzerResult, histogram: AnalyzerResult,
                      pattern: AnalyzerResult, pairs: AnalyzerResult)
    requires chi.methodName == ChiSquareMethod && rs.methodName == RsMethod
    requires histogram.methodName == HistogramMethod && pattern.methodName == PatternMethod
    requires pairs.methodName == PairsMethod
    ensures OverallConfidence([chi, rs, histogram, pattern, pairs])
         == 0.3 * chi.confidence + 0.25 * rs.confidence + 0.2 * histogram.confidence
          + 0.15 * pattern.confidence + 0.1 * pairs.confidence
  {
    SumsOfFive(chi, rs, histogram, pattern, pairs);
  }

  /** The two sums over the five analyzer results: the weights add up to 1. */
  lemma SumsOfFive(chi: AnalyzerResult, rs: AnalyzerResult, histogram: AnalyzerResult,
                   pattern: AnalyzerResult, pairs: AnalyzerResult)
    requires chi.methodName == ChiSquareMethod && rs.methodName == RsMethod
    requires histogram.methodName == HistogramMethod && pattern.methodName == PatternMethod
    requires pairs.methodName == PairsMethod
    ensures WeightedSum([chi, rs, histogram, pattern, pairs])
         == 0.3 * chi.confidence + 0.25 * rs.confidence + 0.2 * histogram.confidence
          + 0.15 * pattern.confidence + 0.1 * pairs.confidence
    ensures TotalWeight([chi, rs, histogram, pattern, pairs]) == 1.0
  {
    assert [chi] == [] + [chi];
    SumsOfAppend([], chi);
    assert [chi, rs] == [chi] + [rs];
    SumsOfAppend([chi], rs);
    assert [chi, rs, histogram] == [chi, rs] + [histogram];
    SumsOfAppend([chi, rs], histogram);
    assert [chi, rs, histogram, pattern] == [chi, rs, histogram] + [pattern];
    SumsOfAppend([chi, rs, histogram], pattern);
    assert [chi, rs, histogram, pattern, pairs] == [chi, rs, histogram, pattern] + [pairs];
    SumsOfAppend([chi, rs, histogram, pattern], pairs);
    FiveWeightsSumToOne();
  }

  /** The loop over the results accumulating both sums. */
  method CalculateOverallConfidence(results: seq<AnalyzerResult>) returns (confidence: real)
    ensures confidence == OverallConfidence(results)
  {
    var weightedSum := 0.0;
    var totalWeight := 0.0;
    var i := 0;
    while i < |results|
      invariant 0 <= i <= |results|
      invariant weightedSum == WeightedSum(results[..i]) && totalWeight == TotalWeight(results[..i])
    {
      assert results[..i + 1][..i] == results[..i];
      var weight := Weight(results[i].methodName);
      weightedSum := weightedSum + results[i].confidence * weight;
      totalWeight := totalWeight + weight;
      i := i + 1;
    }
    assert results[..i] == results;
    confidence := if totalWeight > 0.0 then weightedSum / totalWeight else 0.0;
  }

  /** The verdict on one image. */
  datatype Status = Clean | Suspicious | Detected

  /** At least 70 is a detection, at least 30 is suspicious, the rest is
      clean. */
  function StatusOf(confidence: real): (s: Status)
    ensures s == Detected <==> confidence >= 70.0
    ensures s == Suspicious <==> 30.0 <= confidence < 70.0
    ensures s == Clean <==> confidence < 30.0
  {
    if confidence >= 70.0 then Detected
    else if confidence >= 30.0 then Suspicious
    else Clean
  }

  function Severity(s: Status): nat {
    match s
    case Clean => 0
    case Suspicious => 1
    case Detected => 2
  }

  /** A higher confidence never earns a milder verdict. */
  lemma StatusMonotone(a: real, b: real)
    requires a <= b
    ensures Severity(StatusOf(a)) <= Severity(StatusOf(b))
  {
  }

  /** The index of the first result carrying the method name; |results|
      when there is none (`results.find`). */
  function FindMethod(results: seq<AnalyzerResult>, methodName: string): (i: nat)
    ensures i <= |results|
    ensures forall j | 0 <= j < i :: results[j].methodName != methodName
    ensures i < |results| ==> results[i].methodName == methodName
  {
    if results == [] || results[0].methodName == methodName then 0
    else FindMethod(results[1..], methodName) + 1
  }

  /** Every pattern recognition result carries the scored patterns. */
  predicate PatternResultsHaveDetail(results: seq<AnalyzerResult>) {
    forall i | 0 <= i < |results| :: results[i].methodName == PatternMethod ==> results[i].detail.PatternDetail?
  }

  /** The detected pattern's key with the first underscore made a space,
      in capitals. */
  function MethodLabel(t: Technique): (tag: string)
    ensures |tag| == |t.Key()| && NoLowerCase(tag)
  {
    ToUpper(ReplaceFirst(t.Key(), '_', ' '))
  }

  /** The embedding method named for a detection: the pattern recognizer's
      technique when its confidence exceeds 30, otherwise LSB replacement
      when the chi-square confidence exceeds 60, otherwise unknown. Only
      the first result of each analyzer is consulted. */
  function IdentifyEmbeddingMethod(results: seq<AnalyzerResult>): (name: string)
    requires PatternResultsHaveDetail(results)
    ensures name != [] && NoLowerCase(name)
    ensures name == "LSB REPLACEMENT" || name == "UNKNOWN METHOD" || exists t: Technique :: name == MethodLabel(t)
  {
    var p := FindMethod(results, PatternMethod);
    if p < |results| && results[p].confidence > 30.0 then MethodLabel(results[p].detail.detectedPattern)
    else
      var c := FindMethod(results, ChiSquareMethod);
      if c < |results| && results[c].confidence > 60.0 then "LSB REPLACEMENT"
      else "UNKNOWN METHOD"
  }

  /** The identifier reported for the f5 technique. */
  lemma LabelOfF5()
    ensures MethodLabel(F5) == "F5"
  {
  }

  /** The identifier reported for the lsb_replacement technique. */
  lemma LabelOfLsbReplacement()
    ensures MethodLabel(LsbReplacement) == "LSB REPLACEMENT"
  {
    ReplacementText();
    UpperReplacementText();
  }

  lemma UpperReplacementText()
    ensures ToUpper("lsb replacement") == "LSB REPLACEMENT"
  {
  }

  /** Without a pattern result, a chi-square confidence above 60 reports LSB
      replacement and anything else an unknown method. */
  lemma FallbackIdentifiers(chi: AnalyzerResult)
    requires chi.methodName == ChiSquareMethod
    ensures IdentifyEmbeddingMethod([chi]) == if chi.confidence > 60.0 then "LSB REPLACEMENT" else "UNKNOWN METHOD"
    ensures IdentifyEmbeddingMethod([]) == "UNKNOWN METHOD"
  {
  }

  /** For the four results a detection consults (chi-square, RS, histogram,
      pattern), the rules read off each analyzer's own result. */
  lemma IdentifyOfFour(chi: AnalyzerResult, rs: AnalyzerResult, histogram: AnalyzerResult, pattern: AnalyzerResult)
    requires chi.methodName == ChiSquareMethod && rs.methodName == RsMethod
    requires histogram.methodName == HistogramMethod && pattern.methodName == PatternMethod
    requires pattern.detail.PatternDetail?
    ensures PatternResultsHaveDetail([chi, rs, histogram, pattern])
    ensures IdentifyEmbeddingMethod([chi, rs, histogram, pattern])
         == if pattern.confidence > 30.0 then MethodLabel(pattern.detail.detectedPattern)
            else if chi.confidence > 60.0 then "LSB REPLACEMENT"
            else "UNKNOWN METHOD"
  {
    assert ChiSquareMethod != PatternMethod && RsMethod != PatternMethod && HistogramMethod != PatternMethod;
    var results := [chi, rs, histogram, pattern];
    assert results[0].methodName != PatternMethod && results[1].methodName != PatternMethod;
    assert results[2].methodName != PatternMethod && results[3].methodName == PatternMethod;
    assert FindMethod(results, PatternMethod) == 3;
    assert FindMethod(results, ChiSquareMethod) == 0;
  }

  /** The counts of a batch: images seen and images per verdict. */
  datatype Tally = Tally(total: nat, clean: nat, suspicious: nat, detected: nat)

  /** One step of the batch reduction. */
  function Count(acc: Tally, s: Status): (t: Tally)
    ensures t.total == acc.total + 1
    ensures t.clean + t.suspicious + t.detected == acc.clean + acc.suspicious + acc.detected + 1
    ensures (s == Clean ==> t.clean == acc.clean + 1) && (s == Suspicious ==> t.suspicious == acc.suspicious + 1)
         && (s == Detected ==> t.detected == acc.detected + 1)
  {
    match s
    case Clean => acc.(total := acc.total + 1, clean := acc.clean + 1)
    case Suspicious => acc.(total := acc.total + 1, suspicious := acc.suspicious + 1)
    case Detected => acc.(total := acc.total + 1, detected := acc.detected + 1)
  }

  /** The batch summary: the verdicts reduced in order from a zero tally. */
  function BatchTally(statuses: seq<Status>): (t: Tally)
    ensures t.total == |statuses|
  {
    if statuses == [] then Tally(0, 0, 0, 0)
    else Count(BatchTally(statuses[..|statuses| - 1]), statuses[|statuses| - 1])
  }

  /** Every image is counted under exactly one verdict, and each verdict
      count is the number of images with that verdict. */
  lemma {:induction false} BatchTallyCounts(statuses: seq<Status>)
    ensures BatchTally(statuses).clean + BatchTally(statuses).suspicious + BatchTally(statuses).detected
         == BatchTally(statuses).total
    ensures BatchTally(statuses).clean == multiset(statuses)[Clean]
    ensures BatchTally(statuses).suspicious == multiset(statuses)[Suspicious]
    ensures BatchTally(statuses).detected == multiset(statuses)[Detected]
  {
    if statuses != [] {
      var init := statuses[..|statuses| - 1];
      assert statuses == init + [statuses[|statuses| - 1]];
      BatchTallyCounts(init);
    }
  }
}
