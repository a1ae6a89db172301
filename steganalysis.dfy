/** The analysis of one image: the five analyzers run on its pixel buffer,
    their confidences are combined into one, and the combined confidence
    decides the verdict; a detection also names the embedding method. */
module Steganalysis {
  import opened Pixels
  import opened Results
  import opened Aggregate
  import ChiSquare
  import RsAnalysis
  import HistogramAnalysis
  import PatternRecognition
  import PairsOfValues

  /** The five analyzer results, as reported with the verdict. */
  datatype Details = Details(
    chiSquare: AnalyzerResult, rsAnalysis: AnalyzerResult, histogram: AnalyzerResult,
    patternRecognition: AnalyzerResult, pairsOfValues: AnalyzerResult)
  {
    /** The results in the order they are combined. */
    function All(): seq<AnalyzerResult> {
      [chiSquare, rsAnalysis, histogram, patternRecognition, pairsOfValues]
    }

    /** The results a detection consults to name the method: all but the
        pairs analysis. */
    function Consulted(): seq<AnalyzerResult> {
      [chiSquare, rsAnalysis, histogram, patternRecognition]
    }

    /** Each result comes from the analyzer its field names. */
    predicate FromAnalyzers() {
      && chiSquare.methodName == ChiSquareMethod && rsAnalysis.methodName == RsMethod
      && histogram.methodName == HistogramMethod && patternRecognition.methodName == PatternMethod
      && patternRecognition.detail.PatternDetail? && pairsOfValues.methodName == PairsMethod
    }
  }

  /** The outcome of one analysis. */
  datatype Analysis = Analysis(status: Status, confidence: real, detectedMethod: Option<string>, details: Details)

  /** The verdict on a set of analyzer results. */
  function Verdict(d: Details): (a: Analysis)
    requires d.FromAnalyzers()
    ensures a.details == d && a.confidence == OverallConfidence(d.All())
    ensures a.status == StatusOf(a.confidence)
    ensures a.detectedMethod.Some? <==> a.status == Detected
  {
    IdentifyOfFour(d.chiSquare, d.rsAnalysis, d.histogram, d.patternRecognition);
    var confidence := OverallConfidence(d.All());
    var status := StatusOf(confidence);
    Analysis(status, confidence, if status == Detected then Some(IdentifyEmbeddingMethod(d.Consulted())) else None, d)
  }

  /** The five analyzers on one image. */
  function AnalyzerResults(pixels: seq<Byte>, width: nat, height: nat): (d: Details)
    requires IsPixelBuffer(pixels)
    ensures d.FromAnalyzers()
  {
    Details(
      ChiSquare.ChiSquareResult(pixels), RsAnalysis.RsResult(pixels, width, height),
      HistogramAnalysis.HistogramResult(pixels), PatternRecognition.PatternResult(pixels),
      PairsOfValues.PairsResult(pixels))
  }

  /** performSteganalysis: the verdict on the five analyzers' results. */
  function SteganalysisOf(pixels: seq<Byte>, width: nat, height: nat): (a: Analysis)
    requires IsPixelBuffer(pixels)
    ensures a.details == AnalyzerResults(pixels, width, height)
    ensures a.status == StatusOf(a.confidence) && (a.detectedMethod.Some? <==> a.status == Detected)
  {
    Verdict(AnalyzerResults(pixels, width, height))
  }

  /** The combined confidence is 0.3 chi-square + 0.25 RS + 0.2 histogram +
      0.15 pattern + 0.1 pairs. */
  lemma ConfidenceIsWeighted(pixels: seq<Byte>, width: nat, height: nat)
    requires IsPixelBuffer(pixels)
    ensures var a := SteganalysisOf(pixels, width, height);
      a.confidence == 0.3 * a.details.chiSquare.confidence + 0.25 * a.details.rsAnalysis.confidence
        + 0.2 * a.details.histogram.confidence + 0.15 * a.details.patternRecognition.confidence
        + 0.1 * a.details.pairsOfValues.confidence
  {
    var d := AnalyzerResults(pixels, width, height);
    OverallOfFive(d.chiSquare, d.rsAnalysis, d.histogram, d.patternRecognition, d.pairsOfValues);
  }

  /** The bounds of the five confidences: chi-square and histogram reach
      100, RS 90, pattern recognition 70 and the pairs analysis 50. */
  lemma ConfidenceBounds(pixels: seq<Byte>, width: nat, height: nat)
    requires IsPixelBuffer(pixels)
    ensures var d := AnalyzerResults(pixels, width, height);
      && 0.0 <= d.chiSquare.confidence <= 100.0 && 0.0 <= d.rsAnalysis.confidence <= 90.0
      && 0.0 <= d.histogram.confidence <= 100.0 && 0.0 <= d.patternRecognition.confidence <= 70.0
      && 0.0 <= d.pairsOfValues.confidence <= 50.0
  {
    PatternRecognition.PatternConfidenceIsHighestScore(pixels);
    PairsOfValues.PairsConfidenceAtMostHalf(pixels);
  }

  /** The combined confidence is a percentage, and in fact never exceeds
      30 + 22.5 + 20 + 10.5 + 5 = 88. */
  lemma ConfidenceAtMost88(pixels: seq<Byte>, width: nat, height: nat)
    requires IsPixelBuffer(pixels)
    ensures 0.0 <= SteganalysisOf(pixels, width, height).confidence <= 88.0
  {
    ConfidenceIsWeighted(pixels, width, height);
    ConfidenceBounds(pixels, width, height);
  }

  /** A detection needs a chi-square confidence of at least 40 and a
      histogram confidence of at least 10: the other analyzers together
      contribute at most 58 and 78 points. */
  lemma DetectionNeedsEvidence(pixels: seq<Byte>, width: nat, height: nat)
    requires IsPixelBuffer(pixels)
    requires SteganalysisOf(pixels, width, height).status == Detected
    ensures SteganalysisOf(pixels, width, height).details.chiSquare.confidence >= 40.0
    ensures SteganalysisOf(pixels, width, height).details.histogram.confidence >= 10.0
  {
    ConfidenceIsWeighted(pixels, width, height);
    ConfidenceBounds(pixels, width, height);
  }

  /** The method named on a detection: the pattern recognizer's technique
      above 30, otherwise LSB replacement when chi-square exceeds 60,
      otherwise unknown. */
  lemma DetectedMethodRule(pixels: seq<Byte>, width: nat, height: nat)
    requires IsPixelBuffer(pixels)
    ensures var a := SteganalysisOf(pixels, width, height);
      var pattern, chi := a.details.patternRecognition, a.details.chiSquare;
      a.detectedMethod
        == if a.confidence < 70.0 then None
           else if pattern.confidence > 30.0 then Some(MethodLabel(pattern.detail.detectedPattern))
           else if chi.confidence > 60.0 then Some("LSB REPLACEMENT")
           else Some("UNKNOWN METHOD")
  {
    var d := AnalyzerResults(pixels, width, height);
    IdentifyOfFour(d.chiSquare, d.rsAnalysis, d.histogram, d.patternRecognition);
  }

  /** An image without pixels: every analyzer but RS reports 0; RS has no
      group and reports its neutral 15. */
  lemma EmptyImageConfidences(pixels: seq<Byte>, width: nat, height: nat)
    requires |pixels| == 0 && (width < RsAnalysis.GroupSize || height < RsAnalysis.GroupSize)
    ensures var d := AnalyzerResults(pixels, width, height);
      && d.chiSquare.confidence == 0.0 && d.rsAnalysis.confidence == 15.0
      && d.histogram.confidence == 0.0 && d.patternRecognition.confidence == 0.0
      && d.pairsOfValues.confidence == 0.0
  {
    assert pixels == [];
    ChiSquare.ChiSquareOfEmptyBuffer();
    RsAnalysis.RsOfTinyImage(pixels, width, height);
    HistogramAnalysis.HistogramOfEmptyBuffer();
    PatternRecognition.PatternOfTinyBuffer(pixels);
    PatternRecognition.NothingToReport();
    PairsOfValues.PairsOfEmptyBuffer();
  }

  /** Results in which only RS scores, at 15, as for an image without
      pixels, combine to 0.25 * 15 = 3.75: clean, with no method named. */
  lemma VerdictOfNeutralRs(d: Details)
    requires d.FromAnalyzers() && d.rsAnalysis.confidence == 15.0
    requires d.chiSquare.confidence == 0.0 && d.histogram.confidence == 0.0
    requires d.patternRecognition.confidence == 0.0 && d.pairsOfValues.confidence == 0.0
    ensures Verdict(d).confidence == 3.75 && Verdict(d).status == Clean && Verdict(d).detectedMethod == None
  {
    OverallOfFive(d.chiSquare, d.rsAnalysis, d.histogram, d.patternRecognition, d.pairsOfValues);
  }

  /** The analysis: run the five analyzers, combine their confidences,
      decide the verdict and, on a detection, name the method. */
  method PerformSteganalysis(pixels: seq<Byte>, width: nat, height: nat) returns (a: Analysis)
    requires IsPixelBuffer(pixels)
    ensures a == SteganalysisOf(pixels, width, height)
  {
    var chiSquareResult := ChiSquare.ChiSquareTest(pixels);
    var rsResult := RsAnalysis.RsAnalysis(pixels, width, height);
    var histogramResult := HistogramAnalysis.HistogramAnalysis(pixels);
    var patternResult := PatternRecognition.PatternRecognition(pixels);
    var pairsResult := PairsOfValues.PairsOfValuesAnalysis(pixels);
    var details := Details(chiSquareResult, rsResult, histogramResult, patternResult, pairsResult);
    assert details == AnalyzerResults(pixels, width, height);
    var confidence := CalculateOverallConfidence(
      [chiSquareResult, rsResult, histogramResult, patternResult, pairsResult]);
    var status, detectedMethod := Clean, None;
    if confidence >= 70.0 {
      status := Detected;
      IdentifyOfFour(chiSquareResult, rsResult, histogramResult, patternResult);
      var name := IdentifyEmbeddingMethod([chiSquareResult, rsResult, histogramResult, patternResult]);
      detectedMethod := Some(name);
    } else if confidence >= 30.0 {
      status := Suspicious;
    } else {
      status := Clean;
    }
    a := Analysis(status, confidence, detectedMethod, details);
  }
}
