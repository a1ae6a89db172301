/** Pattern recognition: compares the least significant bits of neighbouring
    pixels, scores six embedding techniques by fixed rules on the share of
    equal neighbouring red LSBs, and reports the highest-scoring technique. */
module PatternRecognition {
  import opened Pixels
  import opened Results

  /** `v & 1` for a byte. */
  function Lsb(v: Byte): nat {
    v % 2
  }

  /** The number of passes of the loop `for (i = 0; i < len - 8; i += 4)`:
      pass k visits i = 4k. */
  function Steps(len: int): (n: nat)
    ensures n == 0 || 4 * (n - 1) < len - 8
    ensures 4 * n >= len - 8
    decreases len
  {
    if len - 8 <= 0 then 0 else Steps(len - 4) + 1
  }

  /** The three tallies of the LSB loop. */
  datatype LsbCounts = LsbCounts(sequential: nat, random: nat, evenOdd: nat)
  {
    function Total(): nat {
      sequential + random
    }
  }

  /** One pass on red sample `red`, the next pixel's red sample `next` and
      the green sample `green`: sequential when the two red LSBs are equal,
      random when not, and an even/odd pair when the red and green LSBs
      differ. */
  function Pass(prev: LsbCounts, red: Byte, next: Byte, green: Byte): (c: LsbCounts)
    ensures c.Total() == prev.Total() + 1
    ensures c.sequential == prev.sequential + 1 <==> Lsb(red) == Lsb(next)
    ensures c.random == prev.random + 1 <==> Lsb(red) != Lsb(next)
    ensures c.evenOdd == prev.evenOdd + 1 <==> Lsb(red) != Lsb(green)
    ensures prev.evenOdd <= c.evenOdd <= prev.evenOdd + 1
  {
    LsbCounts(
      prev.sequential + (if Lsb(red) == Lsb(next) then 1 else 0),
      prev.random + (if Lsb(red) == Lsb(next) then 0 else 1),
      prev.evenOdd + (if Lsb(red) != Lsb(green) then 1 else 0))
  }

  /** The tallies after the first n passes, pass k at offset 4k. Every pass
      is either sequential or random, and at most every pass finds an
      even/odd pair. */
  function Counts(pixels: seq<Byte>, n: nat): (c: LsbCounts)
    requires n <= Steps(|pixels|)
    ensures c.sequential + c.random == n && c.evenOdd <= n
  {
    if n == 0 then LsbCounts(0, 0, 0)
    else
      var i := 4 * (n - 1);
      Pass(Counts(pixels, n - 1), pixels[i], pixels[i + 4], pixels[i + 1])
  }

  /** One more pass tallies the pixels at offset 4n. */
  lemma PassStep(pixels: seq<Byte>, n: nat)
    requires n < Steps(|pixels|)
    ensures 4 * n + 4 < |pixels|
    ensures Counts(pixels, n + 1) == Pass(Counts(pixels, n), pixels[4 * n], pixels[4 * n + 4], pixels[4 * n + 1])
  {
  }

  /** The tallies of the whole loop: one comparison per pass, none for a
      buffer of at most two pixels. */
  function LsbTallies(pixels: seq<Byte>): (c: LsbCounts)
    ensures c.Total() == Steps(|pixels|)
    ensures |pixels| <= 8 <==> c.Total() == 0
  {
    Counts(pixels, Steps(|pixels|))
  }

  const NoScores := PatternScores(0, 0, 0, 0, 0, 0)

  /** The scoring rules, on the sequential ratio s = sequential / total:
      lsb_replacement 70 when s > 0.8, otherwise lsb_matching 50 when s < 0.2;
      f5 45 when evenOdd / (total * 0.25) > 1.5; steghide 30, hugo 25 and
      dct_based 35 when 0.3 < s < 0.7; nothing at all when total is 0. */
  function Scores(c: LsbCounts): (p: PatternScores)
    ensures c.Total() == 0 ==> p == NoScores
    ensures p.lsbReplacement in {0, 70} && p.lsbMatching in {0, 50} && p.f5 in {0, 45}
    ensures p.steghide in {0, 30} && p.hugo in {0, 25} && p.dctBased in {0, 35}
    ensures (p.steghide == 30 <==> p.hugo == 25) && (p.steghide == 30 <==> p.dctBased == 35)
  {
    if c.Total() == 0 then NoScores
    else
      var ratio := c.sequential as real / c.Total() as real;
      var adaptive := 0.3 < ratio < 0.7;
      PatternScores(
        lsbReplacement := if ratio > 0.8 then 70 else 0,
        lsbMatching := if !(ratio > 0.8) && ratio < 0.2 then 50 else 0,
        f5 := if c.evenOdd as real / (c.Total() as real * 0.25) > 1.5 then 45 else 0,
        steghide := if adaptive then 30 else 0,
        hugo := if adaptive then 25 else 0,
        dctBased := if adaptive then 35 else 0)
  }

  /** The rules on whole numbers: no ratio needs computing. */
  lemma ScoresByCounts(c: LsbCounts)
    ensures var p, n, s := Scores(c), c.Total(), c.sequential;
      && (p.lsbReplacement == 70 <==> n > 0 && 5 * s > 4 * n)
      && (p.lsbReplacement == 0 <==> !(n > 0 && 5 * s > 4 * n))
      && (p.lsbMatching == 50 <==> n > 0 && 5 * s < n)
      && (p.lsbMatching == 0 <==> !(n > 0 && 5 * s < n))
      && (p.f5 == 45 <==> n > 0 && 8 * c.evenOdd > 3 * n)
      && (p.f5 == 0 <==> !(n > 0 && 8 * c.evenOdd > 3 * n))
      && (p.steghide == 30 <==> n > 0 && 10 * s > 3 * n && 10 * s < 7 * n)
      && (p.steghide == 0 <==> !(n > 0 && 10 * s > 3 * n && 10 * s < 7 * n))
      && (p.hugo == 25 <==> p.steghide == 30) && (p.dctBased == 35 <==> p.steghide == 30)
      && (p.hugo == 0 <==> p.steghide == 0) && (p.dctBased == 0 <==> p.steghide == 0)
  {
    var n := c.Total();
    if n > 0 {
      var s, t := c.sequential as real, n as real;
      DivExceeds(s, t, 0.8);
      DivBelow(s, t, 0.2);
      DivExceeds(s, t, 0.3);
      DivBelow(s, t, 0.7);
      DivExceeds(c.evenOdd as real, t * 0.25, 1.5);
    }
  }

  /** lsb_replacement and lsb_matching are never both scored, and neither is
      scored together with the adaptive techniques. */
  lemma ScoresExclusive(c: LsbCounts)
    ensures var p := Scores(c);
      && !(p.lsbReplacement > 0 && p.lsbMatching > 0)
      && !(p.lsbReplacement > 0 && p.steghide > 0)
      && !(p.lsbMatching > 0 && p.steghide > 0)
  {
    ScoresByCounts(c);
  }

  /** The position of the key `keys.reduce((a, b) => score(a) > score(b) ? a : b)`
      picks: a highest score, and of the highest scores the last, since the
      running choice is kept only while strictly higher than the next key. */
  function StrongestAt(p: PatternScores, keys: seq<Technique>): (i: nat)
    requires keys != []
    ensures i < |keys|
    ensures forall k | 0 <= k < |keys| :: p.Get(keys[k]) <= p.Get(keys[i])
    ensures forall k | i < k < |keys| :: p.Get(keys[k]) < p.Get(keys[i])
  {
    if |keys| == 1 then 0
    else
      var a := StrongestAt(p, keys[..|keys| - 1]);
      if p.Get(keys[a]) > p.Get(keys[|keys| - 1]) then a else |keys| - 1
  }

  /** The technique the recognizer reports. */
  function DetectedPattern(p: PatternScores): (t: Technique)
    ensures forall k | 0 <= k < |TechniqueOrder| :: p.Get(TechniqueOrder[k]) <= p.Get(t)
  {
    TechniqueOrder[StrongestAt(p, TechniqueOrder)]
  }

  /** A pattern is announced exactly when the confidence exceeds 30. */
  function PatternDescription(t: Technique, confidence: real): (d: string)
    ensures d == "No specific pattern detected" <==> confidence <= 30.0
  {
    if confidence > 30.0 then ReplaceFirst(t.Key(), '_', ' ') + " pattern detected"
    else "No specific pattern detected"
  }

  /** The description announcing lsb_replacement. */
  lemma ReplacementDescription()
    ensures PatternDescription(LsbReplacement, 70.0) == "lsb replacement pattern detected"
  {
    ReplacementText();
    assert "lsb replacement" + " pattern detected" == "lsb replacement pattern detected";
  }

  /** The result reported for a patterns record: the strongest technique,
      its score as the confidence. */
  function Report(p: PatternScores): (r: AnalyzerResult)
    ensures r.methodName == PatternMethod && r.detail.PatternDetail? && r.detail.patterns == p
    ensures r.confidence == p.Get(r.detail.detectedPattern) as real
  {
    var t := DetectedPattern(p);
    var confidence := p.Get(t) as real;
    AnalyzerResult(PatternMethod, confidence, PatternDescription(t, confidence), PatternDetail(p, t))
  }

  /** The recognizer's result on a buffer: the scores of its LSB tallies,
      and as confidence the score of the reported technique, which no other
      technique exceeds. */
  function PatternResult(pixels: seq<Byte>): (r: AnalyzerResult)
    ensures r.methodName == PatternMethod && r.detail.PatternDetail?
    ensures r.detail.patterns == Scores(LsbTallies(pixels))
    ensures r.confidence == r.detail.patterns.Get(r.detail.detectedPattern) as real
    ensures forall k | 0 <= k < |TechniqueOrder| :: r.detail.patterns.Get(TechniqueOrder[k]) as real <= r.confidence
  {
    Report(Scores(LsbTallies(pixels)))
  }

  /** The confidence is the highest of the six scores, so one of 0, 25, 30,
      35, 45, 50 and 70, and the reported technique has that score. */
  lemma PatternConfidenceIsHighestScore(pixels: seq<Byte>)
    ensures var r := PatternResult(pixels);
      && (forall t: Technique :: r.detail.patterns.Get(t) as real <= r.confidence)
      && r.confidence in {0.0, 25.0, 30.0, 35.0, 45.0, 50.0, 70.0}
  {
    var p := Scores(LsbTallies(pixels));
    forall t: Technique
      ensures p.Get(t) <= p.Get(DetectedPattern(p))
    {
      match t
      case LsbReplacement => assert TechniqueOrder[0] == t;
      case LsbMatching => assert TechniqueOrder[1] == t;
      case F5 => assert TechniqueOrder[2] == t;
      case Steghide => assert TechniqueOrder[3] == t;
      case Hugo => assert TechniqueOrder[4] == t;
      case DctBased => assert TechniqueOrder[5] == t;
    }
  }

  /** With every score 0 the last key wins the ties: dct_based. */
  lemma AllZeroReportsDctBased()
    ensures DetectedPattern(NoScores) == DctBased
  {
    var i := StrongestAt(NoScores, TechniqueOrder);
    assert NoScores.Get(TechniqueOrder[5]) == NoScores.Get(TechniqueOrder[i]);
  }

  /** A buffer of at most two pixels gives the loop no pass: no score, the
      dct_based default at confidence 0. */
  lemma PatternOfTinyBuffer(pixels: seq<Byte>)
    requires |pixels| <= 8
    ensures LsbTallies(pixels) == LsbCounts(0, 0, 0)
    ensures PatternResult(pixels) == Report(NoScores)
  {
    NoPassOnTinyBuffer(pixels);
  }

  lemma NoPassOnTinyBuffer(pixels: seq<Byte>)
    requires |pixels| <= 8
    ensures LsbTallies(pixels) == LsbCounts(0, 0, 0)
  {
  }

  lemma NothingToReport()
    ensures Report(NoScores)
         == AnalyzerResult(PatternMethod, 0.0, "No specific pattern detected", PatternDetail(NoScores, DctBased))
  {
    AllZeroReportsDctBased();
  }

  /** When every pass sees equal red LSBs, every comparison is sequential. */
  lemma {:induction false} UniformRedLsbIsSequential(pixels: seq<Byte>, n: nat, b: nat)
    requires n <= Steps(|pixels|)
    requires forall k | 0 <= k <= n && 4 * k < |pixels| :: Lsb(pixels[4 * k]) == b
    ensures Counts(pixels, n).sequential == n
  {
    if n > 0 {
      UniformRedLsbIsSequential(pixels, n - 1, b);
      var i := 4 * (n - 1);
      assert Lsb(pixels[4 * (n - 1)]) == b && Lsb(pixels[4 * n]) == b;
    }
  }

  /** When the red LSB changes from each visited pixel to the next, every
      comparison is random. */
  lemma {:induction false} AlternatingRedLsbIsRandom(pixels: seq<Byte>, n: nat)
    requires n <= Steps(|pixels|)
    requires forall k | 0 <= k < n :: Lsb(pixels[4 * k]) != Lsb(pixels[4 * k + 4])
    ensures Counts(pixels, n).random == n
  {
    if n > 0 {
      AlternatingRedLsbIsRandom(pixels, n - 1);
      assert Lsb(pixels[4 * (n - 1)]) != Lsb(pixels[4 * (n - 1) + 4]);
    }
  }

  /** When every pass sees a red LSB different from the green LSB of the
      same pixel, every pass finds an even/odd pair. */
  lemma {:induction false} DifferingRedGreenLsbIsEvenOdd(pixels: seq<Byte>, n: nat)
    requires n <= Steps(|pixels|)
    requires forall k | 0 <= k < n :: Lsb(pixels[4 * k]) != Lsb(pixels[4 * k + 1])
    ensures Counts(pixels, n).evenOdd == n
  {
    if n > 0 {
      DifferingRedGreenLsbIsEvenOdd(pixels, n - 1);
      assert Lsb(pixels[4 * (n - 1)]) != Lsb(pixels[4 * (n - 1) + 1]);
    }
  }

  /** A record in which lsb_replacement outscores every other technique
      reports lsb_replacement. */
  lemma TopScoreIsReported(p: PatternScores)
    requires p.lsbReplacement > p.lsbMatching && p.lsbReplacement > p.f5 && p.lsbReplacement > p.steghide
    requires p.lsbReplacement > p.hugo && p.lsbReplacement > p.dctBased
    ensures DetectedPattern(p) == LsbReplacement
  {
    var i := StrongestAt(p, TechniqueOrder);
    assert p.Get(TechniqueOrder[0]) <= p.Get(TechniqueOrder[i]);
  }

  /** Red LSBs forced to one value (as sequential LSB replacement leaves
      them) on a buffer of more than two pixels: lsb_replacement is scored
      70 and outscores every other technique. */
  lemma UniformRedLsbScores(pixels: seq<Byte>, b: nat)
    requires |pixels| > 8
    requires forall k | 0 <= k && 4 * k < |pixels| :: Lsb(pixels[4 * k]) == b
    ensures var p := Scores(LsbTallies(pixels));
      && p.lsbReplacement == 70 && p.lsbMatching == 0 && p.f5 <= 45
      && p.steghide == 0 && p.hugo == 0 && p.dctBased == 0
  {
    var c := LsbTallies(pixels);
    UniformRedLsbIsSequential(pixels, Steps(|pixels|), b);
    ScoresByCounts(c);
  }

  /** ... and the recognizer reports it at confidence 70, describing it by
      its key with the underscore replaced by a space. */
  lemma PatternDetectsUniformRedLsb(pixels: seq<Byte>, b: nat)
    requires |pixels| > 8
    requires forall k | 0 <= k && 4 * k < |pixels| :: Lsb(pixels[4 * k]) == b
    ensures PatternResult(pixels).detail.detectedPattern == LsbReplacement
    ensures PatternResult(pixels).confidence == 70.0
    ensures PatternResult(pixels).description == "lsb replacement pattern detected"
  {
    UniformRedLsbScores(pixels, b);
    TopScoreIsReported(Scores(LsbTallies(pixels)));
    ReplacementDescription();
  }

  /** Red LSBs alternating from pixel to pixel (as LSB matching may leave
      them) on a buffer of more than two pixels: lsb_matching is scored 50,
      and neither lsb_replacement nor the adaptive techniques are scored. */
  lemma AlternatingRedLsbScores(pixels: seq<Byte>)
    requires |pixels| > 8
    requires forall k | 0 <= k && 4 * k + 4 < |pixels| :: Lsb(pixels[4 * k]) != Lsb(pixels[4 * k + 4])
    ensures var p := Scores(LsbTallies(pixels));
      && p.lsbMatching == 50 && p.lsbReplacement == 0
      && p.steghide == 0 && p.hugo == 0 && p.dctBased == 0
  {
    var c := LsbTallies(pixels);
    AlternatingRedLsbIsRandom(pixels, Steps(|pixels|));
    ScoresByCounts(c);
  }

  /** Red and green LSBs that differ in every visited pixel, on a buffer of
      more than two pixels: f5 is scored 45. */
  lemma DifferingRedGreenLsbScores(pixels: seq<Byte>)
    requires |pixels| > 8
    requires forall k | 0 <= k && 4 * k + 1 < |pixels| :: Lsb(pixels[4 * k]) != Lsb(pixels[4 * k + 1])
    ensures Scores(LsbTallies(pixels)).f5 == 45
  {
    var c := LsbTallies(pixels);
    var n := Steps(|pixels|);
    DifferingRedGreenLsbIsEvenOdd(pixels, n);
    ScoresByCounts(c);
  }

  /** The loop body: compare the red LSB with the next pixel's red LSB and
      with the green LSB of the same pixel. */
  method TallyPass(sequential0: nat, random0: nat, evenOdd0: nat, red: Byte, next: Byte, green: Byte)
    returns (sequentialLSB: nat, randomLSB: nat, evenOddPairs: nat)
    ensures LsbCounts(sequentialLSB, randomLSB, evenOddPairs)
         == Pass(LsbCounts(sequential0, random0, evenOdd0), red, next, green)
  {
    sequentialLSB, randomLSB, evenOddPairs := sequential0, random0, evenOdd0;
    var r1 := Lsb(red);
    var r2 := Lsb(next);
    if r1 == r2 {
      sequentialLSB := sequentialLSB + 1;
    } else {
      randomLSB := randomLSB + 1;
    }
    var g := Lsb(green);
    var d := r1 as int - g as int;
    if d == 1 || d == -1 {
      evenOddPairs := evenOddPairs + 1;
    }
  }

  /** The LSB loop: passes at i = 0, 4, ... while i < len - 8. */
  method CountLsbPatterns(pixels: seq<Byte>) returns (sequentialLSB: nat, randomLSB: nat, evenOddPairs: nat)
    ensures LsbCounts(sequentialLSB, randomLSB, evenOddPairs) == LsbTallies(pixels)
  {
    sequentialLSB, randomLSB, evenOddPairs := 0, 0, 0;
    var i := 0;
    ghost var pass := 0;
    while i < |pixels| - 8
      invariant i == 4 * pass && pass <= Steps(|pixels|)
      invariant LsbCounts(sequentialLSB, randomLSB, evenOddPairs) == Counts(pixels, pass)
    {
      PassStep(pixels, pass);
      sequentialLSB, randomLSB, evenOddPairs :=
        TallyPass(sequentialLSB, randomLSB, evenOddPairs, pixels[i], pixels[i + 4], pixels[i + 1]);
      i, pass := i + 4, pass + 1;
    }
  }

  /** The scoring rules applied to the patterns record, field by field. */
  method ScorePatterns(sequentialLSB: nat, randomLSB: nat, evenOddPairs: nat) returns (patterns: PatternScores)
    ensures patterns == Scores(LsbCounts(sequentialLSB, randomLSB, evenOddPairs))
  {
    patterns := NoScores;
    var total := sequentialLSB + randomLSB;
    if total > 0 {
      var sequentialRatio := sequentialLSB as real / total as real;
      if sequentialRatio > 0.8 {
        patterns := patterns.(lsbReplacement := 70);
      } else if sequentialRatio < 0.2 {
        patterns := patterns.(lsbMatching := 50);
      }
      if evenOddPairs as real / (total as real * 0.25) > 1.5 {
        patterns := patterns.(f5 := 45);
      }
      if sequentialRatio > 0.3 && sequentialRatio < 0.7 {
        patterns := patterns.(steghide := 30, hugo := 25, dctBased := 35);
      }
    }
  }

  method PatternRecognition(pixels: seq<Byte>) returns (r: AnalyzerResult)
    ensures r == PatternResult(pixels)
  {
    var sequentialLSB, randomLSB, evenOddPairs := CountLsbPatterns(pixels);
    var patterns := ScorePatterns(sequentialLSB, randomLSB, evenOddPairs);
    var maxPattern := TechniqueOrder[StrongestAt(patterns, TechniqueOrder)];
    var confidence := patterns.Get(maxPattern) as real;
    r := AnalyzerResult(
      PatternMethod, confidence,
      if confidence > 30.0 then ReplaceFirst(maxPattern.Key(), '_', ' ') + " pattern detected"
      else "No specific pattern detected",
      PatternDetail(patterns, maxPattern));
  }
}
