# Statistical steganalysis core of StegAnalyzer

This project models the statistical core of the `StegAnalyzer` class in
`app.js`, a browser tool that judges whether an image hides a message in
its least significant bits. The core is a pipeline over the image's RGBA
byte buffer:

- **Five analyzers.** Each one walks the buffer and reports a method name,
  a confidence and its own metrics:
  - the chi-square pairs-of-values test (`chi_square.dfy`);
  - RS analysis on the red channel's 4x4 groups (`rs_analysis.dfy`);
  - the adjacent-bin histogram test (`histogram.dfy`);
  - LSB pattern recognition with fixed technique scores (`patterns.dfy`);
  - the pairs-of-values deviation test (`pairs_of_values.dfy`).
- **Two combiners** (`aggregate.dfy`):
  - the weighted overall confidence;
  - the priority rule that names the embedding method.
  The same file holds the status thresholds and the batch tally.
- **The orchestrator** (`steganalysis.dfy`). It runs the five analyzers,
  combines their confidences and decides the verdict: detected at 70 or
  more, suspicious at 30 or more, clean below 30.

`pixels.dfy` holds the buffer (a sequence of bytes whose length is a
multiple of four) and the R, G and B sample sequences the analyzers read.
`results.dfy` holds the result records and the string helpers
(`replace` with a one-character pattern, `toUpperCase`).
`sums.dfy` holds the sum of a sequence of counts, which the tallying
analyzers use.

The analyzers keep the source's form. Each one is a method whose loops
update counters and arrays in place:

- the `pairs` maps become arrays of 128 buckets;
- the histograms become three arrays of 256 bins;
- the LSB counters and the patterns record become local variables.

Each such method is proved equal to a pure specification function
(`ChiSquareResult`, `RsResult`, `HistogramResult`, `PatternResult`,
`PairsResult`). The properties are lemmas about those functions. JS
numbers are exact reals.

Some facts the model establishes about the design:

- The pairs-of-values deviation never exceeds 2, so that analyzer's
  confidence never exceeds 50.
- RS confidence never exceeds 90 and pattern confidence never exceeds 70.
  The overall confidence therefore never exceeds 88.
- A detection needs a chi-square confidence of at least 40 and a
  histogram confidence of at least 10.

In the RS loop, the row offset `(y + dy) * width` is computed once per
group row rather than once per pixel. It is the same value.

## Model

| member | source | states |
|---|---|---|
| Pixels.ColourSamples | app.js:298-301 | the samples read are R, G, B of each pixel in buffer order, 3 per pixel |
| Pixels.Channel | app.js:395-398 | one sample of a channel per pixel, so a channel has length/4 samples |
| Pixels.ColourSamplesStep | app.js:298-301 | reading one more pixel appends exactly its R, G, B samples |
| Pixels.ChannelStep | app.js:395-398 | reading one more pixel appends its sample to each channel |
| Results.ReplaceFirst | app.js:485 | `replace('_', ' ')` keeps the length of the string |
| Results.ReplaceFirstReplacesFirst | app.js:485 | only the first occurrence of the pattern character is replaced; every other character is kept |
| Results.ReplaceFirstAt | app.js:485 | when the first `from` follows a prefix without one, exactly that character becomes `to` |
| Results.ReplacementText | app.js:485 | the lsb_replacement key with its underscore replaced reads "lsb replacement" |
| Results.ToUpper | app.js:559 | `toUpperCase` keeps the length, leaves no lower-case letter, capitalises each letter and keeps every other character |
| ChiSquare.PairKey | app.js:305 | every sample lands in an even key `floor(v/2)*2` equal to v (v even) or v - 1 (v odd) |
| ChiSquare.PairTerm | app.js:319-322 | a qualifying bucket's term is never negative |
| ChiSquare.EvenTallies | app.js:294-310 | the tallies cover the 128 pair buckets |
| ChiSquare.OddTallies | app.js:294-310 | the tallies cover the 128 pair buckets |
| ChiSquare.EvenTalliesStep | app.js:304-310 | an even sample raises the even tally of its bucket and nothing else |
| ChiSquare.OddTalliesStep | app.js:304-310 | an odd sample raises the odd tally of its bucket and nothing else |
| ChiSquare.TalliesCountValues | app.js:304-310 | the even tally of bucket 2k counts the samples equal to 2k; the odd tally counts those equal to 2k + 1 |
| ChiSquare.TalliesCountEverySample | app.js:298-311 | even plus odd tallies over all buckets equal the number of samples (`totalPairs`, 3 per pixel) |
| ChiSquare.PairTermIsSquaredImbalance | app.js:319-323 | a bucket's term equals (even - odd)^2 / (even + odd); it is never negative and is 0 exactly when the bucket is balanced |
| ChiSquare.Confidence | app.js:334 | the confidence is clamped to [0, 100]; statistic <= 0.5 gives 0 and statistic >= 2.5 gives 100 |
| ChiSquare.ChiSquareResult | app.js:293-342 | the result names the chi-square method and its confidence lies in [0, 100] |
| ChiSquare.SparseBucketsContributeNothing | app.js:318 | buckets with at most five samples add no term and are not counted as valid |
| ChiSquare.ChiSum | app.js:314-326 | the sum of the terms of the qualifying buckets is never negative, since no term is |
| ChiSquare.ValidPairs | app.js:314-326 | at most n of the first n buckets are counted in `validPairs` |
| ChiSquare.BalancedBucketsContributeNothing | app.js:317-326 | balanced buckets sum to a statistic of 0 |
| ChiSquare.OneSidedTerm | app.js:319-322 | a one-sided bucket of more than five samples contributes exactly its size |
| ChiSquare.OneSidedBucketsContributeTheirSize | app.js:317-326 | one-sided buckets add at least 6 per valid bucket |
| ChiSquare.QualifyingBucketIsValid | app.js:318-323 | a bucket with more than five samples is counted in `validPairs` |
| ChiSquare.MeanTerm | app.js:328-331 | with qualifying buckets, the mean times their number gives their summed terms |
| ChiSquare.Statistic | app.js:328-331 | defines the statistic as the mean term of the sample tallies; what it means is stated by ChiSquare.StatisticNonnegative, ChiSquare.ForcedLsbStatistic and ChiSquare.ChiSquareOfEmptyBuffer |
| ChiSquare.StatisticNonnegative | app.js:328-331 | the normalised statistic is never negative |
| ChiSquare.ChiSquareOfEmptyBuffer | app.js:298-334 | an empty buffer gives statistic 0 and confidence 0 |
| ChiSquare.ChiSquareOfBalancedPairs | app.js:317-334 | equal even and odd tallies in every bucket give statistic 0 and confidence 0 |
| ChiSquare.ForcedLsbLeavesBucketsOneSided | app.js:304-310 | samples that all share one LSB leave every bucket one-sided |
| ChiSquare.OneSidedMeanTerm | app.js:317-331 | one-sided tallies with a qualifying bucket have a mean term of at least 6 |
| ChiSquare.ForcedLsbStatistic | app.js:298-331 | a fixed LSB in every sample, with a value seen more than five times, gives a statistic of at least 6 |
| ChiSquare.ChiSquareDetectsForcedLsb | app.js:293-342 | in that case the score is at least 6 and the confidence is 100 |
| ChiSquare.TallySample | app.js:304-310 | the forEach body updates the even/odd arrays to the tallies of one more sample |
| ChiSquare.TallyPixel | app.js:299-310 | one pixel's R, G, B samples are tallied in that order |
| ChiSquare.TallyPairs | app.js:294-311 | the counting loop leaves the tallies of all colour samples and `totalPairs` equal to their number |
| ChiSquare.SumTerms | app.js:314-326 | the accumulation loop computes the sum of terms and the count of buckets with more than five samples |
| ChiSquare.ChiSquareTest | app.js:293-342 | the method returns exactly the specified chi-square result |
| RsAnalysis.SquaredDeviations | app.js:531 | the sum of squared deviations is never negative |
| RsAnalysis.Variance | app.js:528-533 | `calculateVariance` is never negative and is 0 on empty input |
| RsAnalysis.TotalOfConstant | app.js:530 | n copies of c sum to n * c |
| RsAnalysis.NoDeviationFromConstant | app.js:531 | copies of c do not deviate from c |
| RsAnalysis.VarianceOfConstant | app.js:528-533 | a constant sequence has variance 0 |
| RsAnalysis.FlatGroupIsSingular | app.js:362-365 | a flat group of at least four samples is counted as singular |
| RsAnalysis.Classified | app.js:362-366 | a group of at least four samples is counted exactly once: as singular (regular unchanged) when its variance is below 50, as regular (singular unchanged) when not; a smaller group changes nothing |
| RsAnalysis.GroupRow | app.js:354-358 | a group row holds at most one red sample per column it visits |
| RsAnalysis.GroupSamples | app.js:353-360 | m group rows hold at most 4m samples |
| RsAnalysis.Group | app.js:352-360 | a group holds at most 16 samples |
| RsAnalysis.Ratio | app.js:370-371 | the ratio lies in [0, 1]; it is 0.5 without groups, else ratio * total = regular |
| RsAnalysis.RsConfidence | app.js:374-375 | for a ratio in [0, 1] the confidence is \|ratio - 0.6\| * 150, within [0, 90] |
| RsAnalysis.RsResult | app.js:344-385 | the result names RS analysis; its ratio lies in [0, 1] and its confidence in [0, 90] |
| RsAnalysis.RsGroups | app.js:350-368 | the y/x loops count at most (width/4) * (height/4) groups |
| RsAnalysis.VisitRow | app.js:351-367 | a row of n positions adds at most n groups to the counts |
| RsAnalysis.GroupsAtMostPositions | app.js:350-368 | regular + singular never exceeds the number of 4x4 positions visited |
| RsAnalysis.RsOfTinyImage | app.js:350-375 | an image narrower or lower than 4 has no group, ratio 0.5 and confidence 15 |
| RsAnalysis.GroupRowComplete | app.js:355-358 | inside a full buffer every index of a group row is below the buffer length |
| RsAnalysis.GroupSamplesComplete | app.js:353-360 | inside a full buffer every group has 16 samples |
| RsAnalysis.VisitRowCountsAll | app.js:351-367 | inside a full buffer every position of a row is counted |
| RsAnalysis.VisitGridCountsAll | app.js:350-368 | inside a full buffer every visited position is counted |
| RsAnalysis.RsCountsEveryPositionOfFullBuffer | app.js:350-370 | for a width x height buffer, regular + singular = (width/4) * (height/4) |
| RsAnalysis.CollectGroup | app.js:352-360 | the dy/dx loops collect exactly the specified group |
| RsAnalysis.RsAnalysis | app.js:344-385 | the method returns exactly the specified RS result |
| HistogramAnalysis.Histogram | app.js:388-398 | a histogram has 256 bins |
| HistogramAnalysis.HistogramStep | app.js:396-398 | one sample raises its own bin by one and changes nothing else |
| HistogramAnalysis.HistogramCounts | app.js:395-399 | bin v counts the samples equal to v |
| HistogramAnalysis.HistogramTotal | app.js:395-399 | the bins sum to the number of samples |
| HistogramAnalysis.ChannelHistogramTotal | app.js:395-399 | each channel's 256 bins sum to length/4 |
| HistogramAnalysis.IsAnomalousPair | app.js:408-410 | an anomalous pair holds more than 10 samples and its two bins differ |
| HistogramAnalysis.AnomalousPairByCounts | app.js:408-410 | a bin pair is anomalous iff it holds more than 10 samples and 4 * \|a - b\| > a + b |
| HistogramAnalysis.BalancedPairIsNormal | app.js:408-410 | equal bins are never anomalous |
| HistogramAnalysis.OneSidedPairIsAnomalous | app.js:408-410 | a pair with more than 10 samples on one side only is anomalous |
| HistogramAnalysis.AnomalyCount | app.js:407-413 | n examined pairs give at most n anomalies |
| HistogramAnalysis.BalancedHistogramHasNoAnomaly | app.js:405-414 | a histogram with balanced pairs has no anomaly |
| HistogramAnalysis.OneSidedHistogramIsAllAnomalies | app.js:405-414 | a histogram with every pair one-sided (above 10) makes every examined pair anomalous |
| HistogramAnalysis.Anomalies | app.js:402-416 | 127 pairs per channel are examined, so 0 <= anomalies <= 381 |
| HistogramAnalysis.HistogramConfidence | app.js:416-417 | the confidence lies in [0, 100]; it is 100 iff at least half the pairs are anomalous and 0 iff none is |
| HistogramAnalysis.HistogramResult | app.js:387-425 | the result names the histogram method, its anomalies are at most 381 and its confidence lies in [0, 100] |
| HistogramAnalysis.HistogramOfEmptyBuffer | app.js:394-417 | an empty buffer has no anomaly and confidence 0 |
| HistogramAnalysis.EmptyHistogram | app.js:388-392 | a fresh array of 256 zero bins is the histogram of no samples |
| HistogramAnalysis.CountSample | app.js:396-398 | incrementing a bin yields the histogram of one more sample |
| HistogramAnalysis.CountPixel | app.js:395-398 | one pixel adds one to a bin of each channel's histogram |
| HistogramAnalysis.BuildHistograms | app.js:388-399 | the counting loop leaves each array equal to its channel's histogram |
| HistogramAnalysis.CountAnomalies | app.js:406-413 | the i = 0, 2, ..., 252 loop counts exactly the anomalous pairs of a channel |
| HistogramAnalysis.HistogramAnalysis | app.js:387-425 | the method returns exactly the specified histogram result |
| PatternRecognition.Steps | app.js:442 | the loop makes exactly the passes i = 0, 4, ... with i < len - 8 |
| PatternRecognition.Pass | app.js:442-450 | one pass counts one comparison: sequential iff the two red LSBs are equal, random iff not, and an even/odd pair iff the red and green LSBs differ |
| PatternRecognition.Counts | app.js:442-452 | after n passes, sequentialLSB + randomLSB = n and evenOddPairs <= n |
| PatternRecognition.LsbTallies | app.js:437-451 | the loop makes one comparison per pass, and none for a buffer of at most 8 bytes |
| PatternRecognition.ScoresByCounts | app.js:454-475 | each score is set iff its ratio test holds over integers, e.g. lsb_replacement = 70 iff 5 * sequential > 4 * total; no score without a pass |
| PatternRecognition.Scores | app.js:454-475 | no pass gives no score; each score is 0 or its fixed value (70, 50, 45, 30, 25, 35); steghide, hugo and dct_based are scored together |
| PatternRecognition.ScoresExclusive | app.js:459-474 | lsb_replacement and lsb_matching are never both set, and neither is set with the adaptive scores |
| PatternRecognition.StrongestAt | app.js:477 | the reduce picks a key whose score is maximal and beats every later key, so ties go to the later key |
| PatternRecognition.DetectedPattern | app.js:477 | the detected technique's score is at least every technique's score |
| PatternRecognition.PatternDescription | app.js:485 | the description announces a pattern exactly when the confidence exceeds 30 |
| PatternRecognition.ReplacementDescription | app.js:485 | lsb_replacement at 70 is described as "lsb replacement pattern detected" |
| PatternRecognition.Report | app.js:477-486 | defines the reported record from the scores; what it means is stated by PatternRecognition.PatternConfidenceIsHighestScore and PatternRecognition.TopScoreIsReported |
| PatternRecognition.PatternResult | app.js:427-487 | the result names the pattern method, carries the scores of the buffer's LSB tallies, and reports as confidence the score of the detected technique, which no technique exceeds |
| PatternRecognition.PatternConfidenceIsHighestScore | app.js:477-478 | the confidence is the highest score and is one of 0, 25, 30, 35, 45, 50, 70 |
| PatternRecognition.AllZeroReportsDctBased | app.js:477 | all-zero scores report `dct_based` |
| PatternRecognition.PatternOfTinyBuffer | app.js:442-455 | a buffer of at most 8 bytes makes no pass and reports no score |
| PatternRecognition.NothingToReport | app.js:477-486 | without scores the result is confidence 0, `dct_based`, "No specific pattern detected" |
| PatternRecognition.UniformRedLsbIsSequential | app.js:442-447 | red samples sharing one LSB make every pass sequential |
| PatternRecognition.TopScoreIsReported | app.js:477 | a strictly highest lsb_replacement score is the detected pattern |
| PatternRecognition.UniformRedLsbScores | app.js:454-475 | a uniform red LSB scores lsb_replacement 70 and leaves matching and the adaptive scores 0 |
| PatternRecognition.AlternatingRedLsbIsRandom | app.js:442-446 | a red LSB that changes at every visited pixel makes every pass random |
| PatternRecognition.DifferingRedGreenLsbIsEvenOdd | app.js:448-450 | a red LSB that differs from the green LSB at every visited pixel makes every pass an even/odd pair |
| PatternRecognition.AlternatingRedLsbScores | app.js:454-475 | alternating red LSBs score lsb_matching 50, and leave lsb_replacement and the adaptive scores 0 |
| PatternRecognition.DifferingRedGreenLsbScores | app.js:454-475 | red and green LSBs that always differ score f5 45 |
| PatternRecognition.PatternDetectsUniformRedLsb | app.js:427-487 | such an image reports lsb_replacement with confidence 70 and the description "lsb replacement pattern detected" |
| PatternRecognition.TallyPass | app.js:442-450 | the loop body updates the three counters exactly as one pass |
| PatternRecognition.CountLsbPatterns | app.js:438-452 | the LSB loop computes exactly the specified counters |
| PatternRecognition.ScorePatterns | app.js:428-475 | the scoring statements build exactly the specified patterns record |
| PatternRecognition.PatternRecognition | app.js:427-487 | the method returns exactly the specified pattern result |
| PairsOfValues.PairCounts | app.js:498-503 | the pair table has 128 buckets, keys 0..127 |
| PairsOfValues.PairCountsStep | app.js:499-501 | one sample raises bucket floor(v/2) by one and changes nothing else |
| PairsOfValues.PairCountsCountValues | app.js:498-503 | bucket k counts the samples equal to 2k or 2k + 1 |
| PairsOfValues.PairCountsTotal | app.js:493-504 | the bucket counts sum to `totalPixels`, the number of samples |
| PairsOfValues.UsedBuckets | app.js:508 | there are at most as many keys as buckets |
| PairsOfValues.OccupiedBucketIsUsed | app.js:500-508 | a bucket holding a sample is a key |
| PairsOfValues.EmptyBucketsAreUnused | app.js:500-508 | an empty table has no key |
| PairsOfValues.UsedBucketsOfSamples | app.js:493-508 | `pairCount > 0` iff there is a sample |
| PairsOfValues.DeviationSum | app.js:511-513 | the summed relative deviation is never negative |
| PairsOfValues.Deviation | app.js:507-515 | the deviation is never negative |
| PairsOfValues.PairsConfidence | app.js:517 | the confidence lies in [0, 100]; it is 100 iff deviation >= 4 and exceeds 40 iff deviation > 1.6 |
| PairsOfValues.PairsResult | app.js:489-526 | the result names the pairs method, at most 128 keys, deviation >= 0 and confidence in [0, 100] |
| PairsOfValues.PairsOfEmptyBuffer | app.js:493-517 | an empty buffer gives 0 keys, deviation 0 and confidence 0 |
| PairsOfValues.FlatBucketsDeviateNothing | app.js:511-513 | buckets equal to the expected count add no deviation |
| PairsOfValues.FlatBucketsTotal | app.js:493-508 | occupied buckets of c samples hold c samples per key |
| PairsOfValues.FlatTableHasNoDeviation | app.js:507-515 | a table whose occupied buckets are equal has deviation 0 |
| PairsOfValues.FlatPairsHaveNoDeviation | app.js:489-515 | samples spread evenly over their pairs have deviation 0 |
| PairsOfValues.DeviationSumBound | app.js:511-513 | the summed deviation is at most total / expected plus one per key |
| PairsOfValues.RatioSumIsTotalRatio | app.js:510-513 | the bucket counts over the expected count sum to `totalPixels / expected` |
| PairsOfValues.TableDeviationAtMostTwo | app.js:507-515 | with expected = total / pairCount the mean deviation is at most 2 |
| PairsOfValues.DeviationAtMostTwo | app.js:489-515 | the deviation never exceeds 2 |
| PairsOfValues.PairsConfidenceAtMostHalf | app.js:517 | so the pairs confidence never exceeds 50 |
| PairsOfValues.EmptyPairTable | app.js:490 | a fresh table of 128 empty buckets is the table of no samples |
| PairsOfValues.CountPairSample | app.js:499-502 | incrementing a bucket yields the table of one more sample |
| PairsOfValues.CountPairPixel | app.js:494-503 | one pixel's R, G, B samples are counted in that order |
| PairsOfValues.CountPairs | app.js:490-504 | the counting loop builds the pair table of all samples, with `totalPixels` their number |
| PairsOfValues.CountKeys | app.js:508 | `Object.keys(pairs).length` counts exactly the occupied buckets |
| PairsOfValues.SumDeviations | app.js:511-513 | the loop over the occupied buckets computes the specified deviation sum |
| PairsOfValues.PairsOfValuesAnalysis | app.js:489-526 | the method returns exactly the specified pairs result |
| Aggregate.Weight | app.js:536-547 | every weight is positive; a method outside the weight table weighs 0.1 |
| Aggregate.FiveWeightsSumToOne | app.js:536-542 | the five analyzer weights sum to 1 |
| Aggregate.WeightedSum | app.js:547-551 | non-negative confidences give a non-negative weighted sum |
| Aggregate.TotalWeight | app.js:544-551 | the total weight is non-negative and positive iff there is a result |
| Aggregate.OverallConfidence | app.js:544-553 | an empty list gives 0 |
| Aggregate.WeightedSumAtLeast | app.js:547-551 | confidences of at least lo give a weighted sum of at least lo * total weight |
| Aggregate.WeightedSumAtMost | app.js:547-551 | confidences of at most hi give a weighted sum of at most hi * total weight |
| Aggregate.OverallWithin | app.js:535-554 | the weighted mean lies between the smallest and largest input confidence |
| Aggregate.MeanWithin | app.js:553 | dividing a weighted sum bounded by lo and hi times the total weight gives a mean between lo and hi |
| Aggregate.OverallOfAgreement | app.js:535-554 | inputs all equal to c give c |
| Aggregate.SumsOfFive | app.js:536-551 | over the five analyzer results the weights sum to 1 and the weighted sum is 0.3 chi + 0.25 RS + 0.2 histogram + 0.15 pattern + 0.1 pairs |
| Aggregate.OverallOfFive | app.js:535-554 | the five analyzer results combine to 0.3 chi + 0.25 RS + 0.2 histogram + 0.15 pattern + 0.1 pairs |
| Aggregate.CalculateOverallConfidence | app.js:535-554 | the forEach loop computes exactly the weighted mean, 0 for no results |
| Aggregate.StatusOf | app.js:265-277 | detected iff confidence >= 70, suspicious iff 30 <= confidence < 70, clean iff confidence < 30 |
| Aggregate.StatusMonotone | app.js:265-277 | a higher confidence never gives a milder status |
| Aggregate.FindMethod | app.js:557-563 | `find` returns the first result with the method name, or none |
| Aggregate.MethodLabel | app.js:559 | the label has the key's length and no lower-case letter |
| Aggregate.IdentifyEmbeddingMethod | app.js:556-569 | the identifier is non-empty, has no lower-case letter, and is LSB REPLACEMENT, UNKNOWN METHOD or a technique label |
| Aggregate.LabelOfF5 | app.js:559 | the f5 technique is reported as "F5" |
| Aggregate.LabelOfLsbReplacement | app.js:559 | the lsb_replacement technique is reported as "LSB REPLACEMENT" |
| Aggregate.UpperReplacementText | app.js:559 | "lsb replacement" in capitals is "LSB REPLACEMENT" |
| Aggregate.FallbackIdentifiers | app.js:563-568 | without a pattern result, chi-square above 60 gives LSB REPLACEMENT and anything else UNKNOWN METHOD; no result at all gives UNKNOWN METHOD |
| Aggregate.IdentifyOfFour | app.js:556-569 | on the four consulted results: the pattern name with '_' replaced and uppercased if pattern confidence > 30, else LSB REPLACEMENT if chi-square confidence > 60, else UNKNOWN METHOD |
| Aggregate.Count | app.js:692-694 | one step counts one more image, under its own verdict |
| Aggregate.BatchTally | app.js:691-695 | the tally's total is the number of results |
| Aggregate.BatchTallyCounts | app.js:691-695 | clean + suspicious + detected = total, and each counts the results with that status |
| Steganalysis.Verdict | app.js:254-290 | the confidence is the weighted mean, the status follows the thresholds, and a method is named iff the status is detected |
| Steganalysis.AnalyzerResults | app.js:239-252 | each detail comes from the analyzer its field names |
| Steganalysis.SteganalysisOf | app.js:238-291 | the details are the five analyzers' results, the status follows the thresholds, and a method is named iff the status is detected |
| Steganalysis.ConfidenceIsWeighted | app.js:238-261 | an image's confidence is 0.3 chi + 0.25 RS + 0.2 histogram + 0.15 pattern + 0.1 pairs |
| Steganalysis.ConfidenceBounds | app.js:238-252 | the five confidences are bounded by 100, 90, 100, 70 and 50 |
| Steganalysis.ConfidenceAtMost88 | app.js:238-261 | the overall confidence lies in [0, 88] |
| Steganalysis.DetectionNeedsEvidence | app.js:255-266 | a detection needs chi-square >= 40 and histogram >= 10 |
| Steganalysis.DetectedMethodRule | app.js:264-277 | the detected method is none below 70, else the priority rule on the pattern and chi-square results |
| Steganalysis.EmptyImageConfidences | app.js:238-252 | an image without pixels: RS reports 15 and every other analyzer 0 |
| Steganalysis.VerdictOfNeutralRs | app.js:254-277 | those confidences combine to 3.75: clean, no method named |
| Steganalysis.PerformSteganalysis | app.js:238-291 | the method returns exactly the specified analysis |

## Left out

- DOM and event wiring, panels, progress, result cards and modal (app.js:20-154, 571-682, 754-763). These are UI.
- Image acquisition through FileReader, Image and canvas `getImageData` (app.js:188-236). The buffer and the image's width and height are parameters.
- The async batch loop in `processFiles` (app.js:156-186), with its `await`, `setTimeout` and busy flag.
- `exportResults` (app.js:719-752), which is file I/O, and `formatFileSize` (app.js:711-717), which is floating-point display code.
- Timestamps and ids from `Date.now()` and `Math.random()` (app.js:216, 222).
- The batch tally is modelled as the reduction at app.js:691-695 over result statuses. The DOM updates around it are left out.
- Floating point: JS numbers are exact reals. IEEE-754 rounding of the divisions and of `Math.pow` is not captured.
- `toFixed` and `parseFloat`: the source returns `score`, `ratio`, `deviation` and `confidence` as `toFixed` strings, which the aggregator parses back. The model keeps them as exact reals.
- Aggregate.CalculateOverallConfidence: combines the exact confidences, not the one-decimal values that `toFixed(1)` and `parseFloat` would produce.
- Aggregate.IdentifyEmbeddingMethod: the source reads `detectedPattern` of whatever result carries the pattern method name. The model requires such a result to carry pattern detail, which every result `patternRecognition` returns does.
- Results.ToUpper: handles ASCII letters only, which is all the technique keys contain.
- Object key order: the `pairs` maps are iterated in ascending key order. The model iterates buckets in the same order. With exact reals the sums do not depend on order.
- `& 1` on bytes is written as `% 2`. The two agree on 0..255.
- Chi-square, histogram and pairs of values require a buffer whose length is a multiple of four. A canvas `ImageData` always has such a length, and the source reads `i + 1` and `i + 2` without a guard. RS analysis and pattern recognition guard every read and need no requirement.
- Steganalysis.VerdictOfNeutralRs: the verdict for an image without pixels is stated in two parts. Steganalysis.EmptyImageConfidences gives the five confidences, and this lemma gives the verdict for results with those confidences. There is no single lemma about the pixel buffer.
- The pattern loop runs while `i < len - 8`, so the last pixel pair is never compared. The model keeps this bound as written.
- `calculateVariance` has no moment-based closed form here. Only non-negativity, the empty case and constant inputs are stated.
