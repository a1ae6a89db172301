/** RS (regular/singular groups) analysis: the red channel is cut into
    non-overlapping 4x4 pixel groups; a group with at least four samples is
    singular when the population variance of its red samples is below 50 and
    regular otherwise, and the share of regular groups is compared with the
    0.6 expected of clean images. */
module RsAnalysis {
  import opened Pixels
  import opened Results
  import opened Sums

  const GroupSize: nat := 4

  /** Sum of the squared differences between the values and a mean. */
  function SquaredDeviations(values: seq<int>, mean: real): (r: real)
    ensures r >= 0.0
  {
    if values == [] then 0.0
    else
      var d := values[|values| - 1] as real - mean;
      SquaredDeviations(values[..|values| - 1], mean) + d * d
  }

  /** Population variance of the values; 0 for no values. */
  function Variance(values: seq<int>): (v: real)
    ensures v >= 0.0
    ensures values == [] ==> v == 0.0
  {
    if |values| == 0 then 0.0
    else
      var mean := Total(values) as real / |values| as real;
      SquaredDeviations(values, mean) / |values| as real
  }

  /** The values of a constant sequence sum to its length times the value. */
  lemma {:induction false} TotalOfConstant(values: seq<int>, c: int)
    requires forall i | 0 <= i < |values| :: values[i] == c
    ensures Total(values) == |values| * c
  {
    if values != [] {
      TotalOfConstant(values[..|values| - 1], c);
    }
  }

  /** Values all equal to c do not deviate from c. */
  lemma {:induction false} NoDeviationFromConstant(values: seq<int>, c: int)
    requires forall i | 0 <= i < |values| :: values[i] == c
    ensures SquaredDeviations(values, c as real) == 0.0
  {
    if values != [] {
      NoDeviationFromConstant(values[..|values| - 1], c);
    }
  }

  /** A constant sequence has variance 0. */
  lemma VarianceOfConstant(values: seq<int>, c: int)
    requires forall i | 0 <= i < |values| :: values[i] == c
    ensures Variance(values) == 0.0
  {
    if values != [] {
      TotalOfConstant(values, c);
      var n := |values| as real;
      assert Total(values) as real / n == (n * c as real) / n == c as real;
      NoDeviationFromConstant(values, c);
    }
  }

  /** A flat group (every red sample equal) of at least four samples is
      counted as singular. */
  lemma FlatGroupIsSingular(g: Groups, group: seq<Byte>, c: Byte)
    requires |group| >= 4 && forall i | 0 <= i < |group| :: group[i] == c
    ensures Classified(g, group) == g.(singular := g.singular + 1)
  {
    VarianceOfConstant(group, c);
  }

  /** The red samples of one group row: pixels (x + dx, row) for dx < n whose
      red byte lies inside the buffer. */
  function GroupRow(pixels: seq<Byte>, width: nat, row: nat, x: nat, n: nat): (s: seq<Byte>)
    requires n <= GroupSize
    ensures |s| <= n
  {
    if n == 0 then []
    else
      var idx := (row * width + (x + (n - 1))) * 4;
      GroupRow(pixels, width, row, x, n - 1) + (if idx < |pixels| then [pixels[idx]] else [])
  }

  /** The red samples of the first m rows of the group at (x, y). */
  function GroupSamples(pixels: seq<Byte>, width: nat, y: nat, x: nat, m: nat): (s: seq<Byte>)
    requires m <= GroupSize
    ensures |s| <= 4 * m
  {
    if m == 0 then []
    else GroupSamples(pixels, width, y, x, m - 1) + GroupRow(pixels, width, y + (m - 1), x, GroupSize)
  }

  /** The red samples of the whole group at (x, y). */
  function Group(pixels: seq<Byte>, width: nat, y: nat, x: nat): (s: seq<Byte>)
    ensures |s| <= 16
  {
    GroupSamples(pixels, width, y, x, GroupSize)
  }

  /** Counts of regular and singular groups. */
  datatype Groups = Groups(regular: nat, singular: nat)
  {
    function Count(): nat {
      regular + singular
    }
  }

  /** A group with fewer than four samples is not counted; otherwise it is
      singular when its variance is below 50 and regular when not. */
  function Classified(g: Groups, group: seq<Byte>): (r: Groups)
    ensures r.Count() == g.Count() + (if |group| >= 4 then 1 else 0)
    ensures r.regular >= g.regular && r.singular >= g.singular
    ensures |group| >= 4 && Variance(group) < 50.0 ==> r.singular == g.singular + 1 && r.regular == g.regular
    ensures |group| >= 4 && Variance(group) >= 50.0 ==> r.regular == g.regular + 1 && r.singular == g.singular
  {
    if |group| >= 4 then
      if Variance(group) < 50.0 then g.(singular := g.singular + 1) else g.(regular := g.regular + 1)
    else g
  }

  /** The counts after visiting the first n groups (x = 0, 4, ...) of the
      group row at y, starting from g: n more groups count at most n. */
  function VisitRow(g: Groups, pixels: seq<Byte>, width: nat, y: nat, n: nat): (r: Groups)
    ensures g.Count() <= r.Count() <= g.Count() + n
  {
    if n == 0 then g
    else Classified(VisitRow(g, pixels, width, y, n - 1), Group(pixels, width, y, GroupSize * (n - 1)))
  }

  /** The counts after visiting the first rows group rows (y = 0, 4, ...). */
  function VisitGrid(pixels: seq<Byte>, width: nat, columns: nat, rows: nat): Groups {
    if rows == 0 then Groups(0, 0)
    else
      VisitRow(VisitGrid(pixels, width, columns, rows - 1), pixels, width, GroupSize * (rows - 1), columns)
  }

  /** The counts over every complete 4x4 position of a width x height image:
      width / 4 groups per row, height / 4 rows. */
  function RsGroups(pixels: seq<Byte>, width: nat, height: nat): (g: Groups)
    ensures g.Count() <= (width / GroupSize) * (height / GroupSize)
  {
    GroupsAtMostPositions(pixels, width, width / GroupSize, height / GroupSize);
    VisitGrid(pixels, width, width / GroupSize, height / GroupSize)
  }

  /** The share of regular groups, 0.5 when no group was counted. */
  function Ratio(g: Groups): (r: real)
    ensures 0.0 <= r <= 1.0
    ensures g.Count() == 0 ==> r == 0.5
    ensures g.Count() > 0 ==> r * g.Count() as real == g.regular as real
  {
    if g.Count() > 0 then g.regular as real / g.Count() as real else 0.5
  }

  /** Distance from the clean ratio 0.6, scaled by 150 and capped at 100;
      on a ratio in [0, 1] the cap never applies and the result is in [0, 90]. */
  function RsConfidence(ratio: real): (c: real)
    ensures 0.0 <= ratio <= 1.0 ==> 0.0 <= c <= 90.0 && c == Abs(ratio - 0.6) * 150.0
  {
    Min(100.0, Abs(ratio - 0.6) * 150.0)
  }

  function RsResult(pixels: seq<Byte>, width: nat, height: nat): (r: AnalyzerResult)
    ensures r.methodName == RsMethod && r.detail.RsDetail?
    ensures 0.0 <= r.detail.ratio <= 1.0
    ensures 0.0 <= r.confidence <= 90.0
  {
    var g := RsGroups(pixels, width, height);
    var ratio := Ratio(g);
    var confidence := RsConfidence(ratio);
    AnalyzerResult(
      RsMethod, confidence,
      if confidence > 50.0 then "Suspicious RS ratio detected" else "Normal RS ratio",
      RsDetail(g.regular, g.singular, ratio))
  }

  /** An image narrower or lower than one group has no group: the ratio is
      the neutral 0.5 and the confidence |0.5 - 0.6| * 150 = 15. */
  lemma RsOfTinyImage(pixels: seq<Byte>, width: nat, height: nat)
    requires width < GroupSize || height < GroupSize
    ensures RsResult(pixels, width, height).detail.regularGroups == 0
    ensures RsResult(pixels, width, height).detail.singularGroups == 0
    ensures RsResult(pixels, width, height).detail.ratio == 0.5
    ensures RsResult(pixels, width, height).confidence == 15.0
  {
  }

  lemma MulSucc(a: nat, b: nat)
    ensures a * (b + 1) == a * b + a
  {
  }

  lemma MulLeftMonotone(a: nat, b: nat, c: nat)
    requires a <= b
    ensures a * c <= b * c
  {
  }

  /** regularGroups + singularGroups never exceeds the number of 4x4
      positions visited. */
  lemma {:induction false} GroupsAtMostPositions(pixels: seq<Byte>, width: nat, columns: nat, rows: nat)
    ensures VisitGrid(pixels, width, columns, rows).Count() <= columns * rows
  {
    if rows > 0 {
      GroupsAtMostPositions(pixels, width, columns, rows - 1);
      MulSucc(columns, rows - 1);
    } else {
      assert columns * 0 == 0;
    }
  }

  /** Within a buffer that covers the image, every sampled index is inside
      the buffer, so a group row of an image row has all n samples. */
  lemma {:induction false} GroupRowComplete(pixels: seq<Byte>, width: nat, height: nat, row: nat, x: nat, n: nat)
    requires n <= GroupSize && row < height && x + n <= width
    requires |pixels| >= width * height * 4
    ensures |GroupRow(pixels, width, row, x, n)| == n
  {
    if n > 0 {
      GroupRowComplete(pixels, width, height, row, x, n - 1);
      MulLeftMonotone(row + 1, height, width);
      assert row * width + (x + (n - 1)) < (row + 1) * width;
    }
  }

  lemma {:induction false} GroupSamplesComplete(pixels: seq<Byte>, width: nat, height: nat, y: nat, x: nat, m: nat)
    requires m <= GroupSize && y + m <= height && x + GroupSize <= width
    requires |pixels| >= width * height * 4
    ensures |GroupSamples(pixels, width, y, x, m)| == 4 * m
  {
    if m > 0 {
      GroupSamplesComplete(pixels, width, height, y, x, m - 1);
      GroupRowComplete(pixels, width, height, y + (m - 1), x, GroupSize);
    }
  }

  lemma {:induction false} VisitRowCountsAll(g: Groups, pixels: seq<Byte>, width: nat, height: nat, y: nat, n: nat)
    requires y + GroupSize <= height && GroupSize * n <= width
    requires |pixels| >= width * height * 4
    ensures VisitRow(g, pixels, width, y, n).Count() == g.Count() + n
  {
    if n > 0 {
      VisitRowCountsAll(g, pixels, width, height, y, n - 1);
      GroupSamplesComplete(pixels, width, height, y, GroupSize * (n - 1), GroupSize);
    }
  }

  lemma {:induction false} VisitGridCountsAll(pixels: seq<Byte>, width: nat, height: nat, rows: nat)
    requires GroupSize * rows <= height
    requires |pixels| >= width * height * 4
    ensures VisitGrid(pixels, width, width / GroupSize, rows).Count() == (width / GroupSize) * rows
  {
    if rows > 0 {
      var columns := width / GroupSize;
      VisitGridCountsAll(pixels, width, height, rows - 1);
      var before := VisitGrid(pixels, width, columns, rows - 1);
      VisitRowCountsAll(before, pixels, width, height, GroupSize * (rows - 1), columns);
      MulSucc(columns, rows - 1);
    } else {
      assert (width / GroupSize) * 0 == 0;
    }
  }

  /** When the buffer holds the whole image, every 4x4 position is a
      complete group of 16 samples, so regularGroups + singularGroups is
      exactly (width / 4) * (height / 4). */
  lemma RsCountsEveryPositionOfFullBuffer(pixels: seq<Byte>, width: nat, height: nat)
    requires |pixels| >= width * height * 4
    ensures RsGroups(pixels, width, height).Count() == (width / GroupSize) * (height / GroupSize)
  {
    VisitGridCountsAll(pixels, width, height, height / GroupSize);
  }

  /** The dy/dx loops: collect the red samples of the group at (x, y). */
  method CollectGroup(pixels: seq<Byte>, width: nat, y: nat, x: nat) returns (group: seq<Byte>)
    ensures group == Group(pixels, width, y, x)
  {
    group := [];
    var dy := 0;
    while dy < GroupSize
      invariant 0 <= dy <= GroupSize
      invariant group == GroupSamples(pixels, width, y, x, dy)
    {
      var rowStart: nat := (y + dy) * width;
      var dx := 0;
      while dx < GroupSize
        invariant 0 <= dx <= GroupSize
        invariant group == GroupSamples(pixels, width, y, x, dy) + GroupRow(pixels, width, y + dy, x, dx)
      {
        var idx := (rowStart + (x + dx)) * 4;
        if idx < |pixels| {
          group := group + [pixels[idx]];
        }
        dx := dx + 1;
      }
      dy := dy + 1;
    }
  }

  method RsAnalysis(pixels: seq<Byte>, width: nat, height: nat) returns (r: AnalyzerResult)
    ensures r == RsResult(pixels, width, height)
  {
    var regularGroups, singularGroups := 0, 0;
    ghost var rows, columns := height / GroupSize, width / GroupSize;
    var y := 0;
    ghost var row := 0;
    while y < height - GroupSize + 1
      invariant y == GroupSize * row && row <= rows
      invariant Groups(regularGroups, singularGroups) == VisitGrid(pixels, width, columns, row)
    {
      var x := 0;
      ghost var column := 0;
      while x < width - GroupSize + 1
        invariant x == GroupSize * column && column <= columns
        invariant Groups(regularGroups, singularGroups)
               == VisitRow(VisitGrid(pixels, width, columns, row), pixels, width, y, column)
      {
        var group := CollectGroup(pixels, width, y, x);
        if |group| >= 4 {
          var variance := Variance(group);
          if variance < 50.0 {
            singularGroups := singularGroups + 1;
          } else {
            regularGroups := regularGroups + 1;
          }
        }
        x, column := x + GroupSize, column + 1;
      }
      y, row := y + GroupSize, row + 1;
    }

    var rsRatio := Ratio(Groups(regularGroups, singularGroups));
    var confidence := RsConfidence(rsRatio);
    r := AnalyzerResult(
      RsMethod, confidence,
      if confidence > 50.0 then "Suspicious RS ratio detected" else "Normal RS ratio",
      RsDetail(regularGroups, singularGroups, rsRatio));
  }
}
