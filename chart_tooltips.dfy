/** Tooltip label and colour of the analysis chart, chosen from the hovered dataset. */
module ChartTooltips {
  import opened ChartConfig
  import opened ChartDatasets

  /** `s.includes(sub)`. */
  predicate Contains(s: string, sub: string) {
    exists i :: 0 <= i <= |s| && OccursAt(s, sub, i)
  }

  predicate OccursAt(s: string, sub: string, i: int) {
    0 <= i && i + |sub| <= |s| && s[i..i + |sub|] == sub
  }

  /** A string holds a non-empty fragment only if it holds the fragment's first character. */
  lemma NotContainsWithoutFirstChar(s: string, sub: string)
    requires |sub| > 0 && forall k :: 0 <= k < |s| ==> s[k] != sub[0]
    ensures !Contains(s, sub)
  {
    forall i | 0 <= i <= |s|
      ensures !OccursAt(s, sub, i)
    {
      if i + |sub| <= |s| {
        assert s[i..i + |sub|][0] == s[i];
      }
    }
  }

  /** Whether a dataset is treated as a zone band, judged by words in its label. */
  predicate IsZoneDataset(caption: string) {
    || Contains(caption, "Range") || Contains(caption, "Average")
    || Contains(caption, "Improvement") || Contains(caption, "Below Average")
    || Contains(caption, "Athletic") || Contains(caption, "Outstanding")
  }

  /** The user's line is not taken for a zone. */
  lemma UserLineIsNotZone()
    ensures !IsZoneDataset("Your Value")
  {
    var s := "Your Value";
    assert forall k :: 0 <= k < |s| ==> s[k] !in {'R', 'A', 'I', 'B', 'O'};
    NotContainsWithoutFirstChar(s, "Range");
    NotContainsWithoutFirstChar(s, "Average");
    NotContainsWithoutFirstChar(s, "Improvement");
    NotContainsWithoutFirstChar(s, "Below Average");
    NotContainsWithoutFirstChar(s, "Athletic");
    NotContainsWithoutFirstChar(s, "Outstanding");
  }

  /** The average line, labelled "Average", is taken for a zone. */
  lemma AverageLineIsZone()
    ensures IsZoneDataset("Average")
  {
    assert OccursAt("Average", "Average", 0);
  }

  /** Every zone label of the analysis chart is recognised as one. */
  lemma ZoneCaptionsAreZones()
    ensures IsZoneDataset("Athletic Range") && IsZoneDataset("Excellent Range") && IsZoneDataset("Good Range")
    ensures IsZoneDataset("Average Range") && IsZoneDataset("Below Average") && IsZoneDataset("Needs Improvement")
    ensures IsZoneDataset("Outstanding")
  {
    assert OccursAt("Athletic Range", "Range", 9);
    assert OccursAt("Excellent Range", "Range", 10);
    assert OccursAt("Good Range", "Range", 5);
    assert OccursAt("Average Range", "Range", 8);
    assert OccursAt("Below Average", "Average", 6);
    assert OccursAt("Needs Improvement", "Improvement", 6);
    assert OccursAt("Outstanding", "Outstanding", 0);
  }

  /** The hovered point: Chart.js's `datasetIndex`, `dataIndex` and the chart's datasets. */
  datatype TooltipContext = TooltipContext(datasets: seq<AnalysisDataset>, datasetIndex: int, dataIndex: int)

  predicate PointExists(datasets: seq<AnalysisDataset>, i: int, j: int) {
    0 <= i < |datasets| && 0 <= j < |datasets[i].data|
  }

  /** What the label reads: the hovered point and, for every zone but the first, the point below it. */
  predicate LabelReadable(ctx: TooltipContext) {
    && PointExists(ctx.datasets, ctx.datasetIndex, ctx.dataIndex)
    && (IsZoneDataset(ctx.datasets[ctx.datasetIndex].caption) && ctx.datasetIndex != FirstZoneIndex ==>
          PointExists(ctx.datasets, ctx.datasetIndex - 1, ctx.dataIndex))
  }

  /**
   * The tooltip line: `label: value` for a line, `label: <value` for the first zone,
   * `label: >below` for the last and `label: below-value` for the ones between.
   * `show` is the number-to-text conversion of template strings.
   */
  function GetTooltipLabel(ctx: TooltipContext, show: real -> string): (r: string)
    requires LabelReadable(ctx)
    ensures var caption := ctx.datasets[ctx.datasetIndex].caption;
      |r| >= |caption| + 2 && r[..|caption| + 2] == caption + ": "
    ensures var d, i, j := ctx.datasets, ctx.datasetIndex, ctx.dataIndex;
      !IsZoneDataset(d[i].caption) ==> r == d[i].caption + ": " + show(d[i].data[j].y)
    ensures var d, i, j := ctx.datasets, ctx.datasetIndex, ctx.dataIndex;
      IsZoneDataset(d[i].caption) && i == FirstZoneIndex ==> r == d[i].caption + ": <" + show(d[i].data[j].y)
    ensures var d, i, j := ctx.datasets, ctx.datasetIndex, ctx.dataIndex;
      IsZoneDataset(d[i].caption) && i != FirstZoneIndex && i == |d| - 1 ==>
        r == d[i].caption + ": >" + show(d[i - 1].data[j].y)
    ensures var d, i, j := ctx.datasets, ctx.datasetIndex, ctx.dataIndex;
      IsZoneDataset(d[i].caption) && i != FirstZoneIndex && i != |d| - 1 ==>
        r == d[i].caption + ": " + show(d[i - 1].data[j].y) + "-" + show(d[i].data[j].y)
  {
    var caption := ctx.datasets[ctx.datasetIndex].caption;
    var value := ctx.datasets[ctx.datasetIndex].data[ctx.dataIndex].y;
    if !IsZoneDataset(caption) then caption + ": " + show(value)
    else if ctx.datasetIndex == FirstZoneIndex then caption + ": <" + show(value)
    else
      var below := ctx.datasets[ctx.datasetIndex - 1].data[ctx.dataIndex].y;
      if ctx.datasetIndex == |ctx.datasets| - 1 then caption + ": >" + show(below)
      else caption + ": " + show(below) + "-" + show(value)
  }

  /** The corrected label: only datasets from the first zone position on are read as bands. */
  function GetTooltipLabelByPosition(ctx: TooltipContext, show: real -> string): (r: string)
    requires PointExists(ctx.datasets, ctx.datasetIndex, ctx.dataIndex)
    requires ctx.datasetIndex > FirstZoneIndex ==> PointExists(ctx.datasets, ctx.datasetIndex - 1, ctx.dataIndex)
    ensures var caption := ctx.datasets[ctx.datasetIndex].caption;
      |r| >= |caption| + 2 && r[..|caption| + 2] == caption + ": "
    ensures var d, i, j := ctx.datasets, ctx.datasetIndex, ctx.dataIndex;
      i < FirstZoneIndex ==> r == d[i].caption + ": " + show(d[i].data[j].y)
    ensures var d, i, j := ctx.datasets, ctx.datasetIndex, ctx.dataIndex;
      i == FirstZoneIndex ==> r == d[i].caption + ": <" + show(d[i].data[j].y)
    ensures var d, i, j := ctx.datasets, ctx.datasetIndex, ctx.dataIndex;
      i > FirstZoneIndex && i == |d| - 1 ==> r == d[i].caption + ": >" + show(d[i - 1].data[j].y)
    ensures var d, i, j := ctx.datasets, ctx.datasetIndex, ctx.dataIndex;
      i > FirstZoneIndex && i != |d| - 1 ==>
        r == d[i].caption + ": " + show(d[i - 1].data[j].y) + "-" + show(d[i].data[j].y)
  {
    var caption := ctx.datasets[ctx.datasetIndex].caption;
    var value := ctx.datasets[ctx.datasetIndex].data[ctx.dataIndex].y;
    if ctx.datasetIndex < FirstZoneIndex then caption + ": " + show(value)
    else if ctx.datasetIndex == FirstZoneIndex then caption + ": <" + show(value)
    else
      var below := ctx.datasets[ctx.datasetIndex - 1].data[ctx.dataIndex].y;
      if ctx.datasetIndex == |ctx.datasets| - 1 then caption + ": >" + show(below)
      else caption + ": " + show(below) + "-" + show(value)
  }

  /** Tooltip border and background, always the same colour. */
  datatype ColorPair = ColorPair(borderColor: string, backgroundColor: string)

  function CreateColorPair(color: string): (c: ColorPair)
    ensures c.borderColor == color && c.backgroundColor == color
  {
    ColorPair(color, color)
  }

  /** Zone colours from the first zone up, for either direction. */
  function ZonePalette(isLowerBetter: bool): (palette: seq<string>)
    ensures |palette| == 6
  {
    if isLowerBetter then [ExcellentColor, ExcellentColor, GoodColor, AverageZoneColor, BelowAverageColor, PoorColor]
    else [PoorColor, BelowAverageColor, AverageZoneColor, GoodColor, ExcellentColor, ExcellentColor]
  }

  /** The colour of the zone at `datasetIndex`, the default one outside the six zones. */
  function ZoneColor(datasetIndex: int, isLowerBetter: bool): (color: string)
    ensures FirstZoneIndex <= datasetIndex < FirstZoneIndex + 6 ==>
      color == ZonePalette(isLowerBetter)[datasetIndex - FirstZoneIndex]
    ensures !(FirstZoneIndex <= datasetIndex < FirstZoneIndex + 6) ==> color == DefaultColor
  {
    var zoneIndex := datasetIndex - FirstZoneIndex;
    if 0 <= zoneIndex < 6 then ZonePalette(isLowerBetter)[zoneIndex] else DefaultColor
  }

  /** As written: the direction is guessed from the number of datasets, more than six meaning lower-is-better. */
  function GetTooltipColor(datasetIndex: int, datasetCount: int): (c: ColorPair)
    ensures c.borderColor == c.backgroundColor
    ensures datasetIndex == UserIndex ==> c.borderColor == UserColor
    ensures datasetIndex == AverageIndex ==> c.borderColor == AverageColor
    ensures datasetIndex != UserIndex && datasetIndex != AverageIndex ==>
      c.borderColor == ZoneColor(datasetIndex, datasetCount > 6)
  {
    var isLowerBetter := datasetCount > 6;
    if datasetIndex == UserIndex then CreateColorPair(UserColor)
    else if datasetIndex == AverageIndex then CreateColorPair(AverageColor)
    else CreateColorPair(ZoneColor(datasetIndex, isLowerBetter))
  }

  /** Corrected: the direction is the metric's own. */
  function GetTooltipColorFor(datasetIndex: int, isLowerBetter: bool): (c: ColorPair)
    ensures c.borderColor == c.backgroundColor
    ensures datasetIndex == UserIndex ==> c.borderColor == UserColor
    ensures datasetIndex == AverageIndex ==> c.borderColor == AverageColor
    ensures datasetIndex != UserIndex && datasetIndex != AverageIndex ==>
      c.borderColor == ZoneColor(datasetIndex, isLowerBetter)
  {
    if datasetIndex == UserIndex then CreateColorPair(UserColor)
    else if datasetIndex == AverageIndex then CreateColorPair(AverageColor)
    else CreateColorPair(ZoneColor(datasetIndex, isLowerBetter))
  }

  /** The tier colour a zone label names, the reference the tooltip colour should agree with. */
  function TierColor(caption: string): string {
    if caption == "Athletic Range" || caption == "Excellent Range" || caption == "Outstanding" then ExcellentColor
    else if caption == "Good Range" then GoodColor
    else if caption == "Average Range" then AverageZoneColor
    else if caption == "Below Average" then BelowAverageColor
    else if caption == "Needs Improvement" then PoorColor
    else DefaultColor
  }

  /** The two palettes are each other's mirror image. */
  lemma PalettesMirror(k: int)
    requires 0 <= k < 6
    ensures ZonePalette(true)[k] == ZonePalette(false)[5 - k]
  {
  }
}
