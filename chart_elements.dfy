/**
 * The elements that the chart writer emits for a clustered bar chart, one
 * function per writer in src/chart.c, each giving the events that writer
 * appends (DrawingML charts, ECMA-376 Part 1, section 21.2).
 */
module ChartElements {
  import opened Options
  import opened Xml

  /**
   * The elements this writer emits, by their local name in the chart
   * namespace (prefix `c:`); QName gives each one's qualified name.
   */
  datatype Tag =
    chartSpace | lang | chart | plotArea | layout | barChart | barDir | grouping | ser | idx | order
    | val | numRef | f | axId | catAx | scaling | orientation | axPos | tickLblPos | crossAx
    | crosses | auto | lblAlgn | lblOffset | valAx | majorGridlines | numFmt | crossBetween | legend
    | legendPos | plotVisOnly | printSettings | headerFooter | pageMargins | pageSetup

  function QName(t: Tag): string {
    match t
    case chartSpace => "c:chartSpace"
    case lang => "c:lang"
    case chart => "c:chart"
    case plotArea => "c:plotArea"
    case layout => "c:layout"
    case barChart => "c:barChart"
    case barDir => "c:barDir"
    case grouping => "c:grouping"
    case ser => "c:ser"
    case idx => "c:idx"
    case order => "c:order"
    case val => "c:val"
    case numRef => "c:numRef"
    case f => "c:f"
    case axId => "c:axId"
    case catAx => "c:catAx"
    case scaling => "c:scaling"
    case orientation => "c:orientation"
    case axPos => "c:axPos"
    case tickLblPos => "c:tickLblPos"
    case crossAx => "c:crossAx"
    case crosses => "c:crosses"
    case auto => "c:auto"
    case lblAlgn => "c:lblAlgn"
    case lblOffset => "c:lblOffset"
    case valAx => "c:valAx"
    case majorGridlines => "c:majorGridlines"
    case numFmt => "c:numFmt"
    case crossBetween => "c:crossBetween"
    case legend => "c:legend"
    case legendPos => "c:legendPos"
    case plotVisOnly => "c:plotVisOnly"
    case printSettings => "c:printSettings"
    case headerFooter => "c:headerFooter"
    case pageMargins => "c:pageMargins"
    case pageSetup => "c:pageSetup"
  }

  /** The tag whose qualified name is `s`, if any: the inverse of QName. */
  function TagNamed(s: string): Option<Tag> {
    if |s| == 3 then
      if s == "c:f" then Some(f)
      else None
    else if |s| == 5 then
      if s == "c:ser" then Some(ser)
      else if s == "c:idx" then Some(idx)
      else if s == "c:val" then Some(val)
      else None
    else if |s| == 6 then
      if s == "c:lang" then Some(lang)
      else if s == "c:axId" then Some(axId)
      else if s == "c:auto" then Some(auto)
      else None
    else if |s| == 7 then
      if s == "c:chart" then Some(chart)
      else if s == "c:order" then Some(order)
      else if s == "c:catAx" then Some(catAx)
      else if s == "c:axPos" then Some(axPos)
      else if s == "c:valAx" then Some(valAx)
      else None
    else if |s| == 8 then
      if s == "c:layout" then Some(layout)
      else if s == "c:barDir" then Some(barDir)
      else if s == "c:numRef" then Some(numRef)
      else if s == "c:numFmt" then Some(numFmt)
      else if s == "c:legend" then Some(legend)
      else None
    else if |s| == 9 then
      if s == "c:scaling" then Some(scaling)
      else if s == "c:crossAx" then Some(crossAx)
      else if s == "c:crosses" then Some(crosses)
      else if s == "c:lblAlgn" then Some(lblAlgn)
      else None
    else if |s| == 10 then
      if s == "c:plotArea" then Some(plotArea)
      else if s == "c:barChart" then Some(barChart)
      else if s == "c:grouping" then Some(grouping)
      else None
    else if |s| == 11 then
      if s == "c:lblOffset" then Some(lblOffset)
      else if s == "c:legendPos" then Some(legendPos)
      else if s == "c:pageSetup" then Some(pageSetup)
      else None
    else if |s| == 12 then
      if s == "c:chartSpace" then Some(chartSpace)
      else if s == "c:tickLblPos" then Some(tickLblPos)
      else None
    else if |s| == 13 then
      if s == "c:orientation" then Some(orientation)
      else if s == "c:plotVisOnly" then Some(plotVisOnly)
      else if s == "c:pageMargins" then Some(pageMargins)
      else None
    else if |s| == 14 then
      if s == "c:crossBetween" then Some(crossBetween)
      else if s == "c:headerFooter" then Some(headerFooter)
      else None
    else if |s| == 15 then
      if s == "c:printSettings" then Some(printSettings)
      else None
    else if |s| == 16 then
      if s == "c:majorGridlines" then Some(majorGridlines)
      else None
    else None
  }

  /**
   * Every tag is recovered from its qualified name. The tags are taken in
   * groups to keep each proof small.
   */
  lemma QNameRoundTrip(t: Tag)
    ensures TagNamed(QName(t)) == Some(t)
  {
    if t.chartSpace? || t.lang? || t.chart? || t.plotArea? || t.layout? || t.barChart? || t.barDir? || t.grouping? || t.ser? {
      QNameRoundTrip1(t);
    } else if t.idx? || t.order? || t.val? || t.numRef? || t.f? || t.axId? || t.catAx? || t.scaling? {
      QNameRoundTrip2(t);
    } else if t.orientation? || t.axPos? || t.tickLblPos? || t.crossAx? || t.crosses? || t.auto? {
      QNameRoundTrip3(t);
    } else if t.lblAlgn? || t.lblOffset? || t.valAx? || t.majorGridlines? || t.numFmt? {
      QNameRoundTrip4(t);
    } else if t.crossBetween? || t.legend? || t.legendPos? || t.plotVisOnly? {
      QNameRoundTrip5(t);
    } else {
      QNameRoundTrip6(t);
    }
  }

  lemma QNameRoundTrip1(t: Tag)
    requires t.chartSpace? || t.lang? || t.chart? || t.plotArea? || t.layout? || t.barChart? || t.barDir? || t.grouping? || t.ser?
    ensures TagNamed(QName(t)) == Some(t)
  {
  }

  lemma QNameRoundTrip2(t: Tag)
    requires t.idx? || t.order? || t.val? || t.numRef? || t.f? || t.axId? || t.catAx? || t.scaling?
    ensures TagNamed(QName(t)) == Some(t)
  {
  }

  lemma QNameRoundTrip3(t: Tag)
    requires t.orientation? || t.axPos? || t.tickLblPos? || t.crossAx? || t.crosses? || t.auto?
    ensures TagNamed(QName(t)) == Some(t)
  {
  }

  lemma QNameRoundTrip4(t: Tag)
    requires t.lblAlgn? || t.lblOffset? || t.valAx? || t.majorGridlines? || t.numFmt?
    ensures TagNamed(QName(t)) == Some(t)
  {
  }

  lemma QNameRoundTrip5(t: Tag)
    requires t.crossBetween? || t.legend? || t.legendPos? || t.plotVisOnly?
    ensures TagNamed(QName(t)) == Some(t)
  {
  }

  lemma QNameRoundTrip6(t: Tag)
    requires t.printSettings? || t.headerFooter? || t.pageMargins? || t.pageSetup?
    ensures TagNamed(QName(t)) == Some(t)
  {
  }

  /**
   * Distinct tags have distinct qualified names, so a stream of tag-level
   * events determines the element names written out.
   */
  lemma QNameInjective(a: Tag, b: Tag)
    requires QName(a) == QName(b)
    ensures a == b
  {
    QNameRoundTrip(a);
    QNameRoundTrip(b);
  }

  /** The C integer types the chart fields are stored in. */
  type uint16 = x: int | 0 <= x < 0x1_0000
  type uint32 = x: int | 0 <= x < 0x1_0000_0000

  /**
   * A data series: its `values.range` formula and `values.sheetname`, each a
   * string pointer that may be NULL (`None`).
   */
  datatype Series = Series(range: Option<string>, sheetname: Option<string>)

  /** The base that axis ids are derived from. */
  const AxisIdBase: int := 50010000

  /** The axis id computed in uint32_t arithmetic as 50010000 + id + 1. */
  function AxisIdFor(id: uint32): (r: uint32)
    ensures id < 0x1_0000_0000 - AxisIdBase - 1 ==> r == AxisIdBase + id + 1 && r != 0
  {
    ((AxisIdBase + id) % 0x1_0000_0000 + 1) % 0x1_0000_0000
  }

  /**
   * The axis ids once the axis-id writer has run on a chart numbered `id`:
   * allocated when the first is still zero, kept as they are otherwise.
   */
  function AxisIdsAfter(axisId1: uint32, axisId2: uint32, id: uint32): (uint32, uint32) {
    if axisId1 == 0 then (AxisIdFor(id), AxisIdFor(id)) else (axisId1, axisId2)
  }

  /** The index a series counter holds after `n` post-increments from `k`, in uint16_t arithmetic. */
  function Advance(k: uint16, n: nat): uint16 {
    (k + n) % 0x1_0000
  }

  function ValStr(s: string): seq<Attribute> { [Attribute("val", Str(s))] }
  function ValInt(n: int): seq<Attribute> { [Attribute("val", Int(n))] }

  // The schema's fixed leaf elements.

  /** The namespaces that `c:chartSpace` declares. */
  const ChartNamespace: string := "http://schemas.openxmlformats.org/drawingml/2006/chart"
  const DrawingNamespace: string := "http://schemas.openxmlformats.org/drawingml/2006/main"
  const RelationshipsNamespace: string := "http://schemas.openxmlformats.org/officeDocument/2006/relationships"

  function ChartSpaceNamespaces(): seq<Attribute> {
    [ Attribute("xmlns:c", Str(ChartNamespace)),
      Attribute("xmlns:a", Str(DrawingNamespace)),
      Attribute("xmlns:r", Str(RelationshipsNamespace)) ]
  }
  function LangTag(): Event<Tag> { Empty(lang, ValStr("en-US")) }
  function LayoutTag(): Event<Tag> { Empty(layout, []) }
  function GroupingTag(): Event<Tag> { Empty(grouping, ValStr("clustered")) }
  function IdxTag(index: uint16): Event<Tag> { Empty(idx, ValInt(index)) }
  function OrderTag(index: uint16): Event<Tag> { Empty(order, ValInt(index)) }
  function AxIdTag(axisId: uint32): Event<Tag> { Empty(axId, ValInt(axisId)) }
  function FTag(range: Option<string>): Event<Tag> { Data(f, range) }
  function OrientationTag(): Event<Tag> { Empty(orientation, ValStr("minMax")) }
  function AxPosTag(position: string): Event<Tag> { Empty(axPos, ValStr(position)) }
  function TickLblPosTag(): Event<Tag> { Empty(tickLblPos, ValStr("nextTo")) }
  function CrossAxTag(axisId: uint32): Event<Tag> { Empty(crossAx, ValInt(axisId)) }
  function CrossesTag(): Event<Tag> { Empty(crosses, ValStr("autoZero")) }
  function AutoTag(): Event<Tag> { Empty(auto, ValStr("1")) }
  function LblAlgnTag(): Event<Tag> { Empty(lblAlgn, ValStr("ctr")) }
  function LblOffsetTag(): Event<Tag> { Empty(lblOffset, ValStr("100")) }
  function MajorGridlinesTag(): Event<Tag> { Empty(majorGridlines, []) }
  function NumFmtTag(): Event<Tag> {
    Empty(numFmt, [Attribute("formatCode", Str("General")), Attribute("sourceLinked", Str("1"))])
  }
  function CrossBetweenTag(): Event<Tag> { Empty(crossBetween, ValStr("between")) }
  function LegendPosTag(): Event<Tag> { Empty(legendPos, ValStr("r")) }
  function PlotVisOnlyTag(): Event<Tag> { Empty(plotVisOnly, ValStr("1")) }
  function HeaderFooterTag(): Event<Tag> { Empty(headerFooter, []) }
  function PageMarginsTag(): Event<Tag> {
    Empty(pageMargins,
      [ Attribute("b", Str("0.75")), Attribute("l", Str("0.7")), Attribute("r", Str("0.7")),
        Attribute("t", Str("0.75")), Attribute("header", Str("0.3")), Attribute("footer", Str("0.3")) ])
  }
  function PageSetupTag(): Event<Tag> { Empty(pageSetup, []) }
  function BarDirTag(): Event<Tag> { Empty(barDir, ValStr("bar")) }

  // The elements with content, in the order the writers emit them.

  function NumRefElement(range: Option<string>): seq<Event<Tag>> {
    Wrap(numRef, [], [FTag(range)])
  }

  function ValElement(s: Series): seq<Event<Tag>> {
    Wrap(val, [], NumRefElement(s.range))
  }

  function SerElement(index: uint16, s: Series): seq<Event<Tag>> {
    Wrap(ser, [], [IdxTag(index), OrderTag(index)] + ValElement(s))
  }

  /** The `c:ser` blocks of the series list, numbered by a counter that starts at `k`. */
  function SerElements(k: uint16, ss: seq<Series>): seq<Event<Tag>>
    decreases |ss|
  {
    if |ss| == 0 then []
    else SerElements(k, ss[..|ss| - 1]) + SerElement(Advance(k, |ss| - 1), ss[|ss| - 1])
  }

  function BarChartElement(k: uint16, ss: seq<Series>, axisId1: uint32, axisId2: uint32): seq<Event<Tag>> {
    Wrap(barChart, [], [BarDirTag(), GroupingTag()] + SerElements(k, ss) + [AxIdTag(axisId1), AxIdTag(axisId2)])
  }

  function ScalingElement(): seq<Event<Tag>> {
    Wrap(scaling, [], [OrientationTag()])
  }

  function CatAxElement(axisId1: uint32, axisId2: uint32): seq<Event<Tag>> {
    Wrap(catAx, [],
      [AxIdTag(axisId1)] + ScalingElement() +
      [AxPosTag("l"), TickLblPosTag(), CrossAxTag(axisId2), CrossesTag(), AutoTag(), LblAlgnTag(), LblOffsetTag()])
  }

  function ValAxElement(axisId1: uint32, axisId2: uint32): seq<Event<Tag>> {
    Wrap(valAx, [],
      [AxIdTag(axisId2)] + ScalingElement() +
      [AxPosTag("b"), MajorGridlinesTag(), NumFmtTag(), TickLblPosTag(), CrossAxTag(axisId1), CrossesTag(), CrossBetweenTag()])
  }

  /** What the plot area writer emits: the element is opened here and closed by the chart writer. */
  function PlotAreaOpening(k: uint16, ss: seq<Series>, axisId1: uint32, axisId2: uint32): seq<Event<Tag>> {
    [Start(plotArea, []), LayoutTag()] + BarChartElement(k, ss, axisId1, axisId2)
  }

  function LegendElement(): seq<Event<Tag>> {
    Wrap(legend, [], [LegendPosTag(), LayoutTag()])
  }

  function ChartElement(k: uint16, ss: seq<Series>, axisId1: uint32, axisId2: uint32): seq<Event<Tag>> {
    Wrap(chart, [],
      PlotAreaOpening(k, ss, axisId1, axisId2) + CatAxElement(axisId1, axisId2) + ValAxElement(axisId1, axisId2) +
      [End(plotArea)] + LegendElement() + [PlotVisOnlyTag()])
  }

  function PrintSettingsElement(): seq<Event<Tag>> {
    Wrap(printSettings, [], [HeaderFooterTag(), PageMarginsTag(), PageSetupTag()])
  }

  /** The whole chart part. */
  function ChartDocument(k: uint16, ss: seq<Series>, axisId1: uint32, axisId2: uint32): seq<Event<Tag>> {
    [Decl] + Wrap(chartSpace, ChartSpaceNamespaces(), [LangTag()] + ChartElement(k, ss, axisId1, axisId2) + PrintSettingsElement())
  }

  /** `n` copies of the element name `name`. */
  function Repeat(name: Tag, n: nat): (r: seq<Tag>)
    ensures |r| == n && forall i :: 0 <= i < n ==> r[i] == name
  {
    if n == 0 then [] else Repeat(name, n - 1) + [name]
  }
}
