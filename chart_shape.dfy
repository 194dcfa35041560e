/**
 * What the chart part looks like: every element nests properly, each element
 * has the children the schema subset prescribes in the prescribed order, the
 * series blocks carry consecutive counter values, and the axes cross-link.
 */
module ChartShape {
  import opened Options
  import opened Xml
  import opened ChartElements

  /** A `c:ser` block is 9 events: `c:idx`, `c:order` and `c:val`, which holds `c:numRef`, which holds `c:f`. */
  lemma SerShape(index: uint16, s: Series)
    ensures IsElement(NumRefElement(s.range), numRef, [f])
    ensures IsElement(ValElement(s), val, [numRef])
    ensures IsElement(SerElement(index, s), ser, [idx, order, val])
    ensures Balanced(SerElement(index, s)) && Children(SerElement(index, s)) == [ser]
    ensures |SerElement(index, s)| == 9
  {
    LeavesShape([FTag(s.range)], [f]);
    WrapShape(numRef, [], [FTag(s.range)]);
    WrapShape(val, [], NumRefElement(s.range));
    LeavesShape([IdxTag(index), OrderTag(index)], [idx, order]);
    ConcatShape([IdxTag(index), OrderTag(index)], ValElement(s));
    WrapShape(ser, [], [IdxTag(index), OrderTag(index)] + ValElement(s));
  }

  /** The series blocks nest, are 9 events each, and are exactly one `c:ser` element per series. */
  lemma {:induction false} SerElementsShape(k: uint16, ss: seq<Series>)
    ensures Balanced(SerElements(k, ss))
    ensures Children(SerElements(k, ss)) == Repeat(ser, |ss|)
    ensures |SerElements(k, ss)| == 9 * |ss|
    decreases |ss|
  {
    if |ss| == 0 {
      assert Run<Tag>([], []) == Some([]);
    } else {
      var init := ss[..|ss| - 1];
      SerElementsShape(k, init);
      SerShape(Advance(k, |ss| - 1), ss[|ss| - 1]);
      ConcatShape(SerElements(k, init), SerElement(Advance(k, |ss| - 1), ss[|ss| - 1]));
    }
  }

  /** The i-th series block is the i-th series written with counter value k + i, modulo 2^16. */
  lemma {:induction false} SerElementAt(k: uint16, ss: seq<Series>, i: nat)
    requires i < |ss|
    ensures 9 * i + 9 <= |SerElements(k, ss)|
    ensures SerElements(k, ss)[9 * i .. 9 * i + 9] == SerElement(Advance(k, i), ss[i])
    decreases |ss|
  {
    var init := ss[..|ss| - 1];
    var last := SerElement(Advance(k, |ss| - 1), ss[|ss| - 1]);
    SerElementsShape(k, init);
    SerShape(Advance(k, |ss| - 1), ss[|ss| - 1]);
    assert SerElements(k, ss) == SerElements(k, init) + last;
    if i == |ss| - 1 {
      assert SerElements(k, ss)[9 * i .. 9 * i + 9] == last;
    } else {
      SerElementAt(k, init, i);
      assert init[i] == ss[i];
      assert SerElements(k, ss)[9 * i .. 9 * i + 9] == SerElements(k, init)[9 * i .. 9 * i + 9];
    }
  }

  /**
   * `c:barChart` holds `c:barDir`, `c:grouping`, one `c:ser` per series, then
   * the two `c:axId` elements, in this order.
   */
  lemma BarChartShape(k: uint16, ss: seq<Series>, axisId1: uint32, axisId2: uint32)
    ensures IsElement(BarChartElement(k, ss, axisId1, axisId2), barChart,
                      [barDir, grouping] + Repeat(ser, |ss|) + [axId, axId])
    ensures Balanced(BarChartElement(k, ss, axisId1, axisId2))
    ensures Children(BarChartElement(k, ss, axisId1, axisId2)) == [barChart]
  {
    var content := [BarDirTag(), GroupingTag()] + SerElements(k, ss) + [AxIdTag(axisId1), AxIdTag(axisId2)];
    BarChartContent(k, ss, axisId1, axisId2);
    WrapShape(barChart, [], content);
  }

  /** What `c:barChart` wraps: two leaves, the series blocks and two more leaves. */
  lemma BarChartContent(k: uint16, ss: seq<Series>, axisId1: uint32, axisId2: uint32)
    ensures Balanced([BarDirTag(), GroupingTag()] + SerElements(k, ss) + [AxIdTag(axisId1), AxIdTag(axisId2)])
    ensures Children([BarDirTag(), GroupingTag()] + SerElements(k, ss) + [AxIdTag(axisId1), AxIdTag(axisId2)]) ==
            [barDir, grouping] + Repeat(ser, |ss|) + [axId, axId]
  {
    var head := [BarDirTag(), GroupingTag()];
    var sers := SerElements(k, ss);
    LeavesShape(head, [barDir, grouping]);
    AxisIdsShape(axisId1, axisId2);
    SerElementsShape(k, ss);
    ConcatShape(head, sers);
    ConcatShape(head + sers, [AxIdTag(axisId1), AxIdTag(axisId2)]);
  }

  /** The two `c:axId` elements that close `c:barChart`. */
  lemma AxisIdsShape(axisId1: uint32, axisId2: uint32)
    ensures Balanced([AxIdTag(axisId1), AxIdTag(axisId2)])
    ensures Children([AxIdTag(axisId1), AxIdTag(axisId2)]) == [axId, axId]
  {
    LeavesShape([AxIdTag(axisId1), AxIdTag(axisId2)], [axId, axId]);
  }

  /** With no series, only the fixed parts of `c:barChart` remain. */
  lemma BarChartWithoutSeries(k: uint16, axisId1: uint32, axisId2: uint32)
    ensures BarChartElement(k, [], axisId1, axisId2) ==
            Wrap(barChart, [], [BarDirTag(), GroupingTag(), AxIdTag(axisId1), AxIdTag(axisId2)])
  {
    assert SerElements(k, []) == [];
  }

  /** `c:scaling` holds `c:orientation`. */
  lemma ScalingShape()
    ensures IsElement(ScalingElement(), scaling, [orientation])
    ensures Balanced(ScalingElement()) && Children(ScalingElement()) == [scaling]
  {
    LeavesShape([OrientationTag()], [orientation]);
    WrapShape(scaling, [], [OrientationTag()]);
  }

  /** `c:catAx` holds its nine children in the schema's order. */
  lemma CatAxShape(axisId1: uint32, axisId2: uint32)
    ensures IsElement(CatAxElement(axisId1, axisId2), catAx,
                      [axId, scaling, axPos, tickLblPos, crossAx,
                       crosses, auto, lblAlgn, lblOffset])
    ensures Balanced(CatAxElement(axisId1, axisId2)) && Children(CatAxElement(axisId1, axisId2)) == [catAx]
  {
    CatAxContent(axisId1, axisId2);
    WrapShape(catAx, [], [AxIdTag(axisId1)] + ScalingElement() +
                     [AxPosTag("l"), TickLblPosTag(),
                      CrossAxTag(axisId2), CrossesTag(), AutoTag(), LblAlgnTag(), LblOffsetTag()]);
  }

  /** What `c:catAx` wraps: its axis id, `c:scaling`, then seven leaves. */
  lemma CatAxContent(axisId1: uint32, axisId2: uint32)
    ensures var rest := [AxPosTag("l"), TickLblPosTag(),
                 CrossAxTag(axisId2), CrossesTag(), AutoTag(), LblAlgnTag(), LblOffsetTag()];
            Balanced([AxIdTag(axisId1)] + ScalingElement() + rest) &&
            Children([AxIdTag(axisId1)] + ScalingElement() + rest) ==
              [axId, scaling] + [axPos, tickLblPos, crossAx, crosses, auto, lblAlgn, lblOffset]
  {
    var rest := [AxPosTag("l"), TickLblPosTag(),
                 CrossAxTag(axisId2), CrossesTag(), AutoTag(), LblAlgnTag(), LblOffsetTag()];
    ScalingShape();
    LeavesShape([AxIdTag(axisId1)], [axId]);
    LeavesShape(rest, [axPos, tickLblPos, crossAx, crosses, auto, lblAlgn, lblOffset]);
    ConcatShape([AxIdTag(axisId1)], ScalingElement());
    ConcatShape([AxIdTag(axisId1)] + ScalingElement(), rest);
  }

  /** `c:valAx` holds its nine children in the schema's order. */
  lemma ValAxShape(axisId1: uint32, axisId2: uint32)
    ensures IsElement(ValAxElement(axisId1, axisId2), valAx,
                      [axId, scaling, axPos, majorGridlines, numFmt,
                       tickLblPos, crossAx, crosses, crossBetween])
    ensures Balanced(ValAxElement(axisId1, axisId2)) && Children(ValAxElement(axisId1, axisId2)) == [valAx]
  {
    ValAxContent(axisId1, axisId2);
    WrapShape(valAx, [], [AxIdTag(axisId2)] + ScalingElement() +
                     [AxPosTag("b"), MajorGridlinesTag(), NumFmtTag(),
                      TickLblPosTag(), CrossAxTag(axisId1), CrossesTag(), CrossBetweenTag()]);
  }

  /** What `c:valAx` wraps: its axis id, `c:scaling`, then seven leaves. */
  lemma ValAxContent(axisId1: uint32, axisId2: uint32)
    ensures var rest := [AxPosTag("b"), MajorGridlinesTag(), NumFmtTag(),
                 TickLblPosTag(), CrossAxTag(axisId1), CrossesTag(), CrossBetweenTag()];
            Balanced([AxIdTag(axisId2)] + ScalingElement() + rest) &&
            Children([AxIdTag(axisId2)] + ScalingElement() + rest) ==
              [axId, scaling] + [axPos, majorGridlines, numFmt, tickLblPos, crossAx, crosses, crossBetween]
  {
    var rest := [AxPosTag("b"), MajorGridlinesTag(), NumFmtTag(),
                 TickLblPosTag(), CrossAxTag(axisId1), CrossesTag(), CrossBetweenTag()];
    ScalingShape();
    LeavesShape([AxIdTag(axisId2)], [axId]);
    LeavesShape(rest, [axPos, majorGridlines, numFmt, tickLblPos, crossAx, crosses, crossBetween]);
    ConcatShape([AxIdTag(axisId2)], ScalingElement());
    ConcatShape([AxIdTag(axisId2)] + ScalingElement(), rest);
  }

  /**
   * The plot area opened by the plot area writer and closed by the chart
   * writer is one element holding `c:layout`, `c:barChart`, `c:catAx` and
   * `c:valAx`, in this order.
   */
  lemma PlotAreaShape(k: uint16, ss: seq<Series>, axisId1: uint32, axisId2: uint32)
    ensures IsElement(PlotAreaOpening(k, ss, axisId1, axisId2) + CatAxElement(axisId1, axisId2) +
                      ValAxElement(axisId1, axisId2) + [End(plotArea)],
                      plotArea, [layout, barChart, catAx, valAx])
  {
    PlotAreaClosed(k, ss, axisId1, axisId2);
    PlotAreaWrapped(k, ss, axisId1, axisId2);
  }

  /** Closing the opened `c:plotArea` after the two axes wraps the layout, the bar chart and the axes. */
  lemma PlotAreaClosed(k: uint16, ss: seq<Series>, axisId1: uint32, axisId2: uint32)
    ensures PlotAreaOpening(k, ss, axisId1, axisId2) + CatAxElement(axisId1, axisId2) +
            ValAxElement(axisId1, axisId2) + [End(plotArea)] ==
            Wrap(plotArea, [], [LayoutTag()] + BarChartElement(k, ss, axisId1, axisId2) +
                                   CatAxElement(axisId1, axisId2) + ValAxElement(axisId1, axisId2))
  {
  }

  lemma PlotAreaWrapped(k: uint16, ss: seq<Series>, axisId1: uint32, axisId2: uint32)
    ensures IsElement(Wrap(plotArea, [], [LayoutTag()] + BarChartElement(k, ss, axisId1, axisId2) +
                                             CatAxElement(axisId1, axisId2) + ValAxElement(axisId1, axisId2)),
                      plotArea, [layout, barChart, catAx, valAx])
  {
    var barEvents := BarChartElement(k, ss, axisId1, axisId2);
    var catEvents := CatAxElement(axisId1, axisId2);
    var valEvents := ValAxElement(axisId1, axisId2);
    BarChartShape(k, ss, axisId1, axisId2);
    CatAxShape(axisId1, axisId2);
    ValAxShape(axisId1, axisId2);
    var layoutEvents := [LayoutTag()];
    LeavesShape(layoutEvents, [layout]);
    ConcatShape(layoutEvents, barEvents);
    ConcatShape(layoutEvents + barEvents, catEvents);
    ConcatShape(layoutEvents + barEvents + catEvents, valEvents);
    WrapShape(plotArea, [], layoutEvents + barEvents + catEvents + valEvents);
  }

  /** `c:chart` holds `c:plotArea`, `c:legend` and `c:plotVisOnly`; `c:legend` holds `c:legendPos` and `c:layout`. */
  lemma ChartShape(k: uint16, ss: seq<Series>, axisId1: uint32, axisId2: uint32)
    ensures IsElement(LegendElement(), legend, [legendPos, layout])
    ensures IsElement(ChartElement(k, ss, axisId1, axisId2), chart, [plotArea, legend, plotVisOnly])
    ensures Balanced(ChartElement(k, ss, axisId1, axisId2)) && Children(ChartElement(k, ss, axisId1, axisId2)) == [chart]
  {
    var plot := PlotAreaOpening(k, ss, axisId1, axisId2) + CatAxElement(axisId1, axisId2) +
                ValAxElement(axisId1, axisId2) + [End(plotArea)];
    PlotAreaShape(k, ss, axisId1, axisId2);
    ElementBalanced(plot, plotArea, [layout, barChart, catAx, valAx]);
    assert plot == Wrap(plotArea, plot[0].attrs, plot[1..|plot| - 1]);
    WrapShape(plotArea, plot[0].attrs, plot[1..|plot| - 1]);
    LeavesShape([LegendPosTag(), LayoutTag()], [legendPos, layout]);
    WrapShape(legend, [], [LegendPosTag(), LayoutTag()]);
    LeavesShape([PlotVisOnlyTag()], [plotVisOnly]);
    ConcatShape(plot, LegendElement());
    ConcatShape(plot + LegendElement(), [PlotVisOnlyTag()]);
    WrapShape(chart, [], plot + LegendElement() + [PlotVisOnlyTag()]);
    assert ChartElement(k, ss, axisId1, axisId2) == Wrap(chart, [], plot + LegendElement() + [PlotVisOnlyTag()]);
  }

  /** `c:printSettings` holds `c:headerFooter`, `c:pageMargins` and `c:pageSetup`. */
  lemma PrintSettingsShape()
    ensures IsElement(PrintSettingsElement(), printSettings, [headerFooter, pageMargins, pageSetup])
    ensures Balanced(PrintSettingsElement()) && Children(PrintSettingsElement()) == [printSettings]
  {
    LeavesShape([HeaderFooterTag(), PageMarginsTag(), PageSetupTag()], [headerFooter, pageMargins, pageSetup]);
    WrapShape(printSettings, [], [HeaderFooterTag(), PageMarginsTag(), PageSetupTag()]);
  }

  /**
   * The chart part is the declaration followed by one well-nested `c:chartSpace`
   * element whose children are `c:lang`, `c:chart` and `c:printSettings`.
   */
  lemma DocumentShape(k: uint16, ss: seq<Series>, axisId1: uint32, axisId2: uint32)
    ensures IsDocument(ChartDocument(k, ss, axisId1, axisId2), chartSpace, [lang, chart, printSettings])
    ensures Balanced(ChartDocument(k, ss, axisId1, axisId2)[1..])
  {
    var chartEvents := ChartElement(k, ss, axisId1, axisId2);
    ChartShape(k, ss, axisId1, axisId2);
    PrintSettingsShape();
    LeavesShape([LangTag()], [lang]);
    ConcatShape([LangTag()], chartEvents);
    ConcatShape([LangTag()] + chartEvents, PrintSettingsElement());
    WrapShape(chartSpace, ChartSpaceNamespaces(), [LangTag()] + chartEvents + PrintSettingsElement());
  }
}
